/** RuntimeLifecycle: the directories, markers and port pairs of the trial runtimes on one node. */
module RuntimePorts {
  import opened Common

  type Name = string
  type Id = nat
  type Port = nat

  datatype Owner = Owner(tenant: Id, template: Id, database: Name, operation: Id)

  /** dsx-runtime.json */
  datatype Marker = Marker(owner: Owner, http: Port, gevent: Port)

  /** A runtime directory; a failed materialisation can leave one without a marker. */
  datatype Runtime = Runtime(marker: Option<Marker>)

  datatype Ports = Ports(http: Port, gevent: Port)

  datatype Outcome<T> = Done(value: T) | Error

  // -- the range ------------------------------------------------------------------------------

  /** What parse_runtime_config accepts. */
  predicate RangeOk(start: Port, end: Port) { 1024 <= start < end <= 65533 && start % 2 == 0 }

  /** The first ports of the pairs of range(start, end, 2). */
  function PairStarts(start: Port, end: Port): set<Port> {
    set http | start <= http < end && IsPairStart(start, http)
  }

  predicate IsPairStart(start: Port, http: Port) { start <= http && (http - start) % 2 == 0 }

  function PairCount(start: Port, end: Port): nat
    requires start < end
  {
    (end - start + 1) / 2
  }

  lemma NextPairStart(start: Port, h: Port)
    ensures IsPairStart(start, h) <==> h == start || IsPairStart(start + 2, h)
  {
    if h >= start + 2 { assert h - start == (h - (start + 2)) + 2; }
  }

  lemma {:induction false} PairStartsCount(start: Port, end: Port)
    requires start < end
    ensures |PairStarts(start, end)| == PairCount(start, end)
    decreases end - start
  {
    forall h ensures IsPairStart(start, h) <==> h == start || IsPairStart(start + 2, h) {
      NextPairStart(start, h);
    }
    if end - start <= 2 {
      assert PairStarts(start, end) == {start};
    } else {
      PairStartsCount(start + 2, end);
      AtLeast(start + 2);
      hide IsPairStart;
      assert PairStarts(start, end) == {start} + PairStarts(start + 2, end);
    }
  }

  lemma AtLeast(start: Port)
    ensures forall h :: IsPairStart(start, h) ==> start <= h
  {
  }

  // -- the live runtimes ----------------------------------------------------------------------

  function Live(runtimes: map<Name, Runtime>): set<Name> { set n | n in runtimes && runtimes[n].marker.Some? }

  predicate InRange(start: Port, end: Port, m: Marker) {
    m.http in PairStarts(start, end) && m.gevent == m.http + 1
  }

  /** The pairs of live runtimes lie in the range and are pairwise disjoint. */
  ghost predicate PortsOk(start: Port, end: Port, runtimes: map<Name, Runtime>) {
    && (forall n :: n in Live(runtimes) ==> InRange(start, end, runtimes[n].marker.value))
    && (forall n, k :: n in Live(runtimes) && k in Live(runtimes) && n != k ==>
          {runtimes[n].marker.value.http, runtimes[n].marker.value.gevent}
          !! {runtimes[k].marker.value.http, runtimes[k].marker.value.gevent})
  }

  function UsedPorts(runtimes: map<Name, Runtime>, names: set<Name>): set<Port> {
    (set n | n in names && n in runtimes && runtimes[n].marker.Some? :: runtimes[n].marker.value.http)
    + (set n | n in names && n in runtimes && runtimes[n].marker.Some? :: runtimes[n].marker.value.gevent)
  }

  predicate Free(used: set<Port>, available: set<Port>, http: Port) {
    http !in used && http + 1 !in used && http in available && http + 1 in available
  }

  ghost predicate IsLowestFree(start: Port, end: Port, used: set<Port>, available: set<Port>, http: Port) {
    && http in PairStarts(start, end) && Free(used, available, http)
    && forall h :: h in PairStarts(start, end) && h < http ==> !Free(used, available, h)
  }

  function HttpPorts(runtimes: map<Name, Runtime>): set<Port> {
    set n | n in Live(runtimes) :: runtimes[n].marker.value.http
  }

  /** A pair of the range meets a live runtime's ports only by being its pair. */
  lemma PairIsTaken(start: Port, end: Port, runtimes: map<Name, Runtime>, http: Port)
    requires PortsOk(start, end, runtimes) && http in PairStarts(start, end)
    ensures (http in UsedPorts(runtimes, runtimes.Keys) || http + 1 in UsedPorts(runtimes, runtimes.Keys)) <==>
      http in HttpPorts(runtimes)
  {
    forall n | n in Live(runtimes)
      ensures runtimes[n].marker.value.http != http + 1 && runtimes[n].marker.value.gevent != http
    {
      var other := runtimes[n].marker.value.http;
      assert InRange(start, end, runtimes[n].marker.value);
      assert (other - start) % 2 == 0 && (http - start) % 2 == 0;
    }
    if http in HttpPorts(runtimes) {
      var n :| n in Live(runtimes) && runtimes[n].marker.value.http == http;
      assert http in UsedPorts(runtimes, runtimes.Keys);
    }
    if http + 1 in UsedPorts(runtimes, runtimes.Keys) {
      var n :| n in Live(runtimes) && runtimes[n].marker.value.gevent == http + 1;
      assert InRange(start, end, runtimes[n].marker.value);
    }
  }

  lemma {:induction false} ImageCount(runtimes: map<Name, Runtime>, names: set<Name>)
    requires names <= Live(runtimes)
    requires forall n, k :: n in names && k in names && n != k ==>
      runtimes[n].marker.value.http != runtimes[k].marker.value.http
    ensures |set n | n in names :: runtimes[n].marker.value.http| == |names|
    decreases |names|
  {
    var image := set n | n in names :: runtimes[n].marker.value.http;
    if names == {} {
      assert image == {};
    } else {
      var n :| n in names;
      var rest := names - {n};
      ImageCount(runtimes, rest);
      assert image == (set k | k in rest :: runtimes[k].marker.value.http) + {runtimes[n].marker.value.http};
    }
  }

  /** There are never more live runtimes than pairs, and all pairs are taken exactly when there are as many. */
  lemma Pigeonhole(start: Port, end: Port, runtimes: map<Name, Runtime>)
    requires start < end && PortsOk(start, end, runtimes)
    ensures |Live(runtimes)| <= PairCount(start, end)
    ensures |Live(runtimes)| == PairCount(start, end) <==> HttpPorts(runtimes) == PairStarts(start, end)
  {
    PairStartsCount(start, end);
    ImageCount(runtimes, Live(runtimes));
    var taken, all := HttpPorts(runtimes), PairStarts(start, end);
    assert taken <= all by {
      forall h | h in taken ensures h in all {
        var n :| n in Live(runtimes) && runtimes[n].marker.value.http == h;
        assert InRange(start, end, runtimes[n].marker.value);
      }
    }
    assert |all - taken| == |all| - |taken|;
  }

  /** With every port bindable no pair is free exactly when there are ceil((end - start) / 2) live runtimes. */
  lemma ExhaustedIffAllTaken(start: Port, end: Port, runtimes: map<Name, Runtime>, available: set<Port>)
    requires start < end && PortsOk(start, end, runtimes) && forall p :: start <= p <= end ==> p in available
    ensures (forall h :: h in PairStarts(start, end) ==> !Free(UsedPorts(runtimes, runtimes.Keys), available, h))
            <==> |Live(runtimes)| == PairCount(start, end)
  {
    Pigeonhole(start, end, runtimes);
    forall h | h in PairStarts(start, end)
      ensures Free(UsedPorts(runtimes, runtimes.Keys), available, h) <==> h !in HttpPorts(runtimes)
    {
      PairIsTaken(start, end, runtimes, h);
    }
    forall h | h in HttpPorts(runtimes) ensures h in PairStarts(start, end) {
      var n :| n in Live(runtimes) && runtimes[n].marker.value.http == h;
      assert InRange(start, end, runtimes[n].marker.value);
    }
  }

  /** A pair is free when both its ports can be bound and no live runtime has one of them. */
  lemma FreeIff(runtimes: map<Name, Runtime>, available: set<Port>, http: Port)
    ensures Free(UsedPorts(runtimes, runtimes.Keys), available, http) <==>
      && http in available && http + 1 in available
      && forall n :: n in runtimes && runtimes[n].marker.Some? ==>
           && runtimes[n].marker.value.http != http && runtimes[n].marker.value.http != http + 1
           && runtimes[n].marker.value.gevent != http && runtimes[n].marker.value.gevent != http + 1
  {
    forall n | n in runtimes && runtimes[n].marker.Some?
      ensures runtimes[n].marker.value.http in UsedPorts(runtimes, runtimes.Keys)
      ensures runtimes[n].marker.value.gevent in UsedPorts(runtimes, runtimes.Keys)
    {
    }
  }

  /** The pairs lie two apart from the start of the range, and begin before its end. */
  lemma PairStartIff(start: Port, end: Port, h: Port)
    ensures h in PairStarts(start, end) <==> start <= h < end && exists k: nat :: h == start + 2 * k
  {
    if h in PairStarts(start, end) { assert h == start + 2 * ((h - start) / 2); }
  }

  class RuntimeLifecycle {
    const start: Port
    const end: Port
    var runtimes: map<Name, Runtime>

    ghost predicate Valid()
      reads this
    {
      RangeOk(start, end) && PortsOk(start, end, runtimes)
    }

    /** At first there are only the source directories, which carry no runtime marker. */
    constructor (start: Port, end: Port, sources: set<Name>)
      requires RangeOk(start, end)
      ensures Valid() && this.start == start && this.end == end
      ensures runtimes.Keys == sources && Live(runtimes) == {}
    {
      this.start, this.end := start, end;
      runtimes := map n | n in sources :: Runtime(None);
    }

    /** allocate_ports, given the ports the operating system lets one bind. */
    method AllocatePorts(available: set<Port>) returns (r: Outcome<Ports>)
      requires Valid()
      ensures r.Done? ==>
        && r.value.gevent == r.value.http + 1
        && IsLowestFree(start, end, UsedPorts(runtimes, runtimes.Keys), available, r.value.http)
      ensures r.Error? ==> forall h :: h in PairStarts(start, end) ==>
        !Free(UsedPorts(runtimes, runtimes.Keys), available, h)
    {
      var used: set<Port> := {};
      var rest := runtimes.Keys;
      while rest != {}
        invariant rest <= runtimes.Keys && used == UsedPorts(runtimes, runtimes.Keys - rest)
        decreases rest
      {
        var n :| n in rest;
        var seen := runtimes.Keys - rest;
        var marker := runtimes[n].marker;
        if marker.Some? { used := used + {marker.value.http, marker.value.gevent}; }
        rest := rest - {n};
        assert runtimes.Keys - rest == seen + {n};
      }
      assert runtimes.Keys - {} == runtimes.Keys;
      var http := start;
      while http < end
        invariant start <= http <= end + 1 && (http - start) % 2 == 0
        invariant forall h :: h in PairStarts(start, end) && h < http ==> !Free(used, available, h)
        decreases end - http
      {
        if http !in used && http + 1 !in used && http in available && http + 1 in available {
          return Done(Ports(http, http + 1));
        }
        forall h | h in PairStarts(start, end) && h < http + 2 ensures !Free(used, available, h) {
          if h >= http { assert (h - start) % 2 == 0 && (http - start) % 2 == 0; assert h == http; }
        }
        http := http + 2;
      }
      return Error;
    }

    /** The copy, the configuration and the two marker files; anything may fail, and a failure after
        the copy can leave the directory behind, with or without its marker. */
    method Materialise(n: Name, marker: Marker) returns (ok: bool)
      requires n !in runtimes
      modifies this
      ensures ok ==> runtimes == old(runtimes)[n := Runtime(Some(marker))]
      ensures runtimes in {old(runtimes), old(runtimes)[n := Runtime(None)], old(runtimes)[n := Runtime(Some(marker))]}
    {
      var copied, removed, marked, finished := *, *, *, *;
      if !copied {
        if !removed { runtimes := runtimes[n := Runtime(None)]; }
        return false;
      }
      runtimes := runtimes[n := Runtime(None)];
      if !marked { return false; }
      runtimes := runtimes[n := Runtime(Some(marker))];
      return finished;
    }

    /** remove; a failing rmtree may leave the directory, and its marker. */
    method Remove(n: Name, source: Name, expected: Option<Owner>) returns (ok: bool)
      requires Valid()
      modifies this
      ensures Valid()
      ensures runtimes - {n} == old(runtimes) - {n}
      ensures n in runtimes ==> n in old(runtimes) && runtimes[n].marker in {None, old(runtimes)[n].marker}
      ensures ok ==> n !in runtimes
      ensures n == source ==> !ok && runtimes == old(runtimes)
      ensures expected.Some? && n in old(runtimes) && runtimes != old(runtimes) ==>
        old(runtimes)[n].marker.Some? && old(runtimes)[n].marker.value.owner == expected.value
    {
      if n == source { return false; }
      if n in runtimes && expected.Some? {
        if runtimes[n].marker.None? || runtimes[n].marker.value.owner != expected.value { return false; }
      }
      var stops, unlinks, reloads := *, *, *;
      if !stops || !unlinks { return false; }
      if n in runtimes {
        var removes, keepsMarker := *, *;
        ghost var before := runtimes;
        if removes {
          runtimes := runtimes - {n};
          assert Live(runtimes) <= Live(before);
        } else if !keepsMarker {
          runtimes := runtimes[n := Runtime(None)];
          assert Live(runtimes) <= Live(before);
        }
        if !removes { return false; }
      }
      return reloads;
    }

    /** ensure; the caller's profile names the source directory, which carries no runtime marker. */
    method Ensure(n: Name, source: Name, owner: Owner, available: set<Port>) returns (r: Outcome<Ports>)
      requires Valid()
      modifies this
      ensures Valid()
      ensures runtimes - {n} == old(runtimes) - {n}
      ensures r.Done? ==> n in runtimes && runtimes[n].marker == Some(Marker(owner, r.value.http, r.value.gevent))
      ensures n in old(runtimes) && r.Done? ==> runtimes == old(runtimes)
      ensures n !in old(runtimes) && r.Done? ==>
        IsLowestFree(start, end, UsedPorts(old(runtimes), old(runtimes.Keys)), available, r.value.http)
      ensures n in old(runtimes) && runtimes != old(runtimes) ==>
        old(runtimes)[n].marker.Some? && old(runtimes)[n].marker.value.owner == owner
      ensures n == source || source !in old(runtimes) ==> r.Error? && runtimes == old(runtimes)
      ensures n in old(runtimes) && r.Done? ==> n != source && source in old(runtimes)
    {
      if n == source || source !in runtimes { return Error; }
      if n in runtimes {
        var marker := runtimes[n].marker;
        if marker.None? || marker.value.owner != owner { return Error; }
        r := Done(Ports(marker.value.http, marker.value.gevent));
      } else {
        r := AllocatePorts(available);
        if r.Error? { return; }
        ghost var before := runtimes;
        var marker := Marker(owner, r.value.http, r.value.gevent);
        FreshPairKeepsOrder(start, end, runtimes, n, marker, available);
        var ok := Materialise(n, marker);
        assert runtimes - {n} == before - {n};
        if !ok { return Error; }
      }
      var activates := *;
      if !activates {
        var _ := Remove(n, source, None);
        return Error;
      }
    }
  }

  /** A directory for a new name keeps the order, without a marker or with a free pair. */
  lemma FreshPairKeepsOrder(start: Port, end: Port, runtimes: map<Name, Runtime>, n: Name, m: Marker,
      available: set<Port>)
    requires PortsOk(start, end, runtimes) && n !in runtimes
    requires m.http in PairStarts(start, end) && m.gevent == m.http + 1
    requires Free(UsedPorts(runtimes, runtimes.Keys), available, m.http)
    ensures PortsOk(start, end, runtimes[n := Runtime(Some(m))])
    ensures PortsOk(start, end, runtimes[n := Runtime(None)])
  {
    forall k | k in Live(runtimes)
      ensures {m.http, m.gevent} !! {runtimes[k].marker.value.http, runtimes[k].marker.value.gevent}
    {
      assert runtimes[k].marker.value.http in UsedPorts(runtimes, runtimes.Keys);
      assert runtimes[k].marker.value.gevent in UsedPorts(runtimes, runtimes.Keys);
    }
    assert Live(runtimes[n := Runtime(Some(m))]) == Live(runtimes) + {n};
    assert Live(runtimes[n := Runtime(None)]) == Live(runtimes);
  }
}
