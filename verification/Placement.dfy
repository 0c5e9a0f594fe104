/** selectPlacementNode and the steps that assign tenants to nodes. */
module Placement {
  import opened Common
  import opened Runs

  type Id = nat

  /** Ids are compared as numbers here, in the source as strings: any total order will do. */
  datatype Candidate = Candidate(
    id: Id, active: bool, role: nat, pool: nat, lastSeen: Option<int>, maxTenants: Option<nat>, tenantCount: nat,
    availableBytes: Option<real>, freeBytes: Option<real>, reservedMemoryMb: real, reservedDiskGb: real)

  datatype Requirements = Requirements(role: nat, pool: nat, minMemoryMb: real, minDiskGb: real)

  datatype Capacity = Capacity(memoryMb: real, diskGb: real)

  function CapacityOf(c: Candidate): Option<Capacity> {
    if c.availableBytes.None? || c.freeBytes.None? then None
    else Some(Capacity(c.availableBytes.value / 1048576.0 - c.reservedMemoryMb,
      c.freeBytes.value / 1073741824.0 - c.reservedDiskGb))
  }

  /** tenant_count / max_tenants, or / 10000 without a limit; a limit of 0 is never eligible. */
  function Ratio(c: Candidate): real {
    if c.maxTenants.Some? && c.maxTenants.value > 0 then c.tenantCount as real / c.maxTenants.value as real
    else c.tenantCount as real / 10000.0
  }

  predicate Eligible(c: Candidate, req: Requirements, nowMs: int, offlineSeconds: int) {
    && c.active && c.role == req.role && c.pool == req.pool
    && c.lastSeen.Some? && nowMs - c.lastSeen.value <= offlineSeconds * 1000
    && (c.maxTenants.Some? ==> c.tenantCount < c.maxTenants.value)
    && CapacityOf(c).Some?
    && CapacityOf(c).value.memoryMb >= req.minMemoryMb && CapacityOf(c).value.diskGb >= req.minDiskGb
  }

  /** The comparator: lowest ratio, then most disk, then most memory, then lowest id. */
  predicate Before(a: Candidate, b: Candidate)
    requires CapacityOf(a).Some? && CapacityOf(b).Some?
  {
    var x, y := CapacityOf(a).value, CapacityOf(b).value;
    if Ratio(a) != Ratio(b) then Ratio(a) < Ratio(b)
    else if x.diskGb != y.diskGb then x.diskGb > y.diskGb
    else if x.memoryMb != y.memoryMb then x.memoryMb > y.memoryMb
    else a.id <= b.id
  }

  predicate AllMeasured(cs: seq<Candidate>) { forall c :: c in cs ==> CapacityOf(c).Some? }

  function Filter(cs: seq<Candidate>, req: Requirements, nowMs: int, offlineSeconds: int): (r: seq<Candidate>)
    ensures forall c :: c in r <==> c in cs && Eligible(c, req, nowMs, offlineSeconds)
  {
    if cs == [] then []
    else
      var rest := Filter(cs[1..], req, nowMs, offlineSeconds);
      assert cs == [cs[0]] + cs[1..];
      if Eligible(cs[0], req, nowMs, offlineSeconds) then [cs[0]] + rest else rest
  }

  function Insert(c: Candidate, cs: seq<Candidate>): (r: seq<Candidate>)
    requires CapacityOf(c).Some? && AllMeasured(cs)
    ensures forall x :: x in r <==> x == c || x in cs
  {
    if cs == [] || Before(c, cs[0]) then [c] + cs
    else
      assert cs == [cs[0]] + cs[1..];
      [cs[0]] + Insert(c, cs[1..])
  }

  function Sort(cs: seq<Candidate>): (r: seq<Candidate>)
    requires AllMeasured(cs)
    ensures forall x :: x in r <==> x in cs
  {
    if cs == [] then []
    else
      assert cs == [cs[0]] + cs[1..];
      Insert(cs[0], Sort(cs[1..]))
  }

  function Select(cs: seq<Candidate>, req: Requirements, nowMs: int, offlineSeconds: int): Option<Candidate> {
    var sorted := Sort(Filter(cs, req, nowMs, offlineSeconds));
    if sorted == [] then None else Some(sorted[0])
  }

  // -- the optimum ----------------------------------------------------------------------------

  lemma BeforeIsTotal(a: Candidate, b: Candidate, c: Candidate)
    requires CapacityOf(a).Some? && CapacityOf(b).Some? && CapacityOf(c).Some?
    ensures Before(a, b) || Before(b, a)
    ensures Before(a, b) && Before(b, c) ==> Before(a, c)
    ensures Before(a, b) && Before(b, a) ==> a.id == b.id
  {
  }

  /** The head of the sorted list comes before everything in it. */
  lemma {:induction false} SortedHead(cs: seq<Candidate>)
    requires AllMeasured(cs) && cs != []
    ensures Sort(cs) != [] && forall x :: x in cs ==> Before(Sort(cs)[0], x)
  {
    var c, rest := cs[0], cs[1..];
    assert c in Sort(cs);
    assert cs == [c] + rest;
    BeforeIsTotal(c, c, c);
    if rest != [] {
      SortedHead(rest);
      var head := Sort(rest)[0];
      BeforeIsTotal(c, head, c);
      forall x | x in cs ensures Before(Sort(cs)[0], x) {
        if x in rest { BeforeIsTotal(c, head, x); }
      }
    }
  }

  /** Who is eligible: an active node of the role and pool, seen no longer than offlineSeconds ago, with room for
      one more tenant, that has reported its memory and disk, whose free memory and disk beyond what is
      reserved are at least the required. */
  lemma EligibleIff(c: Candidate, req: Requirements, nowMs: int, offlineSeconds: int)
    ensures Eligible(c, req, nowMs, offlineSeconds) <==>
      && c.active && c.role == req.role && c.pool == req.pool
      && (exists seen :: c.lastSeen == Some(seen) && nowMs <= seen + 1000 * offlineSeconds)
      && (c.maxTenants == None || exists limit :: c.maxTenants == Some(limit) && c.tenantCount + 1 <= limit)
      && (exists available, free ::
            && c.availableBytes == Some(available) && c.freeBytes == Some(free)
            && available / 1048576.0 >= req.minMemoryMb + c.reservedMemoryMb
            && free / 1073741824.0 >= req.minDiskGb + c.reservedDiskGb)
  {
    if Eligible(c, req, nowMs, offlineSeconds) {
      assert c.lastSeen == Some(c.lastSeen.value);
      assert c.maxTenants.Some? ==> c.maxTenants == Some(c.maxTenants.value);
      assert c.availableBytes == Some(c.availableBytes.value) && c.freeBytes == Some(c.freeBytes.value);
    }
  }

  /** The comparator in the candidates' own columns. */
  lemma BeforeIff(b: Candidate, c: Candidate, req: Requirements, nowMs: int, offlineSeconds: int)
    requires Eligible(b, req, nowMs, offlineSeconds) && Eligible(c, req, nowMs, offlineSeconds)
    ensures Before(b, c) <==>
      var x := b.tenantCount as real / if b.maxTenants.Some? then b.maxTenants.value as real else 10000.0;
      var y := c.tenantCount as real / if c.maxTenants.Some? then c.maxTenants.value as real else 10000.0;
      var disk := b.freeBytes.value / 1073741824.0 - b.reservedDiskGb;
      var disk' := c.freeBytes.value / 1073741824.0 - c.reservedDiskGb;
      var memory := b.availableBytes.value / 1048576.0 - b.reservedMemoryMb;
      var memory' := c.availableBytes.value / 1048576.0 - c.reservedMemoryMb;
      x < y || (x == y && (disk > disk' || (disk == disk' &&
        (memory > memory' || (memory == memory' && b.id <= c.id)))))
  {
  }

  /** Null exactly when nothing is eligible; otherwise the eligible candidate with the least tenants per place,
      among those the one with most disk, then with most memory beyond what is reserved, then with the least
      id; it is the only such when ids are distinct. */
  lemma SelectIsOptimal(cs: seq<Candidate>, req: Requirements, nowMs: int, offlineSeconds: int)
    ensures var r := Select(cs, req, nowMs, offlineSeconds);
      && (r.None? <==> forall c :: c in cs ==> !Eligible(c, req, nowMs, offlineSeconds))
      && (r.Some? ==>
            && var b := r.value;
            && b in cs && Eligible(b, req, nowMs, offlineSeconds)
            && forall c :: c in cs && Eligible(c, req, nowMs, offlineSeconds) ==>
                 var x := b.tenantCount as real / if b.maxTenants.Some? then b.maxTenants.value as real else 10000.0;
                 var y := c.tenantCount as real / if c.maxTenants.Some? then c.maxTenants.value as real else 10000.0;
                 var disk := b.freeBytes.value / 1073741824.0 - b.reservedDiskGb;
                 var disk' := c.freeBytes.value / 1073741824.0 - c.reservedDiskGb;
                 var memory := b.availableBytes.value / 1048576.0 - b.reservedMemoryMb;
                 var memory' := c.availableBytes.value / 1048576.0 - c.reservedMemoryMb;
                 x < y || (x == y && (disk > disk' || (disk == disk' &&
                   (memory > memory' || (memory == memory' && b.id <= c.id))))))
  {
    SelectIsFirst(cs, req, nowMs, offlineSeconds);
    var r := Select(cs, req, nowMs, offlineSeconds);
    hide Select, Before;
    if r.Some? {
      forall c | c in cs && Eligible(c, req, nowMs, offlineSeconds)
        ensures
          var b := r.value;
          var x := b.tenantCount as real / if b.maxTenants.Some? then b.maxTenants.value as real else 10000.0;
          var y := c.tenantCount as real / if c.maxTenants.Some? then c.maxTenants.value as real else 10000.0;
          var disk := b.freeBytes.value / 1073741824.0 - b.reservedDiskGb;
          var disk' := c.freeBytes.value / 1073741824.0 - c.reservedDiskGb;
          var memory := b.availableBytes.value / 1048576.0 - b.reservedMemoryMb;
          var memory' := c.availableBytes.value / 1048576.0 - c.reservedMemoryMb;
          x < y || (x == y && (disk > disk' || (disk == disk' &&
            (memory > memory' || (memory == memory' && b.id <= c.id)))))
      {
        BeforeIff(r.value, c, req, nowMs, offlineSeconds);
      }
    }
  }

  lemma SelectIsFirst(cs: seq<Candidate>, req: Requirements, nowMs: int, offlineSeconds: int)
    ensures var r := Select(cs, req, nowMs, offlineSeconds);
      && (r.None? <==> forall c :: c in cs ==> !Eligible(c, req, nowMs, offlineSeconds))
      && (r.Some? ==>
            && r.value in cs && Eligible(r.value, req, nowMs, offlineSeconds)
            && (forall c :: c in cs && Eligible(c, req, nowMs, offlineSeconds) ==>
                  Before(r.value, c) && (Before(c, r.value) ==> c.id == r.value.id)))
  {
    var eligible := Filter(cs, req, nowMs, offlineSeconds);
    if eligible != [] {
      SortedHead(eligible);
      assert Sort(eligible)[0] in eligible;
      forall c | c in cs && Eligible(c, req, nowMs, offlineSeconds)
        ensures Before(c, Sort(eligible)[0]) ==> c.id == Sort(eligible)[0].id
      {
        assert c in eligible;
        BeforeIsTotal(c, Sort(eligible)[0], c);
      }
    }
    forall c | c in cs && Eligible(c, req, nowMs, offlineSeconds) ensures c in eligible && eligible != [] {
    }
    if eligible != [] { assert eligible[0] in eligible; }
  }

  predicate DistinctIds(cs: seq<Candidate>) { forall a, b :: a in cs && b in cs && a.id == b.id ==> a == b }

  /** The choice does not depend on the order of the candidates. */
  lemma SelectIgnoresOrder(cs: seq<Candidate>, ds: seq<Candidate>, req: Requirements, nowMs: int, offlineSeconds: int)
    requires DistinctIds(cs) && forall c :: c in cs <==> c in ds
    ensures Select(cs, req, nowMs, offlineSeconds) == Select(ds, req, nowMs, offlineSeconds)
  {
    SelectIsFirst(cs, req, nowMs, offlineSeconds);
    SelectIsFirst(ds, req, nowMs, offlineSeconds);
    var r, q := Select(cs, req, nowMs, offlineSeconds), Select(ds, req, nowMs, offlineSeconds);
    if r.Some? && q.Some? {
      assert r.value in ds && q.value in cs;
      assert Before(r.value, q.value) && Before(q.value, r.value);
    }
  }

  // -- placement steps ------------------------------------------------------------------------

  datatype Tenant = Tenant(node: Option<Id>, decommissioned: bool)

  /** `limits` holds max_tenants per node. */
  datatype State = State(limits: map<Id, Option<nat>>, tenants: map<Id, Tenant>)

  /** COUNT(t.id) over the tenants of the node that are not decommissioned. */
  function Housed(tenants: map<Id, Tenant>, node: Id): set<Id> {
    set t | t in tenants && tenants[t].node == Some(node) && !tenants[t].decommissioned
  }

  predicate WithinLimits(s: State) {
    forall n :: n in s.limits && s.limits[n].Some? ==> |Housed(s.tenants, n)| <= s.limits[n].value
  }

  /** The candidates the placement query returns: every node with its present count and limit. */
  predicate Measures(s: State, cs: seq<Candidate>) {
    forall c :: c in cs ==>
      c.id in s.limits && c.maxTenants == s.limits[c.id] && c.tenantCount == |Housed(s.tenants, c.id)|
  }

  function Assign(s: State, t: Id, node: Id): State { s.(tenants := s.tenants[t := Tenant(Some(node), false)]) }

  datatype Action =
    | PlaceTenant(t: Id, candidates: seq<Candidate>, req: Requirements, nowMs: int, offlineSeconds: int)
    | Decommission(t: Id)
    | Release(t: Id)

  /** createProvisioningJob, createTrial and placeProduction assign what selectPlacementNode picks. */
  predicate Next(s: State, a: Action, s': State) {
    match a
    case PlaceTenant(t, cs, req, nowMs, offlineSeconds) =>
      Measures(s, cs) && var r := Select(cs, req, nowMs, offlineSeconds); r.Some? && s' == Assign(s, t, r.value.id)
    case Decommission(t) => t in s.tenants && s' == s.(tenants := s.tenants[t := s.tenants[t].(decommissioned := true)])
    case Release(t) => t in s.tenants && s' == s.(tenants := s.tenants[t := s.tenants[t].(node := None)])
  }

  ghost const Trans: (State, Action, State) -> bool := (s, a, s') => Next(s, a, s')

  lemma AssignHouses(s: State, t: Id, node: Id, n: Id)
    ensures Housed(Assign(s, t, node).tenants, n) ==
      if n == node then Housed(s.tenants, n) + {t} else Housed(s.tenants, n) - {t}
  {
  }

  /** One more tenant on a node, at most as many on every other. */
  lemma AssignCounts(s: State, t: Id, node: Id, n: Id)
    ensures |Housed(Assign(s, t, node).tenants, n)| <= |Housed(s.tenants, n)| + (if n == node then 1 else 0)
    ensures |Housed(Assign(s, t, node).tenants, node)| ==
      |Housed(s.tenants, node)| + (if t in Housed(s.tenants, node) then 0 else 1)
  {
    AssignHouses(s, t, node, n);
    AssignHouses(s, t, node, node);
    hide Housed, Assign;
    if t in Housed(s.tenants, node) { assert Housed(s.tenants, node) + {t} == Housed(s.tenants, node); }
    SubsetCount(Housed(s.tenants, n) - {t}, Housed(s.tenants, n));
  }

  lemma SubsetCount(small: set<Id>, big: set<Id>)
    requires small <= big
    ensures |small| <= |big|
  {
    assert |big - small| == |big| - |small|;
  }

  lemma StepKeepsLimits(s: State, a: Action, s': State)
    requires WithinLimits(s) && Next(s, a, s')
    ensures WithinLimits(s')
  {
    match a
    case PlaceTenant(t, cs, req, nowMs, offlineSeconds) =>
      var node := Select(cs, req, nowMs, offlineSeconds).value;
      SelectIsFirst(cs, req, nowMs, offlineSeconds);
      hide Select, Before;
      assert node in cs && Eligible(node, req, nowMs, offlineSeconds);
      forall n | n in s'.limits && s'.limits[n].Some? ensures |Housed(s'.tenants, n)| <= s'.limits[n].value {
        AssignCounts(s, t, node.id, n);
      }
    case _ =>
      hide Select;
      forall n { SubsetCount(Housed(s'.tenants, n), Housed(s.tenants, n)); }
  }

  /** Over any run of placements no node ever exceeds its limit. */
  lemma PlacementKeepsLimits(s: State, s': State)
    requires WithinLimits(s) && Leads(Trans, s, s')
    ensures WithinLimits(s')
  {
    hide WithinLimits;
    forall s, a, s' | WithinLimits(s) && Trans(s, a, s') ensures WithinLimits(s') {
      StepKeepsLimits(s, a, s');
    }
    LeadsKeeps(Trans, (s: State) => WithinLimits(s), s, s');
  }

  /** The administrative retry and the reservation of a restore target assign a node without asking for
      room: the limits survive exactly when the tenant is there already or there is room. */
  lemma UncheckedAssignment(s: State, t: Id, node: Id)
    requires WithinLimits(s) && node in s.limits
    ensures WithinLimits(Assign(s, t, node)) <==>
      s.limits[node].None? || t in Housed(s.tenants, node) || |Housed(s.tenants, node)| < s.limits[node].value
  {
    var s' := Assign(s, t, node);
    AssignCounts(s, t, node, node);
    forall n | n in s.limits && n != node ensures |Housed(s'.tenants, n)| <= |Housed(s.tenants, n)| {
      AssignCounts(s, t, node, n);
    }
  }

  /** A tenant that leaves its node, or is decommissioned there, frees a place, and nothing stops it; one that is
      decommissioned is not counted. */
  lemma LeavingFreesAPlace(s: State, t: Id, n: Id)
    requires t in s.tenants && s.tenants[t].node == Some(n) && !s.tenants[t].decommissioned
    ensures t in Housed(s.tenants, n)
    ensures exists s' ::
      && Next(s, Release(t), s') && s'.limits == s.limits && t in s'.tenants && s'.tenants[t].node.None?
      && Housed(s'.tenants, n) == Housed(s.tenants, n) - {t}
    ensures exists s' ::
      && Next(s, Decommission(t), s') && s'.limits == s.limits && t in s'.tenants && s'.tenants[t].decommissioned
      && Housed(s'.tenants, n) == Housed(s.tenants, n) - {t}
  {
    var s1 := s.(tenants := s.tenants[t := s.tenants[t].(node := None)]);
    var s2 := s.(tenants := s.tenants[t := s.tenants[t].(decommissioned := true)]);
    assert Next(s, Release(t), s1) && Housed(s1.tenants, n) == Housed(s.tenants, n) - {t};
    assert Next(s, Decommission(t), s2) && Housed(s2.tenants, n) == Housed(s.tenants, n) - {t};
  }
}
