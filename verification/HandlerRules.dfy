/** What the handlers of the five job machines do to reachable tables, said in the columns themselves. */
module HandlerRules {
  import opened Common
  import opened Runs
  import opened LeasedJobs
  import opened Replays
  import BackupLeg
  import RestoreGates

  // -- expiry ---------------------------------------------------------------------------------------

  lemma ExpireMeans(t: Tables, r: Ref)
    requires Inv(t) && r in t.leases
    ensures var t', j := Expire(t, r), if r.machine == Upload then Ref(Backup, r.id) else r;
      && j in t.jobs && t'.leases == t.leases - {r}
      && t'.results == t.results && t'.issued == t.issued && t'.now == t.now
      && var to := if r.machine == Upload then Prepared else if r.machine == Restore then Queued else Failed;
      && t.jobs[j].state in (if r.machine == Upload then {Prepared} else {Dispatched, Running})
      && t'.jobs == t.jobs[j := t.jobs[j].(state := to)]
      && j in t.events && t'.events == t.events[j := t.events[j] + [Event(Some(t.jobs[j].state), to)]]
  {
    assert LeaseOk(t, r) && LogOk(t, JobOf(r));
    hide Inv, Edges, Chain;
    var j := JobOf(r);
    var to := AfterExpiry(r.machine, t.jobs[j].state);
    assert [to][1..] == [];
    assert Follow(t.events[j], t.jobs[j].state, [to]) == t.events[j] + [Event(Some(t.jobs[j].state), to)];
    assert r.machine in {Provisioning, Backup, Upload, Restore, Cleanup};
  }

  /** A backup has no lease of its own and an upload lease at once. */
  lemma RowsOfOneJob(t: Tables, r: Ref, q: Ref)
    requires Inv(t) && r in t.leases && q in t.leases && JobOf(r) == JobOf(q)
    ensures r == q
  {
    assert LeaseOk(t, r) && LeaseOk(t, q);
    hide Inv;
    NoOtherLease(t, r, q);
  }

  /** The rows of one expiry query, each of its own job. */
  ghost predicate Leased(t: Tables, rows: seq<Ref>) {
    && (forall r :: r in rows ==> r in t.leases)
    && (forall i, k :: 0 <= i < k < |rows| ==> rows[i] != rows[k])
  }

  /** The tables beyond the job rows. */
  lemma {:induction false} ExpireAllFrame(t: Tables, rows: seq<Ref>)
    requires Inv(t) && Leased(t, rows)
    ensures var t' := ExpireAll(t, rows);
      && t'.results == t.results && t'.issued == t.issued && t'.now == t.now
      && t'.jobs.Keys == t.jobs.Keys && t'.events.Keys == t.events.Keys && t'.leases == t.leases - (set r | r in rows)
    decreases |rows|
  {
    if rows == [] {
      assert t.leases - (set r | r in rows) == t.leases;
    } else {
      LeasedRest(t, rows);
      ExpireMeans(t, rows[0]);
      hide Inv, Expire, Leased;
      ExpireAllFrame(Expire(t, rows[0]), rows[1..]);
      WithoutAll(t.leases, rows);
    }
  }

  lemma WithoutAll(leases: map<Ref, Lease>, rows: seq<Ref>)
    requires rows != []
    ensures leases - {rows[0]} - (set q | q in rows[1..]) == leases - (set q | q in rows)
  {
    assert (set q | q in rows) == {rows[0]} + (set q | q in rows[1..]);
  }

  lemma LeasedRest(t: Tables, rows: seq<Ref>)
    requires Inv(t) && Leased(t, rows) && rows != []
    ensures rows[0] in t.leases && rows[0] !in rows[1..]
    ensures forall q :: q in rows <==> q == rows[0] || q in rows[1..]
    ensures forall q :: q in rows[1..] ==> q in t.leases && JobOf(q) != JobOf(rows[0])
    ensures Inv(Expire(t, rows[0])) && Leased(Expire(t, rows[0]), rows[1..])
  {
    var r, rest := rows[0], rows[1..];
    assert r in rows && r !in rest;
    assert forall q :: q in rest ==> q in rows;
    ExpireMeans(t, r);
    ExpireKeepsInv(t, r);
    hide Expire, Inv;
    forall q | q in rest ensures q in t.leases && JobOf(q) != JobOf(r) {
      if JobOf(q) == JobOf(r) { RowsOfOneJob(t, r, q); }
    }
  }

  /** One job row through an expiry loop. */
  lemma {:induction false} ExpireAllOnJob(t: Tables, rows: seq<Ref>, j: Ref)
    requires Inv(t) && Leased(t, rows) && j in t.jobs && j.machine != Upload
    ensures var t' := ExpireAll(t, rows);
      && j in t'.jobs && j in t.events && j in t'.events
      && (j in rows ==>
            var to := if j.machine == Restore then Queued else Failed;
            && t.jobs[j].state in {Dispatched, Running} && t'.jobs[j] == t.jobs[j].(state := to)
            && t'.events[j] == t.events[j] + [Event(Some(t.jobs[j].state), to)])
      && (j !in rows ==> t'.jobs[j] == t.jobs[j])
      && (j.machine == Backup && Ref(Upload, j.id) in rows ==>
            j !in rows && t'.events[j] == t.events[j] + [Event(Some(Prepared), Prepared)])
      && (j !in rows && !(j.machine == Backup && Ref(Upload, j.id) in rows) ==> t'.events[j] == t.events[j])
    decreases |rows|
  {
    assert LogOk(t, j);
    if rows != [] {
      LeasedRest(t, rows);
      ExpireMeans(t, rows[0]);
      hide Inv, Expire, Leased, LogOk;
      ExpireAllOnJob(Expire(t, rows[0]), rows[1..], j);
      if j in rows[1..] { assert JobOf(j) != JobOf(rows[0]); }
      if Ref(Upload, j.id) in rows[1..] { assert JobOf(Ref(Upload, j.id)) != JobOf(rows[0]); }
    }
  }

  /** After an expiry loop each swept provisioning, backup or cleanup row has failed, each swept restore is
      queued again and the backup of each swept upload is as it was; each of them has one more event,
      exactly the swept leases are gone, and nothing else has changed. */
  lemma SweepMeans(t: Tables, m: Machine, node: Node, rows: seq<Ref>, token: Token, until: Time, t': Tables)
    requires Reachable(t) && Next(t, Claim(m, node, rows, None, token, until), t')
    ensures forall r :: r in rows ==>
      r.machine == m && r in t.leases && t.leases[r].node == node && t.leases[r].expires <= t.now
    ensures t'.leases == t.leases - (set r | r in rows)
    ensures t'.results == t.results && t'.issued == t.issued && t'.now == t.now && t'.jobs.Keys == t.jobs.Keys
    ensures forall j :: j in t.jobs && j in rows ==>
      && t.jobs[j].state in {Dispatched, Running}
      && t'.jobs[j] == t.jobs[j].(state := if m == Restore then Queued else Failed)
    ensures forall j :: j in t.jobs && j !in rows ==> t'.jobs[j] == t.jobs[j]
    ensures forall j :: j in t.jobs ==>
      && j in t.events && j in t'.events
      && t'.events[j] == t.events[j] + (
           if j in rows then [Event(Some(t.jobs[j].state), if m == Restore then Queued else Failed)]
           else if m == Upload && j.machine == Backup && Ref(Upload, j.id) in rows
           then [Event(Some(Prepared), Prepared)]
           else [])
  {
    ReachableInv(t);
    assert Leased(t, rows);
    ExpireAllFrame(t, rows);
    forall j | j in t.jobs
      ensures j.machine != Upload && j in t.events
    {
      assert FlightOk(t, j) && LogOk(t, j);
    }
    hide Inv, ExpireAll;
    forall j | j in t.jobs
      ensures j in t.events && j in t'.events
      ensures j in rows ==>
        && t.jobs[j].state in {Dispatched, Running}
        && t'.jobs[j] == t.jobs[j].(state := if m == Restore then Queued else Failed)
      ensures j !in rows ==> t'.jobs[j] == t.jobs[j]
      ensures t'.events[j] == t.events[j] + (
           if j in rows then [Event(Some(t.jobs[j].state), if m == Restore then Queued else Failed)]
           else if m == Upload && j.machine == Backup && Ref(Upload, j.id) in rows
           then [Event(Some(Prepared), Prepared)]
           else [])
    {
      ExpireAllOnJob(t, rows, j);
      assert t.events[j] + [] == t.events[j];
    }
  }

  /** What a claim may sweep: any lapsed leases of its machine on its node, each once, at most 20.  That their rows
      are in flight, which some of the queries ask for, is always so. */
  lemma SweepIff(t: Tables, m: Machine, node: Node, rows: seq<Ref>)
    requires Reachable(t)
    ensures Sweep(t, m, node, rows) <==>
      && |rows| <= 20 && (forall i, k :: 0 <= i < k < |rows| ==> rows[i] != rows[k])
      && forall i :: 0 <= i < |rows| ==>
           && rows[i].machine == m && rows[i] in t.leases
           && t.leases[rows[i]].node == node && t.leases[rows[i]].expires <= t.now
  {
    ReachableInv(t);
    forall i | 0 <= i < |rows| ensures LeaseOk(t, rows[i]) {
    }
    hide Inv, Reachable;
  }

  // -- claims -----------------------------------------------------------------------------------------

  /** Who may be handed out: a provisioning that is placed or retrying, a queued backup, restore or cleanup,
      the upload of a prepared backup; on the row's node, and without a lease. */
  lemma ClaimableIff(t: Tables, m: Machine, node: Node, id: Id)
    ensures Claimable(t, m, node, id) <==>
      match m
      case Provisioning =>
        && Ref(m, id) in t.jobs && t.jobs[Ref(m, id)].node == Some(node) && Ref(m, id) !in t.leases
        && t.jobs[Ref(m, id)].state in {Placed, Retrying}
      case Upload =>
        && Ref(Backup, id) in t.jobs && t.jobs[Ref(Backup, id)].node == Some(node) && Ref(Upload, id) !in t.leases
        && t.jobs[Ref(Backup, id)].state == Prepared
      case _ =>
        && Ref(m, id) in t.jobs && t.jobs[Ref(m, id)].node == Some(node) && Ref(m, id) !in t.leases
        && t.jobs[Ref(m, id)].state == Queued
  {
  }

  lemma DispatchMeans(t: Tables, m: Machine, node: Node, id: Id, token: Token, until: Time)
    requires Claimable(t, m, node, id)
    requires var j := if m == Upload then Ref(Backup, id) else Ref(m, id); j in t.events
    ensures var t', r, j := Dispatch(t, m, node, id, token, until), Ref(m, id),
                            if m == Upload then Ref(Backup, id) else Ref(m, id);
      && j in t.jobs && t'.leases == t.leases[r := Lease(node, token, until)] && t'.issued == t.issued + {token}
      && t'.results == t.results && t'.now == t.now
      && t'.jobs == (
           if m == Upload then t.jobs
           else if m == Cleanup then t.jobs[j := t.jobs[j].(state := Dispatched)]
           else t.jobs[j := t.jobs[j].(state := Dispatched, attempt := t.jobs[j].attempt + 1)])
      && var event := Event(Some(t.jobs[j].state), if m == Upload then Prepared else Dispatched);
      t'.events == t.events[j := t.events[j] + [event]]
  {
    var j := JobOf(Ref(m, id));
    var to := if m == Upload then Prepared else Dispatched;
    assert [to][1..] == [];
    assert Follow(t.events[j], t.jobs[j].state, [to]) == t.events[j] + [Event(Some(t.jobs[j].state), to)];
    if m == Upload { assert t.jobs[j := t.jobs[j]] == t.jobs; }
  }

  /** Every claim begins with its sweep. */
  lemma SweepOf(t: Tables, m: Machine, node: Node, rows: seq<Ref>, claimed: Option<Id>, token: Token, until: Time,
                t': Tables)
    requires Next(t, Claim(m, node, rows, claimed, token, until), t')
    ensures Next(t, Claim(m, node, rows, None, token, until), ExpireAll(t, rows)) && token !in t.issued
    ensures claimed.Some? ==>
      && Claimable(ExpireAll(t, rows), m, node, claimed.value)
      && t' == Dispatch(ExpireAll(t, rows), m, node, claimed.value, token, until)
    ensures claimed.None? ==> t' == ExpireAll(t, rows)
  {
    hide ExpireAll, Dispatch, Claimable, Sweep;
  }

  /** A claim that hands out an operation: the row was claimable, or is a restore or upload whose lapsed lease
      this claim has swept; it is dispatched under a fresh token, an upload leaves its backup prepared, and
      the attempts of all but uploads and cleanups are counted.  Every other row is only swept. */
  lemma ClaimMeans(t: Tables, m: Machine, node: Node, rows: seq<Ref>, id: Id, token: Token, until: Time, t': Tables)
    requires Reachable(t) && Next(t, Claim(m, node, rows, Some(id), token, until), t')
    ensures var r, j := Ref(m, id), if m == Upload then Ref(Backup, id) else Ref(m, id);
      && j in t.jobs && t.jobs[j].node == Some(node) && token !in t.issued
      && (r in t.leases ==> r in rows)
      && (m == Provisioning ==> t.jobs[j].state in {Placed, Retrying} && r !in t.leases)
      && (m == Upload ==> t.jobs[j].state == Prepared)
      && (m in {Backup, Cleanup} ==> t.jobs[j].state == Queued && r !in t.leases)
      && (m == Restore ==> t.jobs[j].state == Queued || r in rows)
      && t'.leases == (t.leases - (set q | q in rows))[r := Lease(node, token, until)]
      && t'.issued == t.issued + {token} && t'.results == t.results && t'.now == t.now
      && t'.jobs.Keys == t.jobs.Keys
      && t'.jobs[j] == (
           if m == Upload then t.jobs[j]
           else if m == Cleanup then t.jobs[j].(state := Dispatched)
           else t.jobs[j].(state := Dispatched, attempt := t.jobs[j].attempt + 1))
      && (forall q :: q in t.jobs && q != j ==>
            t'.jobs[q] == if q in rows then t.jobs[q].(state := if m == Restore then Queued else Failed) else t.jobs[q])
  {
    var t1 := ExpireAll(t, rows);
    ReachableInv(t);
    var r, j := Ref(m, id), if m == Upload then Ref(Backup, id) else Ref(m, id);
    assert LeaseOk(t, r) && FlightOk(t, j) && LogOk(t, j);
    hide Inv, ExpireAll, Dispatch, Reachable, Next;
    SweepOf(t, m, node, rows, Some(id), token, until, t');
    SweepMeans(t, m, node, rows, token, until, t1);
    ClaimableIff(t1, m, node, id);
    DispatchMeans(t1, m, node, id, token, until);
    hide Claimable, LogOk;
  }

  // -- reports ----------------------------------------------------------------------------------------

  /** The list of a backup report: the three artifacts once each, with hashes and safe sizes that add up to the
      total, the manifest's hash, and no object columns. */
  lemma BackupIsParsedIff(result: Result)
    ensures Parsed(Backup, result) <==>
      && result.OfBackup? && |result.items| == 3
      && (forall i, k :: 0 <= i < k < 3 ==> result.items[i].kind != result.items[k].kind)
      && (forall i :: 0 <= i < 3 ==>
            var w := result.items[i];
            && w.kind.Some? && w.sha.Some? && 0 <= w.size <= 9_007_199_254_740_991
            && w.key == None && w.version == None)
      && result.items[0].size + result.items[1].size + result.items[2].size == result.total
      && exists i ::
           0 <= i < 3 && result.items[i].kind == Some(Manifest) && result.items[i].sha == Some(result.manifest)
  {
    if result.OfBackup? && |result.items| == 3
       && (forall i, k :: 0 <= i < k < 3 ==> result.items[i].kind != result.items[k].kind) {
      RestoreGates.ManifestOfThree(result.items);
    }
  }

  /** The list of an upload report: the three artifacts once each, with hashes, safe sizes, keys and versions. */
  lemma UploadIsParsedIff(result: Result)
    ensures Parsed(Upload, result) <==>
      && result.OfUpload? && |result.items| == 3
      && (forall i, k :: 0 <= i < k < 3 ==> result.items[i].kind != result.items[k].kind)
      && (forall i :: 0 <= i < 3 ==>
            var w := result.items[i];
            && w.kind.Some? && w.sha.Some? && 0 <= w.size <= 9_007_199_254_740_991 && w.key.Some? && w.version.Some?)
  {
  }

  /** Each item is a stored one by kind, size and hash, under the backup's own key. */
  predicate AllStored(stored: seq<RestoreGates.Wire>, items: seq<RestoreGates.Wire>, tenant: Id, backup: Id) {
    forall i :: 0 <= i < |items| ==>
      var w := items[i];
      && w.kind.Some? && w.key == Some(BackupLeg.ObjectKey(tenant, backup, w.kind.value))
      && exists k :: 0 <= k < |stored| && var v := stored[k]; v.kind == w.kind && v.size == w.size && v.sha == w.sha
  }

  /** An upload fits when each of its artifacts is one that was prepared, under the backup's own key. */
  lemma UploadFitsIff(t: Tables, id: Id, result: Result)
    requires Reachable(t) && Parsed(Upload, result)
    ensures Fits(t, Upload, id, result) <==>
      && Ref(Backup, id) in t.jobs && Ref(Backup, id) in t.results && t.results[Ref(Backup, id)].OfBackup?
      && AllStored(t.results[Ref(Backup, id)].items, result.items, t.jobs[Ref(Backup, id)].tenant, id)
  {
    ReachableResults(t);
    hide Inv, Reachable;
    var b := Ref(Backup, id);
    if b in t.results && t.results[b].OfBackup? {
      assert Parsed(Backup, t.results[b]);
      hide ResultsOk;
      BackupIsParsedIff(t.results[b]);
      UploadIsParsedIff(result);
      hide Parsed;
      var stored, items := t.results[b].items, result.items;
      forall i | 0 <= i < |items|
        ensures RestoreGates.Localised(items)[i] in stored <==>
          exists k :: 0 <= k < |stored| && var v := stored[k];
            v.kind == items[i].kind && v.size == items[i].size && v.sha == items[i].sha
      {
        forall k | 0 <= k < |stored|
          ensures stored[k] == RestoreGates.Localised(items)[i] <==>
            stored[k].kind == items[i].kind && stored[k].size == items[i].size && stored[k].sha == items[i].sha
        {
        }
      }
    }
  }

  /** Only a report whose token has a lease that has not lapsed, on the row's node, is accepted. */
  lemma AcceptedIsLive(t: Tables, m: Machine, id: Id, node: Node, token: Token, input: Input)
    requires AnswerOf(t, m, id, node, token, input) == Accepted
    ensures var r, j := Ref(m, id), if m == Upload then Ref(Backup, id) else Ref(m, id);
      && r in t.leases && t.leases[r].node == node && t.leases[r].token == token && t.now < t.leases[r].expires
      && j in t.jobs && t.jobs[j].node == Some(node)
  {
    hide Parsed, Fits, MayFinish, MayFail;
  }

  /** Which reports are accepted under a live lease: a running report always; a failed one from dispatched or
      running, of a cleanup from running only, of an upload while the backup is prepared; a result from running,
      of a restore also from dispatched, of an upload while prepared, if it is the stored database name, a
      list of artifacts, or the artifacts that were prepared. */
  lemma AcceptedIff(t: Tables, m: Machine, id: Id, node: Node, token: Token, input: Input)
    requires Reachable(t) && Ref(m, id) in t.leases && t.now < t.leases[Ref(m, id)].expires
    requires t.leases[Ref(m, id)].node == node && t.leases[Ref(m, id)].token == token
    ensures var r, j := Ref(m, id), if m == Upload then Ref(Backup, id) else Ref(m, id);
      && j in t.jobs && t.jobs[j].node == Some(node)
      && var s := t.jobs[j].state;
      AnswerOf(t, m, id, node, token, input) == Accepted <==>
        match input
        case RunningIn => if m == Upload then s == Prepared else s in {Dispatched, Running}
        case FailedIn =>
          if m == Upload then s == Prepared else if m == Cleanup then s == Running else s in {Dispatched, Running}
        case DoneIn(result) =>
          match m
          case Provisioning => s == Running && result.OfDatabase? && r in t.results && t.results[r] == result
          case Restore => s in {Dispatched, Running} && result.OfDatabase? && r in t.results && t.results[r] == result
          case Cleanup => s == Running && result == OfCleanup
          case Backup => s == Running && Parsed(Backup, result)
          case Upload =>
            && s == Prepared && Parsed(Upload, result)
            && j in t.results && t.results[j].OfBackup?
            && AllStored(t.results[j].items, result.items, t.jobs[j].tenant, id)
  {
    ReachableInv(t);
    assert LeaseOk(t, Ref(m, id));
    hide Inv, Reachable, AllStored, RestoreGates.Listed, RestoreGates.TotalOf, RestoreGates.ManifestSha;
    assert AnswerOf(t, m, id, node, token, input) == Accepted <==> Acceptable(t, m, id, node, token, input);
    if m == Upload && input.DoneIn? && Parsed(Upload, input.result) {
      UploadFitsIff(t, id, input.result);
    }
    hide AnswerOf, MatchesStored;
  }

  lemma OneEvent(log: seq<Event>, from: JobState, a: JobState)
    ensures Follow(log, from, [a]) == log + [Event(Some(from), a)]
  {
    assert [a][1..] == [];
  }

  lemma TwoEvents(log: seq<Event>, from: JobState, a: JobState, b: JobState)
    ensures Follow(log, from, [a, b]) == log + [Event(Some(from), a), Event(Some(a), b)]
  {
    assert [a, b][1..] == [b];
    OneEvent(log + [Event(Some(from), a)], a, b);
  }

  /** Every post under a live lease is the report of that lease's machine. */
  lemma LivePost(t: Tables, r: Ref, input: Input, until: Time, t': Tables)
    requires Reachable(t) && r in t.leases
    requires Next(t, Post(t.leases[r].node, r.id, t.leases[r].token, input, until), t')
    ensures t' == Report(t, r.machine, r.id, t.leases[r].node, t.leases[r].token, input, until)
    ensures JobOf(r) in t.jobs && JobOf(r) in t.events && LeaseOk(t, r)
  {
    ResultReachesItsLease(t, r);
    ReachableInv(t);
    assert LeaseOk(t, r) && LogOk(t, JobOf(r));
    hide Inv, Reachable, Report;
  }

  /** An accepted running report brings a dispatched row to running, with its event, extends the lease, and
      changes nothing else. */
  lemma RunningMeans(t: Tables, r: Ref, until: Time, t': Tables)
    requires Reachable(t) && r in t.leases && t.now < t.leases[r].expires
    requires Next(t, Post(t.leases[r].node, r.id, t.leases[r].token, RunningIn, until), t')
    ensures var j := if r.machine == Upload then Ref(Backup, r.id) else r;
      && j in t.jobs && j in t.events
      && t' == (if t.jobs[j].state == Dispatched
                then t.(jobs := t.jobs[j := t.jobs[j].(state := Running)],
                        events := t.events[j := t.events[j] + [Event(Some(Dispatched), Running)]])
                else t).(leases := t.leases[r := t.leases[r].(expires := until)])
  {
    LivePost(t, r, RunningIn, until, t');
    var j := JobOf(r);
    OneEvent(t.events[j], t.jobs[j].state, Running);
    hide Reachable, Follow, Next;
  }

  /** An accepted failure fails the row, an upload's leaves its backup prepared; the event is logged, the lease
      is removed, and nothing else changes. */
  lemma FailureMeans(t: Tables, r: Ref, until: Time, t': Tables)
    requires Reachable(t) && r in t.leases && t.now < t.leases[r].expires
    requires Next(t, Post(t.leases[r].node, r.id, t.leases[r].token, FailedIn, until), t')
    ensures var j := if r.machine == Upload then Ref(Backup, r.id) else r;
      && j in t.jobs && j in t.events
      && var from := t.jobs[j].state;
      if r.machine == Cleanup && from == Dispatched then t' == t
      else
        var to := if r.machine == Upload then Prepared else Failed;
        t' == t.(jobs := t.jobs[j := t.jobs[j].(state := to)], leases := t.leases - {r},
                 events := t.events[j := t.events[j] + [Event(Some(from), to)]])
  {
    LivePost(t, r, FailedIn, until, t');
    var j := JobOf(r);
    OneEvent(t.events[j], t.jobs[j].state, if r.machine == Upload then Prepared else Failed);
    hide Reachable, Follow, Next;
  }

  /** An accepted result completes its row in one step, an upload's or restore's with two events, and removes the
      lease; a backup's or upload's result is stored, and a restore brings its ready provisioning row. */
  lemma ResultMeans(t: Tables, r: Ref, result: Result, until: Time, t': Tables)
    requires Reachable(t) && r in t.leases && t.now < t.leases[r].expires
    requires Next(t, Post(t.leases[r].node, r.id, t.leases[r].token, DoneIn(result), until), t')
    ensures var j := if r.machine == Upload then Ref(Backup, r.id) else r;
      && j in t.jobs && j in t.events
      && if AnswerOf(t, r.machine, r.id, t.leases[r].node, t.leases[r].token, DoneIn(result)) != Accepted then t' == t
         else
           var from := t.jobs[j].state;
           t' == match r.machine
             case Provisioning =>
               t.(jobs := t.jobs[j := t.jobs[j].(state := Ready)], leases := t.leases - {r},
                  events := t.events[j := t.events[j] + [Event(Some(from), Ready)]])
             case Backup =>
               t.(jobs := t.jobs[j := t.jobs[j].(state := Prepared)], leases := t.leases - {r},
                  events := t.events[j := t.events[j] + [Event(Some(from), Prepared)]],
                  results := t.results[r := result])
             case Upload =>
               t.(jobs := t.jobs[j := t.jobs[j].(state := Verified)], leases := t.leases - {r},
                  events := t.events[j := t.events[j] + [Event(Some(from), Uploaded), Event(Some(Uploaded), Verified)]],
                  results := t.results[r := result])
             case Restore =>
               var p := Ref(Provisioning, r.id);
               t.(jobs := t.jobs[j := t.jobs[j].(state := Validated)][p := t.jobs[j].(state := Ready, attempt := 1)],
                  leases := t.leases - {r},
                  events := t.events[j := t.events[j] + [Event(Some(from), Restored), Event(Some(Restored), Validated)]]
                                    [p := [Event(None, Ready)]])
             case Cleanup =>
               t.(jobs := t.jobs[j := t.jobs[j].(state := Cleaned)], leases := t.leases - {r},
                  events := t.events[j := t.events[j] + [Event(Some(from), Cleaned)]])
  {
    LivePost(t, r, DoneIn(result), until, t');
    var j := JobOf(r);
    var from := t.jobs[j].state;
    if r.machine == Restore { NoMaterialised(t, r); }
    match r.machine {
      case Provisioning => OneEvent(t.events[j], from, Ready);
      case Backup => OneEvent(t.events[j], from, Prepared);
      case Upload => TwoEvents(t.events[j], from, Uploaded, Verified);
      case Restore => TwoEvents(t.events[j], from, Restored, Validated);
      case Cleanup => OneEvent(t.events[j], from, Cleaned);
    }
    hide Reachable, Follow, Next, Parsed, Fits;
  }

  /** A restore in flight has no provisioning row yet. */
  lemma NoMaterialised(t: Tables, r: Ref)
    requires Reachable(t) && r in t.leases && r.machine == Restore
    ensures Ref(Provisioning, r.id) !in t.jobs
  {
    ReachableInv(t);
    assert LeaseOk(t, r);
    var p := Ref(Provisioning, r.id);
    assert !Twins(t, r, p) && !Twins(t, p, r);
  }

  /** The table of the provisioning states that the claim and the report consult. */
  lemma TransitionsAre(from: JobState, to: JobState)
    ensures to in Edges(Provisioning, from) <==>
      (from, to) in {(Queued, Placed), (Queued, Failed), (Placed, Dispatched), (Placed, Failed), (Dispatched, Running),
                     (Dispatched, Failed), (Running, Ready), (Running, Failed), (Failed, Retrying),
                     (Retrying, Dispatched), (Retrying, Failed)}
  {
  }

  // -- why rows change --------------------------------------------------------------------------------

  /** The administrator's retry: a failed provisioning becomes retrying, a failed cleanup is queued again, with
      its event; no other row can be retried and nothing else changes. */
  lemma RetryIff(t: Tables, r: Ref, t': Tables)
    requires Reachable(t)
    ensures Next(t, Retry(r), t') <==>
      && r.machine in {Provisioning, Cleanup} && r in t.jobs && t.jobs[r].state == Failed && r in t.events
      && var to := if r.machine == Provisioning then Retrying else Queued;
      t' == t.(jobs := t.jobs[r := t.jobs[r].(state := to)],
               events := t.events[r := t.events[r] + [Event(Some(Failed), to)]])
  {
    ReachableInv(t);
    assert LeaseOk(t, r) && LogOk(t, r);
    if r in t.events {
      OneEvent(t.events[r], Failed, if r.machine == Provisioning then Retrying else Queued);
    }
    hide Inv, Reachable, Follow, Chain;
    if r !in t.leases { assert t.leases - {r} == t.leases; }
  }

  lemma DeadPost(t: Tables, node: Node, id: Id, token: Token, input: Input, until: Time, t': Tables)
    requires Next(t, Post(node, id, token, input, until), t')
    requires var r := Ref(Route(t, node, id), id);
      !(r in t.leases && t.leases[r].node == node && t.leases[r].token == token && t.now < t.leases[r].expires)
    ensures t'.jobs == t.jobs
  {
    hide Route, Parsed, Fits;
  }

  /** The post came under a lease of the given row that had not lapsed. */
  lemma PostHasCause(t: Tables, node: Node, id: Id, token: Token, input: Input, until: Time, t': Tables, r: Ref)
    requires Reachable(t) && Next(t, Post(node, id, token, input, until), t')
    requires r in t'.jobs && (r in t.jobs ==> t'.jobs[r] != t.jobs[r])
    ensures var q := Ref(Route(t, node, id), id);
      && q in t.leases && t.leases[q].node == node && t.leases[q].token == token && t.now < t.leases[q].expires
      && (if r in t.jobs
          then JobOf(q) == r && t.jobs[r].state in (if q.machine == Upload then {Prepared} else {Dispatched, Running})
          else q.machine == Restore && input.DoneIn? && r == Ref(Provisioning, id)
               && q in t.jobs && t'.jobs[r] == t.jobs[q].(state := Ready, attempt := 1))
      && (r in t.jobs ==>
            match input
            case RunningIn => t.jobs[r].state == Dispatched && t'.jobs[r].state == Running
            case FailedIn => (q.machine == Cleanup ==> t.jobs[r].state == Running)
                             && q.machine != Upload && t'.jobs[r].state == Failed
            case DoneIn(_) =>
              match q.machine
              case Provisioning => t.jobs[r].state == Running && t'.jobs[r].state == Ready
              case Backup => t.jobs[r].state == Running && t'.jobs[r].state == Prepared
              case Upload => t'.jobs[r].state == Verified
              case Restore => t'.jobs[r].state == Validated
              case Cleanup => t.jobs[r].state == Running && t'.jobs[r].state == Cleaned)
  {
    var q := Ref(Route(t, node, id), id);
    if !(q in t.leases && t.leases[q].node == node && t.leases[q].token == token && t.now < t.leases[q].expires) {
      DeadPost(t, node, id, token, input, until, t');
    } else {
      LivePost(t, q, input, until, t');
      hide Reachable, Report, Next, Route;
      match input {
        case RunningIn => RunningMeans(t, q, until, t');
        case FailedIn => FailureMeans(t, q, until, t');
        case DoneIn(result) =>
          ResultMeans(t, q, result, until, t');
          AcceptedIff(t, q.machine, id, node, token, input);
      }
      hide AnswerOf;
    }
  }

  lemma ClaimHasCause(t: Tables, m: Machine, node: Node, rows: seq<Ref>, claimed: Option<Id>, token: Token,
                      until: Time, t': Tables, r: Ref)
    requires Reachable(t) && Next(t, Claim(m, node, rows, claimed, token, until), t')
    requires r in t.jobs && r in t'.jobs && t'.jobs[r].state != t.jobs[r].state
    ensures r.machine == m && m != Upload
    ensures if claimed == Some(r.id) then
        && t'.jobs[r].state == Dispatched
        && t.jobs[r].state in (if m == Provisioning then {Placed, Retrying}
                               else if m == Restore && r in rows then {Running} else {Queued})
      else
        && r in rows && r in t.leases && t.leases[r].expires <= t.now && t.jobs[r].state in {Dispatched, Running}
        && t'.jobs[r].state == if m == Restore then Queued else Failed
  {
    ReachableInv(t);
    assert FlightOk(t, r);
    hide Inv, Reachable, ExpireAll, Next, Dispatch, Claimable;
    SweepOf(t, m, node, rows, claimed, token, until, t');
    SweepMeans(t, m, node, rows, token, until, ExpireAll(t, rows));
    if claimed.Some? { ClaimMeans(t, m, node, rows, claimed.value, token, until, t'); }
  }

  /** Every state change of a row has one cause: a placement, a claim, a report under a live lease of that row,
      a lapsed lease, or a retry. */
  lemma StateChangeHasCause(t: Tables, a: Action, t': Tables, r: Ref)
    requires Reachable(t) && Next(t, a, t') && r in t.jobs && r in t'.jobs && t'.jobs[r].state != t.jobs[r].state
    ensures var from, m := t.jobs[r].state, r.machine;
      match t'.jobs[r].state
      case Placed => a == Place(r, a.node) && m == Provisioning && from == Queued
      case Dispatched =>
        && a.Claim? && a.machine == m && a.claimed == Some(r.id)
        && from in (if m == Provisioning then {Placed, Retrying} else if m == Restore && r in a.rows then {Running}
                    else {Queued})
      case Queued =>
        || (m == Restore && a.Claim? && r in a.rows && from in {Dispatched, Running})
        || (m == Cleanup && a == Retry(r) && from == Failed)
      case Retrying => m == Provisioning && a == Retry(r) && from == Failed
      case Failed =>
        || (a.Claim? && m != Restore && r in a.rows && r in t.leases && t.leases[r].expires <= t.now
            && from in {Dispatched, Running})
        || (ReportedFor(t, a, r) && a.input.FailedIn?
            && from in (if m == Cleanup then {Running} else {Dispatched, Running}))
      case Running => ReportedFor(t, a, r) && a.input.RunningIn? && from == Dispatched
      case Ready => ReportedFor(t, a, r) && a.input.DoneIn? && m == Provisioning && from == Running
      case Prepared => ReportedFor(t, a, r) && a.input.DoneIn? && m == Backup && from == Running
      case Verified => ReportedFor(t, a, Ref(Upload, r.id)) && a.input.DoneIn? && m == Backup && from == Prepared
      case Validated => ReportedFor(t, a, r) && a.input.DoneIn? && m == Restore && from in {Dispatched, Running}
      case Cleaned => ReportedFor(t, a, r) && a.input.DoneIn? && m == Cleanup && from == Running
      case _ => false
  {
    ReachableInv(t);
    assert FlightOk(t, r);
    hide Inv, Reachable, Report, ExpireAll, Route;
    match a
    case Claim(m, node, rows, claimed, token, until) =>
      ClaimHasCause(t, m, node, rows, claimed, token, until, t', r);
    case Post(node, id, token, input, until) => PostHasCause(t, node, id, token, input, until, t', r);
    case Retry(q) => RetryIff(t, q, t');
    case Place(_, _) =>
    case CreateJob(_, _, _, _, _) =>
    case Tick(_) =>
  }

  /** The step is a report with a token whose lease on q had not lapsed. */
  predicate ReportedFor(t: Tables, a: Action, q: Ref) {
    && a.Post? && a.id == q.id && q in t.leases && t.leases[q].node == a.node
    && t.leases[q].token == a.token && t.now < t.leases[q].expires
  }

  /** A new row is one a request creates, queued or placed and without attempts, or the ready one of a restore
      that a report under its live lease validates. */
  lemma NewRowHasCause(t: Tables, a: Action, t': Tables, r: Ref)
    requires Reachable(t) && Next(t, a, t') && r !in t.jobs && r in t'.jobs
    ensures
      || (a.CreateJob? && a.ref == r && r.machine != Upload && (a.placed ==> r.machine == Provisioning)
          && t'.jobs[r] == Job(a.tenant, a.home, if a.placed then Placed else Queued, 0, t.now)
          && r in t'.events && t'.events[r] ==
             [Event(None, Queued)] + if a.placed then [Event(Some(Queued), Placed)] else [])
      || (ReportedFor(t, a, Ref(Restore, r.id)) && a.input.DoneIn? && r.machine == Provisioning
          && Ref(Restore, r.id) in t.jobs && t'.jobs[r] == t.jobs[Ref(Restore, r.id)].(state := Ready, attempt := 1))
  {
    hide Reachable, Report, ExpireAll, Route;
    match a
    case Claim(m, node, rows, claimed, token, until) =>
      if claimed.None? {
        SweepMeans(t, m, node, rows, token, until, t');
      } else {
        ClaimMeans(t, m, node, rows, claimed.value, token, until, t');
      }
      hide Next;
    case Post(node, id, token, input, until) => PostHasCause(t, node, id, token, input, until, t', r);
    case Retry(_) =>
    case Place(_, _) =>
    case CreateJob(_, _, _, _, _) => assert [Event(None, Queued)] + [] == [Event(None, Queued)];
    case Tick(_) =>
  }

  /** The step is an accepted result for the row, for the upload of the row's artifacts, or for the restore
      whose ready provisioning row it is. */
  predicate Completes(t: Tables, a: Action, r: Ref) {
    && a.Post? && a.input.DoneIn?
    && (ReportedFor(t, a, r) || (r.machine == Backup && ReportedFor(t, a, Ref(Upload, r.id)))
        || (r.machine == Provisioning && ReportedFor(t, a, Ref(Restore, r.id))))
  }

  lemma CompletionStep(t: Tables, a: Action, t': Tables, r: Ref)
    requires Reachable(t) && Next(t, a, t') && r in t'.jobs
    requires t'.jobs[r].state in {Ready, Prepared, Verified, Validated, Cleaned}
    requires r in t.jobs ==> t.jobs[r].state != t'.jobs[r].state
    ensures Completes(t, a, r)
  {
    if r in t.jobs { StateChangeHasCause(t, a, t', r); } else { NewRowHasCause(t, a, t', r); }
    hide Next, Reachable;
  }

  predicate StaysSince(states: seq<Tables>, i: nat, k: nat, r: Ref, state: JobState) {
    k < |states| && forall h :: i < h <= k ==> r in states[h].jobs && states[h].jobs[r].state == state
  }

  lemma RunStep(states: seq<Tables>, actions: seq<Action>, k: nat)
    requires IsRun(Trans, states, actions) && states[0] == EMPTY && k < |actions|
    ensures Reachable(states[k]) && Next(states[k], actions[k], states[k + 1])
  {
    hide Next;
    assert Trans(states[k], actions[k], states[k + 1]);
    PrefixLeads(Trans, states, actions, k);
  }

  /** Nothing is ever complete without its report: over every run a row that is ready, prepared, verified,
      validated or cleaned got there by a result that its agent sent under a live lease, and has been in that
      state ever since. */
  lemma {:induction false} CompletionIsReported(states: seq<Tables>, actions: seq<Action>, k: nat, r: Ref)
    requires IsRun(Trans, states, actions) && states[0] == EMPTY && k <= |actions|
    requires r in states[k].jobs && states[k].jobs[r].state in {Ready, Prepared, Verified, Validated, Cleaned}
    ensures exists i ::
      && 0 <= i < k && k < |states| && Completes(states[i], actions[i], r)
      && StaysSince(states, i, k, r, states[k].jobs[r].state)
  {
    hide Next, Completes, Reachable;
    if k > 0 {
      var t, state := states[k - 1], states[k].jobs[r].state;
      RunStep(states, actions, k - 1);
      if r in t.jobs && t.jobs[r].state == state {
        CompletionIsReported(states, actions, k - 1, r);
        hide IsRun;
        var i :| 0 <= i < k - 1 && Completes(states[i], actions[i], r) && StaysSince(states, i, k - 1, r, state);
        assert StaysSince(states, i, k, r, state);
      } else {
        hide IsRun;
        CompletionStep(t, actions[k - 1], states[k], r);
        assert StaysSince(states, k - 1, k, r, state);
      }
    }
  }

  // -- what the logs say ------------------------------------------------------------------------------

  /** The steps that occur. */
  predicate Logged(m: Machine, from: JobState, to: JobState) {
    match m
    case Provisioning =>
      (from, to) in {(Queued, Placed), (Placed, Dispatched), (Retrying, Dispatched), (Dispatched, Running),
                     (Running, Ready), (Dispatched, Failed), (Running, Failed), (Failed, Retrying)}
    case Restore =>
      (from, to) in {(Queued, Dispatched), (Dispatched, Running), (Dispatched, Queued), (Running, Queued),
                     (Dispatched, Failed), (Running, Failed), (Dispatched, Restored), (Running, Restored),
                     (Restored, Validated)}
    case Cleanup =>
      (from, to) in {(Queued, Dispatched), (Dispatched, Running), (Running, Cleaned), (Dispatched, Failed),
                     (Running, Failed), (Failed, Queued)}
    case _ =>
      (from, to) in {(Queued, Dispatched), (Dispatched, Running), (Running, Prepared), (Dispatched, Failed),
                     (Running, Failed), (Prepared, Prepared), (Prepared, Uploaded), (Uploaded, Verified)}
  }

  ghost predicate StepsOk(m: Machine, log: seq<Event>) {
    && log != [] && log[0] in {Event(None, Queued), Event(None, Ready)}
    && forall i :: 0 < i < |log| ==> log[i].from == Some(log[i - 1].to) && Logged(m, log[i - 1].to, log[i].to)
  }

  lemma StepsAppend(m: Machine, log: seq<Event>, from: JobState, to: JobState)
    requires StepsOk(m, log) && log[|log| - 1].to == from && Logged(m, from, to)
    ensures StepsOk(m, log + [Event(Some(from), to)])
  {
    hide Logged;
  }

  lemma StepsAppendTwo(m: Machine, log: seq<Event>, from: JobState, mid: JobState, to: JobState)
    requires StepsOk(m, log) && log[|log| - 1].to == from && Logged(m, from, mid) && Logged(m, mid, to)
    ensures StepsOk(m, log + [Event(Some(from), mid), Event(Some(mid), to)])
  {
    StepsAppend(m, log, from, mid);
    StepsAppend(m, log + [Event(Some(from), mid)], mid, to);
    assert log + [Event(Some(from), mid)] + [Event(Some(mid), to)] ==
      log + [Event(Some(from), mid), Event(Some(mid), to)];
  }

  ghost predicate LogsOk(t: Tables) { forall r :: r in t.events ==> StepsOk(r.machine, t.events[r]) }

  lemma SweepKeepsLogs(t: Tables, m: Machine, node: Node, rows: seq<Ref>, token: Token, until: Time, t': Tables)
    requires Reachable(t) && LogsOk(t) && Next(t, Claim(m, node, rows, None, token, until), t')
    ensures LogsOk(t')
  {
    ReachableInv(t);
    SweepMeans(t, m, node, rows, token, until, t');
    ExpireAllFrameOf(t, m, node, rows, token, until, t');
    forall r | r in t'.events ensures StepsOk(r.machine, t'.events[r]) {
      assert LogOk(t, r);
      hide Inv, Reachable, Next, StepsOk;
      var log := t.events[r];
      if r in rows {
        StepsAppend(r.machine, log, t.jobs[r].state, if m == Restore then Queued else Failed);
      } else if m == Upload && r.machine == Backup && Ref(Upload, r.id) in rows {
        UploadOfPrepared(t, r);
        StepsAppend(r.machine, log, Prepared, Prepared);
      } else {
        assert log + [] == log;
      }
    }
  }

  lemma UploadOfPrepared(t: Tables, r: Ref)
    requires Reachable(t) && r.machine == Backup && Ref(Upload, r.id) in t.leases
    ensures r in t.jobs && t.jobs[r].state == Prepared
  {
    LeasesMirrorWork(t, Ref(Upload, r.id));
  }

  lemma ExpireAllFrameOf(t: Tables, m: Machine, node: Node, rows: seq<Ref>, token: Token, until: Time, t': Tables)
    requires Reachable(t) && Next(t, Claim(m, node, rows, None, token, until), t')
    ensures t'.events.Keys == t.events.Keys
  {
    ReachableInv(t);
    assert Leased(t, rows);
    ExpireAllFrame(t, rows);
  }

  lemma StepKeepsLogs(t: Tables, a: Action, t': Tables)
    requires Reachable(t) && LogsOk(t) && Next(t, a, t')
    ensures LogsOk(t')
  {
    ReachableInv(t);
    match a
    case CreateJob(_, _, _, _, _) => hide Inv, Reachable;
    case Place(r, _) =>
      assert LogOk(t, r);
      OneEvent(t.events[r], Queued, Placed);
      hide Inv, Reachable, Follow;
      StepsAppend(r.machine, t.events[r], Queued, Placed);
    case Claim(m, node, rows, claimed, token, until) =>
      hide Inv, Reachable, ExpireAll;
      var t1 := ExpireAll(t, rows);
      SweepKeepsLogs(t, m, node, rows, token, until, t1);
      if claimed.Some? { DispatchKeepsLogs(t, m, node, rows, claimed.value, token, until, t'); }
    case Post(node, id, token, input, until) => hide Inv; PostKeepsLogs(t, node, id, token, input, until, t');
    case Retry(r) =>
      RetryIff(t, r, t');
      assert LogOk(t, r);
      hide Inv, Reachable, Next;
      StepsAppend(r.machine, t.events[r], Failed, t'.jobs[r].state);
    case Tick(_) => hide Inv, Reachable;
  }

  lemma InvAfterSweep(t: Tables, m: Machine, node: Node, rows: seq<Ref>, token: Token, until: Time)
    requires Reachable(t) && Next(t, Claim(m, node, rows, None, token, until), ExpireAll(t, rows))
    ensures Inv(ExpireAll(t, rows))
  {
    ReachableInv(t);
    hide Inv, ExpireAll, Reachable;
    ExpireAllKeepsInv(t, rows);
  }

  lemma DispatchKeepsLogs(t: Tables, m: Machine, node: Node, rows: seq<Ref>, id: Id, token: Token, until: Time,
                          t': Tables)
    requires Reachable(t) && LogsOk(ExpireAll(t, rows)) && Next(t, Claim(m, node, rows, Some(id), token, until), t')
    ensures LogsOk(t')
  {
    hide Next, ExpireAll, Dispatch, Reachable;
    var t1, j := ExpireAll(t, rows), if m == Upload then Ref(Backup, id) else Ref(m, id);
    SweepOf(t, m, node, rows, Some(id), token, until, t');
    InvAfterSweep(t, m, node, rows, token, until);
    assert LogOk(t1, j);
    hide Inv;
    ClaimableIff(t1, m, node, id);
    hide Claimable;
    LogEnds(t1, j);
    hide LogOk, StepsOk;
    DispatchMeans(t1, m, node, id, token, until);
    AppendedLog(t1, j, if m == Upload then Prepared else Dispatched, t');
  }

  lemma LogEnds(t: Tables, j: Ref)
    requires LogOk(t, j) && j in t.jobs
    ensures j in t.events && t.events[j] != [] && t.events[j][|t.events[j]| - 1].to == t.jobs[j].state
  {
  }

  /** One more event of one row. */
  lemma AppendedLog(t: Tables, j: Ref, to: JobState, t': Tables)
    requires LogsOk(t) && j in t.jobs && j in t.events && t.events[j] != []
    requires t.events[j][|t.events[j]| - 1].to == t.jobs[j].state && Logged(j.machine, t.jobs[j].state, to)
    requires t'.events == t.events[j := t.events[j] + [Event(Some(t.jobs[j].state), to)]]
    ensures LogsOk(t')
  {
    StepsAppend(j.machine, t.events[j], t.jobs[j].state, to);
    hide StepsOk, Logged;
  }

  lemma PostKeepsLogs(t: Tables, node: Node, id: Id, token: Token, input: Input, until: Time, t': Tables)
    requires Reachable(t) && LogsOk(t) && Next(t, Post(node, id, token, input, until), t')
    ensures LogsOk(t')
  {
    var q := Ref(Route(t, node, id), id);
    if q in t.leases && t.leases[q].node == node && t.leases[q].token == token && t.now < t.leases[q].expires {
      LivePost(t, q, input, until, t');
      ReachableInv(t);
      assert LogOk(t, JobOf(q));
      hide Inv, Reachable, Report, Next, Route;
      var j := JobOf(q);
      var log, from := t.events[j], t.jobs[j].state;
      match input {
        case RunningIn =>
          RunningMeans(t, q, until, t');
          if from == Dispatched { StepsAppend(j.machine, log, from, Running); }
        case FailedIn =>
          FailureMeans(t, q, until, t');
          if t' != t { StepsAppend(j.machine, log, from, if q.machine == Upload then Prepared else Failed); }
        case DoneIn(result) => ResultKeepsLogs(t, q, result, until, t');
      }
    } else {
      DeadLogs(t, node, id, token, input, until, t');
    }
  }

  lemma DeadLogs(t: Tables, node: Node, id: Id, token: Token, input: Input, until: Time, t': Tables)
    requires Next(t, Post(node, id, token, input, until), t')
    requires var r := Ref(Route(t, node, id), id);
      !(r in t.leases && t.leases[r].node == node && t.leases[r].token == token && t.now < t.leases[r].expires)
    ensures t'.events == t.events
  {
    hide Route, Parsed, Fits;
  }

  /** The events of an accepted result, as steps of its machine. */
  lemma ResultSteps(t: Tables, q: Ref, result: Result, until: Time, t': Tables)
    requires Reachable(t) && q in t.leases && t.now < t.leases[q].expires && t' != t
    requires Next(t, Post(t.leases[q].node, q.id, t.leases[q].token, DoneIn(result), until), t')
    ensures JobOf(q) in t.jobs && JobOf(q) in t.events
    ensures var j, from := JobOf(q), t.jobs[JobOf(q)].state;
      match q.machine
      case Provisioning =>
        Logged(q.machine, from, Ready) && t'.events == t.events[j := t.events[j] + [Event(Some(from), Ready)]]
      case Backup =>
        Logged(q.machine, from, Prepared) && t'.events == t.events[j := t.events[j] + [Event(Some(from), Prepared)]]
      case Cleanup =>
        Logged(q.machine, from, Cleaned) && t'.events == t.events[j := t.events[j] + [Event(Some(from), Cleaned)]]
      case Upload =>
        && Logged(Backup, from, Uploaded) && Logged(Backup, Uploaded, Verified)
        && t'.events == t.events[j := t.events[j] + [Event(Some(from), Uploaded), Event(Some(Uploaded), Verified)]]
      case Restore =>
        && Logged(q.machine, from, Restored) && Logged(q.machine, Restored, Validated)
        && t'.events == t.events[j := t.events[j] + [Event(Some(from), Restored), Event(Some(Restored), Validated)]]
                        [Ref(Provisioning, q.id) := [Event(None, Ready)]]
  {
    AcceptedIff(t, q.machine, q.id, t.leases[q].node, t.leases[q].token, DoneIn(result));
    hide Reachable, Next, Parsed, AllStored;
    ResultMeans(t, q, result, until, t');
    hide AnswerOf;
  }

  lemma ResultKeepsLogs(t: Tables, q: Ref, result: Result, until: Time, t': Tables)
    requires Reachable(t) && LogsOk(t) && q in t.leases && t.now < t.leases[q].expires
    requires Next(t, Post(t.leases[q].node, q.id, t.leases[q].token, DoneIn(result), until), t')
    ensures LogsOk(t')
  {
    if t' != t {
      var j := JobOf(q);
      ResultSteps(t, q, result, until, t');
      ReachableInv(t);
      assert LogOk(t, j);
      hide Inv, Reachable, Next, Logged, StepsOk;
      LogEnds(t, j);
      hide LogsOk, LogOk;
      match q.machine {
        case Provisioning => AppendedLog(t, j, Ready, t');
        case Backup => AppendedLog(t, j, Prepared, t');
        case Upload => AppendedTwo(t, j, Uploaded, Verified, None, t');
        case Restore => AppendedTwo(t, j, Restored, Validated, Some(Ref(Provisioning, q.id)), t');
        case Cleanup => AppendedLog(t, j, Cleaned, t');
      }
    }
  }

  /** Two more events of one row, and perhaps the log of a materialised one. */
  lemma AppendedTwo(t: Tables, j: Ref, mid: JobState, to: JobState, p: Option<Ref>, t': Tables)
    requires LogsOk(t) && j in t.jobs && j in t.events && t.events[j] != []
    requires t.events[j][|t.events[j]| - 1].to == t.jobs[j].state
    requires Logged(j.machine, t.jobs[j].state, mid) && Logged(j.machine, mid, to)
    requires
      var events := t.events[j := t.events[j] + [Event(Some(t.jobs[j].state), mid), Event(Some(mid), to)]];
      t'.events == if p.Some? then events[p.value := [Event(None, Ready)]] else events
    ensures LogsOk(t')
  {
    StepsAppendTwo(j.machine, t.events[j], t.jobs[j].state, mid, to);
    forall m: Machine ensures StepsOk(m, [Event(None, Ready)]) {
    }
    hide StepsOk, Logged;
  }

  /** Consecutive events of a log are steps that occur, and nothing but a creation or the restore trigger
      begins one. */
  lemma LogsFollowSteps(t: Tables, r: Ref)
    requires Reachable(t) && r in t.events
    ensures StepsOk(r.machine, t.events[r])
  {
    var inv := (t: Tables) => Reachable(t) && LogsOk(t);
    LeadsSelf(Trans, EMPTY);
    assert inv(EMPTY);
    forall t, a, t' | inv(t) && Trans(t, a, t') ensures inv(t') {
      hide LogsOk;
      LeadsStep(Trans, EMPTY, t, a, t');
      StepKeepsLogs(t, a, t');
    }
    LeadsKeeps(Trans, inv, EMPTY, t);
  }

  /** The job rows after an expiry loop, all at once. */
  lemma SweptJobs(t: Tables, rows: seq<Ref>)
    ensures Inv(t) && Leased(t, rows) ==>
      var t' := ExpireAll(t, rows);
      && t'.leases == t.leases - (set r | r in rows) && t'.results == t.results && t'.now == t.now
      && t'.jobs.Keys == t.jobs.Keys
      && forall j :: j in t.jobs ==>
           t'.jobs[j] == if j !in rows then t.jobs[j]
                         else t.jobs[j].(state := if j.machine == Restore then Queued else Failed)
  {
    if Inv(t) && Leased(t, rows) {
      ExpireAllFrame(t, rows);
      forall j | j in t.jobs
        ensures ExpireAll(t, rows).jobs[j] ==
          if j !in rows then t.jobs[j] else t.jobs[j].(state := if j.machine == Restore then Queued else Failed)
      {
        assert FlightOk(t, j);
        ExpireAllOnJob(t, rows, j);
      }
    }
  }
}
