/** What the handlers answer, and why a lost answer does no harm: the accepted report can be sent again.

    One HTTP handler is one step; BackupArtifacts and RestoreGates look at the backup's replays
    between the single database calls. */
module Replays {
  import opened Common
  import opened Runs
  import opened LeasedJobs
  import RestoreGates

  datatype Answer = Accepted | Replayed | Rejected

  /** A report that holds a live lease and fits the row's state. */
  predicate Acceptable(t: Tables, m: Machine, id: Id, node: Node, token: Token, input: Input) {
    var r, j := Ref(m, id), JobOf(Ref(m, id));
    && Live(t, r, node, token) && j in t.jobs && t.jobs[j].node == Some(node)
    && match input
       case RunningIn => m == Upload || InFlight(t.jobs[j].state)
       case FailedIn => MayFail(m, t.jobs[j].state)
       case DoneIn(result) => Parsed(m, result) && MayFinish(m, t.jobs[j].state, Fits(t, m, id, result))
  }

  /** The lease query of the report comes back empty: the backup asks for the report's live lease, the
      upload and the restore for any lease on the node. */
  predicate NoLease(t: Tables, m: Machine, id: Id, node: Node, token: Token) {
    var r := Ref(m, id);
    if m == Backup then !Live(t, r, node, token) else !(r in t.leases && t.leases[r].node == node)
  }

  function SortedItems(items: seq<RestoreGates.Wire>): seq<RestoreGates.Wire> { RestoreGates.SortByKind(items) }

  /** preparedReplayMatches, verifiedReplayMatches and validatedReplayMatches; only the first one does
      not look at the node. */
  predicate ReplayMatches(t: Tables, m: Machine, id: Id, node: Node, result: Result) {
    var r, j := Ref(m, id), JobOf(Ref(m, id));
    && j in t.jobs && r in t.results
    && match m
       case Backup =>
         && t.jobs[j].state == Prepared && result.OfBackup? && t.results[r].OfBackup?
         && t.results[r].manifest == result.manifest && t.results[r].total == result.total
         && SortedItems(t.results[r].items) == SortedItems(result.items)
       case Upload =>
         && t.jobs[j].node == Some(node) && t.jobs[j].state == Verified && result.OfUpload? && t.results[r].OfUpload?
         && SortedItems(t.results[r].items) == SortedItems(result.items)
       case Restore =>
         && t.jobs[j].node == Some(node) && t.jobs[j].state == Validated && t.results[r] == result
       case _ => false
  }

  function AnswerOf(t: Tables, m: Machine, id: Id, node: Node, token: Token, input: Input): Answer {
    if Acceptable(t, m, id, node, token, input) then Accepted
    else if input.DoneIn? && Parsed(m, input.result) && NoLease(t, m, id, node, token)
            && ReplayMatches(t, m, id, node, input.result) then Replayed
    else Rejected
  }

  /** The state a report leaves its row in. */
  function Outcome(m: Machine, input: Input): JobState {
    match input
    case RunningIn => if m == Upload then Prepared else Running
    case FailedIn => if m == Upload then Prepared else Failed
    case DoneIn(_) =>
      (match m
       case Provisioning => Ready
       case Backup => Prepared
       case Upload => Verified
       case Restore => Validated
       case Cleanup => Cleaned)
  }

  /** What an applied report does, seen from the outside: the row reaches its state, a running report
      extends the lease and every other one removes it, and no other lease and no other row changes,
      except for the row a validated restore materialises. */
  lemma AppliedReportMeans(t: Tables, m: Machine, id: Id, node: Node, token: Token, input: Input, until: Time)
    requires LeaseOk(t, Ref(m, id)) && Acceptable(t, m, id, node, token, input)
    ensures var r, j, t' := Ref(m, id), JobOf(Ref(m, id)), Report(t, m, id, node, token, input, until);
      && j in t'.jobs && t'.jobs[j] == t.jobs[j].(state := Outcome(m, input))
      && t'.results == (if input.DoneIn? then Record(t, m, id, input.result).results else t.results)
      && t'.leases == (if input.RunningIn? then t.leases[r := t.leases[r].(expires := until)] else t.leases - {r})
      && (forall q :: q in t.jobs && q != j ==> q in t'.jobs && t'.jobs[q] == t.jobs[q])
      && (forall q :: q in t'.jobs && q !in t.jobs ==>
            m == Restore && input.DoneIn? && q == Ref(Provisioning, id) && t'.jobs[q].state == Ready)
  {
    hide Follow, Parsed, Fits;
  }

  /** And a report that is not applied does nothing, but for a lapsed upload lease that names it. */
  lemma RejectedReportMeans(t: Tables, m: Machine, id: Id, node: Node, token: Token, input: Input, until: Time)
    requires LeaseOk(t, Ref(m, id)) && !Acceptable(t, m, id, node, token, input)
    ensures var r, t' := Ref(m, id), Report(t, m, id, node, token, input, until);
      if m == Upload && (input.DoneIn? ==> Parsed(m, input.result))
         && Held(t, r, node, token) && t.leases[r].expires <= t.now
      then t' == t.(leases := t.leases - {r}) else t' == t
  {
    hide Follow, Parsed, Fits;
  }

  // -- what a result is, whatever the order of its artifacts -----------------------------------------

  ghost predicate SameItems(a: seq<RestoreGates.Wire>, b: seq<RestoreGates.Wire>) { forall w :: w in a <==> w in b }

  /** The same database name, or the same artifacts in any order. */
  ghost predicate SameResult(a: Result, b: Result) {
    match a
    case OfBackup(total, manifest, items) =>
      b.OfBackup? && b.total == total && b.manifest == manifest && SameItems(items, b.items)
    case OfUpload(items) => b.OfUpload? && SameItems(items, b.items)
    case _ => a == b
  }

  /** The states in which a machine still knows its result. */
  predicate Settled(t: Tables, m: Machine, id: Id) {
    var j := JobOf(Ref(m, id));
    && j in t.jobs
    && t.jobs[j].state == (match m case Backup => Prepared case Upload => Verified case _ => Validated)
  }

  /** Stored lists were parsed, and a settled row has its result. */
  ghost predicate ResultsOk(t: Tables) {
    && (forall m: Machine, id :: m in {Backup, Upload} && Ref(m, id) in t.results ==> Parsed(m, t.results[Ref(m, id)]))
    && (forall id :: Ref(Backup, id) in t.jobs && t.jobs[Ref(Backup, id)].state in {Prepared, Verified} ==>
          Ref(Backup, id) in t.results)
    && (forall id :: Ref(Backup, id) in t.jobs && t.jobs[Ref(Backup, id)].state == Verified ==>
       Ref(Upload, id) in t.results)
    && (forall id :: Ref(Restore, id) in t.jobs ==> Ref(Restore, id) in t.results)
  }

  function ResultOf(t: Tables, r: Ref): Option<Result> { if r in t.results then Some(t.results[r]) else None }

  /** Results stay once they are stored: a backup's when it is prepared, an upload's when it is
      verified, a restore's name from the start. */
  ghost predicate ResultsKept(t: Tables, t': Tables) {
    && (forall id :: var b := Ref(Backup, id); b in t.jobs && t.jobs[b].state in {Prepared, Verified} ==>
          && b in t'.jobs && t'.jobs[b].state in {Prepared, Verified} && t'.jobs[b].node == t.jobs[b].node
          && ResultOf(t', b) == ResultOf(t, b))
    && (forall id :: var b := Ref(Backup, id); b in t.jobs && t.jobs[b].state == Verified ==>
          t'.jobs[b] == t.jobs[b] && ResultOf(t', Ref(Upload, id)) == ResultOf(t, Ref(Upload, id)))
    && (forall id :: var r := Ref(Restore, id); r in t.jobs ==>
          && r in t'.jobs && t'.jobs[r].node == t.jobs[r].node && ResultOf(t', r) == ResultOf(t, r)
          && (t.jobs[r].state == Validated ==> t'.jobs[r] == t.jobs[r]))
  }

  /** A step that stores no result and brings no row into a state that needs one. */
  ghost predicate Calm(t: Tables, t': Tables) {
    && t'.results == t.results
    && (forall j :: j in t.jobs && j.machine in {Backup, Restore} ==> j in t'.jobs && t'.jobs[j].node == t.jobs[j].node)
    && (forall j :: j in t.jobs && j.machine in {Backup, Restore} && t.jobs[j].state in {Verified, Validated} ==>
          t'.jobs[j] == t.jobs[j])
    && (forall j: Ref :: j.machine == Backup ==>
          (j in t.jobs && t.jobs[j].state == Prepared <==> j in t'.jobs && t'.jobs[j].state == Prepared))
    && (forall j: Ref :: j.machine == Backup && j in t'.jobs && t'.jobs[j].state == Verified ==>
          j in t.jobs && t.jobs[j].state == Verified)
    && (forall j: Ref :: j.machine == Restore && j in t'.jobs ==> j in t.jobs)
  }

  lemma CalmKeeps(t: Tables, t': Tables)
    requires ResultsOk(t) && Calm(t, t')
    ensures ResultsOk(t') && ResultsKept(t, t')
  {
    forall id ensures var b := Ref(Backup, id);
      b in t'.jobs && t'.jobs[b].state in {Prepared, Verified} ==> b in t.jobs && t.jobs[b].state == t'.jobs[b].state
    {
    }
  }

  lemma ExpireIsCalm(t: Tables, r: Ref)
    requires LeaseOk(t, r) && r in t.leases
    ensures Calm(t, Expire(t, r))
  {
    hide Follow;
  }

  lemma CalmTrans(t: Tables, t1: Tables, t2: Tables)
    requires Calm(t, t1) && Calm(t1, t2)
    ensures Calm(t, t2)
  {
  }

  lemma {:induction false} ExpireAllIsCalm(t: Tables, rows: seq<Ref>)
    requires Inv(t) && (forall i :: 0 <= i < |rows| ==> rows[i] in t.leases)
    requires forall i, k :: 0 <= i < k < |rows| ==> rows[i] != rows[k]
    ensures Calm(t, ExpireAll(t, rows))
    decreases |rows|
  {
    if rows != [] {
      assert LeaseOk(t, rows[0]);
      ExpireIsCalm(t, rows[0]);
      ExpireKeepsInv(t, rows[0]);
      hide Inv, Expire, Calm;
      ExpireAllIsCalm(Expire(t, rows[0]), rows[1..]);
      CalmTrans(t, Expire(t, rows[0]), ExpireAll(t, rows));
    }
  }

  lemma DispatchIsCalm(t: Tables, m: Machine, node: Node, id: Id, token: Token, until: Time)
    requires Claimable(t, m, node, id)
    ensures Calm(t, Dispatch(t, m, node, id, token, until))
  {
    hide Follow;
  }

  lemma SameRowsAreCalm(t: Tables, t': Tables)
    requires t'.jobs == t.jobs && t'.results == t.results
    ensures Calm(t, t')
  {
  }

  lemma AppliedIsCalm(t: Tables, m: Machine, id: Id, node: Node, token: Token, input: Input, until: Time)
    requires LeaseOk(t, Ref(m, id)) && Acceptable(t, m, id, node, token, input)
    requires !(m in {Backup, Upload} && input.DoneIn?)
    ensures Calm(t, Report(t, m, id, node, token, input, until))
  {
    assert Ref(m, id) in t.leases by { hide Parsed, Fits; }
    hide Report, Acceptable, Calm;
    AppliedReportMeans(t, m, id, node, token, input, until);
    OneRowIsCalm(t, Report(t, m, id, node, token, input, until), JobOf(Ref(m, id)));
  }

  /** One row moves, apart from a new ready one, and neither reaches nor leaves a state that keeps a result. */
  lemma OneRowIsCalm(t: Tables, t': Tables, j: Ref)
    requires t'.results == t.results && j in t.jobs && j in t'.jobs && t'.jobs[j].node == t.jobs[j].node
    requires forall q :: q in t.jobs && q != j ==> q in t'.jobs && t'.jobs[q] == t.jobs[q]
    requires forall q :: q in t'.jobs && q !in t.jobs ==> q.machine == Provisioning
    requires j.machine in {Backup, Restore} ==> t.jobs[j].state !in {Verified, Validated}
    requires j.machine == Backup ==>
      t'.jobs[j].state != Verified && (t.jobs[j].state == Prepared <==> t'.jobs[j].state == Prepared)
    ensures Calm(t, t')
  {
  }

  /** A report that is not an accepted result of a backup or an upload. */
  lemma ReportIsCalm(t: Tables, m: Machine, id: Id, node: Node, token: Token, input: Input, until: Time)
    requires LeaseOk(t, Ref(m, id))
    requires !(m in {Backup, Upload} && input.DoneIn? && Acceptable(t, m, id, node, token, input))
    ensures Calm(t, Report(t, m, id, node, token, input, until))
  {
    hide Report, Acceptable, Calm, LeaseOk;
    if Acceptable(t, m, id, node, token, input) {
      AppliedIsCalm(t, m, id, node, token, input, until);
    } else {
      RejectedReportMeans(t, m, id, node, token, input, until);
      SameRowsAreCalm(t, Report(t, m, id, node, token, input, until));
    }
  }

  /** A backup becomes prepared, or a prepared one verified, and its result is stored. */
  ghost predicate Stores(t: Tables, t': Tables, m: Machine, id: Id, result: Result) {
    var b := Ref(Backup, id);
    && m in {Backup, Upload} && Parsed(m, result) && b in t.jobs
    && t.jobs[b].state == (if m == Backup then Running else Prepared)
    && t'.jobs == t.jobs[b := t.jobs[b].(state := if m == Backup then Prepared else Verified)]
    && t'.results == t.results[Ref(m, id) := result]
  }

  lemma AcceptanceStores(t: Tables, m: Machine, id: Id, node: Node, token: Token, result: Result, until: Time)
    requires m in {Backup, Upload} && Acceptable(t, m, id, node, token, DoneIn(result))
    ensures Stores(t, Report(t, m, id, node, token, DoneIn(result), until), m, id, result)
  {
    hide Follow, Parsed, Fits;
  }

  lemma StoringKeepsOk(t: Tables, t': Tables, m: Machine, id: Id, result: Result)
    requires ResultsOk(t) && Stores(t, t', m, id, result)
    ensures ResultsOk(t')
  {
    hide Parsed;
  }

  lemma StoringKeepsResults(t: Tables, t': Tables, m: Machine, id: Id, result: Result)
    requires Stores(t, t', m, id, result)
    ensures ResultsKept(t, t')
  {
    hide Parsed;
  }

  lemma CreationKeepsOk(t: Tables, r: Ref, tenant: Id, home: Option<Node>, placed: bool, name: Name)
    requires ResultsOk(t) && r !in t.jobs && r.machine != Upload && (placed ==> r.machine == Provisioning)
    ensures ResultsOk(Create(t, r, tenant, home, placed, name))
  {
    hide Parsed;
  }

  lemma CreationKeepsResults(t: Tables, r: Ref, tenant: Id, home: Option<Node>, placed: bool, name: Name)
    requires r !in t.jobs
    ensures ResultsKept(t, Create(t, r, tenant, home, placed, name))
  {
  }

  lemma StepKeepsResults(t: Tables, a: Action, t': Tables)
    requires Inv(t) && ResultsOk(t) && Next(t, a, t')
    ensures ResultsOk(t') && ResultsKept(t, t')
  {
    match a
    case CreateJob(r, tenant, home, placed, name) =>
      assert Ref(r.machine, r.id) == r;
      hide Inv, ResultsOk, ResultsKept, Create;
      CreationKeepsOk(t, r, tenant, home, placed, name);
      CreationKeepsResults(t, r, tenant, home, placed, name);
    case Claim(m, node, rows, claimed, token, until) =>
      hide Inv, Dispatch, ResultsOk, ResultsKept, Calm;
      ExpireAllIsCalm(t, rows);
      var t1 := ExpireAll(t, rows);
      CalmKeeps(t, t1);
      if claimed.Some? {
        DispatchIsCalm(t1, m, node, claimed.value, token, until);
        CalmKeeps(t1, t');
        KeptTrans(t, t1, t');
      }
    case Post(node, id, token, input, until) =>
      var m := Route(t, node, id);
      assert LeaseOk(t, Ref(m, id));
      hide Inv, Report, Route, Acceptable, ResultsOk, ResultsKept, Calm;
      if m in {Backup, Upload} && input.DoneIn? && Acceptable(t, m, id, node, token, input) {
        AcceptanceStores(t, m, id, node, token, input.result, until);
        hide Stores;
        StoringKeepsOk(t, t', m, id, input.result);
        StoringKeepsResults(t, t', m, id, input.result);
      } else {
        ReportIsCalm(t, m, id, node, token, input, until);
        CalmKeeps(t, t');
      }
    case Place(_, _) => hide Inv, Follow, ResultsOk, ResultsKept; CalmKeeps(t, t');
    case Retry(_) => hide Inv, Follow, ResultsOk, ResultsKept; CalmKeeps(t, t');
    case Tick(_) => hide Inv, ResultsOk, ResultsKept; CalmKeeps(t, t');
  }

  lemma KeptTrans(t: Tables, t1: Tables, t2: Tables)
    requires ResultsKept(t, t1) && ResultsKept(t1, t2)
    ensures ResultsKept(t, t2)
  {
  }

  /** Between any two points of a run results are kept. */
  lemma RunKeepsResults(t: Tables, t': Tables)
    requires Inv(t) && ResultsOk(t) && Leads(Trans, t, t')
    ensures Inv(t') && ResultsOk(t') && ResultsKept(t, t')
  {
    hide Inv, ResultsOk;
    var inv := (u: Tables) => Inv(u) && ResultsOk(u) && ResultsKept(t, u);
    assert ResultsKept(t, t);
    hide ResultsKept;
    forall u, a, u' | inv(u) && Trans(u, a, u') ensures inv(u') {
      StepKeepsInv(u, a, u');
      StepKeepsResults(u, a, u');
      KeptTrans(t, u, u');
    }
    LeadsKeeps(Trans, inv, t, t');
  }

  lemma ReachableResults(t: Tables)
    requires Reachable(t)
    ensures Inv(t) && ResultsOk(t)
  {
    assert Inv(EMPTY) && ResultsOk(EMPTY);
    hide Inv, ResultsOk, ResultsKept;
    RunKeepsResults(EMPTY, t);
  }

  // -- replays ------------------------------------------------------------------------------------

  lemma ParsedIsListed(m: Machine, result: Result)
    requires m in {Backup, Upload} && Parsed(m, result)
    ensures result.OfBackup? || result.OfUpload?
    ensures RestoreGates.OneOfEach(result.items)
  {
  }

  /** Comparing a result with the stored one is comparing what they say, in any order. */
  lemma ReplayIsSameResult(t: Tables, m: Machine, id: Id, node: Node, result: Result)
    requires ResultsOk(t) && m in {Backup, Upload, Restore} && Parsed(m, result)
    ensures ReplayMatches(t, m, id, node, result) <==>
      && Settled(t, m, id) && (m != Backup ==> t.jobs[JobOf(Ref(m, id))].node == Some(node))
      && Ref(m, id) in t.results && SameResult(t.results[Ref(m, id)], result)
  {
    var r := Ref(m, id);
    if m != Restore && r in t.results {
      ParsedIsListed(m, result);
      ParsedIsListed(m, t.results[r]);
      RestoreGates.ReplayComparesSets(t.results[r].items, result.items);
    }
    hide ResultsOk;
  }

  /** Without a lease a result is accepted exactly when its row is settled and it equals the stored
      result; uploads and restores must come from the row's node. */
  lemma ReplayedIff(t: Tables, m: Machine, id: Id, node: Node, token: Token, result: Result)
    requires Reachable(t) && Parsed(m, result)
    requires Ref(m, id) in t.leases && t.leases[Ref(m, id)].node == node ==>
      m == Backup && (t.leases[Ref(m, id)].token != token || t.leases[Ref(m, id)].expires <= t.now)
    ensures AnswerOf(t, m, id, node, token, DoneIn(result)) != Accepted
    ensures AnswerOf(t, m, id, node, token, DoneIn(result)) == Replayed <==>
      && m in {Backup, Upload, Restore}
      && var j := if m == Upload then Ref(Backup, id) else Ref(m, id);
      && j in t.jobs
      && t.jobs[j].state == (if m == Backup then Prepared else if m == Upload then Verified else Validated)
      && (m != Backup ==> t.jobs[j].node == Some(node))
      && Ref(m, id) in t.results && SameResult(t.results[Ref(m, id)], result)
  {
    ReachableResults(t);
    if m in {Backup, Upload, Restore} { ReplayIsSameResult(t, m, id, node, result); }
    hide Inv, ResultsOk, SameResult, Parsed;
  }

  /** Under any lease of the node that is not the report's own live one, nothing is replayed but a backup. */
  lemma NoReplayUnderLease(t: Tables, m: Machine, id: Id, node: Node, token: Token, input: Input)
    requires m != Backup && Ref(m, id) in t.leases && t.leases[Ref(m, id)].node == node
    requires t.leases[Ref(m, id)].token != token || t.leases[Ref(m, id)].expires <= t.now
    ensures AnswerOf(t, m, id, node, token, input) == Rejected
  {
    hide Parsed, ReplayMatches, MayFinish, MayFail, Fits;
  }

  lemma ReplayChangesNothing(t: Tables, m: Machine, id: Id, node: Node, token: Token, input: Input, until: Time)
    requires AnswerOf(t, m, id, node, token, input) == Replayed
    ensures Report(t, m, id, node, token, input, until) == t
  {
    hide Parsed, Fits;
  }

  /** An accepted result settles its row and is what the row then knows. */
  lemma AcceptanceSettles(t: Tables, m: Machine, id: Id, node: Node, token: Token, result: Result, until: Time)
    requires Inv(t) && ResultsOk(t) && m in {Backup, Upload, Restore}
    requires Acceptable(t, m, id, node, token, DoneIn(result))
    ensures var t1 := Report(t, m, id, node, token, DoneIn(result), until);
      && Settled(t1, m, id) && Ref(m, id) in t1.results && t1.results[Ref(m, id)] == result
      && t1.jobs[JobOf(Ref(m, id))].node == Some(node)
  {
    assert LeaseOk(t, Ref(m, id));
    AppliedReportMeans(t, m, id, node, token, DoneIn(result), until);
    hide Inv, Report, Parsed, ResultsOk;
  }

  /** No lease of a settled row's machine is left, and its results are routed to it: those of a
      prepared backup as long as no upload lease exists on the node. */
  lemma SettledIsRouted(t: Tables, m: Machine, id: Id, node: Node, token: Token)
    requires Inv(t) && m in {Backup, Upload, Restore} && Settled(t, m, id)
    requires m != Backup ==> t.jobs[JobOf(Ref(m, id))].node == Some(node)
    ensures NoLease(t, m, id, node, token)
    ensures Route(t, node, id) == m <==>
      m == Backup ==> !(Ref(Upload, id) in t.leases && t.leases[Ref(Upload, id)].node == node)
  {
    assert LeaseOk(t, Ref(m, id)) && LeaseOk(t, Ref(Upload, id));
    var j := JobOf(Ref(m, id));
    assert forall q :: q in t.jobs && q.id == id && q != j ==> Twins(t, q, j) || Twins(t, j, q);
  }

  lemma SettledReplays(t: Tables, m: Machine, id: Id, node: Node, token: Token, result: Result)
    requires Inv(t) && ResultsOk(t) && m in {Backup, Upload, Restore} && Parsed(m, result)
    requires Settled(t, m, id) && t.jobs[JobOf(Ref(m, id))].node == Some(node)
    requires Ref(m, id) in t.results && SameResult(t.results[Ref(m, id)], result)
    ensures Route(t, node, id) == m && AnswerOf(t, m, id, node, token, DoneIn(result)) == Replayed <==>
      m == Backup ==> !(Ref(Upload, id) in t.leases && t.leases[Ref(Upload, id)].node == node)
  {
    hide Parsed, SameResult, Route, ReplayMatches, MayFinish, Fits;
    SettledIsRouted(t, m, id, node, token);
    ReplayIsSameResult(t, m, id, node, result);
    hide Inv, ResultsOk;
  }

  /** Lost acknowledgements are harmless.  After a prepared, verified or validated report has been
      accepted, sending it again, with its artifacts in any order and at any later point of the run, is
      accepted and changes nothing: for a verified or validated one always, for a prepared one exactly
      as long as the backup is prepared and no upload of it is leased on the node. */
  lemma AcceptedResultReplays(t: Tables, m: Machine, id: Id, node: Node, token: Token, result: Result, until: Time,
                              t2: Tables, token2: Token, again: Result, until2: Time)
    requires Reachable(t) && m in {Backup, Upload, Restore} && Route(t, node, id) == m
    requires AnswerOf(t, m, id, node, token, DoneIn(result)) == Accepted
    requires Leads(Trans, PostResult(t, node, id, token, DoneIn(result), until), t2)
    requires Parsed(m, again) && SameResult(result, again)
    ensures Route(t2, node, id) == m && AnswerOf(t2, m, id, node, token2, DoneIn(again)) == Replayed <==>
      m == Backup ==>
        Settled(t2, m, id) && !(Ref(Upload, id) in t2.leases && t2.leases[Ref(Upload, id)].node == node)
    ensures Route(t2, node, id) == m && AnswerOf(t2, m, id, node, token2, DoneIn(again)) == Replayed ==>
      PostResult(t2, node, id, token2, DoneIn(again), until2) == t2
  {
    ReachableResults(t);
    var t1 := PostResult(t, node, id, token, DoneIn(result), until);
    StepKeepsInv(t, Post(node, id, token, DoneIn(result), until), t1);
    StepKeepsResults(t, Post(node, id, token, DoneIn(result), until), t1);
    AcceptanceSettles(t, m, id, node, token, result, until);
    RunKeepsResults(t1, t2);
    hide Inv, ResultsOk, Parsed, SameResult, Route, Report, Leads;
    if m != Backup || Settled(t2, m, id) {
      assert Settled(t2, m, id) && Ref(m, id) in t2.results && t2.results[Ref(m, id)] == result;
      assert t2.jobs[JobOf(Ref(m, id))].node == Some(node);
      hide ResultsKept, AnswerOf;
      SettledReplays(t2, m, id, node, token2, again);
    }
    hide ResultsKept;
    if AnswerOf(t2, m, id, node, token2, DoneIn(again)) == Replayed {
      hide AnswerOf;
      ReplayChangesNothing(t2, m, id, node, token2, DoneIn(again), until2);
    }
  }
}
