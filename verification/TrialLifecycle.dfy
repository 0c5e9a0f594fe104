/** Trials: the tenant row, its one provisioning job and its cleanup job over whole runs. */
module TrialLifecycle {
  import opened Common
  import opened Runs

  type Id = nat
  type Node = nat
  type Name = nat
  type Time = nat

  const TRIAL_DURATION: nat := 3 * 24 * 60 * 60 * 1000
  const LEASE_BATCH: nat := 20

  datatype Status = Provisioning | TenantReady | Suspended | TenantFailed | Decommissioned
  datatype TrialState = TrialProvisioning | Active | Expired | CleanupPending | TrialFailed | TrialCleaned
  datatype JobState = Placed | Dispatched | Running | Ready | JobFailed | Retrying
  datatype CleanupState = Queued | CleanupDispatched | CleanupRunning | CleanupFailed | Cleaned

  datatype CleanupRow = CleanupRow(state: CleanupState, node: Node, database: Name, created: Time)

  datatype Trial = Trial(
    status: Status, trial: TrialState, home: Option<Node>, database: Option<Name>, expires: Option<Time>,
    job: JobState, jobNode: Node, jobLease: Option<Time>, finished: Option<Time>,
    cleanup: Option<CleanupRow>, cleanupLease: Option<Time>)

  // -- the writes of the handlers on one trial --------------------------------------------------

  /** createTrial */
  function Requested(node: Node): Trial {
    Trial(Provisioning, TrialProvisioning, Some(node), None, None, Placed, node, None, None, None, None)
  }

  function TrialExpiryFrom(started: Time): Time { started + TRIAL_DURATION }

  /** The ready report of the provisioning job. */
  function Activated(t: Trial, name: Name, now: Time): Trial {
    t.(job := Ready, jobLease := None, finished := Some(now), status := TenantReady, database := Some(name),
       trial := Active, expires := Some(TrialExpiryFrom(now)))
  }

  /** The failed report and the lease expiry of the provisioning job. */
  function ProvisioningFailed(t: Trial, now: Time): Trial {
    t.(job := JobFailed, jobLease := None, finished := Some(now), status := TenantFailed, trial := TrialFailed)
  }

  /** The administrator's retry leaves trial_state as it was. */
  function ProvisioningRetried(t: Trial): Trial {
    t.(job := Retrying, jobLease := None, finished := None, status := Provisioning, home := Some(t.jobNode))
  }

  /** isTrialDue */
  predicate IsDue(t: Trial, now: Time) {
    t.status == TenantReady && t.trial == Active && t.expires.Some? && t.expires.value <= now
  }

  /** markTrialExpired; the flag tells whether the guarded update changed the row. */
  function MarkExpired(t: Trial): (Trial, bool) {
    if t.status == TenantReady && t.trial == Active then (t.(status := Suspended, trial := Expired), true)
    else (t, false)
  }

  /** queueExpiredTrialCleanup on a node that is active or not. */
  function QueueCleanup(t: Trial, now: Time, nodeActive: bool): (Trial, bool) {
    if t.status != Suspended || t.trial != Expired || t.home.None? || t.database.None? then (t, false)
    else if t.cleanup.Some? then (t.(trial := CleanupPending), true)
    else if t.job != Ready || Some(t.jobNode) != t.home || !nodeActive then (t, false)
    else (t.(cleanup := Some(CleanupRow(Queued, t.home.value, t.database.value, now)), trial := CleanupPending), true)
  }

  function WithCleanup(t: Trial, state: CleanupState): Trial
    requires t.cleanup.Some?
  {
    t.(cleanup := Some(t.cleanup.value.(state := state)))
  }

  predicate CleanupIn(t: Trial, states: set<CleanupState>) { t.cleanup.Some? && t.cleanup.value.state in states }

  function CleanupDone(t: Trial): Trial
    requires t.cleanup.Some?
  {
    WithCleanup(t, Cleaned).(
      cleanupLease := None, status := Decommissioned, trial := TrialCleaned, home := None, database := None)
  }

  /** The failed report of a trial cleanup and its lease expiry. */
  function CleanupLost(t: Trial): Trial
    requires t.cleanup.Some?
  {
    WithCleanup(t, CleanupFailed).(cleanupLease := None, status := TenantFailed, trial := TrialFailed)
  }

  /** The lease expiry in the handler for test tenants: it does not know trial_state. */
  function CleanupLostGeneric(t: Trial): Trial
    requires t.cleanup.Some?
  {
    WithCleanup(t, CleanupFailed).(cleanupLease := None, status := TenantFailed)
  }

  /** trialCleanupRetryEligibility */
  predicate CleanupRetryable(t: Trial) {
    && CleanupIn(t, {CleanupFailed}) && t.status == TenantFailed && t.trial == TrialFailed
    && t.home == Some(t.cleanup.value.node) && t.database == Some(t.cleanup.value.database)
  }

  function CleanupRetried(t: Trial): Trial
    requires t.cleanup.Some?
  {
    WithCleanup(t, Queued).(cleanupLease := None, status := Suspended, trial := CleanupPending)
  }

  // -- steps ------------------------------------------------------------------------------------

  datatype State = State(trials: map<Id, Trial>, now: Time)

  datatype Move =
    | ClaimJob(until: Time) | StartJob(until: Time) | FinishJob(name: Name) | FailJob | RetryJob
    | Expire | Queue(nodeActive: bool)
    | ClaimCleanup(until: Time) | StartCleanup(until: Time) | FinishCleanup | FailCleanup | RetryCleanup

  /** The handlers that concern one trial, each with its guard. */
  predicate Moves(t: Trial, m: Move, now: Time, t': Trial) {
    match m
    case ClaimJob(until) =>
      t.job in {Placed, Retrying} && t.jobLease.None?
        && t' == t.(job := Dispatched, jobLease := Some(until), finished := None)
    case StartJob(until) =>
      t.job in {Dispatched, Running} && t.jobLease.Some? && t' == t.(job := Running, jobLease := Some(until))
    case FinishJob(name) => t.job == Running && t.jobLease.Some? && t' == Activated(t, name, now)
    case FailJob => t.job in {Dispatched, Running} && t.jobLease.Some? && t' == ProvisioningFailed(t, now)
    case RetryJob => t.job == JobFailed && t' == ProvisioningRetried(t)
    case Expire => IsDue(t, now) && t' == MarkExpired(t).0
    case Queue(nodeActive) => t' == QueueCleanup(t, now, nodeActive).0
    case ClaimCleanup(until) =>
      CleanupIn(t, {Queued}) && t.trial == CleanupPending && t.cleanupLease.None?
      && t' == WithCleanup(t, CleanupDispatched).(cleanupLease := Some(until))
    case StartCleanup(until) =>
      CleanupIn(t, {CleanupDispatched, CleanupRunning}) && t.cleanupLease.Some?
      && t' == WithCleanup(t, CleanupRunning).(cleanupLease := Some(until))
    case FinishCleanup => CleanupIn(t, {CleanupRunning}) && t.cleanupLease.Some? && t' == CleanupDone(t)
    case FailCleanup => CleanupIn(t, {CleanupRunning}) && t.cleanupLease.Some? && t' == CleanupLost(t)
    case RetryCleanup => CleanupRetryable(t) && t' == CleanupRetried(t)
  }

  /** A lapsed cleanup lease whose job is dispatched or running. */
  predicate LapsedCleanup(s: State, node: Node, id: Id) {
    && id in s.trials && CleanupIn(s.trials[id], {CleanupDispatched, CleanupRunning})
    && s.trials[id].cleanup.value.node == node
    && s.trials[id].cleanupLease.Some? && s.trials[id].cleanupLease.value <= s.now
  }

  function LapsedTrials(s: State, node: Node): set<Id> { set id | id in s.trials && LapsedCleanup(s, node, id) }

  predicate Distinct(rows: seq<Id>) { forall i, k :: 0 <= i < k < |rows| ==> rows[i] != rows[k] }

  /** In the closed set a lapsed cleanup is a suspended trial on the node with a lease that has run out. */
  lemma LapsedIff(s: State, node: Node, id: Id)
    requires id in s.trials && Closed(s.trials[id])
    ensures LapsedCleanup(s, node, id) <==>
      var t := s.trials[id];
      && t.status == Suspended && t.cleanup.Some? && t.home == Some(node)
      && t.cleanupLease.Some? && t.cleanupLease.value <= s.now
  {
  }

  /** Rows of one expiry query: lapsed trial cleanups of the node, each once, at most 20. */
  ghost predicate SweepRows(s: State, node: Node, rows: seq<Id>) {
    Distinct(rows) && |rows| <= LEASE_BATCH && forall id :: id in rows ==> LapsedCleanup(s, node, id)
  }

  /** The query of the trial handler leaves a lapsed row only when it is full; that of the handler for test
      tenants shares its 20 rows with theirs. */
  ghost predicate TrialRows(s: State, node: Node, rows: seq<Id>) {
    SweepRows(s, node, rows) && (|rows| < LEASE_BATCH ==> forall id :: LapsedCleanup(s, node, id) ==> id in rows)
  }

  /** The trials after the rows of one expiry loop. */
  function Swept(trials: map<Id, Trial>, rows: seq<Id>, generic: bool): map<Id, Trial>
    decreases |rows|
  {
    if rows == [] then trials
    else
      var id := rows[0];
      var trials' :=
        if id in trials && trials[id].cleanup.Some?
        then trials[id := if generic then CleanupLostGeneric(trials[id]) else CleanupLost(trials[id])]
        else trials;
      Swept(trials', rows[1..], generic)
  }

  datatype Action =
    | Request(id: Id, node: Node)
    | Act(id: Id, move: Move)
    | SweepTrials(node: Node, rows: seq<Id>)
    | SweepTests(node: Node, rows: seq<Id>)
    | Tick(now: Time)

  ghost predicate Next(s: State, a: Action, s': State) {
    match a
    case Request(id, node) => id !in s.trials && s' == s.(trials := s.trials[id := Requested(node)])
    case Act(id, m) => id in s.trials && id in s'.trials && Moves(s.trials[id], m, s.now, s'.trials[id])
                       && s' == s.(trials := s.trials[id := s'.trials[id]])
    case SweepTrials(node, rows) => TrialRows(s, node, rows) && s' == s.(trials := Swept(s.trials, rows, false))
    case SweepTests(node, rows) => SweepRows(s, node, rows) && s' == s.(trials := Swept(s.trials, rows, true))
    case Tick(now) => s.now <= now && s' == s.(now := now)
  }

  /** The same when no trial cleanup lease of the node is lapsed at a sweep of the handler for test tenants. */
  ghost predicate NextClear(s: State, a: Action, s': State) {
    Next(s, a, s') && (a.SweepTests? ==> LapsedTrials(s, a.node) == {})
  }

  const EMPTY := State(map[], 0)

  ghost const Trans: (State, Action, State) -> bool := (s, a, s') => Next(s, a, s')
  ghost const TransClear: (State, Action, State) -> bool := (s, a, s') => NextClear(s, a, s')

  // -- the closed set of combinations -------------------------------------------------------------

  predicate Starting(t: Trial) {
    && t.status == Provisioning && t.trial in {TrialProvisioning, TrialFailed} && t.database.None?
       && t.home == Some(t.jobNode)
    && t.cleanup.None? && t.cleanupLease.None?
    && ((t.job == Placed && t.trial == TrialProvisioning && t.jobLease.None?)
        || (t.job == Retrying && t.trial == TrialFailed && t.jobLease.None?)
        || (t.job in {Dispatched, Running} && t.jobLease.Some?))
  }

  predicate StartFailed(t: Trial) {
    && t.status == TenantFailed && t.trial == TrialFailed && t.database.None? && t.home == Some(t.jobNode)
    && t.job == JobFailed && t.jobLease.None? && t.cleanup.None? && t.cleanupLease.None?
  }

  predicate Finished(t: Trial) {
    && t.job == Ready && t.jobLease.None? && t.finished.Some? && t.expires == Some(t.finished.value + TRIAL_DURATION)
  }

  predicate Housed(t: Trial) { t.home == Some(t.jobNode) && t.database.Some? }

  predicate Living(t: Trial) {
    && Finished(t) && Housed(t) && t.cleanup.None? && t.cleanupLease.None?
    && ((t.status == TenantReady && t.trial == Active) || (t.status == Suspended && t.trial == Expired))
  }

  predicate CleanupMatches(t: Trial) {
    t.cleanup.Some? && Some(t.cleanup.value.node) == t.home && Some(t.cleanup.value.database) == t.database
  }

  predicate Cleaning(t: Trial) {
    && Finished(t) && Housed(t) && CleanupMatches(t) && t.status == Suspended && t.trial == CleanupPending
    && (if t.cleanup.value.state == Queued then t.cleanupLease.None?
        else t.cleanup.value.state in {CleanupDispatched, CleanupRunning} && t.cleanupLease.Some?)
  }

  predicate CleaningFailed(t: Trial) {
    && Finished(t) && Housed(t) && CleanupMatches(t) && t.status == TenantFailed && t.trial == TrialFailed
    && t.cleanup.value.state == CleanupFailed && t.cleanupLease.None?
  }

  predicate Gone(t: Trial) {
    && Finished(t) && t.home.None? && t.database.None? && CleanupIn(t, {Cleaned}) && t.cleanupLease.None?
    && t.status == Decommissioned && t.trial == TrialCleaned
  }

  /** A trial that is stuck: its tenant failed while trial_state still says that cleanup is pending. */
  predicate Stranded(t: Trial) {
    && Finished(t) && Housed(t) && CleanupMatches(t) && t.status == TenantFailed && t.trial == CleanupPending
    && t.cleanup.value.state == CleanupFailed && t.cleanupLease.None?
  }

  predicate Closed(t: Trial) {
    Starting(t) || StartFailed(t) || Living(t) || Cleaning(t) || CleaningFailed(t) || Gone(t)
  }

  /** No cleanup before the trial is over. */
  predicate InTime(t: Trial, now: Time) {
    && (t.finished.Some? ==> t.finished.value <= now)
    && (t.trial == Expired && t.expires.Some? ==> t.expires.value <= now)
    && (t.cleanup.Some? && t.finished.Some? ==> t.finished.value + TRIAL_DURATION <= t.cleanup.value.created <= now)
  }

  lemma MoveStaysClosed(t: Trial, m: Move, now: Time, t': Trial)
    requires Closed(t) && InTime(t, now) && Moves(t, m, now, t')
    ensures Closed(t') && InTime(t', now)
  {
  }

  // -- sweeps ---------------------------------------------------------------------------------------

  lemma {:induction false} SweptKeys(trials: map<Id, Trial>, rows: seq<Id>, generic: bool)
    ensures Swept(trials, rows, generic).Keys == trials.Keys
    ensures forall id :: id in trials && id !in rows ==> Swept(trials, rows, generic)[id] == trials[id]
    decreases |rows|
  {
    if rows != [] {
      var id := rows[0];
      var trials' :=
        if id in trials && trials[id].cleanup.Some?
        then trials[id := if generic then CleanupLostGeneric(trials[id]) else CleanupLost(trials[id])]
        else trials;
      SweptKeys(trials', rows[1..], generic);
      assert forall k :: k in rows[1..] ==> k in rows;
    }
  }

  /** Each row of a sweep is written once. */
  lemma {:induction false} SweptOnce(trials: map<Id, Trial>, rows: seq<Id>, generic: bool, id: Id)
    requires Distinct(rows) && id in rows && id in trials && trials[id].cleanup.Some?
    ensures id in Swept(trials, rows, generic)
    ensures Swept(trials, rows, generic)[id] ==
      if generic then CleanupLostGeneric(trials[id]) else CleanupLost(trials[id])
    decreases |rows|
  {
    var first := rows[0];
    var trials' :=
      if first in trials && trials[first].cleanup.Some?
      then trials[first := if generic then CleanupLostGeneric(trials[first]) else CleanupLost(trials[first])]
      else trials;
    if id == first {
      assert id !in rows[1..];
      SweptKeys(trials', rows[1..], generic);
    } else {
      assert id in rows[1..];
      SweptOnce(trials', rows[1..], generic, id);
    }
  }

  /** What a sweep leaves of one trial. */
  lemma SweptTrial(s: State, node: Node, rows: seq<Id>, generic: bool, id: Id)
    requires SweepRows(s, node, rows) && id in s.trials
    ensures var after := Swept(s.trials, rows, generic);
      && after.Keys == s.trials.Keys
      && after[id] ==
           if id !in rows then s.trials[id]
           else if generic then CleanupLostGeneric(s.trials[id])
           else CleanupLost(s.trials[id])
  {
    SweptKeys(s.trials, rows, generic);
    if id in rows { SweptOnce(s.trials, rows, generic, id); }
  }

  ghost predicate AllClosed(s: State) {
    forall id :: id in s.trials ==> Closed(s.trials[id]) && InTime(s.trials[id], s.now)
  }

  /** Of one closed trial, the sweep of the handler for test tenants is all that can break it. */
  lemma SweptTrialCloses(s: State, node: Node, rows: seq<Id>, generic: bool, id: Id)
    requires SweepRows(s, node, rows) && id in s.trials && Closed(s.trials[id]) && InTime(s.trials[id], s.now)
    ensures var after := Swept(s.trials, rows, generic);
      id in after && (Closed(after[id]) <==> !(generic && id in rows)) && InTime(after[id], s.now)
  {
    SweptTrial(s, node, rows, generic, id);
    hide Swept;
  }

  /** A sweep keeps every trial in the closed set exactly when it is the trial handler's or finds nothing. */
  lemma SweepStaysClosedIff(s: State, node: Node, rows: seq<Id>, generic: bool)
    requires AllClosed(s) && SweepRows(s, node, rows)
    ensures AllClosed(s.(trials := Swept(s.trials, rows, generic))) <==> !generic || rows == []
  {
    hide Closed, InTime, Swept;
    var s' := s.(trials := Swept(s.trials, rows, generic));
    SweptKeys(s.trials, rows, generic);
    forall id | id in s.trials
      ensures id in s'.trials && (Closed(s'.trials[id]) <==> !(generic && id in rows)) && InTime(s'.trials[id], s.now)
    {
      SweptTrialCloses(s, node, rows, generic, id);
    }
    if rows != [] {
      assert rows[0] in rows && LapsedCleanup(s, node, rows[0]);
    }
  }

  function SetOf(rows: seq<Id>): set<Id> { set id | id in rows }

  lemma {:induction false} DistinctCount(rows: seq<Id>)
    requires Distinct(rows)
    ensures |SetOf(rows)| == |rows|
  {
    if rows == [] {
      assert SetOf(rows) == {};
    } else {
      var init, last := rows[..|rows| - 1], rows[|rows| - 1];
      DistinctCount(init);
      assert rows == init + [last];
      assert SetOf(rows) == SetOf(init) + {last};
      assert last !in SetOf(init);
    }
  }

  lemma SubsetCovers(small: set<Id>, big: set<Id>)
    requires small <= big && |big| <= |small|
    ensures small == big
  {
    assert |big - small| == |big| - |small|;
  }

  /** With at most 20 lapsed trial cleanups the trial handler takes them all, and until another one lapses
      there is nothing for the handler that follows it. */
  lemma FewLeaveNothing(s: State, node: Node, rows: seq<Id>)
    requires TrialRows(s, node, rows) && |LapsedTrials(s, node)| <= 20
    ensures LapsedTrials(s.(trials := Swept(s.trials, rows, false)), node) == {}
  {
    var taken, s' := SetOf(rows), s.(trials := Swept(s.trials, rows, false));
    DistinctCount(rows);
    assert taken <= LapsedTrials(s, node);
    if |rows| == LEASE_BATCH { SubsetCovers(taken, LapsedTrials(s, node)); }
    assert forall id :: LapsedCleanup(s, node, id) ==> id in LapsedTrials(s, node);
    assert forall id :: LapsedCleanup(s, node, id) ==> id in rows;
    SweptKeys(s.trials, rows, false);
    forall id | id in s.trials ensures !LapsedCleanup(s', node, id) {
      hide Swept;
      SweptTrial(s, node, rows, false, id);
      if id !in rows { assert !LapsedCleanup(s, node, id); } else { assert LapsedCleanup(s, node, id); }
    }
  }

  lemma SweptIsLapsed(s: State, node: Node, rows: seq<Id>)
    requires SweepRows(s, node, rows)
    ensures rows != [] ==> rows[0] in LapsedTrials(s, node)
  {
    if rows != [] { assert rows[0] in rows && LapsedCleanup(s, node, rows[0]); }
  }

  lemma StepStaysClosed(s: State, a: Action, s': State)
    requires AllClosed(s) && NextClear(s, a, s')
    ensures AllClosed(s')
  {
    match a
    case Request(_, _) =>
    case Act(id, m) =>
      MoveStaysClosed(s.trials[id], m, s.now, s'.trials[id]);
      hide Closed, InTime;
    case SweepTrials(node, rows) => SweepStaysClosedIff(s, node, rows, false);
    case SweepTests(node, rows) =>
      SweptIsLapsed(s, node, rows);
      SweepStaysClosedIff(s, node, rows, true);
    case Tick(_) => hide Closed;
  }

  /** In every run in which the handler for test tenants meets no lapsed trial cleanup, each trial lies in
      the closed set; a cleaned one has neither node nor database, and no cleanup row is older than the
      end of the trial. */
  lemma TrialsStayClosed(s: State, id: Id)
    requires Leads(TransClear, EMPTY, s) && id in s.trials
    ensures var t := s.trials[id];
      && Closed(t)
      && (t.trial == TrialCleaned ==> t.home.None? && t.database.None?)
      && (t.job == Ready ==> t.finished.Some? && t.expires == Some(t.finished.value + 259_200_000))
      && (t.cleanup.Some? ==> t.finished.Some? && t.finished.value + 259_200_000 <= t.cleanup.value.created)
  {
    hide AllClosed;
    forall s, a, s' | AllClosed(s) && TransClear(s, a, s') ensures AllClosed(s') {
      StepStaysClosed(s, a, s');
    }
    assert AllClosed(EMPTY) by { EmptyIsClosed(); }
    LeadsKeeps(TransClear, (s: State) => AllClosed(s), EMPTY, s);
    ClosedMeans(s, id);
  }

  lemma EmptyIsClosed()
    ensures AllClosed(EMPTY)
  {
  }

  lemma ClosedMeans(s: State, id: Id)
    requires AllClosed(s) && id in s.trials
    ensures Closed(s.trials[id]) && InTime(s.trials[id], s.now)
  {
  }

  // -- the 21st lapsed lease ------------------------------------------------------------------------

  /** Once stranded, a trial stays so: no handler retries or cleans it. */
  lemma StrandedIsForever(s: State, s': State, id: Id)
    requires id in s.trials && Stranded(s.trials[id]) && Leads(Trans, s, s')
    ensures id in s'.trials && Stranded(s'.trials[id])
  {
    var inv := (s: State) => id in s.trials && Stranded(s.trials[id]);
    forall s, a, s' | inv(s) && Trans(s, a, s') ensures inv(s') {
      if a.SweepTrials? || a.SweepTests? {
        SweptTrial(s, a.node, a.rows, a.SweepTests?, id);
        assert !LapsedCleanup(s, a.node, id);
      }
    }
    LeadsKeeps(Trans, inv, s, s');
  }

  lemma Go(s: State, a: Action, s': State)
    requires Leads(Trans, EMPTY, s) && Next(s, a, s')
    ensures Leads(Trans, EMPTY, s')
  {
    LeadsStep(Trans, EMPTY, s, a, s');
  }

  lemma GoAct(s: State, id: Id, m: Move, t': Trial) returns (s': State)
    requires Leads(Trans, EMPTY, s) && id in s.trials && Moves(s.trials[id], m, s.now, t')
    ensures Leads(Trans, EMPTY, s') && s' == s.(trials := s.trials[id := t'])
  {
    s' := s.(trials := s.trials[id := t']);
    hide Moves;
    Go(s, Act(id, m), s');
  }

  /** A trial of node 0 in the middle of its cleanup. */
  function MidCleanup(now: Time, until: Time): Trial {
    Trial(Suspended, CleanupPending, Some(0), Some(0), Some(now + TRIAL_DURATION), Ready, 0, None, Some(now),
          Some(CleanupRow(CleanupDispatched, 0, 0, now + TRIAL_DURATION)), Some(until))
  }

  /** A trial of node 0 that has just become active. */
  function Fresh(now: Time): Trial {
    Activated(Requested(0).(job := Running, jobLease := Some(now)), 0, now)
  }

  lemma ReachActive(s: State, id: Id) returns (s': State)
    requires Leads(Trans, EMPTY, s) && id !in s.trials
    ensures Leads(Trans, EMPTY, s') && s' == s.(trials := s.trials[id := Fresh(s.now)])
  {
    hide Leads;
    var t0 := Requested(0);
    var s0 := s.(trials := s.trials[id := t0]);
    Go(s, Request(id, 0), s0);
    var t1 := t0.(job := Dispatched, jobLease := Some(s.now));
    var s1 := GoAct(s0, id, ClaimJob(s.now), t1);
    var s2 := GoAct(s1, id, StartJob(s.now), t1.(job := Running));
    s' := GoAct(s2, id, FinishJob(0), Fresh(s.now));
    assert s'.trials == s.trials[id := Fresh(s.now)];
  }

  lemma ReachMidCleanup(s: State, id: Id, until: Time) returns (s': State)
    requires Leads(Trans, EMPTY, s) && id !in s.trials
    ensures Leads(Trans, EMPTY, s')
    ensures s' == State(s.trials[id := MidCleanup(s.now, until)], s.now + TRIAL_DURATION)
  {
    hide Leads;
    var s3 := ReachActive(s, id);
    var s4 := s3.(now := s.now + TRIAL_DURATION);
    Go(s3, Tick(s4.now), s4);
    var t5 := MarkExpired(Fresh(s.now)).0;
    var s5 := GoAct(s4, id, Expire, t5);
    var t6 := QueueCleanup(t5, s4.now, true).0;
    var s6 := GoAct(s5, id, Queue(true), t6);
    s' := GoAct(s6, id, ClaimCleanup(until), MidCleanup(s.now, until));
    assert s'.trials == s.trials[id := MidCleanup(s.now, until)];
  }

  /** n trials of node 0, every one with a lapsed cleanup lease. */
  ghost predicate ManyLapsed(s: State, n: nat) {
    && (forall id :: id in s.trials ==> id < n)
    && (forall id :: 0 <= id < n ==> LapsedCleanup(s, 0, id) && Cleaning(s.trials[id]) && InTime(s.trials[id], s.now))
  }

  lemma ManyLapsedMeans(s: State)
    requires ManyLapsed(s, 21)
    ensures AllClosed(s) && |LapsedTrials(s, 0)| == LEASE_BATCH + 1
  {
    var all := seq(21, (i: nat) => i);
    DistinctCount(all);
    forall id: Id ensures id in SetOf(all) <==> id < 21 {
      if id < 21 { assert all[id] == id; }
    }
    forall id: Id ensures id in LapsedTrials(s, 0) <==> id < 21 {
      if id < 21 { assert LapsedCleanup(s, 0, id); }
    }
    assert LapsedTrials(s, 0) == SetOf(all);
    forall id | id in s.trials ensures Closed(s.trials[id]) && InTime(s.trials[id], s.now) {
      assert LapsedCleanup(s, 0, id) && Cleaning(s.trials[id]);
    }
  }

  lemma {:induction false} ReachManyLapsed(n: nat) returns (s: State)
    ensures Leads(Trans, EMPTY, s) && ManyLapsed(s, n)
  {
    if n == 0 {
      s := EMPTY;
      LeadsSelf(Trans, EMPTY);
    } else {
      var s0 := ReachManyLapsed(n - 1);
      s := ReachMidCleanup(s0, n - 1, s0.now + TRIAL_DURATION);
      hide Leads;
      forall id | 0 <= id < n ensures LapsedCleanup(s, 0, id) && Cleaning(s.trials[id]) && InTime(s.trials[id], s.now) {
        if id < n - 1 { assert LapsedCleanup(s0, 0, id); }
      }
    }
  }

  ghost predicate Strands(s: State, id: Id) { id in s.trials && Stranded(s.trials[id]) && !Closed(s.trials[id]) }

  lemma TestsStrand(s: State, id: Id) returns (s': State)
    requires LapsedCleanup(s, 0, id) && Cleaning(s.trials[id])
    ensures Next(s, SweepTests(0, [id]), s') && Strands(s', id)
  {
    s' := s.(trials := Swept(s.trials, [id], true));
    assert SweepRows(s, 0, [id]);
    SweptTrial(s, 0, [id], true, id);
    hide Swept, SweepRows;
  }

  lemma TrialsTakeTwenty(s: State) returns (s': State)
    requires ManyLapsed(s, 21)
    ensures Next(s, SweepTrials(0, seq(20, (i: nat) => i)), s')
    ensures LapsedCleanup(s', 0, 20) && Cleaning(s'.trials[20])
  {
    var rows := seq(20, (i: nat) => i);
    assert TrialRows(s, 0, rows) by {
      assert forall id :: 0 <= id < 21 ==> LapsedCleanup(s, 0, id);
    }
    s' := s.(trials := Swept(s.trials, rows, false));
    assert LapsedCleanup(s, 0, 20) && Cleaning(s.trials[20]);
    SweptTrial(s, 0, rows, false, 20);
    hide Swept, TrialRows, SweepRows;
  }

  /** With 21 lapsed leases one claim strands the last trial. */
  lemma TooManyStrandOne()
    ensures exists s, rows, s1, s2 ::
      && Leads(Trans, EMPTY, s) && AllClosed(s) && |LapsedTrials(s, 0)| == 21
      && Next(s, SweepTrials(0, rows), s1) && Next(s1, SweepTests(0, [20]), s2) && Strands(s2, 20)
  {
    var s := ReachManyLapsed(21);
    ManyLapsedMeans(s);
    hide Leads, ManyLapsed, AllClosed, LapsedTrials, Next, Strands;
    var s1 := TrialsTakeTwenty(s);
    var s2 := TestsStrand(s1, 20);
  }

  /** And one lease is enough when it lapses between the two sweeps of a claim. */
  lemma LateLapseStrandsOne()
    ensures exists s, s1, s2 ::
      && Leads(Trans, EMPTY, s) && AllClosed(s) && LapsedTrials(s, 0) == {} && Next(s, SweepTrials(0, []), s)
      && Next(s, Tick(s.now + 1), s1) && Next(s1, SweepTests(0, [0]), s2) && Strands(s2, 0)
  {
    LeadsSelf(Trans, EMPTY);
    var s := ReachMidCleanup(EMPTY, 0, TRIAL_DURATION + 1);
    var s1 := s.(now := s.now + 1);
    assert AllClosed(s) && LapsedTrials(s, 0) == {} && LapsedCleanup(s1, 0, 0) && Cleaning(s1.trials[0]) by {
      hide Leads, Trans;
    }
    assert Next(s, SweepTrials(0, []), s) && Next(s, Tick(s.now + 1), s1) by {
      hide Leads, Trans;
    }
    hide Leads, AllClosed, LapsedTrials, LapsedCleanup, Cleaning, Next, Strands;
    var s2 := TestsStrand(s1, 0);
  }

  // -- the cleanup handlers on the tables -----------------------------------------------------------

  class TrialTable {
    var trials: map<Id, Trial>
    var now: Time

    function Snapshot(): State
      reads this
    {
      State(trials, now)
    }

    /** The expiry loop of the trial handler, or of the handler for test tenants. */
    method MarkExpiredLeases(rows: seq<Id>, generic: bool)
      modifies `trials
      ensures trials == Swept(old(trials), rows, generic)
      ensures trials.Keys == old(trials).Keys
      ensures forall id :: id in old(trials) ==>
        var t := old(trials)[id];
        trials[id] ==
          if id in rows && t.cleanup.Some? then
            t.(cleanup := Some(t.cleanup.value.(state := CleanupFailed)), cleanupLease := None, status := TenantFailed,
               trial := if generic then t.trial else TrialFailed)
          else t
    {
      assert rows[0..] == rows;
      for k := 0 to |rows|
        invariant Swept(old(trials), rows, generic) == Swept(trials, rows[k..], generic)
        invariant trials.Keys == old(trials).Keys
        invariant forall id :: id in old(trials) ==>
          var t := old(trials)[id];
          trials[id] ==
            if id in rows[..k] && t.cleanup.Some? then
              t.(cleanup := Some(t.cleanup.value.(state := CleanupFailed)), cleanupLease := None,
                 status := TenantFailed, trial := if generic then t.trial else TrialFailed)
            else t
      {
        assert rows[..k + 1] == rows[..k] + [rows[k]];
        var id := rows[k];
        assert rows[k..][1..] == rows[k + 1..];
        if id !in trials || trials[id].cleanup.None? { continue; }
        var cleanup := trials[id].cleanup.value.(state := CleanupFailed);
        var trial := trials[id].(cleanup := Some(cleanup), cleanupLease := None, status := TenantFailed);
        if !generic { trial := trial.(trial := TrialFailed); }
        trials := trials[id := trial];
      }
      assert rows[..|rows|] == rows;
    }

    /** A node's claim: the trial handler first, and when it hands out nothing the handler for test tenants,
        which reads the clock again. */
    method Claim(node: Node, trialRows: seq<Id>, candidate: Option<Id>, until: Time, later: Time, testRows: seq<Id>)
      returns (operation: Option<Id>)
      requires TrialRows(Snapshot(), node, trialRows) && now <= later
      requires SweepRows(State(Swept(trials, trialRows, false), later), node, testRows)
      modifies `trials, `now
      ensures var mid := State(Swept(old(trials), trialRows, false), old(now));
        && Next(old(Snapshot()), SweepTrials(node, trialRows), mid)
        && match operation
           case Some(id) => Next(mid, Act(id, ClaimCleanup(until)), Snapshot())
           case None => Next(mid, Tick(later), mid.(now := later))
                        && Next(mid.(now := later), SweepTests(node, testRows), Snapshot())
      ensures operation.Some? <==>
        && candidate.Some? && candidate.value in old(trials)
        && var t := old(trials)[candidate.value];
        && t.cleanup.Some? && t.cleanup.value.state == Queued && t.trial == CleanupPending && t.cleanupLease.None?
      ensures operation.Some? ==>
        && operation == candidate && operation.value in trials
        && var t := old(trials)[operation.value];
        trials[operation.value] ==
          t.(cleanup := Some(t.cleanup.value.(state := CleanupDispatched)), cleanupLease := Some(until))
    {
      assert forall id :: id in trialRows ==> LapsedCleanup(Snapshot(), node, id);
      MarkExpiredLeases(trialRows, false);
      if candidate.Some? && candidate.value in trials {
        var t := trials[candidate.value];
        if t.cleanup.Some? && t.cleanup.value.state == Queued && t.trial == CleanupPending && t.cleanupLease.None? {
          var cleanup := t.cleanup.value.(state := CleanupDispatched);
          trials := trials[candidate.value := t.(cleanup := Some(cleanup), cleanupLease := Some(until))];
          return candidate;
        }
      }
      now := later;
      MarkExpiredLeases(testRows, true);
      return None;
    }

    /** A terminal report that holds the lease. */
    method ReportResult(id: Id, cleaned: bool) returns (accepted: bool)
      requires id in trials && trials[id].cleanupLease.Some?
      modifies `trials
      ensures accepted <==> old(trials)[id].cleanup.Some? && old(trials)[id].cleanup.value.state == CleanupRunning
      ensures accepted ==>
        var t := old(trials)[id];
        var cleanup := Some(t.cleanup.value.(state := if cleaned then Cleaned else CleanupFailed));
        trials == old(trials)[id :=
          if cleaned then t.(cleanup := cleanup, cleanupLease := None, status := Decommissioned, trial := TrialCleaned,
                             home := None, database := None)
          else t.(cleanup := cleanup, cleanupLease := None, status := TenantFailed, trial := TrialFailed)]
      ensures if accepted
        then Next(old(Snapshot()), Act(id, if cleaned then FinishCleanup else FailCleanup), Snapshot())
              else Snapshot() == old(Snapshot())
    {
      var t := trials[id];
      if t.cleanup.None? || t.cleanup.value.state != CleanupRunning { return false; }
      var cleanup := t.cleanup.value.(state := if cleaned then Cleaned else CleanupFailed);
      t := t.(cleanup := Some(cleanup), cleanupLease := None);
      if cleaned {
        t := t.(status := Decommissioned, trial := TrialCleaned, home := None, database := None);
      } else {
        t := t.(status := TenantFailed, trial := TrialFailed);
      }
      trials := trials[id := t];
      return true;
    }

    /** retryTrialCleanup */
    method RetryTrialCleanup(id: Id) returns (retried: bool)
      modifies `trials
      ensures retried <==>
        && id in old(trials)
        && var t := old(trials)[id];
        && t.cleanup.Some? && t.cleanup.value.state == CleanupFailed
        && t.status == TenantFailed && t.trial == TrialFailed
        && t.home == Some(t.cleanup.value.node) && t.database == Some(t.cleanup.value.database)
      ensures retried ==>
        var t := old(trials)[id];
        trials == old(trials)[id :=
          t.(cleanup := Some(t.cleanup.value.(state := Queued)), cleanupLease := None, status := Suspended,
             trial := CleanupPending)]
      ensures if retried then Next(old(Snapshot()), Act(id, RetryCleanup), Snapshot())
        else Snapshot() == old(Snapshot())
    {
      if id !in trials { return false; }
      var t := trials[id];
      if t.cleanup.None? || t.cleanup.value.state != CleanupFailed { return false; }
      if t.status != TenantFailed || t.trial != TrialFailed { return false; }
      if t.home != Some(t.cleanup.value.node) || t.database != Some(t.cleanup.value.database) { return false; }
      var cleanup := t.cleanup.value.(state := Queued);
      trials :=
        trials[id := t.(cleanup := Some(cleanup), cleanupLease := None, status := Suspended, trial := CleanupPending)];
      return true;
    }
  }

  // -- the other handlers on a closed trial -----------------------------------------------------------

  /** The provisioning of a trial in the closed set: when each handler may run, and all it changes.  The lease is
      implied by the job's state, and the node is always the job's. */
  lemma ProvisioningMoves(t: Trial, m: Move, now: Time, t': Trial)
    requires Closed(t) && (m.ClaimJob? || m.StartJob? || m.FinishJob? || m.FailJob? || m.RetryJob?)
    ensures Moves(t, m, now, t') <==>
      match m
      case ClaimJob(until) =>
        t.job in {Placed, Retrying} && t' == t.(job := Dispatched, jobLease := Some(until), finished := None)
      case StartJob(until) => t.job in {Dispatched, Running} && t' == t.(job := Running, jobLease := Some(until))
      case FinishJob(name) =>
        && t.job == Running
        && t' == t.(job := Ready, jobLease := None, finished := Some(now), status := TenantReady, trial := Active,
                    database := Some(name), expires := Some(now + 259_200_000))
      case FailJob =>
        && t.job in {Dispatched, Running}
        && t' == t.(job := JobFailed, jobLease := None, finished := Some(now), status := TenantFailed,
                    trial := TrialFailed)
      case _ =>
        t.job == JobFailed && t' == t.(job := Retrying, jobLease := None, finished := None, status := Provisioning)
  {
  }

  /** The end of a trial in the closed set: it expires three days after its job finished and no earlier, its cleanup
      is queued for its own node and database as long as that node is active, and the cleanup is dispatched and
      started under a lease. */
  lemma EndingMoves(t: Trial, m: Move, now: Time, t': Trial)
    requires Closed(t) && (m.Expire? || m.Queue? || m.ClaimCleanup? || m.StartCleanup?)
    ensures Moves(t, m, now, t') <==>
      match m
      case Expire =>
        && t.status == TenantReady && t.finished.Some? && t.finished.value + 259_200_000 <= now
        && t' == t.(status := Suspended, trial := Expired)
      case Queue(active) =>
        t' == if t.status == Suspended && t.trial == Expired && active && t.database.Some?
              then t.(cleanup := Some(CleanupRow(Queued, t.jobNode, t.database.value, now)), trial := CleanupPending)
              else t
      case ClaimCleanup(until) =>
        && t.status == Suspended && t.cleanup.Some? && t.cleanup.value.state == Queued
        && t' == t.(cleanup := Some(t.cleanup.value.(state := CleanupDispatched)), cleanupLease := Some(until))
      case StartCleanup(until) =>
        && t.cleanup.Some? && t.cleanup.value.state in {CleanupDispatched, CleanupRunning}
        && t' == t.(cleanup := Some(t.cleanup.value.(state := CleanupRunning)), cleanupLease := Some(until))
      case _ => false
  {
  }

  /** A new trial: placed on its node, with nothing else. */
  lemma RequestMeans(s: State, id: Id, node: Node, s': State)
    ensures Next(s, Request(id, node), s') <==>
      && id !in s.trials && s'.now == s.now && s'.trials.Keys == s.trials.Keys + {id}
      && (forall k :: k in s.trials ==> s'.trials[k] == s.trials[k])
      && var t := s'.trials[id];
      && Starting(t) && t.job == Placed && t.jobNode == node && t.expires.None? && t.finished.None?
  {
    if id !in s.trials && s'.trials.Keys == s.trials.Keys + {id}
       && (forall k :: k in s.trials ==> s'.trials[k] == s.trials[k]) && s'.trials[id] == Requested(node) {
      assert s'.trials == s.trials[id := Requested(node)];
    }
  }
}
