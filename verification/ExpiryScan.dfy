/** The scheduled scan that expires due trials and queues their cleanups. */
module ExpiryScan {
  import opened Common
  import opened Runs
  import opened TrialLifecycle

  const BATCH: nat := 50

  type Trials = map<Id, Trial>

  function Due(trials: Trials, now: Time): set<Id> { set id | id in trials && IsDue(trials[id], now) }

  function ExpiryOf(trials: Trials, id: Id): Time {
    if id in trials && trials[id].expires.Some? then trials[id].expires.value else 0
  }

  /** The due trials in the order of their expiry, at most 50 of them. */
  ghost predicate DueRows(trials: Trials, now: Time, rows: seq<Id>) {
    && Distinct(rows)
    && (forall id :: id in rows ==> id in Due(trials, now))
    && |rows| == (if |Due(trials, now)| < BATCH then |Due(trials, now)| else BATCH)
    && (forall i, k :: 0 <= i < k < |rows| ==> ExpiryOf(trials, rows[i]) <= ExpiryOf(trials, rows[k]))
    && (forall id, other :: id in rows && other in Due(trials, now) && other !in rows ==>
          ExpiryOf(trials, id) <= ExpiryOf(trials, other))
  }

  /** Suspended, expired trials; the scan takes at most 50. */
  predicate Awaiting(t: Trial) { t.status == Suspended && t.trial == Expired }

  ghost predicate AwaitingRows(trials: Trials, rows: seq<Id>) {
    Distinct(rows) && |rows| <= BATCH && forall id :: id in rows ==> id in trials && Awaiting(trials[id])
  }

  function ExpireRow(trials: Trials, id: Id, now: Time): Trials {
    if id in trials && IsDue(trials[id], now) then trials[id := MarkExpired(trials[id]).0] else trials
  }

  function ExpireRows(trials: Trials, rows: seq<Id>, now: Time): Trials {
    if rows == [] then trials else ExpireRow(ExpireRows(trials, rows[..|rows| - 1], now), rows[|rows| - 1], now)
  }

  function QueueRow(trials: Trials, id: Id, now: Time, active: set<Node>): Trials {
    if id in trials
    then trials[id := QueueCleanup(trials[id], now, trials[id].home.Some? && trials[id].home.value in active).0]
    else trials
  }

  function QueueRows(trials: Trials, rows: seq<Id>, now: Time, active: set<Node>): Trials {
    if rows == [] then trials
    else QueueRow(QueueRows(trials, rows[..|rows| - 1], now, active), rows[|rows| - 1], now, active)
  }

  // -- one tick -----------------------------------------------------------------------------------

  /** Exactly the rows change, each by markTrialExpired. */
  lemma {:induction false} ExpireRowsMeans(trials: Trials, rows: seq<Id>, now: Time)
    requires Distinct(rows) && forall id :: id in rows ==> id in Due(trials, now)
    ensures var after := ExpireRows(trials, rows, now);
      && after.Keys == trials.Keys
      && forall id :: id in trials ==> after[id] == if id in rows then MarkExpired(trials[id]).0 else trials[id]
  {
    if rows != [] {
      var init, last := rows[..|rows| - 1], rows[|rows| - 1];
      ExpireRowsMeans(trials, init, now);
      assert rows == init + [last] && last !in init;
    }
  }

  /** One more row of the first loop: it is still due, and markTrialExpired changes it. */
  lemma ExpireRowsAppend(trials: Trials, due: seq<Id>, i: nat, now: Time)
    requires DueRows(trials, now, due) && i < |due|
    ensures var before := ExpireRows(trials, due[..i], now);
      && due[i] in before && IsDue(before[due[i]], now) && MarkExpired(before[due[i]]).1
      && ExpireRows(trials, due[..i + 1], now) == before[due[i] := MarkExpired(before[due[i]]).0]
  {
    ExpireRowsMeans(trials, due[..i], now);
    assert due[..i + 1][..i] == due[..i] && due[i] in due && due[i] !in due[..i];
  }

  /** Each row is queued once. */
  lemma {:induction false} QueueRowsOn(trials: Trials, rows: seq<Id>, now: Time, active: set<Node>, id: Id)
    requires Distinct(rows) && id in trials
    ensures var after := QueueRows(trials, rows, now, active);
      && id in after
      && after[id] ==
           if id in rows
           then QueueCleanup(trials[id], now, trials[id].home.Some? && trials[id].home.value in active).0
           else trials[id]
  {
    if rows != [] {
      var init, last := rows[..|rows| - 1], rows[|rows| - 1];
      assert rows == init + [last] && last !in init;
      QueueRowsOn(trials, init, now, active, id);
    }
  }

  /** Queueing touches no trial that is not suspended and expired, and makes none due. */
  lemma {:induction false} QueueRowsMeans(trials: Trials, rows: seq<Id>, now: Time, active: set<Node>)
    ensures var after := QueueRows(trials, rows, now, active);
      && after.Keys == trials.Keys
      && forall id :: id in trials ==>
           && (!Awaiting(trials[id]) ==> after[id] == trials[id])
           && (Awaiting(trials[id]) ==> after[id].status == Suspended && after[id].trial in {Expired, CleanupPending})
  {
    if rows != [] { QueueRowsMeans(trials, rows[..|rows| - 1], now, active); }
  }

  ghost predicate TickStep(trials: Trials, now: Time, due: seq<Id>, trials': Trials) {
    && DueRows(trials, now, due)
    && exists awaiting, active ::
         AwaitingRows(ExpireRows(trials, due, now), awaiting)
         && trials' == QueueRows(ExpireRows(trials, due, now), awaiting, now, active)
  }

  /** A tick suspends the taken trials, leaves every other due trial due and alone, and touches no
      trial that is neither due nor already expired. */
  lemma TickMeans(trials: Trials, now: Time, due: seq<Id>, trials': Trials)
    requires TickStep(trials, now, due, trials')
    ensures trials'.Keys == trials.Keys
    ensures forall id :: id in trials && id !in due && !Awaiting(trials[id]) ==> trials'[id] == trials[id]
    ensures forall id :: id in due ==> trials'[id].status == Suspended && trials'[id].trial in {Expired, CleanupPending}
    ensures forall id :: id in trials && Awaiting(trials[id]) ==> trials'[id].status == Suspended
    ensures Due(trials', now) == Due(trials, now) - SetOf(due)
  {
    var awaiting, active :|
      AwaitingRows(ExpireRows(trials, due, now), awaiting)
      && trials' == QueueRows(ExpireRows(trials, due, now), awaiting, now, active);
    ExpireRowsMeans(trials, due, now);
    QueueRowsMeans(ExpireRows(trials, due, now), awaiting, now, active);
  }

  /** How many rows of the second loop change. */
  function QueuedCount(trials: Trials, rows: seq<Id>, now: Time, active: set<Node>): nat {
    if rows == [] then 0
    else
      var before, id := QueueRows(trials, rows[..|rows| - 1], now, active), rows[|rows| - 1];
      QueuedCount(trials, rows[..|rows| - 1], now, active)
      + (if id in before && QueueCleanup(before[id], now, before[id].home.Some? && before[id].home.value in active).1
         then 1 else 0)
  }

  function PendingOf(trials: Trials, rows: seq<Id>): set<Id> {
    set id | id in rows && id in trials && trials[id].trial == CleanupPending
  }

  lemma PendingAppend(before: Trials, rows: seq<Id>, id: Id, t: Trial)
    requires id !in rows
    ensures |PendingOf(before[id := t], rows + [id])| ==
      |PendingOf(before, rows)| + (if t.trial == CleanupPending then 1 else 0)
  {
    assert PendingOf(before[id := t], rows + [id]) ==
      PendingOf(before, rows) + (if t.trial == CleanupPending then {id} else {});
  }

  lemma QueuesIffPending(t: Trial, now: Time, nodeActive: bool)
    requires Awaiting(t)
    ensures QueueCleanup(t, now, nodeActive).1 <==> QueueCleanup(t, now, nodeActive).0.trial == CleanupPending
  {
  }

  /** The reported number is that of the trials now waiting for their cleanup. */
  lemma {:induction false} QueuedCountMeans(trials: Trials, rows: seq<Id>, now: Time, active: set<Node>)
    requires AwaitingRows(trials, rows)
    ensures QueuedCount(trials, rows, now, active) == |PendingOf(QueueRows(trials, rows, now, active), rows)|
    ensures forall id :: id in trials && id !in rows ==>
      id in QueueRows(trials, rows, now, active) && QueueRows(trials, rows, now, active)[id] == trials[id]
  {
    hide QueueCleanup;
    if rows == [] {
      assert PendingOf(trials, rows) == {};
    } else {
      var init, id := rows[..|rows| - 1], rows[|rows| - 1];
      QueuedCountMeans(trials, init, now, active);
      var before := QueueRows(trials, init, now, active);
      assert rows == init + [id] && id !in init && id in rows;
      var nodeActive := before[id].home.Some? && before[id].home.value in active;
      QueuesIffPending(trials[id], now, nodeActive);
      PendingAppend(before, init, id, QueueCleanup(before[id], now, nodeActive).0);
    }
  }

  lemma SubsetIsSmaller(small: set<Id>, big: set<Id>)
    requires small <= big
    ensures |small| <= |big|
  {
    assert |big - small| == |big| - |small|;
  }

  class Scheduler {
    var trials: Trials

    /** The first loop of reconcileExpiredTrials. */
    method ExpireDue(due: seq<Id>, now: Time) returns (expired: nat)
      requires DueRows(trials, now, due)
      modifies this
      ensures trials == ExpireRows(old(trials), due, now) && expired == |due|
      ensures trials.Keys == old(trials).Keys
      ensures forall id :: id in old(trials) ==>
        trials[id] == if id in due then old(trials)[id].(status := Suspended, trial := Expired) else old(trials)[id]
    {
      ghost var before := trials;
      expired := 0;
      for i := 0 to |due|
        invariant trials == ExpireRows(before, due[..i], now) && expired == i
      {
        ExpireRowsAppend(before, due, i, now);
        if IsDue(trials[due[i]], now) {
          var changed := MarkExpired(trials[due[i]]);
          trials := trials[due[i] := changed.0];
          if changed.1 { expired := expired + 1; }
        }
      }
      assert due[..|due|] == due;
      ExpireRowsMeans(before, due, now);
    }

    /** Its second loop. */
    method QueueAwaiting(awaiting: seq<Id>, now: Time, active: set<Node>) returns (cleanupQueued: nat)
      requires AwaitingRows(trials, awaiting)
      modifies this
      ensures trials == QueueRows(old(trials), awaiting, now, active)
      ensures cleanupQueued == QueuedCount(old(trials), awaiting, now, active)
      ensures trials.Keys == old(trials).Keys
      ensures forall id :: id in old(trials) && id !in awaiting ==> trials[id] == old(trials)[id]
      ensures forall id :: id in awaiting ==>
        var t := old(trials)[id];
        trials[id] ==
          if t.home.None? || t.database.None? then t
          else if t.cleanup.Some? then t.(trial := CleanupPending)
          else if t.job == Ready && t.home == Some(t.jobNode) && t.jobNode in active then
            t.(cleanup := Some(CleanupRow(Queued, t.jobNode, t.database.value, now)), trial := CleanupPending)
          else t
    {
      ghost var before := trials;
      cleanupQueued := 0;
      for i := 0 to |awaiting|
        invariant trials == QueueRows(before, awaiting[..i], now, active)
        invariant cleanupQueued == QueuedCount(before, awaiting[..i], now, active)
      {
        var id := awaiting[i];
        QueueRowsMeans(before, awaiting[..i], now, active);
        assert awaiting[..i + 1][..i] == awaiting[..i] && id in awaiting;
        var queued := QueueCleanup(trials[id], now, trials[id].home.Some? && trials[id].home.value in active);
        trials := trials[id := queued.0];
        if queued.1 { cleanupQueued := cleanupQueued + 1; }
      }
      assert awaiting[..|awaiting|] == awaiting;
      forall id | id in before
        ensures id in trials && (id !in awaiting ==> trials[id] == before[id])
        ensures id in awaiting ==>
          trials[id] == QueueCleanup(before[id], now, before[id].home.Some? && before[id].home.value in active).0
      {
        QueueRowsOn(before, awaiting, now, active, id);
      }
      QueueRowsMeans(before, awaiting, now, active);
    }

    /** reconcileExpiredTrials: `due` and `awaiting` are the rows of its two queries. */
    method Reconcile(due: seq<Id>, awaiting: seq<Id>, now: Time, active: set<Node>)
      returns (expired: nat, cleanupQueued: nat)
      requires DueRows(trials, now, due) && AwaitingRows(ExpireRows(trials, due, now), awaiting)
      modifies this
      ensures TickStep(old(trials), now, due, trials)
      ensures expired == |due| && expired <= 50
      ensures cleanupQueued == |PendingOf(trials, awaiting)| && cleanupQueued <= 50
    {
      expired := ExpireDue(due, now);
      QueuedCountMeans(trials, awaiting, now, active);
      cleanupQueued := QueueAwaiting(awaiting, now, active);
      DistinctCount(awaiting);
      assert PendingOf(trials, awaiting) <= SetOf(awaiting);
      SubsetIsSmaller(PendingOf(trials, awaiting), SetOf(awaiting));
    }
  }

  // -- ticks among the other handlers ---------------------------------------------------------------

  /** A trial in one of the combinations that whole runs reach, the stranded ones included. */
  predicate Orderly(t: Trial, now: Time) { (Closed(t) && InTime(t, now)) || Stranded(t) }

  ghost predicate AllOrderly(s: State) { forall id :: id in s.trials ==> Orderly(s.trials[id], s.now) }

  /** One tick of the scan, or one of the other handlers. */
  datatype Event = Scan(due: seq<Id>) | Handler(step: Action)

  ghost predicate EventStep(s: State, e: Event, s': State) {
    match e
    case Scan(due) => TickStep(s.trials, s.now, due, s'.trials) && s'.now == s.now
    case Handler(a) => Next(s, a, s') && !(a.Act? && a.move.Expire?)
  }

  /** The trial's provisioning is done and it is not active any more. */
  predicate Over(t: Trial) { t.job == Ready && !(t.status == TenantReady && t.trial == Active) }

  lemma MoveStaysOrderly(t: Trial, m: Move, now: Time, t': Trial)
    requires Orderly(t, now) && Moves(t, m, now, t')
    ensures Orderly(t', now)
    ensures Over(t) ==> Over(t')
    ensures t.status == TenantReady && t.trial == Active && !m.Expire? ==> t' == t
  {
    if Closed(t) && InTime(t, now) { MoveStaysClosed(t, m, now, t'); }
  }

  lemma {:induction false} QueueRowsStayOrderly(trials: Trials, rows: seq<Id>, now: Time, active: set<Node>)
    requires forall id :: id in trials ==> Orderly(trials[id], now)
    ensures var after := QueueRows(trials, rows, now, active);
      && after.Keys == trials.Keys
      && forall id :: id in trials ==> Orderly(after[id], now) && (Over(trials[id]) ==> Over(after[id]))
  {
    hide Orderly, Over, QueueCleanup;
    if rows != [] {
      var before, id := QueueRows(trials, rows[..|rows| - 1], now, active), rows[|rows| - 1];
      QueueRowsStayOrderly(trials, rows[..|rows| - 1], now, active);
      if id in before {
        var nodeActive := before[id].home.Some? && before[id].home.value in active;
        MoveStaysOrderly(before[id], Queue(nodeActive), now, QueueCleanup(before[id], now, nodeActive).0);
      }
    }
  }

  lemma ScanStaysOrderly(s: State, due: seq<Id>, s': State)
    requires AllOrderly(s) && TickStep(s.trials, s.now, due, s'.trials) && s'.now == s.now
    ensures AllOrderly(s') && s'.trials.Keys == s.trials.Keys
    ensures forall id :: id in s.trials && (id in due || Over(s.trials[id])) ==> Over(s'.trials[id])
  {
    var awaiting, active :|
      AwaitingRows(ExpireRows(s.trials, due, s.now), awaiting)
      && s'.trials == QueueRows(ExpireRows(s.trials, due, s.now), awaiting, s.now, active);
    ExpireRowsMeans(s.trials, due, s.now);
    var mid := ExpireRows(s.trials, due, s.now);
    forall id | id in s.trials
      ensures Orderly(mid[id], s.now) && (id in due || Over(s.trials[id]) ==> Over(mid[id]))
    {
      if id in due { MoveStaysOrderly(s.trials[id], Move.Expire, s.now, MarkExpired(s.trials[id]).0); }
    }
    hide Orderly, Over;
    QueueRowsStayOrderly(mid, awaiting, s.now, active);
  }

  lemma LostIsOrderly(s: State, node: Node, id: Id)
    requires id in s.trials && Orderly(s.trials[id], s.now) && LapsedCleanup(s, node, id)
    ensures var t := s.trials[id];
      && !(t.status == TenantReady && t.trial == Active)
      && Orderly(CleanupLost(t), s.now) && Orderly(CleanupLostGeneric(t), s.now)
      && (Over(t) ==> Over(CleanupLost(t)) && Over(CleanupLostGeneric(t)))
  {
  }

  /** A sweep leaves active trials alone, and closes or strands the others. */
  lemma SweepStaysOrderly(s: State, node: Node, rows: seq<Id>, generic: bool, s': State)
    requires AllOrderly(s) && SweepRows(s, node, rows) && s' == s.(trials := Swept(s.trials, rows, generic))
    ensures AllOrderly(s') && s'.trials.Keys == s.trials.Keys
    ensures forall id :: id in s.trials && Over(s.trials[id]) ==> Over(s'.trials[id])
    ensures forall id :: id in s.trials && s.trials[id].status == TenantReady && s.trials[id].trial == Active ==>
      s'.trials[id] == s.trials[id]
  {
    SweptKeys(s.trials, rows, generic);
    hide Swept;
    forall id | id in s.trials
      ensures Orderly(s'.trials[id], s.now) && (Over(s.trials[id]) ==> Over(s'.trials[id]))
      ensures s.trials[id].status == TenantReady && s.trials[id].trial == Active ==> s'.trials[id] == s.trials[id]
    {
      SweptTrial(s, node, rows, generic, id);
      if id in rows { LostIsOrderly(s, node, id); }
    }
  }

  /** No handler but the scan takes a trial out of the active ones, or brings an expired one back. */
  lemma HandlerSparesDue(s: State, a: Action, s': State)
    requires AllOrderly(s) && Next(s, a, s') && !(a.Act? && a.move.Expire?)
    ensures AllOrderly(s') && s.now <= s'.now
    ensures forall id :: id in s.trials ==> id in s'.trials && (Over(s.trials[id]) ==> Over(s'.trials[id]))
    ensures forall id :: id in s.trials && s.trials[id].status == TenantReady && s.trials[id].trial == Active ==>
      s'.trials[id] == s.trials[id]
  {
    match a
    case Request(_, _) =>
    case Act(id, m) =>
      MoveStaysOrderly(s.trials[id], m, s.now, s'.trials[id]);
      hide Orderly, Moves, Over;
    case SweepTrials(node, rows) => SweepStaysOrderly(s, node, rows, false, s');
    case SweepTests(node, rows) => SweepStaysOrderly(s, node, rows, true, s');
    case Tick(_) => hide Closed, Stranded;
  }

  lemma StepStaysOrderly(s: State, a: Action, s': State)
    requires AllOrderly(s) && Next(s, a, s')
    ensures AllOrderly(s')
  {
    if a.Act? && a.move.Expire? {
      MoveStaysOrderly(s.trials[a.id], a.move, s.now, s'.trials[a.id]);
      hide Orderly;
    } else {
      HandlerSparesDue(s, a, s');
    }
  }

  /** In every reachable state all trials are in order. */
  lemma ReachableIsOrderly(s: State)
    requires Leads(Trans, EMPTY, s)
    ensures AllOrderly(s)
  {
    assert AllOrderly(EMPTY);
    hide AllOrderly;
    forall s, a, s' | AllOrderly(s) && Trans(s, a, s') ensures AllOrderly(s') {
      StepStaysOrderly(s, a, s');
    }
    LeadsKeeps(Trans, (s: State) => AllOrderly(s), EMPTY, s);
  }

  function DueAt(s: State): set<Id> { Due(s.trials, s.now) }

  /** A run of ticks and other handlers, from any reachable state, in which no further trial becomes due. */
  ghost predicate Draining(states: seq<State>, events: seq<Event>) {
    && |states| == |events| + 1 && Leads(Trans, EMPTY, states[0])
    && (forall i :: 0 <= i < |events| ==> EventStep(states[i], events[i], states[i + 1]))
    && (forall i :: 0 <= i < |states| ==> DueAt(states[i]) <= DueAt(states[0]))
  }

  /** How many of the first k events are ticks. */
  function Scans(events: seq<Event>, k: nat): nat
    requires k <= |events|
  {
    if k == 0 then 0 else Scans(events, k - 1) + if events[k - 1].Scan? then 1 else 0
  }

  /** What is left of the trials that were due at first: those still due are untouched, the others over. */
  ghost predicate Remains(s0: State, s: State) {
    && AllOrderly(s)
    && forall id :: id in DueAt(s0) ==>
         id in s.trials && if id in DueAt(s) then s.trials[id] == s0.trials[id] else Over(s.trials[id])
  }

  /** A tick takes the earliest 50 due trials, or all, and leaves the rows of the others. */
  lemma ScanTakes(s: State, due: seq<Id>, s': State)
    requires EventStep(s, Scan(due), s')
    ensures DueAt(s') == DueAt(s) - SetOf(due) && SetOf(due) <= DueAt(s) && |SetOf(due)| == |due|
    ensures |due| == if |DueAt(s)| < BATCH then |DueAt(s)| else BATCH
    ensures forall id :: id in DueAt(s') ==> id in s.trials && id in s'.trials && s'.trials[id] == s.trials[id]
  {
    TickMeans(s.trials, s.now, due, s'.trials);
    DistinctCount(due);
    hide TickStep;
    forall id | id in DueAt(s') ensures s'.trials[id] == s.trials[id] {
      assert id in DueAt(s) - SetOf(due) && !Awaiting(s.trials[id]);
    }
  }

  lemma ScanDue(s0: State, s: State, due: seq<Id>, s': State)
    requires Remains(s0, s) && EventStep(s, Scan(due), s')
    ensures Remains(s0, s') && DueAt(s') == DueAt(s) - SetOf(due)
    ensures |due| == (if |DueAt(s)| < BATCH then |DueAt(s)| else BATCH) && |SetOf(due)| == |due|
      && SetOf(due) <= DueAt(s)
  {
    ScanTakes(s, due, s');
    ScanStaysOrderly(s, due, s');
    hide Orderly, TickStep, DueAt, Over;
  }

  lemma HandlerDue(s0: State, s: State, a: Action, s': State)
    requires Remains(s0, s) && EventStep(s, Handler(a), s') && DueAt(s') <= DueAt(s0)
    ensures Remains(s0, s') && DueAt(s') == DueAt(s)
  {
    HandlerSparesDue(s, a, s');
    hide Orderly, Next;
    forall id | id in DueAt(s0) ensures id in DueAt(s') <==> id in DueAt(s) {
      assert id !in DueAt(s) ==> Over(s'.trials[id]);
    }
    assert forall id :: id in DueAt(s) ==> s'.trials[id] == s.trials[id];
  }

  function Taken(e: Event): set<Id> { if e.Scan? then SetOf(e.due) else {} }

  /** Every event keeps what remains, and takes from the due trials what it scans: 50 or all of them. */
  lemma EventDue(s0: State, s: State, e: Event, s': State)
    requires Remains(s0, s) && EventStep(s, e, s') && DueAt(s') <= DueAt(s0)
    ensures Remains(s0, s') && DueAt(s') == DueAt(s) - Taken(e) && Taken(e) <= DueAt(s)
    ensures |Taken(e)| == if !e.Scan? then 0 else if |DueAt(s)| < BATCH then |DueAt(s)| else BATCH
  {
    hide Remains, DueAt, TickStep, Next;
    match e
    case Scan(due) => ScanDue(s0, s, due, s');
    case Handler(a) => HandlerDue(s0, s, a, s');
  }

  lemma RemainsSelf(s: State)
    requires AllOrderly(s)
    ensures Remains(s, s)
  {
    hide Orderly;
  }

  lemma {:induction false} DueAfter(states: seq<State>, events: seq<Event>, k: nat)
    requires Draining(states, events) && k <= |events|
    ensures Remains(states[0], states[k])
    ensures var n := |DueAt(states[0])|;
      |DueAt(states[k])| == if n <= BATCH * Scans(events, k) then 0 else n - BATCH * Scans(events, k)
  {
    hide AllOrderly, EventStep, Remains, DueAt;
    if k == 0 {
      ReachableIsOrderly(states[0]);
      RemainsSelf(states[0]);
    } else {
      DueAfter(states, events, k - 1);
      assert EventStep(states[k - 1], events[k - 1], states[k]);
      EventDue(states[0], states[k - 1], events[k - 1], states[k]);
      var due, taken := DueAt(states[k - 1]), Taken(events[k - 1]);
      assert |due - taken| == |due| - |taken|;
    }
  }

  /** n due trials are expired in exactly ceil(n / 50) ticks, whatever other handlers run in between:
      none is left exactly when that many ticks have passed. */
  lemma {:induction false} ScanDrains(states: seq<State>, events: seq<Event>, k: nat)
    requires Draining(states, events) && k <= |events|
    ensures DueAt(states[k]) == {} <==> 50 * Scans(events, k) >= |DueAt(states[0])|
  {
    DueAfter(states, events, k);
  }

  lemma RemainsRow(s0: State, s: State, id: Id)
    requires Remains(s0, s) && id in DueAt(s) && id in DueAt(s0)
    ensures id in s.trials && id in s0.trials && s.trials[id] == s0.trials[id]
  {
  }

  /** A trial due at some point was due at every earlier one. */
  lemma {:induction false} StillDue(states: seq<State>, events: seq<Event>, i: nat, k: nat, id: Id)
    requires Draining(states, events) && i <= k <= |events| && id in DueAt(states[k])
    ensures id in DueAt(states[i]) && (i < k && events[i].Scan? ==> id !in events[i].due)
    decreases k - i
  {
    hide AllOrderly, EventStep, Remains, DueAt;
    if i < k {
      StillDue(states, events, i + 1, k, id);
      DueAfter(states, events, i);
      assert EventStep(states[i], events[i], states[i + 1]);
      EventDue(states[0], states[i], events[i], states[i + 1]);
    }
  }

  /** And with the same row. */
  lemma SameRow(states: seq<State>, events: seq<Event>, i: nat, k: nat, id: Id)
    requires Draining(states, events) && i <= k <= |events| && id in DueAt(states[k])
    ensures id in states[i].trials && id in states[k].trials && states[i].trials[id] == states[k].trials[id]
  {
    StillDue(states, events, 0, k, id);
    StillDue(states, events, i, k, id);
    DueAfter(states, events, i);
    DueAfter(states, events, k);
    hide AllOrderly, EventStep, Remains, DueAt;
    RemainsRow(states[0], states[i], id);
    RemainsRow(states[0], states[k], id);
  }

  /** Earliest expiry first, and no trial twice. */
  lemma EarliestFirst(states: seq<State>, events: seq<Event>, i: nat, k: nat, early: Id, late: Id)
    requires Draining(states, events) && i < k < |events| && events[i].Scan? && events[k].Scan?
    requires early in events[i].due && late in events[k].due
    ensures early != late && early in states[0].trials && late in states[0].trials
    ensures early in states[i].trials && late in states[i].trials && late in states[k].trials
    ensures states[i].trials[early].expires.Some? && states[i].trials[late].expires.Some?
    ensures states[i].trials[early].expires.value <= states[i].trials[late].expires.value
    ensures states[k].trials[late] == states[i].trials[late]
  {
    assert EventStep(states[i], events[i], states[i + 1]) && EventStep(states[k], events[k], states[k + 1]);
    assert early in DueAt(states[i]) && late in DueAt(states[k]);
    hide AllOrderly, Draining;
    StillDue(states, events, i, k, late);
    SameRow(states, events, i, k, late);
    SameRow(states, events, 0, k, late);
    SameRow(states, events, 0, i, early);
  }

  /** What is due: in every reachable state the ready, active trials whose provisioning finished at least three days
      before. */
  lemma DueMeans(s: State, id: Id)
    requires Leads(Trans, EMPTY, s)
    ensures id in DueAt(s) <==>
      && id in s.trials && s.trials[id].status == TenantReady && s.trials[id].trial == Active
      && s.trials[id].finished.Some? && s.trials[id].finished.value + 259_200_000 <= s.now
  {
    ReachableIsOrderly(s);
    if id in s.trials { assert Orderly(s.trials[id], s.now); }
    hide Leads, AllOrderly;
  }

  // -- a tick is always possible ----------------------------------------------------------------------

  lemma {:induction false} EarliestOf(trials: Trials, due: set<Id>) returns (first: Id)
    requires due != {}
    ensures first in due && forall id :: id in due ==> ExpiryOf(trials, first) <= ExpiryOf(trials, id)
    decreases |due|
  {
    first :| first in due;
    var rest := due - {first};
    if rest != {} {
      var next := EarliestOf(trials, rest);
      assert forall id :: id in due ==> id == first || id in rest;
      if ExpiryOf(trials, next) < ExpiryOf(trials, first) { first := next; }
    }
  }

  lemma {:induction false} InOrder(trials: Trials, due: set<Id>) returns (rows: seq<Id>)
    ensures Distinct(rows) && SetOf(rows) == due && |rows| == |due|
    ensures forall i, k :: 0 <= i < k < |rows| ==> ExpiryOf(trials, rows[i]) <= ExpiryOf(trials, rows[k])
    decreases |due|
  {
    if due == {} {
      rows := [];
    } else {
      var first := EarliestOf(trials, due);
      var rest := InOrder(trials, due - {first});
      rows := [first] + rest;
      forall i | 0 <= i < |rest| ensures rest[i] in due - {first} {
        assert rest[i] in SetOf(rest);
      }
      assert SetOf(rows) == {first} + SetOf(rest);
    }
  }

  /** From every state there is a tick, and it takes the earliest 50 due trials, or all of them. */
  lemma ScanIsPossible(s: State)
    ensures exists due, s' :: EventStep(s, Scan(due), s') && |due| == (if |DueAt(s)| < 50 then |DueAt(s)| else 50)
  {
    var all := InOrder(s.trials, DueAt(s));
    var due := all[..if |all| < 50 then |all| else 50];
    forall id | id in due ensures id in DueAt(s) {
      assert id in SetOf(all);
    }
    forall id, other | id in due && other in DueAt(s) && other !in due
      ensures ExpiryOf(s.trials, id) <= ExpiryOf(s.trials, other)
    {
      assert other in SetOf(all);
      var i :| 0 <= i < |due| && due[i] == id;
      var k :| 0 <= k < |all| && all[k] == other;
      assert forall h :: 0 <= h < |due| ==> due[h] == all[h] && due[h] != other;
    }
    var mid := ExpireRows(s.trials, due, s.now);
    assert AwaitingRows(mid, []) && QueueRows(mid, [], s.now, {}) == mid;
    assert EventStep(s, Scan(due), s.(trials := mid));
  }
}
