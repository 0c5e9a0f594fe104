/** The five job machines of the control plane: leases, reports, expiry, retries and event logs.

    One HTTP handler is one step.  Claims and reports of the five machines differ only in the rules
    stated first; everything after them is shared. */
module LeasedJobs {
  import opened Common
  import opened Runs
  import BackupLeg
  import RestoreGates

  type Id = nat
  type Node = nat
  type Token = nat
  type Time = nat
  type Name = nat

  datatype Machine = Provisioning | Backup | Upload | Restore | Cleanup

  /** `Uploaded` and `Restored` occur only in events. */
  datatype JobState =
    | Queued | Placed | Dispatched | Running | Ready | Failed | Retrying
    | Prepared | Uploaded | Verified | Restored | Validated | Cleaned

  /** A row of one of the job or lease tables; an upload lease belongs to a backup row. */
  datatype Ref = Ref(machine: Machine, id: Id)

  /** What a job is for or has brought: the database name of a provisioning or restore, the artifact list
      of a backup, the uploaded objects. */
  datatype Result =
    | OfDatabase(name: Name)
    | OfBackup(total: int, manifest: nat, items: seq<RestoreGates.Wire>)
    | OfUpload(items: seq<RestoreGates.Wire>)
    | OfCleanup

  datatype Job = Job(tenant: Id, node: Option<Node>, state: JobState, attempt: nat, created: Time)
  datatype Lease = Lease(node: Node, token: Token, expires: Time)
  datatype Event = Event(from: Option<JobState>, to: JobState)

  datatype Tables = Tables(
    jobs: map<Ref, Job>, leases: map<Ref, Lease>, events: map<Ref, seq<Event>>, results: map<Ref, Result>,
    issued: set<Token>, now: Time)

  // ---------------------------------------------------------------------------------------
  // The rules of the machines
  // ---------------------------------------------------------------------------------------

  predicate InFlight(s: JobState) { s == Dispatched || s == Running }

  function JobOf(r: Ref): Ref { if r.machine == Upload then Ref(Backup, r.id) else r }

  function ClaimableStates(m: Machine): set<JobState> {
    match m
    case Provisioning => {Placed, Retrying}
    case Upload => {Prepared}
    case _ => {Queued}
  }

  /** The states in which a lease of the machine may exist. */
  function LeasedStates(m: Machine): set<JobState> {
    if m == Upload then {Prepared} else {Dispatched, Running}
  }

  function AfterExpiry(m: Machine, s: JobState): JobState {
    match m
    case Restore => if InFlight(s) then Queued else s
    case Upload => s
    case _ => if InFlight(s) then Failed else s
  }

  /** TRANSITIONS of the provisioning states, and the edges the other four machines write. */
  function Edges(m: Machine, s: JobState): set<JobState> {
    match m
    case Provisioning =>
      (match s
       case Queued => {Placed, Failed}
       case Placed => {Dispatched, Failed}
       case Dispatched => {Running, Failed}
       case Running => {Ready, Failed}
       case Failed => {Retrying}
       case Retrying => {Dispatched, Failed}
       case _ => {})
    case Restore =>
      (match s
       case Queued => {Dispatched}
       case Dispatched => {Running, Restored, Failed, Queued}
       case Running => {Restored, Failed, Queued}
       case Restored => {Validated}
       case _ => {})
    case Cleanup =>
      (match s
       case Queued => {Dispatched}
       case Dispatched => {Running, Failed}
       case Running => {Cleaned, Failed}
       case Failed => {Queued}
       case _ => {})
    case _ =>
      (match s
       case Queued => {Dispatched}
       case Dispatched => {Running, Failed}
       case Running => {Prepared, Failed}
       case Prepared => {Prepared, Uploaded}
       case Uploaded => {Verified}
       case _ => {})
  }

  /** The agent's report. */
  datatype Input = RunningIn | FailedIn | DoneIn(result: Result)

  /** What the machine's parser lets through. */
  predicate Parsed(m: Machine, result: Result) {
    match m
    case Provisioning => result.OfDatabase?
    case Restore => result.OfDatabase?
    case Cleanup => result.OfCleanup?
    case Backup =>
      && result.OfBackup? && RestoreGates.TotalOf(result.items) == result.total
      && RestoreGates.ManifestSha(result.items) == Some(result.manifest)
      && RestoreGates.Listed(result.items, (w: RestoreGates.Wire) =>
           RestoreGates.Digested(w) && RestoreGates.SafeSize(w) && w.key == None && w.version == None)
    case Upload =>
      && result.OfUpload?
      && RestoreGates.Listed(result.items, (w: RestoreGates.Wire) =>
           RestoreGates.CompleteRow(w) && RestoreGates.SafeSize(w))
  }

  /** matchesStoredArtifacts: every returned item is a stored one, under the key it was told. */
  predicate MatchesStored(stored: seq<RestoreGates.Wire>, returned: seq<RestoreGates.Wire>, tenant: Id, backup: Id) {
    forall i :: 0 <= i < |returned| ==>
      && RestoreGates.Localised(returned)[i] in stored && returned[i].kind.Some?
      && returned[i].key == Some(BackupLeg.ObjectKey(tenant, backup, returned[i].kind.value))
  }

  /** The result agrees with the stored row: the expected database name, or the artifacts that were prepared. */
  predicate Fits(t: Tables, m: Machine, id: Id, result: Result) {
    match m
    case Provisioning => Ref(m, id) in t.results && t.results[Ref(m, id)] == result
    case Restore => Ref(m, id) in t.results && t.results[Ref(m, id)] == result
    case Upload =>
      var b := Ref(Backup, id);
      && result.OfUpload? && b in t.jobs && b in t.results && t.results[b].OfBackup?
      && MatchesStored(t.results[b].items, result.items, t.jobs[b].tenant, id)
    case _ => true
  }

  /** A backup and an upload store what they report. */
  function Record(t: Tables, m: Machine, id: Id, result: Result): Tables {
    if m in {Backup, Upload} then t.(results := t.results[Ref(m, id) := result]) else t
  }

  /** The states a terminal report writes, the last one to the row and all of them to the log. */
  function DonePath(m: Machine): seq<JobState> {
    match m
    case Provisioning => [Ready]
    case Backup => [Prepared]
    case Upload => [Uploaded, Verified]
    case Restore => [Restored, Validated]
    case Cleanup => [Cleaned]
  }

  predicate MayFail(m: Machine, s: JobState) {
    match m
    case Provisioning => Failed in Edges(m, s)
    case Upload => true
    case Cleanup => s == Running
    case _ => InFlight(s)
  }

  predicate MayFinish(m: Machine, s: JobState, matches: bool) {
    match m
    case Provisioning => s == Running && matches
    case Backup => s == Running
    case Upload => s == Prepared && matches
    case Restore => InFlight(s) && matches
    case Cleanup => s == Running
  }

  // ---------------------------------------------------------------------------------------
  // The handlers as functions on the tables
  // ---------------------------------------------------------------------------------------

  function LogOf(t: Tables, r: Ref): seq<Event> { if r in t.events then t.events[r] else [] }

  /** Appends one event per state on the path, each starting where the one before ended. */
  function Follow(log: seq<Event>, from: JobState, path: seq<JobState>): seq<Event>
    decreases |path|
  {
    if path == [] then log else Follow(log + [Event(Some(from), path[0])], path[0], path[1..])
  }

  /** One batch: the row ends at the last state of the path and the log gets every step. */
  function Walk(t: Tables, r: Ref, path: seq<JobState>): Tables
    requires r in t.jobs && path != []
  {
    t.(jobs := t.jobs[r := t.jobs[r].(state := path[|path| - 1])],
       events := t.events[r := Follow(LogOf(t, r), t.jobs[r].state, path)])
  }

  function DropLease(t: Tables, r: Ref): Tables { t.(leases := t.leases - {r}) }

  predicate Lapsed(t: Tables, r: Ref, node: Node) {
    r in t.leases && t.leases[r].node == node && t.leases[r].expires <= t.now
  }

  /** One turn of the expiry loop; an upload lease only leaves a note in the log. */
  function Expire(t: Tables, r: Ref): Tables {
    var j := JobOf(r);
    if j !in t.jobs then (if r.machine in {Upload, Restore} then DropLease(t, r) else t)
    else DropLease(Walk(t, j, [AfterExpiry(r.machine, t.jobs[j].state)]), r)
  }

  function ExpireAll(t: Tables, rows: seq<Ref>): Tables
    decreases |rows|
  {
    if rows == [] then t else ExpireAll(Expire(t, rows[0]), rows[1..])
  }

  predicate Claimable(t: Tables, m: Machine, node: Node, id: Id) {
    var r := Ref(m, id);
    && JobOf(r) in t.jobs && t.jobs[JobOf(r)].node == Some(node)
    && t.jobs[JobOf(r)].state in ClaimableStates(m) && r !in t.leases
  }

  /** An upload claim leaves the backup prepared; the other four dispatch the row. */
  function Dispatch(t: Tables, m: Machine, node: Node, id: Id, token: Token, until: Time): Tables
    requires Claimable(t, m, node, id)
  {
    var r, j := Ref(m, id), JobOf(Ref(m, id));
    var to := if m == Upload then Prepared else Dispatched;
    var t1 := Walk(t, j, [to]);
    t1.(leases := t.leases[r := Lease(node, token, until)], issued := t.issued + {token},
        jobs := if m in {Upload, Cleanup} then t1.jobs
                else t1.jobs[j := t1.jobs[j].(attempt := t.jobs[j].attempt + 1)])
  }

  predicate Held(t: Tables, r: Ref, node: Node, token: Token) {
    r in t.leases && t.leases[r].node == node && t.leases[r].token == token
  }

  predicate Live(t: Tables, r: Ref, node: Node, token: Token) { Held(t, r, node, token) && t.now < t.leases[r].expires }

  /** The trigger: a validated restore inserts a ready provisioning row under its own id. */
  function Materialise(t: Tables, id: Id): Tables
    requires Ref(Restore, id) in t.jobs
  {
    var p := Ref(Provisioning, id);
    if p in t.jobs then t
    else t.(jobs := t.jobs[p := t.jobs[Ref(Restore, id)].(state := Ready, attempt := 1)],
            events := t.events[p := [Event(None, Ready)]])
  }

  function Renew(t: Tables, r: Ref, until: Time): Tables
    requires r in t.leases
  {
    t.(leases := t.leases[r := t.leases[r].(expires := until)])
  }

  /** reportResult of machine m; a lapsed upload report removes its own lease row. */
  function Report(t: Tables, m: Machine, id: Id, node: Node, token: Token, input: Input, until: Time): Tables {
    var r, j := Ref(m, id), JobOf(Ref(m, id));
    if input.DoneIn? && !Parsed(m, input.result) then t
    else if !Live(t, r, node, token) then (if m == Upload && Held(t, r, node, token) then DropLease(t, r) else t)
    else if j !in t.jobs || t.jobs[j].node != Some(node) then t
    else
      var s := t.jobs[j].state;
      match input
      case RunningIn =>
        if m == Upload || s == Running then Renew(t, r, until)
        else if s == Dispatched then Renew(Walk(t, j, [Running]), r, until)
        else t
      case FailedIn =>
        if MayFail(m, s) then DropLease(Walk(t, j, [if m == Upload then s else Failed]), r) else t
      case DoneIn(result) =>
        if !MayFinish(m, s, Fits(t, m, id, result)) then t
        else
          var t1 := DropLease(Walk(Record(t, m, id, result), j, DonePath(m)), r);
          if m == Restore then Materialise(t1, id) else t1
  }

  /** app.ts: which handler a result with this id reaches. */
  function Route(t: Tables, node: Node, id: Id): Machine {
    if Ref(Restore, id) in t.jobs then Restore
    else if Ref(Upload, id) in t.leases && t.leases[Ref(Upload, id)].node == node then Upload
    else if Ref(Backup, id) in t.jobs && t.jobs[Ref(Backup, id)].node == Some(node)
            && t.jobs[Ref(Backup, id)].state == Verified then Upload
    else if Ref(Backup, id) in t.jobs then Backup
    else if Ref(Cleanup, id) in t.jobs then Cleanup
    else Provisioning
  }

  function PostResult(t: Tables, node: Node, id: Id, token: Token, input: Input, until: Time): Tables {
    Report(t, Route(t, node, id), id, node, token, input, until)
  }

  function RetryTarget(m: Machine): JobState { if m == Provisioning then Retrying else Queued }

  predicate Retryable(t: Tables, r: Ref) {
    r.machine in {Provisioning, Cleanup} && r in t.jobs && t.jobs[r].state == Failed
  }

  predicate FreshId(t: Tables, id: Id) { forall m: Machine :: Ref(m, id) !in t.jobs && Ref(m, id) !in t.leases }

  /** A new row: placed provisioning jobs log `queued` and `placed` at once. */
  function Create(t: Tables, r: Ref, tenant: Id, node: Option<Node>, placed: bool, name: Name): Tables {
    var log := [Event(None, Queued)];
    t.(jobs := t.jobs[r := Job(tenant, node, if placed then Placed else Queued, 0, t.now)],
       results := if r.machine in {Provisioning, Restore} then t.results[r := OfDatabase(name)] else t.results,
       events := t.events[r := if placed then log + [Event(Some(Queued), Placed)] else log])
  }

  /** The leases one claim sweeps: lapsed ones of the node, at most 20, each once, and the restores'
      and uploads' whatever the row's state. */
  ghost predicate Sweep(t: Tables, m: Machine, node: Node, rows: seq<Ref>) {
    && |rows| <= 20
    && (forall i, k :: 0 <= i < k < |rows| ==> rows[i] != rows[k])
    && (forall i :: 0 <= i < |rows| ==>
          && rows[i].machine == m && Lapsed(t, rows[i], node)
          && (m in {Restore, Upload} || (rows[i] in t.jobs && InFlight(t.jobs[rows[i]].state))))
  }

  datatype Action =
    | CreateJob(ref: Ref, tenant: Id, home: Option<Node>, placed: bool, name: Name)
    | Place(ref: Ref, node: Node)
    | Claim(machine: Machine, node: Node, rows: seq<Ref>, claimed: Option<Id>, token: Token, until: Time)
    | Post(node: Node, id: Id, token: Token, input: Input, until: Time)
    | Retry(ref: Ref)
    | Tick(now: Time)

  ghost predicate Next(t: Tables, a: Action, t': Tables) {
    match a
    case CreateJob(r, tenant, node, placed, name) =>
      && r.machine != Upload && FreshId(t, r.id) && (placed ==> r.machine == Provisioning)
      && t' == Create(t, r, tenant, node, placed, name)
    case Place(r, node) =>
      && r.machine == Provisioning && r in t.jobs && t.jobs[r].state == Queued
      && t' == Walk(t.(jobs := t.jobs[r := t.jobs[r].(node := Some(node))]), r, [Placed])
    case Claim(m, node, rows, claimed, token, until) =>
      && Sweep(t, m, node, rows) && token !in t.issued
      && var t1 := ExpireAll(t, rows);
      if claimed.Some? then
        Claimable(t1, m, node, claimed.value) && t' == Dispatch(t1, m, node, claimed.value, token, until)
      else t' == t1
    case Post(node, id, token, input, until) => t' == PostResult(t, node, id, token, input, until)
    case Retry(r) => Retryable(t, r) && t' == DropLease(Walk(t, r, [RetryTarget(r.machine)]), r)
    case Tick(now) => t.now <= now && t' == t.(now := now)
  }

  const EMPTY := Tables(map[], map[], map[], map[], {}, 0)

  ghost const Trans: (Tables, Action, Tables) -> bool := (t, a, t') => Next(t, a, t')

  ghost predicate Reachable(t: Tables) { Leads(Trans, EMPTY, t) }

  // ---------------------------------------------------------------------------------------
  // Invariants
  // ---------------------------------------------------------------------------------------

  /** A lease has its job, on its node, in a state of its machine, and its token was issued. */
  predicate LeaseOk(t: Tables, r: Ref) {
    r in t.leases ==>
      && JobOf(r) in t.jobs && Some(t.leases[r].node) == t.jobs[JobOf(r)].node
      && t.jobs[JobOf(r)].state in LeasedStates(r.machine) && t.leases[r].token in t.issued
  }

  predicate FlightOk(t: Tables, r: Ref) {
    r in t.jobs ==> r.machine != Upload && (InFlight(t.jobs[r].state) ==> r in t.leases)
  }

  /** One id belongs to one machine, except a validated restore and its materialised ready row. */
  ghost predicate IdsOk(t: Tables) {
    forall r, q :: r in t.jobs && q in t.jobs && r.id == q.id && r != q ==> Twins(t, r, q) || Twins(t, q, r)
  }

  predicate Twins(t: Tables, r: Ref, q: Ref) {
    && r.machine == Restore && r in t.jobs && t.jobs[r].state == Validated
    && q.machine == Provisioning && q in t.jobs && t.jobs[q].state == Ready
  }

  ghost predicate TokensOk(t: Tables) {
    forall r, q :: r in t.leases && q in t.leases && t.leases[r].token == t.leases[q].token ==> r == q
  }

  /** Consecutive events meet, every edge is one of the machine's, and the log ends at the row's state. */
  ghost predicate Chain(m: Machine, log: seq<Event>, last: JobState) {
    && log != [] && log[0].from == None && log[|log| - 1].to == last
    && (forall i :: 0 < i < |log| ==> log[i].from == Some(log[i - 1].to) && log[i].to in Edges(m, log[i - 1].to))
  }

  function Dispatches(log: seq<Event>): nat {
    if log == [] then 0
    else Dispatches(log[..|log| - 1]) + (if log[|log| - 1].to == Dispatched then 1 else 0)
  }

  predicate IsMaterialised(log: seq<Event>) { log == [Event(None, Ready)] }

  /** The attempt column counts the dispatches; cleanup jobs have no such column. */
  ghost predicate LogOk(t: Tables, r: Ref) {
    (r in t.events <==> r in t.jobs) &&
    (r in t.jobs ==>
      && Chain(r.machine, t.events[r], t.jobs[r].state)
      && (r.machine != Cleanup ==>
            t.jobs[r].attempt == if IsMaterialised(t.events[r]) then 1 else Dispatches(t.events[r])))
  }

  ghost predicate Inv(t: Tables) {
    && (forall r :: LeaseOk(t, r))
    && (forall r :: FlightOk(t, r))
    && IdsOk(t) && TokensOk(t)
    && (forall r :: LogOk(t, r))
  }

  // -- logs -----------------------------------------------------------------------------------

  predicate PathOk(m: Machine, from: JobState, path: seq<JobState>)
    decreases |path|
  {
    path == [] || (path[0] in Edges(m, from) && PathOk(m, path[0], path[1..]))
  }

  function Last(from: JobState, path: seq<JobState>): JobState { if path == [] then from else path[|path| - 1] }

  lemma {:induction false} FollowKeepsChain(m: Machine, log: seq<Event>, from: JobState, path: seq<JobState>)
    requires Chain(m, log, from) && PathOk(m, from, path)
    ensures Chain(m, Follow(log, from, path), Last(from, path))
    ensures |Follow(log, from, path)| == |log| + |path|
    decreases |path|
  {
    if path != [] {
      var log' := log + [Event(Some(from), path[0])];
      assert Chain(m, log', path[0]);
      FollowKeepsChain(m, log', path[0], path[1..]);
      assert Last(path[0], path[1..]) == Last(from, path);
    }
  }

  lemma {:induction false} FollowKeepsDispatches(log: seq<Event>, from: JobState, path: seq<JobState>)
    requires Dispatched !in path
    ensures Dispatches(Follow(log, from, path)) == Dispatches(log)
    decreases |path|
  {
    if path != [] {
      var e := Event(Some(from), path[0]);
      assert (log + [e])[..|log|] == log && path[0] in path;
      assert forall s :: s in path[1..] ==> s in path;
      FollowKeepsDispatches(log + [e], path[0], path[1..]);
    }
  }

  /** A walk along edges keeps the log exact; a dispatch must come with its attempt. */
  lemma WalkKeepsLog(t: Tables, j: Ref, path: seq<JobState>, attempt: nat)
    requires LogOk(t, j) && j in t.jobs && path != [] && PathOk(j.machine, t.jobs[j].state, path)
    requires Dispatched !in path || path == [Dispatched]
    requires j.machine != Cleanup ==> attempt == t.jobs[j].attempt + (if path == [Dispatched] then 1 else 0)
    ensures var t1 := Walk(t, j, path); LogOk(t1.(jobs := t1.jobs[j := t1.jobs[j].(attempt := attempt)]), j)
  {
    var log, from := t.events[j], t.jobs[j].state;
    FollowKeepsChain(j.machine, log, from, path);
    assert path[0] in Edges(j.machine, from) && Edges(j.machine, Ready) == {};
    assert !IsMaterialised(Follow(log, from, path));
    if path == [Dispatched] {
      var log' := log + [Event(Some(from), Dispatched)];
      assert Follow(log, from, path) == log' by { assert path[1..] == []; }
      assert log'[..|log'| - 1] == log;
    } else {
      FollowKeepsDispatches(log, from, path);
    }
  }

  // -- one row and its lease ------------------------------------------------------------------

  /** The handlers change one job row, its log and one of its leases. */
  ghost predicate Touches(t: Tables, t': Tables, r: Ref) {
    var j := JobOf(r);
    && j in t.jobs && j in t'.jobs
    && t'.jobs == t.jobs[j := t'.jobs[j]] && t'.jobs[j].node == t.jobs[j].node
    && t'.events == t.events[j := LogOf(t', j)] && j in t'.events
    && (t'.leases == t.leases - {r} || (r in t'.leases && t'.leases == t.leases[r := t'.leases[r]]))
    && t.issued <= t'.issued
  }

  lemma TouchKeepsRows(t: Tables, t': Tables, r: Ref, q: Ref)
    requires LeaseOk(t, q) && FlightOk(t, q) && LogOk(t, q) && Touches(t, t', r) && LogOk(t', JobOf(r))
    requires LeaseOk(t', r) && FlightOk(t', JobOf(r))
    requires q in t.leases && q != r && JobOf(q) == JobOf(r) ==> t'.jobs[JobOf(r)].state in LeasedStates(q.machine)
    ensures LeaseOk(t', q) && FlightOk(t', q) && LogOk(t', q)
  {
    hide Chain;
  }

  lemma TouchKeepsIds(t: Tables, t': Tables, r: Ref)
    requires IdsOk(t) && Touches(t, t', r)
    requires t.jobs[JobOf(r)].state !in {Ready, Validated} || t'.jobs == t.jobs
    ensures IdsOk(t')
  {
    forall q, u | q in t'.jobs && u in t'.jobs && q.id == u.id && q != u ensures Twins(t', q, u) || Twins(t', u, q) {
      assert Twins(t, q, u) || Twins(t, u, q);
    }
  }

  lemma TouchKeepsTokens(t: Tables, t': Tables, r: Ref)
    requires TokensOk(t) && Touches(t, t', r)
    requires r in t'.leases ==> forall q :: q in t.leases && q != r ==> t.leases[q].token != t'.leases[r].token
    ensures TokensOk(t')
  {
  }

  lemma TouchKeepsInv(t: Tables, t': Tables, r: Ref)
    requires Inv(t) && Touches(t, t', r) && LogOk(t', JobOf(r))
    requires t.jobs[JobOf(r)].state !in {Ready, Validated} || t'.jobs == t.jobs
    requires LeaseOk(t', r) && FlightOk(t', JobOf(r))
    requires forall q :: q in t.leases && q != r && JobOf(q) == JobOf(r) ==>
      t'.jobs[JobOf(r)].state in LeasedStates(q.machine)
    requires r in t'.leases ==> forall q :: q in t.leases && q != r ==> t.leases[q].token != t'.leases[r].token
    ensures Inv(t')
  {
    TouchKeepsIds(t, t', r);
    TouchKeepsTokens(t, t', r);
    forall q ensures LeaseOk(t', q) && FlightOk(t', q) && LogOk(t', q) {
      hide LeaseOk, FlightOk, LogOk, Touches, IdsOk, TokensOk;
      TouchKeepsRows(t, t', r, q);
    }
    hide LeaseOk, FlightOk, LogOk, Touches, IdsOk, TokensOk;
  }

  /** A backup lease and an upload lease never exist together. */
  lemma NoOtherLease(t: Tables, r: Ref, q: Ref)
    requires LeaseOk(t, r) && LeaseOk(t, q) && r in t.leases && q in t.leases && JobOf(q) == JobOf(r)
    ensures q == r
  {
  }

  lemma RenewKeepsInv(t: Tables, r: Ref, until: Time)
    requires Inv(t) && r in t.leases
    ensures Inv(Renew(t, r, until))
  {
    assert LeaseOk(t, r) && FlightOk(t, JobOf(r)) && LogOk(t, JobOf(r));
    forall q | q in t.leases && q != r && JobOf(q) == JobOf(r) ensures false {
      assert LeaseOk(t, q);
      NoOtherLease(t, r, q);
    }
    TouchKeepsInv(t, Renew(t, r, until), r);
  }

  lemma DropKeepsInv(t: Tables, r: Ref)
    requires Inv(t) && (r.machine == Upload || r !in t.leases)
    ensures Inv(DropLease(t, r))
  {
    var t' := DropLease(t, r);
    forall q ensures LeaseOk(t', q) && FlightOk(t', q) && LogOk(t', q) {
      assert LeaseOk(t, q) && FlightOk(t, q) && LogOk(t, q);
    }
  }

  /** A leased row walks to a state in which its lease is gone or still fits. */
  lemma LeasedWalkKeepsInv(t: Tables, r: Ref, path: seq<JobState>, drop: bool)
    requires Inv(t) && r in t.leases && JobOf(r) in t.jobs && path != [] && Dispatched !in path
    requires PathOk(JobOf(r).machine, t.jobs[JobOf(r)].state, path)
    requires if drop then !InFlight(Last(t.jobs[JobOf(r)].state, path)) else path == [Running] && r.machine != Upload
    ensures var t1 := Walk(t, JobOf(r), path); Inv(if drop then DropLease(t1, r) else t1)
  {
    var j := JobOf(r);
    var t1 := Walk(t, j, path);
    var t' := if drop then DropLease(t1, r) else t1;
    assert LeaseOk(t, r) && FlightOk(t, j) && LogOk(t, j);
    WalkKeepsLog(t, j, path, t.jobs[j].attempt);
    assert t1.jobs[j := t1.jobs[j].(attempt := t.jobs[j].attempt)] == t1.jobs;
    forall q | q in t.leases && q != r && JobOf(q) == j ensures false {
      assert LeaseOk(t, q);
      NoOtherLease(t, r, q);
    }
    hide LogOk, Inv, PathOk;
    TouchKeepsInv(t, t', r);
  }

  lemma ExpireKeepsInv(t: Tables, r: Ref)
    requires Inv(t) && r in t.leases
    ensures Inv(Expire(t, r))
  {
    assert LeaseOk(t, r);
    var j := JobOf(r);
    var s := t.jobs[j].state;
    var path := [AfterExpiry(r.machine, s)];
    assert PathOk(j.machine, s, path) by { assert path[1..] == []; }
    hide Inv, LeaseOk, PathOk;
    LeasedWalkKeepsInv(t, r, path, true);
  }

  lemma {:induction false} ExpireAllKeepsInv(t: Tables, rows: seq<Ref>)
    requires Inv(t) && (forall i :: 0 <= i < |rows| ==> rows[i] in t.leases)
    requires forall i, k :: 0 <= i < k < |rows| ==> rows[i] != rows[k]
    ensures Inv(ExpireAll(t, rows)) && ExpireAll(t, rows).issued == t.issued
    decreases |rows|
  {
    if rows != [] {
      ExpireKeepsInv(t, rows[0]);
      hide Inv;
      ExpireAllKeepsInv(Expire(t, rows[0]), rows[1..]);
    }
  }

  lemma DispatchKeepsInv(t: Tables, m: Machine, node: Node, id: Id, token: Token, until: Time)
    requires Inv(t) && Claimable(t, m, node, id) && token !in t.issued
    ensures Inv(Dispatch(t, m, node, id, token, until))
  {
    var r, j := Ref(m, id), JobOf(Ref(m, id));
    var t' := Dispatch(t, m, node, id, token, until);
    var path := [if m == Upload then Prepared else Dispatched];
    assert LeaseOk(t, j) && FlightOk(t, j) && LogOk(t, j);
    assert PathOk(j.machine, t.jobs[j].state, path) by { assert path[1..] == []; }
    WalkKeepsLog(t, j, path, t'.jobs[j].attempt);
    var t1 := Walk(t, j, path);
    assert t'.jobs == t1.jobs[j := t1.jobs[j].(attempt := t'.jobs[j].attempt)];
    forall q | q in t.leases ensures t.leases[q].token != token && (q != r ==> JobOf(q) != j) {
      assert LeaseOk(t, q);
    }
    hide Chain, PathOk, Inv;
    assert LogOk(t', j);
    TouchKeepsInv(t, t', r);
  }

  lemma RecordKeepsInv(t: Tables, m: Machine, id: Id, result: Result)
    requires Inv(t)
    ensures Inv(Record(t, m, id, result))
  {
    var t' := Record(t, m, id, result);
    forall q ensures LeaseOk(t', q) && FlightOk(t', q) && LogOk(t', q) {
      assert LeaseOk(t, q) && FlightOk(t, q) && LogOk(t, q);
    }
    hide LeaseOk, FlightOk, LogOk;
  }

  /** The validated restore and its materialised row. */
  lemma MaterialiseKeepsInv(t: Tables, id: Id)
    requires Ref(Restore, id) in t.jobs && t.jobs[Ref(Restore, id)].state == Validated
    requires Inv(t) && Ref(Provisioning, id) !in t.jobs
    requires forall m: Machine :: m != Restore ==> Ref(m, id) !in t.jobs
    ensures Inv(Materialise(t, id))
  {
    var t' := Materialise(t, id);
    var p := Ref(Provisioning, id);
    forall q ensures LeaseOk(t', q) && FlightOk(t', q) && LogOk(t', q) {
      assert LeaseOk(t, q) && FlightOk(t, q) && LogOk(t, q);
    }
    assert IdsOk(t') by {
      forall q, u | q in t'.jobs && u in t'.jobs && q.id == u.id && q != u
        ensures Twins(t', q, u) || Twins(t', u, q)
      {
        if q.id == id {
          assert q.machine in {Restore, Provisioning} && u.machine in {Restore, Provisioning};
        } else {
          assert Twins(t, q, u) || Twins(t, u, q);
        }
      }
    }
  }

  lemma DoneKeepsInv(t: Tables, m: Machine, id: Id)
    requires Inv(t) && Ref(m, id) in t.leases && JobOf(Ref(m, id)) in t.jobs
    requires MayFinish(m, t.jobs[JobOf(Ref(m, id))].state, true)
    ensures var t1 := DropLease(Walk(t, JobOf(Ref(m, id)), DonePath(m)), Ref(m, id));
      Inv(if m == Restore then Materialise(t1, id) else t1)
  {
    var r, j := Ref(m, id), JobOf(Ref(m, id));
    var path := DonePath(m);
    assert LeaseOk(t, r);
    assert PathOk(j.machine, t.jobs[j].state, path) by {
      assert |path| == 1 ==> path[1..] == [];
      assert |path| == 2 ==> path[1..][1..] == [] && PathOk(j.machine, path[0], path[1..]);
    }
    var t1 := DropLease(Walk(t, j, path), r);
    if m == Restore {
      assert forall q :: q in t.jobs && q.id == id && q != r ==> Twins(t, q, r) || Twins(t, r, q);
      assert forall k: Machine :: k != Restore ==> Ref(k, id) !in t1.jobs;
    }
    hide Inv, LeaseOk, PathOk, Follow;
    LeasedWalkKeepsInv(t, r, path, true);
    if m == Restore { MaterialiseKeepsInv(t1, id); }
  }

  lemma ReportKeepsInv(t: Tables, m: Machine, id: Id, node: Node, token: Token, input: Input, until: Time)
    requires Inv(t)
    ensures Inv(Report(t, m, id, node, token, input, until))
  {
    var r, j := Ref(m, id), JobOf(Ref(m, id));
    if !Live(t, r, node, token) {
      if m == Upload { DropKeepsInv(t, r); }
    } else {
      assert LeaseOk(t, r);
      var s := t.jobs[j].state;
      var path := [if input.RunningIn? then Running else if m == Upload then s else Failed];
      assert path[1..] == [] && PathOk(j.machine, s, []);
      hide Inv;
      match input
      case RunningIn =>
        if m == Upload || s == Running {
          RenewKeepsInv(t, r, until);
        } else if s == Dispatched {
          assert PathOk(j.machine, s, path);
          LeasedWalkKeepsInv(t, r, path, false);
          RenewKeepsInv(Walk(t, j, path), r, until);
        }
      case FailedIn =>
        if MayFail(m, s) {
          assert PathOk(j.machine, s, path);
          LeasedWalkKeepsInv(t, r, path, true);
        }
      case DoneIn(result) =>
        if Parsed(m, result) && MayFinish(m, s, Fits(t, m, id, result)) {
          RecordKeepsInv(t, m, id, result);
          DoneKeepsInv(Record(t, m, id, result), m, id);
        }
    }
  }

  /** An unleased row that stays out of flight. */
  lemma IdleWalkKeepsInv(t: Tables, r: Ref, to: JobState)
    requires Inv(t) && r in t.jobs && r.machine in {Provisioning, Cleanup} && r !in t.leases
    requires to in Edges(r.machine, t.jobs[r].state) && to !in {Dispatched, Running, Ready, Validated}
    ensures Inv(DropLease(Walk(t, r, [to]), r))
  {
    var t1 := Walk(t, r, [to]);
    assert LeaseOk(t, r) && FlightOk(t, r) && LogOk(t, r);
    assert [to][1..] == [] && PathOk(r.machine, t.jobs[r].state, [to]);
    WalkKeepsLog(t, r, [to], t.jobs[r].attempt);
    assert t1.jobs[r := t1.jobs[r].(attempt := t.jobs[r].attempt)] == t1.jobs;
    hide Chain, PathOk, Inv, Edges;
    TouchKeepsInv(t, DropLease(t1, r), r);
  }

  lemma RetryKeepsInv(t: Tables, r: Ref)
    requires Inv(t) && Retryable(t, r)
    ensures Inv(DropLease(Walk(t, r, [RetryTarget(r.machine)]), r))
  {
    assert LeaseOk(t, r);
    hide Inv;
    IdleWalkKeepsInv(t, r, RetryTarget(r.machine));
  }

  lemma PlaceKeepsInv(t: Tables, r: Ref, node: Node)
    requires Inv(t) && r.machine == Provisioning && r in t.jobs && t.jobs[r].state == Queued
    ensures Inv(Walk(t.(jobs := t.jobs[r := t.jobs[r].(node := Some(node))]), r, [Placed]))
  {
    var t1 := t.(jobs := t.jobs[r := t.jobs[r].(node := Some(node))]);
    assert LeaseOk(t, r);
    assert Inv(t1) by {
      forall q ensures LeaseOk(t1, q) && FlightOk(t1, q) && LogOk(t1, q) {
        assert LeaseOk(t, q) && FlightOk(t, q) && LogOk(t, q);
      }
      forall q, u | q in t1.jobs && u in t1.jobs && q.id == u.id && q != u ensures Twins(t1, q, u) || Twins(t1, u, q) {
        assert Twins(t, q, u) || Twins(t, u, q);
      }
    }
    hide Inv;
    IdleWalkKeepsInv(t1, r, Placed);
    assert DropLease(Walk(t1, r, [Placed]), r) == Walk(t1, r, [Placed]) by {
      assert t1.leases - {r} == t1.leases;
    }
  }

  lemma CreateKeepsInv(t: Tables, r: Ref, tenant: Id, home: Option<Node>, placed: bool, name: Name)
    requires Inv(t) && r.machine != Upload && FreshId(t, r.id) && (placed ==> r.machine == Provisioning)
    ensures Inv(Create(t, r, tenant, home, placed, name))
  {
    var t' := Create(t, r, tenant, home, placed, name);
    var one := [Event(None, Queued)];
    assert one[..0] == [] && (one + [Event(Some(Queued), Placed)])[..1] == one;
    assert Dispatches(one) == 0;
    forall q ensures LeaseOk(t', q) && FlightOk(t', q) && LogOk(t', q) {
      assert LeaseOk(t, q) && FlightOk(t, q) && LogOk(t, q);
      assert q.id == r.id ==> Ref(q.machine, r.id) == q;
    }
    forall q, u | q in t'.jobs && u in t'.jobs && q.id == u.id && q != u ensures Twins(t', q, u) || Twins(t', u, q) {
      assert q.id == r.id ==> q == r || Ref(q.machine, r.id) !in t.jobs;
      assert u.id == r.id ==> u == r || Ref(u.machine, r.id) !in t.jobs;
      assert Twins(t, q, u) || Twins(t, u, q);
    }
  }

  lemma StepKeepsInv(t: Tables, a: Action, t': Tables)
    requires Inv(t) && Next(t, a, t')
    ensures Inv(t')
  {
    match a
    case CreateJob(r, tenant, home, placed, name) => CreateKeepsInv(t, r, tenant, home, placed, name);
    case Place(r, node) => PlaceKeepsInv(t, r, node);
    case Claim(m, node, rows, claimed, token, until) =>
      hide Inv, Dispatch;
      ExpireAllKeepsInv(t, rows);
      if claimed.Some? { DispatchKeepsInv(ExpireAll(t, rows), m, node, claimed.value, token, until); }
    case Post(node, id, token, input, until) =>
      hide Inv, Report;
      ReportKeepsInv(t, Route(t, node, id), id, node, token, input, until);
    case Retry(r) => hide Inv; RetryKeepsInv(t, r);
    case Tick(now) =>
      forall q ensures LeaseOk(t', q) && FlightOk(t', q) && LogOk(t', q) {
        assert LeaseOk(t, q) && FlightOk(t, q) && LogOk(t, q);
      }
      forall q, u | q in t'.jobs && u in t'.jobs && q.id == u.id && q != u ensures Twins(t', q, u) || Twins(t', u, q) {
        assert Twins(t, q, u) || Twins(t, u, q);
      }
  }

  lemma LeadsInv(t: Tables, t': Tables)
    requires Inv(t) && Leads(Trans, t, t')
    ensures Inv(t')
  {
    hide Inv;
    forall t, a, t' | Inv(t) && Trans(t, a, t') ensures Inv(t') {
      StepKeepsInv(t, a, t');
    }
    LeadsKeeps(Trans, (t: Tables) => Inv(t), t, t');
  }

  lemma ReachableInv(t: Tables)
    requires Reachable(t)
    ensures Inv(t)
  {
    assert Inv(EMPTY);
    hide Inv;
    LeadsInv(EMPTY, t);
  }

  // ---------------------------------------------------------------------------------------
  // Leases mirror the work in flight, and results reach their owner
  // ---------------------------------------------------------------------------------------

  lemma LeasesMirrorWork(t: Tables, r: Ref)
    requires Reachable(t)
    ensures r.machine != Upload && r in t.jobs ==>
      (r in t.leases <==> InFlight(t.jobs[r].state)) && (r in t.leases ==> t.jobs[r].node == Some(t.leases[r].node))
    ensures r.machine == Upload && r in t.leases ==> JobOf(r) in t.jobs && t.jobs[JobOf(r)].state == Prepared
  {
    ReachableInv(t);
    assert LeaseOk(t, r) && FlightOk(t, r);
  }

  /** However ids are shared, a report that holds a lease is routed to the machine of that lease. */
  lemma ResultReachesItsLease(t: Tables, r: Ref)
    requires Reachable(t) && r in t.leases
    ensures Route(t, t.leases[r].node, r.id) == r.machine
  {
    ReachableInv(t);
    assert LeaseOk(t, r);
    assert forall q :: q in t.jobs && q.id == r.id && q != JobOf(r) ==> Twins(t, q, JobOf(r)) || Twins(t, JobOf(r), q);
    if Ref(Upload, r.id) in t.leases { assert LeaseOk(t, Ref(Upload, r.id)); }
  }

  // ---------------------------------------------------------------------------------------
  // Fencing
  // ---------------------------------------------------------------------------------------

  /** The token was handed out once and no unlapsed lease carries it any more. */
  ghost predicate Dead(t: Tables, token: Token) {
    && token in t.issued
    && forall r :: r in t.leases && t.leases[r].token == token ==> t.leases[r].expires <= t.now
  }

  /** All a report with a dead token can do is remove an upload lease row that has lapsed already. */
  lemma DeadTokenChangesNothing(t: Tables, token: Token, node: Node, id: Id, input: Input, until: Time)
    requires Dead(t, token)
    ensures var t' := PostResult(t, node, id, token, input, until);
      && t'.jobs == t.jobs && t'.events == t.events && t'.results == t.results
      && t'.issued == t.issued && t'.now == t.now
      && (t'.leases == t.leases
          || (Held(t, Ref(Upload, id), node, token) && t'.leases == t.leases - {Ref(Upload, id)}))
  {
  }

  /** Every lease afterwards was there before, unless it carries a token issued in between; a lease
      whose token is dead is not renewed. */
  ghost predicate KeepsDead(t: Tables, t': Tables) {
    && t.issued <= t'.issued && t.now <= t'.now
    && (forall r :: r in t'.leases ==>
          || t'.leases[r].token !in t.issued
          || (r in t.leases && t.leases[r].token == t'.leases[r].token
              && (t.leases[r].expires <= t.now ==> t'.leases[r].expires == t.leases[r].expires)))
  }

  lemma {:induction false} ExpireAllKeepsDead(t: Tables, rows: seq<Ref>)
    ensures ExpireAll(t, rows).issued == t.issued && ExpireAll(t, rows).now == t.now
    ensures forall r :: r in ExpireAll(t, rows).leases ==> r in t.leases && ExpireAll(t, rows).leases[r] == t.leases[r]
    decreases |rows|
  {
    if rows != [] { ExpireAllKeepsDead(Expire(t, rows[0]), rows[1..]); }
  }

  lemma ReportKeepsDead(t: Tables, m: Machine, id: Id, node: Node, token: Token, input: Input, until: Time)
    ensures KeepsDead(t, Report(t, m, id, node, token, input, until))
  {
    hide Follow, Edges;
  }

  lemma StepKeepsDead(t: Tables, a: Action, t': Tables)
    requires Next(t, a, t')
    ensures KeepsDead(t, t')
  {
    match a
    case Claim(m, node, rows, claimed, token, until) =>
      ExpireAllKeepsDead(t, rows);
      hide ExpireAll, Walk;
    case Post(node, id, token, input, until) =>
      hide Report;
      ReportKeepsDead(t, Route(t, node, id), id, node, token, input, until);
    case CreateJob(_, _, _, _, _) => hide Walk;
    case Place(_, _) =>
    case Retry(_) =>
    case Tick(_) =>
  }

  lemma DeadStaysDead(t: Tables, token: Token, t': Tables)
    requires Dead(t, token) && Leads(Trans, t, t')
    ensures Dead(t', token)
  {
    forall t, a, t' | Dead(t, token) && Trans(t, a, t') ensures Dead(t', token) {
      StepKeepsDead(t, a, t');
    }
    LeadsKeeps(Trans, (t: Tables) => Dead(t, token), t, t');
  }

  /** Once a token's lease has lapsed or gone, no later report with it changes any job, any log or
      any other lease, however often the job is requeued and claimed again. */
  lemma StaleLeasesAreFenced(t: Tables, token: Token, t1: Tables, node: Node, id: Id, input: Input, until: Time)
    requires Dead(t, token) && Leads(Trans, t, t1)
    ensures var t2 := PostResult(t1, node, id, token, input, until);
      && t2.jobs == t1.jobs && t2.events == t1.events && t2.results == t1.results
      && forall r :: r in t1.leases && !(r in t2.leases && t2.leases[r] == t1.leases[r]) ==>
           r == Ref(Upload, id) && t1.leases[r].token == token && t1.leases[r].expires <= t1.now
  {
    DeadStaysDead(t, token, t1);
    DeadTokenChangesNothing(t1, token, node, id, input, until);
    hide PostResult;
  }

  // ---------------------------------------------------------------------------------------
  // Final rows
  // ---------------------------------------------------------------------------------------

  const FINAL := {Ready, Verified, Validated, Cleaned}

  /** Rows stay, final rows and their logs are frozen, and a row becomes validated together with its
      materialised twin. */
  ghost predicate Grows(t: Tables, t': Tables) {
    forall r :: r in t.jobs ==>
      && r in t'.jobs
      && (t.jobs[r].state in FINAL ==> t'.jobs[r] == t.jobs[r] && LogOf(t', r) == LogOf(t, r))
  }

  ghost predicate TwinsOk(t: Tables) {
    forall r: Ref :: r.machine == Restore && r in t.jobs && t.jobs[r].state == Validated ==>
      Ref(Provisioning, r.id) in t.jobs
  }

  lemma ExpireGrows(t: Tables, r: Ref)
    requires LeaseOk(t, r) && r in t.leases && TwinsOk(t)
    ensures Grows(t, Expire(t, r)) && TwinsOk(Expire(t, r))
  {
    hide Follow;
  }

  lemma {:induction false} ExpireAllGrows(t: Tables, rows: seq<Ref>)
    requires Inv(t) && TwinsOk(t) && (forall i :: 0 <= i < |rows| ==> rows[i] in t.leases)
    requires forall i, k :: 0 <= i < k < |rows| ==> rows[i] != rows[k]
    ensures Grows(t, ExpireAll(t, rows)) && TwinsOk(ExpireAll(t, rows))
    decreases |rows|
  {
    if rows != [] {
      assert LeaseOk(t, rows[0]);
      ExpireGrows(t, rows[0]);
      ExpireKeepsInv(t, rows[0]);
      hide Inv, TwinsOk;
      ExpireAllGrows(Expire(t, rows[0]), rows[1..]);
    }
  }

  lemma DoneGrows(t: Tables, m: Machine, id: Id)
    requires JobOf(Ref(m, id)) in t.jobs && MayFinish(m, t.jobs[JobOf(Ref(m, id))].state, true) && TwinsOk(t)
    ensures var t1 := DropLease(Walk(t, JobOf(Ref(m, id)), DonePath(m)), Ref(m, id));
      var t' := if m == Restore then Materialise(t1, id) else t1;
      Grows(t, t') && TwinsOk(t')
  {
    hide Follow;
  }

  lemma ResultGrows(t: Tables, m: Machine, id: Id, node: Node, token: Token, input: Input, until: Time)
    requires TwinsOk(t) && input.DoneIn?
    ensures var t' := Report(t, m, id, node, token, input, until); Grows(t, t') && TwinsOk(t')
  {
    hide Parsed, Fits, Edges;
    var r, j := Ref(m, id), JobOf(Ref(m, id));
    if j in t.jobs && MayFinish(m, t.jobs[j].state, true) {
      var t0 := Record(t, m, id, input.result);
      assert Grows(t, t0) && TwinsOk(t0);
      DoneGrows(t0, m, id);
      hide Walk, Materialise, MayFinish;
    }
  }

  lemma ReportGrows(t: Tables, m: Machine, id: Id, node: Node, token: Token, input: Input, until: Time)
    requires LeaseOk(t, Ref(m, id)) && TwinsOk(t)
    ensures var t' := Report(t, m, id, node, token, input, until); Grows(t, t') && TwinsOk(t')
  {
    if input.DoneIn? {
      hide Report, Grows, TwinsOk;
      ResultGrows(t, m, id, node, token, input, until);
    } else {
      hide Follow;
    }
  }

  lemma DispatchGrows(t: Tables, m: Machine, node: Node, id: Id, token: Token, until: Time)
    requires Claimable(t, m, node, id) && TwinsOk(t)
    ensures Grows(t, Dispatch(t, m, node, id, token, until)) && TwinsOk(Dispatch(t, m, node, id, token, until))
  {
    hide Follow;
  }

  lemma GrowsTrans(t: Tables, t1: Tables, t2: Tables)
    requires Grows(t, t1) && Grows(t1, t2)
    ensures Grows(t, t2)
  {
  }

  lemma InvLease(t: Tables, r: Ref)
    requires Inv(t)
    ensures LeaseOk(t, r)
  {
  }

  lemma StepGrows(t: Tables, a: Action, t': Tables)
    requires Inv(t) && TwinsOk(t) && Next(t, a, t')
    ensures Grows(t, t') && TwinsOk(t')
  {
    hide Inv, ExpireAll, Report, Follow;
    match a
    case Claim(m, node, rows, claimed, token, until) =>
      hide Dispatch, Grows, TwinsOk;
      ExpireAllGrows(t, rows);
      if claimed.Some? {
        DispatchGrows(ExpireAll(t, rows), m, node, claimed.value, token, until);
        GrowsTrans(t, ExpireAll(t, rows), t');
      }
    case Post(node, id, token, input, until) =>
      hide Grows, TwinsOk, LeaseOk;
      InvLease(t, Ref(Route(t, node, id), id));
      ReportGrows(t, Route(t, node, id), id, node, token, input, until);
    case CreateJob(r, _, _, _, _) =>
    case Place(_, _) =>
    case Retry(_) =>
    case Tick(_) =>
  }

  lemma ReachableTwins(t: Tables)
    requires Reachable(t)
    ensures TwinsOk(t)
  {
    var inv := (t: Tables) => Inv(t) && TwinsOk(t);
    assert Inv(EMPTY) && TwinsOk(EMPTY);
    hide Inv, TwinsOk;
    forall t, a, t' | inv(t) && Trans(t, a, t') ensures inv(t') {
      StepKeepsInv(t, a, t');
      StepGrows(t, a, t');
    }
    LeadsKeeps(Trans, inv, EMPTY, t);
  }

  /** Ready, verified, validated and cleaned rows and their logs never change again. */
  lemma FinalRowsAreFrozen(states: seq<Tables>, actions: seq<Action>, i: nat, k: nat, r: Ref)
    requires IsRun(Trans, states, actions) && states[0] == EMPTY && i <= k <= |actions|
    requires r in states[i].jobs && states[i].jobs[r].state in {Ready, Verified, Validated, Cleaned}
    ensures r in states[k].jobs && states[k].jobs[r] == states[i].jobs[r] && LogOf(states[k], r) == LogOf(states[i], r)
  {
    var inv := (t: Tables) => Inv(t) && TwinsOk(t);
    var rel := (t: Tables, t': Tables) => r in t.jobs && t.jobs[r].state in FINAL ==>
      r in t'.jobs && t'.jobs[r] == t.jobs[r] && LogOf(t', r) == LogOf(t, r);
    assert inv(EMPTY);
    hide Inv, TwinsOk;
    forall t, a, t' | inv(t) && Trans(t, a, t') ensures inv(t') && rel(t, t') {
      StepKeepsInv(t, a, t');
      StepGrows(t, a, t');
    }
    RunRelates(Trans, inv, rel, states, actions, i, k);
  }

  function CountOf(log: seq<Event>, s: JobState): nat
    decreases |log|
  {
    if log == [] then 0
    else CountOf(log[..|log| - 1], s) + (if log[|log| - 1].to == s then 1 else 0)
  }

  /** Nothing follows a validated event. */
  lemma {:induction false} ValidatedIsLast(log: seq<Event>, last: JobState)
    requires Chain(Restore, log, last)
    ensures CountOf(log, Validated) == if last == Validated then 1 else 0
    decreases |log|
  {
    if |log| > 1 {
      var init := log[..|log| - 1];
      assert Chain(Restore, init, init[|init| - 1].to);
      ValidatedIsLast(init, init[|init| - 1].to);
    } else {
      assert log[..0] == [];
    }
  }

  /** A restore is validated at most once, and has a materialised provisioning row exactly when it is. */
  lemma ValidatedAtMostOnce(t: Tables, id: Id)
    requires Reachable(t) && Ref(Restore, id) in t.jobs
    ensures CountOf(LogOf(t, Ref(Restore, id)), Validated) ==
      if t.jobs[Ref(Restore, id)].state == Validated then 1 else 0
    ensures Ref(Provisioning, id) in t.jobs <==> t.jobs[Ref(Restore, id)].state == Validated
    ensures Ref(Provisioning, id) in t.jobs ==> t.jobs[Ref(Provisioning, id)].state == Ready
  {
    ReachableInv(t);
    ReachableTwins(t);
    assert LogOk(t, Ref(Restore, id));
    ValidatedIsLast(t.events[Ref(Restore, id)], t.jobs[Ref(Restore, id)].state);
    if Ref(Provisioning, id) in t.jobs {
      assert Twins(t, Ref(Restore, id), Ref(Provisioning, id)) || Twins(t, Ref(Provisioning, id), Ref(Restore, id));
    }
  }

  /** Every job's log is its exact history: consecutive events meet along edges of its machine, the
      last one is the state column, and the dispatches are counted by the attempt column. */
  lemma EventLogIsExact(t: Tables, r: Ref)
    requires Reachable(t) && r in t.jobs
    ensures r in t.events && Chain(r.machine, t.events[r], t.jobs[r].state)
    ensures r.machine != Cleanup && !IsMaterialised(t.events[r]) ==> t.jobs[r].attempt == Dispatches(t.events[r])
  {
    ReachableInv(t);
    assert LogOk(t, r);
  }

  lemma {:induction false} ExpireAllInsertsNothing(t: Tables, rows: seq<Ref>)
    ensures ExpireAll(t, rows).jobs.Keys == t.jobs.Keys
    decreases |rows|
  {
    if rows != [] { ExpireAllInsertsNothing(Expire(t, rows[0]), rows[1..]); }
  }

  lemma ReportInserts(t: Tables, m: Machine, id: Id, node: Node, token: Token, input: Input, until: Time, p: Ref)
    requires p !in t.jobs && p in Report(t, m, id, node, token, input, until).jobs
    ensures p == Ref(Provisioning, id) && Ref(Restore, id) in t.jobs
    ensures var t' := Report(t, m, id, node, token, input, until);
      LogOf(t', p) == [Event(None, Ready)] && t'.jobs[p] == t'.jobs[Ref(Restore, id)].(state := Ready, attempt := 1)
  {
    hide Follow, Parsed, Fits;
  }

  lemma TriggerInserts(t: Tables, a: Action, t': Tables, id: Id)
    requires Next(t, a, t') && Ref(Restore, id) in t.jobs && Ref(Restore, id) in t'.jobs
    requires Ref(Provisioning, id) !in t.jobs && Ref(Provisioning, id) in t'.jobs
    ensures var r, p := Ref(Restore, id), Ref(Provisioning, id);
      && t'.jobs[p] == t'.jobs[r].(state := Ready, attempt := 1)
      && LogOf(t', p) == [Event(None, Ready)]
  {
    hide ExpireAll, Report;
    assert !FreshId(t, id);
    match a
    case CreateJob(_, _, _, _, _) =>
    case Claim(_, _, rows, _, _, _) => ExpireAllInsertsNothing(t, rows);
    case Post(node, i, token, input, until) =>
      ReportInserts(t, Route(t, node, i), i, node, token, input, until, Ref(Provisioning, id));
    case Place(_, _) =>
    case Retry(_) =>
    case Tick(_) =>
  }

  /** The trigger fires in exactly the step in which its restore becomes validated: it inserts a ready
      provisioning row for the restore's tenant on its node with a single event, and nothing ever
      changes that row. */
  lemma TriggerFires(t: Tables, a: Action, t': Tables, id: Id)
    requires Reachable(t) && Next(t, a, t') && Ref(Restore, id) in t.jobs
    ensures var r, p := Ref(Restore, id), Ref(Provisioning, id);
      && r in t'.jobs
      && (p !in t.jobs && p in t'.jobs <==> t.jobs[r].state != Validated && t'.jobs[r].state == Validated)
      && (p !in t.jobs && p in t'.jobs ==>
            && t'.jobs[p] == t'.jobs[r].(state := Ready, attempt := 1)
            && LogOf(t', p) == [Event(None, Ready)])
      && (p in t.jobs ==> p in t'.jobs && t'.jobs[p] == t.jobs[p] && LogOf(t', p) == LogOf(t, p))
  {
    hide Inv, TwinsOk, Next, LogOf;
    ReachableInv(t);
    ReachableTwins(t);
    StepGrows(t, a, t');
    LeadsStep(Trans, EMPTY, t, a, t');
    ValidatedAtMostOnce(t, id);
    ValidatedAtMostOnce(t', id);
    if Ref(Provisioning, id) !in t.jobs && Ref(Provisioning, id) in t'.jobs { TriggerInserts(t, a, t', id); }
  }
}
