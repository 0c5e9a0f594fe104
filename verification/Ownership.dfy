/** Control plane, agent and node engines together: who owns a tenant's database.

    One HTTP handler, one engine request and one move of the agent is a step each.  The agent may
    crash, give up waiting or lose an answer anywhere; the node's server works its queue in order. */
module Ownership {
  import opened Common
  import opened Runs
  import opened NodeState
  import NodeIsolation
  import Provisioner
  import Cleanup
  import Backup
  import Restore

  type Token = nat

  /** What the control plane sends for a row; the source columns of a row never change. */
  datatype Payload =
    | ForProvision(provision: Provisioner.Request)
    | ForRestore(restore: Restore.Request)
    | ForCleanup(cleanup: Cleanup.Request)
    | ForBackup(backup: Backup.Request)

  /** `Waiting` is placed, retrying or queued; `Completed` is ready, validated, cleaned or prepared. */
  datatype JobState = Waiting | Dispatched | Running | Completed | FailedState

  datatype TenantStatus = Pending | Provisioning | TenantReady | Suspended | TenantFailed | Decommissioned

  datatype TenantRow = TenantRow(environment: Environment, status: TenantStatus, database: Option<Name>)

  /** A row of provisioning_jobs in state ready, from a report or from the restore trigger. */
  datatype Identity = Identity(tenant: Id, template: Id)

  datatype Agent =
    | Idle
    | Claimed(op: Id, token: Token)
    | AwaitsReply(op: Id, token: Token, serial: nat)
    | Holds(op: Id, token: Token, reply: Reply)

  datatype Sent = Sent(op: Id, serial: nat)

  datatype System = System(
    rows: map<Id, Payload>, states: map<Id, JobState>, leases: map<Id, Token>,
    tenants: map<Id, TenantRow>, ready: map<Id, Identity>,
    agent: Agent, queue: seq<Sent>, serial: nat, node: State)

  // -- rows -----------------------------------------------------------------------------------

  predicate IsJob(p: Payload) { p.ForProvision? || p.ForRestore? }

  function OperationOf(p: Payload): Id {
    match p
    case ForProvision(r) => r.operation
    case ForRestore(r) => r.operation
    case ForCleanup(r) => r.operation
    case ForBackup(r) => r.operation
  }

  function TenantOf(p: Payload): Id {
    match p
    case ForProvision(r) => r.tenant
    case ForRestore(r) => r.tenant
    case ForCleanup(r) => r.tenant
    case ForBackup(r) => r.tenant
  }

  function TemplateOf(p: Payload): Id {
    match p
    case ForProvision(r) => r.template
    case ForRestore(r) => r.template
    case ForCleanup(r) => r.template
    case ForBackup(r) => r.template
  }

  function NameOf(p: Payload): Name {
    match p
    case ForProvision(r) => r.database
    case ForRestore(r) => r.database
    case ForCleanup(r) => r.database
    case ForBackup(r) => r.database
  }

  /** The job a cleanup or backup row names as the database's origin. */
  function OriginOf(p: Payload): Id
    requires !IsJob(p)
  {
    if p.ForCleanup? then p.cleanup.provisioning else p.backup.provisioning
  }

  function SuccessOf(p: Payload): Reply {
    match p
    case ForProvision(_) => Ready
    case ForRestore(_) => Validated
    case ForCleanup(_) => Cleaned
    case ForBackup(_) => Prepared
  }

  /** The marker of a job's own database: tenant, template and the job's id. */
  function OwnMarker(p: Payload): Marker { Marker(TenantOf(p), TemplateOf(p), OperationOf(p)) }

  /** Terminal reports are accepted from running; a restore also from dispatched, and so is a
      provisioning or backup failure. */
  predicate Accepts(p: Payload, state: JobState, success: bool) {
    state == Running || (state == Dispatched && (p.ForRestore? || (!success && !p.ForCleanup?)))
  }

  function AfterSuccess(t: TenantRow, p: Payload): TenantRow {
    match p
    case ForProvision(r) => t.(status := TenantReady, database := Some(r.database))
    case ForRestore(r) => t.(status := TenantReady, database := Some(r.database))
    case ForCleanup(_) => t.(status := Decommissioned, database := None)
    case ForBackup(_) => t
  }

  function AfterFailure(t: TenantRow, p: Payload): TenantRow {
    match p
    case ForRestore(_) => t.(status := TenantFailed, database := None)
    case ForBackup(_) => t
    case _ => t.(status := TenantFailed)
  }

  predicate InState(s: System, op: Id, states: set<JobState>) {
    op in s.rows && op in s.states && s.states[op] in states
  }

  // -- steps ----------------------------------------------------------------------------------

  datatype Action =
    | CreateJob(op: Id, payload: Payload, tenant: TenantRow)
    | CreateFollowUp(op: Id, payload: Payload)
    | Claim(op: Id, token: Token, lost: bool)
    | Begin(lost: bool, sent: bool)
    | Serve(reply: Reply, faults: set<Fault>, inbox: map<Id, Restore.Artifacts>, node: State)
    | GiveUp(error: Error)
    | Report(lost: bool)
    | Crash
    | Expire(op: Id)
    | Retry(op: Id)

  /** The node's configuration, and the tenant the theorems speak about. */
  datatype World = World(config: Config, tenant: Id)

  predicate Mine(w: World, p: Payload) { TenantOf(p) == w.tenant }

  /** A new job: its id is fresh, and so is its tenant's unless the tenant is pending or failed. */
  ghost predicate MayCreate(s: System, op: Id, p: Payload, tenant: TenantRow) {
    && IsJob(p) && OperationOf(p) == op && op !in s.rows
    && if TenantOf(p) in s.tenants then
         var was := s.tenants[TenantOf(p)];
         && was.status in {Pending, TenantFailed} && (p.ForRestore? ==> was.status == Pending && was.database == None)
         && tenant == was.(status := Provisioning, database := if p.ForRestore? then Some(NameOf(p)) else was.database)
       else
         && tenant.status in {Pending, Provisioning} && tenant.database in {None, Some(NameOf(p))}
         && forall n :: n in s.node.databases && s.node.databases[n].contents.marker.Some? ==>
              s.node.databases[n].contents.marker.value.tenant != TenantOf(p)
  }

  /** requestCleanup, the cleanup of an expired trial and createBackupJob: a ready tenant or an expired
      trial, its database, and a ready provisioning row of it. */
  predicate MayFollowUp(s: System, op: Id, p: Payload) {
    && !IsJob(p) && OperationOf(p) == op && op !in s.rows
    && TenantOf(p) in s.tenants
    && var tenant := s.tenants[TenantOf(p)];
    && (tenant.status == TenantReady || (p.ForCleanup? && tenant.environment == Trial && tenant.status == Suspended))
    && tenant.database == Some(NameOf(p))
    && OriginOf(p) in s.ready && s.ready[OriginOf(p)] == Identity(TenantOf(p), TemplateOf(p))
    && (p.ForCleanup? ==> p.cleanup.environment == s.tenants[TenantOf(p)].environment)
  }

  ghost predicate Served(config: Config, p: Payload, s: State, r: Reply, s': State, faults: set<Fault>,
                         inbox: map<Id, Restore.Artifacts>) {
    match p
    case ForProvision(req) => Provisioner.TrialEffect(config, req, s, r, s', faults)
    case ForRestore(req) => Restore.Effect(config, req, inbox, s, r, s', faults)
    case ForCleanup(req) => Cleanup.Effect(config, req, s, r, s', faults)
    case ForBackup(req) => s' == s && exists ws, ws' :: Backup.Effect(config, req, s, ws, r, ws', faults)
  }

  /** The row, tenant and lease changes of an accepted terminal report. */
  function Settle(s: System, op: Id, success: bool): System
    requires op in s.rows && TenantOf(s.rows[op]) in s.tenants
  {
    var p := s.rows[op];
    var t := TenantOf(p);
    s.(states := s.states[op := if success then Completed else FailedState],
       leases := s.leases - {op},
       tenants := s.tenants[t := if success then AfterSuccess(s.tenants[t], p) else AfterFailure(s.tenants[t], p)],
       ready := if success && IsJob(p) && op !in s.ready then s.ready[op := Identity(t, TemplateOf(p))] else s.ready)
  }

  ghost predicate CreateJobStep(s: System, op: Id, p: Payload, tenant: TenantRow, s': System) {
    && MayCreate(s, op, p, tenant)
    && s' == s.(rows := s.rows[op := p], states := s.states[op := Waiting], tenants := s.tenants[TenantOf(p) := tenant])
  }

  /** A tenant has at most one cleanup row; requesting it suspends the tenant. */
  ghost predicate CreateFollowUpStep(s: System, op: Id, p: Payload, s': System) {
    && MayFollowUp(s, op, p)
    && (p.ForCleanup? ==>
          forall k :: k in s.rows && s.rows[k].ForCleanup? ==> TenantOf(s.rows[k]) != TenantOf(p))
    && s' == s.(rows := s.rows[op := p], states := s.states[op := Waiting],
                tenants := if p.ForCleanup? then Restatus(s.tenants, TenantOf(p), Suspended) else s.tenants)
  }

  function Restatus(tenants: map<Id, TenantRow>, t: Id, status: TenantStatus): map<Id, TenantRow>
    requires t in tenants
  {
    tenants[t := tenants[t].(status := status)]
  }

  predicate LeaseHeld(s: System, op: Id, token: Token) { op in s.leases && s.leases[op] == token }

  ghost predicate ClaimStep(s: System, op: Id, token: Token, lost: bool, s': System) {
    && s.agent.Idle? && InState(s, op, {Waiting}) && op !in s.leases
    && s' == s.(states := s.states[op := Dispatched], leases := s.leases[op := token],
                agent := if lost then Idle else Agent.Claimed(op, token))
  }

  /** The agent reports `running` and, once that is acknowledged, sends the request to the server. */
  ghost predicate BeginStep(s: System, lost: bool, sent: bool, s': System) {
    && s.agent.Claimed?
    && var op, token := s.agent.op, s.agent.token;
    || s' == s.(agent := Idle)
    || (LeaseHeld(s, op, token) && InState(s, op, {Dispatched, Running})
        && s' == s.(states := s.states[op := Running],
                    agent := if lost then Idle
                             else if sent then AwaitsReply(op, token, s.serial)
                             else Agent.Holds(op, token, Failed(CommandUnavailable)),
                    queue := if !lost && sent then s.queue + [Sent(op, s.serial)] else s.queue,
                    serial := s.serial + 1))
  }

  predicate ReportAccepted(s: System, op: Id, token: Token, success: bool) {
    && LeaseHeld(s, op, token) && op in s.rows && op in s.states && Accepts(s.rows[op], s.states[op], success)
    && TenantOf(s.rows[op]) in s.tenants
  }

  /** A report may always be turned down, since the lease may have lapsed, and its answer may be lost. */
  ghost predicate ReportStep(s: System, lost: bool, s': System) {
    && s.agent.Holds?
    && var op, token, success := s.agent.op, s.agent.token, !s.agent.reply.Failed?;
    || s' == s || s' == s.(agent := Idle)
    || (ReportAccepted(s, op, token, success) && s' == Settle(s, op, success).(agent := if lost then s.agent else Idle))
  }

  ghost predicate ServeStep(w: World, s: System, a: Action, s': System) {
    && a.Serve? && s.queue != [] && s.queue[0].op in s.rows
    && Served(w.config, s.rows[s.queue[0].op], s.node, a.reply, a.node, a.faults, a.inbox)
    && s' == s.(node := a.node, queue := s.queue[1..],
                agent := if s.agent.AwaitsReply? && s.agent.serial == s.queue[0].serial
                         then Agent.Holds(s.agent.op, s.agent.token, a.reply) else s.agent)
  }

  /** Lease expiry requeues a restore and fails everything else. */
  ghost predicate ExpireStep(s: System, op: Id, s': System) {
    && InState(s, op, {Dispatched, Running}) && op in s.leases
    && TenantOf(s.rows[op]) in s.tenants
    && var p, t := s.rows[op], TenantOf(s.rows[op]);
    s' == s.(states := s.states[op := if p.ForRestore? then Waiting else FailedState], leases := s.leases - {op},
             tenants := if p.ForRestore? then s.tenants else s.tenants[t := AfterFailure(s.tenants[t], p)])
  }

  /** An administrator retries a failed provisioning or cleanup. */
  ghost predicate RetryStep(s: System, op: Id, s': System) {
    && InState(s, op, {FailedState})
    && var p, t := s.rows[op], TenantOf(s.rows[op]);
    && (p.ForProvision? || p.ForCleanup?) && t in s.tenants
    && (p.ForCleanup? ==> s.tenants[t].status == TenantFailed && s.tenants[t].database == Some(NameOf(p)))
    && s' == s.(states := s.states[op := Waiting], leases := s.leases - {op},
                tenants := Restatus(s.tenants, t, if p.ForCleanup? then Suspended else Provisioning))
  }

  ghost predicate Next(w: World, s: System, a: Action, s': System) {
    match a
    case CreateJob(op, p, tenant) => CreateJobStep(s, op, p, tenant, s')
    case CreateFollowUp(op, p) => CreateFollowUpStep(s, op, p, s')
    case Claim(op, token, lost) => ClaimStep(s, op, token, lost, s')
    case Begin(lost, sent) => BeginStep(s, lost, sent, s')
    case Serve(_, _, _, _) => ServeStep(w, s, a, s')
    case GiveUp(error) =>
      s.agent.AwaitsReply? && s' == s.(agent := Agent.Holds(s.agent.op, s.agent.token, Failed(error)))
    case Report(lost) => ReportStep(s, lost, s')
    case Crash => s' == s.(agent := Idle)
    case Expire(op) => ExpireStep(s, op, s')
    case Retry(op) => RetryStep(s, op, s')
  }

  ghost function Trans(w: World): (System, Action, System) -> bool { (s, a, s') => Next(w, s, a, s') }

  /** The world's tenant gets one job, under a name that no other tenant's row has, and other tenants get
      any number of jobs under any names but that one. */
  ghost predicate OneJob(w: World, s: System, a: Action) {
    a.CreateJob? ==>
      if Mine(w, a.payload) then
        && w.tenant !in s.tenants
        && (forall k :: k in s.rows ==> NameOf(s.rows[k]) != NameOf(a.payload))
        && (forall t :: t in s.tenants ==> s.tenants[t].database != Some(NameOf(a.payload)))
      else
        forall k :: IsMyJob(w, s.rows, k) ==> NameOf(s.rows[k]) != NameOf(a.payload)
  }

  ghost function OneJobTrans(w: World): (System, Action, System) -> bool {
    (s, a, s') => Next(w, s, a, s') && OneJob(w, s, a)
  }

  /** An empty control plane above a node whose golden databases are unmarked. */
  ghost predicate Start(w: World, s: System) {
    && s.rows == map[] && s.states == map[] && s.leases == map[] && s.tenants == map[] && s.ready == map[]
    && s.agent == Idle && s.queue == [] && NodeIsolation.GoldenUnmarked(w.config, s.node)
  }

  // ---------------------------------------------------------------------------------------
  // The invariant
  // ---------------------------------------------------------------------------------------

  predicate IsJobRow(rows: map<Id, Payload>, j: Id) { j in rows && IsJob(rows[j]) }

  predicate IsMyJob(w: World, rows: map<Id, Payload>, j: Id) { IsJobRow(rows, j) && Mine(w, rows[j]) }

  predicate IsCompleted(states: map<Id, JobState>, j: Id) { j in states && states[j] == Completed }

  /** Ids are the keys, and the tenant has one job, whose name no row of another tenant has. */
  ghost predicate RowsInv(w: World, rows: map<Id, Payload>) {
    && (forall i :: i in rows ==> OperationOf(rows[i]) == i)
    && (forall i, k :: IsMyJob(w, rows, i) && IsMyJob(w, rows, k) ==> i == k)
    && (forall i, k :: i in rows && !Mine(w, rows[i]) && IsMyJob(w, rows, k) ==> NameOf(rows[i]) != NameOf(rows[k]))
  }

  /** The ready provisioning rows are those of the completed jobs: a validated restore has exactly one. */
  ghost predicate ReadyInv(rows: map<Id, Payload>, states: map<Id, JobState>, ready: map<Id, Identity>) {
    && (forall i :: i in ready <==> IsJobRow(rows, i) && IsCompleted(states, i))
    && (forall i :: i in ready ==> ready[i] == Identity(TenantOf(rows[i]), TemplateOf(rows[i])))
  }

  /** A cleanup or backup row names a ready job of its tenant and that job's database. */
  predicate Follows(p: Payload, rows: map<Id, Payload>, ready: map<Id, Identity>)
    requires !IsJob(p)
  {
    var o := OriginOf(p);
    && IsJobRow(rows, o) && o in ready
    && TenantOf(rows[o]) == TenantOf(p) && TemplateOf(rows[o]) == TemplateOf(p) && NameOf(rows[o]) == NameOf(p)
  }

  ghost predicate FollowInv(w: World, rows: map<Id, Payload>, ready: map<Id, Identity>) {
    forall i :: i in rows && !IsJob(rows[i]) && Mine(w, rows[i]) ==> Follows(rows[i], rows, ready)
  }

  /** The tenant's database column is empty or names its job's database; the others' never do. */
  ghost predicate TenantsInv(w: World, rows: map<Id, Payload>, tenants: map<Id, TenantRow>) {
    && (forall i :: i in rows ==> TenantOf(rows[i]) in tenants)
    && (forall t, j :: t in tenants && tenants[t].database.Some? && IsMyJob(w, rows, j) ==>
          (tenants[t].database == Some(NameOf(rows[j])) <==> t == w.tenant))
  }

  /** Absent, or marked with the job's own marker. */
  predicate Settled(databases: map<Name, Database>, p: Payload) {
    NameOf(p) in databases ==> MarkerOf(databases, NameOf(p)) == Some(OwnMarker(p))
  }

  /** A marker naming a provisioning's tenant and template names its operation too. */
  predicate Honest(databases: map<Name, Database>, p: Payload) {
    p.ForProvision? && Matches(MarkerOf(databases, NameOf(p)), TenantOf(p), TemplateOf(p)) ==> Settled(databases, p)
  }

  ghost predicate PlacesInv(w: World, rows: map<Id, Payload>, ready: map<Id, Identity>,
                            databases: map<Name, Database>) {
    forall j :: IsMyJob(w, rows, j) ==> Honest(databases, rows[j]) && (j in ready ==> Settled(databases, rows[j]))
  }

  /** No claim, request or failed result of a completed job is on its way. */
  predicate Open(s: System, op: Id) { op in s.rows && op !in s.ready }

  ghost predicate QueueInv(s: System) {
    && (forall k :: 0 <= k < |s.queue| ==> Open(s, s.queue[k].op) && s.queue[k].serial < s.serial)
    && (forall i, k :: 0 <= i < k < |s.queue| ==> s.queue[i].serial < s.queue[k].serial)
  }

  ghost predicate AgentInv(w: World, s: System) {
    match s.agent
    case Idle => true
    case Claimed(op, _) => Open(s, op)
    case AwaitsReply(op, _, serial) => Open(s, op) && s.queue != [] && s.queue[|s.queue| - 1] == Sent(op, serial)
    case Holds(op, _, reply) =>
      && op in s.rows
      && (reply.Failed? ==> Open(s, op))
      && (!reply.Failed? && IsJob(s.rows[op]) ==>
         s.queue == [] && (Mine(w, s.rows[op]) ==> Settled(s.node.databases, s.rows[op])))
  }

  ghost predicate Inv(w: World, s: System) {
    && NodeIsolation.GoldenUnmarked(w.config, s.node)
    && RowsInv(w, s.rows)
    && ReadyInv(s.rows, s.states, s.ready)
    && FollowInv(w, s.rows, s.ready)
    && TenantsInv(w, s.rows, s.tenants)
    && PlacesInv(w, s.rows, s.ready, s.node.databases)
    && QueueInv(s)
    && AgentInv(w, s)
  }

  /** A state change that neither completes a job nor reopens one. */
  predicate Stays(s: System, op: Id, state: JobState) {
    op in s.rows && (IsJob(s.rows[op]) ==> op !in s.ready && state != Completed)
  }

  /** A change of one state, of leases and of tenants that keep or lose their database, with an agent still in order. */
  lemma BookkeepingKeepsInv(w: World, s: System, op: Id, state: JobState, s': System)
    requires Inv(w, s) && Stays(s, op, state)
    requires s' == s.(states := s.states[op := state], leases := s'.leases, tenants := s'.tenants, agent := s'.agent)
    requires forall t :: t in s.tenants ==> t in s'.tenants && s'.tenants[t].database in {s.tenants[t].database, None}
    requires forall t :: t in s'.tenants ==> t in s.tenants
    requires AgentInv(w, s')
    ensures Inv(w, s')
  {
    hide RowsInv, FollowInv, PlacesInv, AgentInv;
    assert TenantsInv(w, s'.rows, s'.tenants);
    assert ReadyInv(s'.rows, s'.states, s'.ready);
  }

  // -- the steps ------------------------------------------------------------------------------

  lemma JobKeepsRows(w: World, s: System, a: Action)
    requires RowsInv(w, s.rows) && TenantsInv(w, s.rows, s.tenants) && OneJob(w, s, a)
    requires a.CreateJob? && a.op !in s.rows && IsJob(a.payload) && OperationOf(a.payload) == a.op
    ensures RowsInv(w, s.rows[a.op := a.payload])
  {
    var rows' := s.rows[a.op := a.payload];
    assert forall k :: IsMyJob(w, rows', k) ==> k == a.op || (IsMyJob(w, s.rows, k) && rows'[k] == s.rows[k]);
  }

  lemma FollowUpKeepsRows(w: World, rows: map<Id, Payload>, op: Id, p: Payload)
    requires RowsInv(w, rows) && op !in rows && OperationOf(p) == op && !IsJob(p)
    requires !Mine(w, p) ==> forall k :: IsMyJob(w, rows, k) ==> NameOf(p) != NameOf(rows[k])
    ensures RowsInv(w, rows[op := p])
  {
    var rows' := rows[op := p];
    assert forall k :: IsMyJob(w, rows', k) ==> IsMyJob(w, rows, k) && rows'[k] == rows[k];
  }

  lemma RowKeepsReady(s: System, op: Id, p: Payload)
    requires ReadyInv(s.rows, s.states, s.ready) && op !in s.rows
    ensures ReadyInv(s.rows[op := p], s.states[op := Waiting], s.ready) && op !in s.ready
  {
  }

  lemma RowKeepsFollow(w: World, rows: map<Id, Payload>, ready: map<Id, Identity>, op: Id, p: Payload)
    requires FollowInv(w, rows, ready) && op !in rows && (!IsJob(p) && Mine(w, p) ==> Follows(p, rows, ready))
    ensures FollowInv(w, rows[op := p], ready)
  {
  }

  lemma RowKeepsPlaces(w: World, rows: map<Id, Payload>, ready: map<Id, Identity>, databases: map<Name, Database>,
                       op: Id, p: Payload)
    requires PlacesInv(w, rows, ready, databases) && op !in rows && op !in ready
    requires IsJob(p) && Mine(w, p) ==> Honest(databases, p)
    ensures PlacesInv(w, rows[op := p], ready, databases)
  {
    var rows' := rows[op := p];
    forall j | IsMyJob(w, rows', j)
      ensures Honest(databases, rows'[j]) && (j in ready ==> Settled(databases, rows'[j]))
    {
      assert j == op || IsMyJob(w, rows, j);
    }
  }

  lemma RowKeepsTraffic(w: World, s: System, op: Id, p: Payload, s': System)
    requires QueueInv(s) && AgentInv(w, s) && op !in s.rows
    requires s' == s.(rows := s.rows[op := p], states := s'.states, tenants := s'.tenants)
    ensures QueueInv(s') && AgentInv(w, s')
  {
  }

  lemma CreateJobKeepsTenants(w: World, s: System, a: Action, s': System)
    requires TenantsInv(w, s.rows, s.tenants) && a.CreateJob? && OneJob(w, s, a)
    requires CreateJobStep(s, a.op, a.payload, a.tenant, s')
    ensures TenantsInv(w, s'.rows, s'.tenants)
  {
    assert forall k :: IsMyJob(w, s'.rows, k) ==> k == a.op || (IsMyJob(w, s.rows, k) && s'.rows[k] == s.rows[k]);
  }

  lemma CreateJobKeepsInv(w: World, s: System, a: Action, s': System)
    requires Inv(w, s) && a.CreateJob? && OneJob(w, s, a) && CreateJobStep(s, a.op, a.payload, a.tenant, s')
    ensures Inv(w, s')
  {
    assert Mine(w, a.payload) ==> Honest(s.node.databases, a.payload);
    hide RowsInv, ReadyInv, FollowInv, TenantsInv, PlacesInv, QueueInv, AgentInv, Honest;
    CreateJobKeepsTenants(w, s, a, s');
    JobKeepsRows(w, s, a);
    hide OneJob;
    RowKeepsReady(s, a.op, a.payload);
    RowKeepsFollow(w, s.rows, s.ready, a.op, a.payload);
    RowKeepsPlaces(w, s.rows, s.ready, s.node.databases, a.op, a.payload);
    RowKeepsTraffic(w, s, a.op, a.payload, s');
  }

  lemma FollowUpFollows(w: World, s: System, op: Id, p: Payload)
    requires Inv(w, s) && MayFollowUp(s, op, p)
    ensures Mine(w, p) ==> Follows(p, s.rows, s.ready)
    ensures !Mine(w, p) ==> forall k :: IsMyJob(w, s.rows, k) ==> NameOf(p) != NameOf(s.rows[k])
  {
    hide PlacesInv, QueueInv, AgentInv, FollowInv, RowsInv;
    assert IsJobRow(s.rows, OriginOf(p));
  }

  lemma FollowUpKeepsTenants(w: World, s: System, op: Id, p: Payload, s': System)
    requires TenantsInv(w, s.rows, s.tenants) && CreateFollowUpStep(s, op, p, s')
    ensures TenantsInv(w, s'.rows, s'.tenants)
  {
    assert forall k :: IsMyJob(w, s'.rows, k) ==> IsMyJob(w, s.rows, k) && s'.rows[k] == s.rows[k];
  }

  lemma CreateFollowUpKeepsInv(w: World, s: System, op: Id, p: Payload, s': System)
    requires Inv(w, s) && CreateFollowUpStep(s, op, p, s')
    ensures Inv(w, s')
  {
    FollowUpFollows(w, s, op, p);
    FollowUpKeepsTenants(w, s, op, p, s');
    hide RowsInv, ReadyInv, FollowInv, TenantsInv, PlacesInv, QueueInv, AgentInv, Follows;
    FollowUpKeepsRows(w, s.rows, op, p);
    RowKeepsReady(s, op, p);
    RowKeepsFollow(w, s.rows, s.ready, op, p);
    RowKeepsPlaces(w, s.rows, s.ready, s.node.databases, op, p);
    RowKeepsTraffic(w, s, op, p, s');
  }

  lemma ClaimKeepsInv(w: World, s: System, op: Id, token: Token, lost: bool, s': System)
    requires Inv(w, s) && ClaimStep(s, op, token, lost, s')
    ensures Inv(w, s')
  {
    hide RowsInv, FollowInv, TenantsInv, PlacesInv;
    BookkeepingKeepsInv(w, s, op, Dispatched, s');
  }

  lemma BeginKeepsInv(w: World, s: System, lost: bool, sent: bool, s': System)
    requires Inv(w, s) && BeginStep(s, lost, sent, s')
    ensures Inv(w, s')
  {
    hide RowsInv, FollowInv, TenantsInv, PlacesInv;
    if s' != s.(agent := Idle) {
      var s1 := s.(states := s'.states, agent := Idle);
      BookkeepingKeepsInv(w, s, s.agent.op, Running, s1);
    }
  }

  lemma CompletionKeepsTenants(w: World, s: System, op: Id)
    requires RowsInv(w, s.rows) && TenantsInv(w, s.rows, s.tenants)
    requires IsJobRow(s.rows, op) && TenantOf(s.rows[op]) in s.tenants
    ensures TenantsInv(w, s.rows, Settle(s, op, true).tenants)
  {
    var p, tenants' := s.rows[op], Settle(s, op, true).tenants;
    assert tenants'[TenantOf(p)].database == Some(NameOf(p));
    assert Mine(w, p) ==> IsMyJob(w, s.rows, op);
  }

  lemma CompletionKeepsReady(w: World, s: System, op: Id)
    requires ReadyInv(s.rows, s.states, s.ready)
    requires IsJobRow(s.rows, op) && TenantOf(s.rows[op]) in s.tenants && op !in s.ready
    ensures var s' := Settle(s, op, true); ReadyInv(s'.rows, s'.states, s'.ready)
  {
  }

  /** A job's terminal report: the queue is empty and the database is its own. */
  lemma CompletionKeepsInv(w: World, s: System, op: Id)
    requires Inv(w, s) && s.agent.Holds? && s.agent.op == op && !s.agent.reply.Failed?
    requires op in s.rows && IsJob(s.rows[op]) && TenantOf(s.rows[op]) in s.tenants && op !in s.ready
    ensures Inv(w, Settle(s, op, true))
  {
    hide RowsInv, TenantsInv, ReadyInv;
    CompletionKeepsTenants(w, s, op);
    CompletionKeepsReady(w, s, op);
  }

  lemma AcceptanceKeepsInv(w: World, s: System, op: Id, success: bool)
    requires Inv(w, s) && s.agent.Holds? && s.agent.op == op && success == !s.agent.reply.Failed?
    requires ReportAccepted(s, op, s.agent.token, success)
    ensures Inv(w, Settle(s, op, success))
  {
    assert op !in s.ready by { hide RowsInv, FollowInv, TenantsInv, PlacesInv, QueueInv; }
    hide RowsInv, FollowInv, ReadyInv, TenantsInv, PlacesInv, QueueInv;
    if success && IsJob(s.rows[op]) {
      CompletionKeepsInv(w, s, op);
    } else {
      BookkeepingKeepsInv(w, s, op, if success then Completed else FailedState, Settle(s, op, success));
    }
  }

  lemma ReportKeepsInv(w: World, s: System, lost: bool, s': System)
    requires Inv(w, s) && ReportStep(s, lost, s')
    ensures Inv(w, s')
  {
    hide RowsInv, FollowInv, ReadyInv, TenantsInv, PlacesInv;
    if s' != s && s' != s.(agent := Idle) {
      AcceptanceKeepsInv(w, s, s.agent.op, !s.agent.reply.Failed?);
      hide Settle;
    }
  }

  lemma ExpireKeepsInv(w: World, s: System, op: Id, s': System)
    requires Inv(w, s) && ExpireStep(s, op, s')
    ensures Inv(w, s')
  {
    hide RowsInv, FollowInv, TenantsInv, PlacesInv, QueueInv;
    BookkeepingKeepsInv(w, s, op, if s.rows[op].ForRestore? then Waiting else FailedState, s');
  }

  lemma RetryKeepsInv(w: World, s: System, op: Id, s': System)
    requires Inv(w, s) && RetryStep(s, op, s')
    ensures Inv(w, s')
  {
    hide RowsInv, FollowInv, TenantsInv, PlacesInv, QueueInv;
    BookkeepingKeepsInv(w, s, op, Waiting, s');
  }

  // -- one request on the node ----------------------------------------------------------------

  function AsNodeAction(p: Payload, r: Reply, faults: set<Fault>, inbox: map<Id, Restore.Artifacts>)
    : NodeIsolation.Action
  {
    match p
    case ForProvision(req) => NodeIsolation.ProvisionTrial(req, r, faults)
    case ForRestore(req) => NodeIsolation.RunRestore(req, inbox, r, faults)
    case ForCleanup(req) => NodeIsolation.Clean(req, r, faults)
    case ForBackup(_) => NodeIsolation.RunBackup
  }

  lemma ServedIsNodeStep(config: Config, p: Payload, s: State, r: Reply, s': State, faults: set<Fault>,
                         inbox: map<Id, Restore.Artifacts>)
    requires Served(config, p, s, r, s', faults, inbox)
    ensures NodeIsolation.Next(config, s, AsNodeAction(p, r, faults, inbox), s')
  {
  }

  lemma ServedKeepsGolden(config: Config, s: State, a: NodeIsolation.Action, s': State)
    requires NodeIsolation.Next(config, s, a, s') && NodeIsolation.GoldenUnmarked(config, s)
    ensures NodeIsolation.GoldenUnmarked(config, s')
  {
    hide NodeIsolation.Next;
    forall k | k in config.profiles
      ensures config.profiles[k].source in s'.databases
        && s'.databases[config.profiles[k].source].contents.marker == None
    {
      NodeIsolation.StepKeepsGolden(config, s, a, s', config.profiles[k].source, 0);
    }
  }

  /** A request changes no database but its own. */
  lemma ServedElsewhere(config: Config, p: Payload, s: State, r: Reply, s': State, faults: set<Fault>,
                        inbox: map<Id, Restore.Artifacts>, n: Name)
    requires Served(config, p, s, r, s', faults, inbox) && n != NameOf(p)
    ensures (n in s.databases <==> n in s'.databases) && (n in s.databases ==> s'.databases[n] == s.databases[n])
  {
    if s' != s {
      match p
      case ForProvision(req) => NodeIsolation.SubtractedName(s.databases, s'.databases, req.database, n);
      case ForRestore(req) => NodeIsolation.SubtractedName(s.databases, s'.databases, req.database, n);
      case ForCleanup(req) =>
      case ForBackup(_) =>
    }
  }

  lemma ServedProvision(config: Config, p: Payload, s: State, r: Reply, s': State, faults: set<Fault>,
                        inbox: map<Id, Restore.Artifacts>)
    requires p.ForProvision? && Served(config, p, s, r, s', faults, inbox)
    requires NodeIsolation.GoldenUnmarked(config, s) && Honest(s.databases, p)
    ensures Honest(s'.databases, p) && (!r.Failed? ==> Settled(s'.databases, p))
  {
    var req := p.provision;
    if Provisioner.Gate(config, req).None? {
      assert config.profiles[req.template].source in s.databases;
    }
  }

  lemma ServedOther(config: Config, p: Payload, s: State, r: Reply, s': State, faults: set<Fault>,
                    inbox: map<Id, Restore.Artifacts>, job: Payload)
    requires !p.ForProvision? && Served(config, p, s, r, s', faults, inbox)
    requires IsJob(job) && NameOf(job) == NameOf(p) && (p.ForRestore? ==> job == p)
    requires Honest(s.databases, job)
    ensures Honest(s'.databases, job)
    ensures p.ForRestore? && !r.Failed? ==> Settled(s'.databases, job)
    ensures !p.ForRestore? && Settled(s.databases, job) ==> Settled(s'.databases, job)
  {
  }

  /** The job whose database the request at the head of the queue is about. */
  function JobOf(p: Payload): Id { if IsJob(p) then OperationOf(p) else OriginOf(p) }

  /** A request of the tenant is about the database of its one job. */
  lemma ServeKeepsMyPlace(w: World, s: System, a: Action, s': System)
    requires Inv(w, s) && ServeStep(w, s, a, s') && Mine(w, s.rows[s.queue[0].op])
    ensures PlacesInv(w, s'.rows, s'.ready, s'.node.databases)
    ensures var p := s.rows[s.queue[0].op]; IsJob(p) && !a.reply.Failed? ==> Settled(s'.node.databases, p)
  {
    hide Served, TenantsInv, AgentInv, ReadyInv;
    var p := s.rows[s.queue[0].op];
    assert Open(s, s.queue[0].op);
    var home := JobOf(p);
    assert IsMyJob(w, s.rows, home) && NameOf(s.rows[home]) == NameOf(p)
      && (IsJob(p) <==> home !in s.ready || s.rows[home] == p);
    if p.ForProvision? {
      ServedProvision(w.config, p, s.node, a.reply, a.node, a.faults, a.inbox);
    } else {
      ServedOther(w.config, p, s.node, a.reply, a.node, a.faults, a.inbox, s.rows[home]);
    }
  }

  /** A request of another tenant is about another name. */
  lemma ServeSparesMyPlace(w: World, s: System, a: Action, s': System)
    requires RowsInv(w, s.rows) && PlacesInv(w, s.rows, s.ready, s.node.databases)
    requires ServeStep(w, s, a, s') && !Mine(w, s.rows[s.queue[0].op])
    ensures PlacesInv(w, s'.rows, s'.ready, s'.node.databases)
  {
    hide Served;
    forall j | IsMyJob(w, s.rows, j)
      ensures Honest(s'.node.databases, s.rows[j]) && (j in s.ready ==> Settled(s'.node.databases, s.rows[j]))
    {
      ServedElsewhere(w.config, s.rows[s.queue[0].op], s.node, a.reply, a.node, a.faults, a.inbox, NameOf(s.rows[j]));
    }
  }

  lemma ServeKeepsPlaces(w: World, s: System, a: Action, s': System)
    requires Inv(w, s) && ServeStep(w, s, a, s')
    ensures PlacesInv(w, s'.rows, s'.ready, s'.node.databases)
    ensures var p := s.rows[s.queue[0].op]; IsJob(p) && Mine(w, p) && !a.reply.Failed? ==> Settled(s'.node.databases, p)
  {
    hide Served, RowsInv, TenantsInv, FollowInv, ReadyInv, PlacesInv, QueueInv, AgentInv;
    if Mine(w, s.rows[s.queue[0].op]) {
      ServeKeepsMyPlace(w, s, a, s');
    } else {
      ServeSparesMyPlace(w, s, a, s');
    }
  }

  lemma ServeKeepsTraffic(w: World, s: System, a: Action, s': System)
    requires QueueInv(s) && AgentInv(w, s) && ServeStep(w, s, a, s')
    requires var p := s.rows[s.queue[0].op];
      IsJob(p) && Mine(w, p) && !a.reply.Failed? ==> Settled(s'.node.databases, p)
    ensures QueueInv(s') && AgentInv(w, s')
  {
    hide Served, Settled;
    assert forall k :: 0 <= k < |s'.queue| ==> s'.queue[k] == s.queue[k + 1];
  }

  lemma ServeKeepsInv(w: World, s: System, a: Action, s': System)
    requires Inv(w, s) && ServeStep(w, s, a, s')
    ensures Inv(w, s')
  {
    ServeKeepsPlaces(w, s, a, s');
    ServeKeepsTraffic(w, s, a, s');
    hide RowsInv, ReadyInv, FollowInv, TenantsInv, PlacesInv, QueueInv, AgentInv, Served;
    var p := s.rows[s.queue[0].op];
    ServedIsNodeStep(w.config, p, s.node, a.reply, a.node, a.faults, a.inbox);
    ServedKeepsGolden(w.config, s.node, AsNodeAction(p, a.reply, a.faults, a.inbox), a.node);
  }

  lemma StepKeepsInv(w: World, s: System, a: Action, s': System)
    requires Inv(w, s) && Next(w, s, a, s') && OneJob(w, s, a)
    ensures Inv(w, s')
  {
    hide CreateJobStep, OneJob, CreateFollowUpStep, ClaimStep, BeginStep, ReportStep, ServeStep, ExpireStep, RetryStep;
    hide RowsInv, ReadyInv, FollowInv, TenantsInv, PlacesInv;
    match a
    case CreateJob(_, _, _) => CreateJobKeepsInv(w, s, a, s');
    case CreateFollowUp(op, p) => CreateFollowUpKeepsInv(w, s, op, p, s');
    case Claim(op, token, lost) => ClaimKeepsInv(w, s, op, token, lost, s');
    case Begin(lost, sent) => BeginKeepsInv(w, s, lost, sent, s');
    case Serve(_, _, _, _) => ServeKeepsInv(w, s, a, s');
    case GiveUp(_) =>
    case Report(lost) => ReportKeepsInv(w, s, lost, s');
    case Crash =>
    case Expire(op) => ExpireKeepsInv(w, s, op, s');
    case Retry(op) => RetryKeepsInv(w, s, op, s');
  }

  // ---------------------------------------------------------------------------------------
  // Whole runs
  // ---------------------------------------------------------------------------------------

  ghost predicate Reachable(w: World, s: System) { exists s0 :: Start(w, s0) && Leads(Trans(w), s0, s) }

  /** Reached while the world's tenant got one job with a name of its own. */
  ghost predicate ReachableWithOneJob(w: World, s: System) { exists s0 :: Start(w, s0) && Leads(OneJobTrans(w), s0, s) }

  lemma ReachableInv(w: World, s: System)
    requires ReachableWithOneJob(w, s)
    ensures Inv(w, s)
  {
    var s0 :| Start(w, s0) && Leads(OneJobTrans(w), s0, s);
    forall s, a, s' | Inv(w, s) && OneJobTrans(w)(s, a, s') ensures Inv(w, s') {
      StepKeepsInv(w, s, a, s');
    }
    LeadsKeeps(OneJobTrans(w), (s: System) => Inv(w, s), s0, s);
  }

  /** In every reachable joint state, whatever jobs, retries and names the other tenants have: the
      database of a ready tenant with one job, provisioned or restored, is absent or carries exactly the
      tenant, the template and the id of its ready provisioning row. */
  lemma OwnershipAgreement(w: World, s: System, j: Id)
    requires ReachableWithOneJob(w, s) && j in s.ready && s.ready[j].tenant == w.tenant
    ensures IsMyJob(w, s.rows, j) && s.ready[j] == Identity(w.tenant, TemplateOf(s.rows[j]))
    ensures var n := NameOf(s.rows[j]);
      n in s.node.databases ==> MarkerOf(s.node.databases, n) == Some(Marker(w.tenant, s.ready[j].template, j))
  {
    ReachableInv(w, s);
    hide FollowInv, TenantsInv, QueueInv, AgentInv;
    assert IsMyJob(w, s.rows, j);
  }

  /** So no cleanup or backup request of that tenant ever fails with a marker mismatch, unless the marker
      query itself failed. */
  lemma NoMarkerMismatch(w: World, s: System, a: Action, s': System)
    requires ReachableWithOneJob(w, s) && Next(w, s, a, s') && a.Serve? && Reading !in a.faults
    requires !IsJob(s.rows[s.queue[0].op]) && Mine(w, s.rows[s.queue[0].op])
    ensures a.reply != Failed(MarkerMismatch)
  {
    ReachableInv(w, s);
    hide TenantsInv, QueueInv, AgentInv;
    var p := s.rows[s.queue[0].op];
    assert Follows(p, s.rows, s.ready);
    assert IsMyJob(w, s.rows, OriginOf(p));
    assert Settled(s.node.databases, s.rows[OriginOf(p)]);
  }

  /** A tenant above all those that get a job in the run. */
  function Stranger(actions: seq<Action>): Id {
    if actions == [] then 0
    else
      var a, rest := actions[|actions| - 1], Stranger(actions[..|actions| - 1]);
      if a.CreateJob? && TenantOf(a.payload) >= rest then TenantOf(a.payload) + 1 else rest
  }

  lemma {:induction false} StrangerGetsNoJob(actions: seq<Action>, i: nat)
    requires i < |actions| && actions[i].CreateJob?
    ensures TenantOf(actions[i].payload) < Stranger(actions)
    decreases |actions|
  {
    if i < |actions| - 1 { StrangerGetsNoJob(actions[..|actions| - 1], i); }
  }

  lemma StepKeepsStranger(w: World, s: System, a: Action, s': System)
    requires Next(w, s, a, s') && (a.CreateJob? ==> !Mine(w, a.payload))
    requires forall k :: !IsMyJob(w, s.rows, k)
    ensures OneJob(w, s, a) && forall k :: !IsMyJob(w, s'.rows, k)
  {
    hide Served;
    forall k ensures !IsMyJob(w, s'.rows, k) {
      assert !IsMyJob(w, s.rows, k);
      assert k in s'.rows ==> (k in s.rows && s'.rows[k] == s.rows[k]) || !IsJob(s'.rows[k]) || !Mine(w, s'.rows[k]);
    }
  }

  lemma {:induction false} RunKeepsStranger(w: World, states: seq<System>, actions: seq<Action>, i: nat)
    requires IsRun(Trans(w), states, actions) && states[0].rows == map[] && i <= |actions|
    requires w.tenant == Stranger(actions)
    ensures forall k :: !IsMyJob(w, states[i].rows, k)
    ensures i < |actions| ==> OneJobTrans(w)(states[i], actions[i], states[i + 1])
  {
    hide Next, OneJob;
    if i > 0 { RunKeepsStranger(w, states, actions, i - 1); }
    if i > 0 {
      assert Trans(w)(states[i - 1], actions[i - 1], states[i]);
      if actions[i - 1].CreateJob? { StrangerGetsNoJob(actions, i - 1); }
      StepKeepsStranger(w, states[i - 1], actions[i - 1], states[i]);
    }
    if i < |actions| {
      assert Trans(w)(states[i], actions[i], states[i + 1]);
      if actions[i].CreateJob? { StrangerGetsNoJob(actions, i); }
      StepKeepsStranger(w, states[i], actions[i], states[i + 1]);
    }
  }

  /** Every run is one in which some tenant has no job at all. */
  lemma ReachableForStranger(w: World, s: System) returns (w': World)
    requires Reachable(w, s)
    ensures ReachableWithOneJob(w', s)
  {
    var s0 :| Start(w, s0) && Leads(Trans(w), s0, s);
    var states: seq<System>, actions: seq<Action> :|
      IsRun(Trans(w), states, actions) && states[0] == s0 && states[|actions|] == s;
    w' := World(w.config, Stranger(actions));
    forall i | 0 <= i < |actions| ensures Trans(w')(states[i], actions[i], states[i + 1]) {
      assert Trans(w)(states[i], actions[i], states[i + 1]);
      SameConfig(w, w', states[i], actions[i], states[i + 1]);
    }
    assert IsRun(Trans(w'), states, actions);
    forall i | 0 <= i < |actions| ensures OneJobTrans(w')(states[i], actions[i], states[i + 1]) {
      RunKeepsStranger(w', states, actions, i);
    }
    assert IsRun(OneJobTrans(w'), states, actions);
    assert Start(w', s0);
  }

  lemma SameConfig(w: World, w': World, s: System, a: Action, s': System)
    requires w'.config == w.config && Next(w, s, a, s')
    ensures Next(w', s, a, s')
  {
    hide Served;
  }

  /** Every validated restore has its ready provisioning row, and every ready row has its job, whatever
      jobs and names the tenants have. */
  lemma ReadyRowsAreCompletedJobs(w: World, s: System, j: Id)
    requires Reachable(w, s)
    ensures j in s.ready <==> IsJobRow(s.rows, j) && IsCompleted(s.states, j)
  {
    var w' := ReachableForStranger(w, s);
    hide Reachable, ReachableWithOneJob;
    ReachableInv(w', s);
  }

  // ---------------------------------------------------------------------------------------
  // Two tenants with one database name, and two jobs of one tenant
  // ---------------------------------------------------------------------------------------

  lemma LeadsNext(w: World, s0: System, s: System, a: Action, s': System)
    requires Leads(Trans(w), s0, s) && Next(w, s, a, s')
    ensures Leads(Trans(w), s0, s')
  {
    LeadsStep(Trans(w), s0, s, a, s');
  }

  /** Ready to hand out op: the agent is idle, the server has nothing to do. */
  predicate Quiet(s: System, op: Id) {
    && s.agent.Idle? && s.queue == [] && s.leases == map[]
    && InState(s, op, {Waiting}) && TenantOf(s.rows[op]) in s.tenants
  }

  /** Claim, `running`, and the request is at the head of the queue. */
  lemma SendOp(w: World, s0: System, s: System, op: Id) returns (s': System)
    requires Leads(Trans(w), s0, s) && Quiet(s, op)
    ensures Leads(Trans(w), s0, s')
    ensures s' == s.(states := s.states[op := Running], leases := map[op := 0], agent := AwaitsReply(op, 0, s.serial),
                     queue := [Sent(op, s.serial)], serial := s.serial + 1)
  {
    var s1 := s.(states := s.states[op := Dispatched], leases := s.leases[op := 0], agent := Agent.Claimed(op, 0));
    LeadsNext(w, s0, s, Claim(op, 0, false), s1);
    s' := s1.(states := s1.states[op := Running], agent := AwaitsReply(op, 0, s.serial),
              queue := s1.queue + [Sent(op, s.serial)], serial := s.serial + 1);
    LeadsNext(w, s0, s1, Begin(false, true), s');
    assert s1.states[op := Running] == s.states[op := Running];
  }

  lemma ServeOp(w: World, s0: System, s: System, op: Id, reply: Reply, node: State) returns (s': System)
    requires Leads(Trans(w), s0, s) && Quiet(s, op)
    requires Served(w.config, s.rows[op], s.node, reply, node, {}, map[])
    ensures Leads(Trans(w), s0, s')
    ensures s' == s.(states := s.states[op := Running], leases := map[op := 0], agent := Agent.Holds(op, 0, reply),
                     queue := [], serial := s.serial + 1, node := node)
  {
    var s1 := SendOp(w, s0, s, op);
    s' := s1.(node := node, queue := s1.queue[1..], agent := Agent.Holds(op, 0, reply));
    hide Served;
    LeadsNext(w, s0, s1, Serve(reply, {}, map[], node), s');
  }

  /** An operation that is carried out and reported. */
  lemma CompleteOp(w: World, s0: System, s: System, op: Id, node: State) returns (s': System)
    requires Leads(Trans(w), s0, s) && Quiet(s, op) && op !in s.ready
    requires Served(w.config, s.rows[op], s.node, SuccessOf(s.rows[op]), node, {}, map[])
    ensures Leads(Trans(w), s0, s')
    ensures var p, t := s.rows[op], TenantOf(s.rows[op]);
      s' == s.(states := s.states[op := Completed], serial := s.serial + 1, node := node,
               tenants := s.tenants[t := AfterSuccess(s.tenants[t], p)],
               ready := if IsJob(p) then s.ready[op := Identity(t, TemplateOf(p))] else s.ready)
  {
    var s1 := ServeOp(w, s0, s, op, SuccessOf(s.rows[op]), node);
    s' := Settle(s1, op, true).(agent := Idle);
    assert s1.states[op := Completed] == s.states[op := Completed];
    assert s1.leases - {op} == map[];
    hide Served;
    LeadsNext(w, s0, s1, Report(false), s');
  }

  /** An operation that is carried out while the agent dies before reporting, and whose lease lapses. */
  lemma AbandonOp(w: World, s0: System, s: System, op: Id, node: State) returns (s': System)
    requires Leads(Trans(w), s0, s) && Quiet(s, op) && !s.rows[op].ForRestore?
    requires Served(w.config, s.rows[op], s.node, SuccessOf(s.rows[op]), node, {}, map[])
    ensures Leads(Trans(w), s0, s')
    ensures var p, t := s.rows[op], TenantOf(s.rows[op]);
      s' == s.(states := s.states[op := FailedState], serial := s.serial + 1, node := node,
               tenants := s.tenants[t := AfterFailure(s.tenants[t], p)])
  {
    var s1 := ServeOp(w, s0, s, op, SuccessOf(s.rows[op]), node);
    var s2 := s1.(agent := Idle);
    hide Served;
    LeadsNext(w, s0, s1, Crash, s2);
    var p, t := s.rows[op], TenantOf(s.rows[op]);
    s' := s2.(states := s2.states[op := FailedState], leases := s2.leases - {op},
              tenants := s2.tenants[t := AfterFailure(s2.tenants[t], p)]);
    LeadsNext(w, s0, s2, Expire(op), s');
    assert s2.states[op := FailedState] == s.states[op := FailedState];
    assert s2.leases - {op} == map[];
  }

  /** The provisioning can be carried out from scratch on this node, and its tenant is new there. */
  ghost predicate Startable(config: Config, r: Provisioner.Request, node: State) {
    && NodeIsolation.GoldenUnmarked(config, node)
    && Provisioner.Eligible(config, r, node) && Provisioner.Vacant(config, r, node)
    && forall n :: n in node.databases && node.databases[n].contents.marker.Some? ==>
         node.databases[n].contents.marker.value.tenant != r.tenant
  }

  /** The node with the request provisioned. */
  function Provisioned(config: Config, r: Provisioner.Request, node: State): State
    requires Provisioner.Eligible(config, r, node)
  {
    var profile := config.profiles[r.template];
    State(node.databases[r.database := Provisioner.ReadyDatabase(profile, r, node.databases)],
          node.filestores[Provisioner.SlotOf(profile, r.database) :=
            Provisioner.PreparedEntry(node.filestores, profile, r.database)])
  }

  function CleanupOf(r: Provisioner.Request, op: Id): Cleanup.Request {
    Cleanup.Request(op, r.tenant, r.environment, r.template, r.operation, r.database)
  }

  lemma Provisions(config: Config, r: Provisioner.Request, node: State)
    requires Startable(config, r, node)
    ensures Served(config, ForProvision(r), node, Ready, Provisioned(config, r, node), {}, map[])
    ensures MarkerOf(Provisioned(config, r, node).databases, r.database) == Some(OwnMarker(ForProvision(r)))
  {
    var profile, s' := config.profiles[r.template], Provisioned(config, r, node);
    var slot := Provisioner.SlotOf(profile, r.database);
    assert s'.databases - {r.database} == node.databases - {r.database};
    assert s'.filestores - {slot} == node.filestores - {slot};
  }

  /** Provisioning again for the same tenant and template: the database is taken as it is. */
  lemma ProvisionsAgain(config: Config, r: Provisioner.Request, again: Provisioner.Request, node: State)
    requires Startable(config, r, node) && again == r.(operation := again.operation)
    ensures var s := Provisioned(config, r, node); Served(config, ForProvision(again), s, Ready, s, {}, map[])
  {
    var profile, s := config.profiles[r.template], Provisioned(config, r, node);
    var slot := Provisioner.SlotOf(profile, r.database);
    assert s.databases[r.database := s.databases[r.database]] == s.databases;
    assert s.filestores[slot := s.filestores[slot]] == s.filestores;
    assert Provisioner.Eligible(config, again, s);
  }

  lemma CleansUp(config: Config, r: Provisioner.Request, op: Id, node: State)
    requires Startable(config, r, node)
    requires Quarantine(config.profiles[r.template].root, op) !in node.filestores
    ensures Served(config, ForCleanup(CleanupOf(r, op)), Provisioned(config, r, node), Cleaned, node, {}, map[])
  {
    var s, slot := Provisioned(config, r, node), Provisioner.SlotOf(config.profiles[r.template], r.database);
    assert s.databases - {r.database} == node.databases && s.filestores - {slot} == node.filestores;
    assert Cleanup.Eligible(config, CleanupOf(r, op), s);
  }

  /** The error of a cleanup that meets a foreign marker: the owner is compared first. */
  function Refusal(config: Config, c: Cleanup.Request, node: State): Error
    requires Cleanup.Gate(config, c).None? && c.database in node.databases
  {
    if node.databases[c.database].owner == config.profiles[c.template].owner then MarkerMismatch else OwnerMismatch
  }

  /** Without faults such a cleanup is refused, and nothing else can happen. */
  lemma ForeignCleanup(config: Config, c: Cleanup.Request, node: State, r: Reply, node': State,
                       inbox: map<Id, Restore.Artifacts>)
    requires Cleanup.Gate(config, c).None? && c.database in node.databases
    requires MarkerOf(node.databases, c.database) != Some(Cleanup.Expected(c))
    ensures Served(config, ForCleanup(c), node, r, node', {}, inbox) <==>
      r == Failed(Refusal(config, c, node)) && node' == node
  {
  }

  function Beginning(node: State): System { System(map[], map[], map[], map[], map[], Idle, [], 0, node) }

  function NewRow(r: Provisioner.Request): TenantRow { TenantRow(r.environment, Provisioning, None) }

  /** The system after one job was created on an empty control plane. */
  lemma FirstJob(w: World, r: Provisioner.Request, node: State) returns (s: System)
    requires Startable(w.config, r, node)
    ensures Leads(Trans(w), Beginning(node), s)
    ensures s == Beginning(node).(rows := map[r.operation := ForProvision(r)], states := map[r.operation := Waiting],
                                  tenants := map[r.tenant := NewRow(r)])
  {
    var s0 := Beginning(node);
    LeadsSelf(Trans(w), s0);
    s := s0.(rows := map[r.operation := ForProvision(r)], states := map[r.operation := Waiting],
             tenants := map[r.tenant := NewRow(r)]);
    LeadsNext(w, s0, s0, CreateJob(r.operation, ForProvision(r), NewRow(r)), s);
  }

  /** The first tenant is provisioned; then its cleanup is requested and carried out, but the agent dies
      before saying so. */
  lemma CleanedUnnoticed(w: World, r: Provisioner.Request, op: Id, node: State) returns (s: System)
    requires Startable(w.config, r, node) && op != r.operation
    requires Quarantine(w.config.profiles[r.template].root, op) !in node.filestores
    ensures Leads(Trans(w), Beginning(node), s)
    ensures s.rows == map[r.operation := ForProvision(r), op := ForCleanup(CleanupOf(r, op))]
    ensures s.states == map[r.operation := Completed, op := FailedState]
    ensures s.tenants == map[r.tenant := TenantRow(r.environment, TenantFailed, Some(r.database))]
    ensures s.ready == map[r.operation := Identity(r.tenant, r.template)]
    ensures s.leases == map[] && s.agent == Idle && s.queue == [] && s.node == node
  {
    Provisions(w.config, r, node);
    CleansUp(w.config, r, op, node);
    var s1 := FirstJob(w, r, node);
    hide Served, Leads, Startable;
    var s2 := CompleteOp(w, Beginning(node), s1, r.operation, Provisioned(w.config, r, node));
    var s3 := s2.(rows := s2.rows[op := ForCleanup(CleanupOf(r, op))], states := s2.states[op := Waiting],
                  tenants := Restatus(s2.tenants, r.tenant, Suspended));
    LeadsNext(w, Beginning(node), s2, CreateFollowUp(op, ForCleanup(CleanupOf(r, op))), s3);
    s := AbandonOp(w, Beginning(node), s3, op, node);
  }

  /** A cleanup request of the tenant is next, and as long as no command misbehaves it fails with that error. */
  ghost predicate Foiled(w: World, s: System, tenant: Id, error: Error) {
    && s.queue != [] && s.queue[0].op in s.rows && s.rows[s.queue[0].op].ForCleanup?
    && TenantOf(s.rows[s.queue[0].op]) == tenant
    && forall r, node, inbox ::
         Served(w.config, s.rows[s.queue[0].op], s.node, r, node, {}, inbox) <==> r == Failed(error) && node == s.node
  }

  /** A waiting cleanup whose database carries another marker is sent and fails. */
  lemma SentCleanupIsFoiled(w: World, node: State, s: System, op: Id)
    requires Start(w, Beginning(node)) && Leads(Trans(w), Beginning(node), s) && Quiet(s, op) && s.rows[op].ForCleanup?
    requires var c := s.rows[op].cleanup;
      && Cleanup.Gate(w.config, c).None? && c.database in s.node.databases
      && MarkerOf(s.node.databases, c.database) != Some(Cleanup.Expected(c))
    ensures exists s1 ::
      Reachable(w, s1) && Foiled(w, s1, TenantOf(s.rows[op]), Refusal(w.config, s.rows[op].cleanup, s.node))
  {
    hide Leads;
    var s1 := SendOp(w, Beginning(node), s, op);
    var c := s.rows[op].cleanup;
    forall r, node', inbox
      ensures Served(w.config, ForCleanup(c), s.node, r, node', {}, inbox) <==>
        r == Failed(Refusal(w.config, c, s.node)) && node' == s.node
    {
      ForeignCleanup(w.config, c, s.node, r, node', inbox);
    }
    hide Served;
    assert Reachable(w, s1) && Foiled(w, s1, TenantOf(s.rows[op]), Refusal(w.config, c, s.node));
  }

  lemma CleanupGate(config: Config, r: Provisioner.Request, op: Id)
    requires Provisioner.Gate(config, r).None?
    ensures Cleanup.Gate(config, CleanupOf(r, op)).None?
  {
  }

  /** A second tenant gets a job under the name of the first, and the first one's cleanup is retried. */
  lemma RetriedAfterSecond(w: World, r1: Provisioner.Request, r2: Provisioner.Request, op: Id, node: State)
    returns (s: System)
    requires Startable(w.config, r1, node) && Startable(w.config, r2, node)
    requires r1.database == r2.database && r1.tenant != r2.tenant && r1.operation != r2.operation
    requires op !in {r1.operation, r2.operation}
      && Quarantine(w.config.profiles[r1.template].root, op) !in node.filestores
    ensures Leads(Trans(w), Beginning(node), s) && Quiet(s, op)
    ensures s.rows[op] == ForCleanup(CleanupOf(r1, op)) && s.node == Provisioned(w.config, r2, node)
  {
    hide Leads, Served, Provisioned;
    var s0 := Beginning(node);
    var s4 := CleanedUnnoticed(w, r1, op, node);
    var s5 := s4.(rows := s4.rows[r2.operation := ForProvision(r2)], states := s4.states[r2.operation := Waiting],
                  tenants := s4.tenants[r2.tenant := NewRow(r2)]);
    LeadsNext(w, s0, s4, CreateJob(r2.operation, ForProvision(r2), NewRow(r2)), s5);
    hide Startable;
    Provisions(w.config, r2, node);
    var s6 := CompleteOp(w, s0, s5, r2.operation, Provisioned(w.config, r2, node));
    s := s6.(states := s6.states[op := Waiting], leases := s6.leases - {op},
             tenants := Restatus(s6.tenants, r1.tenant, Suspended));
    LeadsNext(w, s0, s6, Retry(op), s);
  }

  /** Names must be distinct: from every node on which two tenants can be provisioned under one name, a
      run leads to a retried cleanup of the first that can only fail without faults: with a marker mismatch
      when the two profiles have one owner, and with an owner mismatch otherwise. */
  lemma SharedNameMismatch(w: World, r1: Provisioner.Request, r2: Provisioner.Request, op: Id, node: State)
    requires Startable(w.config, r1, node) && Startable(w.config, r2, node)
    requires r1.database == r2.database && r1.tenant != r2.tenant && r1.operation != r2.operation
    requires op !in {r1.operation, r2.operation}
      && Quarantine(w.config.profiles[r1.template].root, op) !in node.filestores
    ensures exists s :: Reachable(w, s) && Foiled(w, s, r1.tenant,
      if w.config.profiles[r1.template].owner == w.config.profiles[r2.template].owner then MarkerMismatch
      else OwnerMismatch)
  {
    var s := RetriedAfterSecond(w, r1, r2, op, node);
    Provisions(w.config, r2, node);
    CleanupGate(w.config, r1, op);
    assert s.node.databases[r1.database].owner == w.config.profiles[r2.template].owner;
    hide Served, Leads;
    SentCleanupIsFoiled(w, node, s, op);
  }

  /** And one job it must be: from every node on which a tenant can be provisioned, a run leads to a second
      job of that tenant, ready with the first one's marker, and a cleanup that can only fail with a marker
      mismatch. */
  lemma TwoJobsMismatch(w: World, r: Provisioner.Request, second: Id, op: Id, node: State)
    requires Startable(w.config, r, node) && r.operation != second && op !in {r.operation, second}
    ensures exists s :: Reachable(w, s) && Foiled(w, s, r.tenant, MarkerMismatch)
  {
    var again := r.(operation := second);
    var s := CleanupOfSecondJob(w, r, again, op, node);
    Provisions(w.config, r, node);
    CleanupGate(w.config, again, op);
    assert s.node.databases[r.database].owner == w.config.profiles[r.template].owner;
    hide Served, Leads;
    SentCleanupIsFoiled(w, node, s, op);
  }

  /** The first job's report is lost, and the tenant gets another job, which finds the database. */
  lemma SecondJobReady(w: World, r: Provisioner.Request, again: Provisioner.Request, node: State)
    returns (s: System)
    requires Startable(w.config, r, node) && again == r.(operation := again.operation)
    requires r.operation != again.operation
    ensures Leads(Trans(w), Beginning(node), s)
    ensures s.rows == map[r.operation := ForProvision(r), again.operation := ForProvision(again)]
    ensures s.states == map[r.operation := FailedState, again.operation := Completed]
    ensures s.tenants == map[r.tenant := TenantRow(r.environment, TenantReady, Some(r.database))]
    ensures s.ready == map[again.operation := Identity(r.tenant, r.template)]
    ensures s.leases == map[] && s.agent == Idle && s.queue == [] && s.node == Provisioned(w.config, r, node)
  {
    var s0, there, second := Beginning(node), Provisioned(w.config, r, node), again.operation;
    Provisions(w.config, r, node);
    ProvisionsAgain(w.config, r, again, node);
    var s1 := FirstJob(w, r, node);
    hide Served, Leads, Startable;
    var s2 := AbandonOp(w, s0, s1, r.operation, there);
    var row := s2.tenants[r.tenant].(status := Provisioning);
    var s3 := s2.(rows := s2.rows[second := ForProvision(again)], states := s2.states[second := Waiting],
                  tenants := s2.tenants[r.tenant := row]);
    LeadsNext(w, s0, s2, CreateJob(second, ForProvision(again), row), s3);
    s := CompleteOp(w, s0, s3, second, there);
  }

  /** And then a cleanup is requested. */
  lemma CleanupOfSecondJob(w: World, r: Provisioner.Request, again: Provisioner.Request, op: Id, node: State)
    returns (s: System)
    requires Startable(w.config, r, node) && again == r.(operation := again.operation)
    requires r.operation != again.operation && op !in {r.operation, again.operation}
    ensures Leads(Trans(w), Beginning(node), s) && Quiet(s, op)
    ensures s.rows[op] == ForCleanup(CleanupOf(again, op)) && s.node == Provisioned(w.config, r, node)
  {
    hide Served, Leads;
    var s4 := SecondJobReady(w, r, again, node);
    hide Startable;
    var c := CleanupOf(again, op);
    s := s4.(rows := s4.rows[op := ForCleanup(c)], states := s4.states[op := Waiting],
             tenants := Restatus(s4.tenants, r.tenant, Suspended));
    LeadsNext(w, Beginning(node), s4, CreateFollowUp(op, ForCleanup(c)), s);
  }

  // ---------------------------------------------------------------------------------------
  // Why rows and tenants change
  // ---------------------------------------------------------------------------------------

  /** Every state change of a job row has one cause: a claim, the running report of the agent that claimed it, a
      terminal report of the agent under the row's lease, a lapsed lease, or a retry. */
  lemma StateHasCause(w: World, s: System, a: Action, s': System, op: Id)
    requires Next(w, s, a, s') && op in s.rows && op in s.states && op in s'.states && s'.states[op] != s.states[op]
    ensures var from, p := s.states[op], s.rows[op];
      match s'.states[op]
      case Dispatched => a.Claim? && a.op == op && from == Waiting && op !in s.leases && op in s'.leases
      case Running => a.Begin? && s.agent == Agent.Claimed(op, s.agent.token) && from == Dispatched
                      && op in s.leases && s.leases[op] == s.agent.token
      case Completed =>
        && a.Report? && s.agent == Holds(op, s.agent.token, s.agent.reply) && !s.agent.reply.Failed?
        && op in s.leases && s.leases[op] == s.agent.token && op !in s'.leases
        && (from == Running || (p.ForRestore? && from == Dispatched))
      case FailedState =>
        && op in s.leases && op !in s'.leases && from in {Dispatched, Running}
        && ((a == Action.Expire(op) && !p.ForRestore?)
            || (a.Report? && s.agent == Holds(op, s.agent.token, s.agent.reply) && s.agent.reply.Failed?
                && s.leases[op] == s.agent.token && (p.ForCleanup? ==> from == Running)))
      case Waiting =>
        || (a == Action.Expire(op) && p.ForRestore? && from in {Dispatched, Running} && op !in s'.leases)
        || (a == Action.Retry(op) && (p.ForProvision? || p.ForCleanup?) && from == FailedState)
  {
  }

  /** When a terminal report is accepted: under the row's lease, from running; of a restore also from dispatched, and
      so is the failure of a provisioning or a backup. */
  lemma AcceptedIff(s: System, op: Id, token: Token, success: bool)
    ensures ReportAccepted(s, op, token, success) <==>
      && op in s.leases && s.leases[op] == token && op in s.rows && op in s.states
      && match s.rows[op]
         case ForProvision(r) =>
           r.tenant in s.tenants && (s.states[op] == Running || (!success && s.states[op] == Dispatched))
         case ForRestore(r) => r.tenant in s.tenants && s.states[op] in {Dispatched, Running}
         case ForCleanup(r) => r.tenant in s.tenants && s.states[op] == Running
         case ForBackup(r) =>
           r.tenant in s.tenants && (s.states[op] == Running || (!success && s.states[op] == Dispatched))
  {
  }

  /** What a tenant's row becomes by an accepted report of its row. */
  lemma ReportOnTenant(w: World, s: System, lost: bool, s': System, t: Id)
    requires Next(w, s, Report(lost), s') && t in s.tenants && t in s'.tenants && s'.tenants[t] != s.tenants[t]
    ensures s.agent.Holds? && s.agent.op in s.rows
    ensures var was, success := s.tenants[t], !s.agent.reply.Failed?;
      match s.rows[s.agent.op]
      case ForProvision(r) =>
        && t == r.tenant
        && s'.tenants[t] == if success then was.(status := TenantReady, database := Some(r.database))
                            else was.(status := TenantFailed)
      case ForRestore(r) =>
        && t == r.tenant
        && s'.tenants[t] == if success then was.(status := TenantReady, database := Some(r.database))
                            else was.(status := TenantFailed, database := None)
      case ForCleanup(r) =>
        && t == r.tenant
        && s'.tenants[t] == if success then was.(status := Decommissioned, database := None)
                            else was.(status := TenantFailed)
      case ForBackup(_) => false
  {
  }

  /** Every other change of a tenant's row: a new job puts it to work, a cleanup request suspends it, a lapsed lease
      fails it, a retry takes it up again. */
  lemma TenantHasCause(w: World, s: System, a: Action, s': System, t: Id)
    requires Next(w, s, a, s') && !a.Report? && t in s.tenants && t in s'.tenants && s'.tenants[t] != s.tenants[t]
    ensures var was := s.tenants[t];
      match a
      case CreateJob(op, p, _) =>
        && TenantOf(p) == t && op !in s.rows && was.status in {Pending, TenantFailed}
        && s'.tenants[t] ==
             (if p.ForRestore? then was.(status := TenantStatus.Provisioning, database := Some(NameOf(p)))
              else was.(status := TenantStatus.Provisioning))
        && (p.ForRestore? ==> was.status == Pending && was.database.None?)
      case CreateFollowUp(op, p) =>
        && p.ForCleanup? && p.cleanup.tenant == t && was.database == Some(p.cleanup.database)
        && was.status == TenantReady
        && s'.tenants[t] == was.(status := Suspended)
      case Expire(op) =>
        && op in s.rows && (s.rows[op].ForProvision? || s.rows[op].ForCleanup?) && TenantOf(s.rows[op]) == t
        && s'.tenants[t] == was.(status := TenantFailed)
      case Retry(op) =>
        && op in s.rows && TenantOf(s.rows[op]) == t
        && (match s.rows[op]
            case ForProvision(_) => s'.tenants[t] == was.(status := TenantStatus.Provisioning)
            case ForCleanup(r) =>
              && was.status == TenantFailed && was.database == Some(r.database)
              && s'.tenants[t] == was.(status := Suspended)
            case _ => false)
      case _ => false
  {
  }

  /** Who can be cleaned up or backed up: a ready tenant, for a cleanup also an expired trial, with its own database
      and a ready provisioning row of its tenant and template. */
  lemma FollowUpIff(s: System, op: Id, p: Payload)
    requires !IsJob(p)
    ensures MayFollowUp(s, op, p) <==>
      && op !in s.rows
      && match p
         case ForCleanup(r) =>
           && r.operation == op && r.tenant in s.tenants && r.environment == s.tenants[r.tenant].environment
           && (s.tenants[r.tenant].status == TenantReady
               || (s.tenants[r.tenant].status == Suspended && s.tenants[r.tenant].environment == Trial))
           && s.tenants[r.tenant].database == Some(r.database)
           && r.provisioning in s.ready && s.ready[r.provisioning] == Identity(r.tenant, r.template)
         case ForBackup(r) =>
           && r.operation == op && r.tenant in s.tenants && s.tenants[r.tenant].status == TenantReady
           && s.tenants[r.tenant].database == Some(r.database)
           && r.provisioning in s.ready && s.ready[r.provisioning] == Identity(r.tenant, r.template)
  {
  }

  /** The node serves the oldest request, each row by its own engine, and the reply goes to the agent that still waits
      for it. */
  lemma ServeMeans(w: World, s: System, a: Action, s': System)
    requires Next(w, s, a, s') && a.Serve?
    ensures s.queue != [] && s.queue[0].op in s.rows && s'.queue == s.queue[1..]
    ensures s' == s.(node := s'.node, queue := s.queue[1..], agent := s'.agent)
    ensures s'.agent == if s.agent.AwaitsReply? && s.agent.serial == s.queue[0].serial
                        then Holds(s.agent.op, s.agent.token, a.reply) else s.agent
    ensures match s.rows[s.queue[0].op]
      case ForProvision(r) => Provisioner.TrialEffect(w.config, r, s.node, a.reply, s'.node, a.faults)
      case ForRestore(r) => Restore.Effect(w.config, r, a.inbox, s.node, a.reply, s'.node, a.faults)
      case ForCleanup(r) => Cleanup.Effect(w.config, r, s.node, a.reply, s'.node, a.faults)
      case ForBackup(r) => s'.node == s.node
  {
    hide Provisioner.TrialEffect, Restore.Effect, Cleanup.Effect, Backup.Effect;
  }

  /** And what the steps that concern a row leave of it and of its tenant. */
  lemma StepsMoveRows(w: World, s: System, a: Action, s': System)
    requires Next(w, s, a, s')
    ensures match a
      case CreateJob(op, p, _) =>
        && op in s'.rows && s'.rows[op] == p && op in s'.states && s'.states[op] == Waiting
        && TenantOf(p) in s'.tenants && s'.tenants[TenantOf(p)].status in {Pending, TenantStatus.Provisioning}
      case CreateFollowUp(op, p) =>
        && op in s'.rows && s'.rows[op] == p && op in s'.states && s'.states[op] == Waiting
        && (p.ForCleanup? ==> p.cleanup.tenant in s'.tenants && s'.tenants[p.cleanup.tenant].status == Suspended)
      case Claim(op, token, _) =>
        op in s'.states && s'.states[op] == Dispatched && op in s'.leases && s'.leases[op] == token
      case Expire(op) =>
        && op in s.rows && op in s'.states && op !in s'.leases
        && s'.states[op] == (if s.rows[op].ForRestore? then Waiting else FailedState)
        && (s.rows[op].ForProvision? || s.rows[op].ForCleanup? ==>
              TenantOf(s.rows[op]) in s'.tenants && s'.tenants[TenantOf(s.rows[op])].status == TenantFailed)
      case Retry(op) =>
        && op in s.rows && op in s'.states && s'.states[op] == Waiting && op !in s'.leases
        && TenantOf(s.rows[op]) in s'.tenants
        && s'.tenants[TenantOf(s.rows[op])].status ==
             if s.rows[op].ForCleanup? then Suspended else TenantStatus.Provisioning
      case _ => true
  {
  }

  /** Who can get a job: a pending or failed tenant a provisioning, a pending one without a database a restore; the
      tenant then is provisioning, for a restore under the restore's name. */
  lemma JobIff(s: System, op: Id, p: Payload, tenant: TenantRow)
    requires IsJob(p) && TenantOf(p) in s.tenants
    ensures MayCreate(s, op, p, tenant) <==>
      && op !in s.rows
      && match p
         case ForProvision(r) =>
           && r.operation == op && s.tenants[r.tenant].status in {Pending, TenantFailed}
           && tenant == s.tenants[r.tenant].(status := TenantStatus.Provisioning)
         case ForRestore(r) =>
           && r.operation == op && s.tenants[r.tenant].status == Pending && s.tenants[r.tenant].database == None
           && tenant == s.tenants[r.tenant].(status := TenantStatus.Provisioning, database := Some(r.database))
  {
  }
}
