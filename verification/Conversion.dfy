/** Trial conversions: request, approval, production placement and reconciliation. */
module Conversion {
  import opened Common
  import opened Runs

  type Id = nat
  type Node = nat

  datatype Mode = CleanProduction | PromoteTrialData
  datatype ConversionState = Requested | Approved | Provisioning | ConvReady | ConvFailed | Cancelled

  datatype Request = Request(trial: Id, mode: Mode, state: ConversionState, target: Option<Id>)

  datatype JobState = Queued | Placed | Dispatched | Running | Ready | Failed | Retrying

  /** `conversion` is Some(c) when the idempotency key is `conversion:<c>`; `pool` tells the production pool. */
  datatype Job = Job(tenant: Id, conversion: Option<Id>, production: bool, state: JobState, node: Option<Node>)

  datatype Kind = Test | Trial | Production
  datatype TrialState = NoTrial | Active | Expired | CleanupPending | TrialFailed | Cleaned | Starting
  datatype Tenant = Tenant(kind: Kind, pending: bool, node: Option<Node>, trial: TrialState, hasDatabase: bool)

  datatype State = State(
    conversions: map<Id, Request>, jobs: map<Id, Job>, tenants: map<Id, Tenant>, enabled: bool, everEnabled: bool)

  const ACTIVE := {Requested, Approved, Provisioning, ConvReady}

  function Rank(s: ConversionState): nat {
    match s
    case Requested => 0
    case Approved => 1
    case Provisioning => 2
    case _ => 3
  }

  /** conversionStateForProvisioningState */
  function StateFor(job: JobState): Option<ConversionState> {
    match job
    case Queued => None
    case Ready => Some(ConvReady)
    case Failed => Some(ConvFailed)
    case _ => Some(Provisioning)
  }

  predicate JobEdge(from: JobState, to: JobState) {
    match from
    case Queued => false
    case Placed => to in {Dispatched, Failed}
    case Dispatched => to in {Running, Failed}
    case Running => to in {Ready, Failed}
    case Ready => false
    case Failed => to == Retrying
    case Retrying => to in {Dispatched, Failed}
  }

  /** The steps of a conversion's job beyond its placement, as the provisioning machine makes them. */
  lemma JobEdgesAre(from: JobState, to: JobState)
    ensures JobEdge(from, to) <==>
      (from, to) in {(Placed, Dispatched), (Placed, Failed), (Dispatched, Running), (Dispatched, Failed),
                     (Running, Ready), (Running, Failed), (Failed, Retrying),
                     (Retrying, Dispatched), (Retrying, Failed)}
  {
  }

  // -- handlers -------------------------------------------------------------------------------

  predicate Convertible(t: Tenant, mode: Mode) {
    && t.kind == Trial
    && if mode == PromoteTrialData then t.trial == Active && t.hasDatabase else t.trial in {Active, Expired, Cleaned}
  }

  predicate HasActive(conversions: map<Id, Request>, trial: Id) {
    exists c :: c in conversions && conversions[c].trial == trial && conversions[c].state in ACTIVE
  }

  predicate MayRequest(s: State, trial: Id, mode: Mode) {
    trial in s.tenants && Convertible(s.tenants[trial], mode) && !HasActive(s.conversions, trial)
  }

  predicate MayApprove(s: State, c: Id) {
    && c in s.conversions && s.conversions[c].state == Requested && s.conversions[c].mode == CleanProduction
    && s.conversions[c].trial in s.tenants && s.tenants[s.conversions[c].trial].kind == Trial
  }

  function Approve(s: State, c: Id, t: Id, j: Id): State
    requires c in s.conversions
  {
    s.(tenants := s.tenants[t := Tenant(Production, true, None, NoTrial, false)],
       jobs := s.jobs[j := Job(t, Some(c), true, Queued, None)],
       conversions := s.conversions[c := s.conversions[c].(state := Approved, target := Some(t))])
  }

  /** The one job whose tenant and idempotency key belong to the conversion. */
  predicate Linked(s: State, j: Id, c: Id) {
    && j in s.jobs && c in s.conversions && s.jobs[j].conversion == Some(c)
    && s.conversions[c].target == Some(s.jobs[j].tenant)
  }

  predicate MayPlace(s: State, c: Id, j: Id) {
    && s.enabled && Linked(s, j, c)
    && s.conversions[c].mode == CleanProduction && s.conversions[c].state == Approved
    && s.jobs[j].production && s.jobs[j].state == Queued && s.jobs[j].node.None?
    && s.jobs[j].tenant in s.tenants
    && var t := s.tenants[s.jobs[j].tenant]; t.kind == Production && t.pending && t.node.None?
  }

  function Place(s: State, c: Id, j: Id, node: Node): State
    requires MayPlace(s, c, j)
  {
    var t := s.jobs[j].tenant;
    s.(jobs := s.jobs[j := s.jobs[j].(state := Placed, node := Some(node))],
       tenants := s.tenants[t := s.tenants[t].(pending := false, node := Some(node))],
       conversions := s.conversions[c := s.conversions[c].(state := Provisioning)])
  }

  predicate Reconcilable(s: State, j: Id, c: Id) {
    && Linked(s, j, c) && s.jobs[j].tenant in s.tenants && s.tenants[s.jobs[j].tenant].kind == Production
    && s.conversions[c].mode == CleanProduction && s.conversions[c].state in {Approved, Provisioning}
    && StateFor(s.jobs[j].state).Some? && StateFor(s.jobs[j].state).value != s.conversions[c].state
  }

  function Reconcile(s: State, j: Id, c: Id): State
    requires Reconcilable(s, j, c)
  {
    s.(conversions := s.conversions[c := s.conversions[c].(state := StateFor(s.jobs[j].state).value)])
  }

  // -- steps ----------------------------------------------------------------------------------

  datatype Action =
    | AddTenant(t: Id, row: Tenant)
    | AddJob(j: Id, job: Job)
    | MoveJob(j: Id, to: JobState)
    | MoveTenant(t: Id, row: Tenant)
    | SetFlag(on: bool)
    | RequestConversion(c: Id, trial: Id, mode: Mode)
    | ApproveConversion(c: Id, t: Id, j: Id)
    | PlaceConversion(c: Id, j: Id, node: Node)
    | ReconcileConversion(c: Id, j: Id)

  predicate Next(s: State, a: Action, s': State) {
    match a
    case AddTenant(t, row) => t !in s.tenants && s' == s.(tenants := s.tenants[t := row])
    case AddJob(j, job) => j !in s.jobs && job.conversion.None? && s' == s.(jobs := s.jobs[j := job])
    case MoveJob(j, to) =>
      j in s.jobs && JobEdge(s.jobs[j].state, to) && s' == s.(jobs := s.jobs[j := s.jobs[j].(state := to)])
    case MoveTenant(t, row) =>
      t in s.tenants && row.kind == s.tenants[t].kind && s' == s.(tenants := s.tenants[t := row])
    case SetFlag(on) => s' == s.(enabled := on, everEnabled := s.everEnabled || on)
    case RequestConversion(c, trial, mode) =>
      c !in s.conversions && MayRequest(s, trial, mode)
      && s' == s.(conversions := s.conversions[c := Request(trial, mode, Requested, None)])
    case ApproveConversion(c, t, j) => MayApprove(s, c) && t !in s.tenants && j !in s.jobs && s' == Approve(s, c, t, j)
    case PlaceConversion(c, j, node) => MayPlace(s, c, j) && s' == Place(s, c, j, node)
    case ReconcileConversion(c, j) => Reconcilable(s, j, c) && s' == Reconcile(s, j, c)
  }

  const EMPTY := State(map[], map[], map[], false, false)

  ghost const Trans: (State, Action, State) -> bool := (s, a, s') => Next(s, a, s')

  // -- invariants -----------------------------------------------------------------------------

  predicate IsActive(s: State, c: Id) { c in s.conversions && s.conversions[c].state in ACTIVE }

  ghost predicate OneActive(s: State) {
    forall c, d :: IsActive(s, c) && IsActive(s, d) && s.conversions[c].trial == s.conversions[d].trial ==> c == d
  }

  /** A conversion job belongs to an approved conversion, which has no other. */
  ghost predicate JobsOk(s: State) {
    && (forall j :: j in s.jobs && s.jobs[j].conversion.Some? ==>
          Linked(s, j, s.jobs[j].conversion.value) && s.conversions[s.jobs[j].conversion.value].state != Requested)
    && (forall j, k ::
          j in s.jobs && k in s.jobs && s.jobs[j].conversion.Some? && s.jobs[j].conversion == s.jobs[k].conversion ==>
            j == k)
  }

  /** A ready conversion has its job, and that job is ready. */
  ghost predicate ReadyOk(s: State) {
    forall c :: c in s.conversions && s.conversions[c].state == ConvReady ==>
      exists j :: Linked(s, j, c) && s.jobs[j].state == Ready
  }

  ghost predicate ClosedGate(s: State) {
    && (s.enabled ==> s.everEnabled)
    && (!s.everEnabled ==>
          && (forall j :: j in s.jobs && s.jobs[j].conversion.Some? ==>
             s.jobs[j].state == Queued && s.jobs[j].node.None?)
          && (forall c :: c in s.conversions ==> s.conversions[c].state in {Requested, Approved}))
  }

  ghost predicate Inv(s: State) { OneActive(s) && JobsOk(s) && ReadyOk(s) && ClosedGate(s) }

  lemma StepKeepsActive(s: State, a: Action, s': State)
    requires OneActive(s) && Next(s, a, s')
    ensures OneActive(s')
  {
  }

  lemma RowsStay(s: State, a: Action, s': State)
    requires Next(s, a, s')
    ensures forall j :: j in s.jobs ==>
      && j in s'.jobs && s'.jobs[j].conversion == s.jobs[j].conversion && s'.jobs[j].tenant == s.jobs[j].tenant
      && (s.jobs[j].state == Ready ==> s'.jobs[j].state == Ready)
    ensures forall c :: c in s.conversions && s.conversions[c].state != Requested ==>
      c in s'.conversions && s'.conversions[c].state != Requested && s'.conversions[c].target == s.conversions[c].target
    ensures forall j :: j in s'.jobs && j !in s.jobs && s'.jobs[j].conversion.Some? ==>
      && a.ApproveConversion? && j == a.j && s'.jobs[j].conversion == Some(a.c) && Linked(s', j, a.c)
      && a.c in s.conversions && s.conversions[a.c].state == Requested && s'.conversions[a.c].state == Approved
  {
  }

  lemma StepKeepsJobs(s: State, a: Action, s': State)
    requires JobsOk(s) && Next(s, a, s')
    ensures JobsOk(s')
  {
    RowsStay(s, a, s');
    hide Next;
    forall j | j in s'.jobs && s'.jobs[j].conversion.Some?
      ensures Linked(s', j, s'.jobs[j].conversion.value)
        && s'.conversions[s'.jobs[j].conversion.value].state != Requested
    {
      if j in s.jobs { assert Linked(s, j, s.jobs[j].conversion.value); }
    }
  }

  lemma StepKeepsReady(s: State, a: Action, s': State)
    requires JobsOk(s) && ReadyOk(s) && Next(s, a, s')
    ensures ReadyOk(s')
  {
    RowsStay(s, a, s');
    forall c | c in s'.conversions && s'.conversions[c].state == ConvReady
      ensures exists j :: Linked(s', j, c) && s'.jobs[j].state == Ready
    {
      NewlyReady(s, a, s', c);
      if !(a.ReconcileConversion? && a.c == c) {
        var j :| Linked(s, j, c) && s.jobs[j].state == Ready;
        assert Linked(s', j, c) && s'.jobs[j].state == Ready by { hide Next; }
      }
    }
    hide Next;
  }

  /** Only reconciliation makes a conversion ready, and only from a ready job. */
  lemma NewlyReady(s: State, a: Action, s': State, c: Id)
    requires Next(s, a, s') && c in s'.conversions && s'.conversions[c].state == ConvReady
    ensures if a.ReconcileConversion? && a.c == c then Linked(s', a.j, c) && s'.jobs[a.j].state == Ready
            else c in s.conversions && s.conversions[c].state == ConvReady
  {
  }

  lemma StepKeepsGate(s: State, a: Action, s': State)
    requires ClosedGate(s) && Next(s, a, s')
    ensures ClosedGate(s')
  {
  }

  lemma LeadsInv(s: State, s': State)
    requires Inv(s) && Leads(Trans, s, s')
    ensures Inv(s')
  {
    forall s, a, s' | Inv(s) && Trans(s, a, s') ensures Inv(s') {
      hide OneActive, JobsOk, ReadyOk, ClosedGate;
      StepKeepsActive(s, a, s');
      StepKeepsJobs(s, a, s');
      StepKeepsReady(s, a, s');
      StepKeepsGate(s, a, s');
    }
    LeadsKeeps(Trans, (s: State) => Inv(s), s, s');
  }

  /** A trial never has two conversions that are requested, approved, provisioning or ready. */
  lemma AtMostOneActiveConversion(s: State, c: Id, d: Id)
    requires Leads(Trans, EMPTY, s) && c in s.conversions && d in s.conversions && c != d
    requires s.conversions[c].trial == s.conversions[d].trial
    requires s.conversions[c].state in {Requested, Approved, Provisioning, ConvReady}
    ensures s.conversions[d].state in {ConvFailed, Cancelled}
  {
    assert Inv(EMPTY);
    LeadsInv(EMPTY, s);
  }

  /** While production was never enabled no conversion job leaves `queued` or gains a node, and no
      conversion gets past its approval. */
  lemma ClosedGateHolds(s: State)
    requires Leads(Trans, EMPTY, s) && !s.everEnabled
    ensures forall j :: j in s.jobs && s.jobs[j].conversion.Some? ==> s.jobs[j].state == Queued && s.jobs[j].node.None?
    ensures forall c :: c in s.conversions ==> s.conversions[c].state in {Requested, Approved}
  {
    assert Inv(EMPTY);
    LeadsInv(EMPTY, s);
  }

  lemma StepMovesForward(s: State, a: Action, s': State, c: Id)
    requires Next(s, a, s') && c in s.conversions
    ensures c in s'.conversions && Rank(s.conversions[c].state) <= Rank(s'.conversions[c].state)
    ensures Rank(s.conversions[c].state) == 3 ==> s'.conversions[c] == s.conversions[c]
  {
  }

  /** Conversion states never move backwards, and the terminal ones never move at all. */
  lemma ConversionsMoveForward(states: seq<State>, actions: seq<Action>, i: nat, k: nat, c: Id)
    requires IsRun(Trans, states, actions) && i <= k <= |actions| && c in states[i].conversions
    ensures c in states[k].conversions
    ensures match states[i].conversions[c].state
      case Requested => true
      case Approved => states[k].conversions[c].state != Requested
      case Provisioning => states[k].conversions[c].state !in {Requested, Approved}
      case _ => states[k].conversions[c] == states[i].conversions[c]
  {
    var rel := (s: State, s': State) => c in s.conversions ==>
      && c in s'.conversions && Rank(s.conversions[c].state) <= Rank(s'.conversions[c].state)
      && (Rank(s.conversions[c].state) == 3 ==> s'.conversions[c] == s.conversions[c]);
    forall s, a, s' | Trans(s, a, s') ensures rel(s, s') {
      if c in s.conversions { StepMovesForward(s, a, s', c); }
    }
    RunRelates(Trans, (s: State) => true, rel, states, actions, i, k);
  }

  /** Once a conversion is ready, its linked job is ready, then and forever after. */
  lemma ReadyConversionHasReadyJob(s: State, c: Id, s': State)
    requires Leads(Trans, EMPTY, s) && c in s.conversions && s.conversions[c].state == ConvReady && Leads(Trans, s, s')
    ensures c in s'.conversions && s'.conversions[c].state == ConvReady
    ensures exists j :: Linked(s', j, c) && s'.jobs[j].state == Ready
  {
    assert Inv(EMPTY);
    LeadsInv(EMPTY, s);
    LeadsInv(s, s');
    var states, actions :| IsRun(Trans, states, actions) && states[0] == s && states[|actions|] == s';
    ConversionsMoveForward(states, actions, 0, |actions|, c);
  }

  /** What lets a conversion's step happen, whichever run it is part of. */
  lemma StepHasCause(s: State, a: Action, s': State)
    requires Next(s, a, s')
    ensures match a
      case RequestConversion(c, trial, mode) =>
        && c !in s.conversions && trial in s.tenants && s.tenants[trial].kind == Trial
        && (mode == CleanProduction ==> s.tenants[trial].trial in {Active, Expired, Cleaned})
        && (mode == PromoteTrialData ==> s.tenants[trial].trial == Active && s.tenants[trial].hasDatabase)
        && forall d :: d in s.conversions && s.conversions[d].trial == trial ==>
             s.conversions[d].state !in {Requested, Approved, Provisioning, ConvReady}
      case ApproveConversion(c, t, j) =>
        && c in s.conversions && t !in s.tenants && j !in s.jobs
        && s.conversions[c].state == Requested && s.conversions[c].mode == CleanProduction
        && s.conversions[c].trial in s.tenants && s.tenants[s.conversions[c].trial].kind == Trial
      case PlaceConversion(c, j, _) =>
        && s.enabled && c in s.conversions && j in s.jobs && s.jobs[j].tenant in s.tenants
        && s.conversions[c].mode == CleanProduction && s.conversions[c].state == Approved
        && s.conversions[c].target == Some(s.jobs[j].tenant) && s.jobs[j].conversion == Some(c)
        && s.jobs[j].production && s.jobs[j].state == Queued && s.jobs[j].node.None?
        && s.tenants[s.jobs[j].tenant].kind == Production
        && s.tenants[s.jobs[j].tenant].pending && s.tenants[s.jobs[j].tenant].node.None?
      case ReconcileConversion(c, j) =>
        && c in s.conversions && j in s.jobs && s.jobs[j].conversion == Some(c)
        && s.conversions[c].target == Some(s.jobs[j].tenant) && s.conversions[c].mode == CleanProduction
        && s.jobs[j].tenant in s.tenants && s.tenants[s.jobs[j].tenant].kind == Production
        && (s.conversions[c].state == Approved || s.conversions[c].state == Provisioning)
        && s.jobs[j].state != Queued
      case MoveJob(j, _) => j in s.jobs && s.jobs[j].state !in {Queued, Ready}
      case _ => true
  {
    if a.RequestConversion? {
      forall d | d in s.conversions && s.conversions[d].trial == a.trial ensures s.conversions[d].state !in ACTIVE {
        assert !HasActive(s.conversions, a.trial);
      }
    }
  }

  // -- the handlers on the tables ---------------------------------------------------------------

  class Control {
    var conversions: map<Id, Request>
    var jobs: map<Id, Job>
    var tenants: map<Id, Tenant>
    const enabled: bool

    constructor (enabled: bool)
      ensures this.enabled == enabled && Snapshot(enabled) == EMPTY.(enabled := enabled, everEnabled := enabled)
    {
      this.enabled := enabled;
      conversions, jobs, tenants := map[], map[], map[];
    }

    ghost function Snapshot(everEnabled: bool): State
      reads this
    {
      State(conversions, jobs, tenants, enabled, everEnabled)
    }

    /** createConversion, past its idempotent replay; `c` is a fresh id. */
    method CreateConversion(c: Id, trial: Id, mode: Mode, ghost ever: bool) returns (created: bool)
      requires c !in conversions
      modifies this
      ensures created <==>
        && trial in old(tenants) && old(tenants)[trial].kind == Trial
        && (mode == CleanProduction ==> old(tenants)[trial].trial in {Active, Expired, Cleaned})
        && (mode == PromoteTrialData ==> old(tenants)[trial].trial == Active && old(tenants)[trial].hasDatabase)
        && forall d :: d in old(conversions) && old(conversions)[d].trial == trial ==>
             old(conversions)[d].state in {ConvFailed, Cancelled}
      ensures jobs == old(jobs) && tenants == old(tenants)
      ensures conversions ==
        if created then old(conversions)[c := Request(trial, mode, Requested, None)] else old(conversions)
      ensures if created then Next(old(Snapshot(ever)), RequestConversion(c, trial, mode), Snapshot(ever))
        else Snapshot(ever) == old(Snapshot(ever))
    {
      if trial !in tenants || tenants[trial].kind != Trial { return false; }
      var t := tenants[trial];
      if mode == PromoteTrialData {
        if t.trial != Active || !t.hasDatabase { return false; }
      } else if t.trial !in {Active, Expired, Cleaned} {
        return false;
      }
      var existing := set d | d in conversions && conversions[d].trial == trial && conversions[d].state in ACTIVE;
      if existing != {} {
        var d :| d in existing;
        assert HasActive(conversions, trial);
        return false;
      }
      forall d | d in conversions && conversions[d].trial == trial
        ensures conversions[d].state in {ConvFailed, Cancelled}
      {
        assert d !in existing;
        match conversions[d].state case Requested => case Approved => case Provisioning => case ConvReady => case _ =>
      }
      conversions := conversions[c := Request(trial, mode, Requested, None)];
      return true;
    }

    /** approveCleanProductionConversion; `t` and `j` are the fresh ids of the target tenant and its job. */
    method ApproveCleanProduction(trial: Id, c: Id, t: Id, j: Id, ghost ever: bool) returns (approved: bool)
      requires t !in tenants && j !in jobs
      modifies this
      ensures approved <==>
        && trial in old(tenants) && old(tenants)[trial].kind == Trial
        && c in old(conversions) && old(conversions)[c].trial == trial
        && old(conversions)[c].state == Requested && old(conversions)[c].mode == CleanProduction
      ensures approved ==>
        && conversions == old(conversions)[c := Request(trial, CleanProduction, Approved, Some(t))]
        && tenants == old(tenants)[t := Tenant(Production, true, None, NoTrial, false)]
        && jobs == old(jobs)[j := Job(t, Some(c), true, Queued, None)]
      ensures if approved then Next(old(Snapshot(ever)), ApproveConversion(c, t, j), Snapshot(ever))
        else Snapshot(ever) == old(Snapshot(ever))
    {
      if trial !in tenants || tenants[trial].kind != Trial { return false; }
      if c !in conversions || conversions[c].trial != trial { return false; }
      if conversions[c].state != Requested || conversions[c].mode != CleanProduction { return false; }
      tenants := tenants[t := Tenant(Production, true, None, NoTrial, false)];
      jobs := jobs[j := Job(t, Some(c), true, Queued, None)];
      conversions := conversions[c := conversions[c].(state := Approved, target := Some(t))];
      return true;
    }

    /** placeProduction, past its idempotent replay; `nodeEligible` is the verdict of the placement check. */
    method PlaceProduction(c: Id, j: Id, node: Node, nodeEligible: bool, ghost ever: bool) returns (placed: bool)
      modifies this
      ensures placed <==>
        && enabled && nodeEligible && c in old(conversions) && j in old(jobs) && old(jobs)[j].tenant in old(tenants)
        && old(conversions)[c].mode == CleanProduction && old(conversions)[c].state == Approved
        && old(conversions)[c].target == Some(old(jobs)[j].tenant) && old(jobs)[j].conversion == Some(c)
        && old(jobs)[j].production && old(jobs)[j].state == Queued && old(jobs)[j].node.None?
        && old(tenants)[old(jobs)[j].tenant].kind == Production
        && old(tenants)[old(jobs)[j].tenant].pending && old(tenants)[old(jobs)[j].tenant].node.None?
      ensures placed ==>
        var t := old(jobs)[j].tenant;
        && conversions == old(conversions)[c := old(conversions)[c].(state := Provisioning)]
        && jobs == old(jobs)[j := old(jobs)[j].(state := Placed, node := Some(node))]
        && tenants == old(tenants)[t := old(tenants)[t].(pending := false, node := Some(node))]
      ensures if placed then Next(old(Snapshot(ever)), PlaceConversion(c, j, node), Snapshot(ever))
        else Snapshot(ever) == old(Snapshot(ever))
    {
      if !enabled { return false; }
      if c !in conversions || conversions[c].mode != CleanProduction || conversions[c].target.None? { return false; }
      if j !in jobs || jobs[j].conversion != Some(c) || conversions[c].target != Some(jobs[j].tenant) { return false; }
      if conversions[c].state != Approved { return false; }
      if !jobs[j].production || jobs[j].state != Queued || jobs[j].node.Some? { return false; }
      var t := jobs[j].tenant;
      if t !in tenants || tenants[t].kind != Production || !tenants[t].pending || tenants[t].node.Some? {
        return false;
      }
      if !nodeEligible { return false; }
      jobs := jobs[j := jobs[j].(state := Placed, node := Some(node))];
      tenants := tenants[t := tenants[t].(pending := false, node := Some(node))];
      conversions := conversions[c := conversions[c].(state := Provisioning)];
      return true;
    }

    /** reconcileTrialConversionForProvisioningJob */
    method ReconcileJob(j: Id, ghost ever: bool) returns (changed: bool)
      modifies `conversions
      ensures changed <==>
        j in jobs && jobs[j].conversion.Some? && Reconcilable(old(Snapshot(ever)), j, jobs[j].conversion.value)
      ensures changed <==>
        && j in jobs && jobs[j].conversion.Some? && jobs[j].conversion.value in old(conversions)
        && jobs[j].tenant in tenants && tenants[jobs[j].tenant].kind == Production
        && var request := old(conversions)[jobs[j].conversion.value];
        && request.target == Some(jobs[j].tenant) && request.mode == CleanProduction
        && (request.state == Approved || request.state == Provisioning)
        && (jobs[j].state in {Ready, Failed}
            || (request.state == Approved && jobs[j].state in {Placed, Dispatched, Running, Retrying}))
      ensures changed ==>
        var c := jobs[j].conversion.value;
        conversions == old(conversions)[c := old(conversions)[c].(
          state := match jobs[j].state case Ready => ConvReady case Failed => ConvFailed case _ => Provisioning)]
      ensures if changed
        then Next(old(Snapshot(ever)), ReconcileConversion(jobs[j].conversion.value, j), Snapshot(ever))
              else conversions == old(conversions)
    {
      if j !in jobs || jobs[j].conversion.None? { return false; }
      var c, t := jobs[j].conversion.value, jobs[j].tenant;
      if t !in tenants || tenants[t].kind != Production { return false; }
      if c !in conversions || conversions[c].target != Some(t) || conversions[c].mode != CleanProduction {
        return false;
      }
      var target := StateFor(jobs[j].state);
      if target.None? || conversions[c].state == target.value { return false; }
      if conversions[c].state !in {Approved, Provisioning} { return false; }
      conversions := conversions[c := conversions[c].(state := target.value)];
      return true;
    }

    /** reconcileActiveTrialConversions over the rows of its query. */
    method ReconcileActive(rows: seq<Id>, ghost ever: bool) returns (changed: nat)
      modifies `conversions
      ensures Leads(Trans, old(Snapshot(ever)), Snapshot(ever)) && changed <= |rows|
      ensures forall i :: 0 <= i < |rows| && rows[i] in jobs && jobs[rows[i]].conversion.Some? ==>
        !Reconcilable(Snapshot(ever), rows[i], jobs[rows[i]].conversion.value)
    {
      changed := 0;
      LeadsSelf(Trans, Snapshot(ever));
      for i := 0 to |rows|
        invariant Leads(Trans, old(Snapshot(ever)), Snapshot(ever)) && changed <= i
        invariant forall k :: 0 <= k < i && rows[k] in jobs && jobs[rows[k]].conversion.Some? ==>
          !Reconcilable(Snapshot(ever), rows[k], jobs[rows[k]].conversion.value)
      {
        ghost var before := Snapshot(ever);
        var moved := ReconcileJob(rows[i], ever);
        if moved {
          LeadsStep(Trans, old(Snapshot(ever)), before, ReconcileConversion(jobs[rows[i]].conversion.value, rows[i]),
            Snapshot(ever));
          changed := changed + 1;
        }
      }
    }
  }
}
