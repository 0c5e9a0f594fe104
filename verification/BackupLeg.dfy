/** The backup leg at the granularity of single database calls.

    A handler is a program counter with the values it has read so far.  Every SELECT, every
    single write and every batch is one step; any number of handlers interleave and any of
    them may stop for good between two steps. */
module BackupLeg {
  import opened Common
  import opened Runs

  type Id = nat
  type Node = nat
  type Token = nat
  type Time = nat
  type Sha = nat

  /** `uploaded` occurs only in events, never in the state column. */
  datatype JobState = Queued | Dispatched | Running | Prepared | Verified | Failed

  function Rank(s: JobState): nat {
    match s
    case Queued => 0
    case Dispatched => 1
    case Running => 2
    case Prepared => 3
    case Verified => 4
    case Failed => 4
  }

  datatype Digest = Digest(size: nat, sha: Sha)

  /** `test/<tenant>/<backup>/<file of the kind>`. */
  datatype ObjectKey = ObjectKey(tenant: Id, backup: Id, kind: Kind)

  /** What lies in the object store: where it is and what it is. */
  datatype Object = Object(key: ObjectKey, version: nat, digest: Digest)

  /** One row of backup_artifacts; the object columns stay NULL until verification. */
  datatype Artifact = Artifact(digest: Digest, stored: Option<Object>)

  /** A parsed `prepared` report. */
  datatype Prep = Prep(digests: map<Kind, Digest>, total: nat, manifest: Sha)

  datatype Job = Job(tenant: Id, node: Node, state: JobState, attempt: nat, prep: Option<(nat, Sha)>)

  datatype Lease = Lease(node: Node, token: Token, expires: Time)

  datatype Tables = Tables(
    jobs: map<Id, Job>,
    leases: map<Id, Lease>,
    uploads: map<Id, Lease>,
    artifacts: map<Id, map<Kind, Artifact>>)

  function Total(d: map<Kind, Digest>): nat
    requires d.Keys == ALL_KINDS
  {
    d[DatabaseDump].size + d[FilestoreArchive].size + d[Manifest].size
  }

  /** What the parser of a `prepared` report has checked. */
  predicate Parsed(p: Prep) {
    && p.digests.Keys == ALL_KINDS && Total(p.digests) == p.total <= MAX_SAFE_INTEGER
    && p.digests[Manifest].sha == p.manifest
  }

  // ---------------------------------------------------------------------------------------
  // The statements and batches
  // ---------------------------------------------------------------------------------------

  predicate InFlight(s: JobState) { s == Dispatched || s == Running }

  /** UPDATE backup_jobs SET state = to WHERE id = j AND state satisfies the guard. */
  function SetState(t: Tables, j: Id, guard: set<JobState>, to: JobState): Tables {
    if j in t.jobs && t.jobs[j].state in guard
    then t.(jobs := t.jobs[j := t.jobs[j].(state := to)])
    else t
  }

  function DropLease(t: Tables, j: Id): Tables { t.(leases := t.leases - {j}) }

  function DropUpload(t: Tables, j: Id): Tables { t.(uploads := t.uploads - {j}) }

  function FailBatch(t: Tables, j: Id): Tables {
    DropLease(SetState(t, j, {Dispatched, Running}, Failed), j)
  }

  function DispatchBatch(t: Tables, j: Id): Tables {
    if j in t.jobs && t.jobs[j].state == Queued
    then t.(jobs := t.jobs[j := t.jobs[j].(state := Dispatched, attempt := t.jobs[j].attempt + 1)])
    else t
  }

  /** UPDATE ... SET lease_expires_at = until WHERE backup_job_id = j. */
  function Renew(leases: map<Id, Lease>, j: Id, until: Time): map<Id, Lease> {
    if j in leases then leases[j := leases[j].(expires := until)] else leases
  }

  function RunningBatch(t: Tables, j: Id, until: Time): Tables {
    var t1 := SetState(t, j, {Dispatched}, Running);
    t1.(leases := Renew(t1.leases, j, until))
  }

  /** INSERT ... ON CONFLICT(backup_job_id, artifact_kind) DO UPDATE SET size_bytes, sha256. */
  function Upsert(rows: map<Kind, Artifact>, p: Prep): map<Kind, Artifact> {
    rows + map k | k in p.digests ::
      Artifact(p.digests[k], if k in rows then rows[k].stored else None)
  }

  function Rows(t: Tables, j: Id): map<Kind, Artifact> {
    if j in t.artifacts then t.artifacts[j] else map[]
  }

  function PreparedBatch(t: Tables, j: Id, p: Prep): Tables {
    var jobs :=
      if j in t.jobs && t.jobs[j].state == Running
      then t.jobs[j := t.jobs[j].(state := Prepared, prep := Some((p.total, p.manifest)))]
      else t.jobs;
    t.(jobs := jobs, leases := t.leases - {j}, artifacts := t.artifacts[j := Upsert(Rows(t, j), p)])
  }

  /** UPDATE backup_artifacts SET object_key, object_version WHERE ... size_bytes = ? AND sha256 = ?. */
  function SetObjects(rows: map<Kind, Artifact>, r: map<Kind, Object>): map<Kind, Artifact> {
    map k | k in rows ::
      if k in r && r[k].digest == rows[k].digest then rows[k].(stored := Some(r[k])) else rows[k]
  }

  function VerifyBatch(t: Tables, j: Id, r: map<Kind, Object>): Tables {
    var t1 :=
      t.(artifacts := if j in t.artifacts then t.artifacts[j := SetObjects(t.artifacts[j], r)] else t.artifacts);
    DropUpload(SetState(t1, j, {Prepared}, Verified), j)
  }

  /** What one database call may change. */
  datatype Write =
    | NoWrite
    | InsertLease(job: Id, lease: Lease)
    | DeleteLease(job: Id)
    | RenewLease(job: Id, until: Time)
    | Fail(job: Id)
    | Dispatch(job: Id)
    | Start(job: Id, until: Time)
    | Prepare(job: Id, prep: Prep)
    | InsertUpload(job: Id, lease: Lease)
    | DeleteUpload(job: Id)
    | RenewUpload(job: Id, until: Time)
    | Verify(job: Id, returned: map<Kind, Object>)

  function Apply(t: Tables, w: Write): Tables {
    match w
    case NoWrite => t
    case InsertLease(j, lease) => t.(leases := t.leases[j := lease])
    case DeleteLease(j) => DropLease(t, j)
    case RenewLease(j, until) => t.(leases := Renew(t.leases, j, until))
    case Fail(j) => FailBatch(t, j)
    case Dispatch(j) => DispatchBatch(t, j)
    case Start(j, until) => RunningBatch(t, j, until)
    case Prepare(j, p) => PreparedBatch(t, j, p)
    case InsertUpload(j, lease) => t.(uploads := t.uploads[j := lease])
    case DeleteUpload(j) => DropUpload(t, j)
    case RenewUpload(j, until) => t.(uploads := Renew(t.uploads, j, until))
    case Verify(j, r) => VerifyBatch(t, j, r)
  }

  /** The rows the expiry SELECT of the claim may return: dispatched or running, lapsed, at most 20. */
  predicate LapsedScan(t: Tables, node: Node, now: Time, rows: seq<Id>) {
    && |rows| <= 20
    && (forall i, k :: 0 <= i < k < |rows| ==> rows[i] != rows[k])
    && (forall i :: 0 <= i < |rows| ==>
          rows[i] in t.leases && rows[i] in t.jobs && t.leases[rows[i]].node == node
          && t.leases[rows[i]].expires <= now && InFlight(t.jobs[rows[i]].state))
  }

  predicate UploadScan(t: Tables, node: Node, now: Time, rows: seq<Id>) {
    && |rows| <= 20
    && (forall i :: 0 <= i < |rows| ==>
          rows[i] in t.uploads && t.uploads[rows[i]].node == node && t.uploads[rows[i]].expires <= now)
  }

  predicate Claimable(t: Tables, node: Node, j: Id) {
    j in t.jobs && t.jobs[j].node == node && t.jobs[j].state == Queued && j !in t.leases
  }

  predicate UploadClaimable(t: Tables, node: Node, j: Id) {
    && j in t.jobs && t.jobs[j].node == node && t.jobs[j].state == Prepared && t.jobs[j].prep.Some?
    && |Rows(t, j)| == 3 && j !in t.uploads
  }

  predicate MatchesStored(t: Tables, j: Id, r: map<Kind, Object>) {
    && j in t.jobs && |Rows(t, j)| == 3
    && (forall k :: k in r ==>
          k in Rows(t, j) && Rows(t, j)[k].digest == r[k].digest
          && r[k].key == ObjectKey(t.jobs[j].tenant, j, k))
  }

  // ---------------------------------------------------------------------------------------
  // Handlers
  // ---------------------------------------------------------------------------------------

  datatype Input = RunningIn | PreparedIn(prep: Prep) | FailedIn

  /** `VerifiedIn` carries what parseVerifiedArtifacts lets through: all three kinds. */
  datatype UploadInput = UploadRunning | UploadFailed | VerifiedIn(returned: map<Kind, Object>)

  /** Where a handler stands; the name says which database call it makes next. */
  datatype Pc =
    | ClaimScan(node: Node, token: Token, now: Time)
    | ClaimSweep(node: Node, token: Token, rows: seq<Id>)
    | ClaimExpire(node: Node, token: Token, rows: seq<Id>)
    | ClaimInsert(node: Node, token: Token, until: Time)
    | ClaimSource(node: Node, token: Token, job: Id)
    | ClaimDispatch(node: Node, token: Token, job: Id)
    | ClaimRevoke(job: Id)
    | ReportLease(node: Node, job: Id, token: Token, input: Input, now: Time)
    | ReportState(node: Node, job: Id, input: Input)
    | ReportWrite(job: Id, input: Input, seen: JobState, until: Time)
    | UploadClaimScan(node: Node, token: Token, now: Time)
    | UploadClaimExpire(node: Node, token: Token, rows: seq<Id>)
    | UploadClaimInsert(node: Node, token: Token, until: Time)
    | UploadClaimSource(node: Node, job: Id)
    | UploadClaimRows(job: Id, found: bool)
    | UploadClaimNote(job: Id)
    | UploadClaimRevoke(job: Id)
    | UploadReportLease(node: Node, job: Id, token: Token, result: UploadInput, now: Time)
    | UploadLapsed(job: Id)
    | UploadReportState(node: Node, job: Id, result: UploadInput, until: Time)
    | UploadReportMatch(node: Node, job: Id, returned: map<Kind, Object>)
    | UploadReportWrite(job: Id, returned: map<Kind, Object>)
    | Finished

  /** The handler owns a lease row it inserted and has not yet turned into a dispatch. */
  predicate Holds(pc: Pc, j: Id) {
    (pc.ClaimSource? || pc.ClaimDispatch?) && pc.job == j
  }

  predicate Sweeps(pc: Pc, j: Id) {
    (pc.ClaimSweep? || pc.ClaimExpire?) && j in pc.rows
  }

  /** The first call of each of the four handlers. */
  predicate Initial(pc: Pc) {
    || pc.ClaimScan?
    || (pc.ReportLease? && (pc.input.PreparedIn? ==> Parsed(pc.input.prep)))
    || pc.UploadClaimScan?
    || (pc.UploadReportLease? && (pc.result.VerifiedIn? ==> pc.result.returned.Keys == ALL_KINDS))
  }

  /** `handed` logs the claims whose operation was answered to an agent. */
  datatype State = State(t: Tables, pcs: map<Id, Pc>, handed: seq<Id>)

  /** Against tables t a handler at pc may make the write w and go on to pc'. */
  ghost predicate Call(t: Tables, pc: Pc, w: Write, pc': Pc) {
    ClaimCall(t, pc, w, pc') || ReportCall(t, pc, w, pc') || UploadCall(t, pc, w, pc')
  }

  ghost predicate ClaimCall(t: Tables, pc: Pc, w: Write, pc': Pc) {
    match pc
    case ClaimScan(node, token, now) =>
      w == NoWrite && exists rows :: LapsedScan(t, node, now, rows) && pc' == ClaimSweep(node, token, rows)
    case ClaimSweep(node, token, rows) =>
      w == NoWrite &&
      if rows == [] then pc'.ClaimInsert? && pc'.node == node && pc'.token == token
      else if rows[0] in t.jobs then pc' == ClaimExpire(node, token, rows)
      else pc' == ClaimSweep(node, token, rows[1..])
    case ClaimExpire(node, token, rows) =>
      rows != [] && w == Fail(rows[0]) && pc' == ClaimSweep(node, token, rows[1..])
    case ClaimInsert(node, token, until) =>
      if w.InsertLease? then
        Claimable(t, node, w.job) && w.lease == Lease(node, token, until) && pc' == ClaimSource(node, token, w.job)
      else
        w == NoWrite && pc' == Finished && forall j :: !Claimable(t, node, j)
    case ClaimSource(node, token, job) =>
      w == NoWrite && pc' ==
        if job in t.jobs && t.jobs[job].node == node && t.jobs[job].state == Queued
        then ClaimDispatch(node, token, job) else ClaimRevoke(job)
    case ClaimDispatch(_, _, job) => w == Dispatch(job) && pc' == Finished
    case ClaimRevoke(job) => w == DeleteLease(job) && pc' == Finished
    case _ => false
  }

  ghost predicate ReportCall(t: Tables, pc: Pc, w: Write, pc': Pc) {
    match pc
    case ReportLease(node, job, token, input, now) =>
      w == NoWrite && pc' ==
        if job in t.leases && t.leases[job].node == node && t.leases[job].token == token && now < t.leases[job].expires
        then ReportState(node, job, input) else Finished
    case ReportState(node, job, input) =>
      w == NoWrite &&
      if job in t.jobs && t.jobs[job].node == node && Allowed(input, t.jobs[job].state)
      then pc'.ReportWrite? && pc'.job == job && pc'.input == input && pc'.seen == t.jobs[job].state
      else pc' == Finished
    case ReportWrite(job, input, seen, until) =>
      pc' == Finished && w == (match input
        case RunningIn => if seen == Running then RenewLease(job, until) else Write.Start(job, until)
        case PreparedIn(p) => Prepare(job, p)
        case FailedIn => Fail(job))
    case _ => false
  }

  ghost predicate UploadCall(t: Tables, pc: Pc, w: Write, pc': Pc) {
    match pc
    case UploadClaimScan(node, token, now) =>
      w == NoWrite && exists rows :: UploadScan(t, node, now, rows) && pc' == UploadClaimExpire(node, token, rows)
    case UploadClaimExpire(node, token, rows) =>
      if rows == [] then w == NoWrite && pc'.UploadClaimInsert? && pc'.node == node && pc'.token == token
      else w == DeleteUpload(rows[0]) && pc' == UploadClaimExpire(node, token, rows[1..])
    case UploadClaimInsert(node, token, until) =>
      if w.InsertUpload? then
        UploadClaimable(t, node, w.job) && w.lease == Lease(node, token, until) && pc' == UploadClaimSource(node, w.job)
      else
        w == NoWrite && pc' == Finished && forall j :: !UploadClaimable(t, node, j)
    case UploadClaimSource(node, job) =>
      w == NoWrite && pc' ==
        UploadClaimRows(job, job in t.jobs && t.jobs[job].node == node && t.jobs[job].state == Prepared)
    case UploadClaimRows(job, found) =>
      w == NoWrite && pc' == if found && |Rows(t, job)| == 3 then UploadClaimNote(job) else UploadClaimRevoke(job)
    case UploadClaimNote(_) => w == NoWrite && pc' == Finished
    case UploadClaimRevoke(job) => w == DeleteUpload(job) && pc' == Finished
    case UploadReportLease(node, job, token, result, now) =>
      w == NoWrite &&
      if job in t.uploads && t.uploads[job].node == node && t.uploads[job].token == token
      then if t.uploads[job].expires <= now then pc' == UploadLapsed(job)
           else pc'.UploadReportState? && pc'.node == node && pc'.job == job && pc'.result == result
      else pc' == Finished
    case UploadLapsed(job) => w == DeleteUpload(job) && pc' == Finished
    case UploadReportState(node, job, result, until) =>
      (match result
       case UploadRunning => w == RenewUpload(job, until) && pc' == Finished
       case UploadFailed => w == DeleteUpload(job) && pc' == Finished
       case VerifiedIn(returned) =>
         w == NoWrite && pc' ==
           if job in t.jobs && t.jobs[job].node == node && t.jobs[job].state == Prepared
           then UploadReportMatch(node, job, returned) else Finished)
    case UploadReportMatch(_, job, returned) =>
      w == NoWrite && pc' == if MatchesStored(t, job, returned) then UploadReportWrite(job, returned) else Finished
    case UploadReportWrite(job, returned) => w == Verify(job, returned) && pc' == Finished
    case _ => false
  }

  /** The transitions reportBackupResult lets through to a write. */
  predicate Allowed(input: Input, state: JobState) {
    match input
    case RunningIn => InFlight(state)
    case PreparedIn(_) => state == Running
    case FailedIn => InFlight(state)
  }

  datatype Action =
    | Create(job: Id, row: Job)
    | Arrive(handler: Id, pc: Pc)
    | Step(handler: Id)
    | Crash(handler: Id)

  /** Answering a claim with an operation is the hand-over. */
  function After(s: State, h: Id, w: Write, pc': Pc): State {
    State(Apply(s.t, w), s.pcs[h := pc'], Log(w, s.handed))
  }

  ghost predicate Next(s: State, a: Action, s': State) {
    match a
    case Create(job, row) =>
      && job !in s.t.jobs && row.state == Queued && row.attempt == 0 && row.prep == None
      && s' == s.(t := s.t.(jobs := s.t.jobs[job := row]))
    case Arrive(h, pc) =>
      h !in s.pcs && Initial(pc) && s' == s.(pcs := s.pcs[h := pc])
    case Step(h) =>
      && h in s.pcs
      && (exists w, pc' :: Call(s.t, s.pcs[h], w, pc') && s' == After(s, h, w, pc'))
    case Crash(h) =>
      h in s.pcs && s' == s.(pcs := s.pcs[h := Finished])
  }

  const EMPTY := State(Tables(map[], map[], map[], map[]), map[], [])

  ghost const Trans: (State, Action, State) -> bool := (s, a, s') => Next(s, a, s')

  ghost predicate Reachable(s: State) { Leads(Trans, EMPTY, s) }

  // ---------------------------------------------------------------------------------------
  // The invariant
  // ---------------------------------------------------------------------------------------

  /** A lease row implies queued, dispatched or running; dispatched or running implies a lease row. */
  ghost predicate LeaseInv(t: Tables) {
    && (forall j :: j in t.leases ==>
          j in t.jobs && Rank(t.jobs[j].state) <= 2 && t.leases[j].node == t.jobs[j].node)
    && (forall j :: j in t.jobs && InFlight(t.jobs[j].state) ==> j in t.leases)
  }

  /** A handler between its lease insert and its dispatch is alone on a queued job that has its lease. */
  ghost predicate HolderInv(t: Tables, pcs: map<Id, Pc>) {
    && (forall h, j :: h in pcs && Holds(pcs[h], j) ==>
          j in t.jobs && t.jobs[j].state == Queued && t.jobs[j].node == pcs[h].node
          && j in t.leases && t.leases[j].token == pcs[h].token)
    && (forall h, g, j :: h in pcs && g in pcs && Holds(pcs[h], j) && Holds(pcs[g], j) ==> h == g)
    && (forall h :: h in pcs ==> !pcs[h].ClaimRevoke?)
  }

  /** What a handler read is a lower bound of the present state. */
  ghost predicate ReaderInv(t: Tables, pcs: map<Id, Pc>) {
    && (forall h, j :: h in pcs && Sweeps(pcs[h], j) ==>
          j in t.jobs && Rank(t.jobs[j].state) >= 1)
    && (forall h :: h in pcs && pcs[h].ReportWrite? ==>
          pcs[h].job in t.jobs && Allowed(pcs[h].input, pcs[h].seen)
          && Rank(pcs[h].seen) <= Rank(t.jobs[pcs[h].job].state))
  }

  /** Exactly the jobs that have left `queued` were handed out, each once. */
  ghost predicate HandedInv(t: Tables, handed: seq<Id>) {
    && (forall i, k :: 0 <= i < k < |handed| ==> handed[i] != handed[k])
    && (forall j :: j in handed <==> j in t.jobs && t.jobs[j].state != Queued)
    && (forall j :: j in t.jobs ==> t.jobs[j].attempt == if t.jobs[j].state == Queued then 0 else 1)
  }

  ghost predicate Inv(s: State) {
    LeaseInv(s.t) && HolderInv(s.t, s.pcs) && ReaderInv(s.t, s.pcs) && HandedInv(s.t, s.handed)
  }

  /** No step lowers a rank, resurrects a terminal state or removes a job. */
  ghost predicate Forward(t: Tables, t': Tables) {
    forall j :: j in t.jobs ==>
      && j in t'.jobs
      && t'.jobs[j].node == t.jobs[j].node && t'.jobs[j].tenant == t.jobs[j].tenant
      && Rank(t.jobs[j].state) <= Rank(t'.jobs[j].state)
      && (t.jobs[j].state in {Verified, Failed} ==> t'.jobs[j] == t.jobs[j])
      && (t'.jobs[j].state == Verified && t.jobs[j].state != Verified ==> t.jobs[j].state == Prepared)
      && (t'.jobs[j].state == Failed && t.jobs[j].state != Failed ==> InFlight(t.jobs[j].state))
  }

  /** What a write does to one job row and its lease. */
  ghost predicate RowEffect(t: Tables, w: Write, t': Tables, j: Id) {
    && (j in t'.jobs <==> j in t.jobs)
    && (j in t.jobs ==>
          var r, r' := t.jobs[j], t'.jobs[j];
          && r'.node == r.node && r'.tenant == r.tenant
          && r'.state ==
               (if w == Dispatch(j) && r.state == Queued then Dispatched
                else if w.Start? && w.job == j && r.state == Dispatched then Running
                else if w.Prepare? && w.job == j && r.state == Running then Prepared
                else if w.Verify? && w.job == j && r.state == Prepared then Verified
                else if w == Fail(j) && InFlight(r.state) then Failed
                else r.state)
          && r'.attempt == (if w == Dispatch(j) && r.state == Queued then r.attempt + 1 else r.attempt)
          && r'.prep == (if w.Prepare? && w.job == j && r.state == Running then Some((w.prep.total, w.prep.manifest))
                         else r.prep))
    && (j in t'.leases <==>
          !((w.DeleteLease? || w.Fail? || w.Prepare?) && w.job == j)
          && (j in t.leases || (w.InsertLease? && w.job == j)))
    && (j in t.leases && j in t'.leases && !w.InsertLease? ==>
          t'.leases[j].node == t.leases[j].node && t'.leases[j].token == t.leases[j].token)
    && (w.InsertLease? && j in t'.leases ==> t'.leases[j] == if w.job == j then w.lease else t.leases[j])
  }

  /** The batches that guard on the state. */
  predicate Batched(w: Write) { w.Fail? || w.Dispatch? || w.Start? || w.Prepare? || w.Verify? }

  lemma BatchOnJob(t: Tables, w: Write, j: Id)
    requires Batched(w)
    ensures RowEffect(t, w, Apply(t, w), j)
  {
  }

  lemma SingleOnJob(t: Tables, w: Write, j: Id)
    requires !Batched(w)
    ensures RowEffect(t, w, Apply(t, w), j)
  {
  }

  lemma WriteOnJob(t: Tables, w: Write, j: Id)
    ensures RowEffect(t, w, Apply(t, w), j)
  {
    hide RowEffect, Apply, Batched;
    if Batched(w) { BatchOnJob(t, w, j); } else { SingleOnJob(t, w, j); }
  }

  lemma EffectsMoveForward(t: Tables, w: Write, t': Tables)
    requires forall j :: j in t.jobs ==> RowEffect(t, w, t', j)
    ensures Forward(t, t')
  {
  }

  lemma WriteMovesForward(t: Tables, w: Write)
    ensures Forward(t, Apply(t, w))
  {
    hide RowEffect, Apply, Forward;
    forall j | j in t.jobs ensures RowEffect(t, w, Apply(t, w), j) {
      WriteOnJob(t, w, j);
    }
    EffectsMoveForward(t, w, Apply(t, w));
  }

  lemma StepMovesForward(s: State, a: Action, s': State)
    requires Next(s, a, s')
    ensures Forward(s.t, s'.t)
  {
    if a.Step? {
      var w, pc' :| Call(s.t, s.pcs[a.handler], w, pc') && s' == After(s, a.handler, w, pc');
      WriteMovesForward(s.t, w);
    }
  }

  /** The writes a handler makes hit the states its earlier reads promised. */
  ghost predicate Sound(t: Tables, w: Write) {
    match w
    case InsertLease(j, lease) =>
      j in t.jobs && t.jobs[j].state == Queued && lease.node == t.jobs[j].node && j !in t.leases
    case DeleteLease(_) => false
    case Fail(j) => j in t.jobs && Rank(t.jobs[j].state) >= 1
    case Dispatch(j) => j in t.jobs && t.jobs[j].state == Queued && j in t.leases
    case Start(j, _) => j in t.jobs && Rank(t.jobs[j].state) >= 1
    case Prepare(j, _) => j in t.jobs && Rank(t.jobs[j].state) >= 2
    case _ => true
  }

  lemma ClaimsAreSound(s: State, h: Id, w: Write, pc': Pc)
    requires Inv(s) && h in s.pcs && ClaimCall(s.t, s.pcs[h], w, pc')
    ensures Sound(s.t, w)
  {
    hide LeaseInv, HandedInv;
    var pc := s.pcs[h];
    if pc.ClaimExpire? {
      assert Sweeps(pc, pc.rows[0]);
    } else if pc.ClaimDispatch? {
      assert Holds(pc, pc.job);
    }
  }

  lemma ReportsAreSound(s: State, h: Id, w: Write, pc': Pc)
    requires Inv(s) && h in s.pcs && ReportCall(s.t, s.pcs[h], w, pc')
    ensures Sound(s.t, w)
  {
    hide LeaseInv, HandedInv, HolderInv;
  }

  lemma CallsAreSound(s: State, h: Id, w: Write, pc': Pc)
    requires Inv(s) && h in s.pcs && Call(s.t, s.pcs[h], w, pc')
    ensures Sound(s.t, w)
  {
    hide Inv, ClaimCall, ReportCall;
    if ClaimCall(s.t, s.pcs[h], w, pc') {
      ClaimsAreSound(s, h, w, pc');
    } else if ReportCall(s.t, s.pcs[h], w, pc') {
      ReportsAreSound(s, h, w, pc');
    }
  }

  lemma EffectKeepsLeases(t: Tables, w: Write, t': Tables)
    requires LeaseInv(t) && Sound(t, w)
    requires forall j :: RowEffect(t, w, t', j)
    ensures LeaseInv(t')
  {
    forall j ensures
      && (j in t'.leases ==> j in t'.jobs && Rank(t'.jobs[j].state) <= 2 && t'.leases[j].node == t'.jobs[j].node)
      && (j in t'.jobs && InFlight(t'.jobs[j].state) ==> j in t'.leases)
    {
      assert RowEffect(t, w, t', j);
    }
  }

  lemma WriteKeepsLeases(t: Tables, w: Write)
    requires LeaseInv(t) && Sound(t, w)
    ensures LeaseInv(Apply(t, w))
  {
    forall j {
      WriteOnJob(t, w, j);
    }
    EffectKeepsLeases(t, w, Apply(t, w));
  }

  /** No sound write takes a queued job or its lease from the handler that holds it. */
  lemma WriteSparesQueued(t: Tables, w: Write, j: Id)
    requires LeaseInv(t) && Sound(t, w) && j in t.jobs && t.jobs[j].state == Queued && j in t.leases
    requires !(w.Dispatch? && w.job == j)
    ensures var t' := Apply(t, w);
      j in t'.jobs && t'.jobs[j] == t.jobs[j] && j in t'.leases && t'.leases[j].token == t.leases[j].token
  {
    WriteOnJob(t, w, j);
  }

  /** How handler g comes to hold job j after a call of h: it held it before, or it has just inserted the lease. */
  ghost predicate Origin(s: State, h: Id, w: Write, pcs': map<Id, Pc>, g: Id, j: Id)
    requires g in pcs' && Holds(pcs'[g], j)
  {
    && g in s.pcs
    && !(w.Dispatch? && w.job == j)
    && (|| (Holds(s.pcs[g], j) && s.pcs[g].node == pcs'[g].node && s.pcs[g].token == pcs'[g].token)
        || (g == h && w.InsertLease? && w.job == j && Claimable(s.t, pcs'[g].node, j)
           && w.lease.token == pcs'[g].token))
  }

  lemma DispatchIsHeld(s: State, h: Id, w: Write, pc': Pc)
    requires h in s.pcs && Call(s.t, s.pcs[h], w, pc') && w.Dispatch?
    ensures Holds(s.pcs[h], w.job)
  {
    assert !UploadCall(s.t, s.pcs[h], w, pc') by { hide ClaimCall, ReportCall; }
    assert !ReportCall(s.t, s.pcs[h], w, pc') by { hide ClaimCall, UploadCall; }
  }

  lemma HolderOrigin(s: State, h: Id, w: Write, pc': Pc, g: Id, j: Id)
    requires Inv(s) && h in s.pcs && Call(s.t, s.pcs[h], w, pc')
    requires g in s.pcs[h := pc'] && Holds(s.pcs[h := pc'][g], j)
    ensures Origin(s, h, w, s.pcs[h := pc'], g, j)
  {
    if w.Dispatch? && w.job == j { DispatchIsHeld(s, h, w, pc'); }
  }

  /** Two handlers never come to hold one job. */
  lemma OriginsAgree(s: State, h: Id, w: Write, pcs': map<Id, Pc>)
    requires HolderInv(s.t, s.pcs)
    requires forall g, j :: g in pcs' && Holds(pcs'[g], j) ==> Origin(s, h, w, pcs', g, j)
    ensures forall g, k, j :: g in pcs' && k in pcs' && Holds(pcs'[g], j) && Holds(pcs'[k], j) ==> g == k
  {
    forall g, k, j | g in pcs' && k in pcs' && Holds(pcs'[g], j) && Holds(pcs'[k], j) ensures g == k {
      assert Origin(s, h, w, pcs', g, j) && Origin(s, h, w, pcs', k, j);
    }
  }

  lemma OriginKeepsHolders(s: State, h: Id, w: Write, pcs': map<Id, Pc>)
    requires LeaseInv(s.t) && HolderInv(s.t, s.pcs) && Sound(s.t, w)
    requires forall g, j :: g in pcs' && Holds(pcs'[g], j) ==> Origin(s, h, w, pcs', g, j)
    requires forall g :: g in pcs' ==> !pcs'[g].ClaimRevoke?
    ensures HolderInv(Apply(s.t, w), pcs')
  {
    var t' := Apply(s.t, w);
    forall g, j | g in pcs' && Holds(pcs'[g], j)
      ensures j in t'.jobs && t'.jobs[j].state == Queued && t'.jobs[j].node == pcs'[g].node
      ensures j in t'.leases && t'.leases[j].token == pcs'[g].token
    {
      assert Origin(s, h, w, pcs', g, j);
      if Holds(s.pcs[g], j) {
        WriteSparesQueued(s.t, w, j);
      } else {
        WriteOnJob(s.t, w, j);
      }
    }
    OriginsAgree(s, h, w, pcs');
  }

  lemma NoRevoke(s: State, h: Id, w: Write, pc': Pc)
    requires Inv(s) && h in s.pcs && Call(s.t, s.pcs[h], w, pc')
    ensures !pc'.ClaimRevoke?
  {
    if s.pcs[h].ClaimSource? { assert Holds(s.pcs[h], s.pcs[h].job); }
  }

  lemma CallKeepsHolders(s: State, h: Id, w: Write, pc': Pc)
    requires Inv(s) && h in s.pcs && Call(s.t, s.pcs[h], w, pc') && Sound(s.t, w)
    ensures HolderInv(Apply(s.t, w), s.pcs[h := pc'])
  {
    hide Call, Apply, LeaseInv, HandedInv, ReaderInv;
    var pcs' := s.pcs[h := pc'];
    forall g, j | g in pcs' && Holds(pcs'[g], j) ensures Origin(s, h, w, pcs', g, j) {
      HolderOrigin(s, h, w, pc', g, j);
    }
    NoRevoke(s, h, w, pc');
    OriginKeepsHolders(s, h, w, pcs');
  }

  lemma CallSweepsTruly(s: State, h: Id, w: Write, pc': Pc, j: Id)
    requires ReaderInv(s.t, s.pcs) && h in s.pcs && Call(s.t, s.pcs[h], w, pc') && Sweeps(pc', j)
    ensures j in s.t.jobs && Rank(s.t.jobs[j].state) >= 1
  {
    assert ClaimCall(s.t, s.pcs[h], w, pc') by { hide ClaimCall, ReaderInv; }
    hide ReportCall, UploadCall;
    if s.pcs[h].ClaimScan? {
      assert j in s.t.jobs && InFlight(s.t.jobs[j].state);
    } else {
      assert Sweeps(s.pcs[h], j);
    }
  }

  /** A new program counter promises no more than the tables hold. */
  lemma CallReadsTruly(s: State, h: Id, w: Write, pc': Pc)
    requires Inv(s) && h in s.pcs && Call(s.t, s.pcs[h], w, pc')
    ensures forall j :: Sweeps(pc', j) ==> j in s.t.jobs && Rank(s.t.jobs[j].state) >= 1
    ensures pc'.ReportWrite? ==>
      pc'.job in s.t.jobs && Allowed(pc'.input, pc'.seen) && Rank(pc'.seen) <= Rank(s.t.jobs[pc'.job].state)
  {
    hide LeaseInv, HandedInv, HolderInv;
    assert s.pcs[h].ReportState? <== pc'.ReportWrite? by { hide ReaderInv, LapsedScan, UploadScan; }
    forall j | Sweeps(pc', j) ensures j in s.t.jobs && Rank(s.t.jobs[j].state) >= 1 {
      hide ReportCall, UploadCall;
      CallSweepsTruly(s, h, w, pc', j);
    }
  }

  lemma CallKeepsReaders(s: State, h: Id, w: Write, pc': Pc)
    requires Inv(s) && h in s.pcs && Call(s.t, s.pcs[h], w, pc')
    ensures ReaderInv(Apply(s.t, w), s.pcs[h := pc'])
  {
    hide Call, Apply, LeaseInv, HandedInv, HolderInv;
    WriteMovesForward(s.t, w);
    CallReadsTruly(s, h, w, pc');
  }

  function Log(w: Write, handed: seq<Id>): seq<Id> {
    if w.Dispatch? then handed + [w.job] else handed
  }

  lemma EffectKeepsHanded(t: Tables, w: Write, t': Tables, handed: seq<Id>)
    requires Sound(t, w) && HandedInv(t, handed)
    requires forall j :: RowEffect(t, w, t', j)
    ensures HandedInv(t', Log(w, handed))
  {
    forall j ensures
      && (j in Log(w, handed) <==> j in t'.jobs && t'.jobs[j].state != Queued)
      && (j in t'.jobs ==> t'.jobs[j].attempt == if t'.jobs[j].state == Queued then 0 else 1)
    {
      assert RowEffect(t, w, t', j);
      assert j in Log(w, handed) <==> j in handed || w == Dispatch(j);
    }
  }

  lemma WriteKeepsHanded(t: Tables, w: Write, handed: seq<Id>)
    requires Sound(t, w) && HandedInv(t, handed)
    ensures HandedInv(Apply(t, w), Log(w, handed))
  {
    forall j {
      WriteOnJob(t, w, j);
    }
    EffectKeepsHanded(t, w, Apply(t, w), handed);
  }

  lemma {:induction false} ArrivalKeepsInv(s: State, a: Action, s': State)
    requires Inv(s) && Next(s, a, s') && (a.Arrive? || a.Crash?)
    ensures Inv(s')
  {
    forall g, j | g in s'.pcs && (Holds(s'.pcs[g], j) || Sweeps(s'.pcs[g], j))
      ensures g in s.pcs && s.pcs[g] == s'.pcs[g]
    {
    }
  }

  /** The tables with one more queued job. */
  predicate Grown(t: Tables, job: Id, t': Tables) {
    && job !in t.jobs && job in t'.jobs && t'.jobs[job].state == Queued && t'.jobs[job].attempt == 0
    && t' == t.(jobs := t.jobs[job := t'.jobs[job]])
  }

  lemma CreationKeepsTables(t: Tables, job: Id, t': Tables, handed: seq<Id>)
    requires Grown(t, job, t') && LeaseInv(t) && HandedInv(t, handed)
    ensures LeaseInv(t') && HandedInv(t', handed)
  {
  }

  lemma KeptRowsKeepHolders(t: Tables, t': Tables, pcs: map<Id, Pc>)
    requires (forall j :: j in t.jobs ==> j in t'.jobs && t'.jobs[j] == t.jobs[j]) && t'.leases == t.leases
    requires HolderInv(t, pcs)
    ensures HolderInv(t', pcs)
  {
    hide Holds;
  }

  lemma KeptRowsKeepReaders(t: Tables, t': Tables, pcs: map<Id, Pc>)
    requires forall j :: j in t.jobs ==> j in t'.jobs && t'.jobs[j] == t.jobs[j]
    requires ReaderInv(t, pcs)
    ensures ReaderInv(t', pcs)
  {
    hide Sweeps, Allowed;
  }

  lemma CreationKeepsInv(s: State, a: Action, s': State)
    requires Inv(s) && Next(s, a, s') && a.Create?
    ensures Inv(s')
  {
    hide Call, Apply, LeaseInv, HandedInv, HolderInv, ReaderInv;
    CreationKeepsTables(s.t, a.job, s'.t, s.handed);
    KeptRowsKeepHolders(s.t, s'.t, s.pcs);
    KeptRowsKeepReaders(s.t, s'.t, s.pcs);
  }

  lemma StepKeepsInv(s: State, a: Action, s': State)
    requires Inv(s) && Next(s, a, s')
    ensures Inv(s')
  {
    hide Call, ClaimCall, ReportCall, UploadCall, Apply;
    match a
    case Create(_, _) => CreationKeepsInv(s, a, s');
    case Arrive(_, _) => ArrivalKeepsInv(s, a, s');
    case Crash(_) => ArrivalKeepsInv(s, a, s');
    case Step(h) =>
      var w, pc' :| Call(s.t, s.pcs[h], w, pc') && s' == After(s, h, w, pc');
      CallsAreSound(s, h, w, pc');
      WriteKeepsLeases(s.t, w);
      CallKeepsHolders(s, h, w, pc');
      CallKeepsReaders(s, h, w, pc');
      WriteKeepsHanded(s.t, w, s.handed);
  }

  // ---------------------------------------------------------------------------------------
  // Whole runs
  // ---------------------------------------------------------------------------------------

  lemma LeadsInv(s: State, s': State)
    requires Inv(s) && Leads(Trans, s, s')
    ensures Inv(s')
  {
    forall s, a, s' | Inv(s) && Trans(s, a, s') ensures Inv(s') {
      StepKeepsInv(s, a, s');
    }
    LeadsKeeps(Trans, (s: State) => Inv(s), s, s');
  }

  lemma NoHandlers(t: Tables)
    ensures HolderInv(t, map[]) && ReaderInv(t, map[])
  {
  }

  lemma EmptyInv()
    ensures Inv(EMPTY)
  {
    hide HolderInv, ReaderInv;
    NoHandlers(EMPTY.t);
    assert LeaseInv(EMPTY.t);
    hide LeaseInv;
    assert HandedInv(EMPTY.t, EMPTY.handed);
  }

  lemma InvMeans(s: State)
    requires Inv(s)
    ensures forall j :: j in s.t.leases ==> j in s.t.jobs && s.t.jobs[j].state in {Queued, Dispatched, Running}
    ensures forall j :: j in s.t.jobs && s.t.jobs[j].state in {Dispatched, Running} ==> j in s.t.leases
    ensures forall i, k :: 0 <= i < k < |s.handed| ==> s.handed[i] != s.handed[k]
    ensures forall j :: j in s.t.jobs ==> s.t.jobs[j].attempt <= 1
  {
    hide HolderInv, ReaderInv;
  }

  /** In every reachable state: leases mirror the work in flight, and no job was handed out twice. */
  lemma BackupLegSafety(s: State)
    requires Reachable(s)
    ensures forall j :: j in s.t.leases ==> j in s.t.jobs && s.t.jobs[j].state in {Queued, Dispatched, Running}
    ensures forall j :: j in s.t.jobs && s.t.jobs[j].state in {Dispatched, Running} ==> j in s.t.leases
    ensures forall i, k :: 0 <= i < k < |s.handed| ==> s.handed[i] != s.handed[k]
    ensures forall j :: j in s.t.jobs ==> s.t.jobs[j].attempt <= 1
  {
    EmptyInv();
    hide Inv, HolderInv, ReaderInv, LeaseInv, HandedInv;
    LeadsInv(EMPTY, s);
    InvMeans(s);
  }

  /** Between any two states of a run ranks only grow, and failed and verified rows are frozen. */
  lemma RunMovesForward(states: seq<State>, actions: seq<Action>, i: nat, k: nat, j: Id)
    requires IsRun(Trans, states, actions) && i <= k <= |actions| && j in states[i].t.jobs
    ensures j in states[k].t.jobs
    ensures match states[i].t.jobs[j].state
      case Queued => true
      case Dispatched => states[k].t.jobs[j].state != Queued
      case Running => states[k].t.jobs[j].state !in {Queued, Dispatched}
      case Prepared => states[k].t.jobs[j].state in {Prepared, Verified}
      case _ => states[k].t.jobs[j] == states[i].t.jobs[j]
  {
    var rel := (s: State, s': State) => j in s.t.jobs ==>
      && j in s'.t.jobs && Rank(s.t.jobs[j].state) <= Rank(s'.t.jobs[j].state)
      && (s.t.jobs[j].state == Prepared ==> s'.t.jobs[j].state in {Prepared, Verified})
      && (s.t.jobs[j].state in {Verified, Failed} ==> s'.t.jobs[j] == s.t.jobs[j]);
    forall s, a, s' | Trans(s, a, s') ensures rel(s, s') {
      StepMovesForward(s, a, s');
    }
    RunRelates(Trans, (s: State) => true, rel, states, actions, i, k);
  }

  // ---------------------------------------------------------------------------------------
  // A claim that stops between its lease insert and its dispatch
  // ---------------------------------------------------------------------------------------

  /** Queued, leased, and no handler on its way to the dispatch. */
  ghost predicate Orphaned(s: State, j: Id) {
    && j in s.t.jobs && s.t.jobs[j].state == Queued && j in s.t.leases
    && forall h :: h in s.pcs ==> !Holds(s.pcs[h], j)
  }

  lemma CallKeepsOrphan(s: State, h: Id, w: Write, pc': Pc, j: Id)
    requires Inv(s) && h in s.pcs && Call(s.t, s.pcs[h], w, pc') && Orphaned(s, j)
    ensures Orphaned(After(s, h, w, pc'), j)
  {
    hide Call, ClaimCall, ReportCall, UploadCall, Apply;
    CallsAreSound(s, h, w, pc');
    if w.Dispatch? && w.job == j {
      DispatchIsHeld(s, h, w, pc');
    }
    WriteSparesQueued(s.t, w, j);
    var pcs' := s.pcs[h := pc'];
    forall g | g in pcs' ensures !Holds(pcs'[g], j) {
      if Holds(pcs'[g], j) {
        HolderOrigin(s, h, w, pc', g, j);
      }
    }
  }

  lemma StepKeepsOrphan(s: State, a: Action, s': State, j: Id)
    requires Inv(s) && Next(s, a, s') && Orphaned(s, j)
    ensures Orphaned(s', j)
  {
    if a.Step? {
      var w, pc' :| Call(s.t, s.pcs[a.handler], w, pc') && s' == After(s, a.handler, w, pc');
      CallKeepsOrphan(s, a.handler, w, pc', j);
    }
  }

  /** The claim skips it because it is leased and the expiry scan skips it because it is queued:
      an orphaned job is never handed out, whatever happens and however long one waits. */
  lemma OrphanIsForever(s: State, s': State, j: Id)
    requires Inv(s) && Orphaned(s, j) && Leads(Trans, s, s')
    ensures Orphaned(s', j) && j !in s'.handed
  {
    forall s, a, s' | Inv(s) && Orphaned(s, j) && Trans(s, a, s') ensures Inv(s') && Orphaned(s', j) {
      StepKeepsInv(s, a, s');
      StepKeepsOrphan(s, a, s', j);
    }
    LeadsKeeps(Trans, (s: State) => Inv(s) && Orphaned(s, j), s, s');
  }

  lemma LeadsCall(s: State, s': State, h: Id, w: Write, pc': Pc)
    requires Leads(Trans, s, s') && h in s'.pcs && Call(s'.t, s'.pcs[h], w, pc')
    ensures Leads(Trans, s, After(s', h, w, pc'))
  {
    assert Next(s', Step(h), After(s', h, w, pc'));
    LeadsStep(Trans, s, s', Step(h), After(s', h, w, pc'));
  }

  /** One handler running alone. */
  lemma HeldIsHanded(s: State, h: Id, j: Id) returns (s': State)
    requires Inv(s) && h in s.pcs && Holds(s.pcs[h], j)
    ensures Leads(Trans, s, s') && j in s'.handed
  {
    LeadsSelf(Trans, s);
    s' := s;
    if s.pcs[h].ClaimSource? {
      var pc' := ClaimDispatch(s.pcs[h].node, s.pcs[h].token, j);
      LeadsCall(s, s, h, NoWrite, pc');
      s' := After(s, h, NoWrite, pc');
    }
    LeadsCall(s, s', h, Dispatch(j), Finished);
    s' := After(s', h, Dispatch(j), Finished);
  }

  /** A queued job that has a lease can still be handed out exactly when a handler holds it. */
  lemma QueuedLeaseIsLiveIffHeld(s: State, j: Id)
    requires Inv(s) && j in s.t.jobs && s.t.jobs[j].state == Queued && j in s.t.leases
    ensures (exists s' :: Leads(Trans, s, s') && j in s'.handed) <==> (exists h :: h in s.pcs && Holds(s.pcs[h], j))
  {
    if h :| h in s.pcs && Holds(s.pcs[h], j) {
      var s' := HeldIsHanded(s, h, j);
    } else {
      forall s' | Leads(Trans, s, s') ensures j !in s'.handed {
        OrphanIsForever(s, s', j);
      }
    }
  }

  /** One more call on the way to a given state. */
  lemma Visit(s: State, h: Id, w: Write, s': State)
    requires Reachable(s) && h in s.pcs && h in s'.pcs
    requires Call(s.t, s.pcs[h], w, s'.pcs[h]) && s' == After(s, h, w, s'.pcs[h])
    ensures Reachable(s')
  {
    LeadsCall(EMPTY, s, h, w, s'.pcs[h]);
  }

  lemma VisitReport(s: State, h: Id, w: Write, s': State)
    requires Reachable(s) && h in s.pcs && h in s'.pcs
    requires ReportCall(s.t, s.pcs[h], w, s'.pcs[h]) && s' == After(s, h, w, s'.pcs[h])
    ensures Reachable(s')
  {
    hide ClaimCall, ReportCall, UploadCall, After;
    Visit(s, h, w, s');
  }

  lemma VisitClaim(s: State, h: Id, w: Write, s': State)
    requires Reachable(s) && h in s.pcs && h in s'.pcs
    requires ClaimCall(s.t, s.pcs[h], w, s'.pcs[h]) && s' == After(s, h, w, s'.pcs[h])
    ensures Reachable(s')
  {
    hide ClaimCall, ReportCall, UploadCall, After;
    Visit(s, h, w, s');
  }

  lemma VisitArrival(s: State, h: Id, pc: Pc, s': State)
    requires Reachable(s) && h !in s.pcs && Initial(pc) && s' == s.(pcs := s.pcs[h := pc])
    ensures Reachable(s')
  {
    assert Next(s, Arrive(h, pc), s');
    LeadsStep(Trans, EMPTY, s, Arrive(h, pc), s');
  }

  predicate Fresh(row: Job) { row.state == Queued && row.attempt == 0 && row.prep == None }

  /** One job with its lease, the given handlers. */
  function Leased(row: Job, token: Token, pcs: map<Id, Pc>, handed: seq<Id>): State {
    State(Tables(map[0 := row], map[0 := Lease(row.node, token, 600)], map[], map[]), pcs, handed)
  }

  function Unleased(row: Job, pcs: map<Id, Pc>): State {
    State(Tables(map[0 := row], map[], map[], map[]), pcs, [])
  }

  /** From the empty tables: one job and one claim that has inserted its lease. */
  lemma ReachClaimed(row: Job, token: Token)
    requires Fresh(row)
    ensures Reachable(Leased(row, token, map[0 := ClaimSource(row.node, token, 0)], []))
  {
    LeadsSelf(Trans, EMPTY);
    var n := row.node;
    var s1 := Unleased(row, map[]);
    assert Next(EMPTY, Create(0, row), s1);
    LeadsStep(Trans, EMPTY, EMPTY, Create(0, row), s1);
    var s2 := Unleased(row, map[0 := ClaimScan(n, token, 0)]);
    VisitArrival(s1, 0, ClaimScan(n, token, 0), s2);
    assert LapsedScan(s2.t, n, 0, []);
    var s3 := Unleased(row, map[0 := ClaimSweep(n, token, [])]);
    VisitClaim(s2, 0, NoWrite, s3);
    var s4 := Unleased(row, map[0 := ClaimInsert(n, token, 600)]);
    VisitClaim(s3, 0, NoWrite, s4);
    var s5 := Leased(row, token, map[0 := ClaimSource(n, token, 0)], []);
    VisitClaim(s4, 0, InsertLease(0, Lease(n, token, 600)), s5);
  }

  /** An orphan is reachable: the claim stops right after its lease insert. */
  lemma OrphanIsReachable(row: Job, token: Token)
    requires Fresh(row)
    ensures exists s :: Reachable(s) && Orphaned(s, 0) && s.t.jobs == map[0 := row]
  {
    ReachClaimed(row, token);
    var s0 := Leased(row, token, map[0 := ClaimSource(row.node, token, 0)], []);
    var s := s0.(pcs := map[0 := Finished]);
    assert Next(s0, Crash(0), s);
    LeadsStep(Trans, EMPTY, s0, Crash(0), s);
    assert Reachable(s) && Orphaned(s, 0);
  }
}
