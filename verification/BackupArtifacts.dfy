/** What the interleaved backup handlers leave in backup_artifacts. */
module BackupArtifacts {
  import opened Common
  import opened Runs
  import opened BackupLeg

  function Digests(rows: map<Kind, Artifact>): map<Kind, Digest> { map k | k in rows :: rows[k].digest }

  /** The rows of one backup: all three kinds, sizes that sum to the stored safe total, the stored manifest hash. */
  ghost predicate Consistent(t: Tables, j: Id)
    requires j in t.jobs
  {
    && Rows(t, j).Keys == ALL_KINDS
    && t.jobs[j].prep == Some((Total(Digests(Rows(t, j))), Rows(t, j)[Manifest].digest.sha))
    && t.jobs[j].prep.value.0 <= MAX_SAFE_INTEGER
  }

  /** The row points at an object under the key the upload was told, and that object is what the row says. */
  predicate Backed(a: Artifact, key: ObjectKey) {
    a.stored.Some? && a.stored.value.key == key && a.stored.value.digest == a.digest
  }

  /** Consistent, and every row is backed: a restore finds the objects and their checksums agree. */
  ghost predicate Restorable(t: Tables, j: Id)
    requires j in t.jobs
  {
    Consistent(t, j) && forall k :: k in Rows(t, j) ==> Backed(Rows(t, j)[k], ObjectKey(t.jobs[j].tenant, j, k))
  }

  predicate Done(t: Tables, j: Id) { j in t.jobs && t.jobs[j].state in {Prepared, Verified} }

  /** Once prepared the rows carry digests d and fit the job row, once verified they are restorable. */
  ghost predicate Intact(t: Tables, j: Id, d: map<Kind, Digest>) {
    Done(t, j) ==>
      Digests(Rows(t, j)) == d && Consistent(t, j) && (t.jobs[j].state == Verified ==> Restorable(t, j))
  }

  /** The step writes the batch of a `prepared` report for a job that has not failed. */
  predicate Writes(s: State, a: Action, j: Id) {
    && a.Step? && a.handler in s.pcs && s.pcs[a.handler].ReportWrite? && s.pcs[a.handler].job == j
    && s.pcs[a.handler].input.PreparedIn? && j in s.t.jobs && s.t.jobs[j].state != Failed
  }

  function Batch(s: State, a: Action, j: Id): map<Kind, Digest>
    requires Writes(s, a, j)
  {
    s.pcs[a.handler].input.prep.digests
  }

  /** All batches written for the job carry the digests d, as when the agent re-sends one result. */
  ghost predicate AgreedNext(j: Id, d: map<Kind, Digest>, s: State, a: Action, s': State) {
    Next(s, a, s') && (Writes(s, a, j) ==> Batch(s, a, j) == d)
  }

  ghost function AgreedTrans(j: Id, d: map<Kind, Digest>): (State, Action, State) -> bool {
    (s, a, s') => AgreedNext(j, d, s, a, s')
  }

  // ---------------------------------------------------------------------------------------
  // The invariant of one job
  // ---------------------------------------------------------------------------------------

  predicate Placed(a: Artifact, key: ObjectKey, d: Digest) {
    a.digest == d && (a.stored.Some? ==> Backed(a, key))
  }

  ghost predicate RowsInv(t: Tables, j: Id, d: map<Kind, Digest>) {
    (j in t.artifacts ==> j in t.jobs) &&
    (j in t.jobs && t.jobs[j].state != Failed ==>
      && (j in t.artifacts <==> Done(t, j))
      && (j in t.artifacts ==>
            && t.artifacts[j].Keys == d.Keys == ALL_KINDS && Total(d) <= MAX_SAFE_INTEGER
            && t.jobs[j].prep == Some((Total(d), d[Manifest].sha))
            && (forall k :: k in d ==> Placed(t.artifacts[j][k], ObjectKey(t.jobs[j].tenant, j, k), d[k]))
            && (t.jobs[j].state == Verified ==> forall k :: k in d ==> t.artifacts[j][k].stored.Some?)))
  }

  /** The returned objects are those the upload of digests d was told to write. */
  predicate Returned(t: Tables, j: Id, d: map<Kind, Digest>, r: map<Kind, Object>) {
    && Done(t, j) && r.Keys == d.Keys == ALL_KINDS
    && forall k :: k in d ==> r[k].digest == d[k] && r[k].key == ObjectKey(t.jobs[j].tenant, j, k)
  }

  /** What a handler carries has been parsed. */
  predicate Wellformed(pc: Pc) {
    && ((pc.ReportLease? || pc.ReportState? || pc.ReportWrite?) && pc.input.PreparedIn? ==> Parsed(pc.input.prep))
    && ((pc.UploadReportLease? || pc.UploadReportState?) && pc.result.VerifiedIn? ==>
          pc.result.returned.Keys == ALL_KINDS)
    && ((pc.UploadReportMatch? || pc.UploadReportWrite?) ==> pc.returned.Keys == ALL_KINDS)
  }

  predicate PcInv(t: Tables, j: Id, d: map<Kind, Digest>, pc: Pc) {
    && Wellformed(pc)
    && (pc.UploadReportMatch? && pc.job == j ==> Done(t, j))
    && (pc.UploadReportWrite? && pc.job == j ==> Returned(t, j, d, pc.returned))
  }

  ghost predicate ArtInv(s: State, j: Id, d: map<Kind, Digest>) {
    Inv(s) && RowsInv(s.t, j, d) && forall h :: h in s.pcs ==> PcInv(s.t, j, d, s.pcs[h])
  }

  lemma AllKinds(k: Kind)
    ensures k in ALL_KINDS
  {
    match k case DatabaseDump => case FilestoreArchive => case Manifest =>
  }

  /** A batch replaces the digests of all rows and keeps what they point at. */
  lemma PreparedRows(t: Tables, j: Id, p: Prep)
    requires p.digests.Keys == ALL_KINDS
    ensures var rows' := Rows(PreparedBatch(t, j, p), j);
      && rows'.Keys == ALL_KINDS && Digests(rows') == p.digests
      && forall k :: k in rows' ==>
         rows'[k] == Artifact(p.digests[k], if k in Rows(t, j) then Rows(t, j)[k].stored else None)
  {
    var rows' := Rows(PreparedBatch(t, j, p), j);
    assert rows' == Upsert(Rows(t, j), p);
    forall k: Kind ensures k in rows' <==> k in ALL_KINDS { AllKinds(k); }
  }

  lemma PrepareKeepsRows(t: Tables, j: Id, p: Prep)
    requires Parsed(p) && RowsInv(t, j, p.digests) && j in t.jobs && Rank(t.jobs[j].state) >= 2
    ensures RowsInv(PreparedBatch(t, j, p), j, p.digests)
  {
    PreparedRows(t, j, p);
  }

  lemma VerifyKeepsRows(t: Tables, j: Id, d: map<Kind, Digest>, r: map<Kind, Object>)
    requires RowsInv(t, j, d) && Returned(t, j, d, r)
    ensures RowsInv(VerifyBatch(t, j, r), j, d)
  {
    assert VerifyBatch(t, j, r).artifacts[j] == SetObjects(t.artifacts[j], r);
  }

  lemma OtherRows(t: Tables, w: Write, j: Id)
    requires (w.Prepare? || w.Verify?) ==> w.job != j
    ensures var t' := Apply(t, w);
      && (j in t'.artifacts <==> j in t.artifacts)
      && (j in t.artifacts ==> t'.artifacts[j] == t.artifacts[j])
  {
  }

  lemma EffectKeepsRows(t: Tables, j: Id, d: map<Kind, Digest>, w: Write, t': Tables)
    requires RowsInv(t, j, d) && RowEffect(t, w, t', j)
    requires (w.Prepare? || w.Verify?) ==> w.job != j
    requires j in t'.artifacts <==> j in t.artifacts
    requires j in t.artifacts ==> t'.artifacts[j] == t.artifacts[j]
    ensures RowsInv(t', j, d)
  {
  }

  /** What the invariant needs of a write. */
  predicate Faithful(t: Tables, j: Id, d: map<Kind, Digest>, w: Write) {
    && (w.Prepare? && w.job == j ==>
          j in t.jobs && Rank(t.jobs[j].state) >= 2 && Parsed(w.prep)
            && (t.jobs[j].state != Failed ==> w.prep.digests == d))
    && (w.Verify? && w.job == j ==> Returned(t, j, d, w.returned))
  }

  lemma WriteKeepsRows(t: Tables, j: Id, d: map<Kind, Digest>, w: Write)
    requires RowsInv(t, j, d) && Faithful(t, j, d, w)
    ensures RowsInv(Apply(t, w), j, d)
  {
    if w.Prepare? && w.job == j {
      if t.jobs[j].state != Failed { PrepareKeepsRows(t, j, w.prep); }
    } else if w.Verify? && w.job == j {
      VerifyKeepsRows(t, j, d, w.returned);
    } else {
      WriteOnJob(t, w, j);
      OtherRows(t, w, j);
      EffectKeepsRows(t, j, d, w, Apply(t, w));
    }
  }

  lemma ClaimsAreFaithful(t: Tables, j: Id, d: map<Kind, Digest>, pc: Pc, w: Write, pc': Pc)
    requires ClaimCall(t, pc, w, pc')
    ensures Faithful(t, j, d, w) && PcInv(t, j, d, pc')
  {
  }

  lemma ReportsAreFaithful(t: Tables, j: Id, d: map<Kind, Digest>, pc: Pc, w: Write, pc': Pc)
    requires PcInv(t, j, d, pc) && Sound(t, w) && ReportCall(t, pc, w, pc')
    requires pc.ReportWrite? && pc.input.PreparedIn? && pc.job == j && j in t.jobs && t.jobs[j].state != Failed ==>
      pc.input.prep.digests == d
    ensures Faithful(t, j, d, w) && PcInv(t, j, d, pc')
  {
  }

  /** A match against rows with digests d is a match against d. */
  lemma MatchIsReturned(t: Tables, j: Id, d: map<Kind, Digest>, r: map<Kind, Object>)
    requires RowsInv(t, j, d) && Done(t, j) && r.Keys == ALL_KINDS && MatchesStored(t, j, r)
    ensures Returned(t, j, d, r)
  {
    forall k | k in d ensures r[k].digest == d[k] && r[k].key == ObjectKey(t.jobs[j].tenant, j, k) {
      assert Rows(t, j)[k].digest == r[k].digest;
    }
  }

  /** The match reads the rows. */
  lemma MatchIsFaithful(t: Tables, j: Id, d: map<Kind, Digest>, pc: Pc, w: Write, pc': Pc)
    requires PcInv(t, j, d, pc) && UploadCall(t, pc, w, pc') && RowsInv(t, j, d) && pc.UploadReportMatch?
    ensures Faithful(t, j, d, w) && PcInv(t, j, d, pc')
  {
    hide RowsInv, Returned, MatchesStored;
    if pc'.UploadReportWrite? && pc.job == j { MatchIsReturned(t, j, d, pc.returned); }
  }

  /** The write carries what was matched. */
  lemma VerifyIsFaithful(t: Tables, j: Id, d: map<Kind, Digest>, pc: Pc, w: Write, pc': Pc)
    requires PcInv(t, j, d, pc) && UploadCall(t, pc, w, pc') && pc.UploadReportWrite?
    ensures Faithful(t, j, d, w) && PcInv(t, j, d, pc')
  {
    hide Returned;
  }

  /** The other calls write no rows and promise nothing. */
  lemma OtherUploadsAreFaithful(t: Tables, j: Id, d: map<Kind, Digest>, pc: Pc, w: Write, pc': Pc)
    requires Wellformed(pc) && UploadCall(t, pc, w, pc') && !pc.UploadReportMatch? && !pc.UploadReportWrite?
    ensures Faithful(t, j, d, w) && PcInv(t, j, d, pc')
  {
    hide Returned, MatchesStored, UploadScan, UploadClaimable;
  }

  lemma UploadsAreFaithful(t: Tables, j: Id, d: map<Kind, Digest>, pc: Pc, w: Write, pc': Pc)
    requires PcInv(t, j, d, pc) && UploadCall(t, pc, w, pc') && RowsInv(t, j, d)
    ensures Faithful(t, j, d, w) && PcInv(t, j, d, pc')
  {
    assert Wellformed(pc);
    hide PcInv, RowsInv, Faithful, UploadCall, Wellformed;
    if pc.UploadReportMatch? {
      MatchIsFaithful(t, j, d, pc, w, pc');
    } else if pc.UploadReportWrite? {
      VerifyIsFaithful(t, j, d, pc, w, pc');
    } else {
      OtherUploadsAreFaithful(t, j, d, pc, w, pc');
    }
  }

  lemma CallsAreFaithful(s: State, j: Id, d: map<Kind, Digest>, h: Id, w: Write, pc': Pc)
    requires ArtInv(s, j, d) && h in s.pcs && Call(s.t, s.pcs[h], w, pc')
    requires Writes(s, Step(h), j) ==> Batch(s, Step(h), j) == d
    ensures Faithful(s.t, j, d, w) && PcInv(s.t, j, d, pc')
  {
    hide Inv, ClaimCall, ReportCall, UploadCall, PcInv, RowsInv, Faithful;
    CallsAreSound(s, h, w, pc');
    if ClaimCall(s.t, s.pcs[h], w, pc') {
      ClaimsAreFaithful(s.t, j, d, s.pcs[h], w, pc');
    } else if ReportCall(s.t, s.pcs[h], w, pc') {
      ReportsAreFaithful(s.t, j, d, s.pcs[h], w, pc');
    } else {
      UploadsAreFaithful(s.t, j, d, s.pcs[h], w, pc');
    }
  }

  lemma ForwardKeepsPc(t: Tables, t': Tables, j: Id, d: map<Kind, Digest>, pc: Pc)
    requires Forward(t, t') && PcInv(t, j, d, pc)
    ensures PcInv(t', j, d, pc)
  {
  }

  lemma ArrivalIsWellformed(t: Tables, j: Id, d: map<Kind, Digest>, pc: Pc)
    requires Initial(pc) || pc == Finished
    ensures PcInv(t, j, d, pc)
  {
  }

  /** The counters that stay where they were, and one that may be new. */
  lemma CountersKeepPcs(t: Tables, t': Tables, j: Id, d: map<Kind, Digest>, pcs: map<Id, Pc>, h: Id, pc': Pc,
                        pcs': map<Id, Pc>)
    requires Forward(t, t') && pcs' == pcs[h := pc'] && PcInv(t', j, d, pc')
    requires forall g :: g in pcs ==> PcInv(t, j, d, pcs[g])
    ensures forall g :: g in pcs' ==> PcInv(t', j, d, pcs'[g])
  {
    forall g | g in pcs' ensures PcInv(t', j, d, pcs'[g]) {
      hide PcInv, Forward;
      if g != h { ForwardKeepsPc(t, t', j, d, pcs[g]); }
    }
  }

  lemma CallKeepsArtInv(s: State, j: Id, d: map<Kind, Digest>, h: Id, w: Write, pc': Pc)
    requires ArtInv(s, j, d) && h in s.pcs && Call(s.t, s.pcs[h], w, pc')
    requires Writes(s, Step(h), j) ==> Batch(s, Step(h), j) == d
    ensures ArtInv(After(s, h, w, pc'), j, d)
  {
    var s' := After(s, h, w, pc');
    assert Next(s, Step(h), s');
    hide Inv, Call, RowsInv, PcInv, Faithful, Forward, Next, Apply, Writes;
    StepKeepsInv(s, Step(h), s');
    WriteMovesForward(s.t, w);
    CallsAreFaithful(s, j, d, h, w, pc');
    WriteKeepsRows(s.t, j, d, w);
    ForwardKeepsPc(s.t, s'.t, j, d, pc');
    CountersKeepPcs(s.t, s'.t, j, d, s.pcs, h, pc', s'.pcs);
  }

  lemma CreationKeepsRows(s: State, j: Id, d: map<Kind, Digest>, a: Action, s': State)
    requires RowsInv(s.t, j, d) && Next(s, a, s') && a.Create?
    ensures RowsInv(s'.t, j, d)
  {
    hide Call, Apply, Initial;
  }

  /** Creations, arrivals and crashes write no rows. */
  lemma OtherStepKeepsArtInv(s: State, j: Id, d: map<Kind, Digest>, a: Action, s': State)
    requires ArtInv(s, j, d) && Next(s, a, s') && !a.Step?
    ensures ArtInv(s', j, d)
  {
    hide Inv, PcInv, Forward, Call, Initial, RowsInv, Apply;
    StepKeepsInv(s, a, s');
    StepMovesForward(s, a, s');
    match a
    case Create(_, _) =>
      CreationKeepsRows(s, j, d, a, s');
      forall g | g in s'.pcs ensures PcInv(s'.t, j, d, s'.pcs[g]) {
        ForwardKeepsPc(s.t, s'.t, j, d, s.pcs[g]);
      }
    case Arrive(h, pc) =>
      ArrivalIsWellformed(s'.t, j, d, pc);
      CountersKeepPcs(s.t, s'.t, j, d, s.pcs, h, pc, s'.pcs);
    case Crash(h) =>
      ArrivalIsWellformed(s'.t, j, d, Finished);
      CountersKeepPcs(s.t, s'.t, j, d, s.pcs, h, Finished, s'.pcs);
  }

  lemma StepKeepsArtInv(s: State, j: Id, d: map<Kind, Digest>, a: Action, s': State)
    requires ArtInv(s, j, d) && AgreedNext(j, d, s, a, s')
    ensures ArtInv(s', j, d)
  {
    hide ArtInv, Call, After, Writes;
    if a.Step? {
      var w, pc' :| Call(s.t, s.pcs[a.handler], w, pc') && s' == After(s, a.handler, w, pc');
      CallKeepsArtInv(s, j, d, a.handler, w, pc');
    } else {
      OtherStepKeepsArtInv(s, j, d, a, s');
    }
  }

  lemma EmptyArtInv(j: Id, d: map<Kind, Digest>)
    ensures ArtInv(EMPTY, j, d)
  {
    hide Inv;
    EmptyInv();
  }

  lemma AgreedInv(j: Id, d: map<Kind, Digest>, s: State)
    requires Leads(AgreedTrans(j, d), EMPTY, s)
    ensures ArtInv(s, j, d)
  {
    var next, inv := AgreedTrans(j, d), (s: State) => ArtInv(s, j, d);
    forall s, a, s' | inv(s) && next(s, a, s') ensures inv(s') {
      StepKeepsArtInv(s, j, d, a, s');
    }
    EmptyArtInv(j, d);
    hide ArtInv;
    LeadsKeeps(next, inv, EMPTY, s);
  }

  lemma RowsInvMeans(t: Tables, j: Id, d: map<Kind, Digest>)
    requires RowsInv(t, j, d)
    ensures Intact(t, j, d)
  {
    if Done(t, j) {
      assert Digests(Rows(t, j)) == d;
      assert forall k :: k in d ==> Placed(Rows(t, j)[k], ObjectKey(t.jobs[j].tenant, j, k), d[k]);
    }
  }

  /** Whatever the interleaving and whoever stops midway: when the batches written for a job agree,
      its rows add up to what the job row says, and once verified it can be restored. */
  lemma VerifiedIsRestorable(j: Id, d: map<Kind, Digest>, s: State)
    requires Leads(AgreedTrans(j, d), EMPTY, s)
    ensures Intact(s.t, j, d)
  {
    AgreedInv(j, d, s);
    RowsInvMeans(s.t, j, d);
  }

  /** What the handler has read still holds. */
  predicate ReadNow(t: Tables, pc: Pc) {
    && Wellformed(pc)
    && (pc.ReportWrite? && pc.input.PreparedIn? ==> pc.job in t.jobs && t.jobs[pc.job].state == JobState.Running)
    && (pc.UploadReportMatch? || pc.UploadReportWrite? ==> pc.job in t.jobs && t.jobs[pc.job].state == Prepared)
    && (pc.UploadReportWrite? ==> MatchesStored(t, pc.job, pc.returned))
  }

  /** The writes of a handler that runs alone hit what it has read. */
  predicate Exact(t: Tables, w: Write) {
    && (w.Prepare? ==> w.job in t.jobs && t.jobs[w.job].state == JobState.Running && Parsed(w.prep))
    && (w.Verify? ==>
          && w.job in t.jobs && t.jobs[w.job].state == Prepared
          && w.returned.Keys == ALL_KINDS && MatchesStored(t, w.job, w.returned))
  }

  lemma ClaimsKeepReads(t: Tables, pc: Pc, w: Write, pc': Pc, t': Tables)
    requires ClaimCall(t, pc, w, pc')
    ensures ReadNow(t', pc') && Exact(t, w)
  {
  }

  lemma ReportsKeepReads(t: Tables, pc: Pc, w: Write, pc': Pc, t': Tables)
    requires ReportCall(t, pc, w, pc') && Wellformed(pc) && (w == NoWrite ==> t' == t)
    ensures Wellformed(pc') && (ReadNow(t, pc) ==> ReadNow(t', pc') && Exact(t, w))
  {
  }

  lemma UploadsKeepReads(t: Tables, pc: Pc, w: Write, pc': Pc, t': Tables)
    requires UploadCall(t, pc, w, pc') && Wellformed(pc) && (w == NoWrite ==> t' == t)
    ensures Wellformed(pc') && (ReadNow(t, pc) ==> ReadNow(t', pc') && Exact(t, w))
  {
    hide MatchesStored;
  }

  /** While nobody else writes, a handler's reads hold and its writes hit them. */
  lemma CallsKeepReads(t: Tables, pc: Pc, w: Write, pc': Pc, t': Tables)
    requires Call(t, pc, w, pc') && Wellformed(pc) && (w == NoWrite ==> t' == t)
    ensures Wellformed(pc') && (ReadNow(t, pc) ==> ReadNow(t', pc') && Exact(t, w))
  {
    hide ClaimCall, ReportCall, UploadCall, Exact;
    if ClaimCall(t, pc, w, pc') {
      ClaimsKeepReads(t, pc, w, pc', t');
    } else if ReportCall(t, pc, w, pc') {
      ReportsKeepReads(t, pc, w, pc', t');
    } else {
      UploadsKeepReads(t, pc, w, pc', t');
    }
  }

  // ---------------------------------------------------------------------------------------
  // The agreement is needed
  // ---------------------------------------------------------------------------------------

  lemma BatchOnRows(t: Tables, j: Id, p: Prep)
    requires j in t.jobs && t.jobs[j].state != Failed && Rank(t.jobs[j].state) >= 2 && Parsed(p)
    ensures var t' := PreparedBatch(t, j, p); Done(t', j) && Digests(Rows(t', j)) == p.digests
  {
    PreparedRows(t, j, p);
  }

  /** A batch of other digests that reaches a job leaves the rows of that job with them. */
  lemma BatchReplacesDigests(s: State, a: Action, s': State, j: Id)
    requires Inv(s) && Next(s, a, s') && Writes(s, a, j) && Parsed(s.pcs[a.handler].input.prep)
    ensures Done(s'.t, j) && Digests(Rows(s'.t, j)) == Batch(s, a, j)
  {
    var p := s.pcs[a.handler].input.prep;
    var w, pc' :| Call(s.t, s.pcs[a.handler], w, pc') && s' == After(s, a.handler, w, pc');
    WriteIsPrepare(s, a.handler, w, pc', j);
    hide Inv, Call, Next, PreparedBatch;
    CallsAreSound(s, a.handler, w, pc');
    BatchOnRows(s.t, j, p);
  }

  lemma StepKeepsWellformed(s: State, a: Action, s': State)
    requires Next(s, a, s') && forall h :: h in s.pcs ==> Wellformed(s.pcs[h])
    ensures forall h :: h in s'.pcs ==> Wellformed(s'.pcs[h])
  {
    if a.Step? {
      var w, pc' :| Call(s.t, s.pcs[a.handler], w, pc') && s' == After(s, a.handler, w, pc');
      CallsKeepReads(s.t, s.pcs[a.handler], w, pc', Apply(s.t, w));
      hide Wellformed, Apply, Call;
      forall h | h in s'.pcs ensures Wellformed(s'.pcs[h]) {
        assert s'.pcs[h] == pc' || (h in s.pcs && s'.pcs[h] == s.pcs[h]);
      }
    }
  }

  lemma {:induction false} RunIsParsed(states: seq<State>, actions: seq<Action>, i: nat)
    requires IsRun(Trans, states, actions) && states[0] == EMPTY && i <= |actions|
    ensures Inv(states[i]) && forall h :: h in states[i].pcs ==> Wellformed(states[i].pcs[h])
  {
    hide Inv, Wellformed, Next;
    if i == 0 {
      EmptyInv();
    } else {
      RunIsParsed(states, actions, i - 1);
      assert Trans(states[i - 1], actions[i - 1], states[i]);
      StepKeepsInv(states[i - 1], actions[i - 1], states[i]);
      StepKeepsWellformed(states[i - 1], actions[i - 1], states[i]);
    }
  }

  ghost predicate IntactThroughout(states: seq<State>, j: Id, d: map<Kind, Digest>) {
    forall i :: 0 <= i < |states| ==> Intact(states[i].t, j, d)
  }

  lemma IntactMeansAgreed(states: seq<State>, actions: seq<Action>, j: Id, d: map<Kind, Digest>, i: nat)
    requires IsRun(Trans, states, actions) && states[0] == EMPTY && IntactThroughout(states, j, d) && i < |actions|
    ensures AgreedNext(j, d, states[i], actions[i], states[i + 1])
  {
    assert Trans(states[i], actions[i], states[i + 1]);
    RunIsParsed(states, actions, i);
    assert Intact(states[i + 1].t, j, d);
    hide Inv, Consistent, Next;
    if Writes(states[i], actions[i], j) {
      assert Wellformed(states[i].pcs[actions[i].handler]);
      BatchReplacesDigests(states[i], actions[i], states[i + 1], j);
    }
  }

  /** Over a whole run a backup stays as it was prepared, and restorable once verified, exactly when
      every batch that reaches it, early or late, carries its digests. */
  lemma IntactIffBatchesAgree(states: seq<State>, actions: seq<Action>, j: Id, d: map<Kind, Digest>)
    requires IsRun(Trans, states, actions) && states[0] == EMPTY
    ensures IntactThroughout(states, j, d)
       <==> forall i :: 0 <= i < |actions| && Writes(states[i], actions[i], j) ==> Batch(states[i], actions[i], j) == d
  {
    if IntactThroughout(states, j, d) {
      forall i | 0 <= i < |actions| && Writes(states[i], actions[i], j) ensures Batch(states[i], actions[i], j) == d {
        IntactMeansAgreed(states, actions, j, d, i);
      }
    }
    if forall i :: 0 <= i < |actions| && Writes(states[i], actions[i], j) ==> Batch(states[i], actions[i], j) == d {
      assert IsRun(AgreedTrans(j, d), states, actions) by {
        forall i | 0 <= i < |actions| ensures AgreedTrans(j, d)(states[i], actions[i], states[i + 1]) {
          assert Trans(states[i], actions[i], states[i + 1]);
        }
      }
      forall i | 0 <= i < |states| ensures Intact(states[i].t, j, d) {
        PrefixLeads(AgreedTrans(j, d), states, actions, i);
        VerifiedIsRestorable(j, d, states[i]);
      }
    }
  }

  /** One late batch.  A prepared backup stays consistent exactly when it has the stored total and
      manifest hash; a verified one stays restorable exactly when its digests are those of the
      objects that were uploaded. */
  lemma LateBatch(t: Tables, j: Id, p: Prep)
    requires Done(t, j) && Consistent(t, j) && Parsed(p)
    ensures var t' := PreparedBatch(t, j, p);
      && j in t'.jobs && t'.jobs[j] == t.jobs[j]
      && (Consistent(t', j) <==> t.jobs[j].prep == Some((p.total, p.manifest)))
      && (Restorable(t, j) ==>
            (Restorable(t', j) <==> forall k :: k in Rows(t, j) ==> Rows(t, j)[k].stored.value.digest == p.digests[k]))
  {
    var t' := PreparedBatch(t, j, p);
    PreparedRows(t, j, p);
    if Restorable(t, j) && forall k :: k in Rows(t, j) ==> Rows(t, j)[k].stored.value.digest == p.digests[k] {
      assert forall k :: k in Rows(t, j) ==> Rows(t, j)[k].digest == p.digests[k];
      assert Digests(Rows(t, j)) == p.digests;
    }
  }

  /** A call that writes a batch for a job that has not failed. */
  lemma PrepareIsWritten(s: State, h: Id, w: Write, pc': Pc, j: Id)
    requires h in s.pcs && Call(s.t, s.pcs[h], w, pc') && w.Prepare? && w.job == j
    requires j in s.t.jobs && s.t.jobs[j].state != Failed
    ensures Writes(s, Step(h), j) && w.prep == s.pcs[h].input.prep
  {
    assert ReportCall(s.t, s.pcs[h], w, pc') by { hide ReportCall; }
    hide ClaimCall, UploadCall;
  }

  /** The writes other than a batch for it leave the digests and the job row's total and hash alone. */
  lemma WriteKeepsDigests(t: Tables, w: Write, j: Id)
    requires Done(t, j) && !(w.Prepare? && w.job == j)
    ensures var t' := Apply(t, w);
      && Done(t', j) && t'.jobs[j].prep == t.jobs[j].prep && t'.jobs[j].tenant == t.jobs[j].tenant
      && Digests(Rows(t', j)) == Digests(Rows(t, j))
  {
    WriteOnJob(t, w, j);
    if w.Verify? && w.job == j {
      if j in t.artifacts {
        assert Apply(t, w).artifacts[j] == SetObjects(t.artifacts[j], w.returned);
        assert Digests(SetObjects(t.artifacts[j], w.returned)) == Digests(t.artifacts[j]);
      }
    } else {
      OtherRows(t, w, j);
    }
  }

  /** What a step does to the rows of a prepared or verified job. */
  lemma StepOnRows(s: State, a: Action, s': State, j: Id)
    requires Next(s, a, s') && Done(s.t, j)
    ensures Done(s'.t, j) && s'.t.jobs[j].prep == s.t.jobs[j].prep
    ensures if Writes(s, a, j) then s'.t == PreparedBatch(s.t, j, s.pcs[a.handler].input.prep)
            else Digests(Rows(s'.t, j)) == Digests(Rows(s.t, j))
  {
    if a.Step? {
      var w, pc' :| Call(s.t, s.pcs[a.handler], w, pc') && s' == After(s, a.handler, w, pc');
      if Writes(s, a, j) {
        WriteIsPrepare(s, a.handler, w, pc', j);
        hide Call, Writes;
        WriteOnJob(s.t, w, j);
      } else {
        if w.Prepare? && w.job == j { PrepareIsWritten(s, a.handler, w, pc', j); }
        hide Call, Writes, Apply;
        WriteKeepsDigests(s.t, w, j);
      }
    }
  }

  lemma WriteIsPrepare(s: State, h: Id, w: Write, pc': Pc, j: Id)
    requires Writes(s, Step(h), j) && Call(s.t, s.pcs[h], w, pc')
    ensures w == Prepare(j, s.pcs[h].input.prep)
  {
  }

  /** A job becomes prepared by a batch that finds it running. */
  lemma FirstBatchIsConsistent(s: State, a: Action, s': State, j: Id)
    requires Next(s, a, s') && !Done(s.t, j) && Done(s'.t, j)
    requires forall h :: h in s.pcs ==> Wellformed(s.pcs[h])
    ensures Consistent(s'.t, j)
  {
    if a.Step? {
      var w, pc' :| Call(s.t, s.pcs[a.handler], w, pc') && s' == After(s, a.handler, w, pc');
      WriteOnJob(s.t, w, j);
      assert w.Prepare? && w.job == j && s.t.jobs[j].state == JobState.Running;
      PrepareIsWritten(s, a.handler, w, pc', j);
      assert Wellformed(s.pcs[a.handler]);
      PreparedRows(s.t, j, w.prep);
      hide Call;
    }
  }

  /** The batch carries the total and the manifest hash that the job row has. */
  predicate FitsRow(s: State, a: Action, j: Id)
    requires Writes(s, a, j)
  {
    s.t.jobs[j].prep == Some((s.pcs[a.handler].input.prep.total, s.pcs[a.handler].input.prep.manifest))
  }

  ghost predicate ConsistentThroughout(states: seq<State>, j: Id) {
    forall i :: 0 <= i < |states| && Done(states[i].t, j) ==> Consistent(states[i].t, j)
  }

  ghost predicate LateBatchesFit(states: seq<State>, actions: seq<Action>, j: Id)
    requires |states| == |actions| + 1
  {
    forall i :: 0 <= i < |actions| && Done(states[i].t, j) && Writes(states[i], actions[i], j) ==>
      FitsRow(states[i], actions[i], j)
  }

  lemma StepConsistentIff(states: seq<State>, actions: seq<Action>, j: Id, i: nat)
    requires IsRun(Trans, states, actions) && states[0] == EMPTY && i < |actions|
    requires Done(states[i].t, j) && Consistent(states[i].t, j)
    ensures Done(states[i + 1].t, j)
    ensures Consistent(states[i + 1].t, j) <==>
      (Writes(states[i], actions[i], j) ==> FitsRow(states[i], actions[i], j))
  {
    assert Trans(states[i], actions[i], states[i + 1]);
    RunIsParsed(states, actions, i);
    StepOnRows(states[i], actions[i], states[i + 1], j);
    hide Inv, Next;
    if Writes(states[i], actions[i], j) {
      var p := states[i].pcs[actions[i].handler].input.prep;
      assert Wellformed(states[i].pcs[actions[i].handler]);
      hide Wellformed;
      LateBatch(states[i].t, j, p);
    } else {
      DigestsDecide(states[i].t, states[i + 1].t, j);
    }
  }

  lemma DigestsDecide(t: Tables, t': Tables, j: Id)
    requires j in t.jobs && j in t'.jobs && t'.jobs[j].prep == t.jobs[j].prep
    requires Digests(Rows(t', j)) == Digests(Rows(t, j))
    ensures Consistent(t, j) <==> Consistent(t', j)
  {
    assert Rows(t, j).Keys == Digests(Rows(t, j)).Keys && Rows(t', j).Keys == Digests(Rows(t', j)).Keys;
    if Manifest in Rows(t, j) {
      assert Digests(Rows(t, j))[Manifest] == Rows(t, j)[Manifest].digest;
      assert Digests(Rows(t', j))[Manifest] == Rows(t', j)[Manifest].digest;
    }
  }

  lemma {:induction false} FittingBatchesKeep(states: seq<State>, actions: seq<Action>, j: Id, i: nat)
    requires IsRun(Trans, states, actions) && states[0] == EMPTY && i <= |actions|
    requires LateBatchesFit(states, actions, j)
    ensures Done(states[i].t, j) ==> Consistent(states[i].t, j)
  {
    hide Next, Consistent;
    if i > 0 {
      FittingBatchesKeep(states, actions, j, i - 1);
      assert Trans(states[i - 1], actions[i - 1], states[i]);
      RunIsParsed(states, actions, i - 1);
      if Done(states[i - 1].t, j) {
        StepConsistentIff(states, actions, j, i - 1);
      } else if Done(states[i].t, j) {
        FirstBatchIsConsistent(states[i - 1], actions[i - 1], states[i], j);
      }
    }
  }

  /** Over a whole run the rows of a prepared backup fit its job row exactly when every batch that comes
      after the first one has the total and the manifest hash the job row has. */
  lemma ConsistentIffBatchesFit(states: seq<State>, actions: seq<Action>, j: Id)
    requires IsRun(Trans, states, actions) && states[0] == EMPTY
    ensures ConsistentThroughout(states, j) <==> LateBatchesFit(states, actions, j)
  {
    hide Consistent;
    if LateBatchesFit(states, actions, j) {
      forall i | 0 <= i < |states| && Done(states[i].t, j) ensures Consistent(states[i].t, j) {
        FittingBatchesKeep(states, actions, j, i);
      }
    }
    if ConsistentThroughout(states, j) {
      forall i | 0 <= i < |actions| && Done(states[i].t, j) && Writes(states[i], actions[i], j)
        ensures FitsRow(states[i], actions[i], j)
      {
        StepConsistentIff(states, actions, j, i);
      }
    }
  }

  /** The keys of an upload that has passed the match are those it was told. */
  predicate Keyed(t: Tables, pc: Pc) {
    pc.UploadReportWrite? ==>
      pc.job in t.jobs
      && forall k :: k in pc.returned ==> pc.returned[k].key == ObjectKey(t.jobs[pc.job].tenant, pc.job, k)
  }

  lemma OnlyUploadsWrite(t: Tables, pc: Pc, w: Write, pc': Pc)
    requires ClaimCall(t, pc, w, pc') || ReportCall(t, pc, w, pc')
    ensures !pc'.UploadReportWrite?
  {
    hide LapsedScan, Claimable, Allowed;
  }

  lemma UploadCallIsKeyed(t: Tables, pc: Pc, w: Write, pc': Pc)
    requires UploadCall(t, pc, w, pc') && pc'.UploadReportWrite?
    ensures Keyed(t, pc')
  {
    hide UploadScan, UploadClaimable;
  }

  lemma CallIsKeyed(t: Tables, pc: Pc, w: Write, pc': Pc)
    requires Call(t, pc, w, pc')
    ensures Keyed(t, pc')
  {
    hide ClaimCall, ReportCall, UploadCall;
    if pc'.UploadReportWrite? {
      if !UploadCall(t, pc, w, pc') { OnlyUploadsWrite(t, pc, w, pc'); }
      UploadCallIsKeyed(t, pc, w, pc');
    }
  }

  lemma ForwardKeepsKeys(t: Tables, t': Tables, pc: Pc)
    requires Forward(t, t') && Keyed(t, pc)
    ensures Keyed(t', pc)
  {
  }

  lemma {:induction false} RunIsKeyed(states: seq<State>, actions: seq<Action>, i: nat)
    requires IsRun(Trans, states, actions) && states[0] == EMPTY && i <= |actions|
    ensures forall h :: h in states[i].pcs ==> Keyed(states[i].t, states[i].pcs[h])
  {
    if i > 0 {
      RunIsKeyed(states, actions, i - 1);
      var s, a, s' := states[i - 1], actions[i - 1], states[i];
      assert Trans(s, a, s');
      StepMovesForward(s, a, s');
      if a.Step? {
        var w, pc' :| Call(s.t, s.pcs[a.handler], w, pc') && s' == After(s, a.handler, w, pc');
        CallIsKeyed(s.t, s.pcs[a.handler], w, pc');
        ForwardKeepsKeys(s.t, s'.t, pc');
      }
      hide Call, Apply, Forward;
      forall h | h in s'.pcs ensures Keyed(s'.t, s'.pcs[h]) {
        if h in s.pcs && s'.pcs[h] == s.pcs[h] { ForwardKeepsKeys(s.t, s'.t, s.pcs[h]); }
      }
    }
  }

  /** The digests of the uploaded objects. */
  function Uploaded(rows: map<Kind, Artifact>): map<Kind, Digest> {
    map k | k in rows && rows[k].stored.Some? :: rows[k].stored.value.digest
  }

  lemma RestorableUploads(t: Tables, j: Id)
    requires j in t.jobs && Restorable(t, j)
    ensures Uploaded(Rows(t, j)) == Digests(Rows(t, j)) && Digests(Rows(t, j)).Keys == ALL_KINDS
  {
  }

  /** A late upload report replaces objects only by ones that are what the rows say. */
  lemma VerifyKeepsRestorable(t: Tables, j: Id, r: map<Kind, Object>)
    requires Done(t, j) && Restorable(t, j)
    requires forall k :: k in r ==> r[k].key == ObjectKey(t.jobs[j].tenant, j, k)
    ensures var t' := VerifyBatch(t, j, r); j in t'.jobs && Restorable(t', j)
  {
    var t' := VerifyBatch(t, j, r);
    assert Rows(t', j) == SetObjects(Rows(t, j), r);
    assert Digests(Rows(t', j)) == Digests(Rows(t, j));
    DigestsDecide(t, t', j);
  }

  lemma QuietStepKeepsRestorable(s: State, a: Action, s': State, j: Id)
    requires Next(s, a, s') && Done(s.t, j) && Restorable(s.t, j) && !Writes(s, a, j)
    requires forall h :: h in s.pcs ==> Keyed(s.t, s.pcs[h])
    ensures j in s'.t.jobs && Restorable(s'.t, j)
  {
    StepOnRows(s, a, s', j);
    if a.Step? {
      var w, pc' :| Call(s.t, s.pcs[a.handler], w, pc') && s' == After(s, a.handler, w, pc');
      if w.Prepare? && w.job == j { PrepareIsWritten(s, a.handler, w, pc', j); }
      if w.Verify? && w.job == j {
        VerifyIsKeyed(s, a.handler, w, pc');
        hide Call, Writes, Restorable;
        VerifyKeepsRestorable(s.t, j, w.returned);
      } else {
        hide Call, Writes;
        WriteOnJob(s.t, w, j);
        OtherRows(s.t, w, j);
        hide Apply;
        DigestsDecide(s.t, s'.t, j);
      }
    } else {
      hide Writes;
      DigestsDecide(s.t, s'.t, j);
    }
  }

  lemma VerifyIsKeyed(s: State, h: Id, w: Write, pc': Pc)
    requires h in s.pcs && Call(s.t, s.pcs[h], w, pc') && w.Verify? && Keyed(s.t, s.pcs[h])
    ensures w.job in s.t.jobs && forall k :: k in w.returned ==>
      w.returned[k].key == ObjectKey(s.t.jobs[w.job].tenant, w.job, k)
  {
    assert UploadCall(s.t, s.pcs[h], w, pc') by { hide UploadCall, Keyed; }
    hide ClaimCall, ReportCall;
  }

  lemma StepRestorableIff(states: seq<State>, actions: seq<Action>, j: Id, i: nat)
    requires IsRun(Trans, states, actions) && states[0] == EMPTY && i < |actions|
    requires Done(states[i].t, j) && states[i].t.jobs[j].state == Verified && Restorable(states[i].t, j)
    ensures Done(states[i + 1].t, j) && states[i + 1].t.jobs[j].state == Verified
    ensures Restorable(states[i + 1].t, j) <==>
      (Writes(states[i], actions[i], j) ==> Batch(states[i], actions[i], j) == Digests(Rows(states[i].t, j)))
    ensures Restorable(states[i + 1].t, j) ==> Digests(Rows(states[i + 1].t, j)) == Digests(Rows(states[i].t, j))
  {
    assert Trans(states[i], actions[i], states[i + 1]);
    RunIsParsed(states, actions, i);
    RunIsKeyed(states, actions, i);
    StepOnRows(states[i], actions[i], states[i + 1], j);
    StepMovesForward(states[i], actions[i], states[i + 1]);
    hide Inv, Next;
    if Writes(states[i], actions[i], j) {
      var p := states[i].pcs[actions[i].handler].input.prep;
      assert Wellformed(states[i].pcs[actions[i].handler]);
      hide Wellformed, Keyed, Forward;
      LateBatchOnVerified(states[i].t, j, p);
    } else {
      hide Wellformed, Restorable;
      QuietStepKeepsRestorable(states[i], actions[i], states[i + 1], j);
    }
  }

  lemma LateBatchOnVerified(t: Tables, j: Id, p: Prep)
    requires Done(t, j) && Restorable(t, j) && Parsed(p)
    ensures var t' := PreparedBatch(t, j, p);
      && j in t'.jobs && (Restorable(t', j) <==> p.digests == Digests(Rows(t, j))) && Digests(Rows(t', j)) == p.digests
  {
    LateBatch(t, j, p);
    PreparedRows(t, j, p);
    RestorableUploads(t, j);
    hide PreparedBatch;
    if forall k :: k in Rows(t, j) ==> Rows(t, j)[k].stored.value.digest == p.digests[k] {
      assert Uploaded(Rows(t, j)) == p.digests;
    }
    if p.digests == Digests(Rows(t, j)) {
      forall k | k in Rows(t, j) ensures Rows(t, j)[k].stored.value.digest == p.digests[k] {
        assert Digests(Rows(t, j))[k] == Rows(t, j)[k].digest;
      }
    }
  }

  /** Up to state i nothing has been lost. */
  lemma {:induction false} RestorableUpTo(states: seq<State>, actions: seq<Action>, j: Id, k: nat, i: nat)
    requires IsRun(Trans, states, actions) && states[0] == EMPTY && k <= i <= |actions|
    requires Done(states[k].t, j) && states[k].t.jobs[j].state == Verified && Restorable(states[k].t, j)
    requires (forall m :: k <= m <= i ==> j in states[m].t.jobs && Restorable(states[m].t, j))
      || (forall m :: k <= m < i && Writes(states[m], actions[m], j) ==>
            Batch(states[m], actions[m], j) == Uploaded(Rows(states[k].t, j)))
    ensures Done(states[i].t, j) && states[i].t.jobs[j].state == Verified && Restorable(states[i].t, j)
    ensures Digests(Rows(states[i].t, j)) == Uploaded(Rows(states[k].t, j))
  {
    RestorableUploads(states[k].t, j);
    hide Next, Restorable;
    if i > k {
      RestorableUpTo(states, actions, j, k, i - 1);
      StepRestorableIff(states, actions, j, i - 1);
    }
  }

  /** From its verification on a backup stays restorable exactly when every batch that still comes carries
      the digests of the uploaded objects. */
  lemma RestorableIffBatchesFit(states: seq<State>, actions: seq<Action>, j: Id, k: nat)
    requires IsRun(Trans, states, actions) && states[0] == EMPTY && k <= |actions|
    requires Done(states[k].t, j) && states[k].t.jobs[j].state == Verified && Restorable(states[k].t, j)
    ensures (forall i :: k <= i <= |actions| ==> j in states[i].t.jobs && Restorable(states[i].t, j))
       <==> forall i :: k <= i < |actions| && Writes(states[i], actions[i], j) ==>
              Batch(states[i], actions[i], j) == Uploaded(Rows(states[k].t, j))
  {
    hide Next, Restorable;
    if forall i :: k <= i <= |actions| ==> j in states[i].t.jobs && Restorable(states[i].t, j) {
      forall i | k <= i < |actions| && Writes(states[i], actions[i], j)
        ensures Batch(states[i], actions[i], j) == Uploaded(Rows(states[k].t, j))
      {
        RestorableUpTo(states, actions, j, k, i);
        StepRestorableIff(states, actions, j, i);
      }
    }
    if forall i :: k <= i < |actions| && Writes(states[i], actions[i], j) ==>
         Batch(states[i], actions[i], j) == Uploaded(Rows(states[k].t, j))
    {
      forall i | k <= i <= |actions| ensures j in states[i].t.jobs && Restorable(states[i].t, j) {
        RestorableUpTo(states, actions, j, k, i);
      }
    }
  }

  // ---------------------------------------------------------------------------------------
  // One handler at a time
  // ---------------------------------------------------------------------------------------

  /** A handler arrives only when all earlier ones have finished or stopped. */
  ghost predicate SerialNext(s: State, a: Action, s': State) {
    Next(s, a, s') && (a.Arrive? ==> forall h :: h in s.pcs ==> s.pcs[h] == Finished)
  }

  ghost const SerialTrans: (State, Action, State) -> bool := (s, a, s') => SerialNext(s, a, s')

  ghost predicate SerialRows(t: Tables, j: Id) {
    && (j in t.artifacts <==> Done(t, j))
    && (Done(t, j) ==> Consistent(t, j) && (t.jobs[j].state == Verified ==> Restorable(t, j)))
  }

  ghost predicate Alone(pcs: map<Id, Pc>) {
    forall g, h :: g in pcs && h in pcs && pcs[g] != Finished && pcs[h] != Finished ==> g == h
  }

  ghost predicate SerialInv(s: State) {
    && (forall j :: SerialRows(s.t, j))
    && (forall h :: h in s.pcs ==> ReadNow(s.t, s.pcs[h]))
    && Alone(s.pcs)
  }

  lemma PrepareIsConsistent(t: Tables, j: Id, p: Prep)
    requires SerialRows(t, j) && j in t.jobs && t.jobs[j].state == JobState.Running && Parsed(p)
    ensures SerialRows(PreparedBatch(t, j, p), j)
  {
    PreparedRows(t, j, p);
  }

  lemma VerifyIsRestorable(t: Tables, j: Id, r: map<Kind, Object>)
    requires SerialRows(t, j) && j in t.jobs && t.jobs[j].state == Prepared && r.Keys == ALL_KINDS
      && MatchesStored(t, j, r)
    ensures SerialRows(VerifyBatch(t, j, r), j)
  {
    var t' := VerifyBatch(t, j, r);
    assert Rows(t', j) == SetObjects(Rows(t, j), r);
    forall k | k in Rows(t', j) ensures Backed(Rows(t', j)[k], ObjectKey(t.jobs[j].tenant, j, k)) {
      assert Rows(t, j)[k].digest == r[k].digest;
    }
    assert Digests(Rows(t', j)) == Digests(Rows(t, j));
  }

  lemma EffectKeepsSerialRows(t: Tables, w: Write, t': Tables, j: Id)
    requires SerialRows(t, j) && RowEffect(t, w, t', j)
    requires (w.Prepare? || w.Verify?) ==> w.job != j
    requires j in t'.artifacts <==> j in t.artifacts
    requires j in t.artifacts ==> t'.artifacts[j] == t.artifacts[j]
    ensures SerialRows(t', j)
  {
  }

  lemma WriteKeepsSerialRows(t: Tables, w: Write, j: Id)
    requires SerialRows(t, j) && Exact(t, w)
    ensures SerialRows(Apply(t, w), j)
  {
    hide SerialRows, MatchesStored;
    if w.Prepare? && w.job == j {
      PrepareIsConsistent(t, j, w.prep);
    } else if w.Verify? && w.job == j {
      VerifyIsRestorable(t, j, w.returned);
    } else {
      WriteOnJob(t, w, j);
      OtherRows(t, w, j);
      EffectKeepsSerialRows(t, w, Apply(t, w), j);
    }
  }

  lemma FinishedIsOver(t: Tables, w: Write, pc': Pc)
    ensures !Call(t, Finished, w, pc')
  {
  }

  /** The other handlers are over, so what they have read does not matter. */
  lemma SerialReads(pcs: map<Id, Pc>, t: Tables, h: Id, pc': Pc, pcs': map<Id, Pc>)
    requires Alone(pcs) && h in pcs && pcs[h] != Finished && ReadNow(t, pc') && pcs' == pcs[h := pc']
    ensures Alone(pcs') && forall g :: g in pcs' ==> ReadNow(t, pcs'[g])
  {
    forall g | g in pcs' ensures ReadNow(t, pcs'[g]) {
      assert g == h || pcs[g] == Finished;
    }
  }

  lemma SerialCallKeepsInv(s: State, h: Id, w: Write, pc': Pc)
    requires SerialInv(s) && h in s.pcs && Call(s.t, s.pcs[h], w, pc')
    ensures SerialInv(After(s, h, w, pc'))
  {
    assert w == NoWrite ==> Apply(s.t, w) == s.t;
    hide Call, SerialRows, Apply, Exact, Alone;
    FinishedIsOver(s.t, w, pc');
    assert ReadNow(s.t, s.pcs[h]) && (ReadNow(s.t, s.pcs[h]) ==> Wellformed(s.pcs[h]));
    hide ReadNow, Wellformed;
    CallsKeepReads(s.t, s.pcs[h], w, pc', Apply(s.t, w));
    SerialReads(s.pcs, Apply(s.t, w), h, pc', s.pcs[h := pc']);
    forall j ensures SerialRows(Apply(s.t, w), j) {
      WriteKeepsSerialRows(s.t, w, j);
    }
  }

  /** Creations, arrivals and crashes write no rows, and only an arrival adds a handler. */
  lemma OtherSerialStepKeepsInv(s: State, a: Action, s': State)
    requires SerialInv(s) && SerialNext(s, a, s') && !a.Step?
    ensures SerialInv(s')
  {
    hide Call;
    forall j ensures SerialRows(s'.t, j) {
      assert SerialRows(s.t, j);
    }
    hide SerialRows;
  }

  lemma SerialStepKeepsInv(s: State, a: Action, s': State)
    requires SerialInv(s) && SerialNext(s, a, s')
    ensures SerialInv(s')
  {
    hide SerialInv, Call, After;
    if a.Step? {
      var w, pc' :| Call(s.t, s.pcs[a.handler], w, pc') && s' == After(s, a.handler, w, pc');
      SerialCallKeepsInv(s, a.handler, w, pc');
    } else {
      OtherSerialStepKeepsInv(s, a, s');
    }
  }

  /** With one handler at a time, which may still stop anywhere, every verified backup is restorable. */
  lemma SerialBackupsAreRestorable(s: State, j: Id)
    requires Leads(SerialTrans, EMPTY, s) && Done(s.t, j)
    ensures Consistent(s.t, j) && (s.t.jobs[j].state == Verified ==> Restorable(s.t, j))
  {
    var inv := (s: State) => SerialInv(s);
    forall s, a, s' | inv(s) && SerialTrans(s, a, s') ensures inv(s') {
      SerialStepKeepsInv(s, a, s');
    }
    assert SerialInv(EMPTY);
    LeadsKeeps(SerialTrans, inv, EMPTY, s);
    assert SerialRows(s.t, j);
  }

  // ---------------------------------------------------------------------------------------
  // Two reports that differ
  // ---------------------------------------------------------------------------------------

  function OneByte(size: nat, sha: Sha): Prep {
    Prep(map[DatabaseDump := Digest(size, 1), FilestoreArchive := Digest(0, 2), Manifest := Digest(0, sha)], size, sha)
  }

  function Dispatching(row: Job): Job { row.(state := Dispatched, attempt := 1) }

  function Started(row: Job): Job { row.(state := JobState.Running, attempt := 1) }

  lemma ReachDispatched(row: Job, token: Token)
    requires Fresh(row)
    ensures Reachable(Leased(Dispatching(row), token, map[0 := Finished], [0]))
  {
    ReachClaimed(row, token);
    var s1 := Leased(row, token, map[0 := ClaimSource(row.node, token, 0)], []);
    var s2 := Leased(row, token, map[0 := ClaimDispatch(row.node, token, 0)], []);
    VisitClaim(s1, 0, NoWrite, s2);
    VisitClaim(s2, 0, Dispatch(0), Leased(Dispatching(row), token, map[0 := Finished], [0]));
  }

  /** The report of a start that has found its lease. */
  lemma ReachStarting(row: Job, token: Token)
    requires Fresh(row)
    ensures Reachable(Leased(Dispatching(row), token,
                             map[0 := Finished, 1 := ReportState(row.node, 0, RunningIn)], [0]))
  {
    ReachDispatched(row, token);
    var n, d := row.node, Dispatching(row);
    var s0 := Leased(d, token, map[0 := Finished], [0]);
    var s1 := Leased(d, token, map[0 := Finished, 1 := ReportLease(n, 0, token, RunningIn, 0)], [0]);
    VisitArrival(s0, 1, ReportLease(n, 0, token, RunningIn, 0), s1);
    var s2 := Leased(d, token, map[0 := Finished, 1 := ReportState(n, 0, RunningIn)], [0]);
    VisitReport(s1, 1, NoWrite, s2);
  }

  lemma ReachRunning(row: Job, token: Token)
    requires Fresh(row)
    ensures Reachable(Leased(Started(row), token, map[0 := Finished, 1 := Finished], [0]))
  {
    ReachStarting(row, token);
    var d := Dispatching(row);
    var s2 := Leased(d, token, map[0 := Finished, 1 := ReportState(row.node, 0, RunningIn)], [0]);
    var s3 := Leased(d, token, map[0 := Finished, 1 := ReportWrite(0, RunningIn, Dispatched, 600)], [0]);
    VisitReport(s2, 1, NoWrite, s3);
    var s4 := Leased(Started(row), token, map[0 := Finished, 1 := Finished], [0]);
    VisitReport(s3, 1, Write.Start(0, 600), s4);
  }

  /** Two reports on the one live lease, both past their reads. */
  function Racing(a: Pc, b: Pc): map<Id, Pc> { map[0 := Finished, 1 := Finished, 2 := a, 3 := b] }

  lemma ReachTwoWrites(row: Job, token: Token, in1: Input, in2: Input)
    requires Fresh(row)
    requires in1.PreparedIn? && in2.PreparedIn? && Parsed(in1.prep) && Parsed(in2.prep)
    ensures Reachable(Leased(Started(row), token,
              Racing(ReportWrite(0, in1, JobState.Running, 0), ReportWrite(0, in2, JobState.Running, 0)), [0]))
  {
    ReachRunning(row, token);
    var n, r := row.node, Started(row);
    var l1, l2 := ReportLease(n, 0, token, in1, 0), ReportLease(n, 0, token, in2, 0);
    var w1, w2 := ReportWrite(0, in1, JobState.Running, 0), ReportWrite(0, in2, JobState.Running, 0);
    var s0 := Leased(r, token, map[0 := Finished, 1 := Finished], [0]);
    var s1 := Leased(r, token, map[0 := Finished, 1 := Finished, 2 := l1], [0]);
    VisitArrival(s0, 2, l1, s1);
    var s2 := Leased(r, token, Racing(l1, l2), [0]);
    VisitArrival(s1, 3, l2, s2);
    var s3 := Leased(r, token, Racing(ReportState(n, 0, in1), l2), [0]);
    VisitReport(s2, 2, NoWrite, s3);
    var s4 := Leased(r, token, Racing(ReportState(n, 0, in1), ReportState(n, 0, in2)), [0]);
    VisitReport(s3, 3, NoWrite, s4);
    var s5 := Leased(r, token, Racing(w1, ReportState(n, 0, in2)), [0]);
    VisitReport(s4, 2, NoWrite, s5);
    VisitReport(s5, 3, NoWrite, Leased(r, token, Racing(w1, w2), [0]));
  }

  lemma WritesPrepared(s: State, h: Id, input: Input, s': State)
    requires Reachable(s) && input.PreparedIn?
    requires h in s.pcs && s.pcs[h] == ReportWrite(0, input, JobState.Running, 0)
    requires s' == State(PreparedBatch(s.t, 0, input.prep), s.pcs[h := Finished], s.handed)
    ensures Reachable(s')
  {
    hide PreparedBatch;
    Visit(s, h, Prepare(0, input.prep), s');
  }

  /** Both racing writes happen. */
  lemma RaceEnds(s: State, in1: Input, in2: Input) returns (s': State)
    requires Reachable(s) && in1.PreparedIn? && in2.PreparedIn?
    requires s.pcs == Racing(ReportWrite(0, in1, JobState.Running, 0), ReportWrite(0, in2, JobState.Running, 0))
    ensures Reachable(s') && s'.t == PreparedBatch(PreparedBatch(s.t, 0, in1.prep), 0, in2.prep)
  {
    hide PreparedBatch, Reachable;
    var w2 := ReportWrite(0, in2, JobState.Running, 0);
    var s1 := State(PreparedBatch(s.t, 0, in1.prep), Racing(Finished, w2), s.handed);
    WritesPrepared(s, 2, in1, s1);
    s' := State(PreparedBatch(s1.t, 0, in2.prep), Racing(Finished, Finished), s.handed);
    WritesPrepared(s1, 3, in2, s');
  }

  ghost predicate Contradicts(s: State, j: Id) { Done(s.t, j) && !Consistent(s.t, j) }

  /** A run in which two different `prepared` reports for one lease race: the job is prepared and
      its rows contradict it. */
  lemma DisagreeingReportsAreReachable(row: Job, token: Token)
    requires Fresh(row)
    ensures exists s :: Reachable(s) && Contradicts(s, 0)
  {
    var in1, in2 := PreparedIn(OneByte(1, 3)), PreparedIn(OneByte(2, 4));
    ReachTwoWrites(row, token, in1, in2);
    var s0 := Leased(Started(row), token,
                     Racing(ReportWrite(0, in1, JobState.Running, 0), ReportWrite(0, in2, JobState.Running, 0)), [0]);
    PreparedRows(s0.t, 0, in1.prep);
    LateBatch(PreparedBatch(s0.t, 0, in1.prep), 0, in2.prep);
    hide Consistent, PreparedBatch, Reachable;
    var s := RaceEnds(s0, in1, in2);
    assert Reachable(s) && Contradicts(s, 0);
  }

  /** Handler h moves on from pc while all else stands still. */
  lemma UploadMove(s: State, h: Id, pc: Pc, w: Write, pc': Pc)
    requires Reachable(s.(pcs := s.pcs[h := pc])) && UploadCall(s.t, pc, w, pc')
    ensures Reachable(State(Apply(s.t, w), s.pcs[h := pc'], Log(w, s.handed)))
  {
    hide ClaimCall, ReportCall, UploadCall, Apply;
    var s1 := s.(pcs := s.pcs[h := pc]);
    LeadsCall(EMPTY, s1, h, w, pc');
    assert s1.pcs[h := pc'] == s.pcs[h := pc'];
  }

  /** An upload claim that inserts its lease and stops. */
  lemma ReachUploading(s: State, h: Id, node: Node) returns (s': State)
    requires Reachable(s) && h !in s.pcs && UploadClaimable(s.t, node, 0)
    ensures Reachable(s')
    ensures s' ==
      State(s.t.(uploads := s.t.uploads[0 := Lease(node, 0, 600)]), s.pcs[h := UploadClaimSource(node, 0)], s.handed)
  {
    hide Reachable, UploadClaimable;
    var scan, expire, insert :=
      UploadClaimScan(node, 0, 0), UploadClaimExpire(node, 0, []), UploadClaimInsert(node, 0, 600);
    VisitArrival(s, h, scan, s.(pcs := s.pcs[h := scan]));
    assert UploadScan(s.t, node, 0, []);
    UploadMove(s, h, scan, NoWrite, expire);
    UploadMove(s, h, expire, NoWrite, insert);
    UploadMove(s, h, insert, InsertUpload(0, Lease(node, 0, 600)), UploadClaimSource(node, 0));
    s' :=
      State(s.t.(uploads := s.t.uploads[0 := Lease(node, 0, 600)]), s.pcs[h := UploadClaimSource(node, 0)], s.handed);
  }

  /** And the report of the uploaded objects. */
  lemma ReachVerified(s: State, h: Id, node: Node, r: map<Kind, Object>)
    requires Reachable(s) && h !in s.pcs && 0 in s.t.uploads && s.t.uploads[0] == Lease(node, 0, 600)
    requires 0 in s.t.jobs && s.t.jobs[0].node == node && s.t.jobs[0].state == Prepared
    requires r.Keys == ALL_KINDS && MatchesStored(s.t, 0, r)
    ensures Reachable(State(VerifyBatch(s.t, 0, r), s.pcs[h := Finished], s.handed))
  {
    hide Reachable, MatchesStored, VerifyBatch;
    var lease, state := UploadReportLease(node, 0, 0, VerifiedIn(r), 0), UploadReportState(node, 0, VerifiedIn(r), 600);
    VisitArrival(s, h, lease, s.(pcs := s.pcs[h := lease]));
    UploadMove(s, h, lease, NoWrite, state);
    UploadMove(s, h, state, NoWrite, UploadReportMatch(node, 0, r));
    UploadMove(s, h, UploadReportMatch(node, 0, r), NoWrite, UploadReportWrite(0, r));
    UploadMove(s, h, UploadReportWrite(0, r), Verify(0, r), Finished);
  }

  function Objects(tenant: Id, d: map<Kind, Digest>): map<Kind, Object> {
    map k | k in d :: Object(ObjectKey(tenant, 0, k), 0, d[k])
  }

  /** The tables once the first report's objects are verified. */
  lemma VerifiedRows(t: Tables, p: Prep)
    requires Done(t, 0) && t.jobs[0].state == Prepared && Consistent(t, 0) && Digests(Rows(t, 0)) == p.digests
    ensures var r := Objects(t.jobs[0].tenant, p.digests);
      && r.Keys == ALL_KINDS && MatchesStored(t, 0, r)
      && var t' := VerifyBatch(t, 0, r);
      Done(t', 0) && t'.jobs[0].state == Verified && Restorable(t', 0) && Digests(Rows(t', 0)) == p.digests
  {
    var r := Objects(t.jobs[0].tenant, p.digests);
    assert Rows(t, 0).Keys == p.digests.Keys == ALL_KINDS by {
      assert Digests(Rows(t, 0)).Keys == Rows(t, 0).Keys;
    }
    forall k | k in r ensures k in Rows(t, 0) && Rows(t, 0)[k].digest == r[k].digest {
      assert Digests(Rows(t, 0))[k] == Rows(t, 0)[k].digest;
    }
    assert |ALL_KINDS| == 3;
    assert SerialRows(t, 0) by { assert Rows(t, 0) != map[]; }
    VerifyIsRestorable(t, 0, r);
    var rows' := Rows(VerifyBatch(t, 0, r), 0);
    assert rows' == SetObjects(Rows(t, 0), r);
    assert Digests(rows') == Digests(Rows(t, 0));
  }

  ghost predicate LostItsObject(s: State, j: Id) {
    Done(s.t, j) && s.t.jobs[j].state == Verified && Consistent(s.t, j) && !Restorable(s.t, j)
  }

  lemma ReachPreparedRacing(row: Job, token: Token, in1: Input, in2: Input)
    requires Fresh(row) && in1.PreparedIn? && in2.PreparedIn? && Parsed(in1.prep) && Parsed(in2.prep)
    ensures var t := Leased(Started(row), token, map[], []).t;
      Reachable(State(PreparedBatch(t, 0, in1.prep), Racing(Finished, ReportWrite(0, in2, JobState.Running, 0)), [0]))
  {
    ReachTwoWrites(row, token, in1, in2);
    var w2 := ReportWrite(0, in2, JobState.Running, 0);
    var s0 := Leased(Started(row), token, Racing(ReportWrite(0, in1, JobState.Running, 0), w2), [0]);
    hide PreparedBatch, Reachable;
    WritesPrepared(s0, 2, in1, State(PreparedBatch(s0.t, 0, in1.prep), Racing(Finished, w2), [0]));
  }

  /** The report p with another dump. */
  function OtherDump(p: Prep): Prep
    requires p.digests.Keys == ALL_KINDS
  {
    p.(digests := p.digests[DatabaseDump := p.digests[DatabaseDump].(sha := p.digests[DatabaseDump].sha + 1)])
  }

  lemma OtherDumpIsParsed(p: Prep)
    requires Parsed(p)
    ensures Parsed(OtherDump(p)) && OtherDump(p).total == p.total && OtherDump(p).manifest == p.manifest
    ensures OtherDump(p).digests[DatabaseDump] != p.digests[DatabaseDump]
  {
  }

  lemma FirstBatch(t: Tables, p: Prep)
    requires 0 in t.jobs && t.jobs[0].state == JobState.Running && t.artifacts == map[] && t.uploads == map[]
      && Parsed(p)
    ensures var t' := PreparedBatch(t, 0, p);
      && Done(t', 0) && t'.jobs[0] == t.jobs[0].(state := Prepared, prep := Some((p.total, p.manifest)))
      && Consistent(t', 0) && Digests(Rows(t', 0)) == p.digests && t'.uploads == map[]
      && UploadClaimable(t', t.jobs[0].node, 0)
  {
    var t' := PreparedBatch(t, 0, p);
    PreparedRows(t, 0, p);
    assert |ALL_KINDS| == 3 && |Rows(t', 0)| == |Rows(t', 0).Keys|;
  }

  /** From a prepared backup with a pending second report to a verified one whose dump row no longer
      describes the object it points at. */
  lemma LateBatchLosesObject(s: State, p: Prep) returns (s': State)
    requires Parsed(p) && Reachable(s)
    requires s.pcs == Racing(Finished, ReportWrite(0, PreparedIn(OtherDump(p)), JobState.Running, 0))
    requires Done(s.t, 0) && s.t.jobs[0].state == Prepared && Consistent(s.t, 0)
    requires Digests(Rows(s.t, 0)) == p.digests && UploadClaimable(s.t, s.t.jobs[0].node, 0)
    ensures Reachable(s') && LostItsObject(s', 0)
  {
    OtherDumpIsParsed(p);
    var p2, node := OtherDump(p), s.t.jobs[0].node;
    hide PreparedBatch, Reachable, UploadClaimable, OtherDump, VerifyBatch, MatchesStored;
    var s2 := ReachUploading(s, 4, node);
    assert Rows(s2.t, 0) == Rows(s.t, 0);
    var r := Objects(s.t.jobs[0].tenant, p.digests);
    VerifiedRows(s2.t, p);
    ReachVerified(s2, 5, node, r);
    var s3 := State(VerifyBatch(s2.t, 0, r), s2.pcs[5 := Finished], s2.handed);
    s' := LateWrite(s3, p, p2);
  }

  lemma LateWrite(s: State, p: Prep, p2: Prep) returns (s': State)
    requires Reachable(s) && 3 in s.pcs && s.pcs[3] == ReportWrite(0, PreparedIn(p2), JobState.Running, 0)
    requires Parsed(p) && Parsed(p2) && p2.total == p.total && p2.manifest == p.manifest
    requires p2.digests[DatabaseDump] != p.digests[DatabaseDump]
    requires Done(s.t, 0) && s.t.jobs[0].state == Verified && Restorable(s.t, 0) && Digests(Rows(s.t, 0)) == p.digests
    ensures Reachable(s') && LostItsObject(s', 0)
  {
    LateBatch(s.t, 0, p2);
    hide PreparedBatch, Reachable;
    s' := State(PreparedBatch(s.t, 0, p2), s.pcs[3 := Finished], s.handed);
    WritesPrepared(s, 3, PreparedIn(p2), s');
    assert Digests(Rows(s.t, 0))[DatabaseDump] == Rows(s.t, 0)[DatabaseDump].stored.value.digest;
  }

  /** Such a run exists for every job and every first report: a second report with the same total and
      manifest hash but another dump is written after the verification. */
  lemma LateBatchIsReachable(row: Job, token: Token, p: Prep)
    requires Fresh(row) && Parsed(p)
    ensures exists s :: Reachable(s) && LostItsObject(s, 0)
  {
    OtherDumpIsParsed(p);
    var in2 := PreparedIn(OtherDump(p));
    hide OtherDump;
    ReachPreparedRacing(row, token, PreparedIn(p), in2);
    var t := Leased(Started(row), token, map[], []).t;
    FirstBatch(t, p);
    hide PreparedBatch, Reachable, LostItsObject, UploadClaimable, Consistent;
    var w2 := ReportWrite(0, in2, JobState.Running, 0);
    var s := LateBatchLosesObject(State(PreparedBatch(t, 0, p), Racing(Finished, w2), [0]), p);
    assert Reachable(s) && LostItsObject(s, 0);
  }
}
