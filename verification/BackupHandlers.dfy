/** One backup or upload handler from its first call to its last, when no other one runs in between. */
module BackupHandlers {
  import opened Common
  import opened BackupLeg

  /** The next call of a handler that may have finished. */
  ghost predicate Claims(t: Tables, pc: Pc, w: Write, pc': Pc) {
    if pc == Finished then w == NoWrite && pc' == Finished else ClaimCall(t, pc, w, pc')
  }

  ghost predicate Reports(t: Tables, pc: Pc, w: Write, pc': Pc) {
    if pc == Finished then w == NoWrite && pc' == Finished else ReportCall(t, pc, w, pc')
  }

  ghost predicate Uploads(t: Tables, pc: Pc, w: Write, pc': Pc) {
    if pc == Finished then w == NoWrite && pc' == Finished else UploadCall(t, pc, w, pc')
  }

  /** The rows a batch leaves: each reported kind with its digest and the object it had, the others as they were. */
  lemma UpsertMeans(rows: map<Kind, Artifact>, p: Prep, k: Kind)
    ensures k in Upsert(rows, p) <==> k in rows || k in p.digests
    ensures k in p.digests ==>
      Upsert(rows, p)[k] == Artifact(p.digests[k], if k in rows then rows[k].stored else None)
    ensures k in rows && k !in p.digests ==> Upsert(rows, p)[k] == rows[k]
  {
  }

  /** A report is accepted exactly under the job's own live lease, on its node, in a state the report may end: a
      running or failed one from dispatched or running, a prepared one from running.  It then moves the job, extends
      the lease or removes it, and stores the artifacts; otherwise it changes nothing. */
  lemma ReportAlone(t: Tables, node: Node, j: Id, token: Token, input: Input, now: Time, w1: Write, pc1: Pc,
                    w2: Write, pc2: Pc, w3: Write, pc3: Pc)
    requires ReportCall(t, ReportLease(node, j, token, input, now), w1, pc1)
    requires Reports(t, pc1, w2, pc2) && Reports(t, pc2, w3, pc3)
    ensures pc3 == Finished && w1 == w2 == NoWrite
    ensures
      var t' := Apply(t, w3);
      if j in t.leases && t.leases[j].node == node && t.leases[j].token == token && now < t.leases[j].expires
         && j in t.jobs && t.jobs[j].node == node
         && t.jobs[j].state in (if input.PreparedIn? then {Running} else {Dispatched, Running})
      then
        match input
        case RunningIn =>
          exists until ::
            t' == t.(jobs := t.jobs[j := t.jobs[j].(state := Running)],
                     leases := t.leases[j := t.leases[j].(expires := until)])
        case FailedIn => t' == t.(jobs := t.jobs[j := t.jobs[j].(state := Failed)], leases := t.leases - {j})
        case PreparedIn(p) =>
          t' == t.(jobs := t.jobs[j := t.jobs[j].(state := Prepared, prep := Some((p.total, p.manifest)))],
                   leases := t.leases - {j},
                   artifacts := t.artifacts[j := Upsert(if j in t.artifacts then t.artifacts[j] else map[], p)])
      else t' == t
  {
    hide Upsert;
    if w3.RenewLease? { assert t.jobs[j := t.jobs[j].(state := Running)] == t.jobs; }
  }

  /** An upload's report under the node's own token: a lapsed lease is removed; otherwise a running report extends
      it and a failed one removes it.  A verified one goes on to the match when the backup is prepared on that node. */
  lemma UploadReportAlone(t: Tables, node: Node, j: Id, token: Token, input: UploadInput, now: Time, w1: Write, pc1: Pc,
                          w2: Write, pc2: Pc)
    requires UploadCall(t, UploadReportLease(node, j, token, input, now), w1, pc1) && Uploads(t, pc1, w2, pc2)
    ensures w1 == NoWrite
    ensures
      var t' := Apply(t, w2);
      if !(j in t.uploads && t.uploads[j].node == node && t.uploads[j].token == token)
      then t' == t && pc2 == Finished
      else if t.uploads[j].expires <= now then t' == t.(uploads := t.uploads - {j}) && pc2 == Finished
      else
        match input
        case UploadRunning =>
          pc2 == Finished && exists until :: t' == t.(uploads := t.uploads[j := t.uploads[j].(expires := until)])
        case UploadFailed => pc2 == Finished && t' == t.(uploads := t.uploads - {j})
        case VerifiedIn(r) =>
          t' == t && pc2 == if j in t.jobs && t.jobs[j].node == node && t.jobs[j].state == Prepared
                            then UploadReportMatch(node, j, r) else Finished
  {
  }

  /** The objects are stored exactly when each is one of the backup's three artifacts, under its own key; then the
      backup is verified and its upload lease removed. */
  lemma UploadMatchAlone(t: Tables, node: Node, j: Id, r: map<Kind, Object>, w1: Write, pc1: Pc, w2: Write, pc2: Pc)
    requires j in t.jobs && t.jobs[j].state == Prepared
    requires UploadCall(t, UploadReportMatch(node, j, r), w1, pc1) && Uploads(t, pc1, w2, pc2)
    ensures pc2 == Finished && w1 == NoWrite
    ensures
      if j in t.artifacts && |t.artifacts[j]| == 3
         && forall k :: k in r ==>
              && k in t.artifacts[j] && t.artifacts[j][k].digest == r[k].digest
              && r[k].key == ObjectKey(t.jobs[j].tenant, j, k)
      then
        Apply(t, w2) ==
          t.(jobs := t.jobs[j := t.jobs[j].(state := Verified)], uploads := t.uploads - {j},
             artifacts := t.artifacts[j := map k | k in t.artifacts[j] ::
               if k in r then t.artifacts[j][k].(stored := Some(r[k])) else t.artifacts[j][k]])
      else Apply(t, w2) == t
  {
    hide VerifyBatch;
    if w2.Verify? { VerifyMeans(t, j, r); }
  }

  lemma VerifyMeans(t: Tables, j: Id, r: map<Kind, Object>)
    requires j in t.jobs && t.jobs[j].state == Prepared && j in t.artifacts
    requires forall k :: k in r ==> k in t.artifacts[j] && t.artifacts[j][k].digest == r[k].digest
    ensures VerifyBatch(t, j, r) ==
      t.(jobs := t.jobs[j := t.jobs[j].(state := Verified)], uploads := t.uploads - {j},
         artifacts := t.artifacts[j := map k | k in t.artifacts[j] ::
           if k in r then t.artifacts[j][k].(stored := Some(r[k])) else t.artifacts[j][k]])
  {
    assert SetObjects(t.artifacts[j], r) == map k | k in t.artifacts[j] ::
        if k in r then t.artifacts[j][k].(stored := Some(r[k])) else t.artifacts[j][k];
  }

  /** The rows of the claim's expiry query: leases of the node that have lapsed, of jobs in flight, at most 20. */
  lemma ClaimScanMeans(t: Tables, node: Node, token: Token, now: Time, w: Write, pc: Pc)
    requires ClaimCall(t, ClaimScan(node, token, now), w, pc)
    ensures w == NoWrite && pc.ClaimSweep? && pc.node == node && pc.token == token && |pc.rows| <= 20
    ensures forall j :: j in pc.rows ==>
      && j in t.leases && t.leases[j].node == node && t.leases[j].expires <= now
      && j in t.jobs && t.jobs[j].state in {Dispatched, Running}
  {
  }

  /** One row of the expiry loop: the job fails if it is still in flight, and its lease is removed. */
  lemma ClaimSweepAlone(t: Tables, node: Node, token: Token, rows: seq<Id>, w1: Write, pc1: Pc, w2: Write, pc2: Pc)
    requires rows != [] && rows[0] in t.jobs
    requires ClaimCall(t, ClaimSweep(node, token, rows), w1, pc1) && ClaimCall(t, pc1, w2, pc2)
    ensures w1 == NoWrite && pc2 == ClaimSweep(node, token, rows[1..])
    ensures
      var j := rows[0];
      Apply(t, w2) == t.(leases := t.leases - {j},
        jobs := if t.jobs[j].state in {Dispatched, Running} then t.jobs[j := t.jobs[j].(state := Failed)] else t.jobs)
  {
  }

  /** The rest of a claim: it hands out a queued job of the node without a lease, under its token, dispatched and
      counted, exactly when there is one. */
  lemma ClaimAlone(t: Tables, node: Node, token: Token, until: Time, w1: Write, pc1: Pc, w2: Write, pc2: Pc,
                   w3: Write, pc3: Pc)
    requires ClaimCall(t, ClaimInsert(node, token, until), w1, pc1)
    requires Claims(Apply(t, w1), pc1, w2, pc2) && Claims(Apply(t, w1), pc2, w3, pc3)
    ensures pc3 == Finished && w2 == NoWrite
    ensures
      var t' := Apply(Apply(t, w1), w3);
      if exists j :: j in t.jobs && t.jobs[j].node == node && t.jobs[j].state == Queued && j !in t.leases
      then
        exists j ::
          && j in t.jobs && t.jobs[j].node == node && t.jobs[j].state == Queued && j !in t.leases
          && w3 == Write.Dispatch(j)
          && t' == t.(leases := t.leases[j := Lease(node, token, until)],
                      jobs := t.jobs[j := t.jobs[j].(state := Dispatched, attempt := t.jobs[j].attempt + 1)])
      else t' == t
  {
    if j :| j in t.jobs && t.jobs[j].node == node && t.jobs[j].state == Queued && j !in t.leases {
      assert Claimable(t, node, j);
    }
    if w1.InsertLease? { assert w3 == Write.Dispatch(w1.job); }
  }

  /** The rows of the upload claim's expiry query, and what becomes of each. */
  lemma UploadSweepAlone(t: Tables, node: Node, token: Token, now: Time, w: Write, pc: Pc, w': Write, pc': Pc)
    requires UploadCall(t, UploadClaimScan(node, token, now), w, pc) && UploadCall(t, pc, w', pc')
    ensures w == NoWrite && pc.UploadClaimExpire? && |pc.rows| <= 20
    ensures forall j :: j in pc.rows ==> j in t.uploads && t.uploads[j].node == node && t.uploads[j].expires <= now
    ensures Apply(t, w') == if pc.rows == [] then t else t.(uploads := t.uploads - {pc.rows[0]})
  {
  }

  /** The rest of an upload claim: it leases a prepared backup of the node with three artifacts and no upload lease,
      exactly when there is one, and leaves the backup as it is. */
  lemma UploadClaimAlone(t: Tables, node: Node, token: Token, until: Time, w1: Write, pc1: Pc, w2: Write, pc2: Pc,
                         w3: Write, pc3: Pc, w4: Write, pc4: Pc)
    requires UploadCall(t, UploadClaimInsert(node, token, until), w1, pc1)
    requires Uploads(Apply(t, w1), pc1, w2, pc2) && Uploads(Apply(t, w1), pc2, w3, pc3)
    requires Uploads(Apply(t, w1), pc3, w4, pc4)
    ensures pc4 == Finished && w2 == w3 == w4 == NoWrite
    ensures
      var t' := Apply(t, w1);
      if exists j ::
           && j in t.jobs && t.jobs[j].node == node && t.jobs[j].state == Prepared && t.jobs[j].prep.Some?
           && j in t.artifacts && |t.artifacts[j]| == 3 && j !in t.uploads
      then
        exists j ::
          && j in t.jobs && t.jobs[j].node == node && t.jobs[j].state == Prepared && t.jobs[j].prep.Some?
          && j in t.artifacts && |t.artifacts[j]| == 3 && j !in t.uploads
          && t' == t.(uploads := t.uploads[j := Lease(node, token, until)])
      else t' == t
  {
    UploadInsertMeans(t, node, token, until, w1, pc1);
    if w1.InsertUpload? {
      UploadClaimEnds(Apply(t, w1), node, w1.job, w2, pc2, w3, pc3, w4, pc4);
    }
    hide UploadCall;
  }

  lemma UploadInsertMeans(t: Tables, node: Node, token: Token, until: Time, w: Write, pc: Pc)
    requires UploadCall(t, UploadClaimInsert(node, token, until), w, pc)
    ensures if w.InsertUpload? then
        && w.lease == Lease(node, token, until) && pc == UploadClaimSource(node, w.job)
        && w.job in t.jobs && t.jobs[w.job].node == node && t.jobs[w.job].state == Prepared
        && t.jobs[w.job].prep.Some?
        && w.job in t.artifacts && |t.artifacts[w.job]| == 3 && w.job !in t.uploads
      else
        && w == NoWrite && pc == Finished
        && forall j ::
             (j in t.jobs && t.jobs[j].node == node && t.jobs[j].state == Prepared && t.jobs[j].prep.Some?
              && j in t.artifacts && |t.artifacts[j]| == 3) ==> j in t.uploads
  {
    if w.InsertUpload? {
      assert UploadClaimable(t, node, w.job);
    } else {
      forall j | j in t.jobs && t.jobs[j].node == node && t.jobs[j].state == Prepared && t.jobs[j].prep.Some?
                 && j in t.artifacts && |t.artifacts[j]| == 3
        ensures j in t.uploads
      {
        assert !UploadClaimable(t, node, j);
      }
    }
  }

  lemma UploadClaimEnds(t: Tables, node: Node, j: Id, w2: Write, pc2: Pc, w3: Write, pc3: Pc, w4: Write, pc4: Pc)
    requires j in t.jobs && t.jobs[j].node == node && t.jobs[j].state == Prepared
    requires j in t.artifacts && |t.artifacts[j]| == 3
    requires UploadCall(t, UploadClaimSource(node, j), w2, pc2)
    requires Uploads(t, pc2, w3, pc3) && Uploads(t, pc3, w4, pc4)
    ensures pc4 == Finished && w2 == w3 == w4 == NoWrite
  {
  }
}
