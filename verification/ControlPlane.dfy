/** The job handlers as they run: statement by statement on the tables. */
module ControlPlane {
  import opened Common
  import opened LeasedJobs
  import opened Replays
  import opened HandlerRules

  lemma TwoSteps(log: seq<Event>, from: JobState, a: JobState, b: JobState)
    ensures Follow(log, from, [a]) == log + [Event(Some(from), a)]
    ensures Follow(log, from, [a, b]) == log + [Event(Some(from), a)] + [Event(Some(a), b)]
  {
    assert [a, b][1..] == [b] && [b][1..] == [] && [a][1..] == [];
    assert Follow(log + [Event(Some(from), a)], a, [b]) == log + [Event(Some(from), a)] + [Event(Some(a), b)];
  }

  class Database {
    var jobs: map<Ref, Job>
    var leases: map<Ref, Lease>
    var events: map<Ref, seq<Event>>
    var results: map<Ref, Result>
    var now: Time
    /** The lease tokens handed out so far; they are random and never repeat. */
    ghost var issued: set<Token>

    ghost function Snapshot(): Tables
      reads this
    {
      Tables(jobs, leases, events, results, issued, now)
    }

    constructor ()
      ensures Snapshot() == EMPTY
    {
      jobs, leases, events, results, now, issued := map[], map[], map[], map[], 0, {};
    }

    /** UPDATE ... SET state, and one event row per step. */
    method MoveTo(j: Ref, path: seq<JobState>)
      requires j in jobs && 1 <= |path| <= 2
      modifies `jobs, `events
      ensures Snapshot() == Walk(old(Snapshot()), j, path)
    {
      var from := jobs[j].state;
      var log := if j in events then events[j] else [];
      TwoSteps(log, from, path[0], path[|path| - 1]);
      log := log + [Event(Some(from), path[0])];
      if |path| == 2 { log := log + [Event(Some(path[0]), path[1])]; }
      assert path == if |path| == 1 then [path[0]] else [path[0], path[1]];
      jobs := jobs[j := jobs[j].(state := path[|path| - 1])];
      events := events[j := log];
    }

    /** markExpiredLeases */
    method MarkExpired(rows: seq<Ref>)
      modifies this
      ensures Snapshot() == ExpireAll(old(Snapshot()), rows)
      ensures Inv(old(Snapshot())) && Leased(old(Snapshot()), rows) ==>
        && leases == old(leases) - (set r | r in rows) && results == old(results) && now == old(now)
        && jobs.Keys == old(jobs).Keys
        && forall j :: j in old(jobs) ==>
             jobs[j] == if j !in rows then old(jobs)[j]
                        else old(jobs)[j].(state := if j.machine == Restore then Queued else Failed)
    {
      assert rows[0..] == rows;
      for k := 0 to |rows|
        invariant ExpireAll(old(Snapshot()), rows) == ExpireAll(Snapshot(), rows[k..])
      {
        ghost var before := Snapshot();
        var row := rows[k];
        assert rows[k..][1..] == rows[k + 1..];
        if JobOf(row) !in jobs {
          if row.machine in {Upload, Restore} { leases := leases - {row}; }
          continue;
        }
        MoveTo(JobOf(row), [AfterExpiry(row.machine, jobs[JobOf(row)].state)]);
        leases := leases - {row};
        assert Snapshot() == Expire(before, row);
      }
      assert rows[|rows|..] == [];
      SweptJobs(old(Snapshot()), rows);
    }

    /** One machine's claim handler: `rows` is what its expiry query returned, `candidate` the row its
        lease insert picked, if any. */
    method ClaimOperation(m: Machine, node: Node, rows: seq<Ref>, candidate: Option<Id>, token: Token, until: Time)
      returns (operation: Option<Id>)
      requires Sweep(Snapshot(), m, node, rows) && token !in issued
      modifies this
      ensures LeasedJobs.Next(old(Snapshot()), Claim(m, node, rows, operation, token, until), Snapshot())
      ensures operation == if candidate.Some? && Claimable(ExpireAll(old(Snapshot()), rows), m, node, candidate.value)
                           then candidate else None
    {
      hide ExpireAll, Follow, Edges, Inv, Leased;
      MarkExpired(rows);
      ghost var swept := Snapshot();
      if candidate.None? { return None; }
      var r := Ref(m, candidate.value);
      var j := JobOf(r);
      if j !in jobs || jobs[j].node != Some(node) || jobs[j].state !in ClaimableStates(m) || r in leases {
        return None;
      }
      assert Claimable(swept, m, node, candidate.value);
      leases := leases[r := Lease(node, token, until)];
      issued := issued + {token};
      MoveTo(j, [if m == Upload then Prepared else Dispatched]);
      if m != Upload && m != Cleanup {
        jobs := jobs[j := jobs[j].(attempt := jobs[j].attempt + 1)];
      }
      return candidate;
    }

    /** UPDATE ... SET lease_expires_at. */
    method Extend(r: Ref, until: Time)
      requires r in leases
      modifies `leases
      ensures Snapshot() == Renew(old(Snapshot()), r, until)
    {
      leases := leases[r := leases[r].(expires := until)];
    }

    /** The AFTER UPDATE trigger on restore_jobs. */
    method FireTrigger(id: Id)
      requires Ref(Restore, id) in jobs
      modifies `jobs, `events
      ensures Snapshot() == Materialise(old(Snapshot()), id)
    {
      var p := Ref(Provisioning, id);
      if p !in jobs {
        jobs := jobs[p := jobs[Ref(Restore, id)].(state := Ready, attempt := 1)];
        events := events[p := [Event(None, Ready)]];
      }
    }

    /** A terminal report that has passed its checks. */
    method Finish(r: Ref, path: seq<JobState>)
      requires JobOf(r) in jobs && 1 <= |path| <= 2
      modifies this
      ensures var t1 := DropLease(Walk(old(Snapshot()), JobOf(r), path), r);
        Snapshot() == if r.machine == Restore && path[|path| - 1] == Validated then Materialise(t1, r.id) else t1
    {
      leases := leases - {r};
      MoveTo(JobOf(r), path);
      if r.machine == Restore && path[|path| - 1] == Validated { FireTrigger(r.id); }
    }

    /** One machine's report handler. */
    method ReportResult(m: Machine, id: Id, node: Node, token: Token, input: Input, until: Time)
      returns (answer: Answer)
      modifies this
      ensures Snapshot() == Report(old(Snapshot()), m, id, node, token, input, until)
      ensures answer == AnswerOf(old(Snapshot()), m, id, node, token, input)
    {
      var r, j := Ref(m, id), JobOf(Ref(m, id));
      if input.DoneIn? && !Parsed(m, input.result) { return Rejected; }
      var missing := if m == Backup then !HasLiveLease(r, node, token) else !(r in leases && leases[r].node == node);
      if missing {
        if input.DoneIn? {
          var matches := ReplayCheck(m, id, node, input.result);
          return if matches then Replayed else Rejected;
        }
        return Rejected;
      }
      if leases[r].token != token { return Rejected; }
      if leases[r].expires <= now {
        if m == Upload { leases := leases - {r}; }
        return Rejected;
      }
      if j !in jobs || jobs[j].node != Some(node) { return Rejected; }
      var s := jobs[j].state;
      match input {
        case RunningIn =>
          if m == Upload || s == Running {
            Extend(r, until);
            return Accepted;
          }
          if s != Dispatched { return Rejected; }
          MoveTo(j, [Running]);
          Extend(r, until);
          return Accepted;
        case FailedIn =>
          if !MayFail(m, s) { return Rejected; }
          Finish(r, [if m == Upload then s else Failed]);
          return Accepted;
        case DoneIn(result) =>
          if !MayFinish(m, s, Fits(Tables(jobs, leases, events, results, {}, now), m, id, result)) { return Rejected; }
          if m in {Backup, Upload} { results := results[r := result]; }
          Finish(r, DonePath(m));
          return Accepted;
      }
    }

    predicate HasLiveLease(r: Ref, node: Node, token: Token)
      reads this
    {
      r in leases && leases[r].node == node && leases[r].token == token && now < leases[r].expires
    }

    /** The replay queries, which write nothing. */
    method ReplayCheck(m: Machine, id: Id, node: Node, result: Result) returns (matches: bool)
      ensures matches == ReplayMatches(Snapshot(), m, id, node, result)
    {
      var r, j := Ref(m, id), JobOf(Ref(m, id));
      if m !in {Backup, Upload, Restore} || j !in jobs || r !in results { return false; }
      if m != Backup && jobs[j].node != Some(node) { return false; }
      var stored := results[r];
      if m == Restore { return jobs[j].state == Validated && stored == result; }
      if m == Upload {
        if jobs[j].state != Verified || !stored.OfUpload? || !result.OfUpload? { return false; }
        return SortedItems(stored.items) == SortedItems(result.items);
      }
      if jobs[j].state != Prepared || !stored.OfBackup? || !result.OfBackup? { return false; }
      if stored.manifest != result.manifest || stored.total != result.total { return false; }
      return SortedItems(stored.items) == SortedItems(result.items);
    }

    /** app.ts: the ordered handlers a posted result passes. */
    method PostOperationResult(node: Node, id: Id, token: Token, input: Input, until: Time) returns (answer: Answer)
      modifies this
      ensures LeasedJobs.Next(old(Snapshot()), Post(node, id, token, input, until), Snapshot())
      ensures answer == AnswerOf(old(Snapshot()), Route(old(Snapshot()), node, id), id, node, token, input)
    {
      hide Report, AnswerOf;
      var restoreOwnsResult := Ref(Restore, id) in jobs;
      if restoreOwnsResult {
        answer := ReportResult(Restore, id, node, token, input, until);
        return;
      }
      var leaseExists := Ref(Upload, id) in leases && leases[Ref(Upload, id)].node == node;
      var backup := Ref(Backup, id);
      if leaseExists || (backup in jobs && jobs[backup].node == Some(node) && jobs[backup].state == Verified) {
        answer := ReportResult(Upload, id, node, token, input, until);
        return;
      }
      if backup in jobs {
        answer := ReportResult(Backup, id, node, token, input, until);
        return;
      }
      if Ref(Cleanup, id) in jobs {
        answer := ReportResult(Cleanup, id, node, token, input, until);
        return;
      }
      answer := ReportResult(Provisioning, id, node, token, input, until);
    }

    /** The administrator's retry of a failed provisioning or cleanup. */
    method RetryJob(r: Ref) returns (retried: bool)
      modifies this
      ensures retried == Retryable(old(Snapshot()), r)
      ensures if retried then LeasedJobs.Next(old(Snapshot()), Retry(r), Snapshot()) else Snapshot() == old(Snapshot())
    {
      if r.machine !in {Provisioning, Cleanup} || r !in jobs || jobs[r].state != Failed { return false; }
      leases := leases - {r};
      MoveTo(r, [RetryTarget(r.machine)]);
      return true;
    }
  }
}
