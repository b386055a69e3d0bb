/** The exit of a supervised process: when its terminal write is accepted, and what it writes. */
module ManagerExit {
  import opened Basics
  import opened Job
  import opened Store
  import opened StateStores
  import opened Manager
  import opened ManagerSafety

  const INT_MAX := 0x7FFF_FFFF

  /** Exit codes and signal numbers are C++ ints. */
  predicate StatusFits(status: ExitStatus) {
    -INT_MAX - 1 <= status.exitCode <= INT_MAX && -INT_MAX - 1 <= status.signal <= INT_MAX
  }

  lemma TenDigits()
    ensures Pow10(10) > INT_MAX + 1
  {
    assert Pow10(3) == 1000;
    assert Pow10(6) == 1000000;
    assert Pow10(9) == 1000000000;
  }

  lemma IntTextFits(n: int)
    requires -INT_MAX - 1 <= n <= INT_MAX
    ensures 1 <= |IntText(n)| <= 11 && NulFree(IntText(n))
  {
    TenDigits();
    DecimalLength(if n < 0 then -n else n, 10);
  }

  /** `std::to_string` of a signed number. */
  lemma IntTextReads(n: int)
    ensures n >= 0 ==> Numeral(IntText(n), n)
    ensures n < 0 ==> |IntText(n)| > 1 && IntText(n)[0] == '-' && Numeral(IntText(n)[1..], -n)
  {
    DecimalReads(if n < 0 then -n else n);
    if n < 0 {
      assert IntText(n)[1..] == Decimal(-n);
    }
  }

  lemma PrefixedFits(prefix: string, n: int)
    requires |prefix| <= 100 && NulFree(prefix) && -INT_MAX - 1 <= n <= INT_MAX
    ensures BoundedText(prefix + IntText(n), MAX_FAILURE_REASON_BYTES)
  {
    IntTextFits(n);
  }

  lemma UnavailableFits()
    ensures BoundedText(STATUS_UNAVAILABLE, MAX_FAILURE_REASON_BYTES)
  {
  }

  lemma VerdictFits(cancelling: bool, event: ExitEvent)
    requires StatusFits(event.status)
    ensures var verdict := Verdict(cancelling, event);
      && verdict.0 == (if cancelling then JobState.Cancelled
                       else if event.verified && event.status.reason.Exited? && event.status.exitCode == 0 then
                         JobState.Finished
                       else JobState.Failed)
      && (verdict.1.Some? ==> BoundedText(verdict.1.value, MAX_FAILURE_REASON_BYTES))
  {
    PrefixedFits("exited with code ", event.status.exitCode);
    PrefixedFits("terminated by signal ", event.status.signal);
    UnavailableFits();
  }

  /** A terminal execution record is valid exactly when it does not end before it started. */
  lemma TerminalExecution(record: StoredJob, update: StoredJob, now: Time)
    requires ValidExecution(record) && Leaseable(record.state)
    requires IsTerminal(update.state) && update.spec == record.spec
    requires update.execution ==
      record.execution.(endTime := Some(now), failureReason := update.execution.failureReason,
                                                   exit := update.execution.exit)
    ensures ValidExecution(update) <==>
      && (record.execution.startTime.Some? ==> record.execution.startTime.value <= now)
      && (update.execution.failureReason.Some? ==>
            BoundedText(update.execution.failureReason.value, MAX_FAILURE_REASON_BYTES))
  {
  }

  lemma ReleasedMatrix(jobs: Jobs, leases: Leases, update: StoredJob, gpu: Uuid)
    requires LeaseMatrix(jobs, leases) && gpu in leases && leases[gpu] == update.id && IsTerminal(update.state)
    ensures LeaseMatrix(jobs[update.id := update], leases - {gpu})
  {
    var after, kept := jobs[update.id := update], leases - {gpu};
    forall id | id in after && Leaseable(after[id].state) ensures id in kept.Values {
      assert id in leases.Values;
      var u :| u in leases && leases[u] == id;
      assert kept[u] == id;
    }
  }

  lemma OneRelease(leases: Leases, gpu: Uuid)
    requires gpu in leases && ValidUuid(gpu)
    ensures ReleaseLeases(leases, [gpu]) == Ok(leases - {gpu})
  {
    assert [gpu][1..] == [];
  }

  /** One terminal update that releases the job's own lease: accepted exactly when its execution record
      is valid and a store revision is left. */
  lemma TerminalChange(s: StoreState, config: StoreConfig, update: StoredJob, gpu: Uuid)
    requires Consistent(s) && update.id in s.jobs && gpu in s.leases && s.leases[gpu] == update.id
    requires update.spec == s.jobs[update.id].spec && update.revision == s.jobs[update.id].revision + 1
    requires s.jobs[update.id].revision < U64_MAX && s.revision != U64_MAX
    requires CanTransition(s.jobs[update.id].state, update.state) && IsTerminal(update.state)
    ensures ApplyMutation(s, config, ChangeMutation(s.revision, Change(update, [gpu]))) ==
      if ValidExecution(update) then Ok(StoreState(s.jobs[update.id := update], s.leases - {gpu}, s.revision + 1))
      else Err(InvalidExecutionRecord)
  {
    assert ConsistentRecord(update.id, s.jobs[update.id]);
    assert UpdateJob(s.jobs, update) ==
      if ValidExecution(update) then Ok(s.jobs[update.id := update]) else Err(InvalidExecutionRecord);
    OneUpdate(s.jobs, update);
    OneRelease(s.leases, gpu);
    ReleasedMatrix(s.jobs, s.leases, update, gpu);
  }

  predicate Succeeded(event: ExitEvent) {
    event.verified && event.status.reason == Exited && event.status.exitCode == 0
  }

  /** The reason recorded for an exit: none for a cancelled or a successful job, else what the process did. */
  predicate ReasonFor(cancelling: bool, event: ExitEvent, reason: Option<string>) {
    && (reason == None <==> cancelling || Succeeded(event))
    && (!cancelling && !event.verified ==>
          reason == Some("exit status unavailable " + "(identity verification failed " + "or adopted process)"))
    && (!cancelling && event.verified && !Succeeded(event) ==>
          if event.status.reason == Exited then reason == Some("exited with code " + IntText(event.status.exitCode))
          else reason == Some("terminated by signal " + IntText(event.status.signal)))
  }

  /** The record of a job whose process has ended, field by field. */
  predicate Ended(before: StoredJob, after: StoredJob, cancelling: bool, event: ExitEvent, now: Time) {
    && after.id == before.id && after.spec == before.spec && after.revision == before.revision + 1
    && after.state == (if cancelling then JobState.Cancelled
                       else if Succeeded(event) then JobState.Finished else JobState.Failed)
    && after.execution.identity == before.execution.identity
    && after.execution.startTime == before.execution.startTime && after.execution.logPath == before.execution.logPath
    && after.execution.endTime == Some(now)
    && after.execution.exit == (if event.verified then Some(event.status) else before.execution.exit)
    && ReasonFor(cancelling, event, after.execution.failureReason)
  }

  predicate ExitWritten(s: StoreState, t: StoreState, id: JobId, v: Supervised, event: ExitEvent, now: Time)
    requires id in s.jobs
  {
    && id in t.jobs && Ended(s.jobs[id], t.jobs[id], v.cancelling, event, now)
    && t == StoreState(s.jobs[id := t.jobs[id]], s.leases - {v.gpu}, s.revision + 1)
  }

  lemma ExitEnds(record: StoredJob, v: Supervised, event: ExitEvent, now: Time)
    requires !IsTerminal(record.state)
    ensures Ended(record, ToExited(record, v, event, now).update, v.cancelling, event, now)
  {
  }

  lemma ExitChange(record: StoredJob, v: Supervised, event: ExitEvent, now: Time)
    requires ValidExecution(record) && StatusFits(event.status)
    requires record.state == if v.cancelling then JobState.Stopping else JobState.Running
    ensures var change := ToExited(record, v, event, now);
      && change.releases == [v.gpu] && change.update.id == record.id && change.update.spec == record.spec
      && change.update.revision == record.revision + 1
      && change.update.state == Verdict(v.cancelling, event).0
      && CanTransition(record.state, change.update.state) && IsTerminal(change.update.state)
      && (ValidExecution(change.update) <==>
          (record.execution.startTime.Some? ==> record.execution.startTime.value <= now))
  {
    VerdictFits(v.cancelling, event);
    TerminalExecution(record, ToExited(record, v, event, now).update, now);
  }

  /** The outcome of the terminal write. */
  predicate ExitOutcome(s: StoreState, id: JobId, v: Supervised, event: ExitEvent, now: Time, written: Written)
    requires id in s.jobs
  {
    var start := s.jobs[id].execution.startTime;
    && written.alive
    && (written.code.None? <==> (start.Some? ==> start.value <= now))
    && (written.code.None? ==> ExitWritten(s, written.store, id, v, event, now))
    && (written.code.Some? ==> written.code.value.InvalidExecutionRecord? && written.store == s)
  }

  lemma ExitApplied(config: StoreConfig, s: StoreState, id: JobId, v: Supervised, event: ExitEvent, now: Time,
                    update: StoredJob)
    requires Consistent(s) && s.revision != U64_MAX && id in s.jobs && s.jobs[id].revision < U64_MAX
    requires v.gpu in s.leases && s.leases[v.gpu] == id && update.id == id
    requires Ended(s.jobs[id], update, v.cancelling, event, now)
    requires CanTransition(s.jobs[id].state, update.state) && IsTerminal(update.state)
    requires ValidExecution(update) <==>
      (s.jobs[id].execution.startTime.Some? ==> s.jobs[id].execution.startTime.value <= now)
    ensures ExitOutcome(s, id, v, event, now,
                        Write(s, config, ChangeMutation(s.revision, Change(update, [v.gpu])), Answered))
  {
    TerminalChange(s, config, update, v.gpu);
  }

  lemma RewriteExit(config: StoreConfig, s: StoreState, id: JobId, v: Supervised, event: ExitEvent, now: Time)
    requires Consistent(s) && RevisionsFit(s.jobs) && s.revision != U64_MAX
    requires Guarded(s, id, v) && !v.exited && StatusFits(event.status)
    ensures ExitOutcome(s, id, v, event, now,
                        Rewrite(s, config, id, record => ToExited(record, v, event, now), RewriteEnv(true, Answered)))
  {
    var record := s.jobs[id];
    assert ConsistentRecord(id, record) && RevisionFits(record.state, record.revision);
    ExitChange(record, v, event, now);
    ExitEnds(record, v, event, now);
    ExitApplied(config, s, id, v, event, now, ToExited(record, v, event, now).update);
  }

  /** Whenever a registered process exits, its job can legally be ended: with an answering backend and a
      revision left, the write is accepted exactly when the clock is not before the recorded start. It
      then ends the job, releases the job's lease and touches nothing else. */
  lemma ExitAccepted(config: StoreConfig, w: World, event: ExitEvent, now: Time)
    requires WorldSafe(w) && event.pid in w.byPid && StatusFits(event.status) && w.store.revision != U64_MAX
    ensures w.byPid[event.pid] in w.supervised && w.byPid[event.pid] in w.store.jobs
    ensures var id := w.byPid[event.pid];
      var v := w.supervised[id];
      ExitOutcome(w.store, id, v, event, now,
                  Rewrite(w.store, config, id, record => ToExited(record, v, event, now), RewriteEnv(true, Answered)))
  {
    var id := w.byPid[event.pid];
    assert Guarded(w.store, id, w.supervised[id]);
    RewriteExit(config, w.store, id, w.supervised[id], event, now);
  }
}
