/** What holds over every run of the bulk-job protocol, from acceptance on. */
module JobHistory {
  import opened Text
  import opened Verdicts
  import opened BulkQueue
  import opened JobState
  import opened JobRows
  import opened JobInvariant
  import opened JobSteps

  datatype Submission = Submission(emails: seq<string>, credits: nat, active: nat, maxEmails: nat, maxActive: nat)

  function Submit(s: Submission): Accepted {
    Accept(s.emails, s.credits, s.active, s.maxEmails, s.maxActive)
  }

  ghost predicate RunsTo(s: Submission, evs: seq<Event>, st: State) {
    Submit(s).Created? && LegalRun(Submit(s).state, evs) && Run(Submit(s).state, evs) == st
  }

  /** Some accepted submission can get to this state. */
  ghost predicate Reachable(st: State) {
    exists s, evs :: RunsTo(s, evs, st)
  }

  /** Reachable and not deleted. */
  ghost predicate Reached(st: State) {
    Reachable(st) && !st.deleted
  }

  lemma ReachableInv(st: State)
    requires Reachable(st)
    ensures Inv(st)
  {
    hide Inv, Accept;
    var s, evs :| RunsTo(s, evs, st);
    AcceptedInv(s.emails, s.credits, s.active, s.maxEmails, s.maxActive);
    RunInv(Submit(s).state, evs);
  }

  lemma {:induction false} RunSnoc(st: State, evs: seq<Event>, ev: Event)
    requires LegalRun(st, evs) && Legal(Run(st, evs), ev)
    ensures LegalRun(st, evs + [ev]) && Run(st, evs + [ev]) == Step(Run(st, evs), ev)
    decreases |evs|
  {
    hide Legal, Step;
    if evs == [] {
      assert LegalRun(Step(st, ev), []);
      assert ([] + [ev])[1..] == [];
    } else {
      RunSnoc(Step(st, evs[0]), evs[1..], ev);
      assert (evs + [ev])[1..] == evs[1..] + [ev];
    }
  }

  /** Reachable states are closed under legal steps. */
  lemma ReachStep(st: State, ev: Event)
    requires Reachable(st) && Legal(st, ev)
    ensures Reachable(Step(st, ev))
  {
    hide Legal, Step, LegalRun, Run, Accept;
    var s, evs :| RunsTo(s, evs, st);
    RunSnoc(Submit(s).state, evs, ev);
    assert RunsTo(s, evs + [ev], Step(st, ev));
  }

  // ---------------------------------------------------------------- counters and progress

  /** Incremental counters agree with a recount of the rows, whatever happened. */
  lemma CountersAgree(st: State)
    requires Reached(st)
    ensures st.job.processed == st.job.invalidSyntax + |st.rows|
    ensures st.job.tally.deliverable == CountIf(Deliverable, st.rows)
    ensures st.job.tally.undeliverable == CountIf(Undeliverable, st.rows) + st.job.invalidSyntax
    ensures st.job.tally.risky == CountIf(Risky, st.rows)
    ensures st.job.tally.catchAll == CountIf(CatchAllColumn, st.rows)
    ensures st.job.tally.disposable == CountIf(DisposableColumn, st.rows)
    ensures st.job.tally.role == CountIf(Role, st.rows)
    ensures DistinctEmails(st.rows) && Rowed(st) <= Wanted(st)
    ensures st.job.processed <= st.job.total
  {
    hide CountIf, Queue, Emails, Summary;
    ReachableInv(st);
    FullRows(st);
    WantedCount(st);
  }

  lemma TasksFinished(st: State)
    requires Inv(st) && !st.deleted && st.job.status == Completed
    ensures forall id | id in st.tasks :: st.tasks[id].status == Done
  {
    hide Queue, Emails, Summary, Recount;
    forall id | id in st.tasks ensures st.tasks[id].status == Done {
      assert TaskAgrees(st.tasks[id], Rowed(st));
    }
  }

  /** Job and task completion agree: a task's pushed_count is the number of rows of its chunk, the task is completed
      exactly when all of them are there, and the job is completed exactly when all its tasks are. */
  lemma CompletionAgrees(st: State)
    requires Reached(st) && st.job.status != Failed
    ensures forall id | id in st.tasks ::
              && st.tasks[id].pushed == |st.tasks[id].emails * Rowed(st)|
              && (st.tasks[id].status == Done <==> st.tasks[id].emails <= Rowed(st))
              && st.tasks[id].status in {Queued, Running, Done}
    ensures st.tasks != map[] ==>
              (st.job.status == Completed <==> forall id | id in st.tasks :: st.tasks[id].status == Done)
    ensures st.job.status == Completed <==> st.job.processed >= st.job.total
  {
    hide Queue, Emails, Summary, Recount;
    ReachableInv(st);
    FullRows(st);
    WantedCount(st);
    forall id | id in st.tasks ensures TaskAgrees(st.tasks[id], Rowed(st)) {
    }
    if st.job.status == Completed {
      TasksFinished(st);
    } else if st.tasks != map[] && forall id | id in st.tasks :: st.tasks[id].status == Done {
      AllDone(st);
    }
  }

  // ---------------------------------------------------------------- completed is terminal

  /** Nothing but deletion touches a completed job, and nothing at all its ledger. */
  lemma CompletedStep(st: State, ev: Event)
    requires Inv(st) && Legal(st, ev) && st.job.status == Completed && (ev == SubmitFails ==> Wanted(st) != {})
    ensures var st' := Step(st, ev);
            && st'.job == st.job && st'.ledger == st.ledger && st'.source == st.source
            && (st'.deleted || (st'.rows == st.rows && st'.tasks == st.tasks))
  {
    hide Inv, Queue, Emails, Refund, FailSend, FailWrite, WriteHits, Send, Reclaim, Reconcile, RiskyRefund, Wanted,
         BatchOf, Launch, Remaining, Recount;
    match ev
    case SubmitFails => NotSubmitting(st);
    case SendEv => SendKeeps(st);
    case SendFails => StillToSend(st);
    case WriteEv => NothingLeftToWrite(st);
    case WriteFails => StillToWrite(st);
    case ReclaimEv(servers, watchdog) => ReclaimKeeps(st, servers, watchdog);
    case RiskyCheck => RiskyCheckIdentity(st);
    case ReconcileEv => ReconcileIdentityIff(st);
    case _ =>
  }

  lemma NotSubmitting(st: State)
    requires Inv(st) && !st.deleted && st.job.status == Completed && st.rows == []
    ensures Wanted(st) == {}
  {
    hide Queue, Summary, Recount;
    EmptyRows();
  }

  lemma SendKeeps(st: State)
    requires st.flight.Some? && st.flight.value.toSend != []
    ensures var st' := Send(st); st' == st.(sent := st'.sent, flight := st'.flight)
  {
  }

  lemma StillToSend(st: State)
    requires Inv(st) && Legal(st, SendFails)
    ensures st.job.status != Completed
  {
    hide Inv;
    assert st.flight.value.toSend[0] in st.flight.value.toSend;
    UnfinishedFlight(st);
  }

  lemma StillToWrite(st: State)
    requires Inv(st) && Legal(st, WriteFails)
    ensures st.job.status != Completed
  {
    hide Inv;
    assert st.flight.value.toWrite[0] in st.flight.value.toWrite;
    UnfinishedFlight(st);
  }

  lemma NothingLeftToWrite(st: State)
    requires Inv(st) && st.flight.Some? && st.flight.value.toSend == [] && st.flight.value.toWrite != [] && st.job.status == Completed
    ensures var st' := WriteHits(st);
            st' == st.(flight := st'.flight)
  {
    hide Inv;
    assert st.flight.value.toWrite[0] in st.flight.value.toWrite;
    if st.flight.value.toWrite[0].hits != [] {
      UnfinishedFlight(st);
    } else {
      NothingToWrite(st);
    }
  }

  lemma ReclaimKeeps(st: State, servers: set<string>, watchdog: bool)
    requires Inv(st) && st.job.status == Completed
    ensures Reclaim(st, servers, watchdog) == st
  {
    hide Inv;
    if st.deleted {
      NothingToReclaim(st, servers);
    } else {
      TasksFinished(st);
      assert Reclaimed(st.tasks, servers) == st.tasks;
    }
  }

  lemma {:induction false} CompletedIsFinal(st: State, evs: seq<Event>)
    requires GoodRun(st, evs) && st.job.status == Completed && Wanted(st) != {}
    ensures var end := Run(st, evs);
            && end.job == st.job && end.ledger == st.ledger
            && (end.deleted || (end.rows == st.rows && end.tasks == st.tasks))
    decreases |evs|
  {
    hide Inv, Legal, Step;
    if evs != [] {
      StepInv(st, evs[0]);
      CompletedStep(st, evs[0]);
      CompletedIsFinal(Step(st, evs[0]), evs[1..]);
      DeletedStays(Step(st, evs[0]), evs[1..]);
    }
  }

  lemma DeletedStep(st: State, ev: Event)
    requires Inv(st) && Legal(st, ev) && st.deleted
    ensures var st' := Step(st, ev); st' == st.(credits := st'.credits)
  {
    hide Queue, Emails, Summary, Normalize, SourceOk, Requeue, Prepare, Launch, Refund, Reclaimed, RiskyRefund,
         Remaining, Reconcile;
    match ev
    case ReclaimEv(servers, watchdog) => NothingToReclaim(st, servers);
    case PrepareEv(b) => assert Prepare(st, b) == st by { SkipPrepare(st, b); }
    case ResumeEv(b) => assert Requeue(st, false, b) == st by { SkipRequeue(st, false, b); }
    case RetryEv(b) => assert Requeue(st, true, b) == st by { SkipRequeue(st, true, b); }
    case RiskyCheck => RiskyCheckIdentity(st);
    case ReconcileEv => ReconcileIdentityIff(st);
    case _ =>
  }

  lemma SkipPrepare(st: State, b: Batch)
    requires st.deleted && Tiles(b.chunks, |b.ordered|)
    ensures Prepare(st, b) == st
  {
  }

  lemma SkipRequeue(st: State, charge: bool, b: Batch)
    requires st.deleted && Tiles(b.chunks, |b.ordered|)
    ensures Requeue(st, charge, b) == st
  {
  }

  /** A deleted job never comes back. */
  lemma {:induction false} DeletedStays(st: State, evs: seq<Event>)
    requires GoodRun(st, evs)
    ensures st.deleted ==> Run(st, evs) == st.(credits := Run(st, evs).credits)
    decreases |evs|
  {
    hide Inv, Legal, Step;
    if evs != [] && st.deleted {
      StepInv(st, evs[0]);
      DeletedStep(st, evs[0]);
      DeletedStays(Step(st, evs[0]), evs[1..]);
    }
  }

  // ---------------------------------------------------------------- the remaining list

  /** A paused job always has addresses left: the remaining list is exactly the queued addresses without a row,
      each once, and requeueing recomputes the processed_count that is already stored. */
  lemma PausedListNeverEmpty(st: State)
    requires Reached(st) && st.job.status == Paused
    ensures Remaining(st.source, st.rows) != []
    ensures Elements(Remaining(st.source, st.rows)) == Wanted(st) - Rowed(st) && NoDup(Remaining(st.source, st.rows))
    ensures |st.rows| + st.job.invalidSyntax == st.job.processed < st.job.total
  {
    hide Inv, Queue, Emails, Remaining;
    ReachableInv(st);
    RemainingNeverEmpty(st);
  }

  // ---------------------------------------------------------------- stale reports

  /** The task has been replaced, completed or given up. */
  predicate Stale(st: State, id: TaskId) {
    id < st.nextId && (id in st.tasks ==> st.tasks[id].status in {Done, Broken})
  }

  /** A report for a stale task, or to a finished or deleted job, changes nothing. */
  lemma InertReport(st: State, id: TaskId, server: string, results: seq<Row>)
    ensures Stale(st, id) || st.deleted || st.job.status in {Failed, Cancelled, Completed} ==> Report(st, id, server, results) == st
  {
  }

  lemma StaleStep(st: State, ev: Event, id: TaskId)
    requires Inv(st) && Legal(st, ev) && Stale(st, id)
    ensures Stale(Step(st, ev), id)
  {
    hide Inv, Queue, Emails, Refund, WriteHits, Reclaim, Reconcile, RiskyRefund, BatchOf, Launch, Remaining, Recount,
         Report, Requeue, Rollback, Prepare;
    match ev
    case SubmitFails => BrokenStale(st, |Queue(st.source)|, id);
    case PrepareEv(b) => PrepareStale(st, b, id);
    case PrepareFails => BrokenStale(st, MaxInt(st.job.total - st.job.invalidSyntax, 0), id);
    case SendFails => BrokenStale(st.(flight := None), st.flight.value.queued, id);
    case WriteEv => WriteStale(st, id);
    case WriteFails => RollbackStale(st.(flight := None), st.flight.value.written, st.flight.value.queued, id);
    case ReportEv(k, server, results) => ReportStale(st, k, server, results, id);
    case ReclaimEv(servers, watchdog) => ReclaimStale(st, servers, watchdog, id);
    case ResumeEv(b) => RequeueStale(st, false, b, id);
    case RetryEv(b) => RequeueStale(st, true, b, id);
    case RiskyCheck => RiskyCheckIdentity(st);
    case ReconcileEv => ReconcileIdentityIff(st);
    case _ =>
  }

  lemma BrokenStale(st: State, credits: nat, id: TaskId)
    requires Stale(st, id)
    ensures Stale(Refund(st, credits), id)
  {
  }

  lemma RollbackStale(st: State, written: seq<Email>, credits: nat, id: TaskId)
    requires Stale(st, id)
    ensures Stale(Rollback(st, written, credits), id)
  {
    hide Without, Recount;
  }

  lemma LaunchStale(st: State, b: Batch, refund: bool, id: TaskId)
    requires id < st.nextId && Tiles(b.chunks, |b.ordered|)
    ensures id !in Launch(st, b, refund).tasks && Stale(Launch(st, b, refund), id)
  {
    hide Plans, NewTasks;
    LaunchIds(st, b, refund);
  }

  lemma PrepareStale(st: State, b: Batch, id: TaskId)
    requires Stale(st, id) && BatchOf(b, Queue(st.source))
    ensures Stale(Prepare(st, b), id)
  {
    hide Launch, Queue;
    LaunchStale(st, b, true, id);
  }

  lemma RequeueFrom(st: State, charge: bool, b: Batch) returns (from: State)
    requires Tiles(b.chunks, |b.ordered|) && Requeue(st, charge, b) != st && Remaining(st.source, st.rows) != []
    ensures from.nextId == st.nextId && Requeue(st, charge, b) == Launch(from, b, charge)
  {
    hide Launch, Queue, Remaining;
    var remaining := Remaining(st.source, st.rows);
    var counted := |st.rows| + st.job.invalidSyntax;
    var paid := if charge then st.(credits := st.credits - |remaining|, ledger := st.ledger + [Charge(|remaining|)]) else st;
    from := paid.(job := st.job.(status := Pending, processed := if counted > st.job.total then st.job.total else counted));
  }

  lemma RequeueStale(st: State, charge: bool, b: Batch, id: TaskId)
    requires Stale(st, id) && BatchOf(b, Remaining(st.source, st.rows))
    ensures Stale(Requeue(st, charge, b), id)
  {
    hide Launch, Queue, Remaining;
    if Requeue(st, charge, b) != st && Remaining(st.source, st.rows) != [] {
      var from := RequeueFrom(st, charge, b);
      LaunchStale(from, b, charge, id);
    }
  }

  lemma WriteStale(st: State, id: TaskId)
    requires Inv(st) && Stale(st, id)
    requires st.flight.Some? && st.flight.value.toSend == [] && st.flight.value.toWrite != []
    ensures Stale(WriteHits(st), id)
  {
    hide Inv, WriteHits, Stale, ToWriteOk;
    NotFailedInFlight(st);
    NextToWrite(st);
    var p := st.flight.value.toWrite[0];
    if p.hits == [] {
      NothingToWrite(st);
      SameStale(st, WriteHits(st), id);
    } else {
      UnfinishedTask(st, p);
      WriteOthers(st, id);
      SameStale(st, WriteHits(st), id);
    }
  }

  lemma SameStale(st: State, st': State, id: TaskId)
    requires st'.nextId == st.nextId && st'.tasks.Keys == st.tasks.Keys
    requires Stale(st, id) && id in st.tasks ==> st'.tasks[id] == st.tasks[id]
    ensures Stale(st, id) ==> Stale(st', id)
  {
  }

  /** A write of cached answers touches one unfinished task. */
  lemma WriteOthers(st: State, id: TaskId)
    requires !st.deleted && st.flight.Some? && st.flight.value.toWrite != []
    requires var p := st.flight.value.toWrite[0]; p.task in st.tasks && p.hits != [] && st.tasks[p.task].status in {Queued, Running}
    ensures var st' := WriteHits(st);
            && st'.nextId == st.nextId
            && st'.tasks.Keys == st.tasks.Keys
            && (Stale(st, id) && id in st.tasks ==> st'.tasks[id] == st.tasks[id])
  {
    hide Emails, RiskyRefund, Advance, RowAddresses, Push;
    var p := st.flight.value.toWrite[0];
    WriteHitsShape(st);
    RiskyRefundFrame(Absorb(Dropped1(st), p.task, Push(st.tasks[p.task], |p.hits|), p.hits));
  }

  lemma UnfinishedTask(st: State, p: Plan)
    requires Inv(st) && !st.deleted && ToWriteOk(st, p) && p.hits != [] && st.flight.Some?
    ensures p.task in st.tasks && st.tasks[p.task].status in {Queued, Running}
  {
    hide Queue, Emails, Summary, Recount;
    HasAddress(p.hits);
    assert TaskAgrees(st.tasks[p.task], Rowed(st));
  }

  lemma ReportStale(st: State, k: TaskId, server: string, results: seq<Row>, id: TaskId)
    requires Stale(st, id)
    ensures Stale(Report(st, k, server, results), id)
  {
    hide Fresh, Emails, Advance;
  }

  lemma ReclaimStale(st: State, servers: set<string>, watchdog: bool, id: TaskId)
    requires Stale(st, id)
    ensures Stale(Reclaim(st, servers, watchdog), id)
  {
  }

  /** Once a task is replaced, finished or broken, every later report for it is inert. */
  lemma {:induction false} StaleForever(st: State, evs: seq<Event>, id: TaskId, server: string, results: seq<Row>)
    requires GoodRun(st, evs) && Stale(st, id)
    ensures Stale(Run(st, evs), id)
    ensures Report(Run(st, evs), id, server, results) == Run(st, evs)
    decreases |evs|
  {
    hide Inv, Legal, Step, Stale, Report;
    if evs != [] {
      StepInv(st, evs[0]);
      StaleStep(st, evs[0], id);
      StaleForever(Step(st, evs[0]), evs[1..], id, server, results);
    } else {
      InertReport(st, id, server, results);
    }
  }

  /** A good run that begins with a prepare attempt, a resume or a retry that starts an enqueue. */
  ghost predicate Relaunched(st: State, ev: Event, evs: seq<Event>) {
    GoodRun(st, [ev] + evs) && (ev.PrepareEv? || ev.ResumeEv? || ev.RetryEv?) && Legal(st, ev) && Step(st, ev).flight.Some?
  }

  /** A new prepare attempt, a resume or a retry that starts makes every report for an earlier task inert for good. */
  lemma ReplacedTasksInert(st: State, ev: Event, evs: seq<Event>, id: TaskId, server: string, results: seq<Row>)
    requires Relaunched(st, ev, evs) && id < st.nextId
    ensures Report(Run(st, [ev] + evs), id, server, results) == Run(st, [ev] + evs)
  {
    hide Inv, Launch, Queue, Remaining, Report, Stale, Emails;
    assert ([ev] + evs)[0] == ev && ([ev] + evs)[1..] == evs;
    StepInv(st, ev);
    ReplacedStale(st, ev, id);
    StaleForever(Step(st, ev), evs, id, server, results);
  }

  lemma ReplacedStale(st: State, ev: Event, id: TaskId)
    requires Legal(st, ev) && id < st.nextId && (ev.PrepareEv? || ev.ResumeEv? || ev.RetryEv?) && Step(st, ev).flight.Some?
    ensures Stale(Step(st, ev), id)
  {
    hide Launch, Queue, Remaining, Report, Stale, Emails;
    if ev.PrepareEv? {
      LaunchStale(st, ev.batch, true, id);
    } else {
      var from := RequeueFrom(st, ev.RetryEv?, ev.batch);
      LaunchStale(from, ev.batch, ev.RetryEv?, id);
    }
  }

  // ---------------------------------------------------------------- reclaiming dead workers' tasks

  /** After a reclaim none of the dead servers holds a running task; every such task is back in the queue with its
      progress kept, nothing else moves, and a processing job that lost a task is pending again. */
  lemma ReclaimReleases(st: State, servers: set<string>, watchdog: bool)
    ensures var st' := Reclaim(st, servers, watchdog);
            && st'.tasks.Keys == st.tasks.Keys
            && (forall id | id in st.tasks ::
                  var lost := st.tasks[id].status == Running && st.tasks[id].worker in servers;
                  && !(st'.tasks[id].status == Running && st'.tasks[id].worker in servers)
                  && st'.tasks[id] == (if lost then st.tasks[id].(status := Queued, worker := "") else st.tasks[id]))
            && (st'.job != st.job <==> watchdog && !st.deleted && st.job.status == Processing && st'.tasks != st.tasks)
            && (st'.job != st.job ==> st'.job.status == Pending)
  {
    var st' := Reclaim(st, servers, watchdog);
    if id :| id in st.tasks && st.tasks[id].status == Running && st.tasks[id].worker in servers {
      assert st'.tasks[id] != st.tasks[id];
    } else {
      assert st'.tasks == st.tasks;
    }
  }

  // ---------------------------------------------------------------- paused jobs

  /** Whatever still arrives, a paused job stays paused until its last answer is in, or its enqueue fails with a refund. */
  lemma PausedSticks(st: State, ev: Event)
    requires Inv(st) && Legal(st, ev) && !st.deleted && st.job.status == Paused && !ev.ResumeEv? && !ev.DeleteEv?
    ensures var st' := Step(st, ev);
            && st'.job.status in {Paused, Completed, Failed}
            && (st'.job.status == Completed <==> st'.job.processed >= st'.job.total)
            && (st'.job.status == Failed ==> ev.SubmitFails? || ((ev.SendFails? || ev.WriteFails?) && st.flight.value.refundOnFailure))
  {
    hide Inv, Queue, Emails, RiskyRefund, Refund, Reclaim, Reconcile, BatchOf, Launch, Remaining, Recount, Fresh;
    PausedUnfinished(st);
    match ev
    case SubmitFails => RefundKeepsCounts(st, |Queue(st.source)|);
    case SendFails => RefundKeepsCounts(st.(flight := None), st.flight.value.queued);
    case WriteEv => PausedWrite(st);
    case WriteFails => PausedWriteFails(st);
    case ReportEv(id, server, results) => PausedReport(st, id, server, results);
    case ReclaimEv(servers, watchdog) => ReclaimReleases(st, servers, watchdog);
    case RiskyCheck => RiskyCheckIdentity(st);
    case ReconcileEv => ReconcileIdentityIff(st);
    case _ =>
  }

  lemma PausedUnfinished(st: State)
    requires Inv(st) && !st.deleted && st.job.status == Paused
    ensures st.job.processed < st.job.total
  {
    hide Queue, Emails, Recount, Summary, Normalize;
    WantedCount(st);
  }

  lemma RefundKeepsCounts(st: State, credits: nat)
    requires !st.deleted
    ensures Refund(st, credits).job == st.job.(status := Failed)
  {
  }

  lemma PausedWrite(st: State)
    requires Inv(st) && st.flight.Some? && st.flight.value.toSend == [] && st.flight.value.toWrite != []
    requires st.job.status == Paused && st.job.processed < st.job.total
    ensures var job := WriteHits(st).job;
            job.status in {Paused, Completed} && (job.status == Completed <==> job.processed >= job.total)
  {
    hide Inv, Emails, Recount, RowAddresses, RiskyRefund;
    NotFailedInFlight(st);
    NextToWrite(st);
    var p := st.flight.value.toWrite[0];
    if p.hits == [] {
      NothingToWrite(st);
    } else {
      WriteHitsShape(st);
      RiskyRefundFrame(Absorb(Dropped1(st), p.task, Push(st.tasks[p.task], |p.hits|), p.hits));
    }
  }

  lemma PausedReport(st: State, id: TaskId, server: string, results: seq<Row>)
    requires !st.deleted && st.job.status == Paused && st.job.processed < st.job.total
    ensures var job := Report(st, id, server, results).job;
            job.status in {Paused, Completed} && (job.status == Completed <==> job.processed >= job.total)
  {
    hide Emails, Recount, Fresh;
  }

  lemma RollbackCounts(st: State, written: seq<Email>, credits: nat)
    requires !st.deleted
    ensures var job := Rollback(st, written, credits).job;
            && job.status == Failed && job.total == st.job.total
            && job.processed == |Without(st.rows, Elements(written))| + st.job.invalidSyntax
  {
    hide Without, Recount;
  }

  lemma PausedWriteFails(st: State)
    requires Inv(st) && Legal(st, WriteFails) && !st.deleted && st.job.status == Paused && st.job.processed < st.job.total
    ensures var job := FailWrite(st).job;
            && job.status == (if st.flight.value.refundOnFailure then Failed else Paused)
            && job.processed < job.total
  {
    hide Inv, Without, Rollback;
    var f := st.flight.value;
    WithoutShorter(st.rows, Elements(f.written));
    RollbackCounts(st.(flight := None), f.written, f.queued);
    CountedRows(st);
  }

  lemma CountedRows(st: State)
    requires Inv(st) && !st.deleted
    ensures st.job.processed == |st.rows| + st.job.invalidSyntax
  {
    hide Queue, Emails, Recount, Summary, Normalize;
  }
}
