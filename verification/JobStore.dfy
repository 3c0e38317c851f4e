/** The services as they run: database rows updated in place. Each method's new state is a step of the protocol. */
module JobStore {
  import opened Text
  import opened Mailbox
  import opened Verdicts
  import opened BulkQueue
  import opened DomainIntel
  import opened JobState
  import opened JobRows
  import opened Payloads
  import opened JobAnswers
  import opened JobEffects

  datatype ReportError = MissingTask | NoResults | ServerRequired | ServerDisabled

  /** A job row with its task and result rows, the enqueue in progress, and its owner's account. */
  class Store {
    var source: seq<Email>
    var status: JobStatus
    var totalEmails: nat
    var invalidSyntax: nat
    var processedCount: nat
    var counters: Tally              // the six count columns
    var deleted: bool
    var tasks: map<TaskId, Task>
    var nextId: TaskId
    var rows: seq<Row>
    var sent: map<TaskId, set<Email>>
    var flight: Option<Flight>
    var credits: int
    var ledger: seq<Entry>

    ghost function JobRow(): Job
      reads this`status, this`totalEmails, this`invalidSyntax, this`processedCount, this`counters
    {
      Job(status, totalEmails, invalidSyntax, processedCount, counters)
    }

    ghost function Abs(): State
      reads this
    {
      State(source, JobRow(), deleted, tasks, nextId, rows, sent, flight, credits, ledger)
    }

    // ---------------------------------------------------------------- accepting

    /** CreateBulkJob, once the limits and the balance allow it. */
    constructor CreateBulkJob(uniqueEmails: seq<Email>, invalid: nat, queuedCount: nat, balance: nat)
      ensures Abs() == State(uniqueEmails,
                             Job(if queuedCount == 0 then Completed else Preparing, |uniqueEmails|, invalid, invalid,
                                 Tally(0, invalid, 0, 0, 0, 0)),
                             false, map[], 0, [], map[], None, balance - queuedCount, [Charge(queuedCount)])
    {
      source := uniqueEmails;
      credits := balance - queuedCount;
      ledger := [Charge(queuedCount)];
      status := if queuedCount == 0 then Completed else Preparing;
      totalEmails := |uniqueEmails|;
      invalidSyntax, processedCount := invalid, invalid;
      counters := Tally(0, invalid, 0, 0, 0, 0);
      deleted, tasks, nextId, rows, sent, flight := false, map[], 0, [], map[], None;
    }

    static method SubmitBulkJob(emails: seq<string>, balance: nat, active: nat, maxEmails: nat, maxActive: nat)
      returns (error: Option<AcceptError>, store: Store?)
      ensures error == None <==> store != null
      ensures store != null ==> fresh(store)
      ensures Accept(emails, balance, active, maxEmails, maxActive) ==
              if error.Some? then Rejected(error.value) else Created(store.Abs())
      ensures forall unique | UniqueList(emails, unique) ::
                SubmitOutcome(unique, balance, active, maxEmails, maxActive, if error.Some? then Rejected(error.value) else Created(store.Abs()))
    {
      hide Queue, Deduped, UniqueList, SubmitOutcome;
      forall unique | UniqueList(emails, unique) { SubmitMeans(emails, balance, active, maxEmails, maxActive, unique); }
      var uniqueEmails := NormalizeAndDedup(emails);
      if |uniqueEmails| == 0 {
        return Some(NoEmails), null;
      }
      if |uniqueEmails| > maxEmails {
        return Some(TooManyEmails), null;
      }
      var invalid, queueEmails := SplitBySyntax(uniqueEmails);
      if maxActive > 0 && active >= maxActive {
        return Some(TooManyJobs), null;
      }
      if balance < |queueEmails| {
        return Some(InsufficientCredits), null;
      }
      store := new Store.CreateBulkJob(uniqueEmails, invalid, |queueEmails|, balance);
      error := None;
    }

    // ---------------------------------------------------------------- refunds

    method CheckAndApplyRiskyRefund()
      modifies this
      ensures Abs() == RiskyRefund(old(Abs()))
    {
      if !deleted && status == Completed && counters.risky > 0 {
        if exists e | e in ledger :: !e.Charge? {
          return;
        }
        credits := credits + counters.risky;
        ledger := ledger + [UnknownRefund(counters.risky)];
      }
    }

    method RefundBulkJob(refundCredits: nat)
      modifies this`status, this`tasks, this`credits, this`ledger
      ensures Abs() == Refund(old(Abs()), refundCredits)
    {
      hide AllBroken;
      if !deleted {
        status := Failed;
      }
      BreakTasks();
      credits := credits + refundCredits;
      ledger := ledger + [FullRefund(refundCredits)];
    }

    method BreakTasks()
      modifies this`tasks
      ensures tasks == AllBroken(old(tasks))
    {
      tasks := map id | id in tasks :: tasks[id].(status := Broken);
    }

    method FailPreparingJob()
      modifies this
      ensures Abs() == FailPreparing(old(Abs()))
    {
      if deleted || status != Preparing {
        return;
      }
      var queued := totalEmails - invalidSyntax;
      if queued < 0 {
        queued := 0;
      }
      RefundBulkJob(queued);
    }

    // ---------------------------------------------------------------- progress

    /** The UPDATE of the job row that batch reports and cached answers share. */
    method BumpJob(ghost added: seq<Row>, count: nat, inc: Tally)
      requires count == |added| && inc == Recount(added)
      modifies this`status, this`processedCount, this`counters
      ensures JobRow() == Advance(old(JobRow()), added)
    {
      status := if processedCount + count >= totalEmails then Completed else if status == Paused then Paused else Processing;
      processedCount := processedCount + count;
      counters := Tally(counters.deliverable + inc.deliverable, counters.undeliverable + inc.undeliverable, counters.risky + inc.risky,
                        counters.catchAll + inc.catchAll, counters.disposable + inc.disposable, counters.role + inc.role);
    }

    /** The UPDATE of the task row: pushed_count is capped at the size of the chunk. */
    method BumpTask(id: TaskId, count: nat)
      modifies this`tasks
      ensures tasks == Pushed(old(tasks), id, count)
    {
      if id in tasks {
        var t := tasks[id];
        tasks := tasks[id := t.(pushed := if t.pushed + count < t.size then t.pushed + count else t.size,
                                status := if t.pushed + count >= t.size then Done else Running)];
      }
    }

    /** New rows, the job row and the task row, in one transaction. */
    method Absorb(added: seq<Row>, inc: Tally, task: TaskId)
      requires inc == Recount(added)
      modifies this`rows, this`tasks, this`status, this`processedCount, this`counters
      ensures Abs() == old(Abs()).(rows := old(rows) + added, job := Advance(old(JobRow()), added),
                                   tasks := Pushed(old(tasks), task, |added|))
    {
      hide Recount, Advance, Pushed, JobRow;
      rows := rows + added;
      BumpJob(added, |added|, inc);
      BumpTask(task, |added|);
    }

    /** processCacheHits */
    method ProcessCacheHits(plan: Plan)
      modifies this
      ensures Abs() == PersistHits(old(Abs()), plan)
    {
      hide RiskyRefund, Recount, Advance, Pushed, PersistHits;
      PersistCases(Abs(), plan);
      if |plan.hits| == 0 {
        return;
      }
      var inc := CountHits(plan.hits);
      if deleted {
        rows := rows + plan.hits;
      } else {
        Absorb(plan.hits, inc, plan.task);
        CheckAndApplyRiskyRefund();
      }
    }

    /** ReportTaskResults: an error leaves everything alone. */
    method ReportTaskResults(taskID: TaskId, rawServer: string, rawWorker: string, enabled: set<string>,
                             results: seq<Payload>, table: Table)
      returns (error: Option<ReportError>)
      modifies this
      ensures error == ReportRefused(taskID, rawServer, rawWorker, enabled, results, table)
      ensures Abs() == if error.Some? then old(Abs())
                       else Report(old(Abs()), taskID, ServerName(rawServer, rawWorker), Rows(results, table))
      ensures forall given, worker | CoreOf(rawServer, given) && CoreOf(rawWorker, worker) ::
                var server := if given != "" then given else worker;
                && ReportRefusal(error, taskID, server, enabled, results)
                && (error == None ==> ReportOutcome(old(Abs()), taskID, server, results, table, Abs()))
    {
      hide RiskyRefund, CountIf, Rows, Trim, RowFor, CoreOf, ReportOutcome, ReportRefusal;
      RefusalMeans(taskID, rawServer, rawWorker, enabled, results, table);
      forall given, worker | CoreOf(rawServer, given) && CoreOf(rawWorker, worker)
        ensures (if given != "" then given else worker) == ServerName(rawServer, rawWorker)
      {
        TrimMeans(rawServer, given);
        TrimMeans(rawWorker, worker);
      }
      ReportMeans(Abs(), taskID, ServerName(rawServer, rawWorker), results, table);
      if taskID == 0 {
        return Some(MissingTask);
      }
      if |results| == 0 {
        return Some(NoResults);
      }
      var server := Trim(rawServer);
      if server == "" {
        server := Trim(rawWorker);
      }
      if server == "" {
        return Some(ServerRequired);
      }
      if server !in enabled {
        return Some(ServerDisabled);
      }
      var clean := CleanAll(results, table);
      if |clean| == 0 {
        NoRows(results, table, clean);
        return Some(NoResults);
      }
      NoRows(results, table, clean);
      error := None;
      ReportBatch(taskID, server, clean, Rows(results, table));
    }

    /** The transaction of a batch report. */
    method ReportBatch(taskID: TaskId, server: string, clean: seq<Payload>, ghost results: seq<Row>)
      requires BuiltAll(clean) == results
      modifies this
      ensures Abs() == Report(old(Abs()), taskID, server, results)
    {
      hide RiskyRefund, Recount, Emails, Fresh, Built, BuiltAll, Advance, Push, Report, Claim;
      ghost var st := Abs();
      ReportCases(st, taskID, server, results);
      if deleted {
        return;
      }
      if status == Failed || status == Cancelled || status == Completed {
        return;
      }
      if taskID !in tasks {
        return;
      }
      if tasks[taskID].status !in {Queued, Running} {
        return;
      }
      ClaimTask(taskID, server);
      var newRows, inc := NewRows(clean, results);
      if |newRows| > 0 {
        StoreNew(newRows, inc, taskID, server);
        assert tasks == st.tasks[taskID := tasks[taskID]];
        CheckAndApplyRiskyRefund();
      }
    }

    method ClaimTask(id: TaskId, server: string)
      requires id in tasks
      modifies this`tasks
      ensures tasks == old(tasks)[id := Claim(old(tasks)[id], server)]
    {
      var task := tasks[id];
      if task.status == Queued || (task.worker != "" && task.worker != server) {
        tasks := tasks[id := task.(status := Running, worker := server)];
      }
    }

    /** The results without a stored row, looked up among the reported addresses only. */
    method NewRows(clean: seq<Payload>, ghost results: seq<Row>) returns (newRows: seq<Row>, inc: Tally)
      requires BuiltAll(clean) == results
      ensures newRows == Fresh(results, Emails(rows)) && inc == Recount(newRows)
    {
      hide Recount, Fresh, Built, BuiltAll;
      var emails := set r | r in clean :: r.email;
      var existing := set r | r in rows && r.email in emails :: r.email;
      newRows, inc := FreshRows(clean, existing);
      FreshAgainst(clean, rows, existing);
    }

    method StoreNew(newRows: seq<Row>, inc: Tally, id: TaskId, server: string)
      requires id in tasks && inc == Recount(newRows)
      modifies this
      ensures Abs() == old(Abs()).(rows := old(rows) + newRows, job := Advance(old(JobRow()), newRows),
                                   tasks := old(tasks)[id := Push(old(tasks)[id], |newRows|).(worker := server)])
    {
      hide Recount, Advance, Push;
      Absorb(newRows, inc, id);
      tasks := tasks[id := tasks[id].(worker := server)];
    }

    // ---------------------------------------------------------------- enqueue

    /** Shuffle, chunks and policies of a list that is about to be queued. */
    method PrepareBatch(list: seq<Email>, baseChunkSize: int, cache: map<Email, Row>, table: Table)
      returns (ordered: seq<Email>, chunks: seq<Chunk>, policies: map<string, string>, ghost b: Batch)
      requires OwnRows(cache)
      ensures b == Batch(ordered, chunks, cache, policies) && BatchOf(b, list) && Tiles(chunks, |ordered|)
      ensures DecidesAsTable(ordered, policies, table)
    {
      hide DecidesAsTable, Tiles;
      ordered, chunks := PrepareQueue(list, baseChunkSize);
      policies := PolicyMap(ordered, table);
      b := Batch(ordered, chunks, cache, policies);
    }

    /** PrepareBulkJob up to the enqueue. */
    method PrepareBulkJob(baseChunkSize: int, cache: map<Email, Row>, table: Table) returns (ghost b: Batch)
      requires OwnRows(cache)
      modifies this
      ensures BatchOf(b, Queue(source)) && DecidesAsTable(b.ordered, b.policies, table)
      ensures Abs() == Prepare(old(Abs()), b)
      ensures b.cache == cache && (InOrder(old(Abs())) ==> PrepareOutcome(old(Abs()), b, table, Abs()))
    {
      hide Queue, Launch, DecidesAsTable, Tiles, BatchOf, InOrder, PrepareOutcome, Prepare;
      ghost var st := Abs();
      var queueEmails := ScanSyntaxFiltered(source);
      var ordered, chunks, policies;
      ordered, chunks, policies, b := PrepareBatch(queueEmails, baseChunkSize, cache, table);
      PrepareCases(st, b);
      if InOrder(st) { PrepareMeans(st, b, table); }
      if deleted || status != Preparing {
        return;
      }
      StartEnqueue(b, ordered, chunks, cache, policies, true);
    }

    /** The tasks are replaced, every chunk is classified, and nothing is sent or written yet. */
    method StartEnqueue(ghost b: Batch, ordered: seq<Email>, chunks: seq<Chunk>, cache: map<Email, Row>,
                        policies: map<string, string>, refundOnFailure: bool)
      requires Tiles(chunks, |ordered|) && b == Batch(ordered, chunks, cache, policies)
      modifies this`tasks, this`nextId, this`flight
      ensures Abs() == Launch(old(Abs()), b, refundOnFailure)
    {
      hide Plans, NewTasks, Tiles;
      CreateTasks(ordered, chunks);
      var plans := PlanChunks(nextId - |chunks|, ordered, chunks, cache, policies);
      flight := Some(Flight(|ordered|, refundOnFailure, plans, plans, []));
    }

    /** The task rows of a list, inserted one by one. */
    method CreateTasks(ordered: seq<Email>, chunks: seq<Chunk>)
      requires Tiles(chunks, |ordered|)
      modifies this`tasks, this`nextId
      ensures tasks == NewTasks(old(nextId), ordered, chunks, |chunks|) && nextId == old(nextId) + |chunks|
    {
      hide Tiles, TaskOf;
      tasks := map[];
      for k := 0 to |chunks|
        invariant tasks == NewTasks(old(nextId), ordered, chunks, k) && nextId == old(nextId) + k
      {
        ChunkInside(chunks, |ordered|, k);
        var task := QueuedTask(ordered, chunks[k]);
        tasks := tasks[nextId := task];
        nextId := nextId + 1;
      }
    }

    /** requeueRemainingWork: `charge` for the retry of a failed job, not for resume. */
    method RequeueRemainingWork(charge: bool, baseChunkSize: int, cache: map<Email, Row>, table: Table) returns (ghost b: Batch)
      requires OwnRows(cache)
      modifies this
      ensures BatchOf(b, Remaining(old(source), old(rows))) && DecidesAsTable(b.ordered, b.policies, table)
      ensures Abs() == Requeue(old(Abs()), charge, b)
      ensures b.cache == cache && (InOrder(old(Abs())) ==> RequeueOutcome(old(Abs()), charge, b, table, Abs()))
    {
      hide Remaining, Requeue, DecidesAsTable, BatchOf, InOrder, RequeueOutcome, OwnRows;
      ghost var st := Abs();
      b := QueueRemaining(charge, baseChunkSize, cache, table);
      if InOrder(st) { RequeueMeans(st, charge, b, table); }
    }

    method QueueRemaining(charge: bool, baseChunkSize: int, cache: map<Email, Row>, table: Table) returns (ghost b: Batch)
      requires OwnRows(cache)
      modifies this
      ensures BatchOf(b, Remaining(old(source), old(rows))) && DecidesAsTable(b.ordered, b.policies, table) && b.cache == cache
      ensures Abs() == Requeue(old(Abs()), charge, b)
    {
      hide Queue, Remaining, Launch, Tiles, Requeue, DecidesAsTable, BatchOf;
      ghost var st := Abs();
      var sourceEmails := ScanSyntaxFiltered(source);
      var remaining := RemainingEmails(source, rows);
      var ordered, chunks, policies;
      ordered, chunks, policies, b := PrepareBatch(remaining, baseChunkSize, cache, table);
      RequeueCases(st, charge, b);
      if |sourceEmails| == 0 || deleted || status != (if charge then Failed else Paused) {
        return;
      }
      var processed := CappedCount();
      if |remaining| == 0 {
        status, processedCount := Completed, processed;
        return;
      }
      if charge && credits < |remaining| {
        return;
      }
      Repay(charge, |remaining|, processed);
      StartEnqueue(b, ordered, chunks, cache, policies, charge);
    }

    /** processed_count as requeueing recomputes it. */
    method CappedCount() returns (processed: nat)
      ensures processed == if |rows| + invalidSyntax > totalEmails then totalEmails else |rows| + invalidSyntax
    {
      processed := |rows| + invalidSyntax;
      if processed > totalEmails {
        processed := totalEmails;
      }
    }

    /** The optional charge of a retry, and the job row of a requeued job. */
    method Repay(charge: bool, n: nat, processed: nat)
      modifies this
      ensures Abs() == old(Abs()).(job := old(JobRow()).(status := Pending, processed := processed),
                                   credits := if charge then old(credits) - n else old(credits),
                                   ledger := if charge then old(ledger) + [Charge(n)] else old(ledger))
    {
      if charge {
        credits := credits - n;
        ledger := ledger + [Charge(n)];
      }
      status, processedCount := Pending, processed;
    }

    /** One round of the loop that queues misses. */
    method EnqueueMisses()
      requires flight.Some? && flight.value.toSend != []
      modifies this
      ensures Abs() == Send(old(Abs()))
    {
      var f := flight.value;
      var plan := f.toSend[0];
      flight := Some(f.(toSend := f.toSend[1..]));
      if |plan.misses| > 0 {
        sent := sent[plan.task := set e | e in plan.misses];
      }
    }

    method FailEnqueue()
      requires flight.Some?
      modifies this
      ensures Abs() == FailSend(old(Abs()))
    {
      var f := flight.value;
      flight := None;
      if f.refundOnFailure {
        RefundBulkJob(f.queued);
      } else if !deleted {
        status := Paused;
      }
    }

    /** One round of the loop that stores cached answers. */
    method WriteCacheHits()
      requires flight.Some? && flight.value.toWrite != []
      modifies this
      ensures Abs() == WriteHits(old(Abs()))
      ensures WriteOutcome(old(Abs()), Abs())
    {
      hide PersistHits, WriteOutcome;
      WriteMeans(Abs());
      var f := flight.value;
      var plan := f.toWrite[0];
      ProcessCacheHits(plan);
      var hitEmails := seq(|plan.hits|, i requires 0 <= i < |plan.hits| => plan.hits[i].email);
      assert RowAddresses(plan.hits) == hitEmails;
      flight := Some(f.(toWrite := f.toWrite[1..], written := f.written + hitEmails));
    }

    /** rollbackPrepareHitEmails */
    method RollbackPrepareHitEmails(hitEmails: seq<Email>, refundCredits: nat)
      modifies this
      ensures Abs() == Rollback(old(Abs()), hitEmails, refundCredits)
      ensures RollbackOutcome(old(Abs()), hitEmails, refundCredits, Abs())
    {
      hide Recount, Without, Refund, Elements, AllBroken, RollbackOutcome;
      RollbackMeans(Abs(), hitEmails, refundCredits);
      DeleteResults(hitEmails);
      Recalculate();
      BreakTasks();
      RefundBulkJob(refundCredits);
    }

    /** The aggregate over the remaining rows, written back to the job row. */
    method Recalculate()
      modifies this`status, this`processedCount, this`counters
      ensures Abs() == if old(deleted) then old(Abs())
                       else var tally := Recount(rows);
                            old(Abs()).(job := old(JobRow()).(processed := |rows| + invalidSyntax, status := Failed,
                                                              tally := tally.(undeliverable := tally.undeliverable + invalidSyntax)))
    {
      hide CountIf;
      var agg := CountHits(rows);
      if !deleted {
        processedCount := |rows| + invalidSyntax;
        counters := agg.(undeliverable := agg.undeliverable + invalidSyntax);
        status := Failed;
      }
    }

    /** DELETE ... WHERE email IN (...), 500 addresses at a time. */
    method DeleteResults(gone: seq<Email>)
      modifies this`rows
      ensures rows == Without(old(rows), Elements(gone))
    {
      hide Fresh;
      var i := 0;
      NothingGone(rows);
      while i < |gone|
        invariant 0 <= i <= |gone|
        invariant rows == Without(old(rows), Elements(gone[..i]))
      {
        var end := if i + 500 > |gone| then |gone| else i + 500;
        var batch := gone[i..end];
        WithoutTwice(old(rows), Elements(gone[..i]), Elements(batch));
        assert gone[..end] == gone[..i] + batch;
        assert Elements(gone[..end]) == Elements(gone[..i]) + Elements(batch);
        rows := SelectRows(rows, batch);
        i := end;
      }
      assert gone[..|gone|] == gone;
    }

    method FailCacheHits()
      requires flight.Some?
      modifies this
      ensures Abs() == FailWrite(old(Abs()))
    {
      hide Fresh;
      var f := flight.value;
      flight := None;
      if f.refundOnFailure {
        RollbackPrepareHitEmails(f.written, f.queued);
      } else {
        DeleteResults(f.written);
        if !deleted {
          status := Paused;
        }
      }
    }

    method FinishEnqueue()
      requires flight.Some?
      modifies this
      ensures Abs() == Finish(old(Abs()))
    {
      flight := None;
      if !deleted && status == Preparing {
        status := Pending;
      }
    }

    // ---------------------------------------------------------------- reclaiming and user commands

    /** ReclaimStaleWorkerTasks and runStaleWorkerCycle; without the watchdog, ReclaimProcessingTasks and ResetWorkerTasks. */
    method ReclaimTasks(servers: set<string>, watchdog: bool)
      modifies this
      ensures Abs() == Reclaim(old(Abs()), servers, watchdog)
    {
      var affected := exists id | id in tasks :: tasks[id].status == Running && tasks[id].worker in servers;
      tasks := map id | id in tasks ::
        if tasks[id].status == Running && tasks[id].worker in servers then tasks[id].(status := Queued, worker := "") else tasks[id];
      if watchdog && affected && !deleted && status == Processing {
        status := Pending;
      }
    }

    method PauseJob() returns (ok: bool)
      modifies this
      ensures Abs() == Pause(old(Abs()))
      ensures ok <==> !old(deleted) && old(status) in {Pending, Processing}
      ensures Abs() == if ok then old(Abs()).(job := old(JobRow()).(status := Paused)) else old(Abs())
    {
      ok := !deleted && (status == Pending || status == Processing);
      if ok {
        status := Paused;
      }
    }

    /** DeleteJob; None when the job is gone or its state does not allow it. */
    method DeleteJob() returns (refunded: Option<nat>)
      modifies this
      ensures Abs() == Delete(old(Abs()))
      ensures refunded.Some? <==> !old(deleted) && old(status) in {Completed, Failed, Paused}
      ensures refunded.Some? ==> credits == old(credits) + refunded.value
      ensures invalidSyntax <= totalEmails ==> DeleteOutcome(old(Abs()), Abs())
    {
      hide Delete, DeleteRefundAmount, DeleteOutcome;
      DeleteCases(Abs());
      if invalidSyntax <= totalEmails { DeleteMeans(Abs()); }
      if deleted {
        return None;
      }
      if status == Completed || status == Failed {
        DropAll();
        return Some(0);
      }
      if status != Paused {
        return None;
      }
      var amount := UnusedCredits();
      CancelAndDrop(amount);
      return Some(amount);
    }

    method DropAll()
      modifies this`rows, this`tasks, this`deleted
      ensures rows == [] && tasks == map[] && deleted
    {
      rows, tasks, deleted := [], map[], true;
    }

    method CancelAndDrop(amount: nat)
      modifies this`status, this`tasks, this`rows, this`deleted, this`credits, this`ledger
      ensures status == Cancelled && deleted && rows == [] && tasks == map[] && credits == old(credits) + amount
      ensures ledger == if amount > 0 then old(ledger) + [DeleteRefund(amount)] else old(ledger)
    {
      status := Cancelled;
      DropTasks();
      if amount > 0 {
        credits := credits + amount;
        ledger := ledger + [DeleteRefund(amount)];
      }
      tasks, rows, deleted := map[], [], true;
    }

    method DropTasks()
      modifies this`tasks
      ensures tasks.Keys == old(tasks).Keys
    {
      tasks := map id | id in tasks :: tasks[id].(status := Dropped);
    }

    /** The clamped difference between what was charged and what is kept. */
    method UnusedCredits() returns (amount: int)
      ensures amount == DeleteRefundAmount(Abs())
    {
      hide CountIf;
      var unknownCount := CountUnknown(rows);
      var charged := totalEmails - invalidSyntax;
      if charged < 0 {
        charged := 0;
      }
      var keep := |rows| - unknownCount;
      if keep < 0 {
        keep := 0;
      }
      amount := charged - keep;
      if amount < 0 {
        amount := 0;
      }
      if amount > charged {
        amount := charged;
      }
    }

    method ReconcileJobStatus()
      modifies this`tasks, this`status, this`credits, this`ledger
      ensures Abs() == Reconcile(old(Abs()))
    {
      hide CountTasks, Requeued;
      var queued, running, failed := CountTasks(tasks, Queued), CountTasks(tasks, Running), CountTasks(tasks, Broken);
      if queued + running > 0 || deleted {
        return;
      }
      if failed == 0 && totalEmails > 0 && processedCount < totalEmails {
        var requeued := Requeued(tasks);
        if requeued != tasks {
          tasks := requeued;
          if status !in {Paused, Failed, Cancelled, Completed} {
            status := Processing;
          }
          return;
        }
      }
      if status == Completed {
        return;
      }
      status := if failed > 0 then Failed else Completed;
      PayBackUnknown();
    }

    /** The unknown refund of reconciliation, which looks at no ledger. */
    method PayBackUnknown()
      modifies this`credits, this`ledger
      ensures credits == if status == Completed && counters.risky > 0 then old(credits) + counters.risky else old(credits)
      ensures ledger == if status == Completed && counters.risky > 0 then old(ledger) + [UnknownRefund(counters.risky)] else old(ledger)
    {
      if status == Completed && counters.risky > 0 {
        credits := credits + counters.risky;
        ledger := ledger + [UnknownRefund(counters.risky)];
      }
    }
  }

  lemma DeleteCases(st: State)
    ensures st.deleted || st.job.status !in {Completed, Failed, Paused} ==> Delete(st) == st
    ensures !st.deleted && st.job.status in {Completed, Failed} ==> Delete(st) == st.(deleted := true, rows := [], tasks := map[])
    ensures !st.deleted && st.job.status == Paused ==>
              var amount := DeleteRefundAmount(st);
              Delete(st) == st.(job := st.job.(status := Cancelled), deleted := true, rows := [], tasks := map[],
                                credits := st.credits + amount,
                                ledger := if amount > 0 then st.ledger + [DeleteRefund(amount)] else st.ledger)
  {
    hide DeleteRefundAmount;
  }

  /** The UPDATE of one task row, if there is one. */
  function Pushed(tasks: map<TaskId, Task>, id: TaskId, n: nat): map<TaskId, Task> {
    if id in tasks then tasks[id := Push(tasks[id], n)] else tasks
  }

  lemma PrepareCases(st: State, b: Batch)
    requires Tiles(b.chunks, |b.ordered|)
    ensures Prepare(st, b) == if st.deleted || st.job.status != Preparing then st else Launch(st, b, true)
  {
    hide Launch, Tiles;
  }

  lemma PersistCases(st: State, plan: Plan)
    ensures plan.hits == [] ==> PersistHits(st, plan) == st
    ensures plan.hits != [] && st.deleted ==> PersistHits(st, plan) == st.(rows := st.rows + plan.hits)
    ensures plan.hits != [] && !st.deleted ==>
              PersistHits(st, plan) == RiskyRefund(st.(rows := st.rows + plan.hits, job := Advance(st.job, plan.hits),
                                                       tasks := Pushed(st.tasks, plan.task, |plan.hits|)))
  {
    hide RiskyRefund, Advance, Push;
  }

  lemma ReportCases(st: State, id: TaskId, server: string, results: seq<Row>)
    ensures st.deleted || Terminal(st.job.status) || id !in st.tasks || st.tasks[id].status !in {Queued, Running} ==>
              Report(st, id, server, results) == st
    ensures !st.deleted && !Terminal(st.job.status) && id in st.tasks && st.tasks[id].status in {Queued, Running} ==>
              var added, claimed := Fresh(results, Emails(st.rows)), Claim(st.tasks[id], server);
              Report(st, id, server, results) ==
              if added == [] then st.(tasks := st.tasks[id := claimed])
              else RiskyRefund(st.(rows := st.rows + added, job := Advance(st.job, added),
                                   tasks := st.tasks[id := Push(claimed, |added|).(worker := server)]))
  {
    hide RiskyRefund, Advance, Fresh, Emails, Push;
  }

  /** Cache rows are stored under their own address. */
  ghost predicate OwnRows(cache: map<Email, Row>) {
    forall e | e in cache :: cache[e].email == e
  }

  // ---------------------------------------------------------------- scans without side effects

  method SplitBySyntax(emails: seq<Email>) returns (invalid: nat, queued: seq<Email>)
    ensures queued == Queue(emails) && invalid == |emails| - |queued|
  {
    hide IsValidMailboxSyntax;
    invalid, queued := 0, [];
    for i := 0 to |emails|
      invariant queued == Queue(emails[..i]) && invalid + |queued| == i
    {
      assert emails[..i + 1][..i] == emails[..i];
      if !IsValidMailboxSyntax(emails[i]) {
        invalid := invalid + 1;
        continue;
      }
      queued := queued + [emails[i]];
    }
    assert emails[..|emails|] == emails;
  }

  /** scanSyntaxFiltered, on a list whose lines carry no surrounding blanks. */
  method ScanSyntaxFiltered(lines: seq<Email>) returns (result: seq<Email>)
    ensures result == Queue(lines)
  {
    var invalid;
    invalid, result := SplitBySyntax(lines);
  }

  method RemainingEmails(source: seq<Email>, rows: seq<Row>) returns (remaining: seq<Email>)
    ensures remaining == Remaining(source, rows)
  {
    hide Normalize, IsValidMailboxSyntax;
    var verified := set r | r in rows :: Normalize(r.email);
    remaining := [];
    for i := 0 to |source|
      invariant remaining == Unrowed(source[..i], verified)
    {
      assert source[..i + 1][..i] == source[..i];
      var email := Normalize(source[i]);
      if email == "" || email in verified {
        continue;
      }
      if !IsValidMailboxSyntax(email) {
        continue;
      }
      remaining := remaining + [email];
    }
    assert source[..|source|] == source;
  }

  /** The active policies of the domains of a list and their parents. */
  method PolicyMap(emails: seq<Email>, table: Table) returns (policies: map<string, string>)
    ensures DecidesAsTable(emails, policies, table)
  {
    hide Normalize, IsValidMailboxSyntax, ResolveDomainIntel, DomainOf, Closed, FromList, Folded;
    var domains := UniqueDomains(emails);
    policies := LoadDomainPolicyMap(table, domains);
    if forall e | e in emails :: Normalize(e) == e {
      forall k | 0 <= k < |emails| && IsValidMailboxSyntax(emails[k])
        ensures ResolveDomainIntel(emails[k], policies) == ResolveDomainIntel(emails[k], Active(table))
      {
        QueuedPolicyAgrees(emails, domains, k, table, policies);
      }
    }
  }

  method ClassifyChunkEmails(chunk: seq<Email>, cached: map<Email, Row>, policies: map<string, string>)
    returns (hits: seq<Row>, misses: seq<Email>)
    ensures hits == Hits(chunk, cached, policies) && misses == Misses(chunk, cached, policies)
  {
    hide ResolveDomainIntel;
    hits, misses := [], [];
    for i := 0 to |chunk|
      invariant hits == Hits(chunk[..i], cached, policies) && misses == Misses(chunk[..i], cached, policies)
    {
      assert chunk[..i + 1][..i] == chunk[..i];
      var email := chunk[i];
      if email in cached {
        hits := hits + [cached[email]];
        continue;
      }
      var intel := ResolveDomainIntel(email, policies);
      if intel.Some? {
        hits := hits + [Row(email, intel.value.verdict, false, false, intel.value.isDisposable, false)];
        continue;
      }
      misses := misses + [email];
    }
    assert chunk[..|chunk|] == chunk;
  }

  method QueuedTask(ordered: seq<Email>, chunk: Chunk) returns (task: Task)
    requires chunk.startIndex <= chunk.endIndex < |ordered|
    ensures task == TaskOf(ordered, chunk)
  {
    var chunkEmails := ordered[chunk.startIndex..chunk.endIndex + 1];
    task := Task(chunk.endIndex - chunk.startIndex + 1, set e | e in chunkEmails, 0, Queued, "");
  }

  /** Phase 1 of an enqueue: every chunk is classified before anything is sent or written. */
  method PlanChunks(first: TaskId, ordered: seq<Email>, chunks: seq<Chunk>, cache: map<Email, Row>, policies: map<string, string>)
    returns (plans: seq<Plan>)
    requires Tiles(chunks, |ordered|)
    ensures plans == Plans(first, ordered, chunks, cache, policies)
  {
    hide Hits, Misses, Tiles;
    plans := [];
    for k := 0 to |chunks|
      invariant |plans| == k
      invariant forall i | 0 <= i < k :: plans[i] == Plans(first, ordered, chunks, cache, policies)[i]
    {
      ChunkInside(chunks, |ordered|, k);
      var hits, misses := ClassifyChunkEmails(ordered[chunks[k].startIndex..chunks[k].endIndex + 1], cache, policies);
      plans := plans + [Plan(first + k, misses, hits)];
    }
  }

  /** The counters a row adds to, as the switch statements and the flag tests after them decide. */
  function Tick(inc: Tally, r: Row): Tally {
    var byStatus :=
      match r.verdict
      case Valid => inc.(deliverable := inc.deliverable + 1)
      case Invalid => inc.(undeliverable := inc.undeliverable + 1)
      case Unknown => inc.(risky := inc.risky + 1)
      case CatchAll => inc.(catchAll := inc.catchAll + 1)
      case Disposable => inc.(disposable := inc.disposable + 1)
      case Other(_) => inc;
    var byCatchAll := if r.isCatchAll && r.verdict != CatchAll then byStatus.(catchAll := byStatus.catchAll + 1) else byStatus;
    var byDisposable :=
      if r.isDisposable && r.verdict != Disposable then byCatchAll.(disposable := byCatchAll.disposable + 1) else byCatchAll;
    if r.isRole then byDisposable.(role := byDisposable.role + 1) else byDisposable
  }

  /** Counting one row at a time is a recount. */
  lemma TickRecount(rows: seq<Row>, r: Row)
    ensures Tick(Recount(rows), r) == Recount(rows + [r])
  {
    assert (rows + [r])[..|rows|] == rows;
  }

  method CountHits(rows: seq<Row>) returns (inc: Tally)
    ensures inc == Recount(rows)
  {
    hide Recount, Tick;
    inc := Tally(0, 0, 0, 0, 0, 0);
    NoCount();
    for i := 0 to |rows|
      invariant inc == Recount(rows[..i])
    {
      TickRecount(rows[..i], rows[i]);
      assert rows[..i + 1] == rows[..i] + [rows[i]];
      inc := Tick(inc, rows[i]);
    }
    assert rows[..|rows|] == rows;
  }

  lemma NoCount()
    ensures Recount([]) == Tally(0, 0, 0, 0, 0, 0)
  {
  }

  method CountUnknown(rows: seq<Row>) returns (n: nat)
    ensures n == CountIf(Risky, rows)
  {
    n := 0;
    for i := 0 to |rows|
      invariant n == CountIf(Risky, rows[..i])
    {
      assert rows[..i + 1][..i] == rows[..i];
      if rows[i].verdict == Unknown {
        n := n + 1;
      }
    }
    assert rows[..|rows|] == rows;
  }

  function BuiltAll(clean: seq<Payload>): (rows: seq<Row>)
    ensures |rows| == |clean|
  {
    seq(|clean|, i requires 0 <= i < |clean| => Built(clean[i]))
  }

  method CleanAll(results: seq<Payload>, table: Table) returns (clean: seq<Payload>)
    ensures BuiltAll(clean) == Rows(results, table)
  {
    hide Normalize, RowFor, Built;
    clean := [];
    for i := 0 to |results|
      invariant BuiltAll(clean) == Rows(results[..i], table)
    {
      assert results[..i + 1][..i] == results[..i];
      BlankIff(results[i], table);
      if Normalize(results[i].email) == "" {
        continue;
      }
      var c := Clean(results[i], table);
      BuiltSnoc(clean, c);
      clean := clean + [c];
    }
    assert results[..|results|] == results;
  }

  lemma BlankIff(p: Payload, table: Table)
    ensures RowFor(p, table) == None <==> Normalize(p.email) == ""
  {
    hide Normalize;
  }

  lemma BuiltSnoc(clean: seq<Payload>, c: Payload)
    ensures BuiltAll(clean + [c]) == BuiltAll(clean) + [Built(c)]
  {
    hide Built;
  }

  /** The new rows of a batch and their increments, counted as they are built. */
  method FreshRows(clean: seq<Payload>, existing: set<Email>) returns (newRows: seq<Row>, inc: Tally)
    ensures newRows == Fresh(BuiltAll(clean), existing) && inc == Recount(newRows)
  {
    hide Recount, Tick, Built, BuiltAll;
    newRows, inc := [], Tally(0, 0, 0, 0, 0, 0);
    NoCount();
    for i := 0 to |clean|
      invariant newRows == Fresh(BuiltAll(clean)[..i], existing)
      invariant inc == Recount(newRows)
    {
      BuiltAt(clean, i);
      assert BuiltAll(clean)[..i + 1][..i] == BuiltAll(clean)[..i];
      if clean[i].email in existing {
        continue;
      }
      var row := Built(clean[i]);
      TickRecount(newRows, row);
      inc := Tick(inc, row);
      newRows := newRows + [row];
    }
    assert BuiltAll(clean)[..|clean|] == BuiltAll(clean);
  }

  lemma BuiltAt(clean: seq<Payload>, i: nat)
    requires i < |clean|
    ensures BuiltAll(clean)[i] == Built(clean[i]) && Built(clean[i]).email == clean[i].email
  {
    hide NormalizeVerificationStatus;
  }

  /** Looking up only the reported addresses finds the same new rows as looking at every stored row. */
  lemma FreshAgainst(clean: seq<Payload>, rows: seq<Row>, existing: set<Email>)
    requires forall e :: e in existing <==> e in Emails(rows) && exists p | p in clean :: p.email == e
    ensures Fresh(BuiltAll(clean), existing) == Fresh(BuiltAll(clean), Emails(rows))
  {
    hide Built;
    forall r | r in BuiltAll(clean) ensures r.email in existing <==> r.email in Emails(rows) {
      var i :| 0 <= i < |clean| && BuiltAll(clean)[i] == r;
      BuiltAt(clean, i);
    }
    SameFresh(BuiltAll(clean), existing, Emails(rows));
  }

  lemma {:induction false} SameFresh(results: seq<Row>, a: set<Email>, b: set<Email>)
    requires forall r | r in results :: r.email in a <==> r.email in b
    ensures Fresh(results, a) == Fresh(results, b)
  {
    if results != [] { SameFresh(results[..|results| - 1], a, b); }
  }

  method SelectRows(rows: seq<Row>, gone: seq<Email>) returns (kept: seq<Row>)
    ensures kept == Without(rows, Elements(gone))
  {
    kept := [];
    for i := 0 to |rows|
      invariant kept == Without(rows[..i], Elements(gone))
    {
      assert rows[..i + 1][..i] == rows[..i];
      if rows[i].email !in gone {
        kept := kept + [rows[i]];
      }
    }
    assert rows[..|rows|] == rows;
  }

  lemma {:induction false} WithoutTwice(rows: seq<Row>, a: set<Email>, b: set<Email>)
    ensures Without(Without(rows, a), b) == Without(rows, a + b)
  {
    if rows != [] {
      var front, last := rows[..|rows| - 1], rows[|rows| - 1];
      WithoutTwice(front, a, b);
      assert (Fresh(front, a) + [last])[..|Fresh(front, a)|] == Fresh(front, a);
    }
  }

  lemma {:induction false} NothingGone(rows: seq<Row>)
    ensures Without(rows, Elements([])) == rows
  {
    if rows != [] { NothingGone(rows[..|rows| - 1]); }
  }

  lemma ChunkInside(chunks: seq<Chunk>, n: nat, k: nat)
    requires Tiles(chunks, n) && k < |chunks|
    ensures chunks[k].startIndex <= chunks[k].endIndex < n
  {
  }

  function ServerName(rawServer: string, rawWorker: string): string {
    if Trim(rawServer) != "" then Trim(rawServer) else Trim(rawWorker)
  }

  /** What ReportTaskResults rejects before it opens a transaction. */
  function ReportRefused(taskID: TaskId, rawServer: string, rawWorker: string, enabled: set<string>,
                         results: seq<Payload>, table: Table): Option<ReportError> {
    if taskID == 0 then Some(MissingTask)
    else if results == [] then Some(NoResults)
    else if ServerName(rawServer, rawWorker) == "" then Some(ServerRequired)
    else if ServerName(rawServer, rawWorker) !in enabled then Some(ServerDisabled)
    else if Rows(results, table) == [] then Some(NoResults)
    else None
  }

  /** Each refusal of a report has its one cause, in the order of the checks. */
  ghost predicate ReportRefusal(error: Option<ReportError>, taskID: TaskId, server: string, enabled: set<string>, results: seq<Payload>) {
    var blank := forall p | p in results :: CanonicalOf(p.email, "");
    && (error == Some(MissingTask) <==> taskID == 0)
    && (error == Some(ServerRequired) <==> taskID != 0 && results != [] && server == "")
    && (error == Some(ServerDisabled) <==> taskID != 0 && results != [] && server != "" && server !in enabled)
    && (error == Some(NoResults) <==> taskID != 0 && (results == [] || (server != "" && server in enabled && blank)))
    && (error == None <==> taskID != 0 && results != [] && server != "" && server in enabled && !blank)
  }

  lemma RefusalMeans(taskID: TaskId, rawServer: string, rawWorker: string, enabled: set<string>, results: seq<Payload>, table: Table)
    ensures ReportRefusal(ReportRefused(taskID, rawServer, rawWorker, enabled, results, table), taskID,
                          ServerName(rawServer, rawWorker), enabled, results)
  {
    hide Rows, ServerName, CanonicalOf;
    AllBlank(results, table);
  }

  lemma {:induction false} AllBlank(results: seq<Payload>, table: Table)
    ensures Rows(results, table) == [] <==> forall p | p in results :: CanonicalOf(p.email, "")
  {
    hide RowFor, CanonicalOf;
    if results != [] {
      var front, last := results[..|results| - 1], results[|results| - 1];
      AllBlank(front, table);
      BlankMeans(last, table);
      assert forall p :: p in results <==> p in front || p == last;
    }
  }

  lemma BlankMeans(p: Payload, table: Table)
    ensures RowFor(p, table) == None <==> CanonicalOf(p.email, "")
  {
    hide RowFor, CanonicalOf;
    RowMeans(p, table, Row("", Valid, false, false, false, false));
  }

  lemma NoRows(results: seq<Payload>, table: Table, clean: seq<Payload>)
    requires BuiltAll(clean) == Rows(results, table)
    ensures Rows(results, table) == [] <==> |clean| == 0
  {
    hide Rows, Built;
    assert |BuiltAll(clean)| == |clean|;
  }
}
