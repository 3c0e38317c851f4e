/** No address of a job is lost: each has a row or is on its way to one, but for crashes nothing repairs. */
module JobDelivery {
  import opened Text
  import opened Verdicts
  import opened BulkQueue
  import opened JobState
  import opened JobRows
  import opened JobInvariant
  import opened JobSteps
  import opened JobHistory

  // ---------------------------------------------------------------- nothing is lost

  /** The addresses to answer are those with a row and those in a current task, and no two tasks share one. */
  lemma NoAddressLost(st: State, e: Email)
    requires Reached(st) && st.job.status in {Pending, Processing, Paused, Completed}
    ensures e in Wanted(st) <==> e in Rowed(st) || InSomeTask(st, e)
    ensures forall i, j | i in st.tasks && j in st.tasks && e in st.tasks[i].emails && e in st.tasks[j].emails :: i == j
  {
    hide Summary, Normalize, Recount, Emails, Queue, FlightOk;
    ReachableInv(st);
    if InSomeTask(st, e) {
      var id :| id in st.tasks && e in st.tasks[id].emails;
      assert st.tasks[id].emails <= Wanted(st);
    }
  }

  lemma PendingFrame(st: State, st': State)
    requires st'.flight == st.flight
    ensures forall id, e :: PlanPending(st', id, e) <==> PlanPending(st, id, e)
  {
    hide Emails;
  }

  /** More rows, the same parts of the list, the same payloads: everything stays deliverable. */
  lemma DeliveryFrame(st: State, st': State)
    requires DeliveryOk(st) && st'.flight == st.flight && st'.sent == st.sent && Rowed(st) <= Rowed(st')
    requires forall id | id in st'.tasks :: id in st.tasks && st'.tasks[id].emails == st.tasks[id].emails
    requires st'.flight == None && st'.job.status in {Pending, Processing} ==> st.job.status in {Pending, Processing}
    ensures DeliveryOk(st')
  {
    hide Emails, PlanPending;
    PendingFrame(st, st');
  }

  lemma SendDelivery(st: State)
    requires DeliveryOk(st) && FlightOk(st) && st.flight.Some? && st.flight.value.toSend != []
    ensures DeliveryOk(Send(st))
  {
    hide Emails, Summary;
    var st', f := Send(st), st.flight.value;
    forall id, e | id in st'.tasks && e in st'.tasks[id].emails
      ensures e in Rowed(st') || e in SentTo(st', id) || PlanPending(st', id, e)
    {
      if e !in Rowed(st) && e !in SentTo(st, id) {
        assert PlanPending(st, id, e);
        if p :| p in f.toSend && p.task == id && e in p.misses {
          if p != f.toSend[0] {
            assert p in f.toSend[1..];
          }
        }
      } else if e in SentTo(st, id) {
        assert f.toSend[0] in f.toSend && ToSendOk(st, f.toSend[0]);
      }
    }
  }

  lemma WriteDelivery(st: State)
    requires Inv(st) && DeliveryOk(st) && st.flight.Some? && st.flight.value.toSend == [] && st.flight.value.toWrite != []
    ensures DeliveryOk(WriteHits(st))
  {
    hide Inv, Emails, WriteHits, ToWriteOk;
    var st', f := WriteHits(st), st.flight.value;
    NotFailedInFlight(st);
    NextToWrite(st);
    WriteEffect(st);
    forall id, e | id in st'.tasks && e in st'.tasks[id].emails
      ensures e in Rowed(st') || e in SentTo(st', id) || PlanPending(st', id, e)
    {
      if e !in Rowed(st) && e !in SentTo(st, id) {
        assert PlanPending(st, id, e);
        var p :| p in f.toWrite && p.task == id && e in Emails(p.hits);
        if p != f.toWrite[0] {
          assert p in f.toWrite[1..];
        }
      }
    }
  }

  /** What a write of cached answers changes. */
  lemma WriteEffect(st: State)
    requires !st.deleted && st.flight.Some? && st.flight.value.toWrite != [] && ToWriteOk(st, st.flight.value.toWrite[0])
    ensures var st', p := WriteHits(st), st.flight.value.toWrite[0];
            && st'.rows == st.rows + p.hits
            && Rowed(st') == Rowed(st) + Emails(p.hits)
            && st'.sent == st.sent && st'.source == st.source && !st'.deleted
            && st'.tasks.Keys == st.tasks.Keys
            && (forall id | id in st.tasks :: st'.tasks[id].emails == st.tasks[id].emails && st'.tasks[id].size == st.tasks[id].size)
            && st'.flight.Some? && st'.flight.value.toSend == st.flight.value.toSend
            && st'.flight.value.toWrite == st.flight.value.toWrite[1..]
            && (p.hits == [] ==> st'.job == st.job && st'.ledger == st.ledger && st'.credits == st.credits)
            && (p.hits != [] ==> st'.job == Advance(st.job, p.hits) && Settled(st, st'))
  {
    hide Emails, Advance, Summary, RowAddresses;
    var p := st.flight.value.toWrite[0];
    EmailsConcat(st.rows, p.hits);
    if p.hits == [] {
      assert st.rows + p.hits == st.rows;
      assert Emails(p.hits) == {} by { EmptyRows(); }
    }
  }

  /** Completed with unknown results, and no refund of any kind on record. */
  predicate Owed(ledger: seq<Entry>, job: Job) {
    job.status == Completed && job.tally.risky > 0 && !exists e | e in ledger :: !e.Charge?
  }

  /** The account after progress: unchanged, or with the unknown refund a completion pays. */
  ghost predicate Settled(st: State, st': State) {
    if Owed(st.ledger, st'.job) then
      st'.ledger == st.ledger + [UnknownRefund(st'.job.tally.risky)] && st'.credits == st.credits + st'.job.tally.risky
    else st'.ledger == st.ledger && st'.credits == st.credits
  }

  lemma RefundSettles(st: State, grown: State)
    requires grown.ledger == st.ledger && grown.credits == st.credits && !grown.deleted
    ensures Settled(st, RiskyRefund(grown))
  {
  }

  /** What an accepted report with new rows changes. */
  lemma ReportEffect(st: State, id: TaskId, server: string, results: seq<Row>)
    requires !st.deleted && !Terminal(st.job.status) && id in st.tasks && st.tasks[id].status in {Queued, Running}
    ensures var st', added := Report(st, id, server, results), Fresh(results, Emails(st.rows));
            && st'.rows == st.rows + added
            && Rowed(st') == Rowed(st) + Emails(results)
            && st'.sent == st.sent && st'.source == st.source && !st'.deleted && st'.flight == st.flight
            && st'.tasks.Keys == st.tasks.Keys
            && (forall k | k in st.tasks :: st'.tasks[k].emails == st.tasks[k].emails && st'.tasks[k].size == st.tasks[k].size)
            && (added == [] ==> st'.job == st.job && st'.ledger == st.ledger && st'.credits == st.credits)
            && (added != [] ==> st'.job == Advance(st.job, added) && Settled(st, st'))
  {
    hide Emails, Advance, Summary, Fresh, RiskyRefund, Settled;
    var added := Fresh(results, Emails(st.rows));
    FreshFacts(results, Emails(st.rows));
    EmailsConcat(st.rows, added);
    if added == [] {
      assert st.rows + added == st.rows;
      assert Emails(added) == {} by { EmptyRows(); }
    } else {
      var grown := st.(rows := st.rows + added, job := Advance(st.job, added),
                       tasks := st.tasks[id := Push(Claim(st.tasks[id], server), |added|).(worker := server)]);
      RefundSettles(st, grown);
      RiskyRefundFrame(grown);
    }
  }

  /** The task takes the report, and it brings new rows. */
  predicate Lands(st: State, id: TaskId, results: seq<Row>) {
    id in st.tasks && st.tasks[id].status in {Queued, Running} && Fresh(results, Emails(st.rows)) != []
  }

  /** The steps that lose mail: a crash while the job waits for its workers and something is still to be queued, and
      the first new rows of a report that overtakes the repeated preparation of a job whose enqueue had crashed. */
  ghost predicate Strands(st: State, ev: Event) {
    match ev
    case Crash => st.job.status in {Pending, Processing} && exists id, e :: PlanPending(st, id, e)
    case ReportEv(id, _, results) => st.flight == None && st.job.status == Preparing && Lands(st, id, results) && !OnItsWay(st)
    case _ => false
  }

  /** Every other legal step keeps what is unanswered on its way, and these do not. */
  lemma DeliveryStepIff(st: State, ev: Event)
    requires Inv(st) && !st.deleted && DeliveryOk(st) && Legal(st, ev)
    ensures DeliveryOk(Step(st, ev)) <==> !Strands(st, ev)
  {
    hide Inv, Queue, Report, Refund, Prepare, Send, WriteHits, Reclaim, Requeue, BatchOf, Remaining, Emails, DeliveryOk,
         OnItsWay, Lands, PlanPending;
    match ev
    case SubmitFails => RefundIdle(st, |Queue(st.source)|); IdleDelivery(Refund(st, |Queue(st.source)|));
    case PrepareEv(b) => PrepareDelivery(st, b);
    case PrepareFails => FailPreparingDelivery(st);
    case Crash => CrashDelivery(st);
    case SendEv => FlightNow(st); SendDelivery(st);
    case SendFails => FailSendDelivery(st);
    case WriteEv => WriteDelivery(st);
    case WriteFails => FailWriteDelivery(st);
    case FinishEv => FinishDelivery(st);
    case ReportEv(id, server, results) => ReportDelivery(st, id, server, results);
    case ReclaimEv(servers, watchdog) => ReclaimDelivery(st, servers, watchdog);
    case PauseEv => DeliveryFrame(st, Pause(st));
    case ResumeEv(b) => RequeueInv(st, false, b);
    case RetryEv(b) => RequeueInv(st, true, b);
    case DeleteEv => DeleteDelivery(st);
    case RiskyCheck => RiskyCheckIdentity(st);
    case ReconcileEv => ReconcileIdentityIff(st);
    case OtherActivity(balance) => DeliveryFrame(st, st.(credits := balance));
  }

  lemma FailPreparingDelivery(st: State)
    requires DeliveryOk(st) && st.flight == None
    ensures DeliveryOk(FailPreparing(st))
  {
    hide OnItsWay, DeliveryOk;
    if !st.deleted && st.job.status == Preparing {
      RefundIdle(st, MaxInt(st.job.total - st.job.invalidSyntax, 0));
      IdleDelivery(FailPreparing(st));
    }
  }

  lemma ReportDelivery(st: State, id: TaskId, server: string, results: seq<Row>)
    requires Inv(st) && !st.deleted && DeliveryOk(st) && Legal(st, ReportEv(id, server, results))
    ensures DeliveryOk(Report(st, id, server, results)) <==> !Strands(st, ReportEv(id, server, results))
  {
    hide Inv, Emails, DeliveryOk, OnItsWay, Advance, Fresh, Report, Strands;
    var st' := Report(st, id, server, results);
    if Terminal(st.job.status) || id !in st.tasks || st.tasks[id].status !in {Queued, Running} {
      Ignored(st, id, server, results);
    } else {
      ReportEffect(st, id, server, results);
      AdvanceFields(st.job, Fresh(results, Emails(st.rows)));
      if st.flight == None && st.job.status == Preparing && Fresh(results, Emails(st.rows)) != [] {
        OvertakenPreparation(st, id, server, results);
      } else {
        DeliveryFrame(st, st');
        NotOvertaking(st, id, server, results);
      }
    }
  }

  lemma Ignored(st: State, id: TaskId, server: string, results: seq<Row>)
    requires Terminal(st.job.status) || id !in st.tasks || st.tasks[id].status !in {Queued, Running}
    ensures Report(st, id, server, results) == st && !Strands(st, ReportEv(id, server, results))
  {
    hide Emails, Fresh, OnItsWay;
  }

  lemma NotOvertaking(st: State, id: TaskId, server: string, results: seq<Row>)
    requires !(st.flight == None && st.job.status == Preparing && Fresh(results, Emails(st.rows)) != [])
    ensures !Strands(st, ReportEv(id, server, results))
  {
    hide Emails, Fresh, OnItsWay;
  }

  /** New rows of a report change nothing about addresses that were never sent. */
  lemma UnsentStays(st: State, st': State, id: TaskId, results: seq<Row>)
    requires TasksOk(st) && id in st.tasks && Emails(results) <= SentTo(st, id)
    requires st'.flight == None && st.flight == None && st'.sent == st.sent && Rowed(st') == Rowed(st) + Emails(results)
    requires st'.tasks.Keys == st.tasks.Keys && forall k | k in st.tasks :: st'.tasks[k].emails == st.tasks[k].emails
    ensures OnItsWay(st') <==> OnItsWay(st)
  {
    hide Emails, PlanPending;
    PendingFrame(st, st');
    forall k, e | k in st.tasks && e in st.tasks[k].emails && e in Emails(results) ensures e in SentTo(st, k) {
      SentUnderOwnTask(st, id, k, e);
    }
  }

  lemma SentUnderOwnTask(st: State, id: TaskId, k: TaskId, e: Email)
    requires TasksOk(st) && id in st.tasks && k in st.tasks && e in st.tasks[k].emails && e in SentTo(st, id)
    ensures k == id
  {
    hide Wanted;
  }

  lemma OvertakenPreparation(st: State, id: TaskId, server: string, results: seq<Row>)
    requires Inv(st) && !st.deleted && Legal(st, ReportEv(id, server, results))
    requires id in st.tasks && st.tasks[id].status in {Queued, Running}
    requires st.flight == None && st.job.status == Preparing && Fresh(results, Emails(st.rows)) != []
    ensures DeliveryOk(Report(st, id, server, results)) <==> !Strands(st, ReportEv(id, server, results))
  {
    hide Inv, Emails, OnItsWay, Advance, Fresh, Report;
    var st' := Report(st, id, server, results);
    ReportEffect(st, id, server, results);
    AdvanceFields(st.job, Fresh(results, Emails(st.rows)));
    TaskParts(st);
    UnsentStays(st, st', id, results);
    if st'.job.status == Completed {
      StepInv(st, ReportEv(id, server, results));
      AnsweredOnItsWay(st');
    }
  }

  lemma TaskParts(st: State)
    requires Inv(st) && !st.deleted
    ensures TasksOk(st)
  {
    hide SourceOk, TasksOk;
  }

  lemma AnsweredOnItsWay(st: State)
    requires Inv(st) && !st.deleted && st.job.status == Completed
    ensures OnItsWay(st)
  {
    hide Queue, Emails, Summary, Recount, Normalize, PlanPending;
    forall id, e | id in st.tasks && e in st.tasks[id].emails ensures e in Rowed(st) {
      assert st.tasks[id].emails <= Wanted(st);
    }
  }

  lemma CrashDelivery(st: State)
    requires Inv(st) && !st.deleted && DeliveryOk(st) && st.flight.Some?
    ensures DeliveryOk(st.(flight := None)) <==> !Strands(st, Crash)
  {
    hide Inv, Emails, OnItsWay, PlanPending;
    CrashLoses(st);
  }

  /** A crash leaves everything on its way exactly when nothing was still to be sent or written. */
  lemma CrashLoses(st: State)
    requires Inv(st) && OnItsWay(st) && st.flight.Some?
    ensures OnItsWay(st.(flight := None)) <==> forall id, e :: !PlanPending(st, id, e)
  {
    hide Inv, Emails, FlightOk, PlanPending;
    FlightNow(st);
    var st' := st.(flight := None);
    NothingPending(st');
    if forall id, e :: !PlanPending(st, id, e) {
      Landed(st, st');
    } else {
      var id, e :| PlanPending(st, id, e);
      PendingNowhere(st, id, e);
      assert Rowed(st') == Rowed(st) && SentTo(st', id) == SentTo(st, id) && !PlanPending(st', id, e);
    }
  }

  lemma FlightNow(st: State)
    requires Inv(st) && st.flight.Some?
    ensures FlightOk(st) && !st.deleted
  {
    hide SourceOk, CoreOk, FlightOk;
  }

  lemma IdleDelivery(st: State)
    requires st.flight == None && st.job.status !in {Pending, Processing}
    ensures DeliveryOk(st)
  {
  }

  lemma NoTasksDelivery(st: State)
    requires st.tasks == map[]
    ensures DeliveryOk(st)
  {
  }

  lemma RefundIdle(st: State, credits: nat)
    requires !st.deleted
    ensures Refund(st, credits).job.status == Failed && Refund(st, credits).flight == st.flight
  {
  }

  lemma PrepareDelivery(st: State, b: Batch)
    requires Inv(st) && DeliveryOk(st) && Legal(st, PrepareEv(b))
    ensures DeliveryOk(Prepare(st, b))
  {
    hide Inv, DeliveryOk, Queue, Launch;
    PrepareInv(st, b);
  }

  lemma FailSendDelivery(st: State)
    requires Inv(st) && st.flight.Some?
    ensures DeliveryOk(FailSend(st))
  {
    hide Inv, Emails, PlanPending, DeliveryOk;
    NotFailedInFlight(st);
    IdleDelivery(FailSend(st));
  }

  lemma FailWriteDelivery(st: State)
    requires Inv(st) && st.flight.Some?
    ensures DeliveryOk(FailWrite(st))
  {
    hide Inv, Emails, PlanPending, DeliveryOk, Recount, Without;
    NotFailedInFlight(st);
    IdleDelivery(FailWrite(st));
  }

  lemma NothingPending(st: State)
    requires st.flight.Some? ==> st.flight.value.toSend == [] && st.flight.value.toWrite == []
    ensures forall id, e :: !PlanPending(st, id, e)
  {
    hide Emails;
  }

  lemma Landed(st: State, st': State)
    requires OnItsWay(st) && forall id, e :: !PlanPending(st, id, e)
    requires st'.rows == st.rows && st'.tasks == st.tasks && st'.sent == st.sent
    ensures OnItsWay(st')
  {
    hide PlanPending, Emails;
    forall id, e | id in st'.tasks && e in st'.tasks[id].emails
      ensures e in Rowed(st') || e in SentTo(st', id) || PlanPending(st', id, e)
    {
      assert !PlanPending(st, id, e);
      assert Rowed(st') == Rowed(st) && SentTo(st', id) == SentTo(st, id);
    }
  }

  lemma FinishDelivery(st: State)
    requires DeliveryOk(st) && st.flight.Some? && st.flight.value.toSend == [] && st.flight.value.toWrite == []
    ensures DeliveryOk(Finish(st))
  {
    hide PlanPending, OnItsWay;
    NothingPending(st);
    Landed(st, Finish(st));
  }

  lemma ReclaimDelivery(st: State, servers: set<string>, watchdog: bool)
    requires DeliveryOk(st)
    ensures DeliveryOk(Reclaim(st, servers, watchdog))
  {
    hide Emails, DeliveryOk, Reclaimed;
    ReclaimedTasks(st.tasks, servers);
    DeliveryFrame(st, Reclaim(st, servers, watchdog));
  }

  lemma DeleteDelivery(st: State)
    requires DeliveryOk(st)
    ensures DeliveryOk(Delete(st))
  {
    hide DeliveryOk, DeleteRefundAmount;
    if Delete(st) != st {
      NoTasksDelivery(Delete(st));
    }
  }

  /** No step of the run loses mail: crashes happen while the job is still preparing (or not waiting), and the
      preparation that repairs them comes before the next new rows. */
  ghost predicate NoneStranded(st: State, evs: seq<Event>)
    requires LegalRun(st, evs)
    decreases |evs|
  {
    evs == [] || (!Strands(st, evs[0]) && NoneStranded(Step(st, evs[0]), evs[1..]))
  }

  /** A good run from a deliverable state in which nothing is stranded. */
  ghost predicate SteadyRun(st: State, evs: seq<Event>) {
    GoodRun(st, evs) && DeliveryOk(st) && NoneStranded(st, evs)
  }

  lemma {:induction false} RunDelivery(st: State, evs: seq<Event>)
    requires SteadyRun(st, evs)
    ensures Inv(Run(st, evs)) && DeliveryOk(Run(st, evs))
    decreases |evs|
  {
    hide Inv, Legal, Step, DeliveryOk, Strands;
    if evs != [] {
      StepInv(st, evs[0]);
      if st.deleted {
        DeletedStep(st, evs[0]);
        DeliveryFrame(st, Step(st, evs[0]));
      } else {
        DeliveryStepIff(st, evs[0]);
      }
      RunDelivery(Step(st, evs[0]), evs[1..]);
    }
  }

  /** From acceptance on, once nothing is being enqueued every unanswered address of an unpaused job
      has been sent to a worker under its current task. */
  lemma QueuedForWorkers(s: Submission, evs: seq<Event>, end: State, e: Email)
    requires RunsTo(s, evs, end) && NoneStranded(Submit(s).state, evs)
    requires !end.deleted && end.flight == None && end.job.status in {Pending, Processing} && e in Wanted(end) - Rowed(end)
    ensures exists id | id in end.tasks :: e in end.tasks[id].emails && e in SentTo(end, id)
  {
    hide Inv, Accept, Emails, Queue, NoneStranded;
    var st := Submit(s).state;
    AcceptedInv(s.emails, s.credits, s.active, s.maxEmails, s.maxActive);
    AcceptedTasks(s.emails, s.credits, s.active, s.maxEmails, s.maxActive);
    NoTasksDelivery(st);
    RunDelivery(st, evs);
    assert Reached(end);
    NoAddressLost(end, e);
    var id :| id in end.tasks && e in end.tasks[id].emails;
    assert !PlanPending(end, id, e);
  }

  lemma AcceptedTasks(emails: seq<string>, credits: nat, active: nat, maxEmails: nat, maxActive: nat)
    requires Accept(emails, credits, active, maxEmails, maxActive).Created?
    ensures Accept(emails, credits, active, maxEmails, maxActive).state.tasks == map[]
  {
  }

  /** What is still to be sent or written has neither a row nor a payload. */
  lemma PendingNowhere(st: State, id: TaskId, e: Email)
    requires FlightOk(st) && PlanPending(st, id, e)
    ensures id in st.tasks && e in st.tasks[id].emails && e !in Rowed(st) && e !in SentTo(st, id)
  {
    hide Summary, Emails;
    var f := st.flight.value;
    if p :| p in f.toSend && p.task == id && e in p.misses {
      assert ToSendOk(st, p);
      assert e in Elements(p.misses);
    } else {
      var q :| q in f.toWrite && q.task == id && e in Emails(q.hits);
      assert ToWriteOk(st, q);
    }
  }

  // ---------------------------------------------------------------- crashes

  /** After a crash with something still to be queued, preparing again puts everything back on its way exactly when
      the job is still preparing; in any other status preparing is a no-op. */
  lemma CrashRepairedIff(st: State, b: Batch)
    requires Reached(st) && st.flight.Some? && (exists id, e :: PlanPending(st, id, e)) && BatchOf(b, Queue(st.source))
    ensures OnItsWay(Prepare(Step(st, Crash), b)) <==> st.job.status == Preparing
  {
    hide Inv, Emails, PlanPending, Queue, Launch, OnItsWay;
    ReachableInv(st);
    var down := Step(st, Crash);
    StepInv(st, Crash);
    TilesOf(b, Queue(st.source));
    if st.job.status == Preparing {
      PrepareInv(down, b);
      LaunchFields(down, b, true);
    } else {
      LostByCrash(st);
    }
  }

  lemma LostByCrash(st: State)
    requires Inv(st) && st.flight.Some? && exists id, e :: PlanPending(st, id, e)
    ensures !OnItsWay(st.(flight := None))
  {
    hide Inv, Emails, PlanPending, FlightOk;
    FlightNow(st);
    var st' := st.(flight := None);
    var id, e :| PlanPending(st, id, e);
    PendingNowhere(st, id, e);
    NothingPending(st');
    assert Rowed(st') == Rowed(st) && SentTo(st', id) == SentTo(st, id) && !PlanPending(st', id, e);
  }

  /** Address `e` of task `id` has no row, was never sent, and nothing is left that would send it. */
  ghost predicate Stranded(st: State, id: TaskId, e: Email) {
    && !st.deleted && st.flight == None && st.job.status in {Pending, Processing, Paused}
    && id in st.tasks && e in st.tasks[id].emails && e !in Rowed(st) && e !in SentTo(st, id)
  }

  /** A stranded address stays so, and its job stays unfinished, under every step but resume and deletion. */
  lemma StrandedStep(st: State, ev: Event, id: TaskId, e: Email)
    requires Inv(st) && Stranded(st, id, e) && Legal(st, ev) && !ev.ResumeEv? && !ev.DeleteEv?
    ensures Stranded(Step(st, ev), id, e)
  {
    hide Inv, Queue, Emails, Refund, BatchOf, Launch, Remaining, Recount, Report, Reclaim, RiskyRefund, Reconcile, Rowed;
    match ev
    case ReportEv(k, server, results) => StrandedReport(st, k, server, results, id, e);
    case ReclaimEv(servers, watchdog) => ReclaimReleases(st, servers, watchdog); StrandedReclaim(st, servers, watchdog, id, e);
    case PauseEv => SameRowed(st, Pause(st));
    case RiskyCheck => RiskyCheckIdentity(st);
    case ReconcileEv => ReconcileIdentityIff(st);
    case OtherActivity(balance) => SameRowed(st, st.(credits := balance));
    case _ =>
  }

  lemma SameRowed(a: State, b: State)
    requires a.rows == b.rows
    ensures Rowed(a) == Rowed(b)
  {
  }

  lemma StrandedReclaim(st: State, servers: set<string>, watchdog: bool, id: TaskId, e: Email)
    requires Stranded(st, id, e)
    ensures Stranded(Reclaim(st, servers, watchdog), id, e)
  {
    hide Emails;
  }

  lemma StrandedReport(st: State, k: TaskId, server: string, results: seq<Row>, id: TaskId, e: Email)
    requires Inv(st) && Stranded(st, id, e) && Legal(st, ReportEv(k, server, results))
    ensures Stranded(Report(st, k, server, results), id, e)
  {
    hide Inv, Emails, Advance, Report, Fresh;
    if k !in st.tasks || st.tasks[k].status !in {Queued, Running} {
      InertUnless(st, k, server, results);
    } else {
      ReportEffect(st, k, server, results);
      AdvanceFields(st.job, Fresh(results, Emails(st.rows)));
      NotReported(st, k, results, id, e);
      StepInv(st, ReportEv(k, server, results));
      UnansweredUnfinished(Report(st, k, server, results), id, e);
    }
  }

  lemma InertUnless(st: State, k: TaskId, server: string, results: seq<Row>)
    requires k !in st.tasks || st.tasks[k].status !in {Queued, Running}
    ensures Report(st, k, server, results) == st
  {
  }

  lemma NotReported(st: State, k: TaskId, results: seq<Row>, id: TaskId, e: Email)
    requires Inv(st) && Stranded(st, id, e) && k in st.tasks && Emails(results) <= SentTo(st, k)
    ensures e !in Emails(results)
  {
    hide Inv, Emails;
    TaskParts(st);
    if e in SentTo(st, k) { SentUnderOwnTask(st, k, id, e); }
  }

  lemma UnansweredUnfinished(st: State, id: TaskId, e: Email)
    requires Inv(st) && !st.deleted && id in st.tasks && e in st.tasks[id].emails && e !in Rowed(st)
    ensures st.job.status != Completed
  {
    hide Queue, Emails, Summary, Recount, Normalize;
    assert st.tasks[id].emails <= Wanted(st);
  }

  /** Once stranded, an address is never answered and its job never completes, until it is resumed or deleted. */
  lemma {:induction false} StrandedForGood(st: State, evs: seq<Event>, id: TaskId, e: Email)
    requires GoodRun(st, evs) && Stranded(st, id, e) && forall ev | ev in evs :: !ev.ResumeEv? && !ev.DeleteEv?
    ensures Stranded(Run(st, evs), id, e)
    decreases |evs|
  {
    hide Inv, Legal, Step, Stranded;
    if evs != [] {
      StepInv(st, evs[0]);
      StrandedStep(st, evs[0], id, e);
      StrandedForGood(Step(st, evs[0]), evs[1..], id, e);
    }
  }

  /** And both steps that lose mail do strand an address in that sense. */
  lemma StrandsSome(st: State, ev: Event) returns (id: TaskId, e: Email)
    requires Inv(st) && Legal(st, ev) && Strands(st, ev)
    ensures Stranded(Step(st, ev), id, e)
  {
    hide Inv, Emails, PlanPending, FlightOk, OnItsWay, Report;
    if ev == Crash {
      FlightNow(st);
      id, e :| PlanPending(st, id, e);
      PendingNowhere(st, id, e);
      SameRowed(st, Step(st, ev));
    } else {
      id, e := StrandsReport(st, ev.task, ev.server, ev.results);
    }
  }

  lemma StrandsReport(st: State, k: TaskId, server: string, results: seq<Row>) returns (id: TaskId, e: Email)
    requires Inv(st) && Legal(st, ReportEv(k, server, results)) && Strands(st, ReportEv(k, server, results))
    ensures Stranded(Report(st, k, server, results), id, e)
  {
    hide Inv, Emails, Advance, Report, Fresh, PlanPending, Wanted, Settled, TasksOk;
    NotPreparingDeleted(st);
    id, e :| id in st.tasks && e in st.tasks[id].emails && e !in Rowed(st) && e !in SentTo(st, id);
    ReportEffect(st, k, server, results);
    AdvanceFields(st.job, Fresh(results, Emails(st.rows)));
    TaskParts(st);
    if e in SentTo(st, k) { SentUnderOwnTask(st, k, id, e); }
    StepInv(st, ReportEv(k, server, results));
    UnansweredUnfinished(Report(st, k, server, results), id, e);
  }

  lemma NotPreparingDeleted(st: State)
    requires Inv(st) && st.tasks != map[]
    ensures !st.deleted
  {
    hide SourceOk, LiveOk, Summary;
  }

  /** The first new rows of a batch report end `preparing` even while chunks are still being queued, and from then on
      a repeated preparation does nothing: a crash after that report is not recovered by preparing again. */
  lemma ReportEndsPreparing(st: State, id: TaskId, server: string, results: seq<Row>, b: Batch)
    requires Reached(st) && st.job.status == Preparing && results != []
    requires id in st.tasks && st.tasks[id].status in {Queued, Running} && BatchOf(b, Queue(st.source))
    ensures var st' := Report(st, id, server, results).(flight := None);
            Fresh(results, Emails(st.rows)) != [] <==> st'.job.status != Preparing && Prepare(st', b) == st'
  {
    hide Inv, Queue, Emails, Fresh, Advance, Report, Launch, BatchOf;
    ReportEffect(st, id, server, results);
    AdvanceFields(st.job, Fresh(results, Emails(st.rows)));
    TilesOf(b, Queue(st.source));
  }

  lemma TilesOf(b: Batch, list: seq<Email>)
    requires BatchOf(b, list)
    ensures Tiles(b.chunks, |b.ordered|)
  {
  }
}
