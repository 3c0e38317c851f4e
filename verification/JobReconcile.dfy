/** Reconciliation at any moment: it never pays, and what it may spoil is a job with nothing answered. */
module JobReconcile {
  import opened Text
  import opened Verdicts
  import opened BulkQueue
  import opened JobState
  import opened JobRows
  import opened JobInvariant
  import opened JobSteps
  import opened JobHistory

  // ---------------------------------------------------------------- runs that reconcile at any moment

  ghost predicate AnyLegal(st: State, ev: Event) {
    ev.ReconcileEv? || Legal(st, ev)
  }

  ghost function AnyStep(st: State, ev: Event): State
    requires AnyLegal(st, ev)
  {
    if ev.ReconcileEv? then Reconcile(st) else Step(st, ev)
  }

  ghost predicate AnyLegalRun(st: State, evs: seq<Event>)
    decreases |evs|
  {
    evs == [] || (AnyLegal(st, evs[0]) && AnyLegalRun(AnyStep(st, evs[0]), evs[1..]))
  }

  ghost function AnyRun(st: State, evs: seq<Event>): State
    requires AnyLegalRun(st, evs)
    decreases |evs|
  {
    if evs == [] then st else AnyRun(AnyStep(st, evs[0]), evs[1..])
  }

  ghost predicate AnyRunsTo(s: Submission, evs: seq<Event>, st: State) {
    Submit(s).Created? && AnyLegalRun(Submit(s).state, evs) && AnyRun(Submit(s).state, evs) == st
  }

  // ---------------------------------------------------------------- sound and hollow jobs

  /** Rows come only from tasks. */
  ghost predicate Bare(st: State) {
    !st.deleted && st.tasks == map[] ==> st.rows == []
  }

  ghost predicate Sound(st: State) {
    Inv(st) && Bare(st)
  }

  /** A preparing or failed job without tasks that has been declared completed. */
  ghost predicate Hollow(st: State) {
    && !st.deleted && st.flight == None && st.tasks == map[] && st.rows == [] && st.job.status == Completed
    && (Inv(st.(job := st.job.(status := Preparing))) || Inv(st.(job := st.job.(status := Failed))))
  }

  lemma KeysKept(tasks: map<TaskId, Task>)
    ensures AllBroken(tasks) == map[] <==> tasks == map[]
  {
    BrokenTasks(tasks);
    assert forall t: map<TaskId, Task> :: t.Keys == {} <==> t == map[];
  }

  lemma RefundBare(st: State, credits: nat)
    requires Bare(st)
    ensures Bare(Refund(st, credits))
  {
    KeysKept(st.tasks);
  }

  lemma RollbackBare(st: State, written: seq<Email>, credits: nat)
    requires st.tasks != map[]
    ensures Bare(Rollback(st, written, credits))
  {
    hide Without, Recount;
    KeysKept(st.tasks);
    KeysKept(AllBroken(st.tasks));
  }

  lemma FailWriteBare(st: State)
    requires Inv(st) && st.flight.Some?
    ensures Bare(FailWrite(st))
  {
    hide Inv, Rollback, Without;
    FlightHasTasks(st);
    RollbackBare(st.(flight := None), st.flight.value.written, st.flight.value.queued);
  }

  lemma WriteBare(st: State)
    requires Inv(st) && st.flight.Some? && st.flight.value.toWrite != []
    ensures Bare(WriteHits(st))
  {
    hide Inv, Advance, RowAddresses, Push;
    FlightHasTasks(st);
    var id :| id in st.tasks;
    assert id in WriteHits(st).tasks;
  }

  lemma PrepareBare(st: State, b: Batch)
    requires Inv(st) && Legal(st, PrepareEv(b)) && Bare(st)
    ensures Bare(Prepare(st, b))
  {
    hide Queue, Summary, Normalize, Recount, Emails, NewTasks, Plans, TasksOk, CoverOk, ProgressOk;
  }

  lemma RequeueBare(st: State, charge: bool, b: Batch)
    requires Inv(st) && BatchOf(b, Remaining(st.source, st.rows)) && Bare(st)
    ensures Bare(Requeue(st, charge, b))
  {
    hide Inv, Queue, Remaining, Launch;
    RequeueInv(st, charge, b);
    if Requeue(st, charge, b) != st {
      RequeueStarts(st, charge, b);
      FlightHasTasks(Requeue(st, charge, b));
    }
  }

  /** A resume or retry that changes anything starts an enqueue. */
  lemma RequeueStarts(st: State, charge: bool, b: Batch)
    requires Inv(st) && BatchOf(b, Remaining(st.source, st.rows)) && Requeue(st, charge, b) != st
    ensures Requeue(st, charge, b).flight.Some?
  {
    hide Inv, Queue, Remaining, NewTasks, Plans;
    RemainingNeverEmpty(st);
  }

  lemma ReportBare(st: State, id: TaskId, server: string, results: seq<Row>)
    requires Bare(st)
    ensures Bare(Report(st, id, server, results))
  {
    hide Emails, Fresh, Advance, Push;
    if Report(st, id, server, results) != st {
      assert id in Report(st, id, server, results).tasks;
    }
  }

  lemma ReclaimBare(st: State, servers: set<string>, watchdog: bool)
    requires Bare(st)
    ensures Bare(Reclaim(st, servers, watchdog))
  {
    if id :| id in st.tasks {
      assert id in Reclaim(st, servers, watchdog).tasks;
    }
  }

  lemma SoundStep(st: State, ev: Event)
    requires Sound(st) && Legal(st, ev)
    ensures Sound(Step(st, ev))
  {
    hide Inv, Queue, Report, Refund, Prepare, WriteHits, FailWrite, Reclaim, Requeue, DeleteRefundAmount, RiskyRefund,
         Reconcile, BatchOf, Remaining, Emails;
    StepInv(st, ev);
    match ev
    case SubmitFails => RefundBare(st, |Queue(st.source)|);
    case PrepareEv(b) => PrepareBare(st, b);
    case PrepareFails => RefundBare(st, MaxInt(st.job.total - st.job.invalidSyntax, 0));
    case SendFails => RefundBare(st.(flight := None), st.flight.value.queued);
    case WriteEv => WriteBare(st);
    case WriteFails => FailWriteBare(st);
    case ReportEv(id, server, results) => ReportBare(st, id, server, results);
    case ReclaimEv(servers, watchdog) => ReclaimBare(st, servers, watchdog);
    case ResumeEv(b) => RequeueBare(st, false, b);
    case RetryEv(b) => RequeueBare(st, true, b);
    case RiskyCheck => RiskyCheckIdentity(st);
    case ReconcileEv => ReconcileIdentityIff(st);
    case _ =>
  }

  /** With nothing answered and no tasks, only a preparing or a failed job is unfinished. */
  lemma NothingQueued(st: State)
    requires Sound(st) && !st.deleted && st.tasks == map[] && st.job.status != Completed
    ensures st.job.status in {Preparing, Failed} && st.flight == None && st.rows == [] && st.job.tally.risky == 0
  {
    hide Queue, Emails, Summary, Normalize;
    if st.flight.Some? { FlightHasTasks(st); }
    EmptyRows();
    if Active(st.job.status) {
      Unanswered(st);
      var e :| e in Wanted(st) - Rowed(st);
      assert !InSomeTask(st, e);
    }
  }

  lemma ReconcileEmpty(st: State)
    requires !st.deleted && st.tasks == map[] && st.job.tally.risky == 0 && st.job.status != Completed
    ensures Reconcile(st) == st.(job := st.job.(status := Completed))
  {
    hide Requeued, CountTasks;
    CountNone(st.tasks, Queued);
    CountNone(st.tasks, Running);
    CountNone(st.tasks, Broken);
    NoneRequeued();
  }

  /** On a sound job reconciliation either does nothing, or declares a preparing or failed job without tasks completed;
      in no case does it pay anything. */
  lemma ReconcileSound(st: State)
    requires Sound(st)
    ensures var acts := !st.deleted && st.tasks == map[] && st.job.status in {Preparing, Failed};
            && (if acts then Hollow(Reconcile(st)) else Reconcile(st) == st)
            && Reconcile(st).ledger == st.ledger && Reconcile(st).credits == st.credits
  {
    hide Inv, Reconcile;
    ReconcileIdentityIff(st);
    if !st.deleted && st.tasks == map[] && st.job.status != Completed {
      NothingQueued(st);
      ReconcileEmpty(st);
      var h := Reconcile(st);
      assert h.(job := h.job.(status := st.job.status)) == st;
    }
  }

  // ---------------------------------------------------------------- steps of a hollow job

  lemma HollowRisky(st: State)
    requires Hollow(st)
    ensures st.job.tally.risky == 0
  {
    hide Queue, Emails, Summary, Normalize, SourceOk, StatusOk, TasksOk, CoverOk, ProgressOk, BillOk, FlightOk;
  }

  /** The job before it was declared completed. */
  ghost function Before(st: State): State {
    var p := st.(job := st.job.(status := Preparing));
    if Inv(p) then p else st.(job := st.job.(status := Failed))
  }

  lemma HollowReconcile(st: State)
    requires Hollow(st)
    ensures Reconcile(st) == st
  {
    hide Inv, Requeued, CountTasks;
    NoneRequeued();
  }

  /** The charge of a hollow job can still be given back only by the submission that has not heard of its own success. */
  lemma HollowRefund(st: State)
    requires Hollow(st) && Legal(st, SubmitFails)
    ensures Sound(Refund(st, |Queue(st.source)|))
  {
    hide Inv, Queue, Emails;
    var b := Before(st);
    SameRefund(st, b, |Queue(st.source)|);
    OnlyCharged(b);
    assert Legal(b, SubmitFails);
    SubmitFailsInv(b);
    RefundBare(b, |Queue(st.source)|);
  }

  lemma SameRefund(st: State, b: State, credits: nat)
    requires !st.deleted && b == st.(job := b.job) && b.job == st.job.(status := b.job.status)
    ensures Refund(b, credits) == Refund(st, credits)
  {
  }

  /** A job with one entry on record has not been refunded. */
  lemma OnlyCharged(st: State)
    requires Inv(st) && !st.deleted && |st.ledger| == 1
    ensures st.job.status != Failed
  {
    hide Queue, Emails, Summary, Normalize, Recount, SourceOk, StatusOk, TasksOk, CoverOk, ProgressOk, FlightOk;
    SingleEntry(st.ledger);
  }

  lemma HollowDelete(st: State)
    requires Hollow(st)
    ensures Sound(Delete(st)) && Delete(st) == st.(deleted := true)
  {
    hide Inv, Hollow, Before, Delete;
    HollowFields(st);
    HollowAccount(st);
    DeleteFinished(st);
    DeletedSource(Before(st), Delete(st));
  }

  lemma DeleteFinished(st: State)
    requires !st.deleted && st.job.status == Completed && st.rows == [] && st.tasks == map[]
    ensures Delete(st) == st.(deleted := true)
  {
    hide DeleteRefundAmount;
  }

  lemma DeletedSource(b: State, d: State)
    requires Inv(b) && !b.deleted && d.deleted && d.flight == None && d.rows == [] && d.tasks == map[]
    requires d == b.(job := b.job.(status := d.job.status), deleted := true, flight := None, rows := [], tasks := map[])
    ensures Inv(d)
  {
    hide Queue, Emails, Normalize, Summary, Recount;
  }

  lemma HollowOther(st: State, balance: nat)
    requires Hollow(st)
    ensures Hollow(st.(credits := balance))
  {
    hide Inv;
    var b := Before(st);
    OtherInv(b, balance);
    assert b.(credits := balance) == st.(job := b.job, credits := balance);
  }

  /** A hollow job stays as it is, charged and unanswered, until it is deleted or its submission is taken back. */
  lemma HollowStep(st: State, ev: Event)
    requires Hollow(st) && Legal(st, ev)
    ensures var st' := Step(st, ev);
            && (ev == SubmitFails || ev == DeleteEv ==> Sound(st'))
            && (ev != SubmitFails && ev != DeleteEv ==> Hollow(st') && st' == st.(credits := st'.credits))
            && (!ev.OtherActivity? && ev != SubmitFails ==> st'.credits == st.credits)
  {
    hide Inv, Queue, Emails, Refund, Reclaimed, Launch, Remaining, BatchOf, Reconcile, Hollow, Delete;
    HollowFields(st);
    match ev
    case SubmitFails => HollowRefund(st);
    case ReclaimEv(servers, watchdog) => assert Reclaimed(map[], servers) == map[] by { NoneReclaimed(servers); }
    case DeleteEv => HollowDelete(st);
    case RiskyCheck => HollowRisky(st);
    case ReconcileEv => HollowReconcile(st);
    case OtherActivity(balance) => HollowOther(st, balance);
    case _ =>
  }

  lemma HollowFields(st: State)
    requires Hollow(st)
    ensures !st.deleted && st.flight == None && st.tasks == map[] && st.rows == [] && st.job.status == Completed
  {
    hide Inv;
  }

  lemma NoneReclaimed(servers: set<string>)
    ensures Reclaimed(map[], servers) == map[]
  {
  }

  // ---------------------------------------------------------------- over every run

  lemma AnyStepInv(st: State, ev: Event)
    requires (Sound(st) || Hollow(st)) && AnyLegal(st, ev)
    ensures Sound(AnyStep(st, ev)) || Hollow(AnyStep(st, ev))
  {
    hide Sound, Hollow, Legal, Step, Reconcile;
    if ev.ReconcileEv? {
      if Sound(st) { ReconcileSound(st); } else { HollowReconcile(st); }
    } else if Sound(st) {
      SoundStep(st, ev);
    } else {
      HollowStep(st, ev);
    }
  }

  lemma {:induction false} AnyRunInv(st: State, evs: seq<Event>)
    requires (Sound(st) || Hollow(st)) && AnyLegalRun(st, evs)
    ensures Sound(AnyRun(st, evs)) || Hollow(AnyRun(st, evs))
    decreases |evs|
  {
    hide Sound, Hollow, AnyLegal, AnyStep;
    if evs != [] {
      AnyStepInv(st, evs[0]);
      AnyRunInv(AnyStep(st, evs[0]), evs[1..]);
    }
  }

  /** With reconciliation at any moment a job satisfies the invariant, or has been declared completed with nothing answered. */
  lemma SoundOrHollow(s: Submission, evs: seq<Event>, st: State)
    requires AnyRunsTo(s, evs, st)
    ensures Sound(st) || Hollow(st)
  {
    hide Inv, Accept, AnyLegalRun, AnyRun;
    AcceptedInv(s.emails, s.credits, s.active, s.maxEmails, s.maxActive);
    AcceptedBare(s);
    AnyRunInv(Submit(s).state, evs);
  }

  lemma AcceptedBare(s: Submission)
    requires Submit(s).Created?
    ensures Bare(Submit(s).state)
  {
    hide Queue, Deduped;
  }

  /** Unknown results are paid back at most once in a job's life, whenever it is reconciled, retried or deleted;
      and reconciliation, which pays without a look at the ledger, never pays at all. */
  lemma UnknownRefundAtMostOnce(s: Submission, evs: seq<Event>, st: State)
    requires AnyRunsTo(s, evs, st)
    ensures Summary(st.ledger).unknownRefunds <= 1 && st.credits >= 0
    ensures Reconcile(st).ledger == st.ledger && Reconcile(st).credits == st.credits
  {
    hide AnyRunsTo, Inv, Bare, Hollow, Reconcile, Summary;
    SoundOrHollow(s, evs, st);
    if Sound(st) {
      ReconcileSound(st);
      AtMostOne(st);
    } else {
      HollowReconcile(st);
      HollowAccount(st);
      AtMostOne(Before(st));
    }
  }

  lemma AtMostOne(st: State)
    requires Inv(st)
    ensures Summary(st.ledger).unknownRefunds <= 1 && st.credits >= 0
  {
    hide Queue, Emails, Summary, Recount;
  }

  lemma HollowAccount(st: State)
    requires Hollow(st)
    ensures Inv(Before(st)) && Before(st).ledger == st.ledger && Before(st).credits == st.credits
    ensures !Before(st).deleted && st == Before(st).(job := Before(st).job.(status := Completed))
  {
    hide Inv;
  }

  /** Every counter still equals a recount, and each address has at most one row. */
  lemma CountersAnyway(s: Submission, evs: seq<Event>, st: State)
    requires AnyRunsTo(s, evs, st) && !st.deleted
    ensures RowsOk(st)
  {
    hide AnyRunsTo, Bare, Hollow, Queue, Emails, Normalize, Recount, Summary;
    SoundOrHollow(s, evs, st);
    if !Sound(st) {
      HollowAccount(st);
      SameCounters(Before(st), st);
    }
  }

  lemma SameCounters(b: State, st: State)
    requires Inv(b) && !b.deleted && st == b.(job := b.job.(status := st.job.status))
    ensures RowsOk(st)
  {
    hide Queue, Emails, Normalize, Recount, Summary;
  }
}
