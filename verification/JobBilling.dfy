/** What a bulk job costs its owner. */
module JobBilling {
  import opened Text
  import opened Verdicts
  import opened BulkQueue
  import opened JobState
  import opened JobRows
  import opened JobInvariant
  import opened JobSteps
  import opened JobHistory
  import opened JobOutcome

  /** The credits taken for this job, on balance. */
  function Net(st: State): int {
    Summary(st.ledger).net
  }

  function Charges(st: State): nat {
    Summary(st.ledger).charges
  }

  /** The stored answers worth paying for. */
  function KnownAnswers(st: State): int {
    |st.rows| - CountIf(Risky, st.rows)
  }

  // ---------------------------------------------------------------- the owner's balance

  /** What happens to the balance for other reasons, over a run. */
  ghost function OtherGain(st: State, evs: seq<Event>): int
    requires LegalRun(st, evs)
    decreases |evs|
  {
    if evs == [] then 0
    else (if evs[0].OtherActivity? then evs[0].balance - st.credits else 0) + OtherGain(Step(st, evs[0]), evs[1..])
  }

  lemma RefundBalance(st: State, credits: nat)
    ensures Refund(st, credits).credits + Net(Refund(st, credits)) == st.credits + Net(st)
  {
    hide Summary;
    SummarySnoc(st.ledger, FullRefund(credits));
  }

  lemma RiskyRefundBalance(st: State)
    ensures RiskyRefund(st).credits + Net(RiskyRefund(st)) == st.credits + Net(st)
  {
    hide Summary;
    SummarySnoc(st.ledger, UnknownRefund(st.job.tally.risky));
  }

  lemma RollbackBalance(st: State, written: seq<Email>, credits: nat)
    ensures Rollback(st, written, credits).credits + Net(Rollback(st, written, credits)) == st.credits + Net(st)
  {
    hide Summary, Without, Recount;
    SummarySnoc(st.ledger, FullRefund(credits));
  }

  lemma RequeueBalance(st: State, charge: bool, b: Batch)
    requires Tiles(b.chunks, |b.ordered|)
    ensures Requeue(st, charge, b).credits + Net(Requeue(st, charge, b)) == st.credits + Net(st)
  {
    hide Summary, Remaining, Queue, NewTasks, Plans;
    SummarySnoc(st.ledger, Charge(|Remaining(st.source, st.rows)|));
  }

  lemma WriteBalance(st: State)
    requires st.flight.Some? && st.flight.value.toWrite != []
    ensures WriteHits(st).credits + Net(WriteHits(st)) == st.credits + Net(st)
  {
    hide Summary, Advance, Push, RiskyRefund, RowAddresses;
    var p := st.flight.value.toWrite[0];
    RiskyRefundBalance(st.(rows := st.rows + p.hits, job := Advance(st.job, p.hits),
                           tasks := if p.task in st.tasks then st.tasks[p.task := Push(st.tasks[p.task], |p.hits|)] else st.tasks));
  }

  lemma ReportBalance(st: State, id: TaskId, server: string, results: seq<Row>)
    ensures Report(st, id, server, results).credits + Net(Report(st, id, server, results)) == st.credits + Net(st)
  {
    hide Summary, Advance, Push, RiskyRefund, Fresh, Emails;
    if id in st.tasks {
      var added := Fresh(results, Emails(st.rows));
      RiskyRefundBalance(st.(rows := st.rows + added, job := Advance(st.job, added),
                             tasks := st.tasks[id := Push(Claim(st.tasks[id], server), |added|).(worker := server)]));
    }
  }

  lemma DeleteBalance(st: State)
    ensures Delete(st).credits + Net(Delete(st)) == st.credits + Net(st)
  {
    hide Summary, DeleteRefundAmount;
    SummarySnoc(st.ledger, DeleteRefund(DeleteRefundAmount(st)));
  }

  lemma ReconcileBalance(st: State)
    ensures Reconcile(st).credits + Net(Reconcile(st)) == st.credits + Net(st)
  {
    hide Summary, Requeued, CountTasks;
    SummarySnoc(st.ledger, UnknownRefund(st.job.tally.risky));
  }

  /** No step of the job moves the owner's balance without its ledger entry, or the other way round. */
  lemma BalanceStep(st: State, ev: Event)
    requires Legal(st, ev) && !ev.OtherActivity?
    ensures Step(st, ev).credits + Net(Step(st, ev)) == st.credits + Net(st)
  {
    hide Summary, Refund, RiskyRefund, Rollback, Requeue, WriteHits, Report, Delete, Reconcile, Queue, Without, NewTasks,
         Plans, BatchOf, Remaining;
    match ev
    case SubmitFails => RefundBalance(st, |Queue(st.source)|);
    case PrepareFails => RefundBalance(st, MaxInt(st.job.total - st.job.invalidSyntax, 0));
    case SendFails => RefundBalance(st.(flight := None), st.flight.value.queued);
    case WriteEv => WriteBalance(st);
    case WriteFails => RollbackBalance(st.(flight := None), st.flight.value.written, st.flight.value.queued);
    case ReportEv(id, server, results) => ReportBalance(st, id, server, results);
    case PrepareEv(b) => TilesOfBatch(b, Queue(st.source));
    case ResumeEv(b) => TilesOfBatch(b, Remaining(st.source, st.rows)); RequeueBalance(st, false, b);
    case RetryEv(b) => TilesOfBatch(b, Remaining(st.source, st.rows)); RequeueBalance(st, true, b);
    case DeleteEv => DeleteBalance(st);
    case RiskyCheck => RiskyRefundBalance(st);
    case ReconcileEv => ReconcileBalance(st);
    case _ =>
  }

  lemma TilesOfBatch(b: Batch, list: seq<Email>)
    requires BatchOf(b, list)
    ensures Tiles(b.chunks, |b.ordered|)
  {
  }

  lemma {:induction false} BalanceRun(st: State, evs: seq<Event>)
    requires LegalRun(st, evs)
    ensures Run(st, evs).credits + Net(Run(st, evs)) == st.credits + Net(st) + OtherGain(st, evs)
    decreases |evs|
  {
    hide Legal, Step, Net;
    if evs != [] {
      if evs[0].OtherActivity? {
        OtherKeepsNet(st, evs[0]);
      } else {
        BalanceStep(st, evs[0]);
      }
      BalanceRun(Step(st, evs[0]), evs[1..]);
    }
  }

  lemma OtherKeepsNet(st: State, ev: Event)
    requires Legal(st, ev) && ev.OtherActivity?
    ensures Step(st, ev).credits == ev.balance && Net(Step(st, ev)) == Net(st)
  {
  }

  /** What the job has cost its owner since acceptance: the balance brought along and gained elsewhere, less what is left. */
  ghost function Cost(s: Submission, evs: seq<Event>, end: State): int
    requires RunsTo(s, evs, end)
  {
    s.credits + OtherGain(Submit(s).state, evs) - end.credits
  }

  /** The cost to the balance is what the ledger says, over every run. */
  lemma CostIsNet(s: Submission, evs: seq<Event>, end: State)
    requires RunsTo(s, evs, end)
    ensures Cost(s, evs, end) == Net(end)
  {
    hide LegalRun, Run, OtherGain, Queue, Deduped, Summary;
    var st := Submit(s).state;
    BalanceRun(st, evs);
    SummarySnoc([], Charge(|Queue(st.source)|));
    assert [] + [Charge(|Queue(st.source)|)] == [Charge(|Queue(st.source)|)];
    NoEntries();
  }

  lemma NoEntries()
    ensures Summary([]).net == 0
  {
  }

  // ---------------------------------------------------------------- jobs never retried

  /** A job never retried has the whole list charged while it is active, nothing once it failed,
      and one credit per known answer once it is completed. */
  lemma BillingExact(st: State)
    requires Reached(st) && Charges(st) == 1
    ensures Active(st.job.status) ==> Net(st) == st.job.total - st.job.invalidSyntax
    ensures st.job.status == Failed ==> Net(st) == 0
    ensures st.job.status == Completed ==> Net(st) == KnownAnswers(st)
  {
    hide Queue, Emails, Summary, CountIf, Normalize;
    ReachableInv(st);
    WantedCount(st);
    RowCount(st.rows);
  }

  /** The same on the owner's balance. */
  lemma CostExact(s: Submission, evs: seq<Event>, st: State)
    requires RunsTo(s, evs, st) && !st.deleted && Charges(st) == 1
    ensures Active(st.job.status) ==> Cost(s, evs, st) == st.job.total - st.job.invalidSyntax
    ensures st.job.status == Failed ==> Cost(s, evs, st) == 0
    ensures st.job.status == Completed ==> Cost(s, evs, st) == KnownAnswers(st)
  {
    hide RunsTo, Cost, Net, Charges, KnownAnswers;
    assert Reached(st);
    BillingExact(st);
    CostIsNet(s, evs, st);
  }

  /** The clamps of the deletion refund are never needed: it is the charge less the known answers, and positive. */
  lemma DeleteClampsDead(st: State)
    requires Reached(st) && st.job.status == Paused
    ensures DeleteRefundAmount(st) == st.job.total - st.job.invalidSyntax - KnownAnswers(st) > 0
  {
    hide Queue, Emails, Summary, CountIf, Normalize;
    ReachableInv(st);
    WantedCount(st);
  }

  lemma DeletePausedNet(st: State)
    requires Reached(st) && st.job.status == Paused
    ensures Delete(st).deleted
    ensures Net(Delete(st)) == Summary(st.ledger).lastCharge - (st.job.total - st.job.invalidSyntax) + KnownAnswers(st)
  {
    hide Queue, Emails, Summary, CountIf, Normalize, DeleteRefundAmount;
    ReachableInv(st);
    DeleteClampsDead(st);
    SummarySnoc(st.ledger, DeleteRefund(DeleteRefundAmount(st)));
  }

  /** Deleting a never-retried job while it is paused leaves one credit per known answer taken, for good. */
  lemma DeletePausedExact(st: State, evs: seq<Event>)
    requires Reached(st) && st.job.status == Paused && Charges(st) == 1
    requires st.flight == None && LegalRun(Delete(st), evs)
    ensures Net(Run(Delete(st), evs)) == KnownAnswers(st)
  {
    hide Queue, Emails, Summary, CountIf, Normalize, DeleteRefundAmount, Delete, Inv;
    DeletePausedNet(st);
    ReachableInv(st);
    DeleteInv(st);
    OneCharge(st);
    DeletedStays(Delete(st), evs);
  }

  /** The same on the owner's balance: after the deletion and whatever follows, the job has cost its known answers. */
  lemma DeletePausedCost(s: Submission, before: seq<Event>, st: State, after: seq<Event>)
    requires RunsTo(s, before, st) && !st.deleted && st.job.status == Paused && Charges(st) == 1
    requires st.flight == None && LegalRun(Delete(st), after)
    ensures Run(Delete(st), after).credits
         == s.credits + OtherGain(Submit(s).state, before) + OtherGain(Delete(st), after) - KnownAnswers(st)
  {
    hide RunsTo, LegalRun, Run, Net, Charges, KnownAnswers, Delete;
    assert Reached(st);
    CostIsNet(s, before, st);
    DeleteBalance(st);
    BalanceRun(Delete(st), after);
    DeletePausedExact(st, after);
    CostFields(s, before, st);
  }

  lemma CostFields(s: Submission, evs: seq<Event>, st: State)
    requires RunsTo(s, evs, st)
    ensures LegalRun(Submit(s).state, evs)
    ensures Cost(s, evs, st) == s.credits + OtherGain(Submit(s).state, evs) - st.credits
  {
  }

  lemma OneCharge(st: State)
    requires Inv(st) && !st.deleted && Charges(st) == 1
    ensures Summary(st.ledger).lastCharge == st.job.total - st.job.invalidSyntax
  {
    hide Queue, Emails, Summary, CountIf, Normalize;
    WantedCount(st);
  }

  // ---------------------------------------------------------------- retried jobs

  /** A retried job that completes costs its last charge; its unknown answers are not paid back. The price is one credit
      per known answer exactly when as many answers were stored before the last retry as are unknown in the end. */
  lemma RetriedCompletedIff(st: State)
    requires Reached(st) && Charges(st) > 1 && st.job.status == Completed
    ensures Net(st) == Summary(st.ledger).lastCharge && Summary(st.ledger).unknownRefunds == 0
    ensures Net(st) == KnownAnswers(st) <==>
            st.job.total - st.job.invalidSyntax - Summary(st.ledger).lastCharge == st.job.tally.risky
  {
    hide Queue, Emails, Summary, CountIf, Normalize;
    ReachableInv(st);
    WantedCount(st);
    RowCount(st.rows);
  }

  /** Unknown answers are paid back on completion exactly when no other refund is on record. */
  lemma UnknownPaidBackIff(st: State)
    requires Reached(st) && st.job.status == Completed
    ensures Summary(st.ledger).unknownRefunds == 1 <==> st.job.tally.risky > 0 && Summary(st.ledger).fullRefunds == 0
  {
    hide Queue, Emails, Summary, CountIf, Normalize;
    ReachableInv(st);
  }

  /** Deleting a paused job is exact exactly when the last charge covered the whole list; after a partial retry
      it pays back too much. */
  lemma DeletePausedIff(st: State)
    requires Reached(st) && st.job.status == Paused
    ensures Net(Delete(st)) == KnownAnswers(st) <==> Summary(st.ledger).lastCharge == st.job.total - st.job.invalidSyntax
  {
    hide Queue, Emails, Summary, CountIf, Normalize, DeleteRefundAmount, Delete;
    DeletePausedNet(st);
  }

  // ---------------------------------------------------------------- the whole life of a job

  /** A run from acceptance that ends completed, brings in only what the oracle says and was charged once. */
  ghost predicate PaidOnce(v: Oracle, s: Submission, evs: seq<Event>, end: State) {
    && RunsTo(s, evs, end) && (forall ev | ev in evs :: Truthful(v, ev))
    && !end.deleted && end.job.status == Completed && Charges(end) == 1
  }

  /** Whatever happened between acceptance and completion - delivery order, repetition, pauses, resumes, reclaims -
      the same list with the same answers ends with the same rows and record, at the same price. */
  lemma SamePriceSameOutcome(v: Oracle, s: Submission, one: seq<Event>, two: seq<Event>, a: State, b: State)
    requires PaidOnce(v, s, one, a) && PaidOnce(v, s, two, b)
    ensures multiset(a.rows) == multiset(b.rows) && a.job == b.job
    ensures Cost(s, one, a) == Cost(s, two, b) == Net(a) == Net(b) == KnownAnswers(a)
  {
    hide Inv, Accept, Run, LegalRun, Truthful, Queue, CountIf, AnswersTo, FinishedJob, Summary;
    AcceptedInv(s.emails, s.credits, s.active, s.maxEmails, s.maxActive);
    NothingYet(v, s);
    OutcomeOfRun(v, Submit(s).state, one);
    OutcomeOfRun(v, Submit(s).state, two);
    assert Reached(a) && Reached(b);
    BillingExact(a);
    BillingExact(b);
    CostIsNet(s, one, a);
    CostIsNet(s, two, b);
    CountPermutation(Risky, a.rows, b.rows);
    assert |a.rows| == |multiset(a.rows)| == |multiset(b.rows)| == |b.rows|;
  }

  lemma NothingYet(v: Oracle, s: Submission)
    requires Submit(s).Created?
    ensures Answers(v, Submit(s).state)
  {
    hide Queue, Deduped;
  }
}
