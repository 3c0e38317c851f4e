/** What every step of the bulk-job protocol keeps. */
module JobInvariant {
  import opened Text
  import opened Verdicts
  import opened BulkQueue
  import opened JobState
  import opened JobRows

  predicate Active(s: JobStatus) {
    s == Preparing || s == Pending || s == Processing || s == Paused
  }

  /** The addresses the job has to answer. */
  function Wanted(st: State): set<Email> {
    Elements(Queue(st.source))
  }

  function Rowed(st: State): set<Email> {
    Emails(st.rows)
  }

  function SentTo(st: State, id: TaskId): set<Email> {
    if id in st.sent then st.sent[id] else {}
  }

  // ---------------------------------------------------------------- the parts

  ghost predicate SourceOk(st: State) {
    && NoDup(st.source)
    && (forall e | e in st.source :: e != "" && Normalize(e) == e)
    && |st.source| == st.job.total
    && |Queue(st.source)| + st.job.invalidSyntax == st.job.total
  }

  /** One row per address, and every counter equal to a recount. */
  ghost predicate RowsOk(st: State) {
    && DistinctEmails(st.rows)
    && Rowed(st) <= Wanted(st)
    && st.job.processed == |st.rows| + st.job.invalidSyntax
    && st.job.tally == Recounted(st)
  }

  /** The counters rollbackPrepareHitEmails computes. */
  function Recounted(st: State): Tally {
    Recount(st.rows).(undeliverable := Recount(st.rows).undeliverable + st.job.invalidSyntax)
  }

  ghost predicate StatusOk(st: State) {
    && st.job.status != Cancelled
    && (st.job.status == Completed ==> Rowed(st) == Wanted(st))
    && (Active(st.job.status) ==> |st.rows| < |Wanted(st)|)
    && (st.job.status == Failed ==> |st.rows| < |Wanted(st)| || Wanted(st) == {})
    && (st.job.status == Preparing ==> st.rows == [])
  }

  /** Tasks stand for disjoint, non-empty parts of the list. */
  ghost predicate TasksOk(st: State) {
    && (forall id | id in st.tasks ::
          && id < st.nextId
          && st.tasks[id].emails <= Wanted(st)
          && st.tasks[id].size == |st.tasks[id].emails| > 0)
    && (forall i, j | i in st.tasks && j in st.tasks && i != j :: st.tasks[i].emails !! st.tasks[j].emails)
    && (forall id | id in st.sent :: id < st.nextId && (id in st.tasks ==> st.sent[id] <= st.tasks[id].emails))
  }

  /** pushed_count counts the rows of the task's chunk, and the task is completed exactly when all are there. */
  ghost predicate TaskAgrees(t: Task, rowed: set<Email>) {
    && t.pushed == |t.emails * rowed|
    && t.status in {Queued, Running, Done}
    && (t.status == Done <==> t.emails <= rowed)
  }

  ghost predicate ProgressOk(st: State) {
    if st.job.status == Failed then forall id | id in st.tasks :: st.tasks[id].status == Broken
    else forall id | id in st.tasks :: TaskAgrees(st.tasks[id], Rowed(st))
  }

  ghost predicate InSomeTask(st: State, e: Email) {
    exists id | id in st.tasks :: e in st.tasks[id].emails
  }

  /** No address is lost: it has a row or belongs to a current task. */
  ghost predicate CoverOk(st: State) {
    st.job.status != Failed && (st.job.status == Preparing ==> st.tasks != map[]) ==>
      forall e | e in Wanted(st) :: e in Rowed(st) || InSomeTask(st, e)
  }

  ghost predicate PlanPending(st: State, id: TaskId, e: Email) {
    st.flight.Some? &&
    ((exists p | p in st.flight.value.toSend :: p.task == id && e in p.misses) ||
     (exists p | p in st.flight.value.toWrite :: p.task == id && e in Emails(p.hits)))
  }

  /** Every address without a row has been sent to a worker under its current task, or is about to be sent or written. */
  ghost predicate OnItsWay(st: State) {
    forall id, e | id in st.tasks && e in st.tasks[id].emails ::
      e in Rowed(st) || e in SentTo(st, id) || PlanPending(st, id, e)
  }

  /** So it is while something is being enqueued, and in a job that waits for its workers. */
  ghost predicate DeliveryOk(st: State) {
    st.flight.Some? || st.job.status in {Pending, Processing} ==> OnItsWay(st)
  }

  ghost predicate ToSendOk(st: State, p: Plan) {
    p.task in st.tasks && p.task !in st.sent && Elements(p.misses) <= st.tasks[p.task].emails && Elements(p.misses) !! Rowed(st)
  }

  ghost predicate ToWriteOk(st: State, p: Plan) {
    && p.task in st.tasks && Emails(p.hits) <= st.tasks[p.task].emails
    && DistinctEmails(p.hits) && Emails(p.hits) !! Rowed(st) && Emails(p.hits) !! SentTo(st, p.task)
  }

  ghost predicate PlansApart(plans: seq<Plan>) {
    forall i, j | 0 <= i < j < |plans| :: plans[i].task != plans[j].task
  }

  ghost predicate FlightOk(st: State) {
    st.flight.Some? ==>
      var f := st.flight.value;
      && (forall p | p in f.toSend :: ToSendOk(st, p))
      && (forall p | p in f.toWrite :: ToWriteOk(st, p))
      && PlansApart(f.toSend) && PlansApart(f.toWrite)
      && (forall p, q | p in f.toSend && q in f.toWrite && p.task == q.task :: Elements(p.misses) !! Emails(q.hits))
      && Elements(f.written) <= Rowed(st)
      && st.tasks != map[]
      && st.job.status != Failed
      && (f.refundOnFailure ==> f.queued == Summary(st.ledger).lastCharge)
      && (!f.refundOnFailure ==> st.job.status != Preparing)
  }

  /** The account agrees with the life of the job: an active job has its last charge outstanding, a failed one nothing. */
  ghost predicate BillOk(st: State) {
    var b := Summary(st.ledger);
    && b.charges >= 1 && b.deleteRefunds == 0
    && (b.charges == 1 ==> b.lastCharge == |Wanted(st)|)
    && (st.job.status == Preparing ==> b.charges == 1)
    && (Active(st.job.status) ==> b.net == b.lastCharge && b.unknownRefunds == 0 && b.fullRefunds == b.charges - 1)
    && (st.job.status == Failed ==> b.net == 0 && b.unknownRefunds == 0 && b.fullRefunds == b.charges)
    && (st.job.status == Completed ==>
          && b.fullRefunds == b.charges - 1
          && (if b.charges == 1 && st.job.tally.risky > 0 then b.unknownRefunds == 1 && b.net == b.lastCharge - st.job.tally.risky
              else b.unknownRefunds == 0 && b.net == b.lastCharge))
  }

  ghost predicate DeletedOk(st: State) {
    st.flight == None && st.rows == [] && st.tasks == map[] && Summary(st.ledger).unknownRefunds <= 1
    && forall id | id in st.sent :: id < st.nextId
  }

  ghost predicate CoreOk(st: State) {
    RowsOk(st) && StatusOk(st) && TasksOk(st) && ProgressOk(st) && CoverOk(st) && BillOk(st)
  }

  ghost predicate LiveOk(st: State) {
    CoreOk(st) && FlightOk(st)
  }

  ghost predicate Inv(st: State) {
    && SourceOk(st) && st.credits >= 0
    && (if st.deleted then DeletedOk(st) else LiveOk(st))
  }

  // ---------------------------------------------------------------- basic consequences

  lemma WantedCount(st: State)
    requires SourceOk(st)
    ensures |Wanted(st)| == |Queue(st.source)| == st.job.total - st.job.invalidSyntax
  {
    hide Queue, Normalize;
    QueueFacts(st.source);
    NoDupCount(Queue(st.source));
  }

  lemma FullRows(st: State)
    requires SourceOk(st) && RowsOk(st)
    ensures |st.rows| <= |Wanted(st)|
    ensures |st.rows| == |Wanted(st)| <==> Rowed(st) == Wanted(st)
    ensures st.job.processed >= st.job.total <==> Rowed(st) == Wanted(st)
  {
    hide Queue, Recount, Normalize, Emails;
    WantedCount(st);
    RowCount(st.rows);
    var rest := Wanted(st) - Rowed(st);
    assert Wanted(st) == Rowed(st) + rest;
    assert |rest| == 0 ==> rest == {};
  }

  // ---------------------------------------------------------------- accepted jobs

  lemma AcceptedInv(emails: seq<string>, credits: nat, active: nat, maxEmails: nat, maxActive: nat)
    requires Accept(emails, credits, active, maxEmails, maxActive).Created?
    ensures Inv(Accept(emails, credits, active, maxEmails, maxActive).state)
  {
    hide Queue, Normalize, Deduped;
    var st := Accept(emails, credits, active, maxEmails, maxActive).state;
    DedupedContents(emails);
    assert SourceOk(st);
    WantedCount(st);
    assert Summary([Charge(|Queue(st.source)|)]) == Bill(|Queue(st.source)|, 1, 0, 0, 0, |Queue(st.source)|) by {
      SummarySnoc([], Charge(|Queue(st.source)|));
      assert [] + [Charge(|Queue(st.source)|)] == [Charge(|Queue(st.source)|)];
    }
    assert |Queue(st.source)| == 0 ==> Wanted(st) == {};
  }

  // ---------------------------------------------------------------- rows added to a task

  /** The common part of a batch report and of a write of cached answers, before the refund check. */
  function Absorb(st: State, id: TaskId, t: Task, added: seq<Row>): State
  {
    st.(rows := st.rows + added, job := Advance(st.job, added), tasks := st.tasks[id := t])
  }

  /** `added` are new, distinct answers to addresses of task `id`, and `t` is that task after they were pushed. */
  ghost predicate Absorbable(st: State, id: TaskId, t: Task, added: seq<Row>) {
    && id in st.tasks && added != [] && DistinctEmails(added)
    && Emails(added) <= st.tasks[id].emails && Emails(added) !! Rowed(st)
    && t.emails == st.tasks[id].emails && t.size == st.tasks[id].size
    && t.pushed == Push(st.tasks[id], |added|).pushed && t.status == Push(st.tasks[id], |added|).status
  }

  lemma AbsorbRows(st: State, id: TaskId, t: Task, added: seq<Row>)
    requires SourceOk(st) && RowsOk(st) && TasksOk(st) && Absorbable(st, id, t, added)
    ensures RowsOk(Absorb(st, id, t, added))
    ensures Rowed(Absorb(st, id, t, added)) == Rowed(st) + Emails(added)
    ensures |Emails(added)| == |added| > 0
  {
    hide Queue, CountIf, Normalize, Emails;
    EmailsConcat(st.rows, added);
    DistinctConcat(st.rows, added);
    RecountConcat(st.rows, added);
    RowCount(added);
  }

  lemma AbsorbTask(t0: Task, t: Task, rowed: set<Email>, more: set<Email>)
    requires TaskAgrees(t0, rowed) && t0.size == |t0.emails| && more <= t0.emails && more !! rowed && |more| > 0
    requires t == t0.(pushed := Push(t0, |more|).pushed, status := Push(t0, |more|).status, worker := t.worker)
    ensures TaskAgrees(t, rowed + more)
  {
    var before, after := t0.emails * rowed, t0.emails * (rowed + more);
    assert after == before + more && before !! more;
    assert after <= t0.emails;
    assert |after| == |before| + |more|;
    var rest := t0.emails - after;
    assert t0.emails == after + rest;
    assert |t0.emails| == |after| + |rest|;
    assert |rest| == 0 <==> rest == {};
  }

  lemma AbsorbTasksOk(st: State, id: TaskId, t: Task, added: seq<Row>)
    requires TasksOk(st) && Absorbable(st, id, t, added)
    ensures TasksOk(Absorb(st, id, t, added))
  {
    hide Queue, Emails, Advance, Push, DistinctEmails;
  }

  lemma AbsorbProgress(st: State, id: TaskId, t: Task, added: seq<Row>)
    requires SourceOk(st) && RowsOk(st) && TasksOk(st) && ProgressOk(st) && st.job.status != Failed
    requires Absorbable(st, id, t, added)
    ensures TasksOk(Absorb(st, id, t, added)) && ProgressOk(Absorb(st, id, t, added))
  {
    hide Queue, Advance, Emails, SourceOk, RowsOk, TaskAgrees, Push, DistinctEmails;
    AbsorbTasksOk(st, id, t, added);
    AbsorbRows(st, id, t, added);
    var st', more := Absorb(st, id, t, added), Emails(added);
    AbsorbTask(st.tasks[id], t, Rowed(st), more);
    forall k | k in st'.tasks ensures TaskAgrees(st'.tasks[k], Rowed(st')) {
      if k != id {
        UntouchedTask(st.tasks[k], Rowed(st), more);
      }
    }
    AdvanceNotFailed(st.job, added);
  }

  lemma AdvanceNotFailed(job: Job, added: seq<Row>)
    ensures Advance(job, added).status != Failed
  {
  }

  lemma UntouchedTask(t: Task, rowed: set<Email>, more: set<Email>)
    requires TaskAgrees(t, rowed) && t.emails !! more
    ensures TaskAgrees(t, rowed + more)
  {
    assert t.emails * (rowed + more) == t.emails * rowed;
  }

  lemma AbsorbStatus(st: State, id: TaskId, t: Task, added: seq<Row>)
    requires SourceOk(st) && RowsOk(st) && TasksOk(st) && StatusOk(st) && st.job.status != Failed
    requires Absorbable(st, id, t, added)
    ensures StatusOk(Absorb(st, id, t, added))
    ensures Active(st.job.status)
    ensures Absorb(st, id, t, added).job.status in {Processing, Paused, Completed}
  {
    hide Queue, SourceOk, RowsOk, TasksOk, Emails, Advance, Absorbable;
    AbsorbRows(st, id, t, added);
    var st' := Absorb(st, id, t, added);
    AdvanceFields(st.job, added);
    assert SourceOk(st') by { AbsorbSource(st, id, t, added); }
    FullRows(st');
    AddedWanted(st, id, t, added);
    assert Emails(added) != {} && st.job.status != Completed;
    assert st'.rows != [] by { assert |st'.rows| == |st.rows| + |added|; }
  }

  lemma AbsorbSource(st: State, id: TaskId, t: Task, added: seq<Row>)
    requires SourceOk(st)
    ensures SourceOk(Absorb(st, id, t, added)) && Wanted(Absorb(st, id, t, added)) == Wanted(st)
  {
    hide Queue, Normalize, Recount;
  }

  lemma AddedWanted(st: State, id: TaskId, t: Task, added: seq<Row>)
    requires TasksOk(st) && Absorbable(st, id, t, added)
    ensures Emails(added) <= Wanted(st) && Emails(added) !! Rowed(st)
  {
    hide Wanted, Emails, Push, DistinctEmails;
  }

  lemma AdvanceFields(job: Job, added: seq<Row>)
    ensures Advance(job, added).status == AfterProgress(job, |added|)
    ensures Advance(job, added).processed == job.processed + |added|
    ensures Advance(job, added).total == job.total && Advance(job, added).invalidSyntax == job.invalidSyntax
  {
  }

  lemma AbsorbCover(st: State, id: TaskId, t: Task, added: seq<Row>)
    requires SourceOk(st) && RowsOk(st) && TasksOk(st) && CoverOk(st) && st.job.status != Failed
    requires Absorbable(st, id, t, added)
    ensures CoverOk(Absorb(st, id, t, added))
  {
    hide Queue, Emails, Advance, SourceOk, RowsOk, TasksOk;
    AbsorbRows(st, id, t, added);
    AdvanceNotFailed(st.job, added);
    var st' := Absorb(st, id, t, added);
    assert id in st.tasks && st.tasks != map[];
    forall e | InSomeTask(st, e) ensures InSomeTask(st', e) {
      var k :| k in st.tasks && e in st.tasks[k].emails;
      assert e in st'.tasks[k].emails;
    }
  }

  /** The refund check at completion keeps the bill in order. */
  lemma RiskyRefundBill(st: State, st0: State)
    requires BillOk(st0) && Active(st0.job.status) && st.ledger == st0.ledger && st.source == st0.source && !st.deleted
    requires st.job.status in {Processing, Paused, Completed}
    ensures BillOk(RiskyRefund(st))
  {
    hide Queue;
    RefundsOnRecord(st.ledger);
    SummarySnoc(st.ledger, UnknownRefund(st.job.tally.risky));
  }

  lemma RiskyRefundFrame(st: State)
    ensures var r := RiskyRefund(st);
            r == st.(credits := r.credits, ledger := r.ledger) && r.credits >= st.credits
            && Summary(r.ledger).lastCharge == Summary(st.ledger).lastCharge
  {
    SummarySnoc(st.ledger, UnknownRefund(st.job.tally.risky));
  }

  // ---------------------------------------------------------------- batch reports

  lemma ReportShape(st: State, id: TaskId, server: string, results: seq<Row>)
    requires Inv(st) && !st.deleted && Legal(st, ReportEv(id, server, results))
    requires !Terminal(st.job.status) && id in st.tasks && st.tasks[id].status in {Queued, Running}
    requires Fresh(results, Emails(st.rows)) != []
    ensures var added := Fresh(results, Emails(st.rows));
            var t := Push(Claim(st.tasks[id], server), |added|).(worker := server);
            && Absorbable(st, id, t, added)
            && Emails(added) <= SentTo(st, id)
            && Report(st, id, server, results) == RiskyRefund(Absorb(st, id, t, added))
  {
    hide Inv, Emails, RiskyRefund, Advance, TasksOk, Fresh;
    FreshFacts(results, Emails(st.rows));
    PayloadOfTask(st, id);
  }

  lemma PayloadOfTask(st: State, id: TaskId)
    requires Inv(st) && !st.deleted && id in st.tasks && id in st.sent
    ensures st.sent[id] <= st.tasks[id].emails
  {
    hide SourceOk, RowsOk, StatusOk, ProgressOk, CoverOk, BillOk, FlightOk, Wanted;
  }

  lemma AbsorbFlight(st: State, id: TaskId, t: Task, added: seq<Row>)
    requires TasksOk(st) && FlightOk(st) && SourceOk(st) && RowsOk(st) && Absorbable(st, id, t, added)
    requires st.flight.Some? ==> forall p | p in st.flight.value.toSend :: p.task != id
    requires st.flight.Some? ==> forall p | p in st.flight.value.toWrite && p.task == id :: Emails(p.hits) !! Emails(added)
    requires Absorb(st, id, t, added).job.status !in {Failed, Preparing}
    ensures FlightOk(Absorb(st, id, t, added))
  {
    hide Emails, Summary, SourceOk, RowsOk, TasksOk, ToSendOk, ToWriteOk, Absorbable;
    AbsorbRows(st, id, t, added);
    var st' := Absorb(st, id, t, added);
    if st.flight.Some? {
      var f := st.flight.value;
      forall p | p in f.toSend ensures ToSendOk(st', p) {
        AbsorbToSend(st, id, t, added, p);
      }
      forall p | p in f.toWrite ensures ToWriteOk(st', p) {
        AbsorbToWrite(st, id, t, added, p);
      }
      assert id in st'.tasks;
    }
  }

  lemma AbsorbToSend(st: State, id: TaskId, t: Task, added: seq<Row>, p: Plan)
    requires TasksOk(st) && Absorbable(st, id, t, added) && ToSendOk(st, p) && p.task != id
    requires Rowed(Absorb(st, id, t, added)) == Rowed(st) + Emails(added)
    ensures ToSendOk(Absorb(st, id, t, added), p)
  {
    hide Queue, Emails, Advance, Push, DistinctEmails;
    assert st.tasks[p.task].emails !! st.tasks[id].emails;
  }

  lemma AbsorbToWrite(st: State, id: TaskId, t: Task, added: seq<Row>, p: Plan)
    requires TasksOk(st) && Absorbable(st, id, t, added) && ToWriteOk(st, p)
    requires p.task == id ==> Emails(p.hits) !! Emails(added)
    requires Rowed(Absorb(st, id, t, added)) == Rowed(st) + Emails(added)
    ensures ToWriteOk(Absorb(st, id, t, added), p)
  {
    hide Queue, Emails, Advance, Push, DistinctEmails;
    assert p.task != id ==> st.tasks[p.task].emails !! st.tasks[id].emails;
  }

  lemma SentApart(st: State, id: TaskId, added: seq<Row>)
    requires FlightOk(st) && st.flight.Some? && Emails(added) <= SentTo(st, id) && added != []
    requires Emails(added) != {}
    ensures forall p | p in st.flight.value.toSend :: p.task != id
    ensures forall p | p in st.flight.value.toWrite && p.task == id :: Emails(p.hits) !! Emails(added)
  {
    hide Queue, Emails, Summary;
    forall p | p in st.flight.value.toSend ensures p.task != id {
      assert ToSendOk(st, p);
    }
    forall p | p in st.flight.value.toWrite && p.task == id ensures Emails(p.hits) !! Emails(added) {
      assert ToWriteOk(st, p);
    }
  }

  lemma ReportInv(st: State, id: TaskId, server: string, results: seq<Row>)
    requires Inv(st) && Legal(st, ReportEv(id, server, results))
    ensures Inv(Report(st, id, server, results))
  {
    hide Queue, Recount, Normalize, Emails, Summary, RiskyRefund, Advance, Fresh, SourceOk, RowsOk, StatusOk, TasksOk,
         ProgressOk, CoverOk, DeliveryOk, FlightOk, BillOk, Push;
    if st.deleted || Terminal(st.job.status) || id !in st.tasks || st.tasks[id].status !in {Queued, Running} {
      return;
    }
    var added := Fresh(results, Emails(st.rows));
    if added == [] {
      ClaimInv(st, id, server);
    } else {
      ReportShape(st, id, server, results);
      var t := Push(Claim(st.tasks[id], server), |added|).(worker := server);
      AbsorbInv(st, id, t, added);
      AbsorbRows(st, id, t, added);
      if st.flight.Some? {
        SentApart(st, id, added);
      }
      AbsorbFlight(st, id, t, added);
      RefundedInv(st, Absorb(st, id, t, added));
    }
  }

  /** Everything but the flight and the bill survives an Absorb. */
  lemma AbsorbInv(st: State, id: TaskId, t: Task, added: seq<Row>)
    requires Inv(st) && !st.deleted && st.job.status != Failed && Absorbable(st, id, t, added)
    ensures var st' := Absorb(st, id, t, added);
            && SourceOk(st') && RowsOk(st') && StatusOk(st') && TasksOk(st') && ProgressOk(st') && CoverOk(st')
            && Active(st.job.status) && st'.job.status in {Processing, Paused, Completed}
  {
    hide Queue, Recount, Normalize, Emails, Summary, Advance, RowsOk, StatusOk, TasksOk, ProgressOk, CoverOk,
         DeliveryOk, FlightOk, BillOk, Absorbable;
    AdvanceFields(st.job, added);
    AbsorbRows(st, id, t, added);
    AbsorbProgress(st, id, t, added);
    AbsorbStatus(st, id, t, added);
    AbsorbCover(st, id, t, added);
  }

  // ---------------------------------------------------------------- what each part depends on

  lemma SameCounts(a: State, b: State)
    requires SourceOk(a) && RowsOk(a) && StatusOk(a) && b.source == a.source && b.job == a.job && b.rows == a.rows
    ensures SourceOk(b) && RowsOk(b) && StatusOk(b)
  {
    hide Queue, Normalize, CountIf, Emails;
  }

  lemma SameTaskTable(a: State, b: State)
    requires TasksOk(a) && b.tasks == a.tasks && b.sent == a.sent && b.nextId == a.nextId && b.source == a.source
    ensures TasksOk(b)
  {
    hide Queue;
  }

  lemma SameProgress(a: State, b: State)
    requires ProgressOk(a) && CoverOk(a) && b.source == a.source && b.job == a.job && b.rows == a.rows && b.tasks == a.tasks
    ensures ProgressOk(b) && CoverOk(b)
  {
    hide Queue, Emails, TaskAgrees;
    assert forall e :: InSomeTask(b, e) <==> InSomeTask(a, e);
  }

  lemma SameBill(a: State, b: State)
    requires BillOk(a) && b.source == a.source && b.job == a.job && b.ledger == a.ledger
    ensures BillOk(b)
  {
    hide Queue, Summary;
  }

  /** The account fields matter only to the bill and the outstanding charge. */
  lemma AccountFrame(st: State, st': State)
    requires st' == st.(credits := st'.credits, ledger := st'.ledger)
    requires SourceOk(st) && RowsOk(st) && StatusOk(st) && TasksOk(st) && ProgressOk(st) && CoverOk(st)
    ensures SourceOk(st') && RowsOk(st') && StatusOk(st') && TasksOk(st') && ProgressOk(st') && CoverOk(st')
  {
    hide SourceOk, RowsOk, StatusOk, TasksOk, ProgressOk, CoverOk;
    SameCounts(st, st');
    SameTaskTable(st, st');
    SameProgress(st, st');
  }

  lemma AccountFlight(st: State, st': State)
    requires st' == st.(credits := st'.credits, ledger := st'.ledger) && FlightOk(st)
    requires Summary(st'.ledger).lastCharge == Summary(st.ledger).lastCharge
    ensures FlightOk(st')
  {
    hide Queue, Emails, Summary;
    assert forall p :: ToSendOk(st', p) <==> ToSendOk(st, p);
    assert forall p :: ToWriteOk(st', p) <==> ToWriteOk(st, p);
  }

  lemma RefundedInv(st: State, grown: State)
    requires Inv(st) && !st.deleted && Active(st.job.status)
    requires grown.ledger == st.ledger && grown.source == st.source && !grown.deleted && grown.credits == st.credits
    requires grown.job.status in {Processing, Paused, Completed}
    requires SourceOk(grown) && RowsOk(grown) && StatusOk(grown) && TasksOk(grown) && ProgressOk(grown)
    requires CoverOk(grown) && FlightOk(grown)
    ensures Inv(RiskyRefund(grown))
  {
    hide RiskyRefund, SourceOk, RowsOk, StatusOk, TasksOk, ProgressOk, CoverOk, FlightOk, BillOk, Summary;
    RiskyRefundBill(grown, st);
    RiskyRefundFrame(grown);
    AccountFrame(grown, RiskyRefund(grown));
    AccountFlight(grown, RiskyRefund(grown));
  }

  lemma ClaimInv(st: State, id: TaskId, server: string)
    requires Inv(st) && !st.deleted && id in st.tasks && st.tasks[id].status in {Queued, Running}
    ensures Inv(st.(tasks := st.tasks[id := Claim(st.tasks[id], server)]))
  {
    hide Inv;
    SameTasksInv(st, st.tasks[id := Claim(st.tasks[id], server)]);
  }

  /** The same tasks, some of them moved between queued and running. */
  ghost predicate Moved(before: map<TaskId, Task>, after: map<TaskId, Task>) {
    && after.Keys == before.Keys
    && forall id | id in after ::
         && after[id] == before[id].(status := after[id].status, worker := after[id].worker)
         && (after[id].status == before[id].status
             || (before[id].status in {Queued, Running} && after[id].status in {Queued, Running}))
  }

  lemma MovedTask(before: Task, after: Task, rowed: set<Email>)
    requires TaskAgrees(before, rowed) && after == before.(status := after.status, worker := after.worker)
    requires after.status == before.status || (before.status in {Queued, Running} && after.status in {Queued, Running})
    ensures TaskAgrees(after, rowed)
  {
  }

  lemma MovedTasks(st: State, tasks: map<TaskId, Task>)
    requires TasksOk(st) && ProgressOk(st) && Moved(st.tasks, tasks)
    ensures TasksOk(st.(tasks := tasks)) && ProgressOk(st.(tasks := tasks))
  {
    hide Queue, Emails, TaskAgrees, TasksOk;
    var st' := st.(tasks := tasks);
    MovedTasksOk(st, tasks);
    forall id | id in tasks && st.job.status != Failed ensures TaskAgrees(tasks[id], Rowed(st')) {
      MovedTask(st.tasks[id], tasks[id], Rowed(st));
    }
  }

  lemma MovedTasksOk(st: State, tasks: map<TaskId, Task>)
    requires TasksOk(st) && Moved(st.tasks, tasks)
    ensures TasksOk(st.(tasks := tasks))
  {
    hide Queue;
  }

  lemma TaskFrame(st: State, st': State)
    requires st' == st.(tasks := st'.tasks)
    requires SourceOk(st) && RowsOk(st) && StatusOk(st) && BillOk(st)
    ensures SourceOk(st') && RowsOk(st') && StatusOk(st') && BillOk(st')
  {
    hide SourceOk, RowsOk, StatusOk, BillOk;
    SameCounts(st, st');
    SameBill(st, st');
  }

  /** Moving tasks between queued and running is harmless. */
  lemma SameTasksInv(st: State, tasks: map<TaskId, Task>)
    requires Inv(st) && !st.deleted && Moved(st.tasks, tasks)
    ensures Inv(st.(tasks := tasks))
  {
    hide Summary, SourceOk, RowsOk, StatusOk, TasksOk, ProgressOk, CoverOk, BillOk, FlightOk;
    var st' := st.(tasks := tasks);
    MovedTasks(st, tasks);
    TaskFrame(st, st');
    SameCover(st, st');
    SameFlight(st, st');
  }

  lemma SameCover(st: State, st': State)
    requires CoverOk(st) && st' == st.(tasks := st'.tasks) && st'.tasks.Keys == st.tasks.Keys
    requires forall id | id in st.tasks :: st'.tasks[id].emails == st.tasks[id].emails
    ensures CoverOk(st')
  {
    hide Queue, Emails;
    assert st.tasks != map[] <==> st'.tasks != map[];
    forall e | InSomeTask(st, e) ensures InSomeTask(st', e) {
      var k :| k in st.tasks && e in st.tasks[k].emails;
      assert e in st'.tasks[k].emails;
    }
  }

  lemma SameFlight(st: State, st': State)
    requires FlightOk(st) && st' == st.(tasks := st'.tasks) && st'.tasks.Keys == st.tasks.Keys
    requires forall id | id in st.tasks :: st'.tasks[id].emails == st.tasks[id].emails
    ensures FlightOk(st')
  {
    hide Queue, Emails, Summary;
    if st.flight.Some? {
      forall p | p in st.flight.value.toSend ensures ToSendOk(st', p) { assert ToSendOk(st, p); }
      forall p | p in st.flight.value.toWrite ensures ToWriteOk(st', p) { assert ToWriteOk(st, p); }
    }
  }

  /** The progress of an enqueue matters only to FlightOk. */
  lemma FlightFrame(st: State, st': State)
    requires st' == st.(flight := st'.flight) && SourceOk(st) && CoreOk(st)
    ensures SourceOk(st') && CoreOk(st')
  {
    hide SourceOk, RowsOk, StatusOk, TasksOk, ProgressOk, CoverOk, BillOk;
    SameCounts(st, st');
    SameTaskTable(st, st');
    SameProgress(st, st');
    SameBill(st, st');
  }

  /** An unfinished job has unanswered addresses. */
  lemma Unanswered(st: State)
    requires SourceOk(st) && RowsOk(st) && StatusOk(st) && Active(st.job.status)
    ensures Wanted(st) - Rowed(st) != {} && Queue(st.source) != []
  {
    hide Queue, Recount, Normalize, Emails;
    FullRows(st);
    WantedCount(st);
    if Wanted(st) - Rowed(st) == {} {
      forall e | e in Wanted(st) ensures e in Rowed(st) {
        assert e !in Wanted(st) - Rowed(st);
      }
    }
  }
}
