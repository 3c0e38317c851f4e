/** The outcome of a job depends on the answers, not on who delivered them, when, in what order, or how often. */
module JobOutcome {
  import opened Text
  import opened Verdicts
  import opened BulkQueue
  import opened JobState
  import opened JobRows
  import opened JobInvariant
  import opened JobSteps
  import opened JobDelivery
  import opened JobHistory

  /** One fixed answer per address. */
  type Oracle = map<Email, Row>

  predicate Says(v: Oracle, r: Row) {
    r.email in v && v[r.email] == r
  }

  ghost predicate AllSay(v: Oracle, rows: seq<Row>) {
    forall r | r in rows :: Says(v, r)
  }

  /** Everything stored, and everything cached that is still to be stored, is what the oracle says. */
  ghost predicate Answers(v: Oracle, st: State) {
    && AllSay(v, st.rows)
    && (st.flight.Some? ==> forall p | p in st.flight.value.toWrite :: AllSay(v, p.hits))
  }

  /** The step brings in only what the oracle says. */
  ghost predicate Truthful(v: Oracle, ev: Event) {
    match ev
    case ReportEv(_, _, results) => AllSay(v, results)
    case PrepareEv(b) => TruthfulBatch(v, b)
    case ResumeEv(b) => TruthfulBatch(v, b)
    case RetryEv(b) => TruthfulBatch(v, b)
    case _ => true
  }

  ghost predicate TruthfulBatch(v: Oracle, b: Batch) {
    forall e | e in b.ordered && Known(e, b.cache, b.policies).Some? :: Says(v, Known(e, b.cache, b.policies).value)
  }

  // ---------------------------------------------------------------- what a finished job looks like

  function AnswersTo(v: Oracle, list: seq<Email>): (rows: seq<Row>)
    requires forall e | e in list :: e in v
    ensures |rows| == |list|
    ensures forall i | 0 <= i < |list| :: rows[i] == v[list[i]]
  {
    seq(|list|, i requires 0 <= i < |list| => v[list[i]])
  }

  /** The job record once every address of the list has its answer. */
  function FinishedJob(source: seq<Email>, answers: seq<Row>): Job
    requires |Queue(source)| <= |source|
  {
    var invalid: nat := |source| - |Queue(source)|;
    var tally := Recount(answers);
    Job(Completed, |source|, invalid, |source|, tally.(undeliverable := tally.undeliverable + invalid))
  }

  function WithoutAt<T>(s: seq<T>, i: nat): seq<T>
    requires i < |s|
  {
    s[..i] + s[i + 1..]
  }

  lemma TakeOut<T>(s: seq<T>, i: nat)
    requires i < |s|
    ensures multiset(WithoutAt(s, i)) == multiset(s) - multiset{s[i]}
  {
    assert s == s[..i] + [s[i]] + s[i + 1..];
  }

  lemma CountTakeOut(c: Column, s: seq<Row>, i: nat)
    requires i < |s|
    ensures CountIf(c, s) == CountIf(c, WithoutAt(s, i)) + CountIf(c, [s[i]])
  {
    hide CountIf;
    CountConcat(c, s[..i], s[i + 1..]);
    CountConcat(c, s[..i], [s[i]]);
    CountConcat(c, s[..i] + [s[i]], s[i + 1..]);
    assert s == s[..i] + [s[i]] + s[i + 1..];
  }

  lemma {:induction false} CountPermutation(c: Column, a: seq<Row>, b: seq<Row>)
    requires multiset(a) == multiset(b)
    ensures CountIf(c, a) == CountIf(c, b)
    decreases |a|
  {
    hide CountIf, WithoutAt;
    if a == [] {
      assert |multiset(b)| == 0;
    } else {
      assert a[0] in multiset(b);
      var i :| 0 <= i < |b| && b[i] == a[0];
      TakeOut(a, 0);
      TakeOut(b, i);
      SizeTakenOut(a, 0);
      CountPermutation(c, WithoutAt(a, 0), WithoutAt(b, i));
      CountTakeOut(c, a, 0);
      CountTakeOut(c, b, i);
    }
  }

  lemma SizeTakenOut<T>(s: seq<T>, i: nat)
    requires i < |s|
    ensures |WithoutAt(s, i)| == |s| - 1
  {
  }

  lemma RecountPermutation(a: seq<Row>, b: seq<Row>)
    requires multiset(a) == multiset(b)
    ensures Recount(a) == Recount(b)
  {
    hide CountIf;
    forall c ensures CountIf(c, a) == CountIf(c, b) {
      CountPermutation(c, a, b);
    }
  }

  /** Same addresses, each once, same answers: the rows are a rearrangement. */
  lemma SameAnswers(v: Oracle, rows: seq<Row>, list: seq<Email>)
    requires DistinctEmails(rows) && AllSay(v, rows) && NoDup(list) && Emails(rows) == Elements(list)
    ensures forall e | e in list :: e in v
    ensures multiset(rows) == multiset(AnswersTo(v, list))
  {
    forall e | e in list ensures e in v && v[e] in rows && v[e].email == e {
      assert e in Elements(list);
      var r :| r in rows && r.email == e;
    }
    var answers := AnswersTo(v, list);
    forall r ensures multiset(rows)[r] == multiset(answers)[r] {
      assert NoDup(rows) && NoDup(answers);
      OnceEach(rows, r);
      OnceEach(answers, r);
      if r in rows {
        assert r.email in Emails(rows);
        var i :| 0 <= i < |list| && list[i] == r.email;
        assert answers[i] == r;
      }
    }
  }

  /** A completed job whose answers come from the oracle has exactly the rows and counters the list determines. */
  lemma FinishedAs(v: Oracle, st: State)
    requires Inv(st) && !st.deleted && st.job.status == Completed && AllSay(v, st.rows)
    ensures forall e | e in Queue(st.source) :: e in v
    ensures multiset(st.rows) == multiset(AnswersTo(v, Queue(st.source)))
    ensures st.job == FinishedJob(st.source, AnswersTo(v, Queue(st.source)))
  {
    hide Queue, Emails, Summary, Recount, Normalize, AllSay, DistinctEmails, AnswersTo;
    QueueFacts(st.source);
    SameAnswers(v, st.rows, Queue(st.source));
    RecountPermutation(st.rows, AnswersTo(v, Queue(st.source)));
    FullRows(st);
    WantedCount(st);
  }

  // ---------------------------------------------------------------- every step keeps to the oracle

  lemma SubAnswers(v: Oracle, rows: seq<Row>, known: set<Email>)
    requires AllSay(v, rows)
    ensures AllSay(v, Fresh(rows, known)) && AllSay(v, Without(rows, known))
  {
  }

  lemma {:induction false} HitsSay(v: Oracle, chunk: seq<Email>, cache: map<Email, Row>, policies: map<string, string>)
    requires forall e | e in chunk && Known(e, cache, policies).Some? :: Says(v, Known(e, cache, policies).value)
    ensures AllSay(v, Hits(chunk, cache, policies))
  {
    hide Known;
    if chunk != [] {
      HitsSay(v, chunk[..|chunk| - 1], cache, policies);
    }
  }

  lemma LaunchAnswers(v: Oracle, st: State, b: Batch, refund: bool)
    requires AllSay(v, st.rows) && TruthfulBatch(v, b) && Tiles(b.chunks, |b.ordered|)
    ensures Answers(v, Launch(st, b, refund))
  {
    hide Hits, Misses, NewTasks, AllSay, Known;
    var plans := Plans(st.nextId, b.ordered, b.chunks, b.cache, b.policies);
    forall p | p in plans ensures AllSay(v, p.hits) {
      var k :| 0 <= k < |plans| && plans[k] == p;
      HitsSay(v, Slice(b.ordered, b.chunks[k]), b.cache, b.policies);
    }
  }

  lemma RequeueAnswers(v: Oracle, st: State, charge: bool, b: Batch)
    requires Answers(v, st) && TruthfulBatch(v, b) && Tiles(b.chunks, |b.ordered|)
    ensures Answers(v, Requeue(st, charge, b))
  {
    hide Launch, Remaining, Queue, AllSay, TruthfulBatch;
    if Requeue(st, charge, b) != st && Remaining(st.source, st.rows) != [] {
      var from := RequeueFrom(st, charge, b);
      RequeueRows(st, charge, b, from);
      LaunchAnswers(v, from, b, charge);
    }
  }

  lemma RequeueRows(st: State, charge: bool, b: Batch, from: State)
    requires Tiles(b.chunks, |b.ordered|) && Requeue(st, charge, b) != st && Remaining(st.source, st.rows) != []
    requires Requeue(st, charge, b) == Launch(from, b, charge)
    ensures from.rows == st.rows
  {
    hide Remaining, Queue, Plans, NewTasks;
  }

  lemma ReportAnswers(v: Oracle, st: State, id: TaskId, server: string, results: seq<Row>)
    requires Answers(v, st) && AllSay(v, results)
    ensures Answers(v, Report(st, id, server, results))
  {
    hide Emails, Fresh, Advance;
    SubAnswers(v, results, Emails(st.rows));
  }

  lemma WriteAnswers(v: Oracle, st: State)
    requires Answers(v, st) && st.flight.Some? && st.flight.value.toWrite != []
    ensures Answers(v, WriteHits(st))
  {
    hide Advance, RowAddresses;
    assert st.flight.value.toWrite[0] in st.flight.value.toWrite;
    assert forall p | p in st.flight.value.toWrite[1..] :: p in st.flight.value.toWrite;
  }

  lemma FailWriteAnswers(v: Oracle, st: State)
    requires Answers(v, st) && st.flight.Some?
    ensures Answers(v, FailWrite(st))
  {
    hide Recount, AllSay;
    SubAnswers(v, st.rows, Elements(st.flight.value.written));
  }

  lemma AnswersStep(v: Oracle, st: State, ev: Event)
    requires Inv(st) && Legal(st, ev) && Answers(v, st) && Truthful(v, ev)
    ensures Answers(v, Step(st, ev)) && Step(st, ev).source == st.source
  {
    hide Inv, Queue, Emails, AllSay, TruthfulBatch, Report, WriteHits, FailWrite, Requeue, Launch, Recount, Remaining,
         RiskyRefund, Reconcile, Delete;
    StepSource(st, ev);
    match ev
    case PrepareEv(b) => if Prepare(st, b) != st { LaunchAnswers(v, st, b, true); }
    case WriteEv => WriteAnswers(v, st);
    case WriteFails => FailWriteAnswers(v, st);
    case ReportEv(id, server, results) => ReportAnswers(v, st, id, server, results);
    case ResumeEv(b) => RequeueAnswers(v, st, false, b);
    case RetryEv(b) => RequeueAnswers(v, st, true, b);
    case DeleteEv => DeleteAnswers(v, st);
    case RiskyCheck => RiskyCheckIdentity(st);
    case ReconcileEv => ReconcileIdentityIff(st);
    case _ =>
  }

  lemma DeleteAnswers(v: Oracle, st: State)
    requires Answers(v, st)
    ensures Answers(v, Delete(st))
  {
  }

  lemma StepSource(st: State, ev: Event)
    requires Legal(st, ev)
    ensures Step(st, ev).source == st.source
  {
    hide Queue, Emails, Remaining, BatchOf, Refund, WriteHits, FailWrite, Report, Reclaim, Requeue, Delete, Reconcile, RiskyRefund, Launch;
    match ev
    case SubmitFails => assert Refund(st, |Queue(st.source)|).source == st.source by { RefundSource(st, |Queue(st.source)|); }
    case PrepareEv(b) => LaunchSource(st, b, true);
    case PrepareFails => RefundSource(st, MaxInt(st.job.total - st.job.invalidSyntax, 0));
    case SendFails => RefundSource(st.(flight := None), st.flight.value.queued);
    case WriteEv => WriteSource(st);
    case WriteFails => FailWriteSource(st);
    case ReportEv(id, server, results) => ReportSource(st, id, server, results);
    case ReclaimEv(servers, watchdog) => ReclaimSource(st, servers, watchdog);
    case ResumeEv(b) => RequeueSource(st, false, b);
    case RetryEv(b) => RequeueSource(st, true, b);
    case DeleteEv => DeleteSource(st);
    case RiskyCheck => RiskySource(st);
    case ReconcileEv => ReconcileSource(st);
    case _ =>
  }

  lemma RefundSource(st: State, credits: nat)
    ensures Refund(st, credits).source == st.source
  {
  }

  lemma LaunchSource(st: State, b: Batch, refund: bool)
    requires BatchOf(b, Queue(st.source))
    ensures Tiles(b.chunks, |b.ordered|) && Launch(st, b, refund).source == st.source
  {
    hide Plans, NewTasks;
  }

  lemma WriteSource(st: State)
    requires st.flight.Some? && st.flight.value.toWrite != []
    ensures WriteHits(st).source == st.source
  {
    hide Advance, RowAddresses, Push;
  }

  lemma FailWriteSource(st: State)
    requires st.flight.Some?
    ensures FailWrite(st).source == st.source
  {
    hide Recount, Without;
  }

  lemma ReportSource(st: State, id: TaskId, server: string, results: seq<Row>)
    ensures Report(st, id, server, results).source == st.source
  {
    hide Emails, Fresh, Advance, Push;
  }

  lemma ReclaimSource(st: State, servers: set<string>, watchdog: bool)
    ensures Reclaim(st, servers, watchdog).source == st.source
  {
  }

  lemma RequeueSource(st: State, charge: bool, b: Batch)
    requires BatchOf(b, Remaining(st.source, st.rows))
    ensures Tiles(b.chunks, |b.ordered|) && Requeue(st, charge, b).source == st.source
  {
    hide Queue, Remaining, Plans, NewTasks;
  }

  lemma DeleteSource(st: State)
    ensures Delete(st).source == st.source
  {
    hide DeleteRefundAmount;
  }

  lemma RiskySource(st: State)
    ensures RiskyRefund(st).source == st.source
  {
  }

  lemma ReconcileSource(st: State)
    ensures Reconcile(st).source == st.source
  {
    hide Requeued, CountTasks;
  }

  /** A good run that starts with and brings in only what the oracle says. */
  ghost predicate TruthfulRun(v: Oracle, st: State, evs: seq<Event>) {
    GoodRun(st, evs) && Answers(v, st) && forall ev | ev in evs :: Truthful(v, ev)
  }

  lemma {:induction false} AnswersRun(v: Oracle, st: State, evs: seq<Event>)
    requires TruthfulRun(v, st, evs)
    ensures Inv(Run(st, evs)) && Answers(v, Run(st, evs)) && Run(st, evs).source == st.source
    decreases |evs|
  {
    hide Inv, Legal, Step, Answers, Truthful;
    if evs != [] {
      StepInv(st, evs[0]);
      AnswersStep(v, st, evs[0]);
      AnswersRun(v, Step(st, evs[0]), evs[1..]);
    }
  }

  /** A truthful run that ends with the job completed. */
  ghost predicate CompletingRun(v: Oracle, st: State, evs: seq<Event>) {
    TruthfulRun(v, st, evs) && !Run(st, evs).deleted && Run(st, evs).job.status == Completed
  }

  /** Every delivery schedule, with any pauses, resumes, reclaims, failed attempts and retries in between,
      that ends with the job completed ends with the same rows and the same job record. */
  lemma OutcomeOfRun(v: Oracle, st: State, evs: seq<Event>)
    requires CompletingRun(v, st, evs)
    ensures forall e | e in Queue(st.source) :: e in v
    ensures var end, answers := Run(st, evs), AnswersTo(v, Queue(st.source));
            multiset(end.rows) == multiset(answers) && end.job == FinishedJob(st.source, answers)
  {
    hide Inv, Queue, AnswersTo, FinishedJob, AllSay, Truthful;
    AnswersRun(v, st, evs);
    FinishedAs(v, Run(st, evs));
  }

  // ---------------------------------------------------------------- schedules of deliveries

  /** Deliveries and what may come between them without replacing the tasks. */
  predicate Delivering(ev: Event) {
    match ev
    case SendEv => true
    case WriteEv => true
    case FinishEv => true
    case Crash => true
    case ReportEv(_, _, _) => true
    case ReclaimEv(_, _) => true
    case PauseEv => true
    case RiskyCheck => true
    case ReconcileEv => true
    case _ => false
  }

  /** The addresses a step delivers an answer for. */
  function Delivery(st: State, ev: Event): set<Email> {
    match ev
    case ReportEv(id, _, results) => if id in st.tasks then Emails(results) else {}
    case WriteEv => if st.flight.Some? && st.flight.value.toWrite != [] then Emails(st.flight.value.toWrite[0].hits) else {}
    case _ => {}
  }

  ghost function Delivered(st: State, evs: seq<Event>): set<Email>
    requires LegalRun(st, evs)
    decreases |evs|
  {
    if evs == [] then {} else Delivery(st, evs[0]) + Delivered(Step(st, evs[0]), evs[1..])
  }

  /** The tasks stand for the same parts of the list. */
  ghost predicate SameParts(a: State, b: State) {
    && b.tasks.Keys == a.tasks.Keys
    && forall id | id in a.tasks :: b.tasks[id].emails == a.tasks[id].emails && b.tasks[id].size == a.tasks[id].size
  }

  ghost predicate Live(st: State) {
    Inv(st) && !st.deleted && st.job.status != Failed
  }

  /** A report for a current task puts a row under every address it carries, or finds one there. */
  lemma ReportLands(st: State, id: TaskId, server: string, results: seq<Row>)
    requires Live(st) && Legal(st, ReportEv(id, server, results))
    ensures id in st.tasks ==> Rowed(Report(st, id, server, results)) == Rowed(st) + Emails(results)
    ensures SameParts(st, Report(st, id, server, results)) && Settled(st, Report(st, id, server, results))
    ensures id !in st.tasks || st.job.status == Completed ==> Report(st, id, server, results) == st
  {
    hide Inv, Emails, Recount, Advance, Report, Settled;
    SettledBefore(st);
    if id !in st.tasks || st.job.status == Completed || st.tasks[id].status !in {Queued, Running} {
      InertHere(st, id, server, results);
      if id in st.tasks { AlreadyThere(st, id, server, results); }
    } else {
      NotCancelled(st);
      ReportEffect(st, id, server, results);
      SettledAfter(st, Report(st, id, server, results));
    }
  }

  lemma NotCancelled(st: State)
    requires Live(st)
    ensures st.job.status != Cancelled
  {
    hide Queue, Emails, Summary, Recount, Normalize;
  }

  lemma InertHere(st: State, id: TaskId, server: string, results: seq<Row>)
    requires id !in st.tasks || st.job.status == Completed || st.tasks[id].status !in {Queued, Running}
    ensures Report(st, id, server, results) == st
  {
  }

  lemma AlreadyThere(st: State, id: TaskId, server: string, results: seq<Row>)
    requires Live(st) && id in st.tasks && Legal(st, ReportEv(id, server, results))
    requires st.job.status == Completed || st.tasks[id].status !in {Queued, Running}
    ensures Emails(results) <= Rowed(st)
  {
    hide Inv, Emails;
    if st.job.status == Completed { TasksFinished(st); }
    DoneRows(st, id);
    TaskParts(st);
    assert st.sent[id] <= st.tasks[id].emails;
  }

  lemma DoneRows(st: State, id: TaskId)
    requires Live(st) && id in st.tasks
    ensures st.tasks[id].status in {Queued, Running, Done}
    ensures st.tasks[id].status == Done ==> st.tasks[id].emails <= Rowed(st)
  {
    hide SourceOk, RowsOk, StatusOk, TasksOk, CoverOk, BillOk, FlightOk, Emails;
    assert TaskAgrees(st.tasks[id], Rowed(st));
  }

  /** A live state is already settled: the refund it may owe has been paid. */
  lemma SettledBefore(st: State)
    requires Inv(st) && !st.deleted
    ensures Settled(st, st)
  {
    hide Inv, Emails;
    RiskyCheckIdentity(st);
    OwedPays(st);
  }

  lemma OwedPays(st: State)
    requires !st.deleted
    ensures Owed(st.ledger, st.job) ==> |RiskyRefund(st).ledger| == |st.ledger| + 1
  {
  }

  lemma SettledAfter(st: State, st': State)
    requires Settled(st, st)
    ensures st'.job == st.job && st'.ledger == st.ledger && st'.credits == st.credits ==> Settled(st, st')
  {
  }

  lemma SettledTrans(a: State, b: State, c: State)
    requires Settled(a, b) && Settled(b, c) && (b.job.status == Completed ==> c.job == b.job)
    ensures Settled(a, c)
  {
    if Owed(a.ledger, b.job) {
      assert UnknownRefund(b.job.tally.risky) in b.ledger;
    }
  }

  lemma SamePartsTrans(a: State, b: State, c: State)
    requires SameParts(a, b) && SameParts(b, c)
    ensures SameParts(a, c)
  {
  }

  lemma DeliveringStep(st: State, ev: Event)
    requires Live(st) && Legal(st, ev) && Delivering(ev)
    ensures var st' := Step(st, ev);
            && Live(st') && SameParts(st, st') && Settled(st, st')
            && Rowed(st') == Rowed(st) + Delivery(st, ev)
            && (st.job.status == Completed ==> st'.job == st.job)
  {
    hide Inv, Queue, Emails, Settled, Report, Send, WriteHits, Finish, Reclaim, Pause, RiskyRefund, Reconcile,
         SameParts, BatchOf, ToWriteOk;
    StepInv(st, ev);
    SettledBefore(st);
    if st.job.status == Completed { CompletedStep(st, ev); }
    match ev
    case SendEv => SendKeeps(st); Untouched(st, Send(st));
    case WriteEv => NextToWrite(st); WriteKeeps(st);
    case FinishEv => FinishLands(st);
    case Crash => Untouched(st, st.(flight := None));
    case ReportEv(id, server, results) => ReportLands(st, id, server, results); ReportStatus(st, id, server, results);
    case ReclaimEv(servers, watchdog) => ReclaimLands(st, servers, watchdog);
    case PauseEv => PauseLands(st);
    case RiskyCheck => RiskyCheckIdentity(st); Untouched(st, st);
    case ReconcileEv => ReconcileIdentityIff(st); Untouched(st, st);
  }

  /** Nothing but the queue, the worker marks and a running status moves. */
  lemma Untouched(st: State, st': State)
    requires Settled(st, st) && st'.rows == st.rows && st'.tasks == st.tasks && st'.job == st.job
    requires st'.ledger == st.ledger && st'.credits == st.credits && st'.deleted == st.deleted
    ensures SameParts(st, st') && Settled(st, st') && Rowed(st') == Rowed(st) && st'.deleted == st.deleted
  {
  }

  lemma WriteKeeps(st: State)
    requires !st.deleted && st.job.status != Failed && Settled(st, st)
    requires st.flight.Some? && st.flight.value.toWrite != [] && ToWriteOk(st, st.flight.value.toWrite[0])
    ensures var st' := WriteHits(st);
            && SameParts(st, st') && Settled(st, st') && !st'.deleted && st'.job.status != Failed
            && Rowed(st') == Rowed(st) + Emails(st.flight.value.toWrite[0].hits)
  {
    hide Emails, WriteHits, Advance, Settled, ToWriteOk, Rowed;
    WriteEffect(st);
    SettledAfter(st, WriteHits(st));
    AdvanceFields(st.job, st.flight.value.toWrite[0].hits);
  }

  lemma ReportStatus(st: State, id: TaskId, server: string, results: seq<Row>)
    requires Live(st)
    ensures !Report(st, id, server, results).deleted && Report(st, id, server, results).job.status != Failed
  {
    hide Inv, Emails, Fresh, Recount;
  }

  lemma FinishLands(st: State)
    requires Live(st) && Legal(st, FinishEv)
    ensures var st' := Finish(st);
            SameParts(st, st') && Settled(st, st') && Rowed(st') == Rowed(st) && !st'.deleted && st'.job.status != Failed
  {
    hide Inv;
    SettledBefore(st);
  }

  lemma PauseLands(st: State)
    requires Live(st)
    ensures var st' := Pause(st);
            SameParts(st, st') && Settled(st, st') && Rowed(st') == Rowed(st) && !st'.deleted && st'.job.status != Failed
  {
    hide Inv;
    SettledBefore(st);
  }

  lemma ReclaimLands(st: State, servers: set<string>, watchdog: bool)
    requires Live(st)
    ensures var st' := Reclaim(st, servers, watchdog);
            SameParts(st, st') && Settled(st, st') && Rowed(st') == Rowed(st) && !st'.deleted && st'.job.status != Failed
  {
    hide Inv;
    SettledBefore(st);
  }

  /** A legal run of deliveries from a live state. */
  ghost predicate LiveRun(st: State, evs: seq<Event>) {
    Live(st) && LegalRun(st, evs) && forall ev | ev in evs :: Delivering(ev)
  }

  lemma {:induction false} DeliveringRun(st: State, evs: seq<Event>)
    requires LiveRun(st, evs)
    ensures var end := Run(st, evs);
            && Live(end) && SameParts(st, end) && Settled(st, end)
            && Rowed(end) == Rowed(st) + Delivered(st, evs)
            && (st.job.status == Completed ==> end.job == st.job)
    decreases |evs|
  {
    hide Inv, Legal, Step, Settled, SameParts, Delivering, Delivery, Emails;
    if evs == [] {
      SettledBefore(st);
      Untouched(st, st);
    } else {
      var st' := Step(st, evs[0]);
      DeliveringStep(st, evs[0]);
      DeliveringRun(st', evs[1..]);
      SettledTrans(st, st', Run(st', evs[1..]));
      SamePartsTrans(st, st', Run(st', evs[1..]));
    }
  }

  // ---------------------------------------------------------------- delivery does not matter

  lemma FullyDelivered(st: State)
    requires Live(st) && Wanted(st) <= Rowed(st)
    ensures st.job.status == Completed
  {
    hide Queue, Emails, Summary, Recount, Normalize;
    FullRows(st);
    WantedCount(st);
  }

  lemma FinishedTask(st: State, id: TaskId)
    requires Live(st) && st.job.status == Completed && id in st.tasks
    ensures st.tasks[id] == Task(st.tasks[id].size, st.tasks[id].emails, st.tasks[id].size, Done, st.tasks[id].worker)
  {
    hide Queue, Emails, Summary, Recount, Normalize;
    TasksFinished(st);
    assert TaskAgrees(st.tasks[id], Rowed(st));
    assert st.tasks[id].emails * Rowed(st) == st.tasks[id].emails;
  }

  /** The same record, task by task, but for the worker that last held it. */
  ghost predicate SameTasks(a: State, b: State) {
    && a.tasks.Keys == b.tasks.Keys
    && forall id | id in a.tasks :: a.tasks[id] == b.tasks[id].(worker := a.tasks[id].worker)
  }

  /** A schedule of cached answers and batch reports that delivers every queued address. */
  ghost predicate Schedule(v: Oracle, st: State, evs: seq<Event>) {
    LiveRun(st, evs) && TruthfulRun(v, st, evs) && Wanted(st) <= Rowed(st) + Delivered(st, evs)
  }

  /** Any two schedules - reordered, split, repeated, with pauses, reclaims and refund checks in between - end with the
      same rows, counters, tasks, job status, ledger and balance. */
  lemma DeliveryDoesNotMatter(v: Oracle, st: State, one: seq<Event>, two: seq<Event>)
    requires Schedule(v, st, one) && Schedule(v, st, two)
    ensures var a, b := Run(st, one), Run(st, two);
            && a.job == b.job && a.job.status == Completed
            && multiset(a.rows) == multiset(b.rows)
            && SameTasks(a, b) && a.ledger == b.ledger && a.credits == b.credits
  {
    hide Inv, Legal, Step, Delivering, Truthful, Settled, SameParts, SameTasks, Emails, Queue, FinishedJob, AnswersTo;
    CompletesAs(v, st, one);
    CompletesAs(v, st, two);
    SettledAlike(st, Run(st, one), Run(st, two));
    SameFinishedTasks(st, Run(st, one), Run(st, two));
  }

  lemma CompletesAs(v: Oracle, st: State, evs: seq<Event>)
    requires Schedule(v, st, evs)
    ensures forall e | e in Queue(st.source) :: e in v
    ensures var end := Run(st, evs);
            && Live(end) && SameParts(st, end) && Settled(st, end) && end.job.status == Completed
            && multiset(end.rows) == multiset(AnswersTo(v, Queue(st.source)))
            && end.job == FinishedJob(st.source, AnswersTo(v, Queue(st.source)))
  {
    hide Inv, Legal, Step, Delivering, Truthful, Settled, SameParts, Emails, Queue, FinishedJob, AnswersTo, AllSay;
    DeliveringRun(st, evs);
    AnswersRun(v, st, evs);
    FullyDelivered(Run(st, evs));
    OutcomeOfRun(v, st, evs);
  }

  lemma SettledAlike(st: State, a: State, b: State)
    requires Settled(st, a) && Settled(st, b) && a.job == b.job
    ensures a.ledger == b.ledger && a.credits == b.credits
  {
  }

  lemma SameFinishedTasks(st: State, a: State, b: State)
    requires Live(a) && Live(b) && SameParts(st, a) && SameParts(st, b) && a.job.status == Completed && b.job.status == Completed
    ensures SameTasks(a, b)
  {
    hide Inv;
    forall id | id in a.tasks ensures a.tasks[id] == b.tasks[id].(worker := a.tasks[id].worker) {
      FinishedTask(a, id);
      FinishedTask(b, id);
    }
  }

  // ---------------------------------------------------------------- a quiet job completes

  /** From acceptance on nothing was stranded, and now nothing is being enqueued and the job waits for its workers. */
  ghost predicate Quiet(s: Submission, before: seq<Event>, st: State) {
    && RunsTo(s, before, st) && NoneStranded(Submit(s).state, before)
    && !st.deleted && st.flight == None && st.job.status in {Pending, Processing}
  }

  /** The addresses reported for a task. */
  function Reported(evs: seq<Event>, id: TaskId): set<Email> {
    if evs == [] then {}
    else (if evs[0].ReportEv? && evs[0].task == id then Emails(evs[0].results) else {}) + Reported(evs[1..], id)
  }

  /** Every address of every payload sent for a current task has been reported at least once. */
  ghost predicate AllReported(st: State, evs: seq<Event>) {
    forall id | id in st.tasks && id in st.sent :: st.sent[id] <= Reported(evs, id)
  }

  lemma {:induction false} ReportedDelivered(st: State, evs: seq<Event>, id: TaskId)
    requires LiveRun(st, evs) && id in st.tasks
    ensures Reported(evs, id) <= Delivered(st, evs)
    decreases |evs|
  {
    hide Live, Legal, Step, SameParts, Settled, Delivering, Emails;
    if evs != [] {
      DeliveringStep(st, evs[0]);
      StillThere(st, Step(st, evs[0]), id);
      ReportedDelivered(Step(st, evs[0]), evs[1..], id);
    }
  }

  lemma StillThere(a: State, b: State, id: TaskId)
    requires SameParts(a, b) && id in a.tasks
    ensures id in b.tasks
  {
  }

  /** Reporting every payload of a quiet job at least once - in any order, split or repeated, with reclaims, pauses and
      refund checks in between - completes the job: every address has its row. */
  lemma AllReportedCompletes(s: Submission, before: seq<Event>, st: State, evs: seq<Event>)
    requires Quiet(s, before, st) && LiveRun(st, evs) && AllReported(st, evs)
    ensures Run(st, evs).job.status == Completed && Rowed(Run(st, evs)) == Wanted(st)
  {
    hide Inv, Legal, Step, Settled, SameParts, Delivering, Emails, Queue, RunsTo, NoneStranded, Reported, Delivered;
    forall e | e in Wanted(st) ensures e in Rowed(st) + Delivered(st, evs) {
      if e !in Rowed(st) {
        QueuedForWorkers(s, before, st, e);
        var id :| id in st.tasks && e in st.tasks[id].emails && e in SentTo(st, id);
        ReportedDelivered(st, evs, id);
      }
    }
    DeliveringRun(st, evs);
    QuietSource(st, evs);
    FullyDelivered(Run(st, evs));
    CompleteRows(Run(st, evs));
  }

  lemma {:induction false} QuietSource(st: State, evs: seq<Event>)
    requires LegalRun(st, evs)
    ensures Run(st, evs).source == st.source
    decreases |evs|
  {
    hide Legal, Step;
    if evs != [] {
      StepSource(st, evs[0]);
      QuietSource(Step(st, evs[0]), evs[1..]);
    }
  }

  lemma CompleteRows(st: State)
    requires Live(st) && st.job.status == Completed
    ensures Rowed(st) == Wanted(st)
  {
    hide Queue, Emails, Summary, Recount, Normalize;
  }

  /** One report per listed task, with its answers. */
  function Reports(ids: seq<TaskId>, server: string, answers: map<TaskId, seq<Row>>): (evs: seq<Event>)
    requires forall id | id in ids :: id in answers
    ensures forall ev | ev in evs :: Delivering(ev)
  {
    if ids == [] then [] else [ReportEv(ids[0], server, answers[ids[0]])] + Reports(ids[1..], server, answers)
  }

  /** The answers are one row for each address of the payload. */
  ghost predicate Answered(st: State, ids: seq<TaskId>, answers: map<TaskId, seq<Row>>) {
    forall id | id in ids ::
      id in answers && id in st.sent && answers[id] != [] && DistinctEmails(answers[id]) && Emails(answers[id]) == st.sent[id]
  }

  lemma {:induction false} ReportsLegal(st: State, ids: seq<TaskId>, server: string, answers: map<TaskId, seq<Row>>)
    requires server != "" && Answered(st, ids, answers)
    ensures LegalRun(st, Reports(ids, server, answers))
    ensures forall id | id in ids :: Emails(answers[id]) <= Reported(Reports(ids, server, answers), id)
    decreases |ids|
  {
    hide Report, Emails, Delivering;
    if ids != [] {
      var ev := ReportEv(ids[0], server, answers[ids[0]]);
      assert Legal(st, ev);
      ReportSends(st, ids[0], server, answers[ids[0]]);
      ReportsLegal(Step(st, ev), ids[1..], server, answers);
    }
  }

  lemma ReportSends(st: State, id: TaskId, server: string, results: seq<Row>)
    ensures Report(st, id, server, results).sent == st.sent
  {
    hide Emails, Fresh, Advance;
  }

  /** So a quiet job can always be finished: one report per payload is a legal run, and completes it. */
  lemma OneReportEachCompletes(s: Submission, before: seq<Event>, st: State, ids: seq<TaskId>, server: string,
                               answers: map<TaskId, seq<Row>>)
    requires Quiet(s, before, st) && server != "" && Answered(st, ids, answers)
    requires forall id | id in st.tasks && id in st.sent :: id in ids
    ensures LegalRun(st, Reports(ids, server, answers))
    ensures Run(st, Reports(ids, server, answers)).job.status == Completed
  {
    hide Inv, Legal, Step, Delivering, Emails, Queue, RunsTo, NoneStranded, Reported, Reports;
    ReportsLegal(st, ids, server, answers);
    assert Live(st) by { QuietLive(s, before, st); }
    AllReportedCompletes(s, before, st, Reports(ids, server, answers));
  }

  lemma QuietLive(s: Submission, before: seq<Event>, st: State)
    requires Quiet(s, before, st)
    ensures Live(st)
  {
    hide Inv, RunsTo, NoneStranded;
    assert Reachable(st);
    ReachableInv(st);
  }
}
