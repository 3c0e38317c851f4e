/** Concrete runs of the bulk-job protocol: two addresses in two chunks, on which the exact conditions fail. */
module JobWitness {
  import opened Text
  import opened Mailbox
  import opened Verdicts
  import opened BulkQueue
  import opened DomainIntel
  import opened JobState
  import opened JobRows
  import opened JobInvariant
  import opened JobSteps
  import opened JobHistory
  import opened JobDelivery
  import opened JobBilling
  import opened JobRaces

  const A := "a@bb.co"
  const B := "c@bb.co"

  function Answer(email: Email, verdict: Verdict): Row {
    Row(email, verdict, verdict == Valid, false, false, false)
  }

  const RA := Answer(A, Valid)
  const RB := Answer(B, Valid)

  // ---------------------------------------------------------------- two valid addresses

  lemma Indices(e: Email)
    requires e == A || e == B
    ensures FirstIndex(e, '@') == 1 == LastIndex(e, '@')
    ensures e[..1] == (if e == A then "a" else "c") && e[2..] == "bb.co" && |e| == 7
  {
    hide FirstIndex, LastIndex;
    assert e[1] == '@' && e[0] != '@' && forall i | 2 <= i < |e| :: e[i] != '@';
  }

  lemma Canonical(e: Email)
    requires e == A || e == B
    ensures Normalize(e) == e
  {
    assert Trim(e) == e;
    assert forall i | 0 <= i < |e| :: LowerChar(e[i]) == e[i];
  }

  /** The domain passes its part of the syntax gate. */
  lemma GoodDomain()
    ensures LastIndex("bb.co", '.') == 2 && !HasDoubleDot("bb.co") && forall c | c in "bb.co" :: IsDomainChar(c)
  {
    assert "bb.co"[2] == '.';
  }

  lemma ValidAddress(e: Email)
    requires e == A || e == B
    ensures IsValidMailboxSyntax(e) && Normalize(e) == e && e != ""
  {
    hide Normalize, HasDoubleDot, LastIndex, FirstIndex, IsDomainChar;
    Indices(e);
    Canonical(e);
    GoodDomain();
    assert !HasDoubleDot(e[..1]) by { ShortLocal(e[..1]); }
    assert forall c | c in e[..1] :: IsLocalChar(c);
  }

  lemma ShortLocal(local: string)
    requires |local| == 1
    ensures !HasDoubleDot(local)
  {
  }

  lemma Distinct()
    ensures A != B
  {
    assert A[0] != B[0];
  }

  predicate Plain(e: Email) {
    IsValidMailboxSyntax(e) && Normalize(e) == e && e != ""
  }

  lemma BothPlain()
    ensures Plain(A) && Plain(B) && A != B
  {
    hide IsValidMailboxSyntax, Normalize;
    ValidAddress(A);
    ValidAddress(B);
    Distinct();
  }

  lemma QueueOfTwo(a: Email, b: Email)
    requires Plain(a) && Plain(b) && a != b
    ensures Queue([a, b]) == [a, b] && Deduped([a, b]) == [a, b]
  {
    hide IsValidMailboxSyntax, Normalize;
    assert [a, b][..1] == [a] && [a][..0] == [];
    assert Queue([a]) == [a] && Deduped([a]) == [a];
  }

  lemma UnrowedOfTwo(a: Email, b: Email, rowed: set<Email>)
    requires Plain(a) && Plain(b)
    ensures Unrowed([a, b], rowed) == (if a in rowed then [] else [a]) + (if b in rowed then [] else [b])
  {
    hide IsValidMailboxSyntax, Normalize;
    assert [a, b][..1] == [a] && [a][..0] == [];
    assert Unrowed([a], rowed) == if a in rowed then [] else [a];
  }

  lemma RemainingOfTwo(a: Email, b: Email, r: Row)
    requires Plain(a) && Plain(b) && a != b && r.email == a
    ensures Remaining([a, b], [r]) == [b] && Remaining([a, b], []) == [a, b]
  {
    hide IsValidMailboxSyntax, Normalize, Unrowed;
    var rowed := set x | x in [r] :: Normalize(x.email);
    assert r in [r];
    assert rowed == {a};
    var none := set x: Row | x in [] :: Normalize(x.email);
    assert none == {};
    UnrowedOfTwo(a, b, rowed);
    UnrowedOfTwo(a, b, none);
  }

  lemma QueuedBoth()
    ensures Queue([A, B]) == [A, B] && Deduped([A, B]) == [A, B]
    ensures Elements([A, B]) == {A, B}
  {
    hide Plain, Queue, Deduped, A, B;
    BothPlain();
    QueueOfTwo(A, B);
  }

  lemma LeftOver()
    ensures Remaining([A, B], [RA]) == [B] && Remaining([A, B], []) == [A, B]
  {
    hide Plain, Remaining, A, B;
    BothPlain();
    RemainingOfTwo(A, B, RA);
  }

  // ---------------------------------------------------------------- launching them

  /** Both addresses, a chunk each, with what the cache knows. */
  function Two(cache: map<Email, Row>): Batch {
    Batch([A, B], [Chunk(0, 0), Chunk(1, 1)], cache, map[])
  }

  const REST := Batch([B], [Chunk(0, 0)], map[], map[])

  predicate Own(cache: map<Email, Row>) {
    forall e | e in cache :: cache[e].email == e
  }

  lemma Batches(cache: map<Email, Row>)
    requires Own(cache)
    ensures BatchOf(Two(cache), [A, B]) && BatchOf(REST, [B])
    ensures Tiles(Two(cache).chunks, 2) && Tiles(REST.chunks, 1)
  {
  }

  lemma NoIntel(e: Email)
    ensures ResolveDomainIntel(e, map[]) == None
  {
    hide Split, Normalize, DomainOf, A, B;
    NoPolicies(Split(Normalize(DomainOf(e)), '.'), 0, map[]);
  }

  /** The plan of a chunk of one address. */
  function PlanFor(id: TaskId, e: Email, cache: map<Email, Row>): Plan {
    if e in cache then Plan(id, [], [cache[e]]) else Plan(id, [e], [])
  }

  function Waiting(e: Email): Task {
    Task(1, {e}, 0, Queued, "")
  }

  lemma SingleChunk(id: TaskId, e: Email, cache: map<Email, Row>)
    ensures Plan(id, Misses([e], cache, map[]), Hits([e], cache, map[])) == PlanFor(id, e, cache)
    ensures Elements([e]) == {e}
  {
    hide ResolveDomainIntel, A, B;
    NoIntel(e);
    assert [e][..0] == [];
  }

  lemma LaunchTwo(st: State, cache: map<Email, Row>, refund: bool)
    ensures var plans := [PlanFor(st.nextId, A, cache), PlanFor(st.nextId + 1, B, cache)];
            Launch(st, Two(cache), refund)
            == st.(tasks := map[st.nextId := Waiting(A), st.nextId + 1 := Waiting(B)], nextId := st.nextId + 2,
                   flight := Some(Flight(2, refund, plans, plans, [])))
  {
    hide Hits, Misses, Elements, A, B;
    var b := Two(cache);
    SingleChunk(st.nextId, A, cache);
    SingleChunk(st.nextId + 1, B, cache);
    assert Slice(b.ordered, b.chunks[0]) == [A] && Slice(b.ordered, b.chunks[1]) == [B];
    assert Plans(st.nextId, b.ordered, b.chunks, cache, map[]) == [PlanFor(st.nextId, A, cache), PlanFor(st.nextId + 1, B, cache)];
    var one := NewTasks(st.nextId, b.ordered, b.chunks, 1);
    assert one == map[st.nextId := Waiting(A)];
    assert NewTasks(st.nextId, b.ordered, b.chunks, 2) == one[st.nextId + 1 := Waiting(B)];
  }

  lemma LaunchRestOnly(st: State, refund: bool)
    ensures var plans := [Plan(st.nextId, [B], [])];
            Launch(st, REST, refund)
            == st.(tasks := map[st.nextId := Waiting(B)], nextId := st.nextId + 1,
                   flight := Some(Flight(1, refund, plans, plans, [])))
  {
    hide Hits, Misses, Elements, A, B;
    SingleChunk(st.nextId, B, map[]);
    assert Slice(REST.ordered, REST.chunks[0]) == [B];
    assert Plans(st.nextId, REST.ordered, REST.chunks, map[], map[]) == [Plan(st.nextId, [B], [])];
    assert NewTasks(st.nextId, REST.ordered, REST.chunks, 1) == map[st.nextId := Waiting(B)];
  }

  // ---------------------------------------------------------------- single steps

  /** The next chunk of a list that is still to be sent. */
  lemma SendNext(st: State, plan: Plan, rest: seq<Plan>)
    requires st.flight.Some? && st.flight.value.toSend == [plan] + rest
    ensures Legal(st, SendEv)
    ensures var f := Some(st.flight.value.(toSend := rest));
            Step(st, SendEv) == if plan.misses == [] then st.(flight := f) else st.(flight := f, sent := st.sent[plan.task := Elements(plan.misses)])
  {
    assert ([plan] + rest)[0] == plan && ([plan] + rest)[1..] == rest;
  }

  /** A chunk without cached answers is written off the list. */
  lemma SkipNext(st: State, plan: Plan, rest: seq<Plan>)
    requires st.flight.Some? && st.flight.value.toSend == [] && st.flight.value.toWrite == [plan] + rest && plan.hits == []
    ensures Legal(st, WriteEv)
    ensures Step(st, WriteEv) == st.(flight := Some(st.flight.value.(toWrite := rest)))
  {
    NothingToWrite(st);
    assert ([plan] + rest)[0] == plan && ([plan] + rest)[1..] == rest;
  }

  lemma PrepareNow(st: State, cache: map<Email, Row>)
    requires !st.deleted && st.job.status == Preparing && st.flight == None && st.source == [A, B] && Own(cache)
    ensures Legal(st, PrepareEv(Two(cache))) && Step(st, PrepareEv(Two(cache))) == Launch(st, Two(cache), true)
  {
    hide Queue, Launch, A, B;
    QueuedBoth();
    Batches(cache);
  }

  lemma RequeueLegal(st: State, b: Batch)
    requires st.flight == None && BatchOf(b, Remaining(st.source, st.rows))
    ensures Legal(st, ResumeEv(b)) && Step(st, ResumeEv(b)) == Requeue(st, false, b)
    ensures Legal(st, RetryEv(b)) && Step(st, RetryEv(b)) == Requeue(st, true, b)
  {
    hide Remaining, BatchOf, Requeue, A, B;
  }

  lemma TwoTiles(cache: map<Email, Row>)
    ensures Tiles(Two(cache).chunks, |Two(cache).ordered|)
  {
  }

  lemma ResumeState(st: State, cache: map<Email, Row>)
    requires !st.deleted && st.job.status == Paused && st.source == [A, B] && st.rows == [] && st.job.invalidSyntax == 0
    ensures Tiles(Two(cache).chunks, |Two(cache).ordered|)
    ensures Requeue(st, false, Two(cache)) == Launch(st.(job := st.job.(status := Pending, processed := 0)), Two(cache), false)
  {
    hide Queue, Remaining, Launch, Requeue, Tiles, Deduped, A, B;
    QueuedBoth();
    LeftOver();
    TwoTiles(cache);
    RequeueCases(st, false, Two(cache));
  }

  lemma ResumeNow(st: State, cache: map<Email, Row>)
    requires !st.deleted && st.job.status == Paused && st.flight == None && st.source == [A, B] && st.rows == [] && Own(cache)
    requires st.job.invalidSyntax == 0
    ensures Legal(st, ResumeEv(Two(cache)))
    ensures Step(st, ResumeEv(Two(cache))) == Launch(st.(job := st.job.(status := Pending, processed := 0)), Two(cache), false)
  {
    hide Remaining, Launch, BatchOf, Requeue, Legal, Step, Tiles, A, B;
    LeftOver();
    Batches(cache);
    ResumeState(st, cache);
    RequeueLegal(st, Two(cache));
  }

  lemma RetryState(st: State)
    requires !st.deleted && st.job.status == Failed && st.source == [A, B] && st.rows == [RA]
    requires st.job.invalidSyntax == 0 && st.job.total == 2 && st.credits >= 1
    ensures Tiles(REST.chunks, |REST.ordered|)
    ensures Requeue(st, true, REST)
         == Launch(st.(credits := st.credits - 1, ledger := st.ledger + [Charge(1)], job := st.job.(status := Pending, processed := 1)), REST, true)
  {
    hide Queue, Remaining, Launch, Requeue, A, B;
    QueuedBoth();
    LeftOver();
    RequeueCases(st, true, REST);
  }

  lemma RetryNow(st: State)
    requires !st.deleted && st.job.status == Failed && st.flight == None && st.source == [A, B] && st.rows == [RA]
    requires st.job.invalidSyntax == 0 && st.job.total == 2 && st.credits >= 1
    ensures Legal(st, RetryEv(REST))
    ensures Step(st, RetryEv(REST))
         == Launch(st.(credits := st.credits - 1, ledger := st.ledger + [Charge(1)], job := st.job.(status := Pending, processed := 1)), REST, true)
  {
    hide Remaining, Launch, BatchOf, Requeue, Legal, Step, Tiles, A, B;
    LeftOver();
    Batches(map[]);
    RetryState(st);
    RequeueLegal(st, REST);
  }

  lemma OneRow(r: Row)
    ensures Emails([]) == {} && Emails([r]) == {r.email} && DistinctEmails([r])
    ensures r.verdict == Valid && !r.isCatchAll && !r.isDisposable && !r.isRole ==> Recount([r]) == Tally(1, 0, 0, 0, 0, 0)
    ensures r.verdict == Unknown && !r.isCatchAll && !r.isDisposable && !r.isRole ==> Recount([r]) == Tally(0, 0, 1, 0, 0, 0)
  {
    assert [r][..0] == [];
    assert forall c :: CountIf(c, []) == 0;
  }

  lemma NewRow(r: Row, known: set<Email>)
    requires r.email !in known
    ensures Fresh([r], known) == [r]
  {
    assert [r][..0] == [];
  }

  /** The answer to one address of a task of one. */
  function Answered(e: Email): Task {
    Task(1, {e}, 1, Done, "w")
  }

  /** The one answer of a task of one is reported. */
  lemma ReportOne(st: State, id: TaskId, r: Row)
    requires !st.deleted && !Terminal(st.job.status) && id in st.tasks && st.tasks[id] == Waiting(r.email)
    requires r.email !in Emails(st.rows) && id in st.sent && st.sent[id] == {r.email}
    ensures Legal(st, ReportEv(id, "w", [r]))
    ensures Step(st, ReportEv(id, "w", [r]))
         == RiskyRefund(st.(rows := st.rows + [r], job := Advance(st.job, [r]), tasks := st.tasks[id := Answered(r.email)]))
  {
    hide Emails, Fresh, Advance, RiskyRefund, A, B;
    OneRow(r);
    NewRow(r, Emails(st.rows));
  }

  /** A first valid answer of several leaves the job processing, with nothing to refund. */
  lemma ReportFirst(st: State, id: TaskId, e: Email)
    requires !st.deleted && st.job.status == Preparing && st.job.processed + 1 < st.job.total
    requires id in st.tasks && st.tasks[id] == Waiting(e) && e !in Emails(st.rows) && id in st.sent && st.sent[id] == {e}
    ensures Legal(st, ReportEv(id, "w", [Answer(e, Valid)]))
    ensures Step(st, ReportEv(id, "w", [Answer(e, Valid)]))
         == st.(rows := st.rows + [Answer(e, Valid)], tasks := st.tasks[id := Answered(e)],
                job := st.job.(status := Processing, processed := st.job.processed + 1,
                               tally := st.job.tally.(deliverable := st.job.tally.deliverable + 1)))
  {
    hide Legal, Step, Emails, Recount, A, B;
    OneRow(Answer(e, Valid));
    ReportOne(st, id, Answer(e, Valid));
  }

  /** The last answer completes the job; with a full refund on record nothing is paid back. */
  lemma ReportLast(st: State, id: TaskId, e: Email, verdict: Verdict)
    requires !st.deleted && st.job.status == Pending && st.job.processed + 1 == st.job.total && verdict in {Valid, Unknown}
    requires id in st.tasks && st.tasks[id] == Waiting(e) && e !in Emails(st.rows) && id in st.sent && st.sent[id] == {e}
    requires exists entry | entry in st.ledger :: !entry.Charge?
    ensures Legal(st, ReportEv(id, "w", [Answer(e, verdict)]))
    ensures Step(st, ReportEv(id, "w", [Answer(e, verdict)]))
         == st.(rows := st.rows + [Answer(e, verdict)], tasks := st.tasks[id := Answered(e)],
                job := st.job.(status := Completed, processed := st.job.total,
                               tally := if verdict == Valid then st.job.tally.(deliverable := st.job.tally.deliverable + 1)
                                        else st.job.tally.(risky := st.job.tally.risky + 1)))
  {
    hide Legal, Step, Emails, Recount, A, B;
    OneRow(Answer(e, verdict));
    ReportOne(st, id, Answer(e, verdict));
  }

  // ---------------------------------------------------------------- accepted, queued, half sent, half reported

  const ACCEPTED := State([A, B], Job(Preparing, 2, 0, 0, Tally(0, 0, 0, 0, 0, 0)), false, map[], 0, [], map[], None, 0, [Charge(2)])

  lemma AcceptedReached()
    ensures Reached(ACCEPTED)
  {
    hide Queue, Deduped, A, B;
    QueuedBoth();
    var s := Submission([A, B], 2, 0, 10, 0);
    assert Submit(s) == Created(ACCEPTED);
    assert RunsTo(s, [], ACCEPTED);
  }

  const QUEUED := ACCEPTED.(tasks := map[0 := Waiting(A), 1 := Waiting(B)], nextId := 2,
                            flight := Some(Flight(2, true, [Plan(0, [A], []), Plan(1, [B], [])], [Plan(0, [A], []), Plan(1, [B], [])], [])))

  lemma QueuedReached()
    ensures Reached(QUEUED)
  {
    hide Legal, Step, Launch, Reachable, A, B;
    AcceptedReached();
    PrepareNow(ACCEPTED, map[]);
    LaunchTwo(ACCEPTED, map[], true);
    ReachStep(ACCEPTED, PrepareEv(Two(map[])));
  }

  const HALF_SENT := QUEUED.(sent := map[0 := {A}],
                             flight := Some(Flight(2, true, [Plan(1, [B], [])], [Plan(0, [A], []), Plan(1, [B], [])], [])))

  lemma HalfSentReached()
    ensures Reached(HALF_SENT)
  {
    hide Legal, Step, Reachable, A, B;
    QueuedReached();
    SendNext(QUEUED, Plan(0, [A], []), [Plan(1, [B], [])]);
    assert Elements([A]) == {A};
    assert QUEUED.sent[0 := {A}] == HALF_SENT.sent;
    ReachStep(QUEUED, SendEv);
  }

  const REPORTED := HALF_SENT.(rows := [RA], tasks := map[0 := Answered(A), 1 := Waiting(B)],
                               job := Job(Processing, 2, 0, 1, Tally(1, 0, 0, 0, 0, 0)))

  lemma ReportedStep()
    ensures Legal(HALF_SENT, ReportEv(0, "w", [RA])) && Step(HALF_SENT, ReportEv(0, "w", [RA])) == REPORTED
  {
    hide Legal, Step, Emails, A, B;
    OneRow(RA);
    ReportFirst(HALF_SENT, 0, A);
    assert HALF_SENT.tasks[0 := Answered(A)] == REPORTED.tasks;
    assert [] + [RA] == [RA];
  }

  lemma ReportedReached()
    ensures Reached(REPORTED)
  {
    hide Legal, Step, Reachable, A, B;
    HalfSentReached();
    ReportedStep();
    ReachStep(HALF_SENT, ReportEv(0, "w", [RA]));
  }

  // ---------------------------------------------------------------- witnesses: crashes and reconciliation

  /** An accepted job is declared completed by reconciliation before it has any tasks. */
  lemma ReconciledTooEarly() returns (st: State)
    ensures Reached(st) && Reconcile(st) != st && st.job.status == Preparing && Reconcile(st).job.status == Completed
  {
    hide CountTasks, Requeued, A, B;
    st := ACCEPTED;
    AcceptedReached();
    CountNone(map[], Queued);
    CountNone(map[], Running);
    CountNone(map[], Broken);
    NoneRequeued();
  }

  /** The first report ends `preparing` with a chunk still to be queued. */
  lemma ReportEndsPreparingEarly() returns (st: State, st': State)
    ensures Reached(st) && st.job.status == Preparing && Legal(st, ReportEv(0, "w", [RA]))
    ensures st' == Step(st, ReportEv(0, "w", [RA])) && st'.job.status == Processing && PlanPending(st', 1, B)
  {
    st, st' := HALF_SENT, REPORTED;
    HalfSentReached();
    ReportedStep();
    StillPending(REPORTED);
  }

  lemma StillPending(st: State)
    requires st.flight.Some? && st.flight.value.toSend == [Plan(1, [B], [])]
    ensures PlanPending(st, 1, B)
  {
    assert Plan(1, [B], []) in st.flight.value.toSend && B in Plan(1, [B], []).misses;
  }

  /** A crash after that report strands the other address. */
  lemma CrashStrands() returns (st: State)
    ensures Reached(st) && Legal(st, Crash) && Strands(st, Crash) && Stranded(Step(st, Crash), 1, B)
  {
    hide PlanPending, Emails, Reachable, A, B;
    st := REPORTED;
    ReportedReached();
    StillPending(st);
    Distinct();
    OneRow(RA);
  }

  /** The same crash before it is repaired by preparing again. */
  lemma CrashRepaired() returns (st: State, b: Batch)
    ensures Reached(st) && st.flight.Some? && PlanPending(st, 1, B)
    ensures BatchOf(b, Queue(st.source)) && OnItsWay(Prepare(st.(flight := None), b))
  {
    hide PlanPending, Reachable, Prepare, OnItsWay, Queue, BatchOf, Legal, Step, A, B;
    st, b := HALF_SENT, Two(map[]);
    HalfSentReached();
    StillPending(st);
    QueuedBoth();
    Batches(map[]);
    CrashNow(st);
    CrashRepairedIff(st, b);
  }

  lemma CrashNow(st: State)
    requires st.flight.Some? && !st.deleted
    ensures Legal(st, Crash) && Step(st, Crash) == st.(flight := None)
  {
  }

  /** So does a report that overtakes the repeated preparation. */
  lemma OvertakenReportStrands() returns (st: State)
    ensures Reached(st) && Legal(st, ReportEv(0, "w", [RA])) && Strands(st, ReportEv(0, "w", [RA]))
  {
    hide Emails, Fresh, Reachable, A, B;
    st := HALF_SENT.(flight := None);
    HalfSentReached();
    ReachStep(HALF_SENT, Crash);
    OneRow(RA);
    NewRow(RA, {});
    Distinct();
    assert B in st.tasks[1].emails && B !in Rowed(st) && B !in SentTo(st, 1);
    assert !PlanPending(st, 1, B);
  }

  // ---------------------------------------------------------------- witnesses: retries

  const FAILED := REPORTED.(flight := None, credits := 2, ledger := [Charge(2), FullRefund(2)],
                            job := REPORTED.job.(status := Failed),
                            tasks := map[0 := Answered(A).(status := Broken), 1 := Waiting(B).(status := Broken)])

  const RETRIED := FAILED.(credits := 1, ledger := [Charge(2), FullRefund(2), Charge(1)], job := REPORTED.job.(status := Pending),
                           tasks := map[2 := Waiting(B)], nextId := 3,
                           flight := Some(Flight(1, true, [Plan(2, [B], [])], [Plan(2, [B], [])], [])))

  const RUNNING := RETRIED.(sent := map[0 := {A}, 2 := {B}], flight := None)

  lemma BothBroken(a: Task, b: Task)
    ensures AllBroken(map[0 := a, 1 := b]) == map[0 := a.(status := Broken), 1 := b.(status := Broken)]
  {
  }

  lemma FailedReached()
    ensures Reached(FAILED)
  {
    hide Legal, Step, Reachable, AllBroken, A, B;
    ReportedReached();
    SendFailsNow(REPORTED);
    BothBroken(Answered(A), Waiting(B));
    assert [Charge(2)] + [FullRefund(2)] == FAILED.ledger;
    ReachStep(REPORTED, SendFails);
  }

  lemma SendFailsNow(st: State)
    requires st.flight.Some? && st.flight.value.toSend == [Plan(1, [B], [])] && st.flight.value.refundOnFailure
    ensures Legal(st, SendFails) && Step(st, SendFails) == Refund(st.(flight := None), st.flight.value.queued)
  {
  }

  lemma RetriedReached()
    ensures Reached(RETRIED)
  {
    hide Legal, Step, Launch, Reachable, A, B;
    FailedReached();
    RetryNow(FAILED);
    LaunchRestOnly(FAILED.(credits := 1, ledger := FAILED.ledger + [Charge(1)], job := FAILED.job.(status := Pending, processed := 1)), true);
    assert FAILED.ledger + [Charge(1)] == RETRIED.ledger;
    ReachStep(FAILED, RetryEv(REST));
  }

  lemma RunningReached()
    ensures Reached(RUNNING)
  {
    hide Legal, Step, Reachable, A, B;
    RetriedReached();
    var f := RETRIED.flight.value;
    var sent := RUNNING.(flight := Some(f.(toSend := [])));
    var written := RUNNING.(flight := Some(f.(toSend := [], toWrite := [])));
    assert Elements([B]) == {B} && RETRIED.sent[2 := {B}] == RUNNING.sent;
    SendNext(RETRIED, Plan(2, [B], []), []);
    ReachStep(RETRIED, SendEv);
    SkipNext(sent, Plan(2, [B], []), []);
    ReachStep(sent, WriteEv);
    FinishNow(written);
    ReachStep(written, FinishEv);
  }

  lemma FinishNow(st: State)
    requires st.flight.Some? && st.flight.value.toSend == [] && st.flight.value.toWrite == []
    ensures Legal(st, FinishEv) && Step(st, FinishEv) == Finish(st)
  {
  }

  lemma PauseNow(st: State)
    ensures Legal(st, PauseEv) && Step(st, PauseEv) == Pause(st)
  {
  }

  lemma RetriedLedger()
    ensures var b := Summary([Charge(2), FullRefund(2), Charge(1)]);
            b.net == 1 && b.lastCharge == 1 && b.charges == 2 && b.fullRefunds == 1 && b.unknownRefunds == 0
  {
    hide Summary, A, B;
    NoEntries();
    assert Summary([]) == Bill(0, 0, 0, 0, 0, 0) by { EmptyBill(); }
    SummarySnoc([], Charge(2));
    SummarySnoc([Charge(2)], FullRefund(2));
    SummarySnoc([Charge(2), FullRefund(2)], Charge(1));
    assert [] + [Charge(2)] == [Charge(2)];
    assert [Charge(2)] + [FullRefund(2)] == [Charge(2), FullRefund(2)];
    assert [Charge(2), FullRefund(2)] + [Charge(1)] == [Charge(2), FullRefund(2), Charge(1)];
  }

  lemma EmptyBill()
    ensures Summary([]) == Bill(0, 0, 0, 0, 0, 0)
  {
  }

  /** Two addresses in two chunks, one reported, the second send fails, retry, pause, delete: one known answer, nothing paid. */
  lemma DeletedRetryOverpaid() returns (st: State)
    ensures Reached(st) && st.job.status == Paused && st.flight == None
    ensures Net(Delete(st)) != KnownAnswers(st)
  {
    hide Summary, Delete, CountIf, Reachable, A, B;
    st := PausedRetry();
    RetriedLedger();
    DeletePausedIff(st);
  }

  lemma PausedRetry() returns (st: State)
    ensures Reached(st) && st.job.status == Paused && st.flight == None
    ensures st.job.total == 2 && st.job.invalidSyntax == 0 && st.ledger == [Charge(2), FullRefund(2), Charge(1)]
  {
    hide Reachable, Legal, Step, A, B;
    RunningReached();
    PauseNow(RUNNING);
    ReachStep(RUNNING, PauseEv);
    st := RUNNING.(job := RUNNING.job.(status := Paused));
  }

  /** The retried job once its last address is answered. */
  function Finished(verdict: Verdict): State {
    var known := if verdict == Valid then 1 else 0;
    RUNNING.(rows := [RA, Answer(B, verdict)], tasks := map[2 := Answered(B)],
             job := Job(Completed, 2, 0, 2, Tally(1 + known, 0, 1 - known, 0, 0, 0)))
  }

  lemma FinishedReached(verdict: Verdict)
    requires verdict in {Valid, Unknown}
    ensures Reached(Finished(verdict))
  {
    hide Legal, Step, Reachable, Emails, A, B;
    RunningReached();
    var r := Answer(B, verdict);
    OneRow(RA);
    Distinct();
    assert FullRefund(2) in RUNNING.ledger;
    ReportLast(RUNNING, 2, B, verdict);
    assert RUNNING.tasks[2 := Answered(B)] == Finished(verdict).tasks;
    assert [RA] + [r] == Finished(verdict).rows;
    ReachStep(RUNNING, ReportEv(2, "w", [r]));
  }

  /** A retried job with an unknown answer completes without paying it back. */
  lemma UnknownNotPaidBack() returns (st: State)
    ensures Reached(st) && st.job.status == Completed && st.job.tally.risky == 1 && Summary(st.ledger).unknownRefunds == 0
  {
    st := Finished(Unknown);
    FinishedReached(Unknown);
    RetriedLedger();
  }

  /** A retried job with only known answers completes at the price of the second half. */
  lemma RetriedHalfPrice() returns (st: State)
    ensures Reached(st) && st.job.status == Completed && Charges(st) > 1 && Net(st) != KnownAnswers(st)
  {
    hide Summary, CountIf, A, B;
    st := Finished(Valid);
    FinishedReached(Valid);
    RetriedLedger();
    RetriedCompletedIff(st);
  }

  // ---------------------------------------------------------------- witnesses: overlapping an enqueue

  /** The half-sent job, reported and paused, deleted, and its second send failing: refunded twice. */
  lemma DeletedInFlightTwiceRefunded() returns (st: State)
    ensures Reached(st) && st.job.status == Paused && st.flight.Some? && Charges(st) == 1
    ensures Net(FailSend(Delete(st))) != KnownAnswers(st)
  {
    hide Delete, FailSend, Summary, CountIf, Reachable, A, B;
    st := PausedReported();
    EmptyBill();
    SummarySnoc([], Charge(2));
    assert [] + [Charge(2)] == [Charge(2)];
    DeletedInFlightIff(st, []);
  }

  lemma PausedReported() returns (st: State)
    ensures Reached(st) && st.job.status == Paused && st.flight.Some? && st.flight.value.refundOnFailure && st.ledger == [Charge(2)]
  {
    hide Reachable, Legal, Step, A, B;
    ReportedReached();
    PauseNow(REPORTED);
    ReachStep(REPORTED, PauseEv);
    st := REPORTED.(job := REPORTED.job.(status := Paused));
  }

  /** With the second answer cached, a resume overtakes the write of it. */
  lemma LateHit() returns (st: State, b: Batch, p: Plan)
    ensures Reached(st) && st.job.status == Paused && st.flight.Some? && p in st.flight.value.toWrite
    ensures BatchOf(b, Remaining(st.source, st.rows)) && !ProgressOk(PersistHits(Requeue(st, false, b), p))
  {
    hide Remaining, Requeue, PersistHits, ProgressOk, A, B;
    st := CachedAndPaused();
    b, p := REST, Plan(1, [], [RB]);
    LeftOver();
    Batches(map[]);
    LateHitsIff(st, b, p);
  }

  const HALF_CACHED := QUEUED.(flight := Some(Flight(2, true, [Plan(0, [A], []), Plan(1, [], [RB])], [Plan(0, [A], []), Plan(1, [], [RB])], [])))

  lemma HalfCachedReached()
    ensures Reached(HALF_CACHED)
  {
    hide Legal, Step, Launch, Reachable, A, B;
    var cache := map[B := RB];
    AcceptedReached();
    Distinct();
    PrepareNow(ACCEPTED, cache);
    LaunchTwo(ACCEPTED, cache, true);
    ReachStep(ACCEPTED, PrepareEv(Two(cache)));
  }

  const CACHED_REPORTED := REPORTED.(flight := Some(Flight(2, true, [Plan(1, [], [RB])], [Plan(0, [A], []), Plan(1, [], [RB])], [])))

  lemma CachedReported()
    ensures Reached(CACHED_REPORTED)
  {
    hide Legal, Step, Reachable, Emails, A, B;
    HalfCachedReached();
    var sent := HALF_CACHED.(sent := map[0 := {A}], flight := CACHED_REPORTED.flight);
    assert Elements([A]) == {A} && HALF_CACHED.sent[0 := {A}] == sent.sent;
    SendNext(HALF_CACHED, Plan(0, [A], []), [Plan(1, [], [RB])]);
    ReachStep(HALF_CACHED, SendEv);
    OneRow(RA);
    ReportFirst(sent, 0, A);
    assert sent.tasks[0 := Answered(A)] == REPORTED.tasks && [] + [RA] == [RA];
    ReachStep(sent, ReportEv(0, "w", [RA]));
  }

  lemma CachedAndPaused() returns (st: State)
    ensures Reached(st) && st.job.status == Paused && st.source == [A, B] && st.rows == [RA]
    ensures st.flight.Some? && Plan(1, [], [RB]) in st.flight.value.toWrite
  {
    hide Legal, Step, Reachable, A, B;
    CachedReported();
    PauseNow(CACHED_REPORTED);
    ReachStep(CACHED_REPORTED, PauseEv);
    st := CACHED_REPORTED.(job := CACHED_REPORTED.job.(status := Paused));
  }

  /** The same job given up while it is being enqueued: the cached answer revives it, a failing send refunds it again. */
  lemma GivenUpInFlight() returns (st: State, p: Plan)
    ensures Reached(st) && st.job.status == Preparing && st.flight.Some? && p in st.flight.value.toWrite
    ensures PersistHits(FailPreparing(st), p).job.status != Failed
    ensures Net(FailSend(FailPreparing(st))) < 0
  {
    hide PersistHits, FailPreparing, FailSend, Net, Reachable, A, B;
    st, p := HALF_CACHED, Plan(1, [], [RB]);
    HalfCachedReached();
    RevivedIff(st, p);
    GivenUpTwiceRefunded(st, []);
  }

  /** With the second answer cached, a second preparation overlaps the enqueue. */
  lemma OverlappedWrite() returns (st: State, b: Batch, p: Plan)
    ensures Reached(st) && st.job.status == Preparing && st.flight.Some? && p in st.flight.value.toWrite
    ensures BatchOf(b, Queue(st.source)) && !ProgressOk(PersistHits(Prepare(st, b), p))
  {
    hide Queue, Prepare, PersistHits, ProgressOk, Reachable, A, B;
    st, b, p := HALF_CACHED, Two(map[]), Plan(1, [], [RB]);
    HalfCachedReached();
    QueuedBoth();
    Batches(map[]);
    OverlappingPrepareIff(st, b, p);
  }

  /** An answer to the other task's address, reported or cached under the first. */
  lemma ForeignAnswers() returns (st: State)
    ensures Reached(st) && 0 in st.tasks
    ensures !(RowsOk(Report(st, 0, "w", [RB])) && ProgressOk(Report(st, 0, "w", [RB])))
    ensures !(RowsOk(PersistHits(st, Plan(0, [], [RB]))) && ProgressOk(PersistHits(st, Plan(0, [], [RB]))))
  {
    hide RowsOk, ProgressOk, Report, PersistHits, Emails, Fresh, Reachable, A, B;
    st := HALF_SENT;
    HalfSentReached();
    Distinct();
    OneRow(RB);
    NewRow(RB, Emails(st.rows));
    ForeignAddressIff(st, 0, "w", [RB]);
    ForeignHitIff(st, Plan(0, [], [RB]));
  }

  lemma BothNew(r: Row, known: set<Email>)
    requires r.email !in known
    ensures Fresh([r, r], known) == [r, r]
  {
    NewRow(r, known);
    assert [r, r][..1] == [r];
  }

  lemma Repeated(r: Row)
    ensures !DistinctEmails([r, r])
  {
    assert [r, r][0].email == [r, r][1].email;
  }

  /** An answer repeated inside one batch. */
  lemma RepeatedAnswer() returns (st: State)
    ensures Reached(st) && !DistinctEmails(Report(st, 0, "w", [RA, RA]).rows)
  {
    hide Report, Emails, Fresh, DistinctEmails, Reachable, A, B;
    st := HALF_SENT;
    HalfSentReached();
    OneRow(RA);
    BothNew(RA, {});
    Repeated(RA);
    DistinctKeptIff(st, 0, "w", [RA, RA]);
  }

  // ---------------------------------------------------------------- witness: a resume whose second write fails

  const DELIVERED := QUEUED.(sent := map[0 := {A}, 1 := {B}], flight := None, job := QUEUED.job.(status := Paused))

  lemma DeliveredReached()
    ensures Reached(DELIVERED)
  {
    hide Legal, Step, Reachable, A, B;
    HalfSentReached();
    var f := HALF_SENT.flight.value;
    var sent := DELIVERED.(job := QUEUED.job, flight := Some(f.(toSend := [])));
    assert Elements([B]) == {B} && HALF_SENT.sent[1 := {B}] == sent.sent;
    SendNext(HALF_SENT, Plan(1, [B], []), []);
    ReachStep(HALF_SENT, SendEv);
    var one := sent.(flight := Some(f.(toSend := [], toWrite := [Plan(1, [B], [])])));
    SkipNext(sent, Plan(0, [A], []), [Plan(1, [B], [])]);
    ReachStep(sent, WriteEv);
    var none := sent.(flight := Some(f.(toSend := [], toWrite := [])));
    SkipNext(one, Plan(1, [B], []), []);
    ReachStep(one, WriteEv);
    FinishNow(none);
    ReachStep(none, FinishEv);
    PauseNow(Finish(none));
    ReachStep(Finish(none), PauseEv);
  }

  const BOTH := map[A := RA, B := RB]
  const RESUMED := DELIVERED.(job := QUEUED.job.(status := Pending), tasks := map[2 := Waiting(A), 3 := Waiting(B)], nextId := 4,
                              flight := Some(Flight(2, false, [Plan(2, [], [RA]), Plan(3, [], [RB])], [Plan(2, [], [RA]), Plan(3, [], [RB])], [])))

  lemma ResumedReached()
    ensures Reached(RESUMED)
  {
    hide Legal, Step, Launch, Reachable, A, B;
    DeliveredReached();
    Distinct();
    ResumeNow(DELIVERED, BOTH);
    LaunchTwo(DELIVERED.(job := DELIVERED.job.(status := Pending, processed := 0)), BOTH, false);
    ReachStep(DELIVERED, ResumeEv(Two(BOTH)));
  }

  /** A resumed job with both answers cached, the first written and the second about to fail: the counters keep the row. */
  lemma RowDroppedCounterKept() returns (st: State)
    ensures Reached(st) && st.flight.Some? && !st.flight.value.refundOnFailure && st.flight.value.written == [A]
    ensures !RowsOk(DropHitsAndPause(st, st.flight.value.written))
  {
    hide Legal, Step, Reachable, RowsOk, Without, Recount, DropHitsAndPause, A, B;
    ResumedReached();
    var f := RESUMED.flight.value;
    var one := RESUMED.(flight := Some(f.(toSend := [Plan(3, [], [RB])])));
    SendNext(RESUMED, Plan(2, [], [RA]), [Plan(3, [], [RB])]);
    ReachStep(RESUMED, SendEv);
    var none := RESUMED.(flight := Some(f.(toSend := [])));
    SendNext(one, Plan(3, [], [RB]), []);
    ReachStep(one, SendEv);
    st := FirstWritten(none);
    DropWithoutRecountIff(st);
  }

  lemma FirstWritten(st: State) returns (st': State)
    requires Reachable(st) && !st.deleted && st.flight.Some? && st.flight.value.toSend == [] && st.flight.value.written == []
    requires st.flight.value.toWrite == [Plan(2, [], [RA]), Plan(3, [], [RB])] && 2 in st.tasks
    ensures Reached(st') && st'.flight.Some? && st'.flight.value.refundOnFailure == st.flight.value.refundOnFailure
    ensures st'.flight.value.written == [A]
  {
    hide Reachable, RiskyRefund, Advance, Push, A, B;
    ReachStep(st, WriteEv);
    st' := Step(st, WriteEv);
    assert RowAddresses([RA]) == [A] && [] + [A] == [A];
    WriteHitsShape(st);
    RiskyRefundFrame(Absorb(Dropped1(st), 2, Push(st.tasks[2], 1), [RA]));
  }
}
