/** The idempotency key of service/reseller_service.go: concurrent calls with one key, one Redis command or transaction a step. */
module TransferKey {

  datatype KeyState = Free | InProgress | Done

  /** Claimed: holds the key; Committed: the transfer is in the database; Cleaning, CleanSeen: the deferred release,
      before and after its GET. */
  datatype Phase = Called | Lost | Claimed | Committed | Cleaning | CleanSeen | Succeeded | AlreadyProcessed | Busy | Failed

  datatype Calls = Calls(key: KeyState, phases: map<nat, Phase>, commits: nat, lostSets: nat)

  datatype Step =
    | Call(id: nat)
    | SetNX(id: nat)
    | Read(id: nat)
    | Attempt(id: nat, ok: bool)
    | SetDone(id: nat, ok: bool)
    | CleanGet(id: nat)
    | CleanDel(id: nat)

  predicate At(c: Calls, id: nat, p: Phase) {
    id in c.phases && c.phases[id] == p
  }

  predicate Possible(c: Calls, s: Step) {
    match s
    case Call(id) => id !in c.phases
    case SetNX(id) => At(c, id, Called)
    case Read(id) => At(c, id, Lost)
    case Attempt(id, _) => At(c, id, Claimed)
    case SetDone(id, _) => At(c, id, Committed)
    case CleanGet(id) => At(c, id, Cleaning)
    case CleanDel(id) => At(c, id, CleanSeen)
  }

  function To(c: Calls, id: nat, p: Phase): Calls {
    c.(phases := c.phases[id := p])
  }

  function Do(c: Calls, s: Step): Calls
    requires Possible(c, s)
  {
    match s
    case Call(id) => To(c, id, Called)
    case SetNX(id) => if c.key == Free then To(c, id, Claimed).(key := InProgress) else To(c, id, Lost)
    case Read(id) => To(c, id, if c.key == Done then AlreadyProcessed else Busy)
    case Attempt(id, ok) => if ok then To(c, id, Committed).(commits := c.commits + 1) else To(c, id, Cleaning)
    case SetDone(id, ok) => if ok then To(c, id, Succeeded).(key := Done) else To(c, id, Cleaning).(lostSets := c.lostSets + 1)
    case CleanGet(id) => To(c, id, if c.key == InProgress then CleanSeen else Failed)
    case CleanDel(id) => To(c, id, Failed).(key := Free)
  }

  predicate PossibleRun(c: Calls, steps: seq<Step>)
    decreases |steps|
  {
    steps == [] || (Possible(c, steps[0]) && PossibleRun(Do(c, steps[0]), steps[1..]))
  }

  function DoAll(c: Calls, steps: seq<Step>): Calls
    requires PossibleRun(c, steps)
    decreases |steps|
  {
    if steps == [] then c else DoAll(Do(c, steps[0]), steps[1..])
  }

  const UNUSED := Calls(Free, map[], 0, 0)

  /** Past its SETNX and not yet past its release. */
  predicate Claimant(c: Calls, id: nat) {
    id in c.phases && c.phases[id] in {Claimed, Committed, Cleaning, CleanSeen}
  }

  /** One claimant at a time, exactly while the key is taken; every commit is remembered by the key, by the claimant
      that has not stored it yet, or by a SET that failed. */
  ghost predicate KeyOk(c: Calls) {
    && (forall i, j | Claimant(c, i) && Claimant(c, j) :: i == j)
    && (c.key == InProgress <==> exists i :: Claimant(c, i))
    && c.commits == c.lostSets + (if c.key == Done then 1 else 0) + (if exists i :: At(c, i, Committed) then 1 else 0)
    && (forall i | i in c.phases && c.phases[i] in {Succeeded, AlreadyProcessed} :: c.key == Done)
  }

  lemma Others(c: Calls, s: Step, i: nat)
    requires Possible(c, s) && i != s.id
    ensures Claimant(Do(c, s), i) <==> Claimant(c, i)
    ensures At(Do(c, s), i, Committed) <==> At(c, i, Committed)
    ensures i in Do(c, s).phases <==> i in c.phases
    ensures i in c.phases ==> Do(c, s).phases[i] == c.phases[i]
  {
  }

  lemma DoOk(c: Calls, s: Step)
    requires KeyOk(c) && Possible(c, s)
    ensures KeyOk(Do(c, s))
  {
    var d, id := Do(c, s), s.id;
    forall i | i != id
      ensures Claimant(d, i) <==> Claimant(c, i)
      ensures At(d, i, Committed) <==> At(c, i, Committed)
    {
      Others(c, s, i);
    }
    forall i ensures At(c, i, Committed) ==> Claimant(c, i) {
    }
    forall i ensures At(d, i, Committed) ==> Claimant(d, i) {
    }
    assert (exists i :: Claimant(d, i)) <==> (Claimant(d, id) || exists i :: i != id && Claimant(c, i));
    assert (exists i :: At(d, i, Committed)) <==> (At(d, id, Committed) || exists i :: i != id && At(c, i, Committed));
    assert Claimant(c, id) ==> c.key == InProgress;
  }

  lemma UnusedOk()
    ensures KeyOk(UNUSED)
  {
  }

  /** Under every interleaving: commits never exceed one more than the SETs that failed after a commit. */
  lemma {:induction false} CommitsBound(c: Calls, steps: seq<Step>)
    requires KeyOk(c) && PossibleRun(c, steps)
    ensures var end := DoAll(c, steps);
            && KeyOk(end)
            && end.lostSets <= end.commits <= end.lostSets + 1
            && (c.key == Done ==> end.key == Done && end.commits == c.commits)
    decreases |steps|
  {
    hide Do, Possible;
    if steps == [] {
      if c.key == Done { DoneHasNoClaimant(c); }
    } else {
      DoOk(c, steps[0]);
      if c.key == Done { DoneStays(c, steps[0]); }
      CommitsBound(Do(c, steps[0]), steps[1..]);
    }
  }

  lemma DoneHasNoClaimant(c: Calls)
    requires KeyOk(c) && c.key == Done
    ensures forall i :: !Claimant(c, i)
    ensures forall i :: !At(c, i, Committed)
  {
    forall i ensures At(c, i, Committed) ==> Claimant(c, i) {
    }
  }

  /** Once the key says done, it stays so and no further transfer is committed. */
  lemma DoneStays(c: Calls, s: Step)
    requires KeyOk(c) && Possible(c, s) && c.key == Done
    ensures Do(c, s).key == Done && Do(c, s).commits == c.commits && Do(c, s).lostSets == c.lostSets
  {
    DoneHasNoClaimant(c);
    assert !Claimant(c, s.id);
  }

  /** While every SET after a commit succeeds, any interleaving of calls commits at most one transfer,
      and a call that reports success or a repeat does so only when exactly one was committed. */
  lemma AtMostOneCommit(steps: seq<Step>)
    requires PossibleRun(UNUSED, steps) && forall s | s in steps :: s.SetDone? ==> s.ok
    ensures var end := DoAll(UNUSED, steps);
            && end.commits <= 1
            && (end.key == Done ==> end.commits == 1)
            && forall i | i in end.phases && end.phases[i] in {Succeeded, AlreadyProcessed} :: end.key == Done
  {
    hide DoAll, PossibleRun, Losses;
    UnusedOk();
    CommitsBound(UNUSED, steps);
    LossesCounted(UNUSED, steps);
    SomeLoss(steps);
    var end := DoAll(UNUSED, steps);
    if end.key == Done { DoneHasNoClaimant(end); }
  }

  /** The SETs that failed after a commit, in a run. */
  function Losses(steps: seq<Step>): nat {
    if steps == [] then 0 else (if steps[0].SetDone? && !steps[0].ok then 1 else 0) + Losses(steps[1..])
  }

  lemma {:induction false} LossesCounted(c: Calls, steps: seq<Step>)
    requires PossibleRun(c, steps)
    ensures DoAll(c, steps).lostSets == c.lostSets + Losses(steps)
    decreases |steps|
  {
    if steps != [] { LossesCounted(Do(c, steps[0]), steps[1..]); }
  }

  lemma {:induction false} SomeLoss(steps: seq<Step>)
    ensures Losses(steps) >= 1 <==> exists s | s in steps :: s.SetDone? && !s.ok
  {
    if steps != [] {
      SomeLoss(steps[1..]);
      assert steps == [steps[0]] + steps[1..];
    }
  }

  /** A call that holds the key commits a second transfer exactly when some SET has failed before. */
  lemma SecondCommitIff(steps: seq<Step>, id: nat)
    requires PossibleRun(UNUSED, steps) && At(DoAll(UNUSED, steps), id, Claimed)
    ensures Do(DoAll(UNUSED, steps), Attempt(id, true)).commits >= 2 <==> exists s | s in steps :: s.SetDone? && !s.ok
  {
    hide DoAll, PossibleRun, Losses;
    var c := DoAll(UNUSED, steps);
    UnusedOk();
    CommitsBound(UNUSED, steps);
    LossesCounted(UNUSED, steps);
    SomeLoss(steps);
    ClaimedCommits(c, id);
  }

  /** While a call holds the key before its commit, every commit so far has lost its SET. */
  lemma ClaimedCommits(c: Calls, id: nat)
    requires KeyOk(c) && At(c, id, Claimed)
    ensures c.commits == c.lostSets
  {
    assert Claimant(c, id);
    forall i ensures At(c, i, Committed) ==> Claimant(c, i) {
    }
  }

  /** Every call that starts after success ends by reporting the repeat: it can be on its way there and nowhere else. */
  lemma {:induction false} CallAfterSuccess(c: Calls, steps: seq<Step>, id: nat)
    requires KeyOk(c) && c.key == Done && PossibleRun(c, steps)
    requires id in c.phases ==> c.phases[id] in {Called, Lost, AlreadyProcessed}
    ensures var end := DoAll(c, steps); id in end.phases ==> end.phases[id] in {Called, Lost, AlreadyProcessed}
    decreases |steps|
  {
    hide KeyOk;
    if steps != [] {
      DoOk(c, steps[0]);
      DoneStays(c, steps[0]);
      CallAfterSuccess(Do(c, steps[0]), steps[1..], id);
    }
  }

  /** What one call is told: the key is taken by the first and remembered after its success; a second hears that it was
      processed, or that it is being. */
  lemma CallMeans(c: Calls, id: nat)
    ensures At(c, id, Called) ==> At(Do(c, SetNX(id)), id, if c.key == Free then Claimed else Lost)
    ensures At(c, id, Called) && c.key == Free ==> Do(c, SetNX(id)).key == InProgress
    ensures At(c, id, Lost) ==> At(Do(c, Read(id)), id, if c.key == Done then AlreadyProcessed else Busy)
    ensures At(c, id, Claimed) ==> At(Do(c, Attempt(id, true)), id, Committed) && Do(c, Attempt(id, true)).commits == c.commits + 1
    ensures At(c, id, Claimed) ==> At(Do(c, Attempt(id, false)), id, Cleaning) && Do(c, Attempt(id, false)).commits == c.commits
    ensures At(c, id, Committed) ==> At(Do(c, SetDone(id, true)), id, Succeeded) && Do(c, SetDone(id, true)).key == Done
  {
  }

  /** Only the claimant frees the key, and only from its own claim. */
  lemma FreedOnlyByClaimant(c: Calls, s: Step)
    requires KeyOk(c) && Possible(c, s) && c.key != Free && Do(c, s).key == Free
    ensures c.key == InProgress && Claimant(c, s.id) && s.CleanDel?
  {
    assert Claimant(c, s.id);
  }

  /** A failed attempt leaves the key free: its release finds its own claim, whatever ran in between. */
  lemma {:induction false} ReleaseNotDisturbed(c: Calls, steps: seq<Step>, id: nat)
    requires KeyOk(c) && PossibleRun(c, steps) && c.phases.Keys >= {id} && c.phases[id] in {Cleaning, CleanSeen}
    requires forall s | s in steps :: s.id != id
    ensures var end := DoAll(c, steps); KeyOk(end) && end.key == InProgress && id in end.phases && end.phases[id] == c.phases[id]
    decreases |steps|
  {
    hide KeyOk, Do;
    StillClaimed(c, id);
    if steps != [] {
      DoOk(c, steps[0]);
      Others(c, steps[0], id);
      ReleaseNotDisturbed(Do(c, steps[0]), steps[1..], id);
    }
  }

  lemma StillClaimed(c: Calls, id: nat)
    requires KeyOk(c) && Claimant(c, id)
    ensures c.key == InProgress
  {
  }

  lemma FailedAttemptFrees(c: Calls, between: seq<Step>, id: nat)
    requires KeyOk(c) && At(c, id, Claimed) && PossibleRun(Do(c, Attempt(id, false)), between)
    requires forall s | s in between :: s.id != id
    ensures var seen := DoAll(Do(c, Attempt(id, false)), between);
            && Possible(seen, CleanGet(id))
            && Possible(Do(seen, CleanGet(id)), CleanDel(id))
            && Do(Do(seen, CleanGet(id)), CleanDel(id)).key == Free
  {
    hide DoAll, PossibleRun, KeyOk;
    DoOk(c, Attempt(id, false));
    ReleaseNotDisturbed(Do(c, Attempt(id, false)), between, id);
  }

  /** When the SET after a commit fails, the deferred release frees the key, and a second call commits again. */
  lemma LostSetCommitsTwice()
    ensures var steps := [Call(0), SetNX(0), Attempt(0, true), SetDone(0, false), CleanGet(0), CleanDel(0),
                          Call(1), SetNX(1), Attempt(1, true)];
            PossibleRun(UNUSED, steps) && DoAll(UNUSED, steps).commits == 2
  {
    var c1 := Do(UNUSED, Call(0));
    var c2 := Do(c1, SetNX(0));
    var c3 := Do(c2, Attempt(0, true));
    var c4 := Do(c3, SetDone(0, false));
    var c5 := Do(c4, CleanGet(0));
    var c6 := Do(c5, CleanDel(0));
    var c7 := Do(c6, Call(1));
    var c8 := Do(c7, SetNX(1));
    var c9 := Do(c8, Attempt(1, true));
    assert PossibleRun(c9, []);
    assert PossibleRun(c7, [SetNX(1), Attempt(1, true)]) && DoAll(c7, [SetNX(1), Attempt(1, true)]) == c9;
  }
}
