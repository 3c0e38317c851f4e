/** service/prepare_lock.go: the per-job token lock with expiry and a two-command refresh, one Redis command a step. */
module PrepareLock {
  import opened Verdicts

  type Token = nat

  const TTL := 30 * 60

  datatype Stored = Stored(token: Token, deadline: int)

  /** A worker's refresh loop between its GET and its EXPIRE, and whether it has released. */
  datatype Holder = Holder(checked: bool, stopped: bool, released: bool)

  datatype Lock = Lock(stored: Option<Stored>, now: int, holders: map<Token, Holder>)

  datatype Step =
    | Acquire(token: Token)
    | RefreshGet(token: Token)
    | RefreshExpire(token: Token)
    | Release(token: Token)
    | Tick(seconds: nat)

  /** The entry Redis would return: an expired one is gone. */
  function Live(l: Lock): Option<Stored> {
    if l.stored.Some? && l.stored.value.deadline > l.now then l.stored else None
  }

  predicate HeldBy(l: Lock, token: Token) {
    Live(l).Some? && Live(l).value.token == token
  }

  /** Tokens are random and never repeat; the refresh loop outlives a release by at most the command it is about to send. */
  predicate Possible(l: Lock, step: Step) {
    match step
    case Acquire(t) => t !in l.holders
    case RefreshGet(t) => t in l.holders && !l.holders[t].checked && !l.holders[t].stopped && !l.holders[t].released
    case RefreshExpire(t) => t in l.holders && l.holders[t].checked
    case Release(t) => t in l.holders && !l.holders[t].released
    case Tick(_) => true
  }

  function Do(l: Lock, step: Step): Lock
    requires Possible(l, step)
  {
    match step
    case Acquire(t) =>
      if Live(l).Some? then l
      else l.(stored := Some(Stored(t, l.now + TTL)), holders := l.holders[t := Holder(false, false, false)])
    case RefreshGet(t) =>
      l.(holders := l.holders[t := if HeldBy(l, t) then l.holders[t].(checked := true) else l.holders[t].(stopped := true)])
    case RefreshExpire(t) =>
      l.(stored := if Live(l).Some? then Some(Live(l).value.(deadline := l.now + TTL)) else None,
         holders := l.holders[t := l.holders[t].(checked := false)])
    case Release(t) =>
      l.(stored := if HeldBy(l, t) then None else l.stored,
         holders := l.holders[t := l.holders[t].(released := true)])
    case Tick(seconds) => l.(now := l.now + seconds)
  }

  predicate PossibleRun(l: Lock, steps: seq<Step>)
    decreases |steps|
  {
    steps == [] || (Possible(l, steps[0]) && PossibleRun(Do(l, steps[0]), steps[1..]))
  }

  function DoAll(l: Lock, steps: seq<Step>): Lock
    requires PossibleRun(l, steps)
    decreases |steps|
  {
    if steps == [] then l else DoAll(Do(l, steps[0]), steps[1..])
  }

  /** No lock has ever been taken. */
  const UNUSED := Lock(None, 0, map[])

  /** The stored token belongs to a worker that acquired it and has not released it; no entry outlives a full term. */
  ghost predicate LockOk(l: Lock) {
    Live(l).Some? ==>
      var e := Live(l).value;
      e.token in l.holders && !l.holders[e.token].released && e.deadline <= l.now + TTL
  }

  lemma DoOk(l: Lock, step: Step)
    requires LockOk(l) && Possible(l, step)
    ensures LockOk(Do(l, step))
  {
  }

  /** An unexpired entry is removed only by its own token's release or by the clock, is never handed to another token,
      and no step but its removal brings its deadline forward. */
  lemma RemovedOnlyByHolderOrClock(l: Lock, step: Step)
    requires LockOk(l) && Possible(l, step) && Live(l).Some?
    ensures var t := Live(l).value.token;
            || (HeldBy(Do(l, step), t) && Live(Do(l, step)).value.deadline >= Live(l).value.deadline)
            || step == Release(t)
            || (step.Tick? && Do(l, step).now >= Live(l).value.deadline)
  {
  }

  lemma {:induction false} RunOk(l: Lock, steps: seq<Step>)
    requires LockOk(l) && PossibleRun(l, steps)
    ensures LockOk(DoAll(l, steps))
    decreases |steps|
  {
    hide LockOk, Do, Possible;
    if steps != [] {
      DoOk(l, steps[0]);
      RunOk(Do(l, steps[0]), steps[1..]);
    }
  }

  /** Every lock that comes about is in order. */
  lemma UsedOk(steps: seq<Step>)
    requires PossibleRun(UNUSED, steps)
    ensures LockOk(DoAll(UNUSED, steps))
  {
    hide DoAll, PossibleRun;
    RunOk(UNUSED, steps);
  }

  lemma {:induction false} KeptFrom(l: Lock, steps: seq<Step>)
    requires LockOk(l) && PossibleRun(l, steps) && Live(l).Some?
    ensures var t, end := Live(l).value.token, DoAll(l, steps);
            || (HeldBy(end, t) && Live(end).value.deadline >= Live(l).value.deadline)
            || Release(t) in steps
            || end.now >= Live(l).value.deadline
    decreases |steps|
  {
    hide LockOk, Do, Possible;
    if steps != [] {
      var t, l' := Live(l).value.token, Do(l, steps[0]);
      DoOk(l, steps[0]);
      RemovedOnlyByHolderOrClock(l, steps[0]);
      if HeldBy(l', t) && Live(l').value.deadline >= Live(l).value.deadline {
        KeptFrom(l', steps[1..]);
      } else {
        ClockForward(l', steps[1..]);
      }
    }
  }

  /** Over every interleaving from the unused lock on, a worker that holds it keeps it for its whole term, whatever the
      others do: it is lost only by its own release or by the passing of its deadline. */
  lemma KeptForItsTerm(before: seq<Step>, after: seq<Step>)
    requires PossibleRun(UNUSED, before) && Live(DoAll(UNUSED, before)).Some? && PossibleRun(DoAll(UNUSED, before), after)
    ensures var l, end := DoAll(UNUSED, before), DoAll(DoAll(UNUSED, before), after);
            || (HeldBy(end, Live(l).value.token) && Live(end).value.deadline >= Live(l).value.deadline)
            || Release(Live(l).value.token) in after
            || end.now >= Live(l).value.deadline
  {
    hide DoAll, PossibleRun;
    UsedOk(before);
    KeptFrom(DoAll(UNUSED, before), after);
  }

  lemma {:induction false} ClockForward(l: Lock, steps: seq<Step>)
    requires PossibleRun(l, steps)
    ensures DoAll(l, steps).now >= l.now
    decreases |steps|
  {
    if steps != [] { ClockForward(Do(l, steps[0]), steps[1..]); }
  }

  /** A second worker gets the lock exactly when no unexpired entry is stored. */
  lemma AcquiredIff(l: Lock, t: Token)
    requires LockOk(l) && t !in l.holders
    ensures HeldBy(Do(l, Acquire(t)), t) <==> Live(l) == None
  {
  }

  /** A lock is taken, and renewed by its holder, for half an hour. */
  lemma Terms(l: Lock, t: Token)
    ensures Possible(l, Acquire(t)) && Live(l) == None ==> Live(Do(l, Acquire(t))) == Some(Stored(t, l.now + 1800))
    ensures Possible(l, RefreshExpire(t)) && HeldBy(l, t) ==> Live(Do(l, RefreshExpire(t))) == Some(Stored(t, l.now + 1800))
    ensures Possible(l, RefreshGet(t)) ==> Live(Do(l, RefreshGet(t))) == Live(l) && Do(l, RefreshGet(t)).holders[t].checked == HeldBy(l, t)
  {
  }

  /** A release takes effect exactly when its own token is stored: a late one frees nobody else's lock. */
  lemma ReleaseIff(l: Lock, t: Token)
    requires LockOk(l) && Possible(l, Release(t))
    ensures Live(Do(l, Release(t))) == if HeldBy(l, t) then None else Live(l)
  {
  }

  /** The refresh is two commands, so a late EXPIRE can reach an entry its worker no longer owns: it prolongs another
      worker's lock exactly when one is stored that was not renewed this very second. It never shortens or removes one. */
  lemma LateExpireIff(l: Lock, t: Token)
    requires LockOk(l) && Possible(l, RefreshExpire(t)) && !HeldBy(l, t)
    ensures Live(Do(l, RefreshExpire(t))) != Live(l) <==> Live(l).Some? && Live(l).value.deadline < l.now + TTL
    ensures Live(l).Some? ==> HeldBy(Do(l, RefreshExpire(t)), Live(l).value.token)
  {
  }

  /** An EXPIRE follows a GET that saw the worker's own token, so it can be late only if the worker has released
      or its term has run out in between. */
  lemma LateOnlyAfterLoss(before: seq<Step>, t: Token, after: seq<Step>)
    requires PossibleRun(UNUSED, before) && HeldBy(DoAll(UNUSED, before), t) && Possible(DoAll(UNUSED, before), RefreshGet(t))
    requires PossibleRun(Do(DoAll(UNUSED, before), RefreshGet(t)), after)
    ensures var l, end := DoAll(UNUSED, before), DoAll(Do(DoAll(UNUSED, before), RefreshGet(t)), after);
            !HeldBy(end, t) ==> Release(t) in after || end.now >= Live(l).value.deadline
  {
    hide DoAll, PossibleRun;
    var l := DoAll(UNUSED, before);
    UsedOk(before);
    DoOk(l, RefreshGet(t));
    KeptFrom(Do(l, RefreshGet(t)), after);
  }

  /** A worker whose term has run out after its GET prolongs the lock of the worker that has taken over. */
  lemma LateExpireProlongs()
    ensures var before := [Acquire(0), RefreshGet(0), Tick(TTL), Acquire(1), Tick(1)];
            && PossibleRun(UNUSED, before)
            && var l := DoAll(UNUSED, before);
               && HeldBy(l, 1) && Possible(l, RefreshExpire(0))
               && HeldBy(Do(l, RefreshExpire(0)), 1)
               && Live(Do(l, RefreshExpire(0))).value.deadline > Live(l).value.deadline
  {
    var l1 := Do(UNUSED, Acquire(0));
    var l2 := Do(l1, RefreshGet(0));
    var l3 := Do(l2, Tick(TTL));
    var l4 := Do(l3, Acquire(1));
    var l5 := Do(l4, Tick(1));
    assert PossibleRun(l5, []) && DoAll(l5, []) == l5;
    assert PossibleRun(l4, [Tick(1)]) && DoAll(l4, [Tick(1)]) == l5;
    assert PossibleRun(l3, [Acquire(1), Tick(1)]) && DoAll(l3, [Acquire(1), Tick(1)]) == l5;
    assert PossibleRun(l2, [Tick(TTL), Acquire(1), Tick(1)]) && DoAll(l2, [Tick(TTL), Acquire(1), Tick(1)]) == l5;
  }
}
