/** helper/smtp_classify.go and the MX loop of verifier/smtp.go. */
module SmtpProbe {
  import opened Text
  import opened Verdicts

  // ---------------------------------------------------------------- reply codes

  /** The outcome of a command: success, a protocol error with its code, or any other failure. */
  datatype Reply = Success | Protocol(code: int, text: string) | Failure(text: string)

  predicate IsDigit(c: char) {
    '0' <= c <= '9'
  }

  function Digit(c: char): int
    requires IsDigit(c)
  {
    c as int - '0' as int
  }

  predicate InRange(code: int) {
    100 <= code <= 599
  }

  /** The three leading digits of a message. */
  function LeadingCode(s: string): int {
    if |s| >= 3 && IsDigit(s[0]) && IsDigit(s[1]) && IsDigit(s[2]) then
      var n := 100 * Digit(s[0]) + 10 * Digit(s[1]) + Digit(s[2]);
      if InRange(n) then n else 0
    else 0
  }

  function CodeOf(reply: Reply): int {
    match reply
    case Success => 250
    case Protocol(code, text) => if InRange(code) then code else LeadingCode(Trim(text))
    case Failure(text) => LeadingCode(Trim(text))
  }

  method SMTPReplyCode(reply: Reply) returns (code: int)
    ensures code == CodeOf(reply)
    ensures code == 0 || InRange(code)
  {
    hide Trim;
    if reply.Success? {
      return 250;
    }
    if reply.Protocol? && InRange(reply.code) {
      return reply.code;
    }
    var s := Trim(reply.text);
    var n, digits := 0, 0;
    while digits < |s| && digits < 3
      invariant 0 <= digits <= |s| && digits <= 3
      invariant forall i | 0 <= i < digits :: IsDigit(s[i])
      invariant digits == 0 ==> n == 0
      invariant digits == 1 ==> n == Digit(s[0])
      invariant digits == 2 ==> n == 10 * Digit(s[0]) + Digit(s[1])
      invariant digits == 3 ==> n == 100 * Digit(s[0]) + 10 * Digit(s[1]) + Digit(s[2])
    {
      if !IsDigit(s[digits]) {
        break;
      }
      n := n * 10 + Digit(s[digits]);
      digits := digits + 1;
    }
    if digits == 3 && InRange(n) {
      return n;
    }
    return 0;
  }

  // ---------------------------------------------------------------- classification

  datatype CatchAllResult = Rejected | Accepted | Inconclusive

  function ClassifyCatchAllRCPT(reply: Reply): CatchAllResult {
    var code := CodeOf(reply);
    if reply.Success? || 200 <= code <= 299 || code == 552 then Accepted
    else if 500 <= code <= 599 then Rejected
    else Inconclusive
  }

  predicate HasPrefix(s: string, p: string) {
    |p| <= |s| && s[..|p|] == p
  }

  predicate Contains(s: string, sub: string) {
    HasPrefix(s, sub) || (s != [] && Contains(s[1..], sub))
  }

  predicate OverQuota(reply: Reply) {
    !reply.Success? && var msg := Lower(reply.text); CodeOf(reply) == 552 || Contains(msg, "storage limit") || Contains(msg, "over quota")
  }

  datatype Target = Target(hardFail: bool, mailboxFull: bool)

  function ClassifyTargetRCPT(reply: Reply): Target {
    if reply.Success? then Target(false, false)
    else if OverQuota(reply) then Target(false, true)
    else Target(CodeOf(reply) in {550, 551, 553, 554, 521, 556}, false)
  }

  /** Only a permanent reply rejects a recipient; a temporary or unreadable one never does (section 4.2.1 of RFC 5321),
      and a full mailbox is never a rejection. The random probe proves a server selective only by a permanent reply. */
  lemma Severity(reply: Reply)
    ensures ClassifyTargetRCPT(reply).hardFail ==> 500 <= CodeOf(reply) <= 599 && !ClassifyTargetRCPT(reply).mailboxFull
    ensures CodeOf(reply) < 500 ==> !ClassifyTargetRCPT(reply).hardFail && ClassifyCatchAllRCPT(reply) != Rejected
    ensures CodeOf(reply) in {500, 501, 502, 503, 504, 555} ==> !ClassifyTargetRCPT(reply).hardFail
    ensures ClassifyCatchAllRCPT(reply) == Accepted <==> 200 <= CodeOf(reply) <= 299 || CodeOf(reply) == 552
    ensures ClassifyCatchAllRCPT(reply) == Rejected <==> CodeOf(reply) >= 500 && CodeOf(reply) != 552
  {
    hide Trim, Contains;
    assert 0 <= CodeOf(reply) <= 599;
  }

  // ---------------------------------------------------------------- one probe

  /** How a session with one host went; `random` is None if the second transaction could not be started. */
  datatype Session = BlockedHost | Unreachable | Broken | Answered(target: Reply, random: Option<Reply>)

  datatype Probe = Probe(connected: bool, blocked: bool, accepted: bool, catchAll: CatchAllResult, hardFail: bool,
                         tempFail: bool, mailboxFull: bool)

  function ProbeOf(s: Session): Probe {
    match s
    case BlockedHost => Probe(false, true, false, Inconclusive, false, false, false)
    case Unreachable => Probe(false, false, false, Inconclusive, false, false, false)
    case Broken => Probe(true, false, false, Inconclusive, false, false, false)
    case Answered(target, random) =>
      if target.Success? then
        Probe(true, false, true, if random.Some? then ClassifyCatchAllRCPT(random.value) else Inconclusive, false, false, false)
      else
        var t := ClassifyTargetRCPT(target);
        Probe(true, false, false, Inconclusive, t.hardFail, t.mailboxFull || !t.hardFail, t.mailboxFull)
  }

  datatype Answer = Answer(status: Verdict, score: int, reason: string, deliverable: bool, catchAll: bool)

  function StatusForAcceptedRCPT(c: CatchAllResult): Answer {
    match c
    case Accepted => Answer(CatchAll, ScoreForStatus(CatchAll), "catch_all", false, true)
    case Rejected => Answer(Valid, ScoreForStatus(Valid), "accepted", true, false)
    case Inconclusive => Answer(Unknown, ScoreForStatus(Unknown), "catchall_inconclusive", false, false)
  }

  /** A final answer, an accept that settles nothing, or nothing. */
  datatype Disposition = Final(answer: Answer) | InconclusiveAccept | Undecided

  function SMTPProbeDisposition(accepted: bool, catchAll: CatchAllResult, hardFail: bool, mailboxFull: bool, prior: bool): Disposition {
    if accepted then
      var a := StatusForAcceptedRCPT(catchAll);
      if a.reason == "catchall_inconclusive" then InconclusiveAccept else Final(a)
    else if mailboxFull then Final(Answer(Valid, ScoreForStatus(Valid), "mailbox_full", true, false))
    else if hardFail && !prior then Final(Answer(Invalid, 0, "rejected", false, false))
    else Undecided
  }

  function Dispose(p: Probe, prior: bool): Disposition {
    SMTPProbeDisposition(p.accepted, p.catchAll, p.hardFail, p.mailboxFull, prior)
  }

  predicate IsSafeToSend(status: string, deliverable: bool, catchAll: bool) {
    NormalizeVerificationStatus(status) == Valid && deliverable && !catchAll
  }

  // ---------------------------------------------------------------- the MX loop

  /** One MX host: what the clock and the caller did before it, its probe, and the greylist retry if there is time. */
  datatype Host = Host(cancelled: bool, late: bool, first: Session, canRetry: bool, second: Session)

  datatype Result = Result(status: Verdict, score: int, reason: string, deliverable: bool, catchAll: bool, mailboxFull: bool,
                           smtpConnect: bool, hasMX: bool)

  /** The sticky flags of the loop. */
  datatype Seen = Seen(inconclusive: bool, blocked: bool, dialled: bool, connected: bool, tempFail: bool)

  const NOTHING := Seen(false, false, false, false, false)

  function Settle(a: Answer, aFallback: bool): Result {
    Result(a.status, a.score, a.reason, a.deliverable, a.catchAll, a.reason == "mailbox_full", true, !aFallback)
  }

  /** verifyMX: the best five hosts are tried in order. */
  method VerifyMX(hosts: seq<Host>, aFallback: bool) returns (result: Result)
    ensures result == MxVerdict(hosts, 0, NOTHING, aFallback)
    ensures hosts != [] && Tried(hosts[0]) && hosts[0].first.Answered? ==>
              FirstAnswer(hosts[0].first.target, hosts[0].first.random, aFallback, result)
  {
    hide FirstAnswer, Tried, MxVerdict;
    result := TryHosts(hosts, aFallback);
    if hosts != [] && Tried(hosts[0]) && hosts[0].first.Answered? {
      HostAnswers(hosts, 0, NOTHING, aFallback);
    }
  }

  method TryHosts(hosts: seq<Host>, aFallback: bool) returns (result: Result)
    ensures result == MxVerdict(hosts, 0, NOTHING, aFallback)
  {
    hide ProbeOf, Dispose, After, Decided;
    result := Result(Unknown, 35, "", false, false, false, false, !aFallback);
    var sawInconclusive, sawBlockedHost, sawPublicDial := false, false, false;
    var i := 0;
    while i < |hosts|
      invariant 0 <= i <= |hosts| && i <= 5
      invariant result == Result(Unknown, 35, if result.reason == "temp_fail" then "temp_fail" else "", false, false, false,
                                 result.smtpConnect, !aFallback)
      invariant MxVerdict(hosts, 0, NOTHING, aFallback)
             == MxVerdict(hosts, i, Seen(sawInconclusive, sawBlockedHost, sawPublicDial, result.smtpConnect,
                                         result.reason == "temp_fail"), aFallback)
    {
      if i >= 5 {
        break;
      }
      if hosts[i].cancelled {
        result := result.(status := Unknown, reason := "cancelled");
        return;
      }
      if hosts[i].late {
        result := result.(status := Unknown, reason := "timeout");
        return;
      }
      var res := ProbeOf(hosts[i].first);
      ghost var before := Seen(sawInconclusive, sawBlockedHost, sawPublicDial, result.smtpConnect, result.reason == "temp_fail");
      OneHost(hosts[i], before);
      if res.blocked {
        sawBlockedHost := true;
        i := i + 1;
        continue;
      }
      sawPublicDial := true;
      if !res.connected {
        i := i + 1;
        continue;
      }
      result := result.(smtpConnect := true);
      var d := Dispose(res, sawInconclusive);
      if d.InconclusiveAccept? {
        sawInconclusive := true;
      }
      if !d.Final? {
        if res.tempFail {
          result := result.(reason := "temp_fail");
          if hosts[i].canRetry {
            var res2 := ProbeOf(hosts[i].second);
            if res2.connected {
              var d2 := Dispose(res2, sawInconclusive);
              if d2.InconclusiveAccept? {
                sawInconclusive := true;
              }
              if d2.Final? {
                result := Settle(d2.answer, aFallback);
                return;
              }
            }
          }
        }
        i := i + 1;
        continue;
      }
      result := Settle(d.answer, aFallback);
      return;
    }
    if sawInconclusive {
      result := result.(status := Unknown, score := 35, reason := "catchall_inconclusive");
      return;
    }
    if aFallback && !result.smtpConnect {
      result := result.(status := Invalid, score := 0, hasMX := false, reason := "no_mail");
      return;
    }
    if sawBlockedHost && !sawPublicDial {
      result := result.(status := Unknown, score := 35, reason := "private_mx");
      return;
    }
    result := result.(status := Unknown, score := 35);
    if result.smtpConnect {
      if result.reason == "temp_fail" {
        return;
      }
      result := result.(reason := "smtp_inconclusive");
      return;
    }
    result := result.(reason := "smtp_unreachable");
  }

  // ---------------------------------------------------------------- what the loop computes

  /** Whether the greylist retry of a host is made and gets through. */
  predicate Retried(h: Host, prior: bool) {
    var p := ProbeOf(h.first);
    p.connected && !Dispose(p, prior).Final? && p.tempFail && h.canRetry && ProbeOf(h.second).connected
  }

  /** The final answer of one host, if it gives one. */
  function Decided(h: Host, prior: bool): Option<Answer> {
    var p := ProbeOf(h.first);
    var d := Dispose(p, prior);
    if !p.connected then None
    else if d.Final? then Some(d.answer)
    else if Retried(h, prior) then
      var d2 := Dispose(ProbeOf(h.second), prior || d.InconclusiveAccept?);
      if d2.Final? then Some(d2.answer) else None
    else None
  }

  /** An accept without a verdict on the random address, in either probe of a host. */
  predicate Inconclusively(h: Host, prior: bool) {
    var p := ProbeOf(h.first);
    p.connected && (Dispose(p, prior).InconclusiveAccept? || (Retried(h, prior) && Dispose(ProbeOf(h.second), prior).InconclusiveAccept?))
  }

  /** What has been seen after a host that decided nothing. */
  function After(h: Host, s: Seen): Seen {
    var p := ProbeOf(h.first);
    Seen(s.inconclusive || Inconclusively(h, s.inconclusive),
         s.blocked || p.blocked, s.dialled || !p.blocked, s.connected || p.connected,
         s.tempFail || (p.connected && !Dispose(p, s.inconclusive).Final? && p.tempFail))
  }

  /** The verdict when every host was tried in vain. */
  function Fallback(s: Seen, aFallback: bool): Result {
    var r := Result(Unknown, 35, "", false, false, false, s.connected, !aFallback);
    if s.inconclusive then r.(reason := "catchall_inconclusive")
    else if aFallback && !s.connected then r.(status := Invalid, score := 0, hasMX := false, reason := "no_mail")
    else if s.blocked && !s.dialled then r.(reason := "private_mx")
    else if s.connected then r.(reason := if s.tempFail then "temp_fail" else "smtp_inconclusive")
    else r.(reason := "smtp_unreachable")
  }

  /** The first of the best five hosts that decides settles the verdict. */
  function MxVerdict(hosts: seq<Host>, i: nat, s: Seen, aFallback: bool): Result
    requires i <= |hosts|
    decreases |hosts| - i
  {
    if i == |hosts| || i >= 5 then Fallback(s, aFallback)
    else if hosts[i].cancelled || hosts[i].late then
      Result(Unknown, 35, if hosts[i].cancelled then "cancelled" else "timeout", false, false, false, s.connected, !aFallback)
    else match Decided(hosts[i], s.inconclusive)
         case Some(a) => Settle(a, aFallback)
         case None => MxVerdict(hosts, i + 1, After(hosts[i], s), aFallback)
  }

  /** One host, in the order the loop looks at it. */
  lemma OneHost(h: Host, s: Seen)
    ensures var p, a := ProbeOf(h.first), After(h, s);
            var d := Dispose(p, s.inconclusive);
            && !(p.blocked && p.connected)
            && (p.blocked ==> Decided(h, s.inconclusive) == None && a == s.(blocked := true))
            && (!p.blocked && !p.connected ==> Decided(h, s.inconclusive) == None && a == s.(dialled := true))
            && (p.connected && d.Final? ==> Decided(h, s.inconclusive) == Some(d.answer))
            && (p.connected && !d.Final? ==>
                  var s1 := s.(dialled := true, connected := true, inconclusive := s.inconclusive || d.InconclusiveAccept?,
                               tempFail := s.tempFail || p.tempFail);
                  if p.tempFail && h.canRetry && ProbeOf(h.second).connected then
                    var d2 := Dispose(ProbeOf(h.second), s1.inconclusive);
                    if d2.Final? then Decided(h, s.inconclusive) == Some(d2.answer)
                    else Decided(h, s.inconclusive) == None && a == s1.(inconclusive := s1.inconclusive || d2.InconclusiveAccept?)
                  else Decided(h, s.inconclusive) == None && a == s1)
  {
  }

  // ---------------------------------------------------------------- what the verdict means

  /** The probe proved the mailbox: accepted where a random address is refused, or full. */
  predicate Proved(s: Session) {
    s.Answered? && (OverQuota(s.target)
                    || (s.target.Success? && s.random.Some? && CodeOf(s.random.value) >= 500 && CodeOf(s.random.value) != 552))
  }

  lemma ProofOfMailbox(s: Session, prior: bool)
    requires Dispose(ProbeOf(s), prior).Final? && Dispose(ProbeOf(s), prior).answer.status == Valid
    ensures Proved(s)
  {
    hide Trim, Contains;
    if s.Answered? && s.target.Success? && s.random.Some? { Severity(s.random.value); }
  }

  /** A verdict of valid rests on one probe that proved the mailbox, among the best five hosts. */
  lemma {:induction false} ValidNeedsProof(hosts: seq<Host>, i: nat, s: Seen, aFallback: bool)
    requires i <= |hosts| && MxVerdict(hosts, i, s, aFallback).status == Valid
    ensures exists k :: i <= k < |hosts| && k < 5 && (Proved(hosts[k].first) || (hosts[k].canRetry && Proved(hosts[k].second)))
    decreases |hosts| - i
  {
    hide Proved, ProbeOf, Dispose, After;
    match Decided(hosts[i], s.inconclusive)
    case Some(a) =>
      var d := Dispose(ProbeOf(hosts[i].first), s.inconclusive);
      if d.Final? {
        ProofOfMailbox(hosts[i].first, s.inconclusive);
      } else {
        ProofOfMailbox(hosts[i].second, s.inconclusive || d.InconclusiveAccept?);
      }
    case None => ValidNeedsProof(hosts, i + 1, After(hosts[i], s), aFallback);
  }

  /** Once an accept was inconclusive, nothing later turns the verdict to invalid. */
  lemma {:induction false} InconclusiveSticks(hosts: seq<Host>, i: nat, s: Seen, aFallback: bool)
    requires i <= |hosts| && s.inconclusive
    ensures MxVerdict(hosts, i, s, aFallback).status != Invalid
    decreases |hosts| - i
  {
    hide ProbeOf;
    if i < |hosts| && i < 5 && Decided(hosts[i], true) == None {
      InconclusiveSticks(hosts, i + 1, After(hosts[i], s), aFallback);
    }
  }

  /** The loop gets past host k without a verdict. */
  predicate Passes(hosts: seq<Host>, i: nat, s: Seen, k: nat)
    requires i <= |hosts|
    decreases |hosts| - i
  {
    && i <= k < |hosts| && i < 5 && !hosts[i].cancelled && !hosts[i].late && Decided(hosts[i], s.inconclusive) == None
    && (i == k || Passes(hosts, i + 1, After(hosts[i], s), k))
  }

  /** What has been seen before host k. */
  function SeenBefore(hosts: seq<Host>, i: nat, s: Seen, k: nat): Seen
    requires i <= k <= |hosts|
    decreases k - i
  {
    if i == k then s else SeenBefore(hosts, i + 1, After(hosts[i], s), k)
  }

  /** For every sequence of probe outcomes: never invalid once any probe was an inconclusive accept. */
  lemma {:induction false} NeverInvalidAfterAccept(hosts: seq<Host>, i: nat, s: Seen, k: nat, aFallback: bool)
    requires i <= k < |hosts| && Passes(hosts, i, s, k)
    requires Inconclusively(hosts[k], SeenBefore(hosts, i, s, k).inconclusive)
    ensures MxVerdict(hosts, i, s, aFallback).status != Invalid
    decreases k - i
  {
    hide ProbeOf, Dispose;
    if i == k {
      InconclusiveSticks(hosts, i + 1, After(hosts[i], s), aFallback);
    } else {
      NeverInvalidAfterAccept(hosts, i + 1, After(hosts[i], s), k, aFallback);
    }
  }

  /** The four answers a host can settle on. */
  lemma DecidedShape(h: Host, prior: bool)
    requires Decided(h, prior).Some?
    ensures Decided(h, prior).value in {
              Answer(CatchAll, 55, "catch_all", false, true), Answer(Valid, 100, "accepted", true, false),
              Answer(Valid, 100, "mailbox_full", true, false), Answer(Invalid, 0, "rejected", false, false)}
  {
    hide ProbeOf;
  }

  lemma SafeStatus(r: Result)
    requires !r.status.Other?
    ensures IsSafeToSend(StatusText(r.status), r.deliverable, r.catchAll) <==> r.status == Valid && r.deliverable && !r.catchAll
  {
    hide NormalizeVerificationStatus;
    NormalizeStored(r.status);
  }

  /** Status, score and flags of a result fit together. */
  predicate Coherent(r: Result) {
    && !r.status.Other? && r.score == ScoreForStatus(r.status)
    && (r.mailboxFull ==> r.status == Valid) && (r.catchAll <==> r.status == CatchAll) && (r.deliverable <==> r.status == Valid)
  }

  lemma SettledCoherent(h: Host, prior: bool, aFallback: bool)
    requires Decided(h, prior).Some?
    ensures Coherent(Settle(Decided(h, prior).value, aFallback))
  {
    hide Decided;
    DecidedShape(h, prior);
  }

  lemma FallbackCoherent(s: Seen, aFallback: bool)
    ensures Coherent(Fallback(s, aFallback))
  {
  }

  lemma {:induction false} VerdictCoherent(hosts: seq<Host>, i: nat, s: Seen, aFallback: bool)
    requires i <= |hosts|
    ensures Coherent(MxVerdict(hosts, i, s, aFallback))
    decreases |hosts| - i
  {
    hide Decided, After, Settle, Fallback;
    if i == |hosts| || i >= 5 {
      FallbackCoherent(s, aFallback);
    } else if Decided(hosts[i], s.inconclusive).Some? {
      SettledCoherent(hosts[i], s.inconclusive, aFallback);
    } else {
      VerdictCoherent(hosts, i + 1, After(hosts[i], s), aFallback);
    }
  }

  /** Valid is exactly safe to send, a full mailbox is valid, and only a decided catch-all is marked as one. */
  lemma SafeIff(hosts: seq<Host>, i: nat, s: Seen, aFallback: bool)
    requires i <= |hosts|
    ensures var r := MxVerdict(hosts, i, s, aFallback);
            && (r.status == Valid <==> IsSafeToSend(StatusText(r.status), r.deliverable, r.catchAll))
            && (r.mailboxFull ==> r.status == Valid)
            && (r.catchAll <==> r.status == CatchAll)
            && !r.status.Other? && r.score == ScoreForStatus(r.status)
  {
    hide MxVerdict, IsSafeToSend;
    VerdictCoherent(hosts, i, s, aFallback);
    SafeStatus(MxVerdict(hosts, i, s, aFallback));
  }

  /** An invalid verdict rests on a permanent rejection, or on a domain without MX whose address record never answered. */
  lemma {:induction false} InvalidNeedsReason(hosts: seq<Host>, i: nat, s: Seen, aFallback: bool)
    requires i <= |hosts| && MxVerdict(hosts, i, s, aFallback).status == Invalid
    ensures var r := MxVerdict(hosts, i, s, aFallback);
            || (r.reason == "no_mail" && aFallback && !r.smtpConnect)
            || (r.reason == "rejected" && exists k :: i <= k < |hosts| && k < 5 && RefusedBy(hosts[k]))
    decreases |hosts| - i
  {
    hide Trim, Contains, CodeOf;
    if i < |hosts| && i < 5 {
      match Decided(hosts[i], s.inconclusive)
      case Some(a) =>
        RefusedWhen(hosts[i].first, s.inconclusive);
        RefusedWhen(hosts[i].second, s.inconclusive || Dispose(ProbeOf(hosts[i].first), s.inconclusive).InconclusiveAccept?);
      case None => InvalidNeedsReason(hosts, i + 1, After(hosts[i], s), aFallback);
    }
  }

  /** One of the host's probes was refused for good. */
  predicate RefusedBy(h: Host) {
    Refused(h.first) || (h.canRetry && Refused(h.second))
  }

  predicate Refused(s: Session) {
    s.Answered? && CodeOf(s.target) in {550, 551, 553, 554, 521, 556}
  }

  lemma RefusedWhen(s: Session, prior: bool)
    ensures var d := Dispose(ProbeOf(s), prior);
            d.Final? && d.answer.status == Invalid ==> Refused(s) && d.answer.reason == "rejected" && !prior
  {
    hide Trim, Contains;
  }

  // ---------------------------------------------------------------- what an answer leads to

  const DIGITS := "0123456789"

  /** The first three characters are the digits of `n`. */
  ghost predicate Spells(s: string, n: int) {
    |s| >= 3 && exists a, b, c | 0 <= a < 10 && 0 <= b < 10 && 0 <= c < 10 ::
                  s[0] == DIGITS[a] && s[1] == DIGITS[b] && s[2] == DIGITS[c] && n == 100 * a + 10 * b + c
  }

  /** The text begins, after blanks, with the three digits of a code in range. */
  ghost predicate BeginsWith(text: string, n: int) {
    100 <= n <= 599 && exists core :: CoreOf(text, core) && Spells(core, n)
  }

  /** The code of a reply: 250 for success, that of a protocol error, else the one its text begins with. */
  ghost predicate HasCode(reply: Reply, n: int) {
    match reply
    case Success => n == 250
    case Protocol(code, text) => if 100 <= code <= 599 then n == code else BeginsWith(text, n)
    case Failure(text) => BeginsWith(text, n)
  }

  lemma DigitOf(c: char, k: int)
    requires 0 <= k < 10
    ensures c == DIGITS[k] <==> IsDigit(c) && Digit(c) == k
  {
    assert DIGITS[0] == '0' && DIGITS[1] == '1' && DIGITS[2] == '2' && DIGITS[3] == '3' && DIGITS[4] == '4';
    assert DIGITS[5] == '5' && DIGITS[6] == '6' && DIGITS[7] == '7' && DIGITS[8] == '8' && DIGITS[9] == '9';
  }

  lemma ThreeDigits(core: string, n: int)
    requires 100 <= n <= 599
    ensures LeadingCode(core) == n <==> Spells(core, n)
  {
    hide DIGITS, IsDigit, Digit;
    HaveDigits();
    if Spells(core, n) {
      var a, b, c :| 0 <= a < 10 && 0 <= b < 10 && 0 <= c < 10 && core[0] == DIGITS[a] && core[1] == DIGITS[b] && core[2] == DIGITS[c]
                     && n == 100 * a + 10 * b + c;
      DigitOf(core[0], a);
      DigitOf(core[1], b);
      DigitOf(core[2], c);
    }
    if LeadingCode(core) == n {
      DigitAt(core[0]);
      DigitAt(core[1]);
      DigitAt(core[2]);
      DigitOf(core[0], Digit(core[0]));
      DigitOf(core[1], Digit(core[1]));
      DigitOf(core[2], Digit(core[2]));
    }
  }

  lemma DigitAt(c: char)
    requires IsDigit(c)
    ensures 0 <= Digit(c) < 10
  {
  }

  lemma LeadingMeans(text: string, n: int)
    requires n > 0
    ensures LeadingCode(Trim(text)) == n <==> BeginsWith(text, n)
  {
    hide Trim, CoreOf, LeadingCode, Spells;
    var core := Trim(text);
    TrimMeans(text, core);
    forall other | CoreOf(text, other) ensures other == core { TrimMeans(text, other); }
    if 100 <= n <= 599 { ThreeDigits(core, n); } else { NoCode(core, n); }
  }

  lemma NoCode(core: string, n: int)
    requires n > 0 && !(100 <= n <= 599)
    ensures LeadingCode(core) != n
  {
  }

  lemma HaveDigits()
    ensures |DIGITS| == 10
  {
  }

  /** The code found is the code the reply has, and 0 only if it has none. */
  lemma CodeMeans(reply: Reply, n: int)
    requires n > 0
    ensures CodeOf(reply) == n <==> HasCode(reply, n)
  {
    hide Trim, LeadingCode, BeginsWith;
    if !reply.Success? { LeadingMeans(reply.text, n); }
  }

  /** The text mentions the words, in small or capital letters. */
  ghost predicate Mentions(text: string, words: string) {
    exists before, mention, after :: text == before + mention + after && InSmall(mention, words)
  }

  lemma {:induction false} FindMention(s: string, sub: string) returns (before: string, after: string)
    requires Contains(s, sub)
    ensures s == before + sub + after
    decreases |s|
  {
    if HasPrefix(s, sub) {
      before, after := "", s[|sub|..];
    } else {
      before, after := FindMention(s[1..], sub);
      before := [s[0]] + before;
    }
  }

  lemma {:induction false} MentionFound(before: string, sub: string, after: string)
    ensures Contains(before + sub + after, sub)
    decreases |before|
  {
    var s := before + sub + after;
    if before == "" {
      PrefixHere(sub, after);
      assert s == sub + after;
    } else {
      MentionFound(before[1..], sub, after);
      assert s[1..] == before[1..] + sub + after;
    }
  }

  lemma PrefixHere(sub: string, after: string)
    ensures HasPrefix(sub + after, sub)
  {
  }

  lemma ContainsIff(s: string, sub: string)
    ensures Contains(s, sub) <==> exists before, after :: s == before + sub + after
  {
    hide Contains;
    if Contains(s, sub) {
      var before, after := FindMention(s, sub);
    }
    if before, after :| s == before + sub + after {
      MentionFound(before, sub, after);
    }
  }

  lemma LowerConcat(a: string, b: string)
    ensures Lower(a + b) == Lower(a) + Lower(b)
  {
  }

  lemma MentionsIff(text: string, words: string)
    ensures Contains(Lower(text), words) <==> Mentions(text, words)
  {
    hide Contains, Lower, Mentions;
    ContainsIff(Lower(text), words);
    if Contains(Lower(text), words) {
      var before, after :| Lower(text) == before + words + after;
      MentionOf(text, before, words, after);
    }
    if Mentions(text, words) { MentionKept(text, words); }
  }

  lemma MentionOf(text: string, before: string, words: string, after: string)
    requires Lower(text) == before + words + after
    ensures Mentions(text, words)
  {
    hide Lower, InSmall;
    var i, n := |before|, |words|;
    LowerPart(text, i, n);
    assert Lower(text)[i..i + n] == words;
    LowerMeans(text[i..i + n], words);
    Cut(text, i, n);
  }

  lemma Cut(text: string, i: nat, n: nat)
    requires i + n <= |text|
    ensures text == text[..i] + text[i..i + n] + text[i + n..]
  {
  }

  lemma MentionKept(text: string, words: string)
    requires Mentions(text, words)
    ensures exists before, after :: Lower(text) == before + words + after
  {
    hide Lower, InSmall;
    var before, mention, after :| text == before + mention + after && InSmall(mention, words);
    LowerMeans(mention, words);
    LowerConcat(before + mention, after);
    LowerConcat(before, mention);
  }

  lemma LowerPart(text: string, i: nat, n: nat)
    ensures |Lower(text)| == |text|
    ensures i + n <= |text| ==> Lower(text[i..i + n]) == Lower(text)[i..i + n]
  {
  }

  /** The mailbox exists and is full. */
  ghost predicate Full(target: Reply) {
    !target.Success? && (HasCode(target, 552) || Mentions(target.text, "storage limit") || Mentions(target.text, "over quota"))
  }

  /** The recipient is refused for good. */
  ghost predicate RefusedForGood(target: Reply) {
    && !target.Success? && !Full(target)
    && (HasCode(target, 550) || HasCode(target, 551) || HasCode(target, 553) || HasCode(target, 554) || HasCode(target, 521)
        || HasCode(target, 556))
  }

  /** The server refuses a random address for good, so its accepting the real one means something. */
  ghost predicate Selective(random: Option<Reply>) {
    random.Some? && !random.value.Success? && exists c :: 500 <= c <= 599 && c != 552 && HasCode(random.value, c)
  }

  /** The server takes a random address, or says it is full. */
  ghost predicate TakesAll(random: Option<Reply>) {
    random.Some? && (random.value.Success? || exists c :: (200 <= c <= 299 || c == 552) && HasCode(random.value, c))
  }

  predicate Tried(h: Host) {
    !h.cancelled && !h.late
  }

  /** What the first answering host settles, with nothing seen before it. */
  ghost predicate FirstAnswer(target: Reply, random: Option<Reply>, aFallback: bool, r: Result) {
    && (RefusedForGood(target) ==> r == Result(Invalid, 0, "rejected", false, false, false, true, !aFallback))
    && (Full(target) ==> r == Result(Valid, 100, "mailbox_full", true, false, true, true, !aFallback))
    && (target.Success? && Selective(random) ==> r == Result(Valid, 100, "accepted", true, false, false, true, !aFallback))
    && (target.Success? && TakesAll(random) ==> r == Result(CatchAll, 55, "catch_all", false, true, false, true, !aFallback))
  }

  lemma TargetMeans(target: Reply)
    ensures OverQuota(target) <==> Full(target)
    ensures !target.Success? ==> ClassifyTargetRCPT(target) == Target(RefusedForGood(target), Full(target))
  {
    hide CodeOf, HasCode, Contains, Mentions, Lower;
    CodeMeans(target, 552);
    CodeMeans(target, 550);
    CodeMeans(target, 551);
    CodeMeans(target, 553);
    CodeMeans(target, 554);
    CodeMeans(target, 521);
    CodeMeans(target, 556);
    if !target.Success? {
      MentionsIff(target.text, "storage limit");
      MentionsIff(target.text, "over quota");
    }
  }

  lemma RandomMeans(random: Reply)
    ensures ClassifyCatchAllRCPT(random) == Rejected <==> Selective(Some(random))
    ensures ClassifyCatchAllRCPT(random) == Accepted <==> TakesAll(Some(random))
  {
    hide CodeOf, HasCode;
    var code := CodeOf(random);
    forall c | c > 0 ensures code == c <==> HasCode(random, c) { CodeMeans(random, c); }
    CodeOfSuccess(random);
    if code > 0 { assert HasCode(random, code); }
    if Selective(Some(random)) {
      var c :| 500 <= c <= 599 && c != 552 && HasCode(random, c);
      assert code == c;
    }
    if TakesAll(Some(random)) && !random.Success? {
      var c :| (200 <= c <= 299 || c == 552) && HasCode(random, c);
      assert code == c;
    }
  }

  lemma CodeOfSuccess(reply: Reply)
    ensures reply.Success? ==> CodeOf(reply) == 250
  {
  }

  /** The same for any host of the five best, as long as no accept before it was inconclusive. */
  lemma HostAnswers(hosts: seq<Host>, i: nat, s: Seen, aFallback: bool)
    requires i < |hosts| && i < 5 && Tried(hosts[i]) && hosts[i].first.Answered? && !s.inconclusive
    ensures FirstAnswer(hosts[i].first.target, hosts[i].first.random, aFallback, MxVerdict(hosts, i, s, aFallback))
  {
    hide ClassifyTargetRCPT, ClassifyCatchAllRCPT, RefusedForGood, Full, Selective, TakesAll, After;
    var target, random := hosts[i].first.target, hosts[i].first.random;
    TargetMeans(target);
    Exclusive(target, random);
    if random.Some? { RandomMeans(random.value); }
  }

  lemma Exclusive(target: Reply, random: Option<Reply>)
    ensures target.Success? ==> !RefusedForGood(target) && !Full(target)
    ensures RefusedForGood(target) ==> !Full(target)
    ensures Selective(random) || TakesAll(random) ==> random.Some?
  {
    hide HasCode, Mentions;
  }

  /** The retry of a greylisted host is judged like a first answer. */
  lemma RetryAnswers(hosts: seq<Host>, i: nat, s: Seen, aFallback: bool)
    requires i < |hosts| && i < 5 && Tried(hosts[i]) && hosts[i].canRetry && !s.inconclusive
    requires hosts[i].first.Answered? && !hosts[i].first.target.Success?
    requires !RefusedForGood(hosts[i].first.target) && !Full(hosts[i].first.target) && hosts[i].second.Answered?
    ensures FirstAnswer(hosts[i].second.target, hosts[i].second.random, aFallback, MxVerdict(hosts, i, s, aFallback))
  {
    hide ClassifyTargetRCPT, ClassifyCatchAllRCPT, RefusedForGood, Full, Selective, TakesAll, After;
    var target, random := hosts[i].second.target, hosts[i].second.random;
    TargetMeans(hosts[i].first.target);
    TargetMeans(target);
    Exclusive(target, random);
    if random.Some? { RandomMeans(random.value); }
  }

  /** A host that is blocked or cannot be reached is passed over. */
  lemma PassedOver(hosts: seq<Host>, i: nat, s: Seen, aFallback: bool)
    requires i < |hosts| && i < 5 && Tried(hosts[i])
    ensures hosts[i].first.BlockedHost? ==> MxVerdict(hosts, i, s, aFallback) == MxVerdict(hosts, i + 1, s.(blocked := true), aFallback)
    ensures hosts[i].first.Unreachable? ==> MxVerdict(hosts, i, s, aFallback) == MxVerdict(hosts, i + 1, s.(dialled := true), aFallback)
    ensures hosts[i].first.Broken? ==>
              MxVerdict(hosts, i, s, aFallback) == MxVerdict(hosts, i + 1, s.(dialled := true, connected := true), aFallback)
  {
    OneHost(hosts[i], s);
  }

  /** An answer that settles nothing leads to the next host, and is remembered. */
  lemma Undecisive(hosts: seq<Host>, i: nat, s: Seen, aFallback: bool)
    requires i < |hosts| && i < 5 && Tried(hosts[i]) && hosts[i].first.Answered?
    ensures var target, random := hosts[i].first.target, hosts[i].first.random;
            var met := s.(dialled := true, connected := true);
            && (target.Success? && !Selective(random) && !TakesAll(random) ==>
                  MxVerdict(hosts, i, s, aFallback) == MxVerdict(hosts, i + 1, met.(inconclusive := true), aFallback))
            && (!target.Success? && !RefusedForGood(target) && !Full(target) && !hosts[i].canRetry ==>
                  MxVerdict(hosts, i, s, aFallback) == MxVerdict(hosts, i + 1, met.(tempFail := true), aFallback))
            && (RefusedForGood(target) && s.inconclusive ==>
                  MxVerdict(hosts, i, s, aFallback) == MxVerdict(hosts, i + 1, met, aFallback))
  {
    hide ClassifyTargetRCPT, ClassifyCatchAllRCPT, RefusedForGood, Full, Selective, TakesAll, After, Decided, MxVerdict;
    var target, random := hosts[i].first.target, hosts[i].first.random;
    TargetMeans(target);
    Exclusive(target, random);
    if random.Some? { RandomMeans(random.value); }
    OneHost(hosts[i], s);
    if Decided(hosts[i], s.inconclusive) == None { NextHost(hosts, i, s, aFallback); }
  }

  lemma NextHost(hosts: seq<Host>, i: nat, s: Seen, aFallback: bool)
    requires i < |hosts| && i < 5 && Tried(hosts[i]) && Decided(hosts[i], s.inconclusive) == None
    ensures MxVerdict(hosts, i, s, aFallback) == MxVerdict(hosts, i + 1, After(hosts[i], s), aFallback)
  {
  }

  /** A cancelled verification, or one that has run out of time, ends unknown. */
  lemma Stopped(hosts: seq<Host>, i: nat, s: Seen, aFallback: bool)
    requires i < |hosts| && i < 5 && !Tried(hosts[i])
    ensures MxVerdict(hosts, i, s, aFallback)
         == Result(Unknown, 35, if hosts[i].cancelled then "cancelled" else "timeout", false, false, false, s.connected, !aFallback)
  {
  }

  /** When no host decides: why, from what was seen. */
  lemma InVain(hosts: seq<Host>, i: nat, s: Seen, aFallback: bool)
    requires i == |hosts| || 5 <= i <= |hosts|
    ensures var r := MxVerdict(hosts, i, s, aFallback);
            && (s.inconclusive ==> r.status == Unknown && r.reason == "catchall_inconclusive")
            && (!s.inconclusive && aFallback && !s.connected ==> r.status == Invalid && r.score == 0 && r.reason == "no_mail" && !r.hasMX)
            && (!s.inconclusive && !(aFallback && !s.connected) ==> r.status == Unknown && r.score == 35 && r.hasMX == !aFallback)
            && (!s.inconclusive && !(aFallback && !s.connected) && s.blocked && !s.dialled ==> r.reason == "private_mx")
            && (!s.inconclusive && s.connected && !(s.blocked && !s.dialled) ==>
                  r.reason == if s.tempFail then "temp_fail" else "smtp_inconclusive")
            && (!s.inconclusive && !aFallback && !s.connected && !(s.blocked && !s.dialled) ==> r.reason == "smtp_unreachable")
            && !r.deliverable && !r.catchAll && !r.mailboxFull && r.smtpConnect == s.connected
  {
  }
}
