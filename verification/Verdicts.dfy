/** helper/status.go: the five public verification statuses. */
module Verdicts {
  import opened Text

  datatype Option<+T> = None | Some(value: T)

  /** A stored status; `Other` is any text outside the five normalised ones (only a cache row can hold it). */
  datatype Verdict = Valid | Invalid | CatchAll | Unknown | Disposable | Other(text: string)

  function StatusText(v: Verdict): string {
    match v
    case Valid => "valid"
    case Invalid => "invalid"
    case CatchAll => "catch_all"
    case Unknown => "unknown"
    case Disposable => "disposable"
    case Other(text) => text
  }

  function NormalizeVerificationStatus(status: string): (v: Verdict)
    ensures !v.Other?
  {
    var s := Normalize(status);
    if s in ["valid", "deliverable", "mailbox_full", "mailbox-full"] then Valid
    else if s in ["catch_all", "catch-all", "catchall"] then CatchAll
    else if s in ["unknown", "risky", "temp", "temporary"] then Unknown
    else if s == "disposable" then Disposable
    else if s in ["invalid", "undeliverable", "blacklist", "spam-trap", "spamtrap"] then Invalid
    else Unknown
  }

  function PromoteMailboxFullToValid(status: string, mailboxFull: bool): (v: Verdict)
    ensures !v.Other?
  {
    var n := NormalizeVerificationStatus(status);
    if mailboxFull && (n == Unknown || n == Valid) then Valid else n
  }

  function ScoreForStatus(v: Verdict): (score: int)
    ensures 0 <= score <= 100
    ensures score == 100 <==> v == Valid
  {
    match v
    case Valid => 100
    case CatchAll => 55
    case Unknown => 35
    case Disposable => 10
    case _ => 0
  }

  lemma CanonicalText(s: string)
    requires s in ["valid", "invalid", "catch_all", "unknown", "disposable"]
    ensures Normalize(s) == s
  {
    hide Normalize;
    assert forall i | 0 <= i < |s| :: 'a' <= s[i] <= 'z' || s[i] == '_';
    PlainText(s);
  }

  /** Normalising a stored status again gives it back, so repeated normalisation is harmless. */
  lemma NormalizeStored(v: Verdict)
    requires !v.Other?
    ensures NormalizeVerificationStatus(StatusText(v)) == v
  {
    CanonicalText(StatusText(v));
  }

  // ---------------------------------------------------------------- spelled out

  /** Which spellings give which verdict; everything else is unknown. */
  lemma StatusSpellings(raw: string, e: string)
    requires CanonicalOf(raw, e)
    ensures NormalizeVerificationStatus(raw) == Valid <==> e in ["valid", "deliverable", "mailbox_full", "mailbox-full"]
    ensures NormalizeVerificationStatus(raw) == CatchAll <==> e in ["catch_all", "catch-all", "catchall"]
    ensures NormalizeVerificationStatus(raw) == Disposable <==> e == "disposable"
    ensures NormalizeVerificationStatus(raw) == Invalid <==> e in ["invalid", "undeliverable", "blacklist", "spam-trap", "spamtrap"]
  {
    hide Normalize, CanonicalOf;
    NormalizeMeans(raw, e);
  }

  lemma StatusTexts()
    ensures StatusText(Valid) == "valid" && StatusText(Invalid) == "invalid" && StatusText(CatchAll) == "catch_all"
    ensures StatusText(Unknown) == "unknown" && StatusText(Disposable) == "disposable"
  {
  }

  lemma Scores()
    ensures ScoreForStatus(Valid) == 100 && ScoreForStatus(CatchAll) == 55 && ScoreForStatus(Unknown) == 35
    ensures ScoreForStatus(Disposable) == 10 && ScoreForStatus(Invalid) == 0
  {
  }

  /** A full mailbox turns unknown into valid and leaves every other verdict alone. */
  lemma Promotion(status: string, full: bool)
    ensures var v, n := PromoteMailboxFullToValid(status, full), NormalizeVerificationStatus(status);
            v == if full && n == Unknown then Valid else n
  {
  }
}
