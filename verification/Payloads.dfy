/** service/worker_service.go: what a batch report's results become before they are compared with stored rows. */
module Payloads {
  import opened Text
  import opened Verdicts
  import opened DomainIntel
  import opened JobState

  /** One reported result; absent flags are null pointers in the payload. */
  datatype Payload = Payload(email: string, status: string, mailboxFull: Option<bool>, isDeliverable: Option<bool>,
                             isCatchAll: Option<bool>, isDisposable: Option<bool>, isRole: Option<bool>)

  function Get(flag: Option<bool>, default: bool): bool {
    if flag.Some? then flag.value else default
  }

  /** The policy flags of an address; one without exactly one '@' has none. */
  function PolicyFlags(email: Email, table: Table): Flags {
    var parts := Split(email, '@');
    if |parts| == 2 then TableFlags(table, parts[1]) else Flags(false, false, false, false)
  }

  /** The row a result stands for, if no row is stored under its address; None for a blank address. */
  function RowFor(p: Payload, table: Table): Option<Row> {
    var email := Normalize(p.email);
    if email == "" then None
    else
      var flags := PolicyFlags(email, table);
      var blocked := flags.isDisposable || flags.isSpamTrap || flags.isBlacklisted;
      var status := if flags.isDisposable then "disposable" else if blocked then "invalid" else Normalize(p.status);
      var full := Get(p.mailboxFull, false);
      var verdict := PromoteMailboxFullToValid(status, full);
      var catchAll := Get(p.isCatchAll, verdict == CatchAll);
      var deliverable := if full && verdict == Valid then true else if blocked then false else Get(p.isDeliverable, verdict == Valid);
      Some(Row(email, verdict,
               deliverable && !catchAll && verdict != CatchAll && verdict != Unknown,
               catchAll,
               if flags.isDisposable then true else Get(p.isDisposable, verdict == Disposable),
               Get(p.isRole, false)))
  }

  function Rows(results: seq<Payload>, table: Table): seq<Row> {
    if results == [] then []
    else
      var before := Rows(results[..|results| - 1], table);
      match RowFor(results[|results| - 1], table)
      case Some(row) => before + [row]
      case None => before
  }

  /** The status text after the policy override, and the flags the override sets. */
  method Clean(p: Payload, table: Table) returns (clean: Payload)
    requires Normalize(p.email) != ""
    ensures clean.email == Normalize(p.email) == Normalize(clean.email)
    ensures RowFor(p, table) == Some(Built(clean))
  {
    hide TableFlags, Normalize, NormalizeVerificationStatus, Split;
    var email := Normalize(p.email);
    clean := p.(email := email);
    var isDisposable, isSpamTrap, isBlacklisted := false, false, false;
    var parts := Split(email, '@');
    if |parts| == 2 {
      var flags := CheckDomainPolicy(table, parts[1]);
      isDisposable, isSpamTrap, isBlacklisted := flags.isDisposable, flags.isSpamTrap, flags.isBlacklisted;
    }
    var status := Normalize(p.status);
    if isDisposable {
      status := "disposable";
      clean := clean.(isDisposable := Some(true), isDeliverable := Some(false));
    } else if isSpamTrap {
      status := "invalid";
      clean := clean.(isDeliverable := Some(false));
    } else if isBlacklisted {
      status := "invalid";
      clean := clean.(isDeliverable := Some(false));
    }
    var mailboxFull := Get(p.mailboxFull, false);
    NormalizeStored(NormalizeVerificationStatus(status));
    var verdict := PromoteMailboxFullToValid(StatusText(NormalizeVerificationStatus(status)), mailboxFull);
    if mailboxFull && verdict == Valid {
      clean := clean.(isDeliverable := Some(true));
    }
    clean := clean.(status := StatusText(verdict));
    NormalizeStored(verdict);
    NormalizeIdempotent(p.email);
    assert PolicyFlags(email, table).isDisposable == isDisposable;
  }

  /** The row built from a cleaned result. */
  function Built(clean: Payload): Row {
    var verdict := NormalizeVerificationStatus(clean.status);
    var catchAll := Get(clean.isCatchAll, verdict == CatchAll);
    Row(clean.email, verdict,
        Get(clean.isDeliverable, verdict == Valid) && !catchAll && verdict != CatchAll && verdict != Unknown,
        catchAll, Get(clean.isDisposable, verdict == Disposable), Get(clean.isRole, false))
  }

  /** A stored answer is in canonical form; a blocking policy overrides the worker, a full mailbox counts as valid,
      and nothing with an uncertain verdict is marked deliverable. */
  lemma RowFacts(p: Payload, table: Table)
    requires RowFor(p, table).Some?
    ensures var row, flags := RowFor(p, table).value, PolicyFlags(Normalize(p.email), table);
            && row.email == Normalize(row.email) != ""
            && !row.verdict.Other?
            && (row.isDeliverable ==> !row.isCatchAll && row.verdict !in {CatchAll, Unknown})
            && (flags.isDisposable ==> row.verdict == Disposable && row.isDisposable && !row.isDeliverable)
            && (!flags.isDisposable && (flags.isSpamTrap || flags.isBlacklisted) ==> row.verdict == Invalid && !row.isDeliverable)
            && (Get(p.mailboxFull, false) ==> row.verdict != Unknown)
  {
    hide TableFlags, Trim, Lower, Split;
    NormalizeIdempotent(p.email);
    NormalizeStored(Disposable);
    NormalizeStored(Invalid);
  }

  // ---------------------------------------------------------------- what a result stands for, flag by flag

  /** The policy of an address with exactly one '@'. */
  function AddressFlags(email: Email, table: Table): Flags {
    var at := FirstIndex(email, '@');
    if at >= 0 && at == LastIndex(email, '@') then TableFlags(table, email[at + 1..]) else Flags(false, false, false, false)
  }

  predicate Blocks(flags: Flags) {
    flags.isDisposable || flags.isSpamTrap || flags.isBlacklisted
  }

  /** The row a reported result is stored as. */
  ghost predicate StandsFor(p: Payload, table: Table, r: Row) {
    var flags, reported := AddressFlags(r.email, table), NormalizeVerificationStatus(p.status);
    && r.email != "" && CanonicalOf(p.email, r.email)
    // a blocking policy decides, then a full mailbox, then the worker
    && (flags.isDisposable ==> r.verdict == Disposable)
    && (!flags.isDisposable && Blocks(flags) ==> r.verdict == Invalid)
    && (!Blocks(flags) && p.mailboxFull == Some(true) && reported in {Unknown, Valid} ==> r.verdict == Valid)
    && (!Blocks(flags) && !(p.mailboxFull == Some(true) && reported in {Unknown, Valid}) ==> r.verdict == reported)
    // every flag that is sent is stored, every other follows the verdict
    && (r.isRole <==> p.isRole == Some(true))
    && (p.isCatchAll.Some? ==> r.isCatchAll == p.isCatchAll.value)
    && (p.isCatchAll == None ==> (r.isCatchAll <==> r.verdict == CatchAll))
    && (flags.isDisposable ==> r.isDisposable)
    && (!flags.isDisposable && p.isDisposable.Some? ==> r.isDisposable == p.isDisposable.value)
    && (!flags.isDisposable && p.isDisposable == None ==> (r.isDisposable <==> r.verdict == Disposable))
    // what is uncertain or blocked is not deliverable, a full mailbox is, and otherwise the worker says so or the verdict does
    && (Blocks(flags) || r.isCatchAll || r.verdict in {CatchAll, Unknown} ==> !r.isDeliverable)
    && (!Blocks(flags) && !r.isCatchAll && r.verdict == Valid && p.mailboxFull == Some(true) ==> r.isDeliverable)
    && (!Blocks(flags) && !r.isCatchAll && r.verdict !in {CatchAll, Unknown} && !(r.verdict == Valid && p.mailboxFull == Some(true)) ==>
          && (p.isDeliverable.Some? ==> r.isDeliverable == p.isDeliverable.value)
          && (p.isDeliverable == None ==> (r.isDeliverable <==> r.verdict == Valid)))
  }

  lemma OneAt(head: string, tail: string)
    requires '@' !in head && '@' !in tail
    ensures Split(head + ['@'] + tail, '@') == [head, tail]
    ensures FirstIndex(head + ['@'] + tail, '@') == LastIndex(head + ['@'] + tail, '@') == |head|
  {
    hide Split, FirstIndex, LastIndex;
    SplitFirst(head, tail, '@');
    SplitAt(head, tail, '@');
    SplitAt(tail, "", '@');
    SplitStep(tail, '@');
    LastAt(head, tail, '@');
  }

  lemma MoreAts(head: string, tail: string)
    requires '@' !in head && '@' in tail
    ensures |Split(head + ['@'] + tail, '@')| > 2
    ensures FirstIndex(head + ['@'] + tail, '@') == |head| < LastIndex(head + ['@'] + tail, '@')
  {
    hide Split, FirstIndex, LastIndex;
    SplitFirst(head, tail, '@');
    SplitAt(head, tail, '@');
    SplitStep(tail, '@');
    var k :| 0 <= k < |tail| && tail[k] == '@';
    assert FirstIndex(tail, '@') >= 0;
    assert (head + ['@'] + tail)[|head| + 1 + k] == '@';
  }

  lemma SameFlags(email: Email, table: Table)
    ensures PolicyFlags(email, table) == AddressFlags(email, table)
  {
    hide Split, FirstIndex, LastIndex, TableFlags;
    var at := FirstIndex(email, '@');
    if at < 0 {
      SplitStep(email, '@');
    } else {
      var head, tail := email[..at], email[at + 1..];
      assert email == head + ['@'] + tail;
      if '@' in tail { MoreAts(head, tail); } else { OneAt(head, tail); }
    }
  }

  /** A reported result stands for exactly one row, and a blank address for none. */
  lemma RowMeans(p: Payload, table: Table, r: Row)
    ensures RowFor(p, table) == Some(r) <==> StandsFor(p, table, r)
    ensures RowFor(p, table) == None <==> CanonicalOf(p.email, "")
  {
    hide Normalize, NormalizeVerificationStatus, TableFlags, PolicyFlags, AddressFlags, CanonicalOf;
    NormalizeMeans(p.email, r.email);
    NormalizeMeans(p.email, "");
    SameFlags(Normalize(p.email), table);
    SpelledStatus(p.status);
    if RowFor(p, table).Some? {
      var row := RowFor(p, table).value;
      NormalizeMeans(p.email, row.email);
      SameRow(p, table, row, r);
    }
  }

  /** The policy's own spellings, and the canonical spelling of the worker's. */
  lemma SpelledStatus(status: string)
    ensures NormalizeVerificationStatus("disposable") == Disposable && NormalizeVerificationStatus("invalid") == Invalid
    ensures NormalizeVerificationStatus(Normalize(status)) == NormalizeVerificationStatus(status)
  {
    hide Normalize;
    StatusTexts();
    NormalizeStored(Disposable);
    NormalizeStored(Invalid);
    NormalizeIdempotent(status);
  }

  lemma SameRow(p: Payload, table: Table, a: Row, b: Row)
    requires StandsFor(p, table, a)
    ensures StandsFor(p, table, b) ==> a == b
  {
    hide Normalize, NormalizeVerificationStatus, TableFlags, AddressFlags, CanonicalOf;
    NormalizeMeans(p.email, a.email);
    NormalizeMeans(p.email, b.email);
  }
}
