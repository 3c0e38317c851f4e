/** helper/mailbox.go: the syntax gate that decides which addresses are charged and queued. */
module Mailbox {
  import opened Text

  predicate IsLocalChar(c: char) {
    'a' <= c <= 'z' || '0' <= c <= '9' || c == '.' || c == '_' || c == '%' || c == '+' || c == '-'
  }

  predicate IsDomainChar(c: char) {
    'a' <= c <= 'z' || '0' <= c <= '9' || c == '.' || c == '-'
  }

  predicate HasDoubleDot(s: string) {
    exists i | 0 <= i < |s| - 1 :: s[i] == '.' && s[i + 1] == '.'
  }

  predicate IsValidMailboxSyntax(raw: string) {
    var email := Normalize(raw);
    var at := FirstIndex(email, '@');
    && 6 <= |email| <= 254
    && 1 <= at && at == LastIndex(email, '@')
    && var local, domain := email[..at], email[at + 1..];
       && 0 < |local| <= 64 && |domain| >= 4
       && !HasDoubleDot(local) && !HasDoubleDot(domain)
       && local[0] != '.' && local[|local| - 1] != '.'
       && domain[0] != '.' && domain[|domain| - 1] != '.' && domain[0] != '-' && domain[|domain| - 1] != '-'
       && 1 <= LastIndex(domain, '.') < |domain| - 2
       && (forall c | c in local :: IsLocalChar(c))
       && (forall c | c in domain :: IsDomainChar(c))
  }

  /** The part after the last '@', or empty if there is none (pipeline/bulk.go). */
  function DomainOf(email: string): (d: string)
    ensures '@' !in d
  {
    var at := LastIndex(email, '@');
    if at < 0 || at == |email| - 1 then "" else email[at + 1..]
  }

  /** The syntax gate leaves a domain that is already in canonical form and has a dot. */
  lemma ValidSyntaxDomain(email: string)
    requires Normalize(email) == email && IsValidMailboxSyntax(email)
    ensures Normalize(DomainOf(email)) == DomainOf(email)
    ensures |Split(DomainOf(email), '.')| >= 2
  {
    hide Trim, Lower;
    var domain := email[FirstIndex(email, '@') + 1..];
    assert DomainOf(email) == domain;
    CanonicalDomain(domain);
    assert domain[LastIndex(domain, '.')] == '.';
    assert FirstIndex(domain, '.') >= 0;
  }

  lemma CanonicalDomain(domain: string)
    requires domain != [] && forall c | c in domain :: IsDomainChar(c)
    ensures Normalize(domain) == domain
  {
    assert domain[0] in domain && domain[|domain| - 1] in domain;
    assert Trim(domain) == domain;
    forall i | 0 <= i < |domain| ensures LowerChar(domain[i]) == domain[i] {
      assert domain[i] in domain;
    }
  }

  // ---------------------------------------------------------------- the gate in terms of the two parts

  const LOCAL_CHARS := "abcdefghijklmnopqrstuvwxyz0123456789._%+-"
  const DOMAIN_CHARS := "abcdefghijklmnopqrstuvwxyz0123456789.-"

  const DIGITS := "0123456789"

  lemma DigitAt(k: nat)
    requires k < 10
    ensures |DIGITS| == 10 && DIGITS[k] as int == '0' as int + k
  {
  }

  lemma DigitChar(c: char)
    ensures c in DIGITS <==> '0' <= c <= '9'
  {
    hide DIGITS;
    DigitAt(0);
    forall k: nat | k < 10 { DigitAt(k); }
    if '0' <= c <= '9' {
      DigitAt(c as int - '0' as int);
      assert DIGITS[c as int - '0' as int] == c;
    }
  }

  lemma CharSets()
    ensures LOCAL_CHARS == SMALL + DIGITS + "._%+-" && DOMAIN_CHARS == SMALL + DIGITS + ".-"
  {
  }

  lemma AllowedChar(c: char)
    ensures IsLocalChar(c) <==> c in LOCAL_CHARS
    ensures IsDomainChar(c) <==> c in DOMAIN_CHARS
    ensures c in LOCAL_CHARS || c in DOMAIN_CHARS ==> c != '@'
  {
    hide SMALL, DIGITS, LOCAL_CHARS, DOMAIN_CHARS;
    SmallLetter(c);
    DigitChar(c);
    CharSets();
  }

  /** The domain has a name before its last dot and a label of two or more characters after it. */
  ghost predicate HasTopLabel(domain: string) {
    exists name, top :: domain == name + "." + top && name != "" && '.' !in top && |top| >= 2
  }

  /** A local part and a domain the gate accepts. */
  ghost predicate WellFormed(local: string, domain: string) {
    && 1 <= |local| <= 64 && 4 <= |domain| && |local| + |domain| <= 253
    && (forall c | c in local :: c in LOCAL_CHARS) && (forall c | c in domain :: c in DOMAIN_CHARS)
    && !(exists a, b :: local == a + ".." + b) && !(exists a, b :: domain == a + ".." + b)
    && local[0] != '.' && local[|local| - 1] != '.'
    && domain[0] !in ".-" && domain[|domain| - 1] !in ".-"
    && HasTopLabel(domain)
  }

  lemma DoubleDot(s: string)
    ensures HasDoubleDot(s) <==> exists a, b :: s == a + ".." + b
  {
    if HasDoubleDot(s) {
      var i :| 0 <= i < |s| - 1 && s[i] == '.' && s[i + 1] == '.';
      assert s == s[..i] + ".." + s[i + 2..];
    }
    if exists a, b :: s == a + ".." + b {
      var a, b :| s == a + ".." + b;
      assert s[|a|] == '.' && s[|a| + 1] == '.';
    }
  }

  lemma LastDot(domain: string)
    ensures 1 <= LastIndex(domain, '.') < |domain| - 2 <==> HasTopLabel(domain)
  {
    hide LastIndex, HasTopLabel;
    if 1 <= LastIndex(domain, '.') < |domain| - 2 {
      TopLabel(domain, LastIndex(domain, '.'));
    }
    if HasTopLabel(domain) {
      TopDot(domain);
    }
  }

  lemma TopLabel(domain: string, dot: int)
    requires 1 <= dot < |domain| - 2 && domain[dot] == '.' && forall i | dot < i < |domain| :: domain[i] != '.'
    ensures HasTopLabel(domain)
  {
    var name, top := domain[..dot], domain[dot + 1..];
    assert domain == name + "." + top;
  }

  lemma TopDot(domain: string)
    requires HasTopLabel(domain)
    ensures 1 <= LastIndex(domain, '.') < |domain| - 2
  {
    hide LastIndex;
    var name, top :| domain == name + "." + top && name != "" && '.' !in top && |top| >= 2;
    assert "." == ['.'];
    LastAt(name, top, '.');
  }

  /** The domain is what follows the last '@'. */
  lemma DomainAfterAt(local: string, domain: string)
    requires '@' !in domain
    ensures DomainOf(local + "@" + domain) == domain
    ensures LastIndex(local + "@" + domain, '@') == |local|
    ensures DomainOf(domain) == ""
  {
    hide LastIndex;
    assert "@" == ['@'];
    LastAt(local, domain, '@');
    assert (local + "@" + domain)[|local| + 1..] == domain;
  }

  lemma GateParts(local: string, domain: string)
    requires '@' !in local && '@' !in domain && Normalize(local + "@" + domain) == local + "@" + domain
    ensures IsValidMailboxSyntax(local + "@" + domain) <==> WellFormed(local, domain)
  {
    hide Normalize, LastIndex, FirstIndex, HasDoubleDot, IsLocalChar, IsDomainChar, LOCAL_CHARS, DOMAIN_CHARS;
    var email := local + "@" + domain;
    DomainAfterAt(local, domain);
    SplitAt(local, domain, '@');
    assert "@" == ['@'] && email[..|local|] == local && email[|local| + 1..] == domain;
    DoubleDot(local);
    DoubleDot(domain);
    LastDot(domain);
    forall c { AllowedChar(c); }
  }

  /** An address passes the gate exactly when its canonical form is a well-formed local part and domain around one '@'. */
  lemma SyntaxIff(raw: string)
    ensures IsValidMailboxSyntax(raw) <==>
            exists local, domain :: WellFormed(local, domain) && CanonicalOf(raw, local + "@" + domain)
  {
    hide WellFormed, Normalize, LastIndex, FirstIndex, CanonicalOf;
    var email := Normalize(raw);
    NormalizeMeans(raw, email);
    NormalizeIdempotent(raw);
    GateCanonical(raw);
    if IsValidMailboxSyntax(raw) {
      var at := FirstIndex(email, '@');
      var local, domain := email[..at], email[at + 1..];
      assert email == local + "@" + domain;
      GateParts(local, domain);
    }
    if exists local, domain :: WellFormed(local, domain) && CanonicalOf(raw, local + "@" + domain) {
      var local, domain :| WellFormed(local, domain) && CanonicalOf(raw, local + "@" + domain);
      NormalizeMeans(raw, local + "@" + domain);
      NoAt(local, domain);
      GateParts(local, domain);
    }
  }

  lemma GateCanonical(raw: string)
    ensures IsValidMailboxSyntax(Normalize(raw)) <==> IsValidMailboxSyntax(raw)
  {
    hide Normalize;
    NormalizeIdempotent(raw);
  }

  lemma NoAt(local: string, domain: string)
    requires WellFormed(local, domain)
    ensures '@' !in local && '@' !in domain
  {
    hide LOCAL_CHARS, DOMAIN_CHARS;
    AllowedChar('@');
  }
}
