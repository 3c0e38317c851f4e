/** Users' credits and the transactions table: repo/user_repo.go, service/payment_service.go
    and the transfer of service/reseller_service.go. */
module Accounts {
  import opened Text
  import opened Verdicts
  import opened BulkQueue

  type UserId = nat

  datatype TxnStatus = Pending | Completed | Cancelled | Failed | Expired

  /** A row of the transactions table. */
  datatype Txn = Txn(user: UserId, id: string, externalId: string, purchase: bool, credits: int, status: TxnStatus)

  datatype Books = Books(credits: map<UserId, int>, txns: seq<Txn>)

  // ---------------------------------------------------------------- single steps

  function Entry(user: UserId, credits: int): Txn {
    Txn(user, "", "", false, credits, Completed)
  }

  /** AddCredits; a row for an unknown user breaks the foreign key and nothing is stored. */
  function Credit(b: Books, user: UserId, n: nat): Books {
    if user !in b.credits then b else Books(b.credits[user := b.credits[user] + n], b.txns + [Entry(user, n)])
  }

  /** The guarded deduction of a bulk charge, a retry charge and a single verification. */
  function Charge(b: Books, user: UserId, n: nat): Books {
    if user !in b.credits || b.credits[user] < n then b
    else Books(b.credits[user := b.credits[user] - n], b.txns + [Entry(user, 0 - n)])
  }

  /** AdjustCredits: the balance stops at zero, the entry does not. */
  function Adjust(b: Books, user: UserId, amount: int): Books {
    if user !in b.credits then b
    else
      var next := b.credits[user] + amount;
      Books(b.credits[user := if next < 0 then 0 else next], b.txns + [Entry(user, amount)])
  }

  predicate Clamps(b: Books, user: UserId, amount: int) {
    user in b.credits && b.credits[user] + amount < 0
  }

  /** The transaction of a transfer, once its checks passed. */
  function Transfer(b: Books, from: UserId, to: UserId, n: nat): Books {
    if from == to || from !in b.credits || to !in b.credits || b.credits[from] < n then b
    else Books(b.credits[from := b.credits[from] - n][to := b.credits[to] + n], b.txns + [Entry(from, 0 - n), Entry(to, n)])
  }

  function Checkout(b: Books, user: UserId, id: string, externalId: string, n: nat): Books {
    if user !in b.credits then b else b.(txns := b.txns + [Txn(user, id, externalId, true, n, Pending)])
  }

  predicate Open(t: Txn, externalId: string) {
    t.externalId == externalId && t.status in {Pending, Expired}
  }

  /** The first row a fulfilment may complete, or -1. */
  function FindOpen(txns: seq<Txn>, externalId: string): (i: int)
    ensures -1 <= i < |txns|
    ensures i >= 0 ==> Open(txns[i], externalId) && forall j | 0 <= j < i :: !Open(txns[j], externalId)
    ensures i < 0 ==> forall j | 0 <= j < |txns| :: !Open(txns[j], externalId)
  {
    if txns == [] then -1
    else
      var i := FindOpen(txns[..|txns| - 1], externalId);
      if i >= 0 then i else if Open(txns[|txns| - 1], externalId) then |txns| - 1 else -1
  }

  /** fulfillPaymentMapping */
  function Fulfil(b: Books, externalId: string): Books {
    var i := FindOpen(b.txns, externalId);
    if i < 0 then b
    else
      var t := b.txns[i];
      Books(if t.user in b.credits then b.credits[t.user := b.credits[t.user] + t.credits] else b.credits,
            b.txns[i := t.(status := Completed)])
  }

  /** An UPDATE of the status of the pending rows a condition selects. */
  function MarkPending(txns: seq<Txn>, hit: set<nat>, status: TxnStatus): (out: seq<Txn>)
    ensures |out| == |txns|
    ensures forall i | 0 <= i < |txns| :: out[i] == if i in hit && txns[i].status == Pending then txns[i].(status := status) else txns[i]
  {
    seq(|txns|, i requires 0 <= i < |txns| => if i in hit && txns[i].status == Pending then txns[i].(status := status) else txns[i])
  }

  function WithExternal(txns: seq<Txn>, externalId: string): set<nat> {
    set i | 0 <= i < |txns| && txns[i].externalId == externalId
  }

  function Owned(txns: seq<Txn>, user: UserId, id: string): set<nat> {
    set i | 0 <= i < |txns| && txns[i].user == user && txns[i].id == id && txns[i].purchase
  }

  function Purchases(txns: seq<Txn>, stale: set<nat>): set<nat> {
    set i | i in stale && i < |txns| && txns[i].purchase
  }

  datatype Action =
    | AddCredits(user: UserId, n: nat)
    | Deduct(user: UserId, n: nat)
    | AdjustCredits(user: UserId, amount: int)
    | TransferCredits(from: UserId, to: UserId, n: nat)
    | StartCheckout(user: UserId, id: string, externalId: string, n: nat)
    | Fulfilment(externalId: string)
    | Abandonment(externalId: string, requested: string)
    | Cancellation(user: UserId, id: string)
    | Expiry(stale: set<nat>)

  /** An unknown status requested by a gateway counts as expired. */
  function AbandonStatus(requested: string): TxnStatus {
    if requested == "cancelled" then Cancelled else if requested == "failed" then Failed else Expired
  }

  function Do(b: Books, a: Action): Books {
    match a
    case AddCredits(user, n) => Credit(b, user, n)
    case Deduct(user, n) => Charge(b, user, n)
    case AdjustCredits(user, amount) => Adjust(b, user, amount)
    case TransferCredits(from, to, n) => Transfer(b, from, to, n)
    case StartCheckout(user, id, externalId, n) => Checkout(b, user, id, externalId, n)
    case Fulfilment(externalId) => Fulfil(b, externalId)
    case Abandonment(externalId, requested) => b.(txns := MarkPending(b.txns, WithExternal(b.txns, externalId), AbandonStatus(requested)))
    case Cancellation(user, id) => b.(txns := MarkPending(b.txns, Owned(b.txns, user, id), Cancelled))
    case Expiry(stale) => b.(txns := MarkPending(b.txns, Purchases(b.txns, stale), Expired))
  }

  function DoAll(b: Books, actions: seq<Action>): Books
    decreases |actions|
  {
    if actions == [] then b else DoAll(Do(b, actions[0]), actions[1..])
  }

  // ---------------------------------------------------------------- the running code

  datatype Profile = Profile(email: string, role: string, status: string)

  datatype TransferError =
    | AmountInvalid
    | RecipientMissing
    | TransferToSelf
    | RecipientRole
    | RecipientStatus
    | SenderMissing
    | Unauthorized
    | Insufficient

  /** `user` is the account with this address; addresses are unique. */
  predicate Named(profiles: map<UserId, Profile>, user: UserId, email: string) {
    user in profiles && profiles[user].email == email
  }

  ghost predicate UniqueEmails(profiles: map<UserId, Profile>) {
    forall a, b | a in profiles && b in profiles && profiles[a].email == profiles[b].email :: a == b
  }

  /** A regular, active account other than the sender's. */
  predicate MayReceive(profiles: map<UserId, Profile>, sender: UserId, user: UserId)
    requires user in profiles
  {
    user != sender && profiles[user].role == "user" && Normalize(profiles[user].status) !in ["suspended", "inactive"]
  }

  predicate MaySend(profiles: map<UserId, Profile>, sender: UserId) {
    sender in profiles && profiles[sender].role in ["reseller", "admin"]
  }

  /** A purchase of this user with this id. */
  predicate IsOwn(t: Txn, user: UserId, id: string) {
    t.user == user && t.id == id && t.purchase
  }

  /** Who may receive and send credits, by account row. */
  lemma TransferRules(profiles: map<UserId, Profile>, sender: UserId, user: UserId, status: string)
    requires user in profiles && CanonicalOf(profiles[user].status, status)
    ensures MayReceive(profiles, sender, user) <==> user != sender && profiles[user].role == "user" && status != "suspended" && status != "inactive"
    ensures MaySend(profiles, user) <==> profiles[user].role == "reseller" || profiles[user].role == "admin"
    ensures forall email :: Named(profiles, user, email) <==> email == profiles[user].email
  {
    hide Normalize, CanonicalOf;
    NormalizeMeans(profiles[user].status, status);
  }

  class Store {
    var credits: map<UserId, int>
    var txns: seq<Txn>

    ghost function Abs(): Books
      reads this
    {
      Books(credits, txns)
    }

    method Add(user: UserId, n: nat)
      modifies this
      ensures Abs() == Do(old(Abs()), AddCredits(user, n))
      ensures credits == if user in old(credits) then old(credits)[user := old(credits)[user] + n] else old(credits)
      ensures txns == if user in old(credits) then old(txns) + [Txn(user, "", "", false, n, Completed)] else old(txns)
    {
      if user in credits {
        credits := credits[user := credits[user] + n];
        txns := txns + [Txn(user, "", "", false, n, Completed)];
      }
    }

    method Take(user: UserId, n: nat) returns (ok: bool)
      modifies this
      ensures Abs() == Do(old(Abs()), Deduct(user, n))
      ensures ok <==> user in old(credits) && old(credits)[user] >= n
      ensures credits == if ok then old(credits)[user := old(credits)[user] - n] else old(credits)
      ensures txns == if ok then old(txns) + [Txn(user, "", "", false, 0 - n, Completed)] else old(txns)
    {
      ok := user in credits && credits[user] >= n;
      if ok {
        credits := credits[user := credits[user] - n];
        txns := txns + [Txn(user, "", "", false, 0 - n, Completed)];
      }
    }

    method AdjustBy(user: UserId, amount: int)
      modifies this
      ensures Abs() == Do(old(Abs()), AdjustCredits(user, amount))
      ensures user !in old(credits) ==> credits == old(credits) && txns == old(txns)
      ensures user in old(credits) ==>
                var next := old(credits)[user] + amount;
                && credits == old(credits)[user := if next < 0 then 0 else next]
                && txns == old(txns) + [Txn(user, "", "", false, amount, Completed)]
    {
      if user in credits {
        var newCredits := credits[user] + amount;
        if newCredits < 0 {
          newCredits := 0;
        }
        credits := credits[user := newCredits];
        txns := txns + [Txn(user, "", "", false, amount, Completed)];
      }
    }

    /** TransferCredits inside its transaction: any refusal leaves both accounts alone, and each has its one cause. */
    method TransferTo(reseller: UserId, recipientEmail: string, amount: int, profiles: map<UserId, Profile>)
      returns (error: Option<TransferError>)
      requires profiles.Keys == credits.Keys && UniqueEmails(profiles)
      modifies this
      ensures error.Some? ==> Abs() == old(Abs())
      ensures error == Some(AmountInvalid) <==> amount <= 0
      ensures error == Some(RecipientMissing) <==> amount > 0 && !exists to :: Named(profiles, to, Normalize(recipientEmail))
      ensures amount > 0 ==> forall to | Named(profiles, to, Normalize(recipientEmail)) ::
                var may := MayReceive(profiles, reseller, to);
                && (error == Some(TransferToSelf) <==> to == reseller)
                && (error == Some(RecipientRole) <==> to != reseller && profiles[to].role != "user")
                && (error == Some(RecipientStatus) <==> to != reseller && profiles[to].role == "user" && !may)
                && (error == Some(SenderMissing) <==> may && reseller !in profiles)
                && (error == Some(Unauthorized) <==> may && reseller in profiles && !MaySend(profiles, reseller))
                && (error == Some(Insufficient) <==> may && MaySend(profiles, reseller) && old(credits)[reseller] < amount)
                && (error == None <==> may && MaySend(profiles, reseller) && old(credits)[reseller] >= amount)
                && (error == None ==> Abs() == Do(old(Abs()), TransferCredits(reseller, to, amount)))
                && (error == None ==> Moved(old(credits), old(txns), reseller, to, amount))
    {
      hide Normalize, Do, UniqueEmails, Named;
      if amount <= 0 {
        return Some(AmountInvalid);
      }
      var email := Normalize(recipientEmail);
      var account := FindAccount(profiles, email);
      if account == None {
        return Some(RecipientMissing);
      }
      var to := account.value;
      assert Named(profiles, to, email);
      assert MayReceive(profiles, reseller, to) <==>
        to != reseller && profiles[to].role == "user" && Normalize(profiles[to].status) != "suspended" && Normalize(profiles[to].status) != "inactive";
      assert MaySend(profiles, reseller) <==>
        reseller in profiles && (profiles[reseller].role == "reseller" || profiles[reseller].role == "admin");
      hide MayReceive, MaySend;
      if to == reseller {
        return Some(TransferToSelf);
      }
      if profiles[to].role != "user" {
        return Some(RecipientRole);
      }
      var status := Normalize(profiles[to].status);
      if status == "suspended" || status == "inactive" {
        return Some(RecipientStatus);
      }
      if reseller !in profiles {
        return Some(SenderMissing);
      }
      if profiles[reseller].role != "reseller" && profiles[reseller].role != "admin" {
        return Some(Unauthorized);
      }
      if credits[reseller] < amount {
        return Some(Insufficient);
      }
      Move(reseller, to, amount);
      return None;
    }

    /** The account with an address, if there is one. */
    static method FindAccount(profiles: map<UserId, Profile>, email: string) returns (account: Option<UserId>)
      requires UniqueEmails(profiles)
      ensures account == None ==> forall user :: !Named(profiles, user, email)
      ensures account.Some? ==> account.value in profiles && forall user :: Named(profiles, user, email) <==> user == account.value
    {
      if user :| user in profiles && Named(profiles, user, email) {
        return Some(user);
      }
      return None;
    }

    /** The sender has lost the amount, the recipient has gained it, and each has an entry of it. */
    ghost predicate Moved(before: map<UserId, int>, entries: seq<Txn>, from: UserId, to: UserId, amount: int)
      reads this
    {
      && from in before && to in before && from != to
      && credits == before[from := before[from] - amount][to := before[to] + amount]
      && txns == entries + [Txn(from, "", "", false, 0 - amount, Completed), Txn(to, "", "", false, amount, Completed)]
    }

    /** The two updates and the two entries of a transfer. */
    method Move(from: UserId, to: UserId, amount: nat)
      requires from != to && from in credits && to in credits && credits[from] >= amount
      modifies this
      ensures Abs() == Do(old(Abs()), TransferCredits(from, to, amount))
      ensures Moved(old(credits), old(txns), from, to, amount)
    {
      credits := credits[from := credits[from] - amount];
      credits := credits[to := credits[to] + amount];
      txns := txns + [Txn(from, "", "", false, 0 - amount, Completed)];
      txns := txns + [Txn(to, "", "", false, amount, Completed)];
    }

    method FulfillPaymentMapping(mapKey: string) returns (fulfilled: bool)
      modifies this
      ensures Abs() == Do(old(Abs()), Fulfilment(mapKey))
      ensures fulfilled <==> exists i | 0 <= i < |old(txns)| :: old(txns)[i].externalId == mapKey && old(txns)[i].status in {Pending, Expired}
      ensures !fulfilled ==> credits == old(credits) && txns == old(txns)
      ensures forall i | 0 <= i < |old(txns)| && Open(old(txns)[i], mapKey) && (forall j | 0 <= j < i :: !Open(old(txns)[j], mapKey)) ::
                var t := old(txns)[i];
                && txns == old(txns)[i := t.(status := Completed)]
                && credits == if t.user in old(credits) then old(credits)[t.user := old(credits)[t.user] + t.credits] else old(credits)
    {
      var i := 0;
      while i < |txns| && !(txns[i].externalId == mapKey && txns[i].status in {Pending, Expired})
        invariant 0 <= i <= |txns|
        invariant forall j | 0 <= j < i :: !Open(txns[j], mapKey)
      {
        i := i + 1;
      }
      if i == |txns| {
        return false;
      }
      assert Open(txns[i], mapKey);
      var txn := txns[i];
      if txn.user in credits {
        credits := credits[txn.user := credits[txn.user] + txn.credits];
      }
      txns := txns[i := txn.(status := Completed)];
      return true;
    }

    method AbandonPaymentMapping(mapKey: string, requested: string)
      modifies this`txns
      ensures Abs() == Do(old(Abs()), Abandonment(mapKey, requested))
      ensures |txns| == |old(txns)|
      ensures forall i | 0 <= i < |txns| ::
                var t := old(txns)[i];
                && (t.externalId == mapKey && t.status == Pending && requested == "cancelled" ==> txns[i] == t.(status := Cancelled))
                && (t.externalId == mapKey && t.status == Pending && requested == "failed" ==> txns[i] == t.(status := Failed))
                && (t.externalId == mapKey && t.status == Pending && requested !in ["cancelled", "failed"] ==> txns[i] == t.(status := Expired))
                && (t.externalId != mapKey || t.status != Pending ==> txns[i] == t)
    {
      var status := Expired;
      if requested == "cancelled" {
        status := Cancelled;
      } else if requested == "failed" {
        status := Failed;
      }
      txns := MarkPending(txns, WithExternal(txns, mapKey), status);
    }

    /** False stands for "payment not found". */
    method CancelPayment(user: UserId, rawId: string) returns (ok: bool)
      modifies this`txns
      ensures Abs() == if Trim(rawId) == "" then old(Abs()) else Do(old(Abs()), Cancellation(user, Trim(rawId)))
      ensures ok <==> Trim(rawId) != "" && Owned(old(txns), user, Trim(rawId)) != {}
      ensures |txns| == |old(txns)|
      ensures forall id | CoreOf(rawId, id) ::
                && (ok <==> id != "" && exists i | 0 <= i < |txns| :: IsOwn(old(txns)[i], user, id))
                && forall i | 0 <= i < |txns| ::
                     var t := old(txns)[i];
                     txns[i] == if id != "" && IsOwn(t, user, id) && t.status == Pending then t.(status := Cancelled) else t
    {
      hide Trim, CoreOf;
      forall id | CoreOf(rawId, id) ensures id == Trim(rawId) { TrimMeans(rawId, id); }
      var id := Trim(rawId);
      if id == "" {
        return false;
      }
      var mine := Owned(txns, user, id);
      txns := MarkPending(txns, mine, Cancelled);
      ok := mine != {};
    }

    method ExpirePendingPurchases(stale: set<nat>)
      modifies this`txns
      ensures Abs() == Do(old(Abs()), Expiry(stale))
      ensures |txns| == |old(txns)|
      ensures forall i | 0 <= i < |txns| ::
                var t := old(txns)[i];
                txns[i] == if i in stale && t.purchase && t.status == Pending then t.(status := Expired) else t
    {
      txns := MarkPending(txns, Purchases(txns, stale), Expired);
    }
  }

  // ---------------------------------------------------------------- credits against completed entries

  /** The completed entries of one user. */
  function Recorded(txns: seq<Txn>, user: UserId): int {
    if txns == [] then 0
    else
      var last := txns[|txns| - 1];
      Recorded(txns[..|txns| - 1], user) + (if last.user == user && last.status == Completed then last.credits else 0)
  }

  function Drift(b: Books, user: UserId): int
    requires user in b.credits
  {
    b.credits[user] - Recorded(b.txns, user)
  }

  /** Balances are never negative, and a purchase belongs to a known user. */
  ghost predicate Sound(b: Books) {
    && (forall u | u in b.credits :: b.credits[u] >= 0)
    && (forall t | t in b.txns :: t.user in b.credits && (t.status in {Pending, Expired} ==> t.credits >= 0))
  }

  lemma RecordedSnoc(txns: seq<Txn>, t: Txn, user: UserId)
    ensures Recorded(txns + [t], user) == Recorded(txns, user) + (if t.user == user && t.status == Completed then t.credits else 0)
  {
    assert (txns + [t])[..|txns|] == txns;
  }

  lemma {:induction false} RecordedUpdate(txns: seq<Txn>, i: nat, user: UserId)
    requires i < |txns| && txns[i].status != Completed
    ensures Recorded(txns[i := txns[i].(status := Completed)], user)
         == Recorded(txns, user) + (if txns[i].user == user then txns[i].credits else 0)
  {
    var front := txns[..|txns| - 1];
    var updated := txns[i := txns[i].(status := Completed)];
    if i < |front| {
      RecordedUpdate(front, i, user);
      assert updated[..|txns| - 1] == front[i := front[i].(status := Completed)];
    } else {
      assert updated[..|txns| - 1] == front;
    }
  }

  lemma {:induction false} RecordedMark(txns: seq<Txn>, hit: set<nat>, status: TxnStatus, user: UserId)
    requires status != Completed
    ensures Recorded(MarkPending(txns, hit, status), user) == Recorded(txns, user)
  {
    if txns != [] {
      var front := txns[..|txns| - 1];
      RecordedMark(front, hit, status, user);
      assert MarkPending(txns, hit, status)[..|txns| - 1] == MarkPending(front, hit, status);
    }
  }

  /** Entries for known users and non-negative balances keep the books sound. */
  lemma AppendSound(b: Books, credits: map<UserId, int>, more: seq<Txn>)
    requires Sound(b) && credits.Keys == b.credits.Keys && forall u | u in credits :: credits[u] >= 0
    requires forall t | t in more :: t.user in credits && (t.status in {Pending, Expired} ==> t.credits >= 0)
    ensures Sound(Books(credits, b.txns + more))
  {
  }

  lemma TransferSound(b: Books, from: UserId, to: UserId, n: nat)
    requires Sound(b)
    ensures Sound(Transfer(b, from, to, n)) && Transfer(b, from, to, n).credits.Keys == b.credits.Keys
  {
    if Transfer(b, from, to, n) != b {
      AppendSound(b, b.credits[from := b.credits[from] - n][to := b.credits[to] + n], [Entry(from, 0 - n), Entry(to, n)]);
    }
  }

  lemma FulfilSound(b: Books, externalId: string)
    requires Sound(b)
    ensures Sound(Fulfil(b, externalId)) && Fulfil(b, externalId).credits.Keys == b.credits.Keys
  {
    var b', i := Fulfil(b, externalId), FindOpen(b.txns, externalId);
    if i >= 0 {
      assert b.txns[i] in b.txns;
      forall t | t in b'.txns ensures t.user in b'.credits && (t.status in {Pending, Expired} ==> t.credits >= 0) {
        assert t == b'.txns[i] || t in b.txns;
      }
    }
  }

  lemma MarkSound(b: Books, hit: set<nat>, status: TxnStatus)
    requires Sound(b)
    ensures Sound(b.(txns := MarkPending(b.txns, hit, status)))
  {
    var out := MarkPending(b.txns, hit, status);
    forall t | t in out ensures t.user in b.credits && (t.status in {Pending, Expired} ==> t.credits >= 0) {
      var j :| 0 <= j < |out| && out[j] == t;
      assert b.txns[j] in b.txns;
    }
  }

  lemma DoSound(b: Books, a: Action)
    requires Sound(b)
    ensures Sound(Do(b, a)) && Do(b, a).credits.Keys == b.credits.Keys
  {
    hide Sound, Credit, Charge, Adjust, Transfer, Checkout, Fulfil, MarkPending, AbandonStatus;
    match a
    case AddCredits(u, n) => CreditSound(b, u, n);
    case Deduct(u, n) => ChargeSound(b, u, n);
    case AdjustCredits(u, amount) => AdjustSound(b, u, amount);
    case TransferCredits(from, to, n) => TransferSound(b, from, to, n);
    case StartCheckout(u, id, externalId, n) => CheckoutSound(b, u, id, externalId, n);
    case Fulfilment(externalId) => FulfilSound(b, externalId);
    case Abandonment(externalId, requested) => MarkSound(b, WithExternal(b.txns, externalId), AbandonStatus(requested));
    case Cancellation(u, id) => MarkSound(b, Owned(b.txns, u, id), Cancelled);
    case Expiry(stale) => MarkSound(b, Purchases(b.txns, stale), Expired);
  }

  lemma CreditSound(b: Books, user: UserId, n: nat)
    requires Sound(b)
    ensures Sound(Credit(b, user, n)) && Credit(b, user, n).credits.Keys == b.credits.Keys
  {
  }

  lemma ChargeSound(b: Books, user: UserId, n: nat)
    requires Sound(b)
    ensures Sound(Charge(b, user, n)) && Charge(b, user, n).credits.Keys == b.credits.Keys
  {
  }

  lemma AdjustSound(b: Books, user: UserId, amount: int)
    requires Sound(b)
    ensures Sound(Adjust(b, user, amount)) && Adjust(b, user, amount).credits.Keys == b.credits.Keys
  {
  }

  /** A checkout of a known user stores a pending purchase of its credits, and pays nothing yet. */
  lemma CheckoutMeans(b: Books, user: UserId, id: string, externalId: string, n: nat)
    ensures var b' := Do(b, StartCheckout(user, id, externalId, n));
            && b'.credits == b.credits
            && b'.txns == if user in b.credits then b.txns + [Txn(user, id, externalId, true, n, Pending)] else b.txns
  {
  }

  lemma CheckoutSound(b: Books, user: UserId, id: string, externalId: string, n: nat)
    requires Sound(b)
    ensures Sound(Checkout(b, user, id, externalId, n)) && Checkout(b, user, id, externalId, n).credits == b.credits
  {
  }

  /** Balance and completed entries move together. */
  lemma CreditDrift(b: Books, u: UserId, n: nat, user: UserId)
    requires user in b.credits
    ensures user in Credit(b, u, n).credits && Drift(Credit(b, u, n), user) == Drift(b, user)
  {
    hide Recorded;
    RecordedSnoc(b.txns, Entry(u, n), user);
  }

  lemma ChargeDrift(b: Books, u: UserId, n: nat, user: UserId)
    requires user in b.credits
    ensures user in Charge(b, u, n).credits && Drift(Charge(b, u, n), user) == Drift(b, user)
  {
    hide Recorded;
    RecordedSnoc(b.txns, Entry(u, 0 - n), user);
  }

  lemma TransferDrift(b: Books, from: UserId, to: UserId, n: nat, user: UserId)
    requires user in b.credits
    ensures user in Transfer(b, from, to, n).credits && Drift(Transfer(b, from, to, n), user) == Drift(b, user)
  {
    hide Recorded;
    var taken := b.txns + [Entry(from, 0 - n)];
    RecordedSnoc(b.txns, Entry(from, 0 - n), user);
    RecordedSnoc(taken, Entry(to, n), user);
    assert taken + [Entry(to, n)] == b.txns + [Entry(from, 0 - n), Entry(to, n)];
  }

  /** But for a clamped adjustment. */
  lemma AdjustDrift(b: Books, u: UserId, amount: int, user: UserId)
    requires user in b.credits
    ensures user in Adjust(b, u, amount).credits
    ensures Drift(Adjust(b, u, amount), user) - Drift(b, user)
         == if u == user && Clamps(b, user, amount) then -(b.credits[user] + amount) else 0
  {
    hide Recorded;
    RecordedSnoc(b.txns, Entry(u, amount), user);
  }

  lemma CheckoutDrift(b: Books, u: UserId, id: string, externalId: string, n: nat, user: UserId)
    requires user in b.credits
    ensures user in Checkout(b, u, id, externalId, n).credits
    ensures Drift(Checkout(b, u, id, externalId, n), user) == Drift(b, user)
  {
    hide Recorded;
    RecordedSnoc(b.txns, Txn(u, id, externalId, true, n, Pending), user);
  }

  lemma FulfilDrift(b: Books, externalId: string, user: UserId)
    requires Sound(b) && user in b.credits
    ensures user in Fulfil(b, externalId).credits && Drift(Fulfil(b, externalId), user) == Drift(b, user)
  {
    hide Recorded;
    var i := FindOpen(b.txns, externalId);
    if i >= 0 {
      assert b.txns[i] in b.txns;
      RecordedUpdate(b.txns, i, user);
    }
  }

  lemma MarkDrift(b: Books, hit: set<nat>, status: TxnStatus, user: UserId)
    requires user in b.credits && status != Completed
    ensures Drift(b.(txns := MarkPending(b.txns, hit, status)), user) == Drift(b, user)
  {
    hide Recorded, MarkPending;
    RecordedMark(b.txns, hit, status, user);
  }

  lemma DoDrift(b: Books, a: Action, user: UserId)
    requires Sound(b) && user in b.credits
    ensures user in Do(b, a).credits
    ensures Drift(Do(b, a), user) - Drift(b, user) ==
            (if a.AdjustCredits? && a.user == user && Clamps(b, user, a.amount) then -(b.credits[user] + a.amount) else 0)
  {
    hide Drift, Sound, Credit, Charge, Adjust, Transfer, Checkout, Fulfil, MarkPending;
    match a
    case AddCredits(u, n) => CreditDrift(b, u, n, user);
    case Deduct(u, n) => ChargeDrift(b, u, n, user);
    case AdjustCredits(u, amount) => AdjustDrift(b, u, amount, user);
    case TransferCredits(from, to, n) => TransferDrift(b, from, to, n, user);
    case StartCheckout(u, id, externalId, n) => CheckoutDrift(b, u, id, externalId, n, user);
    case Fulfilment(externalId) => FulfilDrift(b, externalId, user);
    case Abandonment(externalId, requested) => MarkDrift(b, WithExternal(b.txns, externalId), AbandonStatus(requested), user);
    case Cancellation(u, id) => MarkDrift(b, Owned(b.txns, u, id), Cancelled, user);
    case Expiry(stale) => MarkDrift(b, Purchases(b.txns, stale), Expired, user);
  }

  /** Some step of the run clamps an adjustment of this user. */
  predicate EverClamped(b: Books, actions: seq<Action>, user: UserId)
    decreases |actions|
  {
    actions != [] &&
    ((actions[0].AdjustCredits? && actions[0].user == user && Clamps(b, user, actions[0].amount))
     || EverClamped(Do(b, actions[0]), actions[1..], user))
  }

  /** Over every run, balances stay non-negative and credits less completed entries never decrease;
      they stay equal to where they started exactly when no adjustment of the user was clamped. */
  lemma {:induction false} DriftOverRuns(b: Books, actions: seq<Action>, user: UserId)
    requires Sound(b) && user in b.credits
    ensures Sound(DoAll(b, actions)) && user in DoAll(b, actions).credits
    ensures Drift(DoAll(b, actions), user) >= Drift(b, user)
    ensures Drift(DoAll(b, actions), user) == Drift(b, user) <==> !EverClamped(b, actions, user)
    decreases |actions|
  {
    hide Recorded, Do, Sound, Drift;
    if actions != [] {
      DoSound(b, actions[0]);
      DoDrift(b, actions[0], user);
      DriftOverRuns(Do(b, actions[0]), actions[1..], user);
    }
  }

  function TotalOf(credits: map<UserId, int>, users: seq<UserId>): int
    requires forall u | u in users :: u in credits
  {
    if users == [] then 0 else TotalOf(credits, users[..|users| - 1]) + credits[users[|users| - 1]]
  }

  lemma {:induction false} TotalUpdate(credits: map<UserId, int>, users: seq<UserId>, u: UserId, v: int)
    requires u in credits && NoDup(users) && forall x | x in users :: x in credits
    ensures TotalOf(credits[u := v], users) == TotalOf(credits, users) + (if u in users then v - credits[u] else 0)
  {
    if users != [] {
      var front, last := users[..|users| - 1], users[|users| - 1];
      TotalUpdate(credits, front, u, v);
      assert users == front + [last] && last !in front;
    }
  }

  /** A transfer moves credits and creates none, whoever else is counted in. */
  lemma TransferKeepsTotal(b: Books, from: UserId, to: UserId, n: nat, users: seq<UserId>)
    requires NoDup(users) && from in users && to in users && forall u | u in users :: u in b.credits
    ensures var b' := Do(b, TransferCredits(from, to, n));
            b'.credits.Keys == b.credits.Keys && TotalOf(b'.credits, users) == TotalOf(b.credits, users)
  {
    hide TotalOf;
    if from != to && b.credits[from] >= n {
      var taken := b.credits[from := b.credits[from] - n];
      TotalUpdate(b.credits, users, from, b.credits[from] - n);
      TotalUpdate(taken, users, to, b.credits[to] + n);
      assert taken[to] == b.credits[to];
    }
  }

  // ---------------------------------------------------------------- the life of a purchase

  /** The moves a purchase may make. */
  predicate Moves(a: TxnStatus, b: TxnStatus) {
    a == b || a == Pending || (a == Expired && b == Completed)
  }

  /** This step completes row i. */
  predicate Completes(b: Books, a: Action, i: nat) {
    a.Fulfilment? && FindOpen(b.txns, a.externalId) == i
  }

  function Completions(b: Books, actions: seq<Action>, i: nat): nat
    decreases |actions|
  {
    if actions == [] then 0
    else (if Completes(b, actions[0], i) then 1 else 0) + Completions(Do(b, actions[0]), actions[1..], i)
  }

  lemma DoRow(b: Books, a: Action, i: nat)
    requires i < |b.txns|
    ensures var b' := Do(b, a);
            && i < |b'.txns| && b'.txns[i] == b.txns[i].(status := b'.txns[i].status)
            && Moves(b.txns[i].status, b'.txns[i].status)
            && (Completes(b, a, i) <==> b.txns[i].status != Completed && b'.txns[i].status == Completed)
  {
  }

  /** A completing step pays exactly the row's credits, to its owner only. */
  lemma CompletingPays(b: Books, a: Action, i: nat, user: UserId)
    requires i < |b.txns| && Completes(b, a, i) && user in b.credits
    ensures Do(b, a).credits[user] == b.credits[user] + (if b.txns[i].user == user then b.txns[i].credits else 0)
  {
  }

  /** Over every order and repetition of fulfil, abandon, cancel and expire: completed, cancelled and failed are final,
      expired can only become completed, and the row's credits are paid once if it ends completed and never otherwise. */
  lemma {:induction false} PurchaseLife(b: Books, actions: seq<Action>, i: nat)
    requires i < |b.txns|
    ensures var end := DoAll(b, actions);
            && i < |end.txns| && end.txns[i] == b.txns[i].(status := end.txns[i].status)
            && Moves(b.txns[i].status, end.txns[i].status)
            && Completions(b, actions, i) == if b.txns[i].status != Completed && end.txns[i].status == Completed then 1 else 0
    decreases |actions|
  {
    hide Do, Completes;
    if actions != [] {
      DoRow(b, actions[0], i);
      PurchaseLife(Do(b, actions[0]), actions[1..], i);
    }
  }
}
