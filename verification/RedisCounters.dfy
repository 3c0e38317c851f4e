/** Concurrent INCR-check-DECR: the daily quota of security/fraud_guard.go and the cluster slots of service/prepare_lock.go.
    Every Redis command is one step; steps of different clients interleave freely. */
module RedisCounters {

  // ---------------------------------------------------------------- one counter per key

  /** Client `client` has incremented `key` and not yet decremented it; the value is what INCR returned. */
  datatype Hold<K> = Hold(client: nat, key: K)

  datatype Pool<K(==)> = Pool(counts: map<K, int>, held: map<Hold<K>, int>)

  function Count<K>(p: Pool<K>, key: K): int {
    if key in p.counts then p.counts[key] else 0
  }

  function Incr<K>(p: Pool<K>, client: nat, key: K): Pool<K> {
    Pool(p.counts[key := Count(p, key) + 1], p.held[Hold(client, key) := Count(p, key) + 1])
  }

  function Decr<K>(p: Pool<K>, client: nat, key: K): Pool<K> {
    Pool(p.counts[key := Count(p, key) - 1], p.held - {Hold(client, key)})
  }

  predicate Holds<K(==)>(p: Pool<K>, client: nat, key: K) {
    Hold(client, key) in p.held
  }

  function Holders<K>(p: Pool<K>, key: K): set<nat> {
    set h | h in p.held && h.key == key :: h.client
  }

  /** Those whose INCR stayed within the limit. */
  function Within<K>(p: Pool<K>, key: K, limit: nat): set<nat> {
    set h | h in p.held && h.key == key && p.held[h] <= limit :: h.client
  }

  ghost predicate Counted<K(!new)>(p: Pool<K>, limit: nat) {
    forall key :: CountedAt(p, limit, key)
  }

  lemma WithinHolders<K(!new)>(p: Pool<K>, key: K, limit: nat)
    ensures Within(p, key, limit) <= Holders(p, key)
    ensures |Within(p, key, limit)| <= |Holders(p, key)|
  {
    var rest := Holders(p, key) - Within(p, key, limit);
    assert Holders(p, key) == Within(p, key, limit) + rest;
  }

  lemma InHolders<K(!new)>(p: Pool<K>, client: nat, key: K)
    ensures client in Holders(p, key) <==> Holds(p, client, key)
  {
    if Holds(p, client, key) {
      assert Hold(client, key).client in Holders(p, key);
    }
  }

  lemma InWithin<K(!new)>(p: Pool<K>, client: nat, key: K, limit: nat)
    ensures client in Within(p, key, limit) <==> Holds(p, client, key) && p.held[Hold(client, key)] <= limit
  {
    if Holds(p, client, key) && p.held[Hold(client, key)] <= limit {
      assert Hold(client, key).client in Within(p, key, limit);
    }
  }

  lemma IncrSets<K(!new)>(p: Pool<K>, client: nat, key: K, limit: nat, k: K)
    requires !Holds(p, client, key)
    ensures Holders(Incr(p, client, key), k) == if k == key then Holders(p, k) + {client} else Holders(p, k)
    ensures Within(Incr(p, client, key), k, limit)
         == if k == key && Count(p, key) + 1 <= limit then Within(p, k, limit) + {client} else Within(p, k, limit)
    ensures client !in Holders(p, key) && client !in Within(p, key, limit)
  {
    hide Holders, Within, Count;
    var q := Incr(p, client, key);
    forall c
      ensures c in Holders(q, k) <==> c in Holders(p, k) || (c == client && k == key)
      ensures c in Within(q, k, limit) <==> c in Within(p, k, limit) || (c == client && k == key && Count(p, key) + 1 <= limit)
    {
      InHolders(q, c, k);
      InHolders(p, c, k);
      InWithin(q, c, k, limit);
      InWithin(p, c, k, limit);
    }
    InHolders(p, client, key);
    InWithin(p, client, key, limit);
  }

  lemma DecrSets<K(!new)>(p: Pool<K>, client: nat, key: K, limit: nat, k: K)
    requires Holds(p, client, key)
    ensures Holders(Decr(p, client, key), k) == if k == key then Holders(p, k) - {client} else Holders(p, k)
    ensures Within(Decr(p, client, key), k, limit) == if k == key then Within(p, k, limit) - {client} else Within(p, k, limit)
    ensures client in Holders(p, key)
  {
    hide Holders, Within, Count;
    var q := Decr(p, client, key);
    forall c
      ensures c in Holders(q, k) <==> c in Holders(p, k) && !(c == client && k == key)
      ensures c in Within(q, k, limit) <==> c in Within(p, k, limit) && !(c == client && k == key)
    {
      InHolders(q, c, k);
      InHolders(p, c, k);
      InWithin(q, c, k, limit);
      InWithin(p, c, k, limit);
    }
    InHolders(p, client, key);
  }

  ghost predicate CountedAt<K(!new)>(p: Pool<K>, limit: nat, key: K) {
    Count(p, key) == |Holders(p, key)| && |Within(p, key, limit)| <= limit
  }

  lemma IncrCountedAt<K(!new)>(p: Pool<K>, client: nat, key: K, limit: nat, k: K)
    requires CountedAt(p, limit, k) && CountedAt(p, limit, key) && !Holds(p, client, key)
    ensures CountedAt(Incr(p, client, key), limit, k)
  {
    hide Holders, Within;
    IncrSets(p, client, key, limit, k);
    WithinHolders(p, key, limit);
  }

  lemma DecrCountedAt<K(!new)>(p: Pool<K>, client: nat, key: K, limit: nat, k: K)
    requires CountedAt(p, limit, k) && Holds(p, client, key)
    ensures CountedAt(Decr(p, client, key), limit, k)
  {
    hide Holders, Within;
    DecrSets(p, client, key, limit, k);
    if k == key {
      SubsetSize(Within(p, k, limit) - {client}, Within(p, k, limit));
    }
  }

  /** Whatever the interleaving, counting keeps the counter equal to its holders and the early holders within the limit. */
  lemma IncrCounted<K(!new)>(p: Pool<K>, client: nat, key: K, limit: nat)
    requires Counted(p, limit) && !Holds(p, client, key)
    ensures Counted(Incr(p, client, key), limit)
  {
    hide CountedAt, Incr;
    forall k ensures CountedAt(Incr(p, client, key), limit, k) {
      IncrCountedAt(p, client, key, limit, k);
    }
  }

  lemma DecrCounted<K(!new)>(p: Pool<K>, client: nat, key: K, limit: nat)
    requires Counted(p, limit) && Holds(p, client, key)
    ensures Counted(Decr(p, client, key), limit)
  {
    hide CountedAt, Decr;
    forall k ensures CountedAt(Decr(p, client, key), limit, k) {
      DecrCountedAt(p, client, key, limit, k);
    }
  }

  lemma EmptyCounted<K(!new)>(p: Pool<K>, limit: nat)
    requires p == Pool(map[], map[])
    ensures Counted(p, limit)
  {
    forall k: K ensures CountedAt(p, limit, k) {
      assert Holders(p, k) == {} && Within(p, k, limit) == {};
    }
  }

  lemma SubsetSize<T>(a: set<T>, b: set<T>)
    requires a <= b
    ensures |a| <= |b|
  {
    assert b == a + (b - a);
  }

  // ---------------------------------------------------------------- the daily quota

  datatype Key = Ip(ip: string) | Cookie(cookie: string)

  datatype Phase = Arrived | CountedIp | CountedBoth | Undoing | UndoingCookie | Granted | Refused

  datatype Request = Request(ip: string, cookie: string, phase: Phase)

  datatype Quota = Quota(pool: Pool<Key>, requests: map<nat, Request>)

  datatype Command =
    | Arrive(id: nat, ip: string, cookie: string)
    | IncrIp(id: nat)
    | IncrCookie(id: nat)
    | CookieFails(id: nat)
    | Decide(id: nat)
    | UndoIp(id: nat)
    | UndoCookie(id: nat)

  function IpKey(q: Quota, id: nat): Key
    requires id in q.requests
  {
    Ip(q.requests[id].ip)
  }

  function CookieKey(q: Quota, id: nat): Key
    requires id in q.requests
  {
    Cookie(q.requests[id].cookie)
  }

  function Ticket(q: Quota, id: nat, key: Key): int {
    if Holds(q.pool, id, key) then q.pool.held[Hold(id, key)] else 0
  }

  predicate Ready(q: Quota, cmd: Command) {
    match cmd
    case Arrive(id, _, _) => id !in q.requests
    case IncrIp(id) => id in q.requests && q.requests[id].phase == Arrived
    case IncrCookie(id) => id in q.requests && q.requests[id].phase == CountedIp
    case CookieFails(id) => id in q.requests && q.requests[id].phase == CountedIp
    case Decide(id) => id in q.requests && q.requests[id].phase == CountedBoth
    case UndoIp(id) => id in q.requests && q.requests[id].phase == Undoing
    case UndoCookie(id) => id in q.requests && q.requests[id].phase == UndoingCookie
  }

  function At(q: Quota, id: nat, pool: Pool<Key>, phase: Phase): Quota
    requires id in q.requests
  {
    Quota(pool, q.requests[id := q.requests[id].(phase := phase)])
  }

  /** One command of CheckRequest. */
  function Exec(q: Quota, limit: nat, cmd: Command): Quota
    requires Ready(q, cmd)
  {
    match cmd
    case Arrive(id, ip, cookie) => q.(requests := q.requests[id := Request(ip, cookie, Arrived)])
    case IncrIp(id) => At(q, id, Incr(q.pool, id, IpKey(q, id)), CountedIp)
    case IncrCookie(id) => At(q, id, Incr(q.pool, id, CookieKey(q, id)), CountedBoth)
    case CookieFails(id) => At(q, id, Decr(q.pool, id, IpKey(q, id)), Refused)
    case Decide(id) =>
      At(q, id, q.pool, if Ticket(q, id, IpKey(q, id)) <= limit && Ticket(q, id, CookieKey(q, id)) <= limit then Granted else Undoing)
    case UndoIp(id) =>
      At(q, id, if Ticket(q, id, IpKey(q, id)) > limit then Decr(q.pool, id, IpKey(q, id)) else q.pool, UndoingCookie)
    case UndoCookie(id) =>
      At(q, id, if Ticket(q, id, CookieKey(q, id)) > limit then Decr(q.pool, id, CookieKey(q, id)) else q.pool, Refused)
  }

  /** What a request holds in each phase. */
  ghost predicate RequestOk(q: Quota, limit: nat, id: nat)
    requires id in q.requests
  {
    var ip, cookie := IpKey(q, id), CookieKey(q, id);
    match q.requests[id].phase
    case Arrived => !Holds(q.pool, id, ip) && !Holds(q.pool, id, cookie)
    case CountedIp => Holds(q.pool, id, ip) && !Holds(q.pool, id, cookie)
    case CountedBoth => Holds(q.pool, id, ip) && Holds(q.pool, id, cookie)
    case Undoing => Holds(q.pool, id, ip) && Holds(q.pool, id, cookie)
                    && (Ticket(q, id, ip) > limit || Ticket(q, id, cookie) > limit)
    case UndoingCookie => (Holds(q.pool, id, ip) ==> Ticket(q, id, ip) <= limit && Ticket(q, id, cookie) > limit)
                          && Holds(q.pool, id, cookie)
    case Granted => Holds(q.pool, id, ip) && Holds(q.pool, id, cookie) && Ticket(q, id, ip) <= limit && Ticket(q, id, cookie) <= limit
    case Refused => Ticket(q, id, ip) <= limit && Ticket(q, id, cookie) <= limit && !(Holds(q.pool, id, ip) && Holds(q.pool, id, cookie))
  }

  ghost predicate QuotaOk(q: Quota, limit: nat) {
    && Counted(q.pool, limit)
    && (forall id | id in q.requests :: RequestOk(q, limit, id))
    && HoldsOk(q)
  }

  /** What happens to one request leaves the holds of every other request alone. */
  lemma OthersKeep(q: Quota, limit: nat, cmd: Command, id: nat)
    requires Ready(q, cmd) && id in q.requests && id != cmd.id
    ensures var q' := Exec(q, limit, cmd);
            && id in q'.requests && q'.requests[id] == q.requests[id]
            && forall key :: Holds(q'.pool, id, key) == Holds(q.pool, id, key) && Ticket(q', id, key) == Ticket(q, id, key)
  {
    hide Count;
  }

  lemma OwnOk(q: Quota, limit: nat, cmd: Command)
    requires Ready(q, cmd) && !cmd.Arrive? && RequestOk(q, limit, cmd.id)
    ensures RequestOk(Exec(q, limit, cmd), limit, cmd.id)
  {
    hide Count;
  }

  /** Every hold belongs to a request that counts on that key. */
  ghost predicate HoldsOk(q: Quota) {
    forall h | h in q.pool.held :: h.client in q.requests && (h.key == IpKey(q, h.client) || h.key == CookieKey(q, h.client))
  }

  lemma ExecHolds(q: Quota, limit: nat, cmd: Command)
    requires Ready(q, cmd) && HoldsOk(q)
    ensures HoldsOk(Exec(q, limit, cmd))
  {
    hide Count;
  }

  lemma ArriveOk(q: Quota, limit: nat, cmd: Command)
    requires Ready(q, cmd) && cmd.Arrive? && HoldsOk(q)
    ensures RequestOk(Exec(q, limit, cmd), limit, cmd.id)
  {
    forall h | h in q.pool.held ensures h.client != cmd.id {
    }
  }

  lemma ExecOk(q: Quota, limit: nat, cmd: Command)
    requires QuotaOk(q, limit) && Ready(q, cmd)
    ensures QuotaOk(Exec(q, limit, cmd), limit)
  {
    hide Counted, RequestOk, HoldsOk, Incr, Decr;
    ExecPool(q, limit, cmd);
    ExecHolds(q, limit, cmd);
    if cmd.Arrive? { ArriveOk(q, limit, cmd); } else { OwnOk(q, limit, cmd); }
    forall id | id in q.requests && id != cmd.id ensures RequestOk(Exec(q, limit, cmd), limit, id) {
      OthersKeep(q, limit, cmd, id);
      SameRequest(q, Exec(q, limit, cmd), limit, id);
    }
  }

  lemma SameRequest(q: Quota, q': Quota, limit: nat, id: nat)
    requires id in q.requests && RequestOk(q, limit, id) && id in q'.requests && q'.requests[id] == q.requests[id]
    requires forall key :: Holds(q'.pool, id, key) == Holds(q.pool, id, key) && Ticket(q', id, key) == Ticket(q, id, key)
    ensures RequestOk(q', limit, id)
  {
    hide Holds, Ticket;
  }

  lemma ExecPool(q: Quota, limit: nat, cmd: Command)
    requires QuotaOk(q, limit) && Ready(q, cmd)
    ensures Counted(Exec(q, limit, cmd).pool, limit)
  {
    hide Counted;
    if !cmd.Arrive? {
      var ip, cookie := IpKey(q, cmd.id), CookieKey(q, cmd.id);
      assert RequestOk(q, limit, cmd.id);
      match cmd
      case IncrIp(id) => IncrCounted(q.pool, id, ip, limit);
      case IncrCookie(id) => IncrCounted(q.pool, id, cookie, limit);
      case CookieFails(id) => DecrCounted(q.pool, id, ip, limit);
      case UndoIp(id) => if Ticket(q, id, ip) > limit { DecrCounted(q.pool, id, ip, limit); }
      case UndoCookie(id) => if Ticket(q, id, cookie) > limit { DecrCounted(q.pool, id, cookie, limit); }
      case Decide(_) =>
    }
  }

  predicate Schedulable(q: Quota, limit: nat, cmds: seq<Command>)
    decreases |cmds|
  {
    cmds == [] || (Ready(q, cmds[0]) && Schedulable(Exec(q, limit, cmds[0]), limit, cmds[1..]))
  }

  function ExecAll(q: Quota, limit: nat, cmds: seq<Command>): Quota
    requires Schedulable(q, limit, cmds)
    decreases |cmds|
  {
    if cmds == [] then q else ExecAll(Exec(q, limit, cmds[0]), limit, cmds[1..])
  }

  lemma {:induction false} ExecAllOk(q: Quota, limit: nat, cmds: seq<Command>)
    requires QuotaOk(q, limit) && Schedulable(q, limit, cmds)
    ensures QuotaOk(ExecAll(q, limit, cmds), limit)
    decreases |cmds|
  {
    hide QuotaOk, Exec;
    if cmds != [] {
      ExecOk(q, limit, cmds[0]);
      ExecAllOk(Exec(q, limit, cmds[0]), limit, cmds[1..]);
    }
  }

  const NO_REQUESTS := Quota(Pool(map[], map[]), map[])

  /** The requests on a key that were allowed. */
  function Grants(q: Quota, key: Key): set<nat> {
    set id | id in q.requests && q.requests[id].phase == Granted && (key == IpKey(q, id) || key == CookieKey(q, id))
  }

  /** The requests that were refused and still count against a key. */
  function Leaked(q: Quota, key: Key): set<nat> {
    set id | id in q.requests && q.requests[id].phase == Refused && Holds(q.pool, id, key)
  }

  predicate Quiet(q: Quota) {
    forall id | id in q.requests :: q.requests[id].phase in {Arrived, Granted, Refused}
  }

  /** Under every interleaving the requests allowed per address and per cookie stay within the daily limit. */
  lemma GrantsWithinLimit(limit: nat, cmds: seq<Command>, key: Key)
    requires Schedulable(NO_REQUESTS, limit, cmds)
    ensures |Grants(ExecAll(NO_REQUESTS, limit, cmds), key)| <= limit
  {
    hide QuotaOk, Exec, ExecAll, Schedulable, Counted;
    assert QuotaOk(NO_REQUESTS, limit) by { NobodyYet(limit); }
    ExecAllOk(NO_REQUESTS, limit, cmds);
    GrantsBound(ExecAll(NO_REQUESTS, limit, cmds), limit, key);
  }

  lemma NobodyYet(limit: nat)
    ensures QuotaOk(NO_REQUESTS, limit)
  {
    hide Counted;
    EmptyCounted(NO_REQUESTS.pool, limit);
  }

  lemma GrantsBound(q: Quota, limit: nat, key: Key)
    requires QuotaOk(q, limit)
    ensures |Grants(q, key)| <= limit
  {
    hide Within, Holders;
    assert CountedAt(q.pool, limit, key);
    forall id | id in Grants(q, key) ensures id in Within(q.pool, key, limit) {
      assert RequestOk(q, limit, id);
      InWithin(q.pool, id, key, limit);
    }
    SubsetSize(Grants(q, key), Within(q.pool, key, limit));
  }

  /** With no request in flight a counter is within the limit, and equals the requests allowed plus the refused ones
      that were never given back. */
  lemma QuietCounter(limit: nat, cmds: seq<Command>, key: Key)
    requires Schedulable(NO_REQUESTS, limit, cmds) && Quiet(ExecAll(NO_REQUESTS, limit, cmds))
    ensures var q := ExecAll(NO_REQUESTS, limit, cmds);
            Count(q.pool, key) == |Grants(q, key)| + |Leaked(q, key)| <= limit
  {
    hide QuotaOk, Exec, ExecAll, Schedulable, Quiet, Count;
    NobodyYet(limit);
    ExecAllOk(NO_REQUESTS, limit, cmds);
    QuietAt(ExecAll(NO_REQUESTS, limit, cmds), limit, key);
  }

  lemma QuietAt(q: Quota, limit: nat, key: Key)
    requires QuotaOk(q, limit) && Quiet(q)
    ensures Count(q.pool, key) == |Grants(q, key)| + |Leaked(q, key)| <= limit
  {
    hide Within, Holders, Leaked, Grants;
    var granted, leaked := Grants(q, key), Leaked(q, key);
    assert CountedAt(q.pool, limit, key);
    forall id ensures id in Holders(q.pool, key) <==> id in granted || id in leaked
      ensures !(id in granted && id in leaked)
      ensures id in Holders(q.pool, key) ==> id in Within(q.pool, key, limit)
    {
      QuietHold(q, limit, key, id);
    }
    assert Holders(q.pool, key) == granted + leaked && granted !! leaked;
    SubsetSize(Holders(q.pool, key), Within(q.pool, key, limit));
    assert |granted + leaked| == |granted| + |leaked|;
  }

  lemma QuietHold(q: Quota, limit: nat, key: Key, id: nat)
    requires QuotaOk(q, limit) && Quiet(q)
    ensures id in Holders(q.pool, key) <==> id in Grants(q, key) || id in Leaked(q, key)
    ensures !(id in Grants(q, key) && id in Leaked(q, key))
    ensures id in Holders(q.pool, key) ==> id in Within(q.pool, key, limit)
  {
    hide Within, Holders, Counted;
    InHolders(q.pool, id, key);
    InWithin(q.pool, id, key, limit);
    if Holds(q.pool, id, key) { assert Hold(id, key) in q.pool.held; }
    if id in q.requests { assert RequestOk(q, limit, id); }
  }

  /** What has become of a request that is being refused, given the values its two INCRs returned. */
  ghost predicate Fate(q: Quota, limit: nat, id: nat, ip: Key, cookie: Key, ipTicket: int, cookieTicket: int) {
    && id in q.requests && ip == IpKey(q, id) && cookie == CookieKey(q, id)
    && match q.requests[id].phase
       case Undoing => Holds(q.pool, id, ip) && Ticket(q, id, ip) == ipTicket
                       && Holds(q.pool, id, cookie) && Ticket(q, id, cookie) == cookieTicket
       case UndoingCookie => (Holds(q.pool, id, ip) <==> ipTicket <= limit)
                             && Holds(q.pool, id, cookie) && Ticket(q, id, cookie) == cookieTicket
       case Refused => (Holds(q.pool, id, ip) <==> ipTicket <= limit) && (Holds(q.pool, id, cookie) <==> cookieTicket <= limit)
       case _ => false
  }

  lemma FateStep(q: Quota, limit: nat, cmd: Command, id: nat, ip: Key, cookie: Key, ipTicket: int, cookieTicket: int)
    requires Ready(q, cmd) && Fate(q, limit, id, ip, cookie, ipTicket, cookieTicket)
    ensures Fate(Exec(q, limit, cmd), limit, id, ip, cookie, ipTicket, cookieTicket)
  {
    hide Count;
    if cmd.id != id {
      OthersKeep(q, limit, cmd, id);
    }
  }

  lemma {:induction false} FateRun(q: Quota, limit: nat, cmds: seq<Command>, id: nat, ip: Key, cookie: Key,
                                   ipTicket: int, cookieTicket: int)
    requires Schedulable(q, limit, cmds) && Fate(q, limit, id, ip, cookie, ipTicket, cookieTicket)
    ensures Fate(ExecAll(q, limit, cmds), limit, id, ip, cookie, ipTicket, cookieTicket)
    decreases |cmds|
  {
    hide Exec, Ready, Fate;
    if cmds != [] {
      FateStep(q, limit, cmds[0], id, ip, cookie, ipTicket, cookieTicket);
      FateRun(Exec(q, limit, cmds[0]), limit, cmds[1..], id, ip, cookie, ipTicket, cookieTicket);
    }
  }

  /** A request that is refused, whatever runs in between, keeps its unit of the address exactly when that counter was
      within the limit, and likewise of the cookie; the other counter then overstates what was consumed. */
  lemma LeakIff(limit: nat, before: seq<Command>, id: nat, after: seq<Command>)
    requires Schedulable(NO_REQUESTS, limit, before)
    requires var q := ExecAll(NO_REQUESTS, limit, before);
             && id in q.requests && q.requests[id].phase == Undoing && Schedulable(q, limit, after)
             && id in ExecAll(q, limit, after).requests && ExecAll(q, limit, after).requests[id].phase == Refused
    ensures var q := ExecAll(NO_REQUESTS, limit, before);
            var end := ExecAll(q, limit, after);
            && (Holds(end.pool, id, IpKey(q, id)) <==> Ticket(q, id, IpKey(q, id)) <= limit)
            && (Holds(end.pool, id, CookieKey(q, id)) <==> Ticket(q, id, CookieKey(q, id)) <= limit)
            && !(Holds(end.pool, id, IpKey(q, id)) && Holds(end.pool, id, CookieKey(q, id)))
  {
    hide ExecAll, Schedulable, Exec, Ready, Counted;
    var q := ExecAll(NO_REQUESTS, limit, before);
    NobodyYet(limit);
    ExecAllOk(NO_REQUESTS, limit, before);
    assert RequestOk(q, limit, id);
    FateRun(q, limit, after, id, IpKey(q, id), CookieKey(q, id), Ticket(q, id, IpKey(q, id)), Ticket(q, id, CookieKey(q, id)));
  }

  /** The cookie "c" is used up from address "a", under a limit of one. */
  const USED_UP := Quota(Pool(map[Ip("a") := 1, Cookie("c") := 1], map[Hold(0, Ip("a")) := 1, Hold(0, Cookie("c")) := 1]),
                         map[0 := Request("a", "c", Granted)])

  lemma CookieUsedUp()
    ensures var cmds := [Arrive(0, "a", "c"), IncrIp(0), IncrCookie(0), Decide(0)];
            Schedulable(NO_REQUESTS, 1, cmds) && ExecAll(NO_REQUESTS, 1, cmds) == USED_UP
  {
    var q2 := Exec(Exec(NO_REQUESTS, 1, Arrive(0, "a", "c")), 1, IncrIp(0));
    assert Schedulable(USED_UP, 1, []);
    assert Exec(q2, 1, IncrCookie(0)).pool == USED_UP.pool;
    assert Schedulable(q2, 1, [IncrCookie(0), Decide(0)]) && ExecAll(q2, 1, [IncrCookie(0), Decide(0)]) == USED_UP;
  }

  /** A second request has carried that cookie to address "b" and is about to be refused. */
  const REFUSING := Quota(Pool(map[Ip("a") := 1, Cookie("c") := 2, Ip("b") := 1],
                               map[Hold(0, Ip("a")) := 1, Hold(0, Cookie("c")) := 1, Hold(1, Ip("b")) := 1, Hold(1, Cookie("c")) := 2]),
                          map[0 := Request("a", "c", Granted), 1 := Request("b", "c", Undoing)])

  /** In between: only the address has been counted. */
  const COUNTING := Quota(Pool(map[Ip("a") := 1, Cookie("c") := 1, Ip("b") := 1],
                               map[Hold(0, Ip("a")) := 1, Hold(0, Cookie("c")) := 1, Hold(1, Ip("b")) := 1]),
                          map[0 := Request("a", "c", Granted), 1 := Request("b", "c", CountedIp)])

  lemma AddressCounted()
    ensures var cmds := [Arrive(1, "b", "c"), IncrIp(1)];
            Schedulable(USED_UP, 1, cmds) && ExecAll(USED_UP, 1, cmds) == COUNTING
  {
    assert Exec(Exec(USED_UP, 1, Arrive(1, "b", "c")), 1, IncrIp(1)) == COUNTING;
    assert Schedulable(COUNTING, 1, []);
  }

  lemma Refusing()
    ensures var cmds := [IncrCookie(1), Decide(1)];
            Schedulable(COUNTING, 1, cmds) && ExecAll(COUNTING, 1, cmds) == REFUSING
  {
    assert Exec(COUNTING, 1, IncrCookie(1)).pool == REFUSING.pool;
    assert Schedulable(REFUSING, 1, []);
  }

  lemma Undone()
    ensures var cmds := [UndoIp(1), UndoCookie(1)];
            && Schedulable(REFUSING, 1, cmds)
            && var q := ExecAll(REFUSING, 1, cmds); Grants(q, Ip("b")) == {} && Count(q.pool, Ip("b")) == 1
  {
    var q1 := Exec(REFUSING, 1, UndoIp(1));
    assert q1.pool == REFUSING.pool;
    assert Schedulable(Exec(q1, 1, UndoCookie(1)), 1, []);
  }

  lemma {:induction false} ExecConcat(q: Quota, limit: nat, a: seq<Command>, b: seq<Command>)
    requires Schedulable(q, limit, a) && Schedulable(ExecAll(q, limit, a), limit, b)
    ensures Schedulable(q, limit, a + b) && ExecAll(q, limit, a + b) == ExecAll(ExecAll(q, limit, a), limit, b)
    decreases |a|
  {
    hide Exec, Ready;
    if a == [] {
      assert a + b == b;
    } else {
      ExecConcat(Exec(q, limit, a[0]), limit, a[1..], b);
      assert (a + b)[1..] == a[1..] + b;
    }
  }

  /** A refused request that carries a used-up cookie from a fresh address uses up that address, with nothing granted to it. */
  lemma FreshAddressUsedUp()
    ensures exists cmds :: Schedulable(NO_REQUESTS, 1, cmds)
              && Grants(ExecAll(NO_REQUESTS, 1, cmds), Ip("b")) == {} && Count(ExecAll(NO_REQUESTS, 1, cmds).pool, Ip("b")) == 1
  {
    hide Exec, ExecAll, Schedulable, Grants, Count;
    CookieUsedUp();
    AddressCounted();
    Refusing();
    Undone();
    var a := [Arrive(0, "a", "c"), IncrIp(0), IncrCookie(0), Decide(0)];
    var b := [Arrive(1, "b", "c"), IncrIp(1)];
    var c := [IncrCookie(1), Decide(1)];
    var d := [UndoIp(1), UndoCookie(1)];
    ExecConcat(NO_REQUESTS, 1, a, b);
    ExecConcat(NO_REQUESTS, 1, a + b, c);
    ExecConcat(NO_REQUESTS, 1, a + b + c, d);
    assert Schedulable(NO_REQUESTS, 1, a + b + c + d);
  }

  // ---------------------------------------------------------------- one request run alone

  function Read(counts: map<Key, int>, key: Key): int {
    if key in counts then counts[key] else 0
  }

  /** The counters after a request nobody interferes with. */
  function CountsAfter(counts: map<Key, int>, ip: Key, cookie: Key, limit: nat): map<Key, int> {
    var newIp, newCookie := Read(counts, ip) + 1, Read(counts, cookie) + 1;
    var granted := newIp <= limit && newCookie <= limit;
    counts[ip := if granted || newIp <= limit then newIp else newIp - 1]
          [cookie := if granted || newCookie <= limit then newCookie else newCookie - 1]
  }

  /** The quota counters as CheckRequest updates them. */
  class FraudGuard {
    var counts: map<Key, int>

    method CheckRequest(ip: string, cookie: string, limit: nat) returns (allowed: bool)
      modifies this
      ensures allowed <==> Read(old(counts), Ip(ip)) < limit && Read(old(counts), Cookie(cookie)) < limit
      ensures counts == CountsAfter(old(counts), Ip(ip), Cookie(cookie), limit)
      ensures Read(counts, Ip(ip)) == Read(old(counts), Ip(ip)) + (if Read(old(counts), Ip(ip)) < limit then 1 else 0)
      ensures Read(counts, Cookie(cookie)) == Read(old(counts), Cookie(cookie)) + (if Read(old(counts), Cookie(cookie)) < limit then 1 else 0)
      ensures forall k | k !in {Ip(ip), Cookie(cookie)} :: (k in counts <==> k in old(counts)) && Read(counts, k) == Read(old(counts), k)
    {
      var newIpCount := Incr(Ip(ip));
      var newCookieCount := Incr(Cookie(cookie));
      if newIpCount <= limit && newCookieCount <= limit {
        return true;
      }
      if newIpCount > limit {
        counts := counts[Ip(ip) := counts[Ip(ip)] - 1];
      }
      if newCookieCount > limit {
        counts := counts[Cookie(cookie) := counts[Cookie(cookie)] - 1];
      }
      return false;
    }

    method Incr(key: Key) returns (value: int)
      modifies this
      ensures value == Read(old(counts), key) + 1 && counts == old(counts)[key := value]
    {
      value := (if key in counts then counts[key] else 0) + 1;
      counts := counts[key := value];
    }
  }

  /** The commands of one request without a Redis error. */
  function Script(id: nat, ip: string, cookie: string): seq<Command> {
    [Arrive(id, ip, cookie), IncrIp(id), IncrCookie(id), Decide(id)]
  }

  /** A request that runs alone leaves the counters the interleaved commands would leave. */
  lemma AloneIsRun(q: Quota, id: nat, ip: string, cookie: string, limit: nat)
    requires id !in q.requests && HoldsOk(q)
    ensures Schedulable(q, limit, Script(id, ip, cookie))
    ensures var d := ExecAll(q, limit, Script(id, ip, cookie));
            if id in d.requests && d.requests[id].phase == Granted then
              d.pool.counts == CountsAfter(q.pool.counts, Ip(ip), Cookie(cookie), limit)
            else
              && Schedulable(d, limit, [UndoIp(id), UndoCookie(id)])
              && ExecAll(d, limit, [UndoIp(id), UndoCookie(id)]).pool.counts == CountsAfter(q.pool.counts, Ip(ip), Cookie(cookie), limit)
  {
    hide Exec, ExecAll, Schedulable, Script, Ticket;
    forall h | h in q.pool.held ensures h.client != id {
    }
    var d := CountedTwice(q, id, ip, cookie, limit);
    if d.requests[id].phase != Granted {
      Taken(d, id, limit);
    }
  }

  lemma CountedTwice(q: Quota, id: nat, ip: string, cookie: string, limit: nat) returns (d: Quota)
    requires id !in q.requests && forall h | h in q.pool.held :: h.client != id
    ensures Schedulable(q, limit, Script(id, ip, cookie)) && d == ExecAll(q, limit, Script(id, ip, cookie))
    ensures id in d.requests && d.requests[id].ip == ip && d.requests[id].cookie == cookie && d.requests[id].phase in {Granted, Undoing}
    ensures Ticket(d, id, Ip(ip)) == Read(q.pool.counts, Ip(ip)) + 1
    ensures Ticket(d, id, Cookie(cookie)) == Read(q.pool.counts, Cookie(cookie)) + 1
    ensures d.requests[id].phase == Granted <==> Ticket(d, id, Ip(ip)) <= limit && Ticket(d, id, Cookie(cookie)) <= limit
    ensures d.pool.counts == q.pool.counts[Ip(ip) := Ticket(d, id, Ip(ip))][Cookie(cookie) := Ticket(d, id, Cookie(cookie))]
  {
    var q1 := Exec(q, limit, Arrive(id, ip, cookie));
    var q2 := Exec(q1, limit, IncrIp(id));
    var q3 := Exec(q2, limit, IncrCookie(id));
    d := Exec(q3, limit, Decide(id));
    assert Schedulable(d, limit, []);
    assert Schedulable(q3, limit, [Decide(id)]) && ExecAll(q3, limit, [Decide(id)]) == d;
    assert Script(id, ip, cookie)[1..] == [IncrIp(id), IncrCookie(id), Decide(id)];
    assert Schedulable(q2, limit, [IncrCookie(id), Decide(id)]) && ExecAll(q2, limit, [IncrCookie(id), Decide(id)]) == d;
  }

  lemma Taken(d: Quota, id: nat, limit: nat)
    requires id in d.requests && d.requests[id].phase == Undoing
    ensures Schedulable(d, limit, [UndoIp(id), UndoCookie(id)])
    ensures var ip, cookie := IpKey(d, id), CookieKey(d, id);
            var end := ExecAll(d, limit, [UndoIp(id), UndoCookie(id)]);
            && (Ticket(d, id, ip) > limit ==> Count(end.pool, ip) == Count(d.pool, ip) - 1)
            && (Ticket(d, id, ip) <= limit ==> Count(end.pool, ip) == Count(d.pool, ip))
            && (Ticket(d, id, cookie) > limit ==> Count(end.pool, cookie) == Count(d.pool, cookie) - 1)
            && (Ticket(d, id, cookie) <= limit ==> Count(end.pool, cookie) == Count(d.pool, cookie))
            && end.pool.counts.Keys == d.pool.counts.Keys + (if Ticket(d, id, ip) > limit then {ip} else {})
                                       + (if Ticket(d, id, cookie) > limit then {cookie} else {})
            && forall k | k in d.pool.counts && k != ip && k != cookie :: end.pool.counts[k] == d.pool.counts[k]
  {
    var d1 := Exec(d, limit, UndoIp(id));
    var d2 := Exec(d1, limit, UndoCookie(id));
    assert Schedulable(d2, limit, []);
    assert Schedulable(d1, limit, [UndoCookie(id)]) && ExecAll(d1, limit, [UndoCookie(id)]) == d2;
  }

  // ---------------------------------------------------------------- prepare slots

  datatype Slot = Waiting | Counting | Working | Over

  datatype Slots = Slots(pool: Pool<()>, workers: map<nat, Slot>)

  datatype SlotStep = Enter(id: nat) | TakeSlot(id: nat) | CheckSlot(id: nat) | ReleaseSlot(id: nat)

  predicate SlotReady(s: Slots, step: SlotStep) {
    match step
    case Enter(id) => id !in s.workers
    case TakeSlot(id) => id in s.workers && s.workers[id] == Waiting
    case CheckSlot(id) => id in s.workers && s.workers[id] == Counting && Holds(s.pool, id, ())
    case ReleaseSlot(id) => id in s.workers && s.workers[id] == Working
  }

  /** acquireClusterPrepareSlot: INCR, then DECR if over the limit; release is a DECR. */
  function SlotExec(s: Slots, limit: int, step: SlotStep): Slots
    requires SlotReady(s, step)
  {
    match step
    case Enter(id) => s.(workers := s.workers[id := Waiting])
    case TakeSlot(id) => Slots(Incr(s.pool, id, ()), s.workers[id := Counting])
    case CheckSlot(id) =>
      if s.pool.held[Hold(id, ())] > EffectiveLimit(limit) then Slots(Decr(s.pool, id, ()), s.workers[id := Over])
      else s.(workers := s.workers[id := Working])
    case ReleaseSlot(id) => Slots(Decr(s.pool, id, ()), s.workers[id := Over])
  }

  function EffectiveLimit(limit: int): nat {
    if limit < 1 then 1 else limit
  }

  ghost predicate SlotsOk(s: Slots, limit: int) {
    && Counted(s.pool, EffectiveLimit(limit))
    && (forall h | h in s.pool.held :: h.client in s.workers)
    && (forall id | id in s.workers ::
          && (Holds(s.pool, id, ()) <==> s.workers[id] in {Counting, Working})
          && (s.workers[id] == Working ==> s.pool.held[Hold(id, ())] <= EffectiveLimit(limit)))
  }

  lemma SlotExecOk(s: Slots, limit: int, step: SlotStep)
    requires SlotsOk(s, limit) && SlotReady(s, step)
    ensures SlotsOk(SlotExec(s, limit, step), limit)
  {
    hide Counted;
    match step
    case Enter(id) => assert Hold(id, ()) !in s.pool.held;
    case TakeSlot(id) => IncrCounted(s.pool, id, (), EffectiveLimit(limit));
    case CheckSlot(id) => DecrCounted(s.pool, id, (), EffectiveLimit(limit));
    case ReleaseSlot(id) => DecrCounted(s.pool, id, (), EffectiveLimit(limit));
  }

  predicate SlotSchedulable(s: Slots, limit: int, steps: seq<SlotStep>)
    decreases |steps|
  {
    steps == [] || (SlotReady(s, steps[0]) && SlotSchedulable(SlotExec(s, limit, steps[0]), limit, steps[1..]))
  }

  function SlotExecAll(s: Slots, limit: int, steps: seq<SlotStep>): Slots
    requires SlotSchedulable(s, limit, steps)
    decreases |steps|
  {
    if steps == [] then s else SlotExecAll(SlotExec(s, limit, steps[0]), limit, steps[1..])
  }

  function Workers(s: Slots): set<nat> {
    set id | id in s.workers && s.workers[id] == Working
  }

  const NO_WORKERS := Slots(Pool(map[], map[]), map[])

  lemma NobodyWorking(limit: int)
    ensures SlotsOk(NO_WORKERS, limit)
  {
    hide Counted;
    EmptyCounted(NO_WORKERS.pool, EffectiveLimit(limit));
  }

  lemma {:induction false} SlotExecAllOk(s: Slots, limit: int, steps: seq<SlotStep>)
    requires SlotsOk(s, limit) && SlotSchedulable(s, limit, steps)
    ensures SlotsOk(SlotExecAll(s, limit, steps), limit)
    decreases |steps|
  {
    hide SlotsOk, SlotExec;
    if steps != [] {
      SlotExecOk(s, limit, steps[0]);
      SlotExecAllOk(SlotExec(s, limit, steps[0]), limit, steps[1..]);
    }
  }

  /** A worker gets a slot exactly when fewer than the limit were counted before its own INCR. */
  lemma SlotGrantedIff(s: Slots, limit: int, id: nat)
    requires SlotReady(s, TakeSlot(id))
    ensures var counted := SlotExec(s, limit, TakeSlot(id));
            && SlotReady(counted, CheckSlot(id))
            && (SlotExec(counted, limit, CheckSlot(id)).workers[id] == Working <==> Count(s.pool, ()) < if limit < 1 then 1 else limit)
  {
  }

  /** Under every interleaving, never more holders of a prepare slot than the limit (at least one), and the counter is
      exactly the number of holders once nobody is between its INCR and its check. */
  lemma SlotsWithinLimit(limit: int, steps: seq<SlotStep>)
    requires SlotSchedulable(NO_WORKERS, limit, steps)
    ensures var end := SlotExecAll(NO_WORKERS, limit, steps);
            && |Workers(end)| <= (if limit < 1 then 1 else limit)
            && ((forall id | id in end.workers :: end.workers[id] != Counting) ==> Count(end.pool, ()) == |Workers(end)|)
  {
    hide SlotsOk, SlotExecAll, SlotSchedulable, Count, Workers;
    NobodyWorking(limit);
    SlotExecAllOk(NO_WORKERS, limit, steps);
    WorkersBound(SlotExecAll(NO_WORKERS, limit, steps), limit);
  }

  lemma WorkersBound(s: Slots, limit: int)
    requires SlotsOk(s, limit)
    ensures |Workers(s)| <= EffectiveLimit(limit)
    ensures (forall id | id in s.workers :: s.workers[id] != Counting) ==> Count(s.pool, ()) == |Workers(s)|
  {
    hide Within, Holders;
    assert CountedAt(s.pool, EffectiveLimit(limit), ());
    forall id ensures id in Workers(s) ==> id in Within(s.pool, (), EffectiveLimit(limit)) {
      InWithin(s.pool, id, (), EffectiveLimit(limit));
    }
    SubsetSize(Workers(s), Within(s.pool, (), EffectiveLimit(limit)));
    forall id ensures id in Holders(s.pool, ()) <==> id in s.workers && s.workers[id] in {Counting, Working} {
      InHolders(s.pool, id, ());
      if Holds(s.pool, id, ()) { assert Hold(id, ()) in s.pool.held; }
    }
    if forall id | id in s.workers :: s.workers[id] != Counting {
      assert Holders(s.pool, ()) == Workers(s);
    }
  }
}
