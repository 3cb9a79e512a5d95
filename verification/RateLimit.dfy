/** The per-IP token-bucket limiter with eviction, as a two-step machine.

    A request first runs `get` under the mutex, keeps the limiter it was given, and calls
    `Allow` on it later, outside the mutex.  One iteration of the sweep loop is one `Evict`
    event, so a sweep may interleave with pending `Allow` calls.  The same machine with
    eviction switched off is the simple limiter that never forgets. */
module RateLimit {
  import opened Wrappers

  /** The limiter's parameters in seconds: one token every `every` seconds, room for `cap` seconds' worth
      of tokens, entries dropped after `idle` seconds.  Counting credit in seconds (tokens divided by the
      rate) keeps the arithmetic linear; `PerSecond` gives the parameters of a rate and a burst. */
  datatype Config = Config(every: real, cap: real, idle: real) {
    ghost predicate Valid() {
      every > 0.0 && cap >= 0.0 && idle >= 0.0
    }
  }

  /** `r` tokens per second with a burst of `b`. */
  function PerSecond(r: real, b: nat, idle: real): Config
    requires r > 0.0
  {
    Config(1.0 / r, b as real / r, idle)
  }

  /** State of one limiter: `credit` was there at time `last`; refilling is computed lazily. */
  datatype Bucket = Bucket(credit: real, last: real)

  function Min(x: real, y: real): real {
    if x <= y then x else y
  }

  function Max(x: real, y: real): real {
    if x >= y then x else y
  }

  function Level(c: Config, k: Bucket, t: real): real {
    Min(c.cap, k.credit + (t - k.last))
  }

  predicate Permits(c: Config, k: Bucket, t: real) {
    Level(c, k, t) >= c.every
  }

  /** The bucket after `Allow` at time `t`: a denied call changes nothing. */
  function Drawn(c: Config, k: Bucket, t: real): Bucket {
    if Permits(c, k, t) then Bucket(Level(c, k, t) - c.every, t) else k
  }

  /** A map entry: which limiter it points to, and when the IP was last seen. */
  datatype Entry = Entry(ref: nat, lastSeen: real)

  /** A request between `get` and `Allow`: it holds limiter `ref`, obtained at `since`. */
  datatype Held = Held(ip: string, ref: nat, since: real)

  datatype Limiters = Limiters(now: real, heap: seq<Bucket>, table: map<string, Entry>, held: map<nat, Held>)

  datatype Event = Get(req: nat, ip: string, t: real) | Allow(req: nat, t: real) | Evict(ip: string, t: real)

  datatype Answer = Answer(ip: string, t: real, ok: bool)

  /** `get`: find or create the limiter of `ip`. */
  function Fetch(c: Config, heap: seq<Bucket>, table: map<string, Entry>, ip: string, t: real): (seq<Bucket>, Entry) {
    if ip in table then (heap, Entry(table[ip].ref, t))
    else (heap + [Bucket(c.cap, t)], Entry(|heap|, t))
  }

  /** One iteration of the sweep: drop `ip` when it has been idle for longer than the timeout. */
  function Swept(c: Config, table: map<string, Entry>, ip: string, t: real): map<string, Entry> {
    if ip in table && t - table[ip].lastSeen > c.idle then table - {ip} else table
  }

  ghost predicate Enabled(s: Limiters, e: Event, gap: real) {
    && s.now <= e.t
    && (e.Get? ==> e.req !in s.held)
    && (e.Allow? ==> e.req in s.held && s.held[e.req].ref < |s.heap| && e.t - s.held[e.req].since <= gap)
  }

  ghost function Next(c: Config, evicts: bool, s: Limiters, e: Event): Limiters
    requires e.Allow? ==> e.req in s.held && s.held[e.req].ref < |s.heap|
  {
    match e
    case Get(q, ip, t) =>
      var (heap, entry) := Fetch(c, s.heap, s.table, ip, t);
      Limiters(t, heap, s.table[ip := entry], s.held[q := Held(ip, entry.ref, t)])
    case Allow(q, t) =>
      var ref := s.held[q].ref;
      s.(now := t, heap := s.heap[ref := Drawn(c, s.heap[ref], t)], held := s.held - {q})
    case Evict(ip, t) =>
      s.(now := t, table := if evicts then Swept(c, s.table, ip, t) else s.table)
  }

  ghost function Reply(c: Config, s: Limiters, e: Event): seq<Answer>
    requires e.Allow? ==> e.req in s.held && s.held[e.req].ref < |s.heap|
  {
    if e.Allow? then
      var h := s.held[e.req];
      [Answer(h.ip, e.t, Permits(c, s.heap[h.ref], e.t))]
    else []
  }

  /** A run: every event is possible when it happens, and no `Allow` comes later than `gap` after its `get`. */
  ghost predicate Legal(c: Config, evicts: bool, s: Limiters, es: seq<Event>, gap: real)
    decreases |es|
  {
    es == [] || (Enabled(s, es[0], gap) && Legal(c, evicts, Next(c, evicts, s, es[0]), es[1..], gap))
  }

  ghost function Exec(c: Config, evicts: bool, s: Limiters, es: seq<Event>, gap: real): Limiters
    requires Legal(c, evicts, s, es, gap)
    decreases |es|
  {
    if es == [] then s else Exec(c, evicts, Next(c, evicts, s, es[0]), es[1..], gap)
  }

  ghost function Answers(c: Config, evicts: bool, s: Limiters, es: seq<Event>, gap: real): seq<Answer>
    requires Legal(c, evicts, s, es, gap)
    decreases |es|
  {
    if es == [] then [] else Reply(c, s, es[0]) + Answers(c, evicts, Next(c, evicts, s, es[0]), es[1..], gap)
  }

  const Empty := Limiters(0.0, [], map[], map[])

  // ---------------------------------------------------------------------------------------
  // Invariants
  // ---------------------------------------------------------------------------------------

  ghost predicate BucketOk(c: Config, k: Bucket, now: real) {
    0.0 <= k.credit <= c.cap && k.last <= now
  }

  /** What holds with and without eviction. */
  ghost predicate WellFormed(c: Config, s: Limiters) {
    && (forall i | 0 <= i < |s.heap| :: BucketOk(c, s.heap[i], s.now))
    && (forall ip | ip in s.table :: s.table[ip].ref < |s.heap| && s.table[ip].lastSeen <= s.now)
    && (forall q | q in s.held :: s.held[q].ref < |s.heap| && s.held[q].since <= s.now)
    && (forall ip, jp | ip in s.table && jp in s.table && ip != jp :: s.table[ip].ref != s.table[jp].ref)
  }

  /** Without eviction a pending request always holds the limiter its IP still has. */
  ghost predicate Remembers(s: Limiters) {
    forall q | q in s.held ::
      && s.held[q].ip in s.table
      && s.held[q].ref == s.table[s.held[q].ip].ref
      && s.held[q].since <= s.table[s.held[q].ip].lastSeen
  }

  /** Without eviction the last `Allow` of an IP is at most `gap` after it was last seen. */
  ghost predicate UsedBy(s: Limiters, gap: real)
    requires forall ip | ip in s.table :: s.table[ip].ref < |s.heap|
  {
    forall ip | ip in s.table :: s.heap[s.table[ip].ref].last <= s.table[ip].lastSeen + gap
  }

  ghost predicate Full(c: Config, k: Bucket, t: real) {
    k.credit + (t - k.last) >= c.cap
  }

  ghost predicate Equivalent(c: Config, j: Bucket, k: Bucket, t: real) {
    j == k || (Full(c, j, t) && Full(c, k, t))
  }

  /** What the two tables say of one IP: `s` evicts, `p` never does. */
  ghost predicate SameAt(c: Config, s: Limiters, p: Limiters, ip: string)
    requires WellFormed(c, s) && WellFormed(c, p)
  {
    && (ip in s.table ==>
          && ip in p.table
          && s.table[ip].lastSeen == p.table[ip].lastSeen
          && Equivalent(c, s.heap[s.table[ip].ref], p.heap[p.table[ip].ref], s.now))
    && (ip in p.table && ip !in s.table ==> Full(c, p.heap[p.table[ip].ref], s.now))
  }

  /** What the two machines say of one pending request, which is stale once `gap` has passed. */
  ghost predicate SameHeld(s: Limiters, p: Limiters, q: nat, gap: real) {
    && (q in s.held <==> q in p.held)
    && (q in s.held ==>
          && s.held[q].ip == p.held[q].ip
          && s.held[q].since == p.held[q].since
          && (s.now - s.held[q].since <= gap ==>
                s.held[q].ip in s.table && s.held[q].ref == s.table[s.held[q].ip].ref))
  }

  ghost predicate Simulates(c: Config, s: Limiters, p: Limiters, gap: real) {
    && WellFormed(c, s) && Steady(c, p, gap)
    && s.now == p.now
    && (forall ip :: SameAt(c, s, p, ip))
    && (forall q :: SameHeld(s, p, q, gap))
  }

  /** Once full, a bucket stays full until it is drawn from. */
  lemma FullLater(c: Config, k: Bucket, t: real, u: real)
    requires c.Valid() && t <= u && Full(c, k, t)
    ensures Full(c, k, u)
  {
  }

  lemma BucketLater(c: Config, k: Bucket, t: real, u: real)
    requires c.Valid() && t <= u && BucketOk(c, k, t)
    ensures BucketOk(c, Drawn(c, k, u), u)
  {
  }

  lemma NextWellFormed(c: Config, evicts: bool, s: Limiters, e: Event, gap: real)
    requires c.Valid() && WellFormed(c, s) && Enabled(s, e, gap)
    ensures WellFormed(c, Next(c, evicts, s, e))
  {
    if e.Allow? {
      BucketLater(c, s.heap[s.held[e.req].ref], s.now, e.t);
    }
  }

  /** What holds of the limiter that never forgets. */
  ghost predicate Steady(c: Config, p: Limiters, gap: real) {
    WellFormed(c, p) && Remembers(p) && UsedBy(p, gap)
  }

  lemma NextSteady(c: Config, p: Limiters, e: Event, gap: real)
    requires c.Valid() && gap >= 0.0 && Steady(c, p, gap) && Enabled(p, e, gap)
    ensures Steady(c, Next(c, false, p, e), gap)
  {
    NextWellFormed(c, false, p, e, gap);
    var p' := Next(c, false, p, e);
    forall ip | ip in p'.table
      ensures p'.heap[p'.table[ip].ref].last <= p'.table[ip].lastSeen + gap
    {
      if e.Allow? && ip != p.held[e.req].ip {
        assert p.table[ip].ref != p.table[p.held[e.req].ip].ref;
      }
    }
    forall q | q in p'.held
      ensures p'.held[q].ip in p'.table && p'.held[q].ref == p'.table[p'.held[q].ip].ref
      ensures p'.held[q].since <= p'.table[p'.held[q].ip].lastSeen
    {
      if q in p.held {
        assert p.held[q].ip in p.table && p.held[q].ref == p.table[p.held[q].ip].ref;
      }
    }
  }

  lemma EquivalentLater(c: Config, j: Bucket, k: Bucket, t: real, u: real)
    requires c.Valid() && t <= u && Equivalent(c, j, k, t)
    ensures Equivalent(c, j, k, u)
    ensures Permits(c, j, u) == Permits(c, k, u)
    ensures Equivalent(c, Drawn(c, j, u), Drawn(c, k, u), u)
  {
    if j != k {
      FullLater(c, j, t, u);
      FullLater(c, k, t, u);
    }
  }

  /** An entry idle for longer than the timeout has a full bucket: nothing is lost by dropping it. */
  lemma IdleIsFull(c: Config, k: Bucket, lastSeen: real, t: real, gap: real)
    requires c.Valid() && k.credit >= 0.0 && c.cap <= c.idle - gap
    requires t - lastSeen > c.idle && k.last <= lastSeen + gap
    ensures Full(c, k, t)
  {
  }

  lemma GapWithinIdle(c: Config, gap: real)
    requires c.Valid() && c.cap <= c.idle - gap
    ensures gap <= c.idle
  {
  }

  lemma NextSameAt(c: Config, s: Limiters, p: Limiters, e: Event, gap: real, ip: string)
    requires c.Valid() && c.cap <= c.idle - gap
    requires Simulates(c, s, p, gap) && Enabled(s, e, gap) && Enabled(p, e, gap)
    requires WellFormed(c, Next(c, true, s, e)) && WellFormed(c, Next(c, false, p, e))
    ensures SameAt(c, Next(c, true, s, e), Next(c, false, p, e), ip)
  {
    assert SameAt(c, s, p, ip);
    assert Full(c, Bucket(c.cap, e.t), e.t);
    if e.Allow? {
      assert SameHeld(s, p, e.req, gap);
    }
    if ip in s.table {
      EquivalentLater(c, s.heap[s.table[ip].ref], p.heap[p.table[ip].ref], s.now, e.t);
      if e.Evict? && e.ip == ip && e.t - s.table[ip].lastSeen > c.idle {
        IdleIsFull(c, p.heap[p.table[ip].ref], p.table[ip].lastSeen, e.t, gap);
      }
    } else if ip in p.table {
      FullLater(c, p.heap[p.table[ip].ref], s.now, e.t);
    }
  }

  lemma NextSameHeld(c: Config, s: Limiters, p: Limiters, e: Event, gap: real, q: nat)
    requires c.Valid() && c.cap <= c.idle - gap
    requires Simulates(c, s, p, gap) && Enabled(s, e, gap) && Enabled(p, e, gap)
    ensures SameHeld(Next(c, true, s, e), Next(c, false, p, e), q, gap)
  {
    GapWithinIdle(c, gap);
    assert SameHeld(s, p, q, gap);
    if q in s.held { assert SameAt(c, s, p, s.held[q].ip); }
  }

  lemma NextSimulates(c: Config, s: Limiters, p: Limiters, e: Event, gap: real)
    requires c.Valid() && gap >= 0.0 && c.cap <= c.idle - gap
    requires Simulates(c, s, p, gap) && Enabled(p, e, gap)
    ensures Enabled(s, e, gap)
    ensures Simulates(c, Next(c, true, s, e), Next(c, false, p, e), gap)
    ensures Reply(c, s, e) == Reply(c, p, e)
  {
    if !e.Evict? { assert SameHeld(s, p, e.req, gap); }
    if e.Allow? {
      var ip := s.held[e.req].ip;
      assert SameAt(c, s, p, ip);
      EquivalentLater(c, s.heap[s.table[ip].ref], p.heap[p.table[ip].ref], s.now, e.t);
    }
    NextWellFormed(c, true, s, e, gap);
    NextSteady(c, p, e, gap);
    forall ip { NextSameAt(c, s, p, e, gap, ip); }
    forall q { NextSameHeld(c, s, p, e, gap, q); }
  }

  // ---------------------------------------------------------------------------------------
  // Eviction is invisible
  // ---------------------------------------------------------------------------------------

  lemma {:induction false} SimulatedRun(c: Config, s: Limiters, p: Limiters, es: seq<Event>, gap: real)
    requires c.Valid() && gap >= 0.0 && c.cap <= c.idle - gap
    requires Simulates(c, s, p, gap) && Legal(c, false, p, es, gap)
    ensures Legal(c, true, s, es, gap)
    ensures Answers(c, true, s, es, gap) == Answers(c, false, p, es, gap)
    decreases |es|
  {
    if es != [] {
      var e := es[0];
      NextSimulates(c, s, p, e, gap);
      SimulatedRun(c, Next(c, true, s, e), Next(c, false, p, e), es[1..], gap);
    }
  }

  /** Every run gets the same answers from the evicting limiter as from the one that never forgets. */
  ghost predicate Invisible(c: Config, gap: real) {
    forall es | Legal(c, false, Empty, es, gap) ::
      Legal(c, true, Empty, es, gap) && Answers(c, true, Empty, es, gap) == Answers(c, false, Empty, es, gap)
  }

  lemma EvictionInvisible(c: Config, gap: real)
    requires c.Valid() && gap >= 0.0 && c.cap <= c.idle - gap
    ensures Invisible(c, gap)
  {
    forall es | Legal(c, false, Empty, es, gap)
      ensures Legal(c, true, Empty, es, gap) && Answers(c, true, Empty, es, gap) == Answers(c, false, Empty, es, gap)
    {
      SimulatedRun(c, Empty, Empty, es, gap);
    }
  }

  // ---------------------------------------------------------------------------------------
  // The window bound
  // ---------------------------------------------------------------------------------------

  predicate Counts(a: Answer, ip: string, from: real, to: real) {
    a.ok && a.ip == ip && from <= a.t <= to
  }

  /** How many requests of `ip` were allowed between `from` and `to`. */
  function Allowed(answers: seq<Answer>, ip: string, from: real, to: real): nat {
    if answers == [] then 0
    else (if Counts(answers[0], ip, from, to) then 1 else 0) + Allowed(answers[1..], ip, from, to)
  }

  /** The credit those requests cost. */
  function Cost(c: Config, answers: seq<Answer>, ip: string, from: real, to: real): real {
    if answers == [] then 0.0
    else (if Counts(answers[0], ip, from, to) then c.every else 0.0) + Cost(c, answers[1..], ip, from, to)
  }

  /** The credit `n` tokens are worth. */
  function Worth(c: Config, n: nat): (w: real)
    ensures c.every > 0.0 ==> w >= 0.0
  {
    if n == 0 then 0.0 else c.every + Worth(c, n - 1)
  }

  lemma {:induction false} CostCounts(c: Config, answers: seq<Answer>, ip: string, from: real, to: real)
    ensures Cost(c, answers, ip, from, to) == Worth(c, Allowed(answers, ip, from, to))
  {
    if answers != [] {
      CostCounts(c, answers[1..], ip, from, to);
    }
  }

  lemma {:induction false} AllowedConcat(x: seq<Answer>, y: seq<Answer>, ip: string, from: real, to: real)
    ensures Allowed(x + y, ip, from, to) == Allowed(x, ip, from, to) + Allowed(y, ip, from, to)
  {
    if x == [] {
      assert x + y == y;
    } else {
      assert (x + y)[1..] == x[1..] + y;
      AllowedConcat(x[1..], y, ip, from, to);
    }
  }

  /** The credit `ip` could draw on at time `u`: an IP never seen has a full bucket. */
  ghost function Reserve(c: Config, p: Limiters, ip: string, u: real): real
    requires WellFormed(c, p)
  {
    if ip in p.table then Level(c, p.heap[p.table[ip].ref], u) else c.cap
  }

  lemma ReserveRange(c: Config, p: Limiters, ip: string, u: real)
    requires c.Valid() && WellFormed(c, p) && p.now <= u
    ensures 0.0 <= Reserve(c, p, ip, u) <= c.cap
  {
    if ip in p.table {
      assert BucketOk(c, p.heap[p.table[ip].ref], p.now);
    }
  }

  /** A reserve grows by at most the time that passes, and pays for every request that is allowed. */
  lemma NextReserve(c: Config, p: Limiters, e: Event, gap: real, ip: string, u: real, from: real, to: real)
    requires c.Valid() && WellFormed(c, p) && Remembers(p) && Enabled(p, e, gap)
    requires p.now <= u <= e.t && WellFormed(c, Next(c, false, p, e))
    ensures Reserve(c, Next(c, false, p, e), ip, e.t) + Cost(c, Reply(c, p, e), ip, from, to)
         <= Reserve(c, p, ip, u) + (e.t - u)
  {
    if e.Allow? && ip in p.table {
      assert p.held[e.req].ip != ip ==> p.table[p.held[e.req].ip].ref != p.table[ip].ref;
    }
  }

  lemma {:induction false} CostConcat(c: Config, x: seq<Answer>, y: seq<Answer>, ip: string, from: real, to: real)
    ensures Cost(c, x + y, ip, from, to) == Cost(c, x, ip, from, to) + Cost(c, y, ip, from, to)
  {
    if x == [] {
      assert x + y == y;
    } else {
      assert (x + y)[1..] == x[1..] + y;
      CostConcat(c, x[1..], y, ip, from, to);
    }
  }

  lemma {:induction false} NoneLater(c: Config, p: Limiters, es: seq<Event>, gap: real, ip: string, from: real,
                                     to: real)
    requires Legal(c, false, p, es, gap) && (es == [] || to < es[0].t)
    ensures Cost(c, Answers(c, false, p, es, gap), ip, from, to) == 0.0
    decreases |es|
  {
    if es != [] {
      var p' := Next(c, false, p, es[0]);
      NoneLater(c, p', es[1..], gap, ip, from, to);
      CostConcat(c, Reply(c, p, es[0]), Answers(c, false, p', es[1..], gap), ip, from, to);
    }
  }

  lemma {:induction false} DrawnFrom(c: Config, p: Limiters, es: seq<Event>, gap: real, ip: string, u: real, from: real,
                                     to: real)
    requires c.Valid() && gap >= 0.0 && Steady(c, p, gap) && Legal(c, false, p, es, gap)
    requires p.now <= u <= to && (es == [] || u <= es[0].t)
    ensures Cost(c, Answers(c, false, p, es, gap), ip, from, to) <= Reserve(c, p, ip, u) + (to - u)
    decreases |es|
  {
    if es == [] || to < es[0].t {
      NoneLater(c, p, es, gap, ip, from, to);
      ReserveRange(c, p, ip, u);
    } else {
      var e, p' := es[0], Next(c, false, p, es[0]);
      NextSteady(c, p, e, gap);
      DrawnFrom(c, p', es[1..], gap, ip, e.t, from, to);
      CostConcat(c, Reply(c, p, e), Answers(c, false, p', es[1..], gap), ip, from, to);
      NextReserve(c, p, e, gap, ip, u, from, to);
    }
  }

  lemma {:induction false} WindowFrom(c: Config, p: Limiters, es: seq<Event>, gap: real, ip: string, from: real,
                                      to: real)
    requires c.Valid() && gap >= 0.0 && Steady(c, p, gap) && Legal(c, false, p, es, gap)
    requires p.now <= from <= to
    ensures Cost(c, Answers(c, false, p, es, gap), ip, from, to) <= c.cap + (to - from)
    decreases |es|
  {
    if es == [] || from <= es[0].t {
      DrawnFrom(c, p, es, gap, ip, from, from, to);
      ReserveRange(c, p, ip, from);
    } else {
      var p' := Next(c, false, p, es[0]);
      NextSteady(c, p, es[0], gap);
      WindowFrom(c, p', es[1..], gap, ip, from, to);
      CostConcat(c, Reply(c, p, es[0]), Answers(c, false, p', es[1..], gap), ip, from, to);
    }
  }

  /** In any interval of length T the limiter that never forgets allows one IP requests that together cost
      at most the capacity plus T; so does the evicting one, over every run in which a bucket refills in
      the idle time left, evictions and pending requests included. */
  lemma WindowCost(c: Config, evicts: bool, es: seq<Event>, gap: real, ip: string, from: real, to: real)
    requires c.Valid() && gap >= 0.0 && (evicts ==> c.cap <= c.idle - gap)
    requires Legal(c, evicts, Empty, es, gap) && 0.0 <= from <= to
    ensures Cost(c, Answers(c, evicts, Empty, es, gap), ip, from, to) <= c.cap + (to - from)
  {
    if evicts {
      LegalBothWays(c, Empty, Empty, es, gap);
      SimulatedRun(c, Empty, Empty, es, gap);
    }
    WindowFrom(c, Empty, es, gap, ip, from, to);
  }

  /** Eviction changes neither which events are possible nor which `Allow` calls are in time. */
  lemma {:induction false} LegalBothWays(c: Config, s: Limiters, p: Limiters, es: seq<Event>, gap: real)
    requires c.Valid() && WellFormed(c, s) && WellFormed(c, p)
    requires s.now == p.now && s.held.Keys == p.held.Keys
    requires forall q | q in s.held :: s.held[q].since == p.held[q].since
    ensures Legal(c, true, s, es, gap) <==> Legal(c, false, p, es, gap)
    decreases |es|
  {
    if es != [] && Enabled(s, es[0], gap) {
      NextWellFormed(c, true, s, es[0], gap);
      NextWellFormed(c, false, p, es[0], gap);
      LegalBothWays(c, Next(c, true, s, es[0]), Next(c, false, p, es[0]), es[1..], gap);
    }
  }

  // ---------------------------------------------------------------------------------------
  // The condition is exact
  // ---------------------------------------------------------------------------------------

  const Ip := "203.0.113.7"

  function Gets(lo: nat, n: nat, t: real): seq<Event>
    decreases n
  {
    if n == 0 then [] else [Get(lo, Ip, t)] + Gets(lo + 1, n - 1, t)
  }

  function Allows(lo: nat, n: nat, t: real): seq<Event>
    decreases n
  {
    if n == 0 then [] else [Allow(lo, t)] + Allows(lo + 1, n - 1, t)
  }

  lemma Cons(c: Config, evicts: bool, s: Limiters, e: Event, es: seq<Event>, gap: real)
    requires Enabled(s, e, gap) && Legal(c, evicts, Next(c, evicts, s, e), es, gap)
    ensures Legal(c, evicts, s, [e] + es, gap)
    ensures Exec(c, evicts, s, [e] + es, gap) == Exec(c, evicts, Next(c, evicts, s, e), es, gap)
    ensures Answers(c, evicts, s, [e] + es, gap) == Reply(c, s, e) + Answers(c, evicts, Next(c, evicts, s, e), es, gap)
  {
    assert ([e] + es)[1..] == es;
  }

  lemma Reassociate<T>(x: seq<T>, y: seq<T>, z: seq<T>)
    ensures x + (y + z) == (x + y) + z
  {
  }

  lemma {:induction false} Concat(c: Config, evicts: bool, s: Limiters, x: seq<Event>, y: seq<Event>, gap: real)
    requires Legal(c, evicts, s, x, gap) && Legal(c, evicts, Exec(c, evicts, s, x, gap), y, gap)
    ensures Legal(c, evicts, s, x + y, gap)
    ensures Exec(c, evicts, s, x + y, gap) == Exec(c, evicts, Exec(c, evicts, s, x, gap), y, gap)
    ensures Answers(c, evicts, s, x + y, gap)
         == Answers(c, evicts, s, x, gap) + Answers(c, evicts, Exec(c, evicts, s, x, gap), y, gap)
    decreases |x|
  {
    hide Next, Reply;
    if x == [] {
      assert x + y == y;
    } else {
      var e, s' := x[0], Next(c, evicts, s, x[0]);
      Concat(c, evicts, s', x[1..], y, gap);
      Cons(c, evicts, s, e, x[1..] + y, gap);
      assert [e] + (x[1..] + y) == x + y;
      Reassociate(Reply(c, s, e), Answers(c, evicts, s', x[1..], gap),
                  Answers(c, evicts, Exec(c, evicts, s', x[1..], gap), y, gap));
    }
  }

  /** A run stays legal, and does the same, if more patience is allowed for. */
  lemma {:induction false} WiderGap(c: Config, evicts: bool, s: Limiters, es: seq<Event>, gap: real, wider: real)
    requires gap <= wider && Legal(c, evicts, s, es, gap)
    ensures Legal(c, evicts, s, es, wider)
    ensures Exec(c, evicts, s, es, wider) == Exec(c, evicts, s, es, gap)
    ensures Answers(c, evicts, s, es, wider) == Answers(c, evicts, s, es, gap)
    decreases |es|
  {
    if es != [] {
      WiderGap(c, evicts, Next(c, evicts, s, es[0]), es[1..], gap, wider);
    }
  }

  /** What `n` calls of `get` at time `t`, for requests `lo` to `lo + n - 1`, leave behind. */
  ghost predicate AfterGets(s: Limiters, s': Limiters, lo: nat, n: nat, t: real) {
    && Ip in s'.table && s'.table[Ip].ref < |s'.heap| && s'.table[Ip].lastSeen == t && s'.now == t
    && (forall q | q in s'.held :: q in s.held || lo <= q < lo + n)
    && (forall q | q in s.held :: q in s'.held && s'.held[q] == s.held[q])
    && (forall q | lo <= q < lo + n :: q in s'.held && s'.held[q] == Held(Ip, s'.table[Ip].ref, t))
  }

  /** A run grows by one event. */
  lemma Snoc(c: Config, evicts: bool, s: Limiters, es: seq<Event>, e: Event, gap: real)
    requires Legal(c, evicts, s, es, gap) && Enabled(Exec(c, evicts, s, es, gap), e, gap)
    ensures Legal(c, evicts, s, es + [e], gap)
    ensures Exec(c, evicts, s, es + [e], gap) == Next(c, evicts, Exec(c, evicts, s, es, gap), e)
    ensures Answers(c, evicts, s, es + [e], gap)
         == Answers(c, evicts, s, es, gap) + Reply(c, Exec(c, evicts, s, es, gap), e)
  {
    var m := Exec(c, evicts, s, es, gap);
    assert [e][1..] == [];
    assert Answers(c, evicts, m, [e], gap) == Reply(c, m, e);
    Concat(c, evicts, s, es, [e], gap);
  }

  /** After one `get` a second one at the same time finds the entry. */
  lemma OneGet(c: Config, s: Limiters, lo: nat, t: real, gap: real)
    requires c.Valid() && WellFormed(c, s) && s.now <= t && lo !in s.held
    ensures var m := Next(c, true, s, Get(lo, Ip, t));
            && Enabled(s, Get(lo, Ip, t), gap) && WellFormed(c, m) && AfterGets(s, m, lo, 1, t)
            && m.heap == Fetch(c, s.heap, s.table, Ip, t).0 && m.table[Ip].ref == Fetch(c, s.heap, s.table, Ip, t).1.ref
            && Fetch(c, m.heap, m.table, Ip, t) == (m.heap, Entry(m.table[Ip].ref, t))
            && Reply(c, s, Get(lo, Ip, t)) == []
  {
    NextWellFormed(c, true, s, Get(lo, Ip, t), gap);
  }

  lemma MoreGets(s: Limiters, m: Limiters, s': Limiters, lo: nat, n: nat, t: real)
    requires AfterGets(s, m, lo, 1, t) && AfterGets(m, s', lo + 1, n, t) && s'.table[Ip].ref == m.table[Ip].ref
    ensures AfterGets(s, s', lo, n + 1, t)
  {
  }

  lemma {:induction false} GetsRun(c: Config, s: Limiters, lo: nat, n: nat, t: real, gap: real)
    requires c.Valid() && WellFormed(c, s) && s.now <= t && n > 0
    requires forall q | q in s.held :: q < lo
    ensures Legal(c, true, s, Gets(lo, n, t), gap) && Answers(c, true, s, Gets(lo, n, t), gap) == []
    ensures var s' := Exec(c, true, s, Gets(lo, n, t), gap);
            && WellFormed(c, s') && AfterGets(s, s', lo, n, t)
            && s'.heap == Fetch(c, s.heap, s.table, Ip, t).0
            && s'.table[Ip].ref == Fetch(c, s.heap, s.table, Ip, t).1.ref
    decreases n
  {
    hide Next, WellFormed, AfterGets, Fetch, Reply;
    var e := Get(lo, Ip, t);
    var m := Next(c, true, s, e);
    OneGet(c, s, lo, t, gap);
    if n > 1 {
      HeldBelow(s, m, lo, t);
      GetsRun(c, m, lo + 1, n - 1, t, gap);
      MoreGets(s, m, Exec(c, true, m, Gets(lo + 1, n - 1, t), gap), lo, n - 1, t);
    }
    Cons(c, true, s, e, Gets(lo + 1, n - 1, t), gap);
  }

  lemma HeldBelow(s: Limiters, m: Limiters, lo: nat, t: real)
    requires (forall q | q in s.held :: q < lo) && AfterGets(s, m, lo, 1, t)
    ensures m.now <= t && forall q | q in m.held :: q < lo + 1
  {
  }

  /** A burst of `n` calls at one moment, all holding limiter `ref`, is allowed if `n` tokens are there. */
  lemma {:induction false} AllowsRun(c: Config, s: Limiters, lo: nat, n: nat, ref: nat, t: real, gap: real, from: real,
                                     to: real)
    requires c.Valid() && WellFormed(c, s) && s.now <= t && from <= t <= to
    requires ref < |s.heap| && Level(c, s.heap[ref], t) >= Worth(c, n)
    requires forall q | lo <= q < lo + n ::
               q in s.held && s.held[q].ip == Ip && s.held[q].ref == ref && t - s.held[q].since <= gap
    ensures Legal(c, true, s, Allows(lo, n, t), gap)
    ensures Allowed(Answers(c, true, s, Allows(lo, n, t), gap), Ip, from, to) == n
    ensures var s' := Exec(c, true, s, Allows(lo, n, t), gap);
            && WellFormed(c, s') && s'.now <= t && s'.table == s.table && s'.held.Keys <= s.held.Keys
    decreases n
  {
    if n > 0 {
      var e := Allow(lo, t);
      assert Allows(lo, n, t)[1..] == Allows(lo + 1, n - 1, t);
      NextWellFormed(c, true, s, e, gap);
      var s' := Next(c, true, s, e);
      assert s'.heap[ref] == Drawn(c, s.heap[ref], t);
      AllowsRun(c, s', lo + 1, n - 1, ref, t, gap, from, to);
      AllowedConcat(Reply(c, s, e), Answers(c, true, s', Allows(lo + 1, n - 1, t), gap), Ip, from, to);
    }
  }

  /** `n` requests at time 0 that draw at `draw`, the entry swept at `back`, then `n` more requests. */
  function Storm(n: nat, draw: real, back: real): seq<Event> {
    (Gets(0, n, 0.0) + Allows(0, n, draw)) + ([Evict(Ip, back)] + (Gets(n, n, back) + Allows(n, n, back)))
  }

  /** One round of the storm: `n` requests get a full limiter at `start` and all draw from it at `t`. */
  lemma Burst(c: Config, s: Limiters, lo: nat, n: nat, start: real, t: real, gap: real, from: real, to: real)
    requires c.Valid() && n > 0 && Worth(c, n) <= c.cap && WellFormed(c, s)
    requires s.now <= start <= t && t - start <= gap && from <= t <= to
    requires Ip !in s.table && (forall q | q in s.held :: q < lo)
    ensures var es := Gets(lo, n, start) + Allows(lo, n, t);
            && Legal(c, true, s, es, gap)
            && Allowed(Answers(c, true, s, es, gap), Ip, from, to) == n
            && var s' := Exec(c, true, s, es, gap);
               && WellFormed(c, s') && s'.now <= t && Ip in s'.table && s'.table[Ip].lastSeen == start
               && forall q | q in s'.held :: q < lo + n
  {
    GetsRun(c, s, lo, n, start, gap);
    var m := Exec(c, true, s, Gets(lo, n, start), gap);
    AllowsRun(c, m, lo, n, m.table[Ip].ref, t, gap, from, to);
    Concat(c, true, s, Gets(lo, n, start), Allows(lo, n, t), gap);
    AllowedConcat([], Answers(c, true, m, Allows(lo, n, t), gap), Ip, from, to);
  }

  lemma StormAllowsTwice(c: Config, n: nat, draw: real, back: real, gap: real)
    requires c.Valid() && n > 0 && Worth(c, n) <= c.cap && 0.0 <= draw <= gap && c.idle < back && draw <= back
    ensures Legal(c, true, Empty, Storm(n, draw, back), gap)
    ensures Allowed(Answers(c, true, Empty, Storm(n, draw, back), gap), Ip, draw, back) == 2 * n
  {
    var first, second := Gets(0, n, 0.0) + Allows(0, n, draw), Gets(n, n, back) + Allows(n, n, back);
    Burst(c, Empty, 0, n, 0.0, draw, gap, draw, back);
    var s := Exec(c, true, Empty, first, gap);
    var e := Evict(Ip, back);
    var s' := Next(c, true, s, e);
    NextWellFormed(c, true, s, e, gap);
    Burst(c, s', n, n, back, back, gap, draw, back);
    assert ([e] + second)[1..] == second;
    Concat(c, true, Empty, first, [e] + second, gap);
    var x, y := Answers(c, true, Empty, first, gap), Answers(c, true, s', second, gap);
    assert Answers(c, true, s, [e] + second, gap) == [] + y == y;
    AllowedConcat(x, y, Ip, draw, back);
    assert Answers(c, true, Empty, Storm(n, draw, back), gap) == x + y;
  }

  /** Moments that make the storm visible: the second burst comes before the refill is complete. */
  lemma StormTimes(c: Config, gap: real) returns (draw: real, back: real)
    requires c.Valid() && gap >= 0.0 && c.cap > 0.0 && c.cap > c.idle - gap
    ensures 0.0 <= draw <= gap && draw <= back && c.idle < back && back - draw < c.cap
  {
    draw := gap;
    back := if gap > c.idle then gap else (c.idle + gap + c.cap) / 2.0;
  }

  /** A limiter with no burst denies everything, whatever it forgets. */
  lemma {:induction false} NoBurst(c: Config, s: Limiters, p: Limiters, es: seq<Event>, gap: real)
    requires c.Valid() && c.cap < c.every && WellFormed(c, s) && WellFormed(c, p)
    requires s.now == p.now && s.held.Keys == p.held.Keys
    requires forall q | q in s.held :: s.held[q].since == p.held[q].since && s.held[q].ip == p.held[q].ip
    requires Legal(c, false, p, es, gap) && Legal(c, true, s, es, gap)
    ensures Answers(c, true, s, es, gap) == Answers(c, false, p, es, gap)
    decreases |es|
  {
    if es != [] {
      NextWellFormed(c, true, s, es[0], gap);
      NextWellFormed(c, false, p, es[0], gap);
      assert Reply(c, s, es[0]) == Reply(c, p, es[0]);
      NoBurst(c, Next(c, true, s, es[0]), Next(c, false, p, es[0]), es[1..], gap);
    }
  }

  lemma {:induction false} WorthOf(c: Config, n: nat)
    ensures Worth(c, n) == n as real * c.every
  {
    if n > 0 {
      WorthOf(c, n - 1);
      assert n as real * c.every == (n - 1) as real * c.every + c.every;
    }
  }

  /** `b` tokens fill a bucket of burst `b`. */
  lemma BurstFills(r: real, b: nat, idle: real)
    requires r > 0.0
    ensures Worth(PerSecond(r, b, idle), b) == PerSecond(r, b, idle).cap
  {
    WorthOf(PerSecond(r, b, idle), b);
    assert b as real / r == b as real * (1.0 / r);
  }

  lemma {:induction false} WorthAdds(c: Config, m: nat, n: nat)
    ensures Worth(c, m + n) == Worth(c, m) + Worth(c, n)
  {
    if m > 0 {
      WorthAdds(c, m - 1, n);
    }
  }

  lemma Differ(c: Config, n: nat, gap: real)
    requires c.Valid() && gap >= 0.0 && n > 0 && Worth(c, n) == c.cap && c.cap > c.idle - gap
    ensures !Invisible(c, gap)
  {
    WorthAdds(c, n - 1, 1);
    var draw, back := StormTimes(c, gap);
    var es := Storm(n, draw, back);
    StormAllowsTwice(c, n, draw, back, gap);
    LegalBothWays(c, Empty, Empty, es, gap);
    WindowCost(c, false, es, gap, Ip, draw, back);
    CostCounts(c, Answers(c, true, Empty, es, gap), Ip, draw, back);
    WorthAdds(c, n, n);
  }

  /** Eviction is invisible in every run whose `get`-to-`Allow` gaps are at most `gap` if and only if a
      bucket refills completely in the idle time that is left after such a gap (or never holds a token). */
  lemma InvisibleIff(r: real, b: nat, idle: real, gap: real)
    requires r > 0.0 && idle >= 0.0 && gap >= 0.0
    ensures Invisible(PerSecond(r, b, idle), gap) <==> b == 0 || b as real / r <= idle - gap
  {
    var c := PerSecond(r, b, idle);
    PerSecondValid(r, b, idle);
    BurstFills(r, b, idle);
    if c.cap <= c.idle - gap {
      EvictionInvisible(c, gap);
    } else if b == 0 {
      forall es | Legal(c, false, Empty, es, gap)
        ensures Legal(c, true, Empty, es, gap) && Answers(c, true, Empty, es, gap) == Answers(c, false, Empty, es, gap)
      {
        LegalBothWays(c, Empty, Empty, es, gap);
        NoBurst(c, Empty, Empty, es, gap);
      }
    } else {
      Differ(c, b, gap);
    }
  }

  lemma Scale(r: real, n: real, b: real, span: real)
    requires r > 0.0 && n * (1.0 / r) <= b / r + span
    ensures n <= b + r * span
  {
    assert n == r * (n * (1.0 / r)) && b == r * (b / r);
    assert r * (b / r + span) - r * (n * (1.0 / r)) == r * (b / r + span - n * (1.0 / r));
  }

  /** In every run and every interval of length T at most `b + r*T` requests of one IP are allowed. */
  ghost predicate Bounded(r: real, b: nat, idle: real, gap: real)
    requires r > 0.0
  {
    forall es, ip, from, to | Legal(PerSecond(r, b, idle), true, Empty, es, gap) && 0.0 <= from <= to ::
      Allowed(Answers(PerSecond(r, b, idle), true, Empty, es, gap), ip, from, to) as real <= b as real + r * (to - from)
  }

  lemma PerSecondValid(r: real, b: nat, idle: real)
    requires r > 0.0 && idle >= 0.0
    ensures PerSecond(r, b, idle).Valid()
  {
    assert 1.0 / r > 0.0 && b as real / r >= 0.0;
  }

  /** Where eviction is invisible, the bound of the limiter that never forgets carries over. */
  lemma WindowCounted(c: Config, es: seq<Event>, gap: real, ip: string, from: real, to: real)
    requires c.Valid() && gap >= 0.0 && Invisible(c, gap) && Legal(c, true, Empty, es, gap) && 0.0 <= from <= to
    ensures Allowed(Answers(c, true, Empty, es, gap), ip, from, to) as real * c.every <= c.cap + (to - from)
  {
    LegalBothWays(c, Empty, Empty, es, gap);
    WindowCost(c, false, es, gap, ip, from, to);
    CostCounts(c, Answers(c, true, Empty, es, gap), ip, from, to);
    WorthOf(c, Allowed(Answers(c, true, Empty, es, gap), ip, from, to));
  }

  lemma InvisibleBounds(r: real, b: nat, idle: real, gap: real)
    requires r > 0.0 && idle >= 0.0 && gap >= 0.0 && Invisible(PerSecond(r, b, idle), gap)
    ensures Bounded(r, b, idle, gap)
  {
    var c := PerSecond(r, b, idle);
    PerSecondValid(r, b, idle);
    forall es, ip, from, to | Legal(c, true, Empty, es, gap) && 0.0 <= from <= to
      ensures Allowed(Answers(c, true, Empty, es, gap), ip, from, to) as real <= b as real + r * (to - from)
    {
      WindowCounted(c, es, gap, ip, from, to);
      Scale(r, Allowed(Answers(c, true, Empty, es, gap), ip, from, to) as real, b as real, to - from);
    }
  }

  lemma ShortOfRefill(r: real, b: real, span: real)
    requires r > 0.0 && span < b / r
    ensures r * span < b
  {
    assert r * (b / r) == b && r * (b / r) - r * span == r * (b / r - span);
  }

  /** The storm allows `2b` requests in less time than `b` tokens take to refill. */
  lemma StormExceeds(r: real, b: nat, idle: real, gap: real)
    requires r > 0.0 && idle >= 0.0 && gap >= 0.0 && b > 0 && b as real / r > idle - gap
    ensures !Bounded(r, b, idle, gap)
  {
    var c := PerSecond(r, b, idle);
    PerSecondValid(r, b, idle);
    BurstFills(r, b, idle);
    WorthAdds(c, b - 1, 1);
    var draw, back := StormTimes(c, gap);
    StormAllowsTwice(c, b, draw, back, gap);
    ShortOfRefill(r, b as real, back - draw);
    assert Allowed(Answers(c, true, Empty, Storm(b, draw, back), gap), Ip, draw, back) as real == b as real + b as real;
  }

  /** Every run whose `get`-to-`Allow` gaps are at most `gap`, evictions and pending requests included, allows
      one IP at most `b + r*T` requests in any interval of length T if and only if a bucket refills completely
      in the idle time that is left after such a gap (or never holds a token). */
  lemma WindowBoundIff(r: real, b: nat, idle: real, gap: real)
    requires r > 0.0 && idle >= 0.0 && gap >= 0.0
    ensures Bounded(r, b, idle, gap) <==> b == 0 || b as real / r <= idle - gap
  {
    InvisibleIff(r, b, idle, gap);
    if b == 0 || b as real / r <= idle - gap {
      InvisibleBounds(r, b, idle, gap);
    } else {
      StormExceeds(r, b, idle, gap);
    }
  }

  /** 5 magic links a minute with a burst of 3, entries dropped after 10 idle minutes. */
  const MagicLink := PerSecond(1.0 / 12.0, 3, 600.0)

  /** As configured: eviction is invisible, and the window bound holds, exactly when no request waits more than
      564 s between `get` and `Allow`; then no IP is allowed more than 8 requests in any 60 s. */
  lemma MagicLinkLimits(gap: real, es: seq<Event>, ip: string, from: real)
    requires gap >= 0.0 && 0.0 <= from
    ensures Invisible(MagicLink, gap) <==> gap <= 564.0
    ensures Bounded(1.0 / 12.0, 3, 600.0, gap) <==> gap <= 564.0
    ensures gap <= 564.0 && Legal(MagicLink, true, Empty, es, gap)
        ==> Allowed(Answers(MagicLink, true, Empty, es, gap), ip, from, from + 60.0) <= 8
  {
    InvisibleIff(1.0 / 12.0, 3, 600.0, gap);
    WindowBoundIff(1.0 / 12.0, 3, 600.0, gap);
    if gap <= 564.0 && Legal(MagicLink, true, Empty, es, gap) {
      assert Allowed(Answers(MagicLink, true, Empty, es, gap), ip, from, from + 60.0) as real
          <= 3.0 + (1.0 / 12.0) * 60.0;
    }
  }

  // ---------------------------------------------------------------------------------------
  // The table stays small
  // ---------------------------------------------------------------------------------------

  /** Every entry of `ip` was last seen at or after `since`. */
  ghost predicate SeenSince(s: Limiters, ip: string, since: real) {
    ip in s.table ==> s.table[ip].lastSeen >= since
  }

  lemma {:induction false} StaysSeen(c: Config, s: Limiters, es: seq<Event>, gap: real, ip: string, since: real)
    requires Legal(c, true, s, es, gap) && SeenSince(s, ip, since) && since <= s.now
    ensures SeenSince(Exec(c, true, s, es, gap), ip, since)
    decreases |es|
  {
    if es != [] {
      StaysSeen(c, Next(c, true, s, es[0]), es[1..], gap, ip, since);
    }
  }

  lemma {:induction false} EvictChecks(c: Config, s: Limiters, es: seq<Event>, gap: real, ip: string, t: real)
    requires Legal(c, true, s, es, gap) && c.idle >= 0.0
    requires Evict(ip, t) in es
    ensures SeenSince(Exec(c, true, s, es, gap), ip, t - c.idle)
    decreases |es|
  {
    var s' := Next(c, true, s, es[0]);
    if es[0] == Evict(ip, t) {
      StaysSeen(c, s', es[1..], gap, ip, t - c.idle);
    } else {
      EvictChecks(c, s', es[1..], gap, ip, t);
    }
  }

  lemma {:induction false} SeenByGet(c: Config, s: Limiters, es: seq<Event>, gap: real, ip: string)
    requires Legal(c, true, s, es, gap) && ip in Exec(c, true, s, es, gap).table
    ensures var at := Exec(c, true, s, es, gap).table[ip].lastSeen;
            (ip in s.table && s.table[ip].lastSeen == at) || exists q :: Get(q, ip, at) in es
    decreases |es|
  {
    if es != [] {
      var s' := Next(c, true, s, es[0]);
      SeenByGet(c, s', es[1..], gap, ip);
      var at := Exec(c, true, s, es, gap).table[ip].lastSeen;
      if !(ip in s'.table && s'.table[ip].lastSeen == at) {
        var q :| Get(q, ip, at) in es[1..];
        assert Get(q, ip, at) in es;
      } else if es[0].Get? && es[0].ip == ip {
        assert Get(es[0].req, ip, at) in es;
      }
    }
  }

  /** The IPs some request of `es` asked for at or after `since`. */
  ghost function Callers(es: seq<Event>, since: real): set<string> {
    set i | 0 <= i < |es| && es[i].Get? && es[i].t >= since :: es[i].ip
  }

  lemma CardinalitySubset<T>(x: set<T>, y: set<T>)
    requires x <= y
    ensures |x| <= |y|
  {
    if x != {} {
      var e :| e in x;
      CardinalitySubset(x - {e}, y - {e});
    }
  }

  lemma {:induction false} ConcatLegal(c: Config, s: Limiters, x: seq<Event>, y: seq<Event>, gap: real)
    requires Legal(c, true, s, x + y, gap)
    ensures Legal(c, true, s, x, gap) && Legal(c, true, Exec(c, true, s, x, gap), y, gap)
    ensures Exec(c, true, s, x + y, gap) == Exec(c, true, Exec(c, true, s, x, gap), y, gap)
    decreases |x|
  {
    if x == [] {
      assert x + y == y;
    } else {
      assert (x + y)[1..] == x[1..] + y;
      ConcatLegal(c, Next(c, true, s, x[0]), x[1..], y, gap);
    }
  }

  lemma PrefixLegal(c: Config, es: seq<Event>, gap: real, n: nat)
    requires Legal(c, true, Empty, es, gap) && n <= |es|
    ensures Legal(c, true, Empty, es[..n], gap)
  {
    assert es[..n] + es[n..] == es;
    ConcatLegal(c, Empty, es[..n], es[n..], gap);
  }

  /** The table after the first `n` events. */
  ghost function TableAt(c: Config, es: seq<Event>, gap: real, n: nat): map<string, Entry>
    requires Legal(c, true, Empty, es, gap) && n <= |es|
  {
    PrefixLegal(c, es, gap, n);
    Exec(c, true, Empty, es[..n], gap).table
  }

  function TimeAt(es: seq<Event>, n: nat): real
    requires n <= |es|
  {
    if n == 0 then 0.0 else es[n - 1].t
  }

  lemma {:induction false} ClockAt(c: Config, es: seq<Event>, gap: real)
    requires Legal(c, true, Empty, es, gap)
    ensures Exec(c, true, Empty, es, gap).now == TimeAt(es, |es|)
    decreases |es|
  {
    if es != [] {
      var init, e := es[..|es| - 1], es[|es| - 1];
      assert init + [e] == es;
      ConcatLegal(c, Empty, init, [e], gap);
      assert [e][1..] == [];
    }
  }

  /** A sweep that started at time `start` and made its checks between the events number `from` and `to`. */
  datatype Sweep = Sweep(from: nat, to: nat, start: real)

  /** Between events number `n` and `n + 1` the clock can read `t`. */
  predicate Reads(es: seq<Event>, n: nat, t: real)
    requires n <= |es|
  {
    TimeAt(es, n) <= t && (n < |es| ==> t <= es[n].t)
  }

  /** Every entry that was there when the sweep started is checked by it. */
  ghost predicate Complete(c: Config, es: seq<Event>, gap: real, w: Sweep)
    requires Legal(c, true, Empty, es, gap)
  {
    && w.from <= w.to <= |es| && Reads(es, w.from, w.start)
    && forall ip | ip in TableAt(c, es, gap, w.from) :: Checks(es[w.from..w.to], ip, w.start)
  }

  ghost predicate Checks(es: seq<Event>, ip: string, start: real) {
    exists t :: t >= start && Evict(ip, t) in es
  }

  /** When sweep number `m` started, or the end of the run if it has not started yet. */
  function Due(sweeps: seq<Sweep>, m: nat, end: real): real {
    if m < |sweeps| then sweeps[m].start else end
  }

  /** The sweeps of a run up to time `end`: each starts at most `every` after the one before it, and the next is
      not overdue. */
  ghost predicate Regular(c: Config, es: seq<Event>, gap: real, sweeps: seq<Sweep>, every: real, end: real)
    requires Legal(c, true, Empty, es, gap)
  {
    && (forall m | 0 <= m < |sweeps| :: Complete(c, es, gap, sweeps[m]))
    && Due(sweeps, 0, end) <= every
    && (forall m | 0 <= m < |sweeps| :: Due(sweeps, m + 1, end) <= sweeps[m].start + every)
  }

  /** How many sweeps are complete after `n` events. */
  function Done(sweeps: seq<Sweep>, n: nat): (m: nat)
    ensures m <= |sweeps| && (m > 0 ==> sweeps[m - 1].to <= n)
  {
    if sweeps == [] || sweeps[|sweeps| - 1].to <= n then |sweeps| else Done(sweeps[..|sweeps| - 1], n)
  }

  /** The present, or the start of the sweep that is under way. */
  function Since(sweeps: seq<Sweep>, n: nat, now: real): real {
    var m := Done(sweeps, n);
    if m < |sweeps| then Min(now, sweeps[m].start) else now
  }

  lemma CheckedSince(c: Config, s: Limiters, es: seq<Event>, gap: real, ip: string, start: real)
    requires c.idle >= 0.0 && Legal(c, true, s, es, gap) && (es != [] ==> start <= es[0].t)
    requires ip in s.table ==> Checks(es, ip, start)
    ensures SeenSince(Exec(c, true, s, es, gap), ip, start - c.idle)
  {
    if ip in s.table {
      var t :| t >= start && Evict(ip, t) in es;
      EvictChecks(c, s, es, gap, ip, t);
    } else if es != [] {
      NewSince(c, s, es, gap, ip, start);
    }
  }

  lemma ChecksMore(x: seq<Event>, y: seq<Event>, ip: string, start: real)
    requires Checks(x, ip, start)
    ensures Checks(x + y, ip, start)
  {
    var t :| t >= start && Evict(ip, t) in x;
    assert Evict(ip, t) in x + y;
  }

  lemma SweptRun(c: Config, before: seq<Event>, sweep: seq<Event>, after: seq<Event>, gap: real, ip: string,
                 start: real)
    requires c.Valid() && Legal(c, true, Empty, before, gap) && Legal(c, true, Empty, before + (sweep + after), gap)
    requires ip in Exec(c, true, Empty, before, gap).table ==> Checks(sweep, ip, start)
    requires sweep + after != [] ==> start <= (sweep + after)[0].t
    ensures SeenSince(Exec(c, true, Empty, before + (sweep + after), gap), ip, start - c.idle)
  {
    ConcatLegal(c, Empty, before, sweep + after, gap);
    if Checks(sweep, ip, start) {
      ChecksMore(sweep, after, ip, start);
    }
    CheckedSince(c, Exec(c, true, Empty, before, gap), sweep + after, gap, ip, start);
  }

  lemma Cut<T>(xs: seq<T>, i: nat, j: nat, n: nat)
    requires i <= j <= n <= |xs|
    ensures xs[..n] == xs[..i] + (xs[i..j] + xs[j..n])
    ensures i < n ==> (xs[i..j] + xs[j..n]) != [] && (xs[i..j] + xs[j..n])[0] == xs[i]
    ensures i == n ==> (xs[i..j] + xs[j..n]) == []
  {
  }

  /** What a complete sweep leaves was seen since the idle timeout before its start. */
  lemma SweptSince(c: Config, es: seq<Event>, gap: real, w: Sweep, n: nat, ip: string)
    requires c.Valid() && Legal(c, true, Empty, es, gap) && Complete(c, es, gap, w) && w.to <= n <= |es|
    ensures ip in TableAt(c, es, gap, n) ==> TableAt(c, es, gap, n)[ip].lastSeen >= w.start - c.idle
  {
    hide Legal, Exec;
    PrefixLegal(c, es, gap, n);
    PrefixLegal(c, es, gap, w.from);
    Cut(es, w.from, w.to, n);
    SweptRun(c, es[..w.from], es[w.from..w.to], es[w.to..n], gap, ip, w.start);
  }

  /** An entry that was not there is from a later request. */
  lemma {:induction false} NewSince(c: Config, s: Limiters, es: seq<Event>, gap: real, ip: string, start: real)
    requires Legal(c, true, s, es, gap) && es != [] && start <= es[0].t && ip !in s.table
    ensures SeenSince(Exec(c, true, s, es, gap), ip, start)
  {
    StaysSeen(c, Next(c, true, s, es[0]), es[1..], gap, ip, start);
  }

  /** Every entry is from some request. */
  lemma SeenInRun(c: Config, es: seq<Event>, gap: real, n: nat, since: real)
    requires Legal(c, true, Empty, es, gap) && n <= |es|
    requires forall ip | ip in TableAt(c, es, gap, n) :: TableAt(c, es, gap, n)[ip].lastSeen >= since
    ensures TableAt(c, es, gap, n).Keys <= Callers(es[..n], since)
  {
    PrefixLegal(c, es, gap, n);
    forall ip | ip in TableAt(c, es, gap, n)
      ensures ip in Callers(es[..n], since)
    {
      SeenByGet(c, Empty, es[..n], gap, ip);
      var q :| Get(q, ip, TableAt(c, es, gap, n)[ip].lastSeen) in es[..n];
    }
  }

  /** Without any sweep yet, all of the past counts. */
  lemma SeenEver(c: Config, es: seq<Event>, gap: real, n: nat, ip: string)
    requires Legal(c, true, Empty, es, gap) && n <= |es|
    ensures ip in TableAt(c, es, gap, n) ==> TableAt(c, es, gap, n)[ip].lastSeen >= 0.0
  {
    PrefixLegal(c, es, gap, n);
    StaysSeen(c, Empty, es[..n], gap, ip, 0.0);
  }

  /** When the last complete sweep started, or 0. */
  function LastStart(sweeps: seq<Sweep>, n: nat): real {
    if Done(sweeps, n) == 0 then 0.0 else sweeps[Done(sweeps, n) - 1].start
  }

  lemma SinceDue(c: Config, es: seq<Event>, gap: real, sweeps: seq<Sweep>, every: real, n: nat, now: real)
    requires Legal(c, true, Empty, es, gap) && Regular(c, es, gap, sweeps, every, Last(es, now))
    ensures Since(sweeps, n, now) <= LastStart(sweeps, n) + every
  {
    var m := Done(sweeps, n);
    assert Since(sweeps, n, now) <= Due(sweeps, m, Last(es, now));
    if m > 0 {
      assert Due(sweeps, (m - 1) + 1, Last(es, now)) <= sweeps[m - 1].start + every;
    }
  }

  lemma EntrySince(c: Config, es: seq<Event>, gap: real, sweeps: seq<Sweep>, n: nat, ip: string)
    requires c.Valid() && Legal(c, true, Empty, es, gap) && n <= |es|
    requires forall m | 0 <= m < |sweeps| :: Complete(c, es, gap, sweeps[m])
    ensures ip in TableAt(c, es, gap, n) ==> TableAt(c, es, gap, n)[ip].lastSeen >= LastStart(sweeps, n) - c.idle
  {
    var m := Done(sweeps, n);
    if m > 0 {
      SweptSince(c, es, gap, sweeps[m - 1], n, ip);
    } else {
      SeenEver(c, es, gap, n, ip);
    }
  }

  /** In every run whose complete sweeps start at most `every` apart, at every moment each entry belongs to an IP
      seen within `idle + every` (counted back from the start of the sweep, while one is under way), so the table
      is no larger than the number of distinct callers of that window. */
  lemma TableBound(c: Config, es: seq<Event>, gap: real, sweeps: seq<Sweep>, every: real, n: nat, now: real)
    requires c.Valid() && Legal(c, true, Empty, es, gap) && n <= |es| && Reads(es, n, now)
    requires Regular(c, es, gap, sweeps, every, Last(es, now))
    ensures TableAt(c, es, gap, n).Keys <= Callers(es[..n], Since(sweeps, n, now) - (c.idle + every))
    ensures |TableAt(c, es, gap, n)| <= |Callers(es[..n], Since(sweeps, n, now) - (c.idle + every))|
  {
    var since := Since(sweeps, n, now) - (c.idle + every);
    SinceDue(c, es, gap, sweeps, every, n, now);
    forall ip | ip in TableAt(c, es, gap, n)
      ensures TableAt(c, es, gap, n)[ip].lastSeen >= since
    {
      EntrySince(c, es, gap, sweeps, n, ip);
    }
    SeenInRun(c, es, gap, n, since);
    CardinalitySubset(TableAt(c, es, gap, n).Keys, Callers(es[..n], since));
  }

  /** The end of the run, as far as it is known. */
  function Last(es: seq<Event>, now: real): real {
    if es == [] || es[|es| - 1].t <= now then now else es[|es| - 1].t
  }

  const CleanupInterval := 300.0

  /** As configured: sweeps that start every 5 minutes keep only IPs seen within the last 15 minutes. */
  lemma MagicLinkTable(es: seq<Event>, gap: real, sweeps: seq<Sweep>, n: nat, now: real)
    requires Legal(MagicLink, true, Empty, es, gap) && n <= |es| && Reads(es, n, now)
    requires Regular(MagicLink, es, gap, sweeps, CleanupInterval, Last(es, now))
    ensures TableAt(MagicLink, es, gap, n).Keys <= Callers(es[..n], Since(sweeps, n, now) - 900.0)
    ensures |TableAt(MagicLink, es, gap, n)| <= |Callers(es[..n], Since(sweeps, n, now) - 900.0)|
  {
    PerSecondValid(1.0 / 12.0, 3, 600.0);
    TableBound(MagicLink, es, gap, sweeps, CleanupInterval, n, now);
  }
}
