/** The limiter as the server runs it: a map of entries updated in place, each pointing to a limiter
    object that a request may go on holding after the entry is gone.  The class logs what happened as a
    run of the machine in `RateLimit`, so the theorems about all runs hold of every sequence of calls. */
module RateLimiter {
  import opened RateLimit
  import opened RateExact

  lemma TokensAsCredit(r: real, tokens: real, b: nat, idle: real, last: real, now: real)
    requires r > 0.0
    ensures var c, level := PerSecond(r, b, idle), Min(b as real, tokens + r * (now - last));
            && Level(c, Bucket(tokens / r, last), now) == level / r
            && (level >= 1.0 <==> Permits(c, Bucket(tokens / r, last), now))
            && (level - 1.0) / r == level / r - c.every
  {
    var x := tokens + r * (now - last);
    assert x / r == tokens / r + (now - last);
    Divided(r, x, b as real);
    Divided(r, 1.0, Min(b as real, x));
  }

  lemma Divided(r: real, x: real, y: real)
    requires r > 0.0
    ensures x <= y <==> x / r <= y / r
  {
    assert x == (x / r) * r && y == (y / r) * r;
    assert (y / r) * r - (x / r) * r == (y / r - x / r) * r;
  }

  type PosReal = r: real | r > 0.0 witness 1.0

  /** One token bucket of rate `r` and burst `b`, counted in tokens. */
  class Limiter {
    const r: PosReal
    const b: nat
    ghost const ref: nat
    var tokens: real
    var last: real

    constructor (r: PosReal, b: nat, now: real, ghost ref: nat)
      ensures this.r == r && this.b == b && this.ref == ref && State() == Bucket(b as real / r, now)
    {
      this.r, this.b, this.ref := r, b, ref;
      tokens, last := b as real, now;
    }

    ghost function State(): Bucket
      reads this
    {
      Bucket(tokens / r, last)
    }

    method Allow(now: real, ghost idle: real) returns (ok: bool)
      modifies this
      ensures ok == Permits(PerSecond(r, b, idle), old(State()), now)
      ensures State() == Drawn(PerSecond(r, b, idle), old(State()), now)
      ensures !ok ==> tokens == old(tokens) && last == old(last)
    {
      ghost var c, before := PerSecond(r, b, idle), State();
      TokensAsCredit(r, tokens, b, idle, last, now);
      var level := Min(b as real, tokens + r * (now - last));
      assert Level(c, before, now) == level / r && (level - 1.0) / r == level / r - c.every;
      ok := level >= 1.0;
      if ok {
        tokens, last := level - 1.0, now;
      }
    }
  }

  ghost function States(limiters: seq<Limiter>): seq<Bucket>
    reads limiters
  {
    seq(|limiters|, i requires 0 <= i < |limiters| reads limiters => limiters[i].State())
  }

  datatype MapEntry = MapEntry(limiter: Limiter, lastSeen: real)

  class IPRateLimiter {
    const r: PosReal
    const b: nat
    const idle: real
    var limiters: map<string, MapEntry>
    ghost var created: seq<Limiter>
    ghost var events: seq<Event>
    ghost var longest: real
    ghost var state: Limiters
    ghost var sweeps: seq<Sweep>
    ghost var clock: real

    ghost function Cfg(): Config
    {
      PerSecond(r, b, idle)
    }

    /** Every limiter ever made is listed, and the entries point to listed ones. */
    ghost predicate Listed()
      reads this, created
    {
      && (forall i | 0 <= i < |created| :: created[i].ref == i && created[i].r == r && created[i].b == b)
      && (forall ip | ip in limiters :: limiters[ip].limiter in created)
    }

    /** What happened so far is a run in which no request waited longer than `longest` between `get` and `Allow`,
        and it leads to the state that the fields show; `sweeps` are its complete sweeps, and `clock` is the latest
        reading of the clock. */
    ghost predicate Valid()
      reads this, created
    {
      && idle >= 0.0 && longest >= 0.0 && Listed()
      && Legal(Cfg(), true, Empty, events, longest) && state == Exec(Cfg(), true, Empty, events, longest)
      && state.heap == Heap() && state.table == Table() && state.now <= clock
      && SweepsOk(Cfg(), events, longest, sweeps, clock)
    }

    ghost function Heap(): seq<Bucket>
      reads this`created, created
    {
      States(created)
    }

    ghost function Table(): map<string, Entry>
      reads this`limiters
    {
      map ip | ip in limiters :: Entry(limiters[ip].limiter.ref, limiters[ip].lastSeen)
    }

    /** Every answer given so far. */
    ghost function Replies(): seq<Answer>
      requires Valid()
      reads this, created
    {
      Answers(Cfg(), true, Empty, events, longest)
    }

    /** A bucket refills in the idle time left after the longest wait so far. */
    ghost predicate Refills()
      reads this
    {
      b == 0 || b as real / r <= idle - longest
    }

    constructor (r: PosReal, b: nat, idle: real)
      requires idle >= 0.0
      ensures Valid() && Cfg() == PerSecond(r, b, idle) && events == [] && limiters == map[]
      ensures sweeps == [] && clock == 0.0
    {
      this.r, this.b, this.idle := r, b, idle;
      limiters, created := map[], [];
      events, longest, state, sweeps, clock := [], 0.0, Empty, [], 0.0;
    }

    /** The run grows by one event. */
    ghost method Take(e: Event)
      requires longest >= 0.0 && Legal(Cfg(), true, Empty, events, longest)
      requires state == Exec(Cfg(), true, Empty, events, longest)
      requires SweepsOk(Cfg(), events, longest, sweeps, clock) && state.now <= clock <= e.t
      requires e.Get? ==> e.req !in state.held
      requires e.Allow? ==> e.req in state.held && state.held[e.req].ref < |state.heap|
      modifies this`events, this`longest, this`state, this`clock
      ensures events == old(events) + [e] && state == Next(Cfg(), true, old(state), e)
      ensures Legal(Cfg(), true, Empty, events, longest) && state == Exec(Cfg(), true, Empty, events, longest)
      ensures SweepsOk(Cfg(), events, longest, sweeps, clock) && clock == e.t
      ensures longest == if e.Allow? then Max(old(longest), e.t - old(state.held[e.req].since)) else old(longest)
      ensures Answers(Cfg(), true, Empty, events, longest)
           == old(Answers(Cfg(), true, Empty, events, longest)) + Reply(Cfg(), old(state), e)
    {
      var wider := if e.Allow? then Max(longest, e.t - state.held[e.req].since) else longest;
      WiderGap(Cfg(), true, Empty, events, longest, wider);
      Snoc(Cfg(), true, Empty, events, e, wider);
      SweepsGrow(Cfg(), events, e, longest, wider, sweeps, clock);
      events, longest, state, clock := events + [e], wider, Next(Cfg(), true, state, e), e.t;
    }

    method NewLimiter(now: real) returns (limiter: Limiter)
      requires Listed()
      modifies this`created
      ensures Listed() && fresh(limiter) && limiter.ref == old(|created|) && created == old(created) + [limiter]
      ensures Heap() == old(Heap()) + [Bucket(Cfg().cap, now)]
    {
      limiter := new Limiter(r, b, now, |created|);
      created := created + [limiter];
    }

    /** The limiter of `ip`, created on its first request, with its entry's lastSeen updated. */
    method Touch(ip: string, now: real) returns (limiter: Limiter)
      requires Listed()
      modifies this`created, this`limiters
      ensures Listed() && limiter in created && (limiter in old(created) || fresh(limiter))
      ensures Fetch(Cfg(), old(Heap()), old(Table()), ip, now) == (Heap(), Entry(limiter.ref, now))
      ensures Table() == old(Table())[ip := Entry(limiter.ref, now)]
    {
      ghost var table, heap := Table(), Heap();
      if ip in limiters {
        limiter := limiters[ip].limiter;
      } else {
        limiter := NewLimiter(now);
      }
      assert (Heap(), Entry(limiter.ref, now)) == Fetch(Cfg(), heap, table, ip, now);
      limiters := limiters[ip := MapEntry(limiter, now)];
      assert Table() == table[ip := Entry(limiter.ref, now)];
    }

    /** `get`, logged. */
    method Get(ip: string, now: real, ghost req: nat) returns (limiter: Limiter)
      requires Valid() && clock <= now && req !in state.held
      modifies this
      ensures Valid() && events == old(events) + [Event.Get(req, ip, now)] && longest == old(longest)
      ensures limiter in created && (limiter in old(created) || fresh(limiter))
      ensures state.held == old(state.held)[req := Held(ip, limiter.ref, now)]
      ensures clock == now && sweeps == old(sweeps)
      ensures Replies() == old(Replies())
    {
      hide Exec, Legal, Answers, Fetch, Heap, Table, SweepsOk;
      limiter := Touch(ip, now);
      Take(Event.Get(req, ip, now));
    }

    /** The second half of a request: `Allow` on the limiter it was handed, whether or not the entry is still there. */
    method AllowHeld(limiter: Limiter, now: real, ghost req: nat) returns (ok: bool)
      requires Valid() && clock <= now && limiter in created
      requires req in state.held && state.held[req].ref == limiter.ref
      modifies this`events, this`longest, this`state, this`clock, limiter
      ensures Valid() && events == old(events) + [Event.Allow(req, now)]
      ensures longest == Max(old(longest), now - old(state.held[req].since))
      ensures state.held == old(state.held) - {req} && clock == now
      ensures Replies() == old(Replies()) + [Answer(old(state.held[req].ip), now, ok)]
      ensures Refills() ==> (ok <==> Affordable(r, b, Replies(), |old(Replies())|))
    {
      hide SweepsOk;
      ghost var heap, table := Heap(), Table();
      ok := limiter.Allow(now, idle);
      assert Heap() == heap[limiter.ref := Drawn(Cfg(), heap[limiter.ref], now)];
      assert Table() == table;
      Take(Event.Allow(req, now));
      LastExact();
    }

    /** A whole request, while any number of others may be waiting: `get`, then `Allow` at a later reading of the
        clock. */
    method Limit(ip: string, got: real, now: real, ghost req: nat) returns (ok: bool)
      requires Valid() && clock <= got <= now && req !in state.held
      modifies this, created
      ensures Valid() && events == old(events) + [Event.Get(req, ip, got), Event.Allow(req, now)]
      ensures longest == Max(old(longest), now - got) && state.held == old(state.held)
      ensures clock == now && sweeps == old(sweeps)
      ensures Replies() == old(Replies()) + [Answer(ip, now, ok)]
      ensures Refills() ==> (ok <==> Affordable(r, b, Replies(), |old(Replies())|))
    {
      var limiter := Get(ip, got, req);
      ok := AllowHeld(limiter, now, req);
    }

    /** One iteration of the sweep loop. */
    method SweepOne(ip: string, t: real)
      requires Valid() && clock <= t
      modifies this`limiters, this`events, this`longest, this`state, this`clock
      ensures Valid() && events == old(events) + [Evict(ip, t)] && longest == old(longest)
      ensures limiters
           == if ip in old(limiters) && t - old(limiters)[ip].lastSeen > idle then old(limiters) - {ip}
              else old(limiters)
      ensures state.held == old(state.held) && clock == t
      ensures Replies() == old(Replies())
    {
      hide SweepsOk;
      ghost var table, heap := Table(), Heap();
      if ip in limiters && t - limiters[ip].lastSeen > idle {
        limiters := limiters - {ip};
      }
      assert Heap() == heap && Table() == Swept(Cfg(), table, ip, t);
      Take(Evict(ip, t));
    }

    /** The sweep checks every entry present when it starts, each at its own reading of the clock: it is complete. */
    method SweepAll(readings: nat -> real)
      requires Valid() && clock <= readings(0) && (forall k: nat :: readings(k) <= readings(k + 1))
      modifies this`limiters, this`events, this`longest, this`state, this`clock, this`sweeps
      ensures Valid() && old(events) <= events && longest == old(longest) && state.held == old(state.held)
      ensures sweeps == old(sweeps) + [Sweep(|old(events)|, |events|, readings(0))] && clock >= readings(0)
      ensures Replies() == old(Replies())
    {
      hide SweepsOk;
      ghost var first := |events|;
      CheckAll(readings);
      ghost var checked := clock;
      clock := Max(clock, readings(0));
      CompleteSweep(Cfg(), old(events), events, longest, readings(0));
      OneMoreSweep(Cfg(), events, longest, sweeps, checked, clock, Sweep(first, |events|, readings(0)));
      sweeps := sweeps + [Sweep(first, |events|, readings(0))];
    }

    /** The loop of the sweep. */
    method CheckAll(readings: nat -> real)
      requires Valid() && clock <= readings(0) && (forall k: nat :: readings(k) <= readings(k + 1))
      modifies this`limiters, this`events, this`longest, this`state, this`clock
      ensures Valid() && old(events) <= events && longest == old(longest) && state.held == old(state.held)
      ensures Replies() == old(Replies()) && clock >= old(clock)
      ensures |old(events)| < |events| ==> events[|old(events)|].t >= readings(0)
      ensures forall ip | ip in old(limiters) :: Checks(events[|old(events)|..], ip, readings(0))
    {
      hide SweepsOk;
      var todo := limiters.Keys;
      var k := 0;
      while todo != {}
        invariant Valid() && todo <= old(limiters).Keys
        invariant old(clock) <= clock <= readings(k) && readings(0) <= readings(k)
        invariant old(events) <= events && longest == old(longest) && state.held == old(state.held)
        invariant Replies() == old(Replies())
        invariant |old(events)| < |events| ==> events[|old(events)|].t >= readings(0)
        invariant forall ip | ip in old(limiters) && ip !in todo :: Checks(events[|old(events)|..], ip, readings(0))
        decreases todo
      {
        var ip :| ip in todo;
        ghost var before := events[|old(events)|..];
        SweepOne(ip, readings(k));
        assert events[|old(events)|..] == before + [Evict(ip, readings(k))];
        forall jp | jp in old(limiters) && jp !in todo - {ip}
          ensures Checks(events[|old(events)|..], jp, readings(0))
        {
          CheckedGrows(before, ip, readings(k), jp, readings(0));
        }
        k, todo := k + 1, todo - {ip};
      }
    }

    /** Whatever was called, in whatever order: at any later reading of the clock, if the sweeps so far started at
        most `every` apart and the next is not overdue, every entry belongs to an IP seen within `idle + every`,
        and there are no more entries than distinct callers in that time. */
    lemma EntriesBounded(every: real, now: real)
      requires Valid() && clock <= now && Punctual(sweeps, every, now)
      ensures limiters.Keys <= Callers(events, now - (idle + every))
      ensures |limiters| <= |Callers(events, now - (idle + every))|
    {
      hide Legal, Exec, SweepsOk, Punctual;
      PerSecondValid(r, b, idle);
      PunctualBound(Cfg(), events, longest, sweeps, clock, every, now);
      assert Table().Keys == limiters.Keys && |Table()| == |Table().Keys| && |limiters| == |limiters.Keys|;
    }

    /** Whatever was called, in whatever order: if a bucket refills in the idle time left after the longest wait
        so far, every answer was the one the limiter that never forgets would have given, and no IP got more
        than its due in any interval. */
    lemma CallsBounded(ip: string, from: real, to: real)
      requires Valid() && 0.0 <= from <= to && Refills()
      ensures Legal(Cfg(), false, Empty, events, longest) && Replies() == Answers(Cfg(), false, Empty, events, longest)
      ensures Allowed(Replies(), ip, from, to) as real <= b as real + r * (to - from)
    {
      hide Legal, Exec, Answers, SweepsOk;
      RunBounded(r, b, idle, events, longest, ip, from, to);
    }

    /** And no IP got less: each request was allowed exactly when one more kept it within its due in every interval
        that ends at that moment. */
    lemma CallsExact(n: nat)
      requires Valid() && Refills() && n < |Replies()|
      ensures Replies()[n].ok <==> Affordable(r, b, Replies(), n)
    {
      hide Legal, Exec, Answers, SweepsOk, Affordable;
      RunExact(r, b, idle, events, longest, n);
    }

    lemma LastExact()
      requires Valid() && Replies() != []
      ensures Refills() ==> (Replies()[|Replies()| - 1].ok <==> Affordable(r, b, Replies(), |Replies()| - 1))
    {
      hide Legal, Exec, Answers, SweepsOk, Affordable;
      if Refills() {
        CallsExact(|Replies()| - 1);
      }
    }
  }

  lemma RunBounded(r: real, b: nat, idle: real, es: seq<Event>, gap: real, ip: string, from: real, to: real)
    requires r > 0.0 && idle >= 0.0 && gap >= 0.0 && Legal(PerSecond(r, b, idle), true, Empty, es, gap)
    requires 0.0 <= from <= to && (b == 0 || b as real / r <= idle - gap)
    ensures var c := PerSecond(r, b, idle);
            && Legal(c, false, Empty, es, gap) && Answers(c, true, Empty, es, gap) == Answers(c, false, Empty, es, gap)
            && Allowed(Answers(c, true, Empty, es, gap), ip, from, to) as real <= b as real + r * (to - from)
  {
    hide Legal, Exec, Answers, Allowed;
    PerSecondValid(r, b, idle);
    EmptyWellFormed(PerSecond(r, b, idle));
    LegalBothWays(PerSecond(r, b, idle), Empty, Empty, es, gap);
    InvisibleIff(r, b, idle, gap);
    WindowBoundIff(r, b, idle, gap);
  }

  lemma EmptyWellFormed(c: Config)
    ensures WellFormed(c, Empty)
  {
  }

  /** The sweeps are complete ones of the run, and have started. */
  ghost predicate SweepsOk(c: Config, es: seq<Event>, gap: real, sweeps: seq<Sweep>, clock: real)
    requires Legal(c, true, Empty, es, gap)
  {
    forall m | 0 <= m < |sweeps| :: Complete(c, es, gap, sweeps[m]) && sweeps[m].start <= clock
  }

  lemma PunctualSweeps(c: Config, es: seq<Event>, gap: real, sweeps: seq<Sweep>, clock: real, every: real, now: real)
    requires Legal(c, true, Empty, es, gap) && SweepsOk(c, es, gap, sweeps, clock) && Punctual(sweeps, every, now)
    ensures Regular(c, es, gap, sweeps, every, now) && Done(sweeps, |es|) == |sweeps|
  {
    hide Legal;
    DoneAll(sweeps, |es|);
  }

  lemma PunctualBound(c: Config, es: seq<Event>, gap: real, sweeps: seq<Sweep>, clock: real, every: real, now: real)
    requires c.Valid() && Legal(c, true, Empty, es, gap) && SweepsOk(c, es, gap, sweeps, clock)
    requires Exec(c, true, Empty, es, gap).now <= clock <= now && Punctual(sweeps, every, now)
    ensures var table, seen := Exec(c, true, Empty, es, gap).table, Callers(es, now - (c.idle + every));
            table.Keys <= seen && |table| <= |seen|
  {
    hide Legal, Exec, SweepsOk, Punctual, Regular, Callers;
    ClockAt(c, es, gap);
    PunctualSweeps(c, es, gap, sweeps, clock, every, now);
    assert es[..|es|] == es;
    TableBound(c, es, gap, sweeps, every, |es|, now);
  }

  lemma CompleteGrows(c: Config, es: seq<Event>, e: Event, gap: real, wider: real, w: Sweep)
    requires Legal(c, true, Empty, es, gap) && Legal(c, true, Empty, es + [e], wider) && gap <= wider
    requires Complete(c, es, gap, w) && w.start <= e.t
    ensures Complete(c, es + [e], wider, w)
  {
    assert (es + [e])[..w.from] == es[..w.from] && (es + [e])[w.from..w.to] == es[w.from..w.to];
    PrefixLegal(c, es, gap, w.from);
    WiderGap(c, true, Empty, es[..w.from], gap, wider);
  }

  lemma SweepsGrow(c: Config, es: seq<Event>, e: Event, gap: real, wider: real, sweeps: seq<Sweep>, clock: real)
    requires Legal(c, true, Empty, es, gap) && Legal(c, true, Empty, es + [e], wider) && gap <= wider
    requires SweepsOk(c, es, gap, sweeps, clock) && clock <= e.t
    ensures SweepsOk(c, es + [e], wider, sweeps, e.t)
  {
    hide Legal, Complete;
    forall m | 0 <= m < |sweeps| {
      CompleteGrows(c, es, e, gap, wider, sweeps[m]);
    }
  }

  lemma OneMoreSweep(c: Config, es: seq<Event>, gap: real, sweeps: seq<Sweep>, clock: real, later: real, w: Sweep)
    requires Legal(c, true, Empty, es, gap) && Complete(c, es, gap, w)
    requires SweepsOk(c, es, gap, sweeps, clock) && clock <= later && w.start <= later
    ensures SweepsOk(c, es, gap, sweeps + [w], later)
  {
    hide Legal, Complete;
  }

  /** The sweeps started at most `every` apart, and at time `now` the next is not overdue. */
  ghost predicate Punctual(sweeps: seq<Sweep>, every: real, now: real) {
    Due(sweeps, 0, now) <= every && forall m | 0 <= m < |sweeps| :: Due(sweeps, m + 1, now) <= sweeps[m].start + every
  }

  lemma DoneAll(sweeps: seq<Sweep>, n: nat)
    requires forall m | 0 <= m < |sweeps| :: sweeps[m].to <= n
    ensures Done(sweeps, n) == |sweeps|
  {
  }

  lemma CheckedGrows(es: seq<Event>, ip: string, t: real, jp: string, start: real)
    requires t >= start && (jp == ip || Checks(es, jp, start))
    ensures Checks(es + [Evict(ip, t)], jp, start)
  {
    if jp == ip {
      assert Evict(ip, t) in es + [Evict(ip, t)];
    } else {
      ChecksMore(es, [Evict(ip, t)], jp, start);
    }
  }

  /** A run that goes on with checks of every entry has gone on with a complete sweep. */
  lemma CompleteSweep(c: Config, before: seq<Event>, es: seq<Event>, gap: real, start: real)
    requires before <= es && Legal(c, true, Empty, before, gap) && Legal(c, true, Empty, es, gap)
    requires Exec(c, true, Empty, before, gap).now <= start && (|before| < |es| ==> start <= es[|before|].t)
    requires forall ip | ip in Exec(c, true, Empty, before, gap).table :: Checks(es[|before|..], ip, start)
    ensures Complete(c, es, gap, Sweep(|before|, |es|, start))
  {
    ClockAt(c, before, gap);
    assert es[..|before|] == before && es[|before|..|es|] == es[|before|..];
  }
}
