/** When a request must get through: the window bound from both sides.

    The bound `b + r*T` says what the limiter may allow at most.  Here it is shown to be all that the limiter looks
    at: a request is allowed exactly when one more keeps the bound in every interval that ends now. */
module RateExact {
  import opened RateLimit

  /** One more request at the moment of answer number `n` keeps its IP within `b + r*T` in every interval of length
      T that ends at that moment. */
  ghost predicate Affordable(r: real, b: nat, answers: seq<Answer>, n: nat)
    requires n < |answers|
  {
    var ip, t := answers[n].ip, answers[n].t;
    forall from | 0.0 <= from <= t :: Allowed(answers[..n], ip, from, t) as real + 1.0 <= b as real + r * (t - from)
  }

  // ---------------------------------------------------------------------------------------
  // A denied request was one too many
  // ---------------------------------------------------------------------------------------

  /** The bucket was full at time `from`, and what it has lost since was spent on requests that were allowed. */
  ghost predicate FullAt(c: Config, k: Bucket, had: seq<Answer>, ip: string, now: real, from: real) {
    0.0 <= from <= k.last && k.credit + Cost(c, had, ip, from, now) >= c.cap + (k.last - from)
  }

  ghost predicate Spent(c: Config, k: Bucket, had: seq<Answer>, ip: string, now: real) {
    exists from :: FullAt(c, k, had, ip, now, from)
  }

  /** So it is with every limiter that never forgets, after the answers `had`. */
  ghost predicate AllSpent(c: Config, p: Limiters, had: seq<Answer>)
    requires WellFormed(c, p)
  {
    p.now >= 0.0 && forall ip | ip in p.table :: Spent(c, p.heap[p.table[ip].ref], had, ip, p.now)
  }

  lemma {:induction false} CostGrows(c: Config, x: seq<Answer>, y: seq<Answer>, ip: string, from: real, to: real,
                                     later: real)
    requires c.every > 0.0 && to <= later
    ensures 0.0 <= Cost(c, x, ip, from, to) <= Cost(c, x + y, ip, from, later)
  {
    if x != [] {
      assert (x + y)[1..] == x[1..] + y;
      CostGrows(c, x[1..], y, ip, from, to, later);
    } else if y != [] {
      assert x + y == y && x + y[1..] == y[1..];
      CostGrows(c, x, y[1..], ip, from, to, later);
    }
  }

  lemma SpentLater(c: Config, k: Bucket, had: seq<Answer>, more: seq<Answer>, ip: string, now: real, later: real)
    requires c.every > 0.0 && now <= later && Spent(c, k, had, ip, now)
    ensures Spent(c, k, had + more, ip, later)
  {
    var from :| FullAt(c, k, had, ip, now, from);
    CostGrows(c, had, more, ip, from, now, later);
    assert FullAt(c, k, had + more, ip, later, from);
  }

  lemma FreshSpent(c: Config, had: seq<Answer>, ip: string, t: real)
    requires c.every > 0.0 && t >= 0.0
    ensures Spent(c, Bucket(c.cap, t), had, ip, t)
  {
    CostGrows(c, had, [], ip, t, t, t);
    assert FullAt(c, Bucket(c.cap, t), had, ip, t, t);
  }

  lemma OneCost(c: Config, had: seq<Answer>, ip: string, t: real, from: real)
    requires from <= t
    ensures Cost(c, had + [Answer(ip, t, true)], ip, from, t) == Cost(c, had, ip, from, t) + c.every
  {
    CostConcat(c, had, [Answer(ip, t, true)], ip, from, t);
    assert Cost(c, [Answer(ip, t, true)][1..], ip, from, t) == 0.0;
  }

  /** Drawing a token keeps it so; the bucket was full just now if it had refilled, and otherwise when it was full
      before. */
  lemma DrawnSpent(c: Config, k: Bucket, had: seq<Answer>, ip: string, now: real, t: real)
    requires c.Valid() && k.last <= now <= t && t >= 0.0 && Spent(c, k, had, ip, now)
    ensures Spent(c, Drawn(c, k, t), had + [Answer(ip, t, Permits(c, k, t))], ip, t)
  {
    SpentLater(c, k, had, [Answer(ip, t, Permits(c, k, t))], ip, now, t);
    if Permits(c, k, t) {
      SpentLater(c, k, had, [], ip, now, t);
      assert had + [] == had;
      var from :| FullAt(c, k, had, ip, t, from);
      CostGrows(c, had, [], ip, t, t, t);
      OneCost(c, had, ip, t, from);
      OneCost(c, had, ip, t, t);
      assert FullAt(c, Drawn(c, k, t), had + [Answer(ip, t, true)], ip, t, if Full(c, k, t) then t else from);
    }
  }

  lemma NextSpent(c: Config, p: Limiters, had: seq<Answer>, e: Event, gap: real, ip: string)
    requires c.Valid() && gap >= 0.0 && Steady(c, p, gap) && Enabled(p, e, gap) && AllSpent(c, p, had)
    requires Steady(c, Next(c, false, p, e), gap) && ip in Next(c, false, p, e).table
    ensures var p' := Next(c, false, p, e); Spent(c, p'.heap[p'.table[ip].ref], had + Reply(c, p, e), ip, e.t)
  {
    if ip in p.table {
      var k := p.heap[p.table[ip].ref];
      assert BucketOk(c, k, p.now);
      if e.Allow? && p.held[e.req].ip == ip {
        DrawnSpent(c, k, had, ip, p.now, e.t);
      } else {
        assert e.Allow? ==> p.table[p.held[e.req].ip].ref != p.table[ip].ref;
        SpentLater(c, k, had, Reply(c, p, e), ip, p.now, e.t);
      }
    } else {
      assert had + [] == had;
      FreshSpent(c, had, ip, e.t);
    }
  }

  /** Answer number `n` is a denial, and one more request would have cost more than the bucket had gained. */
  ghost predicate TooMany(c: Config, answers: seq<Answer>, n: nat)
    requires n < |answers|
  {
    var ip, t := answers[n].ip, answers[n].t;
    exists from :: 0.0 <= from <= t && Cost(c, answers[..n], ip, from, t) + c.every > c.cap + (t - from)
  }

  lemma DeniedTooMany(c: Config, k: Bucket, had: seq<Answer>, rest: seq<Answer>, ip: string, now: real, t: real)
    requires c.Valid() && k.last <= now <= t && t >= 0.0 && Spent(c, k, had, ip, now) && !Permits(c, k, t)
    ensures TooMany(c, had + ([Answer(ip, t, false)] + rest), |had|)
  {
    var from :| FullAt(c, k, had, ip, now, from);
    CostGrows(c, had, [], ip, from, now, t);
    CostGrows(c, had, [], ip, t, t, t);
    assert had + [] == had;
    var answers := had + ([Answer(ip, t, false)] + rest);
    assert answers[..|had|] == had && answers[|had|] == Answer(ip, t, false);
    var start := if Full(c, k, t) then t else from;
    assert Cost(c, answers[..|had|], ip, start, t) + c.every > c.cap + (t - start);
  }

  lemma {:induction false} DenialsFrom(c: Config, p: Limiters, had: seq<Answer>, es: seq<Event>, gap: real, n: nat)
    requires c.Valid() && gap >= 0.0 && Steady(c, p, gap) && AllSpent(c, p, had) && Legal(c, false, p, es, gap)
    requires var all := had + Answers(c, false, p, es, gap); |had| <= n < |all| && !all[n].ok
    ensures TooMany(c, had + Answers(c, false, p, es, gap), n)
    decreases |es|
  {
    hide TooMany, Spent, Permits, Drawn;
    var e, p' := es[0], Next(c, false, p, es[0]);
    var rest := Answers(c, false, p', es[1..], gap);
    NextSteady(c, p, e, gap);
    forall ip | ip in p'.table {
      NextSpent(c, p, had, e, gap, ip);
    }
    if e.Allow? && n == |had| {
      var h := p.held[e.req];
      assert BucketOk(c, p.heap[h.ref], p.now);
      DeniedTooMany(c, p.heap[h.ref], had, rest, h.ip, p.now, e.t);
    } else {
      Reassociate(had, Reply(c, p, e), rest);
      DenialsFrom(c, p', had + Reply(c, p, e), es[1..], gap, n);
    }
  }

  // ---------------------------------------------------------------------------------------
  // Exactly when a request is allowed
  // ---------------------------------------------------------------------------------------

  /** `n` tokens at rate `r` cost no more than a burst of `b` and a time `span` bring exactly when `n` is within
      `b + r*span`. */
  lemma ScaleIff(r: real, n: real, b: real, span: real)
    requires r > 0.0
    ensures n * (1.0 / r) <= b / r + span <==> n <= b + r * span
  {
    assert n == r * (n * (1.0 / r)) && b == r * (b / r);
    assert (b + r * span) - n == r * (b / r + span - n * (1.0 / r));
  }

  lemma CostIff(r: real, b: nat, idle: real, answers: seq<Answer>, ip: string, from: real, to: real)
    requires r > 0.0
    ensures var c := PerSecond(r, b, idle);
            Cost(c, answers, ip, from, to) + c.every <= c.cap + (to - from)
            <==> Allowed(answers, ip, from, to) as real + 1.0 <= b as real + r * (to - from)
  {
    hide Cost, Allowed, Worth;
    var c, n := PerSecond(r, b, idle), Allowed(answers, ip, from, to);
    CostCounts(c, answers, ip, from, to);
    WorthOf(c, n);
    assert n as real * c.every + c.every == (n as real + 1.0) * (1.0 / r);
    ScaleIff(r, n as real + 1.0, b as real, to - from);
  }

  lemma AllowedWithin(c: Config, answers: seq<Answer>, n: nat, from: real)
    requires c.every > 0.0 && n < |answers| && answers[n].ok && from <= answers[n].t
    ensures var ip, t := answers[n].ip, answers[n].t;
            Cost(c, answers[..n], ip, from, t) + c.every <= Cost(c, answers, ip, from, t)
  {
    var a := answers[n];
    assert answers == (answers[..n] + [a]) + answers[n + 1..];
    OneCost(c, answers[..n], a.ip, a.t, from);
    CostGrows(c, answers[..n] + [a], answers[n + 1..], a.ip, from, a.t, a.t);
  }

  /** The limiter that never forgets, over every run: a request is allowed if and only if one more keeps its IP
      within the bound in every interval that ends now.  So nothing is ever denied without need. */
  lemma AllowedIff(r: real, b: nat, idle: real, es: seq<Event>, gap: real, n: nat)
    requires r > 0.0 && idle >= 0.0 && gap >= 0.0 && Legal(PerSecond(r, b, idle), false, Empty, es, gap)
    requires n < |Answers(PerSecond(r, b, idle), false, Empty, es, gap)|
    ensures var answers := Answers(PerSecond(r, b, idle), false, Empty, es, gap);
            answers[n].ok <==> Affordable(r, b, answers, n)
  {
    var c := PerSecond(r, b, idle);
    var answers := Answers(c, false, Empty, es, gap);
    var ip, t := answers[n].ip, answers[n].t;
    PerSecondValid(r, b, idle);
    if answers[n].ok {
      forall from | 0.0 <= from <= t
        ensures Allowed(answers[..n], ip, from, t) as real + 1.0 <= b as real + r * (t - from)
      {
        WindowCost(c, false, es, gap, ip, from, t);
        AllowedWithin(c, answers, n, from);
        CostIff(r, b, idle, answers[..n], ip, from, t);
      }
    } else {
      assert [] + answers == answers;
      DenialsFrom(c, Empty, [], es, gap, n);
      var from :| 0.0 <= from <= t && Cost(c, answers[..n], ip, from, t) + c.every > c.cap + (t - from);
      CostIff(r, b, idle, answers[..n], ip, from, t);
    }
  }

  /** In every run of the evicting limiter a request is allowed exactly when one more keeps the bound. */
  ghost predicate Exact(r: real, b: nat, idle: real, gap: real)
    requires r > 0.0
  {
    forall es, n: nat | Legal(PerSecond(r, b, idle), true, Empty, es, gap)
                        && n < |Answers(PerSecond(r, b, idle), true, Empty, es, gap)| ::
      var answers := Answers(PerSecond(r, b, idle), true, Empty, es, gap);
      answers[n].ok <==> Affordable(r, b, answers, n)
  }

  /** In the order of their times, none of them before `start`. */
  ghost predicate InOrder(answers: seq<Answer>, start: real) {
    && (forall j | 0 <= j < |answers| :: start <= answers[j].t)
    && (forall i, j | 0 <= i < j < |answers| :: answers[i].t <= answers[j].t)
  }

  lemma OneBefore(first: seq<Answer>, rest: seq<Answer>, start: real, t: real)
    requires start <= t && |first| <= 1 && (forall a | a in first :: a.t == t) && InOrder(rest, t)
    ensures InOrder(first + rest, start)
  {
  }

  lemma {:induction false} AnswersInOrder(c: Config, s: Limiters, es: seq<Event>, gap: real)
    requires Legal(c, true, s, es, gap)
    ensures InOrder(Answers(c, true, s, es, gap), s.now)
    decreases |es|
  {
    hide InOrder;
    if es != [] {
      var s' := Next(c, true, s, es[0]);
      AnswersInOrder(c, s', es[1..], gap);
      OneBefore(Reply(c, s, es[0]), Answers(c, true, s', es[1..], gap), s.now, es[0].t);
    } else {
      NothingInOrder(s.now);
    }
  }

  lemma NothingInOrder(start: real)
    ensures InOrder([], start)
  {
  }

  lemma {:induction false} NoneAfter(answers: seq<Answer>, ip: string, from: real, t: real, to: real)
    requires t <= to && forall i | 0 <= i < |answers| :: answers[i].t <= t
    ensures Allowed(answers, ip, from, t) == Allowed(answers, ip, from, to)
  {
    if answers != [] {
      NoneAfter(answers[1..], ip, from, t, to);
    }
  }

  lemma AffordableAt(r: real, b: nat, a: seq<Answer>, n: nat, from: real, to: real)
    requires r > 0.0 && n < |a| && InOrder(a, 0.0) && Affordable(r, b, a, n) && 0.0 <= from <= a[n].t <= to
    ensures Allowed(a[..n], a[n].ip, from, to) as real + 1.0 <= b as real + r * (to - from)
  {
    NoneAfter(a[..n], a[n].ip, from, a[n].t, to);
    assert r * (to - from) - r * (a[n].t - from) == r * (to - a[n].t);
  }

  lemma OneAllowed(a: seq<Answer>, n: nat, ip: string, from: real, to: real)
    requires n < |a|
    ensures Allowed(a[..n + 1], ip, from, to)
         == Allowed(a[..n], ip, from, to) + if Counts(a[n], ip, from, to) then 1 else 0
  {
    assert a[..n + 1] == a[..n] + [a[n]];
    AllowedConcat(a[..n], [a[n]], ip, from, to);
    assert Allowed([a[n]][1..], ip, from, to) == 0;
  }

  /** Answers that are each within the bound keep it. */
  lemma {:induction false} AffordableBounds(r: real, b: nat, a: seq<Answer>, m: nat, ip: string, from: real, to: real)
    requires r > 0.0 && m <= |a| && 0.0 <= from <= to && InOrder(a, 0.0)
    requires forall n: nat | n < |a| && a[n].ok :: Affordable(r, b, a, n)
    ensures Allowed(a[..m], ip, from, to) as real <= b as real + r * (to - from)
  {
    hide Affordable, InOrder;
    if m == 0 {
      assert r * (to - from) >= 0.0;
    } else {
      AffordableBounds(r, b, a, m - 1, ip, from, to);
      OneAllowed(a, m - 1, ip, from, to);
      if Counts(a[m - 1], ip, from, to) {
        AffordableAt(r, b, a, m - 1, from, to);
      }
    }
  }

  lemma ExactBounds(r: real, b: nat, idle: real, gap: real)
    requires r > 0.0 && Exact(r, b, idle, gap)
    ensures Bounded(r, b, idle, gap)
  {
    hide Legal, Answers, Allowed, Affordable;
    forall es, ip, from, to | Legal(PerSecond(r, b, idle), true, Empty, es, gap) && 0.0 <= from <= to
      ensures Allowed(Answers(PerSecond(r, b, idle), true, Empty, es, gap), ip, from, to) as real
           <= b as real + r * (to - from)
    {
      var a := Answers(PerSecond(r, b, idle), true, Empty, es, gap);
      AnswersInOrder(PerSecond(r, b, idle), Empty, es, gap);
      assert forall n: nat | n < |a| && a[n].ok :: Affordable(r, b, a, n);
      AffordableBounds(r, b, a, |a|, ip, from, to);
      assert a[..|a|] == a;
    }
  }

  lemma RunExact(r: real, b: nat, idle: real, es: seq<Event>, gap: real, n: nat)
    requires r > 0.0 && idle >= 0.0 && gap >= 0.0 && (b == 0 || b as real / r <= idle - gap)
    requires Legal(PerSecond(r, b, idle), true, Empty, es, gap)
    requires n < |Answers(PerSecond(r, b, idle), true, Empty, es, gap)|
    ensures var answers := Answers(PerSecond(r, b, idle), true, Empty, es, gap);
            answers[n].ok <==> Affordable(r, b, answers, n)
  {
    var c := PerSecond(r, b, idle);
    hide Affordable;
    PerSecondValid(r, b, idle);
    InvisibleIff(r, b, idle, gap);
    LegalBothWays(c, Empty, Empty, es, gap);
    assert Answers(c, true, Empty, es, gap) == Answers(c, false, Empty, es, gap);
    AllowedIff(r, b, idle, es, gap, n);
  }

  /** Every run of the evicting limiter allows exactly the requests that keep the bound if and only if a bucket
      refills completely in the idle time that is left after the longest `get`-to-`Allow` gap (or never holds a
      token). */
  lemma ExactIff(r: real, b: nat, idle: real, gap: real)
    requires r > 0.0 && idle >= 0.0 && gap >= 0.0
    ensures Exact(r, b, idle, gap) <==> b == 0 || b as real / r <= idle - gap
  {
    if b == 0 || b as real / r <= idle - gap {
      forall es, n: nat | Legal(PerSecond(r, b, idle), true, Empty, es, gap)
                          && n < |Answers(PerSecond(r, b, idle), true, Empty, es, gap)|
        ensures var answers := Answers(PerSecond(r, b, idle), true, Empty, es, gap);
                answers[n].ok <==> Affordable(r, b, answers, n)
      {
        RunExact(r, b, idle, es, gap, n);
      }
    } else if Exact(r, b, idle, gap) {
      ExactBounds(r, b, idle, gap);
      WindowBoundIff(r, b, idle, gap);
    }
  }

  /** As configured: while no request waits longer than 564 s, a magic link is refused only to an IP that would get
      more than 3 of them, and one more every 12 s, since some earlier moment. */
  lemma MagicLinkExact(gap: real)
    requires gap >= 0.0
    ensures Exact(1.0 / 12.0, 3, 600.0, gap) <==> gap <= 564.0
  {
    ExactIff(1.0 / 12.0, 3, 600.0, gap);
  }
}
