/** `normalizeTags`: the loop that cleans the tags a model returned, against its declarative meaning. */
module Tags {
  import opened Wrappers
  import opened Text

  /** A tag as it is stored: trimmed, then lowercased. */
  function Canon(lower: char -> char, space: char -> bool, t: string): string {
    Lower(lower, Trim(space, t))
  }

  predicate Accepts(allowed: Option<set<string>>, t: string) {
    t != [] && (allowed.Some? ==> t in allowed.value)
  }

  /** The canonical forms of the acceptable tags, in order and with repetitions. */
  function Kept(lower: char -> char, space: char -> bool, allowed: Option<set<string>>,
                tags: seq<string>): seq<string> {
    if tags == [] then []
    else
      var rest, t := Kept(lower, space, allowed, tags[..|tags| - 1]), Canon(lower, space, tags[|tags| - 1]);
      if Accepts(allowed, t) then rest + [t] else rest
  }

  /** First occurrences only. */
  function Distinct<T(==)>(xs: seq<T>): seq<T> {
    if xs == [] then []
    else
      var rest, x := Distinct(xs[..|xs| - 1]), xs[|xs| - 1];
      if x in rest then rest else rest + [x]
  }

  function Take<T>(xs: seq<T>, n: nat): seq<T> {
    if |xs| <= n then xs else xs[..n]
  }

  /** The loop appends before it compares, so a limit of 0 still lets one tag through. */
  function Limit(max: nat): nat {
    if max == 0 then 1 else max
  }

  function Normalized(lower: char -> char, space: char -> bool, tags: seq<string>, max: nat,
                      allowed: Option<set<string>>): seq<string> {
    Take(Distinct(Kept(lower, space, allowed, tags)), Limit(max))
  }

  /** What one more tag adds to the distinct ones. */
  lemma OneMore(lower: char -> char, space: char -> bool, allowed: Option<set<string>>, tags: seq<string>, i: nat)
    requires i < |tags|
    ensures var had, t := Distinct(Kept(lower, space, allowed, tags[..i])), Canon(lower, space, tags[i]);
            Distinct(Kept(lower, space, allowed, tags[..i + 1]))
            == if Accepts(allowed, t) && t !in had then had + [t] else had
  {
    assert tags[..i + 1][..i] == tags[..i];
    var kept := Kept(lower, space, allowed, tags[..i]);
    assert (kept + [Canon(lower, space, tags[i])])[..|kept|] == kept;
  }

  method NormalizeTags(lower: char -> char, space: char -> bool, tags: seq<string>, max: nat,
                       allowed: Option<set<string>>)
    returns (result: seq<string>)
    ensures result == Normalized(lower, space, tags, max, allowed)
  {
    var seen: set<string> := {};
    result := [];
    for i := 0 to |tags|
      invariant result == Distinct(Kept(lower, space, allowed, tags[..i]))
      invariant |result| < Limit(max)
      invariant forall t :: t in seen <==> t in result
    {
      OneMore(lower, space, allowed, tags, i);
      var t := Canon(lower, space, tags[i]);
      if t == [] {
        continue;
      }
      if allowed.Some? && t !in allowed.value {
        continue;
      }
      if t in seen {
        continue;
      }
      seen := seen + {t};
      result := result + [t];
      if |result| >= max {
        Reached(lower, space, tags, max, allowed, i + 1);
        return;
      }
    }
    assert tags[..|tags|] == tags;
  }

  // ---------------------------------------------------------------------------------------
  // What the functions mean
  // ---------------------------------------------------------------------------------------

  /** Reading more tags only appends to the distinct ones found so far. */
  lemma {:induction false} KeptGrows(lower: char -> char, space: char -> bool, allowed: Option<set<string>>,
                                     tags: seq<string>, i: nat)
    requires i <= |tags|
    ensures Distinct(Kept(lower, space, allowed, tags[..i])) <= Distinct(Kept(lower, space, allowed, tags))
    decreases |tags|
  {
    if i < |tags| {
      var init := tags[..|tags| - 1];
      KeptGrows(lower, space, allowed, init, i);
      assert init[..i] == tags[..i];
      assert Distinct(Kept(lower, space, allowed, init)) <= Distinct(Kept(lower, space, allowed, tags));
    } else {
      assert tags[..i] == tags;
    }
  }

  lemma Reached(lower: char -> char, space: char -> bool, tags: seq<string>, max: nat, allowed: Option<set<string>>,
                i: nat)
    requires i <= |tags| && |Distinct(Kept(lower, space, allowed, tags[..i]))| == Limit(max)
    ensures Normalized(lower, space, tags, max, allowed) == Distinct(Kept(lower, space, allowed, tags[..i]))
  {
    KeptGrows(lower, space, allowed, tags, i);
  }

  ghost predicate NoRepeats<T>(xs: seq<T>) {
    forall i, j | 0 <= i < j < |xs| :: xs[i] != xs[j]
  }

  /** `Distinct` keeps one of everything. */
  lemma {:induction false} DistinctMeaning<T>(xs: seq<T>)
    ensures NoRepeats(Distinct(xs))
    ensures forall i | 0 <= i < |Distinct(xs)| :: Distinct(xs)[i] in xs
    ensures forall x | x in xs :: x in Distinct(xs)
  {
    if xs != [] {
      var init, x := xs[..|xs| - 1], xs[|xs| - 1];
      DistinctMeaning(init);
      assert forall y :: y in xs <==> y in init || y == x;
    }
  }

  /** The fixed point laws of the Unicode tables that idempotence rests on. */
  ghost predicate CaseLaws(lower: char -> char, space: char -> bool) {
    forall c :: lower(lower(c)) == lower(c) && (space(lower(c)) <==> space(c))
  }

  lemma CanonTwice(lower: char -> char, space: char -> bool, t: string)
    requires CaseLaws(lower, space)
    ensures Canon(lower, space, Canon(lower, space, t)) == Canon(lower, space, t)
  {
    var c := Canon(lower, space, t);
    TrimIff(space, t);
    TrimIff(space, c);
    assert Lower(lower, c) == c;
  }

  lemma {:induction false} KeptMeaning(lower: char -> char, space: char -> bool, allowed: Option<set<string>>,
                                       tags: seq<string>)
    ensures forall x | x in Kept(lower, space, allowed, tags) ::
              Accepts(allowed, x) && exists i :: 0 <= i < |tags| && x == Canon(lower, space, tags[i])
    ensures forall i | 0 <= i < |tags| && Accepts(allowed, Canon(lower, space, tags[i])) ::
              Canon(lower, space, tags[i]) in Kept(lower, space, allowed, tags)
  {
    if tags != [] {
      var init, last := tags[..|tags| - 1], tags[|tags| - 1];
      KeptMeaning(lower, space, allowed, init);
      forall x | x in Kept(lower, space, allowed, tags)
        ensures Accepts(allowed, x) && exists i :: 0 <= i < |tags| && x == Canon(lower, space, tags[i])
      {
        if x in Kept(lower, space, allowed, init) {
          var i :| 0 <= i < |init| && x == Canon(lower, space, init[i]);
          assert x == Canon(lower, space, tags[i]);
        } else {
          assert x == Canon(lower, space, last);
        }
      }
      forall i | 0 <= i < |tags| && Accepts(allowed, Canon(lower, space, tags[i]))
        ensures Canon(lower, space, tags[i]) in Kept(lower, space, allowed, tags)
      {
        if i < |init| { assert init[i] == tags[i]; }
      }
    }
  }

  lemma CanonMeaning(lower: char -> char, space: char -> bool, tags: seq<string>, max: nat,
                     allowed: Option<set<string>>)
    ensures var result := Normalized(lower, space, tags, max, allowed);
            && NoRepeats(result)
            && |result| <= Limit(max)
            && (forall x | x in result ::
                  Accepts(allowed, x) && exists i :: 0 <= i < |tags| && x == Canon(lower, space, tags[i]))
            && (|result| < Limit(max) ==>
                  forall i | 0 <= i < |tags| && Accepts(allowed, Canon(lower, space, tags[i])) ::
                    Canon(lower, space, tags[i]) in result)
  {
    var kept := Kept(lower, space, allowed, tags);
    KeptMeaning(lower, space, allowed, tags);
    DistinctMeaning(kept);
    assert forall x | x in Normalized(lower, space, tags, max, allowed) :: x in Distinct(kept);
  }

  /** `x` is `t` without the white space around it, in lower case. */
  ghost predicate Cleans(lower: char -> char, space: char -> bool, t: string, x: string) {
    exists a, m, b :: Pads(space, t, a, m, b) && IsLower(lower, m, x)
  }

  lemma CleansIff(lower: char -> char, space: char -> bool, t: string, x: string)
    ensures Cleans(lower, space, t, x) <==> x == Canon(lower, space, t)
  {
    var a, b := TrimPads(space, t);
    assert IsLower(lower, Trim(space, t), Canon(lower, space, t));
    if Cleans(lower, space, t, x) {
      var a', m, b' :| Pads(space, t, a', m, b') && IsLower(lower, m, x);
      TrimUnique(space, t, a', m, b');
    }
  }

  /** `x` is the clean form of some tag. */
  ghost predicate CleansOne(lower: char -> char, space: char -> bool, tags: seq<string>, x: string) {
    exists i :: 0 <= i < |tags| && Cleans(lower, space, tags[i], x)
  }

  lemma CleansOneIff(lower: char -> char, space: char -> bool, tags: seq<string>, x: string)
    ensures CleansOne(lower, space, tags, x)
       <==> exists i :: 0 <= i < |tags| && x == Canon(lower, space, tags[i])
  {
    forall i | 0 <= i < |tags|
      ensures Cleans(lower, space, tags[i], x) <==> x == Canon(lower, space, tags[i])
    {
      CleansIff(lower, space, tags[i], x);
    }
  }

  /** The result: no repeats, and at most the limit, or one tag if that is 0.  Each is the clean form of some input
      tag, not empty, and in the vocabulary if there is one; and nothing is left out unless the limit was reached. */
  lemma NormalizedMeaning(lower: char -> char, space: char -> bool, tags: seq<string>, max: nat,
                          allowed: Option<set<string>>)
    ensures var result := Normalized(lower, space, tags, max, allowed);
            && NoRepeats(result)
            && |result| <= (if max == 0 then 1 else max)
            && (forall x | x in result ::
                  x != "" && x in allowed.GetOr({x}) && CleansOne(lower, space, tags, x))
            && (|result| < (if max == 0 then 1 else max) ==>
                  forall x | CleansOne(lower, space, tags, x) && x != "" && x in allowed.GetOr({x}) :: x in result)
  {
    CanonMeaning(lower, space, tags, max, allowed);
    forall x
      ensures CleansOne(lower, space, tags, x)
         <==> exists i :: 0 <= i < |tags| && x == Canon(lower, space, tags[i])
    {
      CleansOneIff(lower, space, tags, x);
    }
  }

  /** Every tag in the result is in lower case and without white space around it. */
  lemma NormalizedForm(lower: char -> char, space: char -> bool, tags: seq<string>, max: nat,
                       allowed: Option<set<string>>, x: string)
    requires CaseLaws(lower, space) && x in Normalized(lower, space, tags, max, allowed)
    ensures Trimmed(space, x) && forall c | c in x :: lower(c) == c
  {
    CanonMeaning(lower, space, tags, max, allowed);
    var i :| 0 <= i < |tags| && x == Canon(lower, space, tags[i]);
    TrimIff(space, tags[i]);
  }

  /** Case does not matter, nor does white space around a tag. */
  ghost predicate SameTag(lower: char -> char, space: char -> bool, s: string, t: string) {
    exists a, m, b :: SameLetters(lower, s, m) && t == a + m + b && AllCut(space, a) && AllCut(space, b)
  }

  lemma SameLettersTrim(lower: char -> char, space: char -> bool, s: string, t: string)
    requires CaseLaws(lower, space) && SameLetters(lower, s, t)
    ensures SameLetters(lower, Trim(space, s), Trim(space, t))
  {
    var a, b := TrimPads(space, s);
    var i, j := |a|, |a| + |Trim(space, s)|;
    assert s[..i] == a && s[i..j] == Trim(space, s) && s[j..] == b;
    assert forall k | 0 <= k < |s| :: space(s[k]) <==> space(t[k]) by {
      forall k | 0 <= k < |s|
        ensures space(s[k]) <==> space(t[k])
      {
        assert space(lower(s[k])) <==> space(lower(t[k]));
      }
    }
    assert t == t[..i] + t[i..j] + t[j..];
    assert AllCut(space, t[..i]) && Trimmed(space, t[i..j]);
    assert forall k | 0 <= k < |b| :: b[k] == s[j + k];
    TrimUnique(space, t, t[..i], t[i..j], t[j..]);
  }

  lemma SameCanon(lower: char -> char, space: char -> bool, s: string, t: string)
    requires CaseLaws(lower, space) && SameTag(lower, space, s, t)
    ensures Canon(lower, space, s) == Canon(lower, space, t)
  {
    var a, m, b :| SameLetters(lower, s, m) && t == a + m + b && AllCut(space, a) && AllCut(space, b);
    SameLettersTrim(lower, space, s, m);
    TrimPadded(space, a, m, b);
    SameLower(lower, Trim(space, s), Trim(space, t));
  }

  lemma TrimPadded(space: char -> bool, a: string, m: string, b: string)
    requires AllCut(space, a) && AllCut(space, b)
    ensures Trim(space, a + m + b) == Trim(space, m)
  {
    hide Trim;
    var c, d := TrimPads(space, m);
    var core := Trim(space, m);
    Regroup(a, c, core, d, b);
    TrimUnique(space, a + m + b, a + c, core, d + b);
  }

  lemma Regroup(a: string, c: string, core: string, d: string, b: string)
    ensures a + (c + core + d) + b == (a + c) + core + (d + b)
  {
  }

  lemma {:induction false} SameKept(lower: char -> char, space: char -> bool, allowed: Option<set<string>>,
                                    xs: seq<string>, ys: seq<string>)
    requires CaseLaws(lower, space) && |xs| == |ys|
    requires forall i | 0 <= i < |xs| :: SameTag(lower, space, xs[i], ys[i])
    ensures Kept(lower, space, allowed, xs) == Kept(lower, space, allowed, ys)
  {
    if xs != [] {
      SameCanon(lower, space, xs[|xs| - 1], ys[|ys| - 1]);
      SameKept(lower, space, allowed, xs[..|xs| - 1], ys[..|ys| - 1]);
    }
  }

  /** Tags that differ only in case, or in white space around them, are normalized alike. */
  lemma NormalizedAlike(lower: char -> char, space: char -> bool, xs: seq<string>, ys: seq<string>, max: nat,
                        allowed: Option<set<string>>)
    requires CaseLaws(lower, space) && |xs| == |ys|
    requires forall i | 0 <= i < |xs| :: SameTag(lower, space, xs[i], ys[i])
    ensures Normalized(lower, space, xs, max, allowed) == Normalized(lower, space, ys, max, allowed)
  {
    SameKept(lower, space, allowed, xs, ys);
  }

  /** The limit is kept exactly when it is positive or nothing is acceptable: a limit of 0 lets one tag through. */
  lemma LimitKeptIff(lower: char -> char, space: char -> bool, tags: seq<string>, max: nat,
                     allowed: Option<set<string>>)
    ensures |Normalized(lower, space, tags, max, allowed)| <= max
       <==> max > 0 || forall x | CleansOne(lower, space, tags, x) :: x == "" || x !in allowed.GetOr({x})
  {
    NormalizedMeaning(lower, space, tags, max, allowed);
    var result := Normalized(lower, space, tags, max, allowed);
    if max == 0 && result != [] {
      assert result[0] in result;
    }
  }

  /** For example "a". */
  lemma ZeroLetsOneThrough()
    ensures Normalized(c => c, c => false, ["a"], 0, None) == ["a"]
  {
    var lower, space := (c: char) => c, (c: char) => false;
    assert TrimLeft(space, "a") == "a" && TrimRight(space, "a") == "a";
    assert Lower(lower, "a") == "a";
    assert ["a"][..0] == [];
    OneMore(lower, space, None, ["a"], 0);
  }

  lemma CanonOrder(lower: char -> char, space: char -> bool, tags: seq<string>, max: nat,
                   allowed: Option<set<string>>, i: nat, k: nat)
    requires i < |Normalized(lower, space, tags, max, allowed)| && k < |tags|
    requires Accepts(allowed, Canon(lower, space, tags[k]))
    requires Canon(lower, space, tags[k]) !in Normalized(lower, space, tags, max, allowed)[..i + 1]
    ensures exists j :: 0 <= j < k && Canon(lower, space, tags[j]) == Normalized(lower, space, tags, max, allowed)[i]
  {
    KeptGrows(lower, space, allowed, tags, k);
    KeptGrows(lower, space, allowed, tags, k + 1);
    OneMore(lower, space, allowed, tags, k);
    var had := Distinct(Kept(lower, space, allowed, tags[..k]));
    FoundEarlier(Distinct(Kept(lower, space, allowed, tags)), had, Canon(lower, space, tags[k]),
                 Normalized(lower, space, tags, max, allowed), i);
    DistinctMeaning(Kept(lower, space, allowed, tags[..k]));
    KeptMeaning(lower, space, allowed, tags[..k]);
  }

  /** The order: `result[i]` comes from a tag ahead of every acceptable one that is not `result[0..i]`, so the
      result lists the first of the distinct tags, in the order in which they first occur. */
  lemma NormalizedOrder(lower: char -> char, space: char -> bool, tags: seq<string>, max: nat,
                        allowed: Option<set<string>>, i: nat, k: nat, x: string)
    requires i < |Normalized(lower, space, tags, max, allowed)| && k < |tags| && Cleans(lower, space, tags[k], x)
    requires x != "" && x in allowed.GetOr({x}) && x !in Normalized(lower, space, tags, max, allowed)[..i + 1]
    ensures CleansOne(lower, space, tags[..k], Normalized(lower, space, tags, max, allowed)[i])
  {
    var y := Normalized(lower, space, tags, max, allowed)[i];
    CleansIff(lower, space, tags[k], x);
    CanonOrder(lower, space, tags, max, allowed, i, k);
    var j :| 0 <= j < k && Canon(lower, space, tags[j]) == y;
    CleansIff(lower, space, tags[j], y);
    assert tags[..k][j] == tags[j];
  }

  lemma FoundEarlier<T>(all: seq<T>, had: seq<T>, t: T, result: seq<T>, i: nat)
    requires had <= all && (t in had || had + [t] <= all)
    requires result <= all && i < |result| && t !in result[..i + 1]
    ensures i < |had| && had[i] == result[i]
  {
    var next := if t in had then had else had + [t];
    assert t in next && next <= all;
    var shown := result[..i + 1];
    assert shown <= all && t !in shown;
    assert !(next <= shown);
  }

  lemma {:induction false} FixedKept(lower: char -> char, space: char -> bool, allowed: Option<set<string>>,
                                     xs: seq<string>)
    requires forall x | x in xs :: Accepts(allowed, x) && Canon(lower, space, x) == x
    ensures Kept(lower, space, allowed, xs) == xs
  {
    if xs != [] {
      FixedKept(lower, space, allowed, xs[..|xs| - 1]);
      assert xs[|xs| - 1] in xs;
    }
  }

  lemma {:induction false} FixedDistinct<T>(xs: seq<T>)
    requires NoRepeats(xs)
    ensures Distinct(xs) == xs
  {
    if xs != [] {
      FixedDistinct(xs[..|xs| - 1]);
    }
  }

  /** Normalizing again changes nothing. */
  lemma NormalizedTwice(lower: char -> char, space: char -> bool, tags: seq<string>, max: nat,
                        allowed: Option<set<string>>)
    requires CaseLaws(lower, space)
    ensures var result := Normalized(lower, space, tags, max, allowed);
            Normalized(lower, space, result, max, allowed) == result
  {
    var result := Normalized(lower, space, tags, max, allowed);
    CanonMeaning(lower, space, tags, max, allowed);
    forall x | x in result
      ensures Canon(lower, space, x) == x
    {
      var i :| 0 <= i < |tags| && x == Canon(lower, space, tags[i]);
      CanonTwice(lower, space, tags[i]);
    }
    FixedKept(lower, space, allowed, result);
    FixedDistinct(result);
  }
}
