/** Company slugs: `slugify` against the joining of the maximal alphanumeric runs. */
module Slugs {
  import opened Text

  predicate Alnum(c: char) {
    'a' <= c <= 'z' || '0' <= c <= '9'
  }

  function SkipOther(s: string): string {
    if s != [] && !Alnum(s[0]) then SkipOther(s[1..]) else s
  }

  /** Every maximal run of other characters becomes one hyphen. */
  function Collapse(s: string): string
    decreases |s|
  {
    if s == [] then []
    else if Alnum(s[0]) then [s[0]] + Collapse(s[1..])
    else "-" + Collapse(Skipped(s))
  }

  function Skipped(s: string): (r: string)
    requires s != [] && !Alnum(s[0])
    ensures |r| < |s|
  {
    SkipShorter(s[1..]);
    SkipOther(s)
  }

  lemma SkipShorter(s: string)
    ensures |SkipOther(s)| <= |s|
  {
  }

  function Slugify(lower: char -> char, name: string): string {
    Trim(c => c == '-', Collapse(Lower(lower, name)))
  }

  // ---------------------------------------------------------------------------------------
  // The runs of a name
  // ---------------------------------------------------------------------------------------

  /** The length of the longest alphanumeric prefix. */
  function RunLength(s: string): (n: nat)
    ensures n <= |s| && (forall i | 0 <= i < n :: Alnum(s[i])) && (n < |s| ==> !Alnum(s[n]))
  {
    if s != [] && Alnum(s[0]) then 1 + RunLength(s[1..]) else 0
  }

  /** The maximal alphanumeric runs of `s`, in order. */
  function Runs(s: string): seq<string>
    decreases |s|
  {
    if s == [] then []
    else if Alnum(s[0]) then [s[..RunLength(s)]] + Runs(s[RunLength(s)..])
    else Runs(s[1..])
  }

  function Join(parts: seq<string>): string {
    if parts == [] then []
    else if |parts| == 1 then parts[0]
    else parts[0] + "-" + Join(parts[1..])
  }

  ghost predicate IsRun(s: string) {
    s != [] && forall i | 0 <= i < |s| :: Alnum(s[i])
  }

  lemma {:induction false} RunsAreRuns(s: string)
    ensures forall i | 0 <= i < |Runs(s)| :: IsRun(Runs(s)[i])
    decreases |s|
  {
    if s != [] {
      if Alnum(s[0]) {
        RunsAreRuns(s[RunLength(s)..]);
      } else {
        RunsAreRuns(s[1..]);
      }
    }
  }

  lemma {:induction false} CollapseRun(s: string, n: nat)
    requires n <= RunLength(s)
    ensures Collapse(s) == s[..n] + Collapse(s[n..])
    decreases n
  {
    if n > 0 {
      var rest := s[1..];
      CollapseRun(rest, n - 1);
      assert rest[n - 1..] == s[n..];
      Reassociate(s, n, Collapse(s[n..]));
    }
  }

  lemma Reassociate(s: string, n: nat, t: string)
    requires 0 < n <= |s|
    ensures [s[0]] + (s[1..][..n - 1] + t) == s[..n] + t
  {
  }

  lemma {:induction false} SkipKeepsRuns(s: string)
    ensures Runs(SkipOther(s)) == Runs(s)
    ensures SkipOther(s) != [] ==> Alnum(SkipOther(s)[0])
  {
    if s != [] && !Alnum(s[0]) {
      SkipKeepsRuns(s[1..]);
    }
  }

  /** The hyphen `Collapse` puts in front of the first run. */
  function Lead(s: string): string {
    if s != [] && !Alnum(s[0]) then "-" else ""
  }

  /** The hyphen `Collapse` leaves after the last run. */
  function Tail(s: string): string {
    if s != [] && !Alnum(s[|s| - 1]) then "-" else ""
  }

  lemma {:induction false} SkipKeepsTail(s: string)
    ensures SkipOther(s) != [] ==> s != [] && SkipOther(s)[|SkipOther(s)| - 1] == s[|s| - 1]
    ensures SkipOther(s) == [] ==> Runs(s) == []
  {
    if s != [] && !Alnum(s[0]) {
      SkipKeepsTail(s[1..]);
    }
  }

  lemma HeadRun(s: string, t: string)
    requires s != [] && Alnum(s[0]) && t == s[RunLength(s)..]
    ensures Runs(s) == [s[..RunLength(s)]] + Runs(t)
    ensures Join(Runs(s)) == if Runs(t) == [] then s[..RunLength(s)] else s[..RunLength(s)] + "-" + Join(Runs(t))
  {
    assert Runs(s)[1..] == Runs(t);
  }

  ghost predicate Collapses(s: string) {
    Collapse(s) == if Runs(s) == [] then Lead(s) else Lead(s) + Join(Runs(s)) + Tail(s)
  }

  lemma HeadTail(s: string, t: string)
    requires s != [] && Alnum(s[0]) && t == s[RunLength(s)..]
    ensures Tail(s) == if Runs(t) == [] then Lead(t) else Tail(t)
    ensures t != [] ==> Lead(t) == "-"
  {
    NoRuns(t);
    if t != [] {
      assert t[0] == s[RunLength(s)] && t[|t| - 1] == s[|s| - 1];
    }
  }

  lemma CollapseHead(s: string, t: string)
    requires s != [] && Alnum(s[0]) && t == s[RunLength(s)..] && Collapses(t)
    ensures Collapses(s)
  {
    CollapseRun(s, RunLength(s));
    HeadRun(s, t);
    HeadTail(s, t);
    Glue(s[..RunLength(s)], Runs(t) == [], Lead(t), Join(Runs(t)), Tail(t));
  }

  lemma Glue(h: string, alone: bool, lead: string, j: string, tail: string)
    requires !alone ==> lead == "-"
    ensures h + (if alone then lead else lead + j + tail)
         == "" + (if alone then h else h + "-" + j) + (if alone then lead else tail)
  {
  }

  /** Collapsing yields the joined runs, with at most one hyphen before and after. */
  lemma {:induction false} CollapseJoins(s: string)
    ensures Collapses(s)
    decreases |s|
  {
    if s != [] {
      if Alnum(s[0]) {
        CollapseJoins(s[RunLength(s)..]);
        CollapseHead(s, s[RunLength(s)..]);
      } else {
        SkipKeepsRuns(s);
        SkipKeepsTail(s);
        CollapseJoins(Skipped(s));
      }
    }
  }

  lemma {:induction false} NoRuns(s: string)
    ensures Runs(s) == [] ==> forall i | 0 <= i < |s| :: !Alnum(s[i])
    decreases |s|
  {
    if s != [] && !Alnum(s[0]) {
      NoRuns(s[1..]);
    }
  }

  // ---------------------------------------------------------------------------------------
  // Slugs
  // ---------------------------------------------------------------------------------------

  /** Lowercase alphanumerics in groups separated by single hyphens. */
  ghost predicate IsSlug(s: string) {
    && (forall i | 0 <= i < |s| :: 'a' <= s[i] <= 'z' || '0' <= s[i] <= '9' || s[i] == '-')
    && (s != [] ==> s[0] != '-' && s[|s| - 1] != '-')
    && (forall i | 0 <= i < |s| - 1 :: s[i] != '-' || s[i + 1] != '-')
  }

  lemma {:induction false} JoinIsSlug(parts: seq<string>)
    requires forall i | 0 <= i < |parts| :: IsRun(parts[i])
    ensures IsSlug(Join(parts)) && (parts != [] ==> Join(parts) != [])
  {
    if |parts| == 1 {
      assert IsRun(parts[0]);
    } else if |parts| > 1 {
      assert IsRun(parts[0]);
      JoinIsSlug(parts[1..]);
      SlugsJoin(parts[0], Join(parts[1..]));
    }
  }

  lemma SlugsJoin(a: string, b: string)
    requires IsSlug(a) && IsSlug(b) && a != [] && b != []
    ensures IsSlug(a + "-" + b)
  {
    var s := a + "-" + b;
    assert forall i | 0 <= i < |a| :: s[i] == a[i];
    assert s[|a|] == '-';
    assert forall i | 0 <= i < |b| :: s[|a| + 1 + i] == b[i];
    assert s[|s| - 1] == b[|b| - 1];
    forall i | 0 <= i < |s| - 1
      ensures s[i] != '-' || s[i + 1] != '-'
    {
      if i > |a| { assert s[i] == b[i - |a| - 1] && s[i + 1] == b[i - |a|]; }
    }
  }

  lemma {:induction false} TrimLead(lead: string, s: string)
    requires (lead == "" || lead == "-") && (s != [] ==> s[0] != '-')
    ensures TrimLeft(c => c == '-', lead + s) == s
  {
    if lead == "-" {
      assert (lead + s)[1..] == s;
    } else {
      assert lead + s == s;
    }
  }

  lemma {:induction false} TrimTail(s: string, tail: string)
    requires (tail == "" || tail == "-") && (s != [] ==> s[|s| - 1] != '-')
    ensures TrimRight(c => c == '-', s + tail) == s
  {
    if tail == "-" {
      assert (s + tail)[..|s|] == s;
    } else {
      assert s + tail == s;
    }
  }

  lemma JoinsRuns(lower: char -> char, name: string)
    ensures Slugify(lower, name) == Join(Runs(Lower(lower, name)))
    ensures IsSlug(Slugify(lower, name))
  {
    var s := Lower(lower, name);
    var tail := Tail(s);
    CollapseJoins(s);
    RunsAreRuns(s);
    JoinIsSlug(Runs(s));
    if Runs(s) == [] {
      TrimLead(Lead(s), "");
      assert Lead(s) + "" == Lead(s);
    } else {
      var j := Join(Runs(s));
      assert Lead(s) + j + tail == Lead(s) + (j + tail);
      TrimLead(Lead(s), j + tail);
      TrimTail(j, tail);
    }
  }

  /** A slug is the maximal alphanumeric runs of the name in lower case, joined by single hyphens. */
  lemma SlugifyJoinsRuns(lower: char -> char, name: string, lowered: string)
    requires IsLower(lower, name, lowered)
    ensures Slugify(lower, name) == Join(Runs(lowered))
    ensures IsSlug(Slugify(lower, name))
  {
    JoinsRuns(lower, name);
    assert lowered == Lower(lower, name);
  }

  /** Names that differ in case only have the same slug. */
  lemma SlugifyIgnoresCase(lower: char -> char, s: string, t: string)
    requires SameLetters(lower, s, t)
    ensures Slugify(lower, s) == Slugify(lower, t)
  {
    SameLower(lower, s, t);
  }

  lemma {:induction false} CollapseSlug(s: string)
    requires forall i | 0 <= i < |s| :: Alnum(s[i]) || s[i] == '-'
    requires forall i | 0 <= i < |s| - 1 :: s[i] != '-' || s[i + 1] != '-'
    ensures Collapse(s) == s
    decreases |s|
  {
    if s != [] {
      CollapseSlug(s[1..]);
      assert [s[0]] + s[1..] == s;
      if !Alnum(s[0]) {
        assert SkipOther(s) == SkipOther(s[1..]);
        if |s| > 1 {
          assert s[1] != '-' && Alnum(s[1]);
        }
      }
    }
  }

  /** `lower` leaves the characters of slugs alone. */
  ghost predicate FixesSlugs(lower: char -> char) {
    forall c | Alnum(c) || c == '-' :: lower(c) == c
  }

  /** The fixed points of `slugify` are exactly the slugs; in particular it is idempotent. */
  lemma SlugifyFixesSlugs(lower: char -> char, s: string)
    requires FixesSlugs(lower)
    ensures Slugify(lower, s) == s <==> IsSlug(s)
    ensures Slugify(lower, Slugify(lower, s)) == Slugify(lower, s)
  {
    FixedIfSlug(lower, s);
    JoinsRuns(lower, s);
    FixedIfSlug(lower, Slugify(lower, s));
  }

  lemma FixedIfSlug(lower: char -> char, s: string)
    requires FixesSlugs(lower)
    ensures IsSlug(s) ==> Slugify(lower, s) == s
  {
    if IsSlug(s) {
      assert Lower(lower, s) == s;
      CollapseSlug(s);
      TrimIff(c => c == '-', s);
    }
  }

  // ---------------------------------------------------------------------------------------
  // The collision suffix
  // ---------------------------------------------------------------------------------------

  /** The first `n` hexadecimal characters of `(n + 1) / 2` random bytes. */
  function RandomSuffix(n: nat, bytes: seq<Byte>): (s: string)
    requires |bytes| == (n + 1) / 2
    ensures |s| == n && s <= Hex(bytes) && forall c | c in s :: c in HexDigits
  {
    Hex(bytes)[..n]
  }

  lemma SuffixIsSlug(n: nat, bytes: seq<Byte>)
    requires |bytes| == (n + 1) / 2
    ensures IsSlug(RandomSuffix(n, bytes))
  {
    var s := RandomSuffix(n, bytes);
    forall i | 0 <= i < |s|
      ensures Alnum(s[i])
    {
      assert s[i] == Hex(bytes)[i] && Hex(bytes)[i] in HexDigits;
    }
  }

  /** The retried slug of `createRegistration` is a fixed point of `slugify` exactly when the name has a
      letter or digit to keep and the suffix is not empty. */
  lemma SuffixedSlug(lower: char -> char, name: string, n: nat, bytes: seq<Byte>)
    requires FixesSlugs(lower) && |bytes| == (n + 1) / 2
    ensures var retried := Slugify(lower, name) + "-" + RandomSuffix(n, bytes);
            Slugify(lower, retried) == retried <==> Slugify(lower, name) != [] && n > 0
  {
    var slug, suffix := Slugify(lower, name), RandomSuffix(n, bytes);
    JoinsRuns(lower, name);
    SuffixIsSlug(n, bytes);
    SlugifyFixesSlugs(lower, slug + "-" + suffix);
    if slug != [] && n > 0 {
      SlugsJoin(slug, suffix);
    } else if slug == [] {
      assert (slug + "-" + suffix)[0] == '-';
    } else {
      assert (slug + "-" + suffix)[|slug|] == '-';
    }
  }
}
