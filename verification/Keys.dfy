/** Object keys of one upload request, and the file name recovered from a key. */
module Keys {
  import opened Text

  /** The file name extension: from the last dot of the last path element, or nothing. */
  function Ext(path: string): string {
    if path == [] || path[|path| - 1] == '/' then []
    else if path[|path| - 1] == '.' then "."
    else
      var e := Ext(path[..|path| - 1]);
      if e == [] then [] else e + [path[|path| - 1]]
  }

  /** An extension is empty or led by its only dot, and holds no slash. */
  lemma {:induction false} ExtShape(path: string)
    ensures var e := Ext(path); e != [] ==> e[0] == '.' && '/' !in e && (forall i | 1 <= i < |e| :: e[i] != '.')
  {
    if path != [] {
      ExtShape(path[..|path| - 1]);
    }
  }

  lemma {:induction false} ExtSuffix(path: string)
    ensures |Ext(path)| <= |path| && path[|path| - |Ext(path)|..] == Ext(path)
  {
    if path != [] {
      var init := path[..|path| - 1];
      ExtSuffix(init);
      DropSnoc(init, path[|path| - 1], |init| - |Ext(init)|);
      assert init + [path[|path| - 1]] == path;
    }
  }

  lemma DropSnoc(init: string, last: char, k: nat)
    requires k <= |init|
    ensures (init + [last])[k..] == init[k..] + [last]
  {
  }

  ghost predicate NoSlash(s: string) {
    '/' !in s
  }

  /** The last path element has no dot. */
  ghost predicate NoDot(path: string) {
    forall i | 0 <= i < |path| && path[i] == '.' :: exists j :: i < j < |path| && path[j] == '/'
  }

  /** `e` is the part of `path` from the last dot of its last element on, or nothing if that has no dot. */
  ghost predicate IsExt(path: string, e: string) {
    if NoDot(path) then e == []
    else
      && 0 < |e| <= |path| && path[|path| - |e|..] == e
      && e[0] == '.' && NoSlash(e) && forall i | 1 <= i < |e| :: e[i] != '.'
  }

  lemma {:induction false} ExtNoDot(path: string)
    ensures Ext(path) == [] <==> NoDot(path)
  {
    if path != [] {
      var init, last := path[..|path| - 1], path[|path| - 1];
      ExtNoDot(init);
      if last == '.' {
        assert !NoDot(path) by { assert path[|path| - 1] == '.'; }
      } else if last != '/' {
        if NoDot(init) {
          NoDotMore(init, path);
        } else {
          var i :| 0 <= i < |init| && init[i] == '.' && forall j :: i < j < |init| ==> init[j] != '/';
          assert path[i] == '.' && forall j :: i < j < |path| ==> path[j] != '/';
        }
      }
    }
  }

  lemma NoDotMore(init: string, path: string)
    requires |path| == |init| + 1 && path[..|init|] == init && path[|init|] != '.' && NoDot(init)
    ensures NoDot(path)
  {
    forall i | 0 <= i < |path| && path[i] == '.'
      ensures exists j :: i < j < |path| && path[j] == '/'
    {
      assert init[i] == '.';
      var j :| i < j < |init| && init[j] == '/';
      assert path[j] == '/';
    }
  }

  /** A path has exactly one extension, and `Ext` finds it. */
  lemma ExtIff(path: string, e: string)
    ensures IsExt(path, e) <==> e == Ext(path)
  {
    ExtShape(path);
    ExtSuffix(path);
    ExtNoDot(path);
    if IsExt(path, e) && !NoDot(path) {
      SecondDot(path, e, Ext(path));
      SecondDot(path, Ext(path), e);
    }
  }

  /** Of two suffixes the longer one holds the first dot of the shorter. */
  lemma SecondDot(path: string, e: string, longer: string)
    requires 0 < |e| <= |path| && path[|path| - |e|..] == e && e[0] == '.'
    requires |longer| <= |path| && path[|path| - |longer|..] == longer
    ensures |e| < |longer| ==> exists i :: 1 <= i < |longer| && longer[i] == '.'
  {
    if |e| < |longer| {
      assert longer[|longer| - |e|] == path[|path| - |e|] == e[0];
    }
  }

  const Digits := "0123456789"

  function Decimal(n: nat): (s: string)
    ensures s != [] && forall c | c in s :: '0' <= c <= '9'
  {
    if n < 10 then [Digits[n]] else Decimal(n / 10) + [Digits[n % 10]]
  }

  lemma {:induction false} DecimalInjective(m: nat, n: nat)
    requires Decimal(m) == Decimal(n)
    ensures m == n
  {
    var s := Decimal(m);
    assert m < 10 <==> |s| == 1 by { if m >= 10 { assert |Decimal(m / 10)| > 0; } }
    assert n < 10 <==> |s| == 1 by { if n >= 10 { assert |Decimal(n / 10)| > 0; } }
    DigitInjective(m % 10, n % 10);
    assert s[|s| - 1] == Digits[m % 10] && s[|s| - 1] == Digits[n % 10];
    if m >= 10 {
      assert s[..|s| - 1] == Decimal(m / 10) && s[..|s| - 1] == Decimal(n / 10);
      DecimalInjective(m / 10, n / 10);
    }
  }

  /** The number that a string of decimal digits stands for. */
  function Denotes(s: string): int {
    if s == [] then 0 else 10 * Denotes(s[..|s| - 1]) + (s[|s| - 1] as int - '0' as int)
  }

  /** The decimal form stands for its number and has no leading zero. */
  lemma {:induction false} DecimalDenotes(n: nat)
    ensures Denotes(Decimal(n)) == n && (n > 0 ==> Decimal(n)[0] != '0')
  {
    if n >= 10 {
      var s := Decimal(n);
      DecimalDenotes(n / 10);
      assert s[..|s| - 1] == Decimal(n / 10);
    } else {
      assert Decimal(n)[..0] == [];
    }
  }

  lemma DigitInjective(m: nat, n: nat)
    requires m < 10 && n < 10
    ensures Digits[m] == Digits[n] ==> m == n
  {
  }

  // ---------------------------------------------------------------------------------------
  // The keys of a request
  // ---------------------------------------------------------------------------------------

  function Base(company: string, prefix: string): string {
    "jobs/" + company + "/" + prefix + "/"
  }

  function AudioKey(company: string, prefix: string, filename: string): string {
    Base(company, prefix) + ("audio" + Ext(filename))
  }

  function PhotoKey(company: string, prefix: string, i: nat, filename: string): string {
    Base(company, prefix) + ("photos/photo_" + (Decimal(i) + Ext(filename)))
  }

  /** Every key one request writes: the audio first, then the photos by position. */
  function RequestKeys(company: string, prefix: string, audio: string, photos: seq<string>): (keys: seq<string>)
    ensures |keys| == 1 + |photos| && keys[0] == AudioKey(company, prefix, audio)
    ensures forall i | 0 <= i < |photos| :: keys[1 + i] == PhotoKey(company, prefix, i, photos[i])
  {
    [AudioKey(company, prefix, audio)]
        + seq(|photos|, i requires 0 <= i < |photos| => PhotoKey(company, prefix, i, photos[i]))
  }

  /** The keys as the object store gets them: the audio's, and each photo's by its position. */
  lemma KeysSpelled(company: string, prefix: string, audio: string, photos: seq<string>, e: string)
    requires IsExt(audio, e)
    ensures var keys := RequestKeys(company, prefix, audio, photos);
            var dir := "jobs/" + company + "/" + prefix;
            && |keys| == 1 + |photos|
            && keys[0] == dir + "/audio" + e
            && forall i, x | 0 <= i < |photos| && IsExt(photos[i], x) ::
                 keys[1 + i] == dir + "/photos/photo_" + Decimal(i) + x
  {
    hide IsExt, Ext, Decimal, AudioKey, PhotoKey;
    AudioSpelled(company, prefix, audio, e);
    forall i, x | 0 <= i < |photos| && IsExt(photos[i], x) {
      PhotoSpelled(company, prefix, i, photos[i], x);
    }
  }

  lemma AudioSpelled(company: string, prefix: string, audio: string, e: string)
    requires IsExt(audio, e)
    ensures AudioKey(company, prefix, audio) == "jobs/" + company + "/" + prefix + "/audio" + e
  {
    hide IsExt, Ext;
    ExtIff(audio, e);
    Under("jobs/" + company + "/" + prefix, "audio", e);
  }

  lemma PhotoSpelled(company: string, prefix: string, i: nat, photo: string, e: string)
    requires IsExt(photo, e)
    ensures PhotoKey(company, prefix, i, photo)
         == "jobs/" + company + "/" + prefix + "/photos/photo_" + Decimal(i) + e
  {
    hide IsExt, Ext, Decimal;
    ExtIff(photo, e);
    Under("jobs/" + company + "/" + prefix, "photos/photo_", Decimal(i) + e);
    Joined("jobs/" + company + "/" + prefix + "/photos/photo_", Decimal(i), e);
  }

  lemma Under(dir: string, name: string, rest: string)
    ensures dir + "/" + (name + rest) == dir + ("/" + name) + rest
  {
  }

  lemma Joined(a: string, b: string, c: string)
    ensures a + (b + c) == a + b + c
  {
  }

  lemma DropBase(base: string, x: string, y: string)
    requires base + x == base + y
    ensures x == y
  {
    assert (base + x)[|base|..] == x && (base + y)[|base|..] == y;
  }

  lemma PhotoKeysDiffer(company: string, prefix: string, i: nat, f: string, j: nat, g: string)
    requires PhotoKey(company, prefix, i, f) == PhotoKey(company, prefix, j, g)
    ensures i == j
  {
    var x, y := Decimal(i) + Ext(f), Decimal(j) + Ext(g);
    DropBase(Base(company, prefix), "photos/photo_" + x, "photos/photo_" + y);
    DropBase("photos/photo_", x, y);
    ExtShape(f);
    ExtShape(g);
    SplitUnique(c => '0' <= c <= '9', Decimal(i), Ext(f), Decimal(j), Ext(g));
    DecimalInjective(i, j);
  }

  lemma AudioIsNoPhoto(company: string, prefix: string, f: string, j: nat, g: string)
    ensures AudioKey(company, prefix, f) != PhotoKey(company, prefix, j, g)
  {
    var base := Base(company, prefix);
    assert AudioKey(company, prefix, f)[|base|] == 'a' && PhotoKey(company, prefix, j, g)[|base|] == 'p';
  }

  ghost predicate Distinct(keys: seq<string>) {
    forall i, j | 0 <= i < j < |keys| :: keys[i] != keys[j]
  }

  /** Within one request all keys differ, whatever the file names. */
  lemma RequestKeysDistinct(company: string, prefix: string, audio: string, photos: seq<string>)
    ensures Distinct(RequestKeys(company, prefix, audio, photos))
  {
    hide AudioKey, PhotoKey;
    var keys := RequestKeys(company, prefix, audio, photos);
    forall i, j | 0 <= i < j < |keys|
      ensures keys[i] != keys[j]
    {
      TwoKeysDiffer(company, prefix, audio, photos, i, j);
    }
  }

  lemma TwoKeysDiffer(company: string, prefix: string, audio: string, photos: seq<string>, i: nat, j: nat)
    requires i < j <= |photos|
    ensures RequestKeys(company, prefix, audio, photos)[i] != RequestKeys(company, prefix, audio, photos)[j]
  {
    hide AudioKey, PhotoKey;
    var keys := RequestKeys(company, prefix, audio, photos);
    assert keys[j] == PhotoKey(company, prefix, j - 1, photos[j - 1]);
    if i == 0 {
      AudioIsNoPhoto(company, prefix, audio, j - 1, photos[j - 1]);
    } else if keys[i] == keys[j] {
      PhotoKeysDiffer(company, prefix, i - 1, photos[i - 1], j - 1, photos[j - 1]);
    }
  }

  /** Requests with different companies or different random prefixes share no key. */
  lemma BasesDiffer(c1: string, p1: string, x: string, c2: string, p2: string, y: string)
    requires NoSlash(c1) && NoSlash(p1) && NoSlash(c2) && NoSlash(p2)
    requires Base(c1, p1) + x == Base(c2, p2) + y
    ensures c1 == c2 && p1 == p2
  {
    assert Base(c1, p1) + x == "jobs/" + (c1 + ("/" + p1 + "/" + x));
    assert Base(c2, p2) + y == "jobs/" + (c2 + ("/" + p2 + "/" + y));
    DropBase("jobs/", c1 + ("/" + p1 + "/" + x), c2 + ("/" + p2 + "/" + y));
    SplitUnique(c => c != '/', c1, "/" + p1 + "/" + x, c2, "/" + p2 + "/" + y);
    assert "/" + p1 + "/" + x == "/" + (p1 + ("/" + x));
    assert "/" + p2 + "/" + y == "/" + (p2 + ("/" + y));
    DropBase("/", p1 + ("/" + x), p2 + ("/" + y));
    SplitUnique(c => c != '/', p1, "/" + x, p2, "/" + y);
  }

  lemma KeysUnderBase(company: string, prefix: string, audio: string, photos: seq<string>, key: string)
    requires key in RequestKeys(company, prefix, audio, photos)
    ensures Base(company, prefix) <= key
  {
    var keys := RequestKeys(company, prefix, audio, photos);
    var i :| 0 <= i < |keys| && keys[i] == key;
    assert i > 0 ==> keys[i] == PhotoKey(company, prefix, i - 1, photos[i - 1]);
  }

  lemma RequestsDisjoint(c1: string, p1: string, a1: string, f1: seq<string>, c2: string, p2: string, a2: string,
                         f2: seq<string>, key: string)
    requires NoSlash(c1) && NoSlash(p1) && NoSlash(c2) && NoSlash(p2)
    requires key in RequestKeys(c1, p1, a1, f1) && key in RequestKeys(c2, p2, a2, f2)
    ensures c1 == c2 && p1 == p2
  {
    KeysUnderBase(c1, p1, a1, f1, key);
    KeysUnderBase(c2, p2, a2, f2, key);
    BasesDiffer(c1, p1, key[|Base(c1, p1)|..], c2, p2, key[|Base(c2, p2)|..]);
  }

  // ---------------------------------------------------------------------------------------
  // The file name of a key
  // ---------------------------------------------------------------------------------------

  /** What follows the last slash, or the whole key. */
  ghost predicate IsLastElement(key: string, name: string) {
    && |name| <= |key| && key[|key| - |name|..] == name
    && NoSlash(name)
    && (|name| < |key| ==> key[|key| - |name| - 1] == '/')
  }

  method AudioFilenameFromKey(key: string) returns (name: string)
    ensures IsLastElement(key, name)
  {
    var i := |key| - 1;
    while i >= 0
      invariant -1 <= i < |key|
      invariant forall k | i < k < |key| :: key[k] != '/'
    {
      if key[i] == '/' {
        return key[i + 1..];
      }
      i := i - 1;
    }
    return key;
  }

  lemma LastElementUnique(key: string, m: string, n: string)
    requires IsLastElement(key, m) && IsLastElement(key, n)
    ensures m == n
  {
    assert forall i | |key| - |m| <= i < |key| :: key[i] == m[i - (|key| - |m|)] && key[i] != '/';
    assert forall i | |key| - |n| <= i < |key| :: key[i] == n[i - (|key| - |n|)] && key[i] != '/';
    assert |m| == |n|;
  }

  /** The worker recovers exactly `audio` plus the uploaded file's extension, for every company and prefix. */
  lemma AudioNameRoundTrip(company: string, prefix: string, filename: string, e: string, name: string)
    requires IsExt(filename, e)
    ensures IsLastElement(AudioKey(company, prefix, filename), name) <==> name == "audio" + e
  {
    var key, own := AudioKey(company, prefix, filename), "audio" + e;
    ExtIff(filename, e);
    assert key == Base(company, prefix) + own;
    assert Base(company, prefix)[|Base(company, prefix)| - 1] == '/';
    assert NoSlash("audio");
    assert NoSlash(own) by { ExtShape(filename); }
    assert IsLastElement(key, own);
    if IsLastElement(key, name) {
      LastElementUnique(key, name, own);
    }
  }
}
