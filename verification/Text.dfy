/** String handling shared by slugs, tags and object keys.

    Case mapping and white space are parameters (`lower`, `space`), so that every result holds for the
    full Unicode tables and not only for ASCII. */
module Text {

  function Lower(lower: char -> char, s: string): string {
    seq(|s|, i requires 0 <= i < |s| => lower(s[i]))
  }

  /** `t` is `s` in lower case, character by character. */
  ghost predicate IsLower(lower: char -> char, s: string, t: string) {
    |t| == |s| && forall i | 0 <= i < |s| :: t[i] == lower(s[i])
  }

  /** `s` and `t` differ in case only. */
  ghost predicate SameLetters(lower: char -> char, s: string, t: string) {
    |s| == |t| && forall i | 0 <= i < |s| :: lower(s[i]) == lower(t[i])
  }

  lemma SameLower(lower: char -> char, s: string, t: string)
    requires SameLetters(lower, s, t)
    ensures Lower(lower, s) == Lower(lower, t)
  {
  }

  function TrimLeft(cut: char -> bool, s: string): string {
    if s != [] && cut(s[0]) then TrimLeft(cut, s[1..]) else s
  }

  function TrimRight(cut: char -> bool, s: string): string {
    if s != [] && cut(s[|s| - 1]) then TrimRight(cut, s[..|s| - 1]) else s
  }

  function Trim(cut: char -> bool, s: string): string {
    TrimRight(cut, TrimLeft(cut, s))
  }

  /** No character at either end would be cut. */
  ghost predicate Trimmed(cut: char -> bool, s: string) {
    s != [] ==> !cut(s[0]) && !cut(s[|s| - 1])
  }

  lemma {:induction false} TrimRightKeepsHead(cut: char -> bool, s: string)
    requires s != [] ==> !cut(s[0])
    ensures var r := TrimRight(cut, s); r != [] ==> s != [] && r[0] == s[0] && !cut(r[|r| - 1])
  {
    if s != [] && cut(s[|s| - 1]) {
      TrimRightKeepsHead(cut, s[..|s| - 1]);
    }
  }

  lemma {:induction false} TrimLeftHead(cut: char -> bool, s: string)
    ensures TrimLeft(cut, s) != [] ==> !cut(TrimLeft(cut, s)[0])
  {
    if s != [] && cut(s[0]) {
      TrimLeftHead(cut, s[1..]);
    }
  }

  /** Trimming leaves exactly the strings that are trimmed already. */
  lemma TrimIff(cut: char -> bool, s: string)
    ensures Trimmed(cut, Trim(cut, s))
    ensures Trim(cut, s) == s <==> Trimmed(cut, s)
  {
    TrimLeftHead(cut, s);
    TrimRightKeepsHead(cut, TrimLeft(cut, s));
  }

  ghost predicate AllCut(cut: char -> bool, s: string) {
    forall i | 0 <= i < |s| :: cut(s[i])
  }

  /** `s` is `m` with characters to cut before and after it, and `m` has none at its ends. */
  ghost predicate Pads(cut: char -> bool, s: string, a: string, m: string, b: string) {
    s == a + m + b && AllCut(cut, a) && AllCut(cut, b) && Trimmed(cut, m)
  }

  lemma {:induction false} TrimLeftDrops(cut: char -> bool, a: string, r: string)
    requires AllCut(cut, a)
    ensures TrimLeft(cut, a + r) == TrimLeft(cut, r)
  {
    if a == [] {
      assert a + r == r;
    } else {
      assert (a + r)[1..] == a[1..] + r;
      TrimLeftDrops(cut, a[1..], r);
    }
  }

  lemma {:induction false} TrimRightDrops(cut: char -> bool, r: string, b: string)
    requires AllCut(cut, b)
    ensures TrimRight(cut, r + b) == TrimRight(cut, r)
  {
    if b == [] {
      assert r + b == r;
    } else {
      assert (r + b)[..|r + b| - 1] == r + b[..|b| - 1];
      TrimRightDrops(cut, r, b[..|b| - 1]);
    }
  }

  /** A string can be trimmed in one way only. */
  lemma TrimUnique(cut: char -> bool, s: string, a: string, m: string, b: string)
    requires Pads(cut, s, a, m, b)
    ensures m == Trim(cut, s)
  {
    assert s == a + (m + b);
    TrimLeftDrops(cut, a, m + b);
    if m == [] {
      assert m + b == b + [];
      TrimLeftDrops(cut, b, []);
    } else {
      assert (m + b)[0] == m[0];
      TrimRightDrops(cut, m, b);
    }
  }

  lemma {:induction false} TrimLeftCuts(cut: char -> bool, s: string)
    ensures exists a :: s == a + TrimLeft(cut, s) && AllCut(cut, a)
  {
    if s != [] && cut(s[0]) {
      TrimLeftCuts(cut, s[1..]);
      var a :| s[1..] == a + TrimLeft(cut, s[1..]) && AllCut(cut, a);
      assert s == [s[0]] + a + TrimLeft(cut, s);
    } else {
      assert s == [] + TrimLeft(cut, s);
    }
  }

  lemma {:induction false} TrimRightCuts(cut: char -> bool, s: string)
    ensures exists b :: s == TrimRight(cut, s) + b && AllCut(cut, b)
  {
    if s != [] && cut(s[|s| - 1]) {
      var init := s[..|s| - 1];
      TrimRightCuts(cut, init);
      var b :| init == TrimRight(cut, init) + b && AllCut(cut, b);
      assert s == TrimRight(cut, s) + (b + [s[|s| - 1]]);
    } else {
      assert s == TrimRight(cut, s) + [];
    }
  }

  /** Nothing else is cut off. */
  lemma TrimPads(cut: char -> bool, s: string) returns (a: string, b: string)
    ensures Pads(cut, s, a, Trim(cut, s), b)
  {
    var r := TrimLeft(cut, s);
    TrimLeftCuts(cut, s);
    TrimRightCuts(cut, r);
    a :| s == a + r && AllCut(cut, a);
    b :| r == TrimRight(cut, r) + b && AllCut(cut, b);
    TrimIff(cut, s);
    assert s == a + Trim(cut, s) + b;
  }

  /** A string is cut in one way only at its first character outside a class. */
  lemma SplitUnique(inClass: char -> bool, a: string, x: string, b: string, y: string)
    requires a + x == b + y
    requires (forall c | c in a :: inClass(c)) && (forall c | c in b :: inClass(c))
    requires (x != [] ==> !inClass(x[0])) && (y != [] ==> !inClass(y[0]))
    ensures a == b && x == y
  {
    var s := a + x;
    assert forall i | 0 <= i < |a| :: s[i] == a[i] && inClass(s[i]);
    assert forall i | 0 <= i < |b| :: s[i] == b[i] && inClass(s[i]);
    assert x != [] ==> s[|a|] == x[0];
    assert y != [] ==> s[|b|] == y[0];
    assert |a| == |b|;
    assert a == s[..|a|] && b == s[..|b|] && x == s[|a|..] && y == s[|b|..];
  }

  // ---------------------------------------------------------------------------------------
  // Hexadecimal
  // ---------------------------------------------------------------------------------------

  type Byte = n: int | 0 <= n < 256

  const HexDigits := "0123456789abcdef"

  function HexByte(n: Byte): string {
    [HexDigits[n / 16], HexDigits[n % 16]]
  }

  function Hex(bytes: seq<Byte>): (s: string)
    ensures |s| == 2 * |bytes|
    ensures forall c | c in s :: c in HexDigits
  {
    if bytes == [] then [] else HexByte(bytes[0]) + Hex(bytes[1..])
  }

  lemma HexDigitInjective(i: nat, j: nat)
    requires i < 16 && j < 16 && HexDigits[i] == HexDigits[j]
    ensures i == j
  {
  }

  /** The value of a hexadecimal digit. */
  function DigitValue(c: char): int {
    if '0' <= c <= '9' then c as int - '0' as int else c as int - 'a' as int + 10
  }

  /** Two digits stand for each byte, the high one first. */
  lemma {:induction false} HexReads(bytes: seq<Byte>, i: nat)
    requires i < |bytes|
    ensures 16 * DigitValue(Hex(bytes)[2 * i]) + DigitValue(Hex(bytes)[2 * i + 1]) == bytes[i]
  {
    var s := Hex(bytes);
    assert s[..2] == HexByte(bytes[0]) && s[2..] == Hex(bytes[1..]);
    if i == 0 {
      DigitReads(bytes[0] / 16);
      DigitReads(bytes[0] % 16);
    } else {
      HexReads(bytes[1..], i - 1);
      assert s[2 * i] == s[2..][2 * (i - 1)] && s[2 * i + 1] == s[2..][2 * (i - 1) + 1];
    }
  }

  lemma DigitReads(n: nat)
    requires n < 16
    ensures DigitValue(HexDigits[n]) == n
  {
  }

  /** Different byte strings have different hexadecimal forms: a token is as hard to guess as its bytes. */
  lemma {:induction false} HexInjective(x: seq<Byte>, y: seq<Byte>)
    requires Hex(x) == Hex(y)
    ensures x == y
  {
    if x != [] {
      assert |y| == |x|;
      assert Hex(x)[..2] == HexByte(x[0]) && Hex(y)[..2] == HexByte(y[0]);
      assert Hex(x)[2..] == Hex(x[1..]) && Hex(y)[2..] == Hex(y[1..]);
      HexDigitInjective(x[0] / 16, y[0] / 16);
      HexDigitInjective(x[0] % 16, y[0] % 16);
      HexInjective(x[1..], y[1..]);
    }
  }
}
