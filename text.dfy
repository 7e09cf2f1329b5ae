/** Python string operations the scorers rely on: substring test (`w in s`),
    ASCII lower-casing (`s.lower()`), prefix test (`s.startswith(p)`) and the
    decimal rendering of integers and integer lists (`str(n)`, `str([..])`). */
module Text {

  /** `w in s` on Python strings: `w` occurs in `s` as a contiguous block. */
  predicate Contains(s: string, w: string) {
    exists i :: 0 <= i <= |s| - |w| && w <= s[i..]
  }

  /** `s.startswith(p)`. */
  predicate StartsWith(s: string, p: string) {
    p <= s
  }

  lemma ContainsAt(s: string, w: string, i: nat)
    requires i + |w| <= |s| && s[i..i + |w|] == w
    ensures Contains(s, w)
  {
    assert w <= s[i..];
  }

  lemma ContainsPrefix(w: string, rest: string)
    ensures Contains(w + rest, w)
  {
    ContainsAt(w + rest, w, 0);
  }

  /** A block that lies inside `x` lies inside every `x + y` and `y + x`. */
  lemma ContainsInConcat(x: string, y: string, w: string)
    requires Contains(x, w)
    ensures Contains(x + y, w) && Contains(y + x, w)
  {
    var i :| 0 <= i <= |x| - |w| && w <= x[i..];
    assert (x + y)[i..i + |w|] == x[i..i + |w|];
    ContainsAt(x + y, w, i);
    assert (y + x)[|y| + i..|y| + i + |w|] == x[i..i + |w|];
    ContainsAt(y + x, w, |y| + i);
  }

  /** A string that lacks one of the characters of `w` cannot contain `w`. */
  lemma MissingChar(s: string, w: string, j: nat)
    requires j < |w| && w[j] !in s
    ensures !Contains(s, w)
  {
  }

  /** A block cannot straddle a separator character it does not contain. */
  lemma ContainsSplit(x: string, c: char, y: string, w: string)
    requires c !in w
    ensures Contains(x + [c] + y, w) ==> Contains(x, w) || Contains(y, w)
  {
    var s := x + [c] + y;
    if Contains(s, w) {
      var i :| 0 <= i <= |s| - |w| && w <= s[i..];
      if i + |w| <= |x| {
        assert x[i..i + |w|] == s[i..i + |w|];
        ContainsAt(x, w, i);
      } else {
        assert s[|x|] == c;
        assert forall k :: i <= k < i + |w| ==> s[k] == w[k - i];
        assert i > |x|;
        assert y[i - |x| - 1..i - |x| - 1 + |w|] == s[i..i + |w|];
        ContainsAt(y, w, i - |x| - 1);
      }
    }
  }

  function LowerChar(c: char): char {
    if 'A' <= c <= 'Z' then (c as int + 32) as char else c
  }

  /** `s.lower()`, restricted to the ASCII letters. */
  function Lower(s: string): (r: string)
    ensures |r| == |s|
  {
    if s == [] then [] else [LowerChar(s[0])] + Lower(s[1..])
  }

  /** Lower-casing works character by character. */
  lemma {:induction false} LowerPointwise(s: string)
    ensures forall i :: 0 <= i < |s| ==> Lower(s)[i] == LowerChar(s[i])
  {
    if s != [] {
      LowerPointwise(s[1..]);
      assert forall i :: 1 <= i < |s| ==> Lower(s)[i] == Lower(s[1..])[i - 1];
    }
  }

  /** Lower-casing distributes over concatenation. */
  lemma LowerConcat(x: string, y: string)
    ensures Lower(x + y) == Lower(x) + Lower(y)
  {
    LowerPointwise(x + y);
    LowerPointwise(x);
    LowerPointwise(y);
    assert forall i :: 0 <= i < |x + y| ==> Lower(x + y)[i] == (Lower(x) + Lower(y))[i];
  }

  /** Lower-casing is idempotent. */
  lemma LowerLower(s: string)
    ensures Lower(Lower(s)) == Lower(s)
  {
    LowerPointwise(s);
    LowerPointwise(Lower(s));
    assert forall i :: 0 <= i < |s| ==> Lower(Lower(s))[i] == Lower(s)[i];
  }

  /** A block found in `s` is found, lower-cased, in `Lower(s)`. */
  lemma ContainsLower(s: string, w: string)
    requires Contains(s, w)
    ensures Contains(Lower(s), Lower(w))
  {
    var i :| 0 <= i <= |s| - |w| && w <= s[i..];
    var ls, lw := Lower(s), Lower(w);
    LowerPointwise(s);
    LowerPointwise(w);
    var block := ls[i..i + |w|];
    forall j | 0 <= j < |w| ensures block[j] == lw[j] {
      assert s[i + j] == w[j];
      assert block[j] == ls[i + j] == LowerChar(s[i + j]);
    }
    assert block == lw;
    ContainsAt(ls, lw, i);
  }

  /** Lower-casing never introduces a character that is not a lower-case
      letter. */
  lemma LowerKeepsOut(s: string, c: char)
    requires c !in s && !('a' <= c <= 'z')
    ensures c !in Lower(s)
  {
    LowerPointwise(s);
    forall i | 0 <= i < |s| ensures Lower(s)[i] != c {
      assert Lower(s)[i] == LowerChar(s[i]);
    }
  }

  function DigitChar(d: nat): char
    requires d < 10
  {
    "0123456789"[d]
  }

  /** `str(n)` for a non-negative integer: its decimal digits, most significant first. */
  function NatToString(n: nat): (r: string)
    ensures |r| > 0
    ensures forall i :: 0 <= i < |r| ==> '0' <= r[i] <= '9'
  {
    if n < 10 then [DigitChar(n)] else NatToString(n / 10) + [DigitChar(n % 10)]
  }

  /** `str(n)` for any integer. */
  function IntToString(n: int): string {
    if n < 0 then "-" + NatToString(-n) else NatToString(n)
  }

  function JoinInts(xs: seq<int>): string {
    if xs == [] then ""
    else if |xs| == 1 then IntToString(xs[0])
    else IntToString(xs[0]) + ", " + JoinInts(xs[1..])
  }

  /** `str(xs)` for a Python list of integers, e.g. `[2222, 2200]`. */
  function IntListRepr(xs: seq<int>): string {
    "[" + JoinInts(xs) + "]"
  }

  /** Characters that may occur in the rendering of an integer list. */
  predicate ReprChar(c: char) {
    ('0' <= c <= '9') || c == '-' || c == ',' || c == ' ' || c == '[' || c == ']'
  }

  lemma IntToStringChars(n: int)
    ensures forall i :: 0 <= i < |IntToString(n)| ==> ReprChar(IntToString(n)[i])
  {
    if n < 0 {
      var d := NatToString(-n);
      assert forall i :: 1 <= i < |"-" + d| ==> ("-" + d)[i] == d[i - 1];
    }
  }

  lemma {:induction false} JoinIntsChars(xs: seq<int>)
    ensures forall i :: 0 <= i < |JoinInts(xs)| ==> ReprChar(JoinInts(xs)[i])
  {
    if xs == [] {
    } else if |xs| == 1 {
      IntToStringChars(xs[0]);
    } else {
      IntToStringChars(xs[0]);
      JoinIntsChars(xs[1..]);
      var h, t := IntToString(xs[0]), JoinInts(xs[1..]);
      assert JoinInts(xs) == h + ", " + t;
      forall i | 0 <= i < |h + ", " + t| ensures ReprChar((h + ", " + t)[i]) {
        if i < |h| {
          assert (h + ", " + t)[i] == h[i];
        } else if i < |h| + 2 {
        } else {
          assert (h + ", " + t)[i] == t[i - |h| - 2];
        }
      }
    }
  }

  /** The rendering of an integer list uses only digits, signs and punctuation. */
  lemma IntListReprChars(xs: seq<int>)
    ensures forall i :: 0 <= i < |IntListRepr(xs)| ==> ReprChar(IntListRepr(xs)[i])
  {
    JoinIntsChars(xs);
    var j := JoinInts(xs);
    forall i | 0 <= i < |"[" + j + "]"| ensures ReprChar(("[" + j + "]")[i]) {
      if 0 < i <= |j| {
        assert ("[" + j + "]")[i] == j[i - 1];
      }
    }
  }
}
