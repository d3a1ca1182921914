/** String helpers the client scripts rely on: `toLowerCase`, `trim`,
    `includes` and `parseInt`, restricted to what the model needs. */
module Text {
  import opened Wrappers

  /** ASCII case folding, as `String.prototype.toLowerCase` does on ASCII letters. */
  function LowerChar(c: char): (r: char)
    ensures 'A' <= c <= 'Z' ==> 'a' <= r <= 'z'
    ensures !('A' <= c <= 'Z') ==> r == c
  {
    if 'A' <= c <= 'Z' then (c as int + 32) as char else c
  }

  function Lower(s: string): (r: string)
    ensures |r| == |s|
    ensures forall i :: 0 <= i < |s| ==> r[i] == LowerChar(s[i])
  {
    if s == [] then [] else [LowerChar(s[0])] + Lower(s[1..])
  }

  /** The white-space and line-terminator characters `trim` removes
      (the ASCII ones plus no-break space, BOM and the line/paragraph separators). */
  predicate IsWhitespace(c: char) {
    c == ' ' || c == '\t' || c == '\n' || c == '\r' || c == '\U{000B}' || c == '\U{000C}'
    || c == '\U{00A0}' || c == '\U{FEFF}' || c == '\U{2028}' || c == '\U{2029}'
  }

  function TrimStart(s: string): (r: string)
    ensures |r| <= |s| && r == s[|s| - |r|..]
    ensures r != [] ==> !IsWhitespace(r[0])
    ensures forall i :: 0 <= i < |s| - |r| ==> IsWhitespace(s[i])
  {
    if s != [] && IsWhitespace(s[0]) then
      var r := TrimStart(s[1..]);
      assert s[1..][|s| - 1 - |r|..] == s[|s| - |r|..];
      assert forall i :: 1 <= i < |s| ==> s[i] == s[1..][i - 1];
      r
    else s
  }

  function TrimEnd(s: string): (r: string)
    ensures |r| <= |s| && r == s[..|r|]
    ensures r != [] ==> !IsWhitespace(r[|r| - 1])
    ensures forall i :: |r| <= i < |s| ==> IsWhitespace(s[i])
  {
    if s != [] && IsWhitespace(s[|s| - 1]) then TrimEnd(s[..|s| - 1]) else s
  }

  /** `s.trim()`: white space cut from both ends; what is left neither starts
      nor ends with white space, and it is empty only for an all-blank string. */
  function Trim(s: string): (r: string)
    ensures |r| <= |s|
    ensures r != [] ==> !IsWhitespace(r[0]) && !IsWhitespace(r[|r| - 1])
    ensures (forall i :: 0 <= i < |s| ==> IsWhitespace(s[i])) <==> r == []
    ensures exists a, b :: BlankEnds(s, r, a, b)
  {
    var t := TrimEnd(s);
    var r := TrimStart(t);
    TrimParts(s, t, r);
    TrimCutsBlankEnds(s, t, r);
    r
  }

  /** `r` is `s[a..b]` and everything cut off on either side is white space. */
  predicate BlankEnds(s: string, r: string, a: int, b: int) {
    && 0 <= a <= b <= |s| && r == s[a..b]
    && (forall i :: 0 <= i < a ==> IsWhitespace(s[i]))
    && (forall i :: b <= i < |s| ==> IsWhitespace(s[i]))
  }

  lemma TrimCutsBlankEnds(s: string, t: string, r: string)
    requires t == TrimEnd(s) && r == TrimStart(t)
    ensures BlankEnds(s, r, |t| - |r|, |t|)
  {
    var a := |t| - |r|;
    assert t == s[..|t|] && r == t[a..];
    assert r == s[a..|t|];
    forall i | 0 <= i < a ensures IsWhitespace(s[i])
    {
      assert s[i] == t[i];
    }
  }

  lemma TrimParts(s: string, t: string, r: string)
    requires t == TrimEnd(s) && r == TrimStart(t)
    ensures r != [] ==> !IsWhitespace(r[|r| - 1])
    ensures (forall i :: 0 <= i < |s| ==> IsWhitespace(s[i])) <==> r == []
  {
    if t != [] {
      // the last character TrimEnd keeps is not blank, so TrimStart stops at or before it
      assert s[|t| - 1] == t[|t| - 1];
      assert r != [] && r[|r| - 1] == t[|t| - 1];
    }
  }

  /** Trimming a string that neither starts nor ends with white space leaves it as it is. */
  lemma TrimOfTrimmed(t: string)
    requires t != [] ==> !IsWhitespace(t[0]) && !IsWhitespace(t[|t| - 1])
    ensures Trim(t) == t
  {
    var e := TrimEnd(t);
    assert |e| == |t|;
  }

  /** A string made of lower-cased characters is its own lower case. */
  lemma LowerOfLowered(l: string)
    requires forall i :: 0 <= i < |l| ==> LowerChar(l[i]) == l[i]
    ensures Lower(l) == l
  {
  }

  /** Every character of a trimmed lower-cased string is already lower case. */
  lemma TrimKeepsLowered(l: string)
    requires forall i :: 0 <= i < |l| ==> LowerChar(l[i]) == l[i]
    ensures var q := Trim(l); forall i :: 0 <= i < |q| ==> LowerChar(q[i]) == q[i]
  {
    var t := TrimEnd(l);
    assert forall i :: 0 <= i < |t| ==> t[i] == l[i];
    var q := TrimStart(t);
    assert forall i :: 0 <= i < |q| ==> q[i] == t[|t| - |q| + i];
  }

  /** Lower-casing then trimming is idempotent: applied to its own result it
      changes nothing. */
  lemma {:induction false} LowerTrimIdempotent(s: string)
    ensures Trim(Lower(Trim(Lower(s)))) == Trim(Lower(s))
  {
    var l := Lower(s);
    forall i | 0 <= i < |l| ensures LowerChar(l[i]) == l[i]
    {
      if 'A' <= s[i] <= 'Z' { assert 'a' <= l[i] <= 'z'; }
    }
    TrimKeepsLowered(l);
    var q := Trim(l);
    LowerOfLowered(q);
    TrimOfTrimmed(q);
  }

  /** `hay.includes(needle)`: `needle` occurs in `hay` as a contiguous slice. */
  predicate Includes(hay: string, needle: string)
  {
    needle <= hay || (hay != [] && Includes(hay[1..], needle))
  }

  predicate OccursAt(hay: string, needle: string, i: int)
  {
    0 <= i <= |hay| - |needle| && hay[i..i + |needle|] == needle
  }

  /** An occurrence past the first character is an occurrence in the tail. */
  lemma OccursInTail(hay: string, needle: string, i: int)
    requires hay != [] && 1 <= i
    ensures OccursAt(hay, needle, i) <==> OccursAt(hay[1..], needle, i - 1)
  {
    if 0 <= i - 1 <= |hay| - 1 - |needle| {
      assert hay[1..][i - 1..i - 1 + |needle|] == hay[i..i + |needle|];
    }
  }

  lemma {:induction false} IncludesIffOccurs(hay: string, needle: string)
    ensures Includes(hay, needle) <==> exists i :: OccursAt(hay, needle, i)
  {
    if needle <= hay {
      assert OccursAt(hay, needle, 0);
    } else if hay != [] {
      IncludesIffOccurs(hay[1..], needle);
      if exists i :: OccursAt(hay, needle, i) {
        var i :| OccursAt(hay, needle, i);
        assert i != 0;
        OccursInTail(hay, needle, i);
      }
      if exists j :: OccursAt(hay[1..], needle, j) {
        var j :| OccursAt(hay[1..], needle, j);
        OccursInTail(hay, needle, j + 1);
      }
    } else {
      assert |needle| > 0;
    }
  }

  function DigitValue(c: char): (d: nat)
    requires '0' <= c <= '9'
    ensures d <= 9
  {
    c as int - '0' as int
  }

  /** Length of the longest prefix of `s` made of decimal digits. */
  function DigitRun(s: string): (n: nat)
    ensures n <= |s|
    ensures forall i :: 0 <= i < n ==> '0' <= s[i] <= '9'
    ensures n < |s| ==> !('0' <= s[n] <= '9')
  {
    if s != [] && '0' <= s[0] <= '9' then 1 + DigitRun(s[1..]) else 0
  }

  /** The number the digit string `ds` denotes, most significant digit first. */
  function DigitsValue(ds: string): (v: nat)
    requires forall i :: 0 <= i < |ds| ==> '0' <= ds[i] <= '9'
  {
    if ds == [] then 0 else DigitsValue(ds[..|ds| - 1]) * 10 + DigitValue(ds[|ds| - 1])
  }

  /** What `parseInt` looks at once leading white space and one sign are skipped. */
  function Unsigned(s: string): string
  {
    var t := TrimStart(s);
    if t != [] && (t[0] == '+' || t[0] == '-') then t[1..] else t
  }

  /** `parseInt(s)` for base 10: leading white space, an optional sign, then the
      longest run of digits; `None` stands for `NaN` (no digit where one is needed). */
  function ParseInt(s: string): (r: Option<int>)
    ensures r.None? <==> DigitRun(Unsigned(s)) == 0
  {
    var t := TrimStart(s);
    var u := Unsigned(s);
    var n := DigitRun(u);
    if n == 0 then None
    else
      var v: int := DigitsValue(u[..n]);
      Some(if t[0] == '-' then -v else v)
  }

  lemma ParseIntOfDigits(ds: string)
    requires ds != []
    requires forall i :: 0 <= i < |ds| ==> '0' <= ds[i] <= '9'
    ensures ParseInt(ds) == Some(DigitsValue(ds))
  {
    assert !IsWhitespace(ds[0]);
    assert TrimStart(ds) == ds;
    assert Unsigned(ds) == ds;
    assert DigitRun(ds) == |ds|;
    assert ds[..|ds|] == ds;
  }
}
