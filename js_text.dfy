/** String operations shared by the browser scripts and the Python services,
    stated over `seq<char>`: JavaScript's `trim`, `startsWith`, `includes`
    and `toLowerCase`, Python's `str.replace`, `split('.')[-1]` and `lower`,
    and decimal rendering of integers. */
module JsText {

  /** The characters JavaScript's `trim` and the regular-expression class
      `\s` treat as white space (WhiteSpace and LineTerminator). */
  predicate IsWhitespace(c: char) {
    var n := c as int;
    (0x09 <= n <= 0x0D) || n == 0x20 || n == 0xA0 || n == 0x1680
    || (0x2000 <= n <= 0x200A)
    || n == 0x2028 || n == 0x2029 || n == 0x202F || n == 0x205F
    || n == 0x3000 || n == 0xFEFF
  }

  predicate IsDigit(c: char) { '0' <= c <= '9' }

  function TrimStart(s: string): (r: string)
    ensures |r| <= |s| && r == s[|s| - |r|..]
    ensures |r| > 0 ==> !IsWhitespace(r[0])
  {
    if |s| > 0 && IsWhitespace(s[0]) then TrimStart(s[1..]) else s
  }

  /** Everything `TrimStart` cuts away is white space. */
  lemma {:induction false} TrimStartCutsSpace(s: string)
    ensures forall k :: 0 <= k < |s| - |TrimStart(s)| ==> IsWhitespace(s[k])
    decreases |s|
  {
    if |s| > 0 && IsWhitespace(s[0]) {
      TrimStartCutsSpace(s[1..]);
    }
  }

  function TrimEnd(s: string): (r: string)
    ensures |r| <= |s| && r == s[..|r|]
    ensures |r| > 0 ==> !IsWhitespace(r[|r| - 1])
  {
    if |s| > 0 && IsWhitespace(s[|s| - 1]) then TrimEnd(s[..|s| - 1]) else s
  }

  /** Everything `TrimEnd` cuts away is white space. */
  lemma {:induction false} TrimEndCutsSpace(s: string)
    ensures forall k :: |TrimEnd(s)| <= k < |s| ==> IsWhitespace(s[k])
    decreases |s|
  {
    if |s| > 0 && IsWhitespace(s[|s| - 1]) {
      TrimEndCutsSpace(s[..|s| - 1]);
    }
  }

  /** `String.prototype.trim` */
  function Trim(s: string): (r: string)
  {
    TrimEnd(TrimStart(s))
  }

  /** The trimmed text is a slice of the input that neither starts nor ends
      with white space, and everything cut away is white space. */
  lemma TrimIsCore(s: string)
    ensures exists i, j :: 0 <= i <= j <= |s| && Trim(s) == s[i..j]
    ensures |Trim(s)| > 0 ==> !IsWhitespace(Trim(s)[0]) && !IsWhitespace(Trim(s)[|Trim(s)| - 1])
    ensures Trim(s) == "" <==> forall k :: 0 <= k < |s| ==> IsWhitespace(s[k])
  {
    var a := TrimStart(s);
    TrimStartCutsSpace(s);
    TrimEndCutsSpace(a);
    var i := |s| - |a|;
    assert Trim(s) == s[i..i + |Trim(s)|];
    if Trim(s) == "" {
      assert a == "";
    }
  }

  /** A text that neither starts nor ends with white space is kept whole. */
  lemma TrimKeeps(s: string)
    requires |s| > 0 && !IsWhitespace(s[0]) && !IsWhitespace(s[|s| - 1])
    ensures Trim(s) == s
  {
  }

  /** Trimming twice is trimming once. */
  lemma TrimIdempotent(s: string)
    ensures Trim(Trim(s)) == Trim(s)
  {
    TrimIsCore(s);
  }

  /** `String.prototype.startsWith` */
  predicate StartsWith(s: string, p: string) {
    |p| <= |s| && s[..|p|] == p
  }

  /** `String.prototype.includes` and Python's `in` on strings. */
  predicate Contains(s: string, p: string)
    decreases |s|
  {
    StartsWith(s, p) || (|s| > 0 && Contains(s[1..], p))
  }

  /** `p` occurs in `s` starting at offset `i`. */
  predicate OccursAt(s: string, p: string, i: int) {
    0 <= i <= |s| - |p| && s[i..i + |p|] == p
  }

  /** `includes` holds exactly when the needle occurs at some offset. */
  lemma {:induction false} ContainsAt(s: string, p: string)
    ensures Contains(s, p) <==> exists i :: OccursAt(s, p, i)
    decreases |s|
  {
    if StartsWith(s, p) {
      assert OccursAt(s, p, 0);
    }
    if |s| > 0 {
      ContainsAt(s[1..], p);
      if exists i :: OccursAt(s, p, i) {
        var i :| OccursAt(s, p, i);
        if i > 0 {
          assert OccursAt(s[1..], p, i - 1);
        }
      }
      if Contains(s[1..], p) {
        var i :| OccursAt(s[1..], p, i);
        assert s[1..][i..i + |p|] == s[i + 1..i + 1 + |p|];
        assert OccursAt(s, p, i + 1);
      }
    } else if exists i :: OccursAt(s, p, i) {
      var i :| OccursAt(s, p, i);
      assert i == 0;
    }
  }

  lemma ContainsSelf(s: string)
    ensures Contains(s, s)
  {
  }

  lemma ContainsEmpty(s: string)
    ensures Contains(s, "")
  {
  }

  /** A non-empty needle is found only in a text at least as long that
      holds the needle's first character. */
  lemma {:induction false} ContainsNeeds(s: string, p: string)
    requires |p| > 0 && Contains(s, p)
    ensures |p| <= |s| && p[0] in s
    decreases |s|
  {
    if !StartsWith(s, p) {
      ContainsNeeds(s[1..], p);
      assert s == [s[0]] + s[1..];
    } else {
      assert s[0] == p[0];
    }
  }

  /** Lower-case mapping of one character: ASCII letters and the Latin-1
      capitals (which covers the accented Spanish vowels and Ñ). */
  function LowerChar(c: char): (r: char)
  {
    if 'A' <= c <= 'Z' then (c as int + 32) as char
    else if 0xC0 <= c as int <= 0xDE && c as int != 0xD7 then (c as int + 32) as char
    else c
  }

  /** Lower-casing never yields an ASCII capital. */
  lemma LowerCharNotCapital(c: char)
    ensures !('A' <= LowerChar(c) <= 'Z')
  {
  }

  /** `toLowerCase` / Python `lower` */
  function ToLower(s: string): (r: string)
    ensures |r| == |s|
    ensures forall k :: 0 <= k < |s| ==> r[k] == LowerChar(s[k])
  {
    if s == [] then [] else [LowerChar(s[0])] + ToLower(s[1..])
  }

  lemma ToLowerIdempotent(s: string)
    ensures ToLower(ToLower(s)) == ToLower(s)
  {
    assert forall k :: 0 <= k < |s| ==> LowerChar(LowerChar(s[k])) == LowerChar(s[k]);
  }

  /** Case-insensitive substring test (`ilike '%p%'`, `x.toLowerCase().includes(p)`). */
  predicate ContainsIgnoringCase(s: string, p: string) {
    Contains(ToLower(s), ToLower(p))
  }

  /** The position of the last '.' in `s`, or -1 when it has none. */
  function LastDot(s: string): (r: int)
    ensures -1 <= r < |s|
  {
    if s == [] then -1
    else
      var later := LastDot(s[1..]);
      if later >= 0 then later + 1
      else if s[0] == '.' then 0
      else -1
  }

  /** `LastDot` finds a dot, and no dot follows it. */
  lemma {:induction false} LastDotIsLast(s: string)
    ensures LastDot(s) >= 0 ==> s[LastDot(s)] == '.'
    ensures forall k :: LastDot(s) < k < |s| ==> s[k] != '.'
    decreases |s|
  {
    if s != [] {
      LastDotIsLast(s[1..]);
    }
  }

  /** Python `s.split('.')[-1]`: the text after the last dot, or all of `s`
      when it has no dot. */
  function AfterLastDot(s: string): string {
    s[LastDot(s) + 1..]
  }

  /** The piece after the last dot holds no dot, and it is all of `s`
      exactly when `s` has no dot. */
  lemma AfterLastDotHasNoDot(s: string)
    ensures forall k :: 0 <= k < |AfterLastDot(s)| ==> AfterLastDot(s)[k] != '.'
    ensures AfterLastDot(s) == s <==> forall k :: 0 <= k < |s| ==> s[k] != '.'
  {
    LastDotIsLast(s);
    assert |AfterLastDot(s)| == |s| - LastDot(s) - 1;
  }

  /** `s.replace(/^\//, '')`: one leading slash removed. */
  function DropLeadingSlash(s: string): (r: string)
    ensures r == s || (|s| > 0 && s[0] == '/' && r == s[1..])
    ensures |r| > 0 && r[0] != '/' ==> r == s || s == "/" + r
  {
    if |s| > 0 && s[0] == '/' then s[1..] else s
  }

  /** Python `s.replace(pat, rep)`: every non-overlapping occurrence, left to right. */
  function ReplaceAll(s: string, pat: string, rep: string): (r: string)
    requires |pat| > 0
    decreases |s|
  {
    if |s| < |pat| then s
    else if s[..|pat|] == pat then rep + ReplaceAll(s[|pat|..], pat, rep)
    else [s[0]] + ReplaceAll(s[1..], pat, rep)
  }

  /** Without an occurrence of the pattern, `replace` changes nothing. */
  lemma {:induction false} ReplaceAllAbsent(s: string, pat: string, rep: string)
    requires |pat| > 0 && !Contains(s, pat)
    ensures ReplaceAll(s, pat, rep) == s
    decreases |s|
  {
    if |s| >= |pat| {
      ReplaceAllAbsent(s[1..], pat, rep);
    }
  }

  /** A prefix in which no occurrence of the pattern starts is copied through. */
  lemma {:induction false} ReplaceAllSkipsPrefix(a: string, b: string, pat: string, rep: string)
    requires |pat| > 0
    requires forall i :: 0 <= i < |a| ==> !StartsWith((a + b)[i..], pat)
    ensures ReplaceAll(a + b, pat, rep) == a + ReplaceAll(b, pat, rep)
    decreases |a|
  {
    if |a| > 0 {
      var s := a + b;
      assert s[0..] == s;
      assert !StartsWith(s, pat);
      assert s[1..] == a[1..] + b;
      forall i | 0 <= i < |a[1..]|
        ensures !StartsWith((a[1..] + b)[i..], pat)
      {
        assert (a[1..] + b)[i..] == s[i + 1..];
      }
      ReplaceAllSkipsPrefix(a[1..], b, pat, rep);
      if |s| < |pat| {
        ReplaceAllAbsentShort(b, pat, rep);
        ReplaceAllAbsentShort(s, pat, rep);
      } else {
        calc {
          ReplaceAll(s, pat, rep);
          [s[0]] + ReplaceAll(s[1..], pat, rep);
          [a[0]] + (a[1..] + ReplaceAll(b, pat, rep));
          { assert [a[0]] + a[1..] == a; }
          a + ReplaceAll(b, pat, rep);
        }
      }
    } else {
      assert a + b == b;
    }
  }

  lemma ReplaceAllAbsentShort(s: string, pat: string, rep: string)
    requires |pat| > 0 && |s| < |pat|
    ensures ReplaceAll(s, pat, rep) == s
  {
  }

  function DigitChar(d: int): (c: char)
    requires 0 <= d < 10
    ensures IsDigit(c)
  {
    ('0' as int + d) as char
  }

  /** Decimal rendering of a natural number (JavaScript `String(n)`,
      Python `str(n)`). */
  function NatToString(n: nat): (r: string)
    ensures |r| > 0
    ensures forall k :: 0 <= k < |r| ==> IsDigit(r[k])
    decreases n
  {
    if n < 10 then [DigitChar(n)] else NatToString(n / 10) + [DigitChar(n % 10)]
  }

  function IntToString(i: int): (r: string)
    ensures |r| > 0
  {
    if i < 0 then "-" + NatToString(-i) else NatToString(i)
  }
}
