/**
 * The JavaScript string operations the CRM pipeline relies on, over `seq<char>`:
 * `includes`, `toLowerCase` (ASCII letters only: the keywords are Korean, which has
 * no case, plus a few Latin brand names), `trim`, `join`, `split` on one character,
 * and the digit handling behind `parseInt` and template-literal number rendering.
 */
module Text {

  // ---------------------------------------------------------------------------
  // Substring search (`s.includes(p)`)
  // ---------------------------------------------------------------------------

  predicate IsPrefix(p: string, s: string) {
    |p| <= |s| && s[..|p|] == p
  }

  /** `s.includes(p)`: p occurs somewhere in s. */
  predicate Contains(s: string, p: string)
    decreases |s|
  {
    IsPrefix(p, s) || (|s| > 0 && Contains(s[1..], p))
  }

  /** Independent description of an occurrence: p sits in s at position i. */
  predicate OccursAt(s: string, p: string, i: nat) {
    i + |p| <= |s| && s[i..i + |p|] == p
  }

  lemma {:induction false} ContainsIffOccurs(s: string, p: string)
    ensures Contains(s, p) <==> exists i: nat :: OccursAt(s, p, i)
    decreases |s|
  {
    if Contains(s, p) {
      if IsPrefix(p, s) {
        assert OccursAt(s, p, 0);
      } else {
        ContainsIffOccurs(s[1..], p);
        var i: nat :| OccursAt(s[1..], p, i);
        assert s[1..][i..i + |p|] == s[i + 1..i + 1 + |p|];
        assert OccursAt(s, p, i + 1);
      }
    }
    if exists i: nat :: OccursAt(s, p, i) {
      var i: nat :| OccursAt(s, p, i);
      if i == 0 {
        assert IsPrefix(p, s);
      } else {
        assert s[1..][i - 1..i - 1 + |p|] == s[i..i + |p|];
        assert OccursAt(s[1..], p, i - 1);
        ContainsIffOccurs(s[1..], p);
      }
    }
  }

  /** A needle is contained in any text that has it between two other pieces. */
  lemma ContainsMiddle(a: string, p: string, b: string)
    ensures Contains(a + p + b, p)
  {
    var s := a + p + b;
    assert s[|a|..|a| + |p|] == p;
    assert OccursAt(s, p, |a|);
    ContainsIffOccurs(s, p);
  }

  /** A needle whose first character does not occur in s is not contained in s. */
  lemma {:induction false} NotContainsFirstChar(s: string, p: string)
    requires |p| > 0 && p[0] !in s
    ensures !Contains(s, p)
    decreases |s|
  {
    if |s| > 0 {
      assert p[0] !in s[1..] by {
        assert forall k :: 0 <= k < |s| - 1 ==> s[1..][k] == s[k + 1];
      }
      NotContainsFirstChar(s[1..], p);
    }
  }

  /** A needle longer than s is not contained in s. */
  lemma {:induction false} NotContainsLonger(s: string, p: string)
    requires |p| > |s|
    ensures !Contains(s, p)
    decreases |s|
  {
    if |s| > 0 {
      NotContainsLonger(s[1..], p);
    }
  }

  /** A needle of the same length as s but different from it is not contained in s. */
  lemma NotContainsSameLength(s: string, p: string)
    requires |p| == |s| && p != s
    ensures !Contains(s, p)
  {
    if |s| > 0 {
      NotContainsLonger(s[1..], p);
    }
  }

  /**
   * A cheap sufficient condition for `!s.includes(p)`: p is longer than s, or
   * starts with a character absent from s, or has s's length without being s.
   */
  predicate Excluded(s: string, p: string) {
    |p| > |s| || (|p| > 0 && p[0] !in s) || (|p| == |s| && p != s)
  }

  lemma ExcludedNotContained(s: string, p: string)
    requires Excluded(s, p)
    ensures !Contains(s, p)
  {
    if |p| > |s| {
      NotContainsLonger(s, p);
    } else if |p| > 0 && p[0] !in s {
      NotContainsFirstChar(s, p);
    } else {
      NotContainsSameLength(s, p);
    }
  }

  /** `needles.some((n) => s.includes(n))` */
  function AnyContained(s: string, needles: seq<string>): (b: bool)
    ensures b <==> exists i :: 0 <= i < |needles| && Contains(s, needles[i])
    decreases |needles|
  {
    if |needles| == 0 then false
    else if Contains(s, needles[0]) then true
    else
      var rest := AnyContained(s, needles[1..]);
      assert forall i :: 1 <= i < |needles| ==> needles[i] == needles[1..][i - 1];
      rest
  }

  /** No needle can be found in s when each one is excluded from s. */
  lemma NoneContained(s: string, needles: seq<string>)
    requires forall i :: 0 <= i < |needles| ==> Excluded(s, needles[i])
    ensures forall i :: 0 <= i < |needles| ==> !Contains(s, needles[i])
  {
    forall i | 0 <= i < |needles| ensures !Contains(s, needles[i]) {
      ExcludedNotContained(s, needles[i]);
    }
  }

  /** `needles.findIndex((n) => s.includes(n))`: -1 when none is contained. */
  function FirstContained(s: string, needles: seq<string>): (r: int)
    ensures -1 <= r < |needles|
    ensures r >= 0 ==> Contains(s, needles[r])
    ensures r >= 0 ==> forall j :: 0 <= j < r ==> !Contains(s, needles[j])
    ensures r == -1 <==> !AnyContained(s, needles)
    decreases |needles|
  {
    if |needles| == 0 then -1
    else if Contains(s, needles[0]) then 0
    else
      var k := FirstContained(s, needles[1..]);
      assert forall i :: 1 <= i < |needles| ==> needles[i] == needles[1..][i - 1];
      if k < 0 then -1 else k + 1
  }

  // ---------------------------------------------------------------------------
  // ASCII lower-casing (`toLowerCase` on the characters that occur here)
  // ---------------------------------------------------------------------------

  predicate IsUpper(c: char) {
    'A' <= c <= 'Z'
  }

  function LowerChar(c: char): (d: char)
    ensures !IsUpper(d)
    ensures IsUpper(c) ==> d as int == c as int + 32
    ensures !IsUpper(c) ==> d == c
  {
    if IsUpper(c) then (c as int + 32) as char else c
  }

  function Lower(s: string): (r: string)
    ensures |r| == |s|
    ensures forall i :: 0 <= i < |s| ==> r[i] == LowerChar(s[i])
  {
    seq(|s|, i requires 0 <= i < |s| => LowerChar(s[i]))
  }

  /** `keywords.map((k) => k.toLowerCase())` */
  function LowerAll(ks: seq<string>): (r: seq<string>)
    ensures |r| == |ks|
    ensures forall i :: 0 <= i < |ks| ==> r[i] == Lower(ks[i])
  {
    seq(|ks|, i requires 0 <= i < |ks| => Lower(ks[i]))
  }

  lemma LowerAllSingle(k: string)
    requires NoUpper(k)
    ensures LowerAll([k]) == [k]
  {
    NoUpperLowerId(k);
  }

  lemma LowerIdempotent(s: string)
    ensures Lower(Lower(s)) == Lower(s)
  {
  }

  lemma LowerAllIdempotent(ks: seq<string>)
    ensures LowerAll(LowerAll(ks)) == LowerAll(ks)
  {
    forall i | 0 <= i < |ks| ensures LowerAll(LowerAll(ks))[i] == LowerAll(ks)[i] {
      LowerIdempotent(ks[i]);
    }
  }

  /** s has no upper-case ASCII letter (decided character by character). */
  predicate NoUpper(s: string)
    decreases |s|
  {
    |s| == 0 || (!IsUpper(s[0]) && NoUpper(s[1..]))
  }

  predicate AllNoUpper(ks: seq<string>)
    decreases |ks|
  {
    |ks| == 0 || (NoUpper(ks[0]) && AllNoUpper(ks[1..]))
  }

  /** Lower-casing leaves a string without upper-case letters unchanged. */
  lemma {:induction false} NoUpperLowerId(s: string)
    requires NoUpper(s)
    ensures Lower(s) == s
    decreases |s|
  {
    if |s| > 0 {
      NoUpperLowerId(s[1..]);
      assert Lower(s) == [s[0]] + Lower(s[1..]);
    }
  }

  lemma {:induction false} AllNoUpperLowerAllId(ks: seq<string>)
    requires AllNoUpper(ks)
    ensures LowerAll(ks) == ks
    decreases |ks|
  {
    if |ks| > 0 {
      NoUpperLowerId(ks[0]);
      AllNoUpperLowerAllId(ks[1..]);
      assert LowerAll(ks) == [ks[0]] + LowerAll(ks[1..]);
    }
  }

  /** A lower-cased string never contains an upper-case ASCII letter. */
  lemma LowerHasNoUpper(s: string, c: char)
    requires IsUpper(c)
    ensures c !in Lower(s)
  {
    forall i | 0 <= i < |s| ensures Lower(s)[i] != c {
      assert !IsUpper(LowerChar(s[i]));
    }
  }

  // ---------------------------------------------------------------------------
  // `trim`: the white space and line terminators of ECMAScript
  // ---------------------------------------------------------------------------

  predicate IsSpace(c: char) {
    c == '\t' || c == '\n' || c == '\U{000B}' || c == '\U{000C}' || c == '\r' || c == ' '
    || c == '\U{00A0}' || c == '\U{1680}' || ('\U{2000}' <= c <= '\U{200A}')
    || c == '\U{2028}' || c == '\U{2029}' || c == '\U{202F}' || c == '\U{205F}'
    || c == '\U{3000}' || c == '\U{FEFF}'
  }

  predicate AllSpace(s: string) {
    forall i :: 0 <= i < |s| ==> IsSpace(s[i])
  }

  function TrimStart(s: string): (r: string)
    ensures |r| <= |s| && r == s[|s| - |r|..]
    ensures AllSpace(s[..|s| - |r|])
    ensures r == [] || !IsSpace(r[0])
    decreases |s|
  {
    if |s| > 0 && IsSpace(s[0]) then
      var r := TrimStart(s[1..]);
      TrimStartStep(s, r);
      r
    else s
  }

  /** Dropping one more leading space keeps the dropped part all space. */
  lemma TrimStartStep(s: string, r: string)
    requires |s| > 0 && IsSpace(s[0])
    requires |r| <= |s| - 1 && r == s[1..][|s| - 1 - |r|..] && AllSpace(s[1..][..|s| - 1 - |r|])
    ensures r == s[|s| - |r|..] && AllSpace(s[..|s| - |r|])
  {
    assert s[..|s| - |r|] == [s[0]] + s[1..][..|s| - 1 - |r|];
  }

  function TrimEnd(s: string): (r: string)
    ensures |r| <= |s| && r == s[..|r|]
    ensures AllSpace(s[|r|..])
    ensures r == [] || !IsSpace(r[|r| - 1])
    decreases |s|
  {
    if |s| > 0 && IsSpace(s[|s| - 1]) then
      var r := TrimEnd(s[..|s| - 1]);
      TrimEndStep(s, r);
      r
    else s
  }

  /** Dropping one more trailing space keeps the dropped part all space. */
  lemma TrimEndStep(s: string, r: string)
    requires |s| > 0 && IsSpace(s[|s| - 1])
    requires |r| <= |s| - 1 && r == s[..|s| - 1][..|r|] && AllSpace(s[..|s| - 1][|r|..])
    ensures r == s[..|r|] && AllSpace(s[|r|..])
  {
    assert s[|r|..] == s[..|s| - 1][|r|..] + [s[|s| - 1]];
  }

  /**
   * `s.trim()`: the slice of s after its leading and before its trailing white
   * space; it neither starts nor ends with white space.
   */
  function Trim(s: string): (r: string)
    ensures r == [] || (!IsSpace(r[0]) && !IsSpace(r[|r| - 1]))
  {
    var t := TrimStart(s);
    var r := TrimEnd(t);
    assert r != [] ==> r[0] == t[0];
    r
  }

  /** r sits in s at position a, with only white space before and after it. */
  predicate SpaceAround(s: string, a: nat, r: string) {
    a + |r| <= |s| && r == s[a..a + |r|] && AllSpace(s[..a]) && AllSpace(s[a + |r|..])
  }

  /** The trimmed text is the slice of s between its leading and its trailing white space. */
  lemma TrimIsSlice(s: string)
    ensures SpaceAround(s, |s| - |TrimStart(s)|, Trim(s))
  {
    var t := TrimStart(s);
    TrimPieces(s, t, TrimEnd(t));
  }

  /** The leading-space cut t of s, then the trailing-space cut r of t, is a slice of s. */
  lemma TrimPieces(s: string, t: string, r: string)
    requires |t| <= |s| && t == s[|s| - |t|..] && AllSpace(s[..|s| - |t|])
    requires |r| <= |t| && r == t[..|r|] && AllSpace(t[|r|..])
    ensures SpaceAround(s, |s| - |t|, r)
  {
    var a := |s| - |t|;
    assert s[a + |r|..] == t[|r|..];
  }

  lemma TrimEmptyIffAllSpace(s: string)
    ensures Trim(s) == [] <==> AllSpace(s)
  {
    var a := |s| - |TrimStart(s)|;
    if Trim(s) == [] {
      forall i | 0 <= i < |s| ensures IsSpace(s[i]) {
        if i < a {
          assert s[..a][i] == s[i];
        } else {
          assert s[a..][i - a] == s[i];
        }
      }
    } else {
      assert Trim(s)[0] == s[a];
    }
  }

  /** Lower-casing maps white space to white space and nothing else to it. */
  lemma LowerCharSpace(c: char)
    ensures IsSpace(LowerChar(c)) <==> IsSpace(c)
  {
  }

  lemma {:induction false} TrimStartLower(s: string)
    ensures TrimStart(Lower(s)) == Lower(TrimStart(s))
    decreases |s|
  {
    if |s| > 0 {
      var l := Lower(s);
      assert l[0] == LowerChar(s[0]);
      LowerCharSpace(s[0]);
      if IsSpace(s[0]) {
        assert l[1..] == Lower(s[1..]);
        TrimStartLower(s[1..]);
        assert TrimStart(l) == TrimStart(l[1..]);
        assert TrimStart(s) == TrimStart(s[1..]);
      } else {
        assert TrimStart(l) == l;
        assert TrimStart(s) == s;
      }
    }
  }

  lemma {:induction false} TrimEndLower(s: string)
    ensures TrimEnd(Lower(s)) == Lower(TrimEnd(s))
    decreases |s|
  {
    if |s| > 0 {
      var l := Lower(s);
      assert l[|s| - 1] == LowerChar(s[|s| - 1]);
      LowerCharSpace(s[|s| - 1]);
      if IsSpace(s[|s| - 1]) {
        assert l[..|s| - 1] == Lower(s[..|s| - 1]);
        TrimEndLower(s[..|s| - 1]);
        assert TrimEnd(l) == TrimEnd(l[..|s| - 1]);
        assert TrimEnd(s) == TrimEnd(s[..|s| - 1]);
      } else {
        assert TrimEnd(l) == l;
        assert TrimEnd(s) == s;
      }
    }
  }

  /** Lower-casing touches no white space, so trimming and lower-casing commute. */
  lemma TrimLowerCommute(s: string)
    ensures Trim(Lower(s)) == Lower(Trim(s))
  {
    TrimStartLower(s);
    TrimEndLower(TrimStart(s));
  }

  lemma TrimIdempotent(s: string)
    ensures Trim(Trim(s)) == Trim(s)
  {
    var r := Trim(s);
    assert TrimStart(r) == r;
    assert TrimEnd(r) == r;
  }

  lemma {:induction false} TrimStartSkips(pre: string, s: string)
    requires AllSpace(pre) && (s == [] || !IsSpace(s[0]))
    ensures TrimStart(pre + s) == s
    decreases |pre|
  {
    if |pre| > 0 {
      assert (pre + s)[0] == pre[0];
      assert (pre + s)[1..] == pre[1..] + s;
      TrimStartSkips(pre[1..], s);
    } else {
      assert pre + s == s;
    }
  }

  lemma {:induction false} TrimEndSkips(s: string, post: string)
    requires AllSpace(post) && (s == [] || !IsSpace(s[|s| - 1]))
    ensures TrimEnd(s + post) == s
    decreases |post|
  {
    if |post| > 0 {
      assert (s + post)[|s + post| - 1] == post[|post| - 1];
      assert (s + post)[..|s + post| - 1] == s + post[..|post| - 1];
      TrimEndSkips(s, post[..|post| - 1]);
    } else {
      assert s + post == s;
    }
  }

  /** `trim` removes exactly the white space around a text that has none at its ends. */
  lemma TrimAround(pre: string, s: string, post: string)
    requires AllSpace(pre) && AllSpace(post)
    requires s == [] || (!IsSpace(s[0]) && !IsSpace(s[|s| - 1]))
    ensures Trim(pre + s + post) == s
  {
    if s == [] {
      assert pre + s + post == pre + post;
      TrimEmptyIffAllSpace(pre + post);
    } else {
      assert pre + s + post == pre + (s + post);
      TrimStartSkips(pre, s + post);
      TrimEndSkips(s, post);
    }
  }

  // ---------------------------------------------------------------------------
  // `parts.join(sep)` and `s.split(c)`
  // ---------------------------------------------------------------------------

  function Join(parts: seq<string>, sep: string): string
    decreases |parts|
  {
    if |parts| == 0 then ""
    else if |parts| == 1 then parts[0]
    else parts[0] + sep + Join(parts[1..], sep)
  }

  /** Joining one more part appends the separator and that part. */
  lemma {:induction false} JoinSnoc(parts: seq<string>, x: string, sep: string)
    requires |parts| > 0
    ensures Join(parts + [x], sep) == Join(parts, sep) + sep + x
    decreases |parts|
  {
    if |parts| > 1 {
      assert (parts + [x])[1..] == parts[1..] + [x];
      JoinSnoc(parts[1..], x, sep);
    } else {
      assert (parts + [x])[1..] == [x];
    }
  }

  /** Position of the first c in s, or -1. */
  function IndexOf(s: string, c: char): (r: int)
    ensures -1 <= r < |s|
    ensures r == -1 <==> c !in s
    ensures r >= 0 ==> s[r] == c && c !in s[..r]
    decreases |s|
  {
    if |s| == 0 then -1
    else if s[0] == c then 0
    else
      var k := IndexOf(s[1..], c);
      assert c in s ==> c in s[1..] by {
        if c in s { var j :| 0 <= j < |s| && s[j] == c; assert s[1..][j - 1] == c; }
      }
      if k < 0 then -1
      else
        assert s[..k + 1] == [s[0]] + s[1..][..k];
        k + 1
  }

  /**
   * `s.split(c)`: the pieces between the occurrences of c, in order; there is
   * always at least one piece and no piece contains c.
   */
  function Split(s: string, c: char): (pieces: seq<string>)
    ensures |pieces| >= 1
    ensures forall i :: 0 <= i < |pieces| ==> c !in pieces[i]
    decreases |s|
  {
    var k := IndexOf(s, c);
    if k < 0 then [s]
    else
      var rest := Split(s[k + 1..], c);
      NoneHoldsAfterCons(s[..k], rest, c);
      [s[..k]] + rest
  }

  lemma NoneHoldsAfterCons(p: string, rest: seq<string>, c: char)
    requires c !in p && forall i :: 0 <= i < |rest| ==> c !in rest[i]
    ensures forall i :: 0 <= i < |[p] + rest| ==> c !in ([p] + rest)[i]
  {
    var pieces := [p] + rest;
    assert forall i :: 1 <= i < |pieces| ==> pieces[i] == rest[i - 1];
  }

  lemma Around(s: string, k: nat)
    requires k < |s|
    ensures s == s[..k] + [s[k]] + s[k + 1..]
  {
  }

  /** Joining the pieces of a split with the separator gives back the string. */
  lemma {:induction false} SplitJoin(s: string, c: char)
    ensures Join(Split(s, c), [c]) == s
    decreases |s|
  {
    var k := IndexOf(s, c);
    if k >= 0 {
      var rest := Split(s[k + 1..], c);
      var pieces := Split(s, c);
      SplitJoin(s[k + 1..], c);
      assert pieces == [s[..k]] + rest;
      assert |pieces| > 1 && pieces[0] == s[..k] && pieces[1..] == rest;
      assert Join(pieces, [c]) == s[..k] + [c] + Join(rest, [c]);
      Around(s, k);
    }
  }

  /**
   * Splitting the join of pieces free of c gives the pieces back: `split` is
   * the inverse of `join` on such pieces.
   */
  lemma {:induction false} JoinSplit(parts: seq<string>, c: char)
    requires |parts| >= 1
    requires forall i :: 0 <= i < |parts| ==> c !in parts[i]
    ensures Split(Join(parts, [c]), c) == parts
    decreases |parts|
  {
    if |parts| > 1 {
      var rest := Join(parts[1..], [c]);
      var s := parts[0] + [c] + rest;
      assert Join(parts, [c]) == s;
      IndexOfFirst(parts[0], rest, c);
      assert s[..|parts[0]|] == parts[0] && s[|parts[0]| + 1..] == rest;
      JoinSplit(parts[1..], c);
    } else {
      assert Join(parts, [c]) == parts[0];
    }
  }

  /** The first c of p + [c] + q, when p has none, is the one after p. */
  lemma IndexOfFirst(p: string, q: string, c: char)
    requires c !in p
    ensures IndexOf(p + [c] + q, c) == |p|
  {
    var s := p + [c] + q;
    assert s[|p|] == c;
    assert s[..|p|] == p;
  }

  /** The last piece of a split. */
  function LastPiece(s: string, c: char): string {
    var pieces := Split(s, c);
    pieces[|pieces| - 1]
  }

  /**
   * The last piece of a split is the text after the last c (all of s when s
   * has no c), and the character just before it is that c.
   */
  lemma {:induction false} LastPieceIsTail(s: string, c: char)
    ensures |LastPiece(s, c)| <= |s| && s[|s| - |LastPiece(s, c)|..] == LastPiece(s, c)
    ensures c !in LastPiece(s, c)
    ensures |LastPiece(s, c)| < |s| ==> s[|s| - |LastPiece(s, c)| - 1] == c
    ensures |LastPiece(s, c)| == |s| ==> c !in s
    decreases |s|
  {
    var k := IndexOf(s, c);
    if k >= 0 {
      var s1 := s[k + 1..];
      LastPieceIsTail(s1, c);
      var last := LastPiece(s1, c);
      assert LastPiece(s, c) == last;
      assert s[|s| - |last|..] == s1[|s1| - |last|..];
      if |last| < |s1| {
        assert s[|s| - |last| - 1] == s1[|s1| - |last| - 1];
      }
    }
  }

  // ---------------------------------------------------------------------------
  // Decimal digits: `replace(/[^0-9]/g, "")`, `parseInt(·, 10)`, `${n}`
  // ---------------------------------------------------------------------------

  predicate IsDigit(c: char) {
    '0' <= c <= '9'
  }

  predicate AllDigits(s: string) {
    forall i :: 0 <= i < |s| ==> IsDigit(s[i])
  }

  function DigitValue(c: char): nat
    requires IsDigit(c)
  {
    c as int - '0' as int
  }

  function DigitChar(d: nat): (c: char)
    requires d < 10
    ensures IsDigit(c) && DigitValue(c) == d
  {
    ('0' as int + d) as char
  }

  /** `s.replace(/[^0-9]/g, "")`: the digits of s, in order. */
  function Digits(s: string): (r: string)
    ensures AllDigits(r)
    ensures AllDigits(s) ==> r == s
    decreases |s|
  {
    if |s| == 0 then ""
    else if IsDigit(s[0]) then [s[0]] + Digits(s[1..])
    else Digits(s[1..])
  }

  lemma {:induction false} DigitsAppend(s: string, t: string)
    ensures Digits(s + t) == Digits(s) + Digits(t)
    decreases |s|
  {
    if |s| > 0 {
      assert (s + t)[1..] == s[1..] + t;
      DigitsAppend(s[1..], t);
    } else {
      assert s + t == t;
    }
  }

  /** The value of a string of decimal digits (0 for the empty string). */
  function DecimalValue(ds: string): nat
    requires AllDigits(ds)
    decreases |ds|
  {
    if |ds| == 0 then 0
    else DecimalValue(ds[..|ds| - 1]) * 10 + DigitValue(ds[|ds| - 1])
  }

  /** `${n}` for a natural number: its decimal digits without leading zeros. */
  function DecimalString(n: nat): (r: string)
    ensures |r| > 0 && AllDigits(r)
    ensures |r| > 1 ==> r[0] != '0'
    decreases n
  {
    if n < 10 then [DigitChar(n)]
    else DecimalString(n / 10) + [DigitChar(n % 10)]
  }

  lemma {:induction false} DecimalRoundTrip(n: nat)
    ensures DecimalValue(DecimalString(n)) == n
    decreases n
  {
    if n >= 10 {
      var r := DecimalString(n);
      assert r[..|r| - 1] == DecimalString(n / 10);
      DecimalRoundTrip(n / 10);
    }
  }
}
