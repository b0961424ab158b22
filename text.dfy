/** String primitives the application relies on: `toLowerCase`, `trim`,
    `includes`, `indexOf` and `replace` with a string pattern, over Dafny's
    `string` (a sequence of Unicode scalar values). */
module Text {

  datatype Option<T> = None | Some(value: T)

  // ---------------------------------------------------------------------
  // Lower-casing (ASCII letters only)

  function Lower(c: char): (d: char)
    ensures 'A' <= c <= 'Z' ==> d as int == c as int + 32
    ensures !('A' <= c <= 'Z') ==> d == c
    ensures !('A' <= d <= 'Z')
  {
    if 'A' <= c <= 'Z' then (c as int + 32) as char else c
  }

  /** `s.toLowerCase()`, restricted to the ASCII letters. */
  function LowerStr(s: string): (r: string)
    ensures |r| == |s|
    ensures forall i :: 0 <= i < |s| ==> r[i] == Lower(s[i])
  {
    if s == [] then [] else [Lower(s[0])] + LowerStr(s[1..])
  }

  lemma {:induction false} LowerStrIdempotent(s: string)
    ensures LowerStr(LowerStr(s)) == LowerStr(s)
  {
    if s != [] {
      LowerStrIdempotent(s[1..]);
      assert LowerStr(s)[1..] == LowerStr(s[1..]);
    }
  }

  // ---------------------------------------------------------------------
  // Whitespace and trim

  /** ECMAScript WhiteSpace and LineTerminator code points, the set
      `String.prototype.trim` strips. */
  predicate IsSpace(c: char) {
    || c == '\t' || c == '\n' || c == '\U{000B}' || c == '\U{000C}' || c == '\r'
    || c == ' ' || c == '\U{00A0}' || c == '\U{1680}'
    || ('\U{2000}' <= c <= '\U{200A}')
    || c == '\U{2028}' || c == '\U{2029}' || c == '\U{202F}' || c == '\U{205F}'
    || c == '\U{3000}' || c == '\U{FEFF}'
  }

  predicate IsBlank(s: string) {
    forall i :: 0 <= i < |s| ==> IsSpace(s[i])
  }

  /** Lower-casing neither creates nor removes white space. */
  lemma LowerKeepsBlank(s: string)
    ensures forall i :: 0 <= i < |s| ==> (IsSpace(LowerStr(s)[i]) <==> IsSpace(s[i]))
    ensures IsBlank(LowerStr(s)) <==> IsBlank(s)
  {
  }

  function TrimStart(s: string): (r: string)
    ensures |r| <= |s| && r == s[|s| - |r|..]
    ensures r == [] || !IsSpace(r[0])
    ensures IsBlank(s[..|s| - |r|])
  {
    if s != [] && IsSpace(s[0]) then TrimStart(s[1..]) else s
  }

  function TrimEnd(s: string): (r: string)
    ensures |r| <= |s| && r == s[..|r|]
    ensures r == [] || !IsSpace(r[|r| - 1])
    ensures IsBlank(s[|r|..])
  {
    if s != [] && IsSpace(s[|s| - 1]) then TrimEnd(s[..|s| - 1]) else s
  }

  /** `s.trim()`: the longest slice of `s` that neither starts nor ends
      with whitespace, once the surrounding whitespace is dropped. */
  function Trim(s: string): (r: string)
  {
    TrimEnd(TrimStart(s))
  }

  /** `!s.trim()` in the source: the trimmed text is empty exactly when every
      character of `s` is whitespace. */
  lemma TrimEmptyIffBlank(s: string)
    ensures Trim(s) == [] <==> IsBlank(s)
  {
    var t := TrimStart(s);
    if Trim(s) == [] {
      assert IsBlank(t[0..]);
      assert s == s[..|s| - |t|] + t;
    } else {
      var r := Trim(s);
      var k := |s| - |t|;
      assert s[k] == t[0] == r[0];
      assert !IsSpace(s[k]);
    }
  }

  /** `trim` drops white space only, and only at the two ends: the result is
      a slice of `s` with blank text before and after it, and it neither
      starts nor ends with white space. */
  lemma TrimKeepsInnerText(s: string)
    ensures Trim(s) == [] || (!IsSpace(Trim(s)[0]) && !IsSpace(Trim(s)[|Trim(s)| - 1]))
    ensures exists i, j :: 0 <= i <= j <= |s| && Trim(s) == s[i..j] && IsBlank(s[..i]) && IsBlank(s[j..])
  {
    BlankAroundSlice(s, TrimStart(s), Trim(s));
    PrefixKeepsFirst(TrimStart(s), Trim(s));
  }

  lemma PrefixKeepsFirst(t: string, r: string)
    requires t == [] || !IsSpace(t[0])
    requires |r| <= |t| && r == t[..|r|]
    ensures r == [] || !IsSpace(r[0])
  {
    if r != [] {
      assert r[0] == t[0];
    }
  }

  /** A prefix `r` of a suffix `t` of `s`, with blank text before `t` and
      between `r` and the end of `t`, is a slice of `s` with blank text
      around it. */
  lemma BlankAroundSlice(s: string, t: string, r: string)
    requires |t| <= |s| && t == s[|s| - |t|..] && IsBlank(s[..|s| - |t|])
    requires |r| <= |t| && r == t[..|r|] && IsBlank(t[|r|..])
    ensures exists i, j :: 0 <= i <= j <= |s| && r == s[i..j] && IsBlank(s[..i]) && IsBlank(s[j..])
  {
    var i := |s| - |t|;
    assert s[i..][..|r|] == s[i..i + |r|];
    assert s[i..][|r|..] == s[i + |r|..];
    assert r == s[i..i + |r|] && IsBlank(s[..i]) && IsBlank(s[i + |r|..]);
  }


  // ---------------------------------------------------------------------
  // Substring search

  predicate StartsWith(s: string, p: string) {
    |p| <= |s| && s[..|p|] == p
  }

  /** `p` occurs in `s` beginning at index `i`. */
  predicate OccursAt(s: string, p: string, i: int) {
    0 <= i && i + |p| <= |s| && s[i..i + |p|] == p
  }

  /** Two slices of the same length agree when their characters do. */
  lemma SlicesAgree(s: string, t: string, i: int, j: int, n: int)
    requires 0 <= n && 0 <= i && i + n <= |s| && 0 <= j && j + n <= |t|
    requires forall k :: i <= k < i + n ==> s[k] == t[k - i + j]
    ensures s[i..i + n] == t[j..j + n]
  {
    var a, b := s[i..i + n], t[j..j + n];
    forall k | 0 <= k < n
      ensures a[k] == b[k]
    {
      assert a[k] == s[k + i] && b[k] == t[k + i - i + j];
    }
  }

  /** An occurrence at index 0 is a prefix. */
  lemma OccursAtStart(s: string, p: string)
    ensures OccursAt(s, p, 0) <==> StartsWith(s, p)
  {
    if |p| <= |s| {
      assert s[0..|p|] == s[..|p|];
    }
  }

  /** `s.includes(p)`. */
  predicate Contains(s: string, p: string)
    decreases |s|
  {
    StartsWith(s, p) || (s != [] && Contains(s[1..], p))
  }

  lemma {:induction false} ContainsIffOccurs(s: string, p: string)
    ensures Contains(s, p) <==> exists i :: OccursAt(s, p, i)
    decreases |s|
  {
    OccursAtStart(s, p);
    if !StartsWith(s, p) && s != [] {
      ContainsIffOccurs(s[1..], p);
      ShiftOccurs(s, p);
      if Contains(s[1..], p) {
        var i :| OccursAt(s[1..], p, i);
        assert OccursAt(s, p, i + 1);
      }
    }
  }

  /** An occurrence of `p` at `i` puts `p`'s characters at `i` onwards. */
  lemma OccurrenceChars(s: string, p: string, i: int)
    requires OccursAt(s, p, i)
    ensures forall k :: 0 <= k < |p| ==> s[i + k] == p[k]
  {
    forall k | 0 <= k < |p| ensures s[i + k] == p[k] {
      assert s[i..i + |p|][k] == p[k];
    }
  }

  lemma OccurrenceCharAt(s: string, p: string, i: int, k: int)
    requires OccursAt(s, p, i) && 0 <= k < |p|
    ensures s[i + k] == p[k]
  {
    OccurrenceChars(s, p, i);
  }

  /** A pattern holding a character `s` lacks does not occur in `s`. */
  lemma AbsentCharRulesOut(s: string, p: string, c: char)
    requires c in p && c !in s
    ensures !Contains(s, p)
  {
    ContainsIffOccurs(s, p);
    forall i | OccursAt(s, p, i) ensures false {
      OccurrenceChars(s, p, i);
    }
  }

  /** In `a + [c] + b`, where neither `a` nor `b` holds `c`, the one `c` is at `|a|`. */
  lemma OnlyIndexOf(a: string, c: char, b: string)
    requires c !in a && c !in b
    ensures forall j :: 0 <= j < |a + [c] + b| && (a + [c] + b)[j] == c ==> j == |a|
  {
    var s := a + [c] + b;
    forall j | 0 <= j < |s| && s[j] == c ensures j == |a| {
    }
  }

  /** A pattern holding `c` twice does not occur in a text holding `c` once. */
  lemma SingleCharRulesOut(a: string, c: char, b: string, p: string, k1: nat, k2: nat)
    requires c !in a && c !in b
    requires k1 < k2 < |p| && p[k1] == c && p[k2] == c
    ensures !Contains(a + [c] + b, p)
  {
    var s := a + [c] + b;
    OnlyIndexOf(a, c, b);
    ContainsIffOccurs(s, p);
    forall i | OccursAt(s, p, i) ensures false {
      OccurrenceChars(s, p, i);
    }
  }

  /** `s.indexOf(p)`, with `None` for -1. */
  function FirstOccurrence(s: string, p: string): (r: Option<nat>)
    ensures r.Some? ==> OccursAt(s, p, r.value)
    ensures r.Some? ==> forall j :: 0 <= j < r.value ==> !OccursAt(s, p, j)
    ensures r.None? ==> forall j :: !OccursAt(s, p, j)
    decreases |s|
  {
    if StartsWith(s, p) then Some(0)
    else if s == [] then None
    else
      var r := FirstOccurrence(s[1..], p);
      ShiftOccurs(s, p);
      if r.None? then None else Some(r.value + 1)
  }

  /** Occurrences in `s` after index 0 are the occurrences in `s[1..]`. */
  lemma ShiftOccurs(s: string, p: string)
    requires s != []
    ensures forall j :: 1 <= j ==> (OccursAt(s, p, j) <==> OccursAt(s[1..], p, j - 1))
  {
    forall j | 1 <= j
      ensures OccursAt(s, p, j) <==> OccursAt(s[1..], p, j - 1)
    {
      if j + |p| <= |s| {
        SlicesAgree(s, s[1..], j, j - 1, |p|);
      }
    }
  }

  /** An occurrence that ends within `s` is one of `s + t`, and back. */
  lemma OccursInPrefix(s: string, t: string, p: string, j: int)
    requires 0 <= j && j + |p| <= |s|
    ensures OccursAt(s + t, p, j) <==> OccursAt(s, p, j)
  {
    assert (s + t)[j..j + |p|] == s[j..j + |p|];
  }

  /** Text appended after the first occurrence does not move it. */
  lemma FirstOccurrenceExtends(s: string, t: string, p: string, i: nat)
    requires FirstOccurrence(s, p) == Some(i)
    ensures FirstOccurrence(s + t, p) == Some(i)
  {
    var u := s + t;
    OccursInPrefix(s, t, p, i);
    forall j | 0 <= j < i ensures !OccursAt(u, p, j) {
      OccursInPrefix(s, t, p, j);
    }
    FirstOccurrenceIsEarliest(u, p, i);
  }

  /** An occurrence with none before it is the one `indexOf` finds. */
  lemma FirstOccurrenceIsEarliest(s: string, p: string, i: nat)
    requires OccursAt(s, p, i)
    requires forall j :: 0 <= j < i ==> !OccursAt(s, p, j)
    ensures FirstOccurrence(s, p) == Some(i)
  {
    var r := FirstOccurrence(s, p);
    assert r.Some?;
    assert !(r.value < i);
    assert !(i < r.value);
  }

  /** `s.replace(p, r)` for a string pattern `p`: the first occurrence of
      `p`, if any, is replaced by `r`. */
  function ReplaceFirst(s: string, p: string, r: string): string
    decreases |s|
  {
    if StartsWith(s, p) then r + s[|p|..]
    else if s == [] then s
    else [s[0]] + ReplaceFirst(s[1..], p, r)
  }

  /** `s` with its `n` characters from index `i` replaced by `r`. */
  function Splice(s: string, i: nat, n: nat, r: string): string
    requires i + n <= |s|
  {
    s[..i] + r + s[i + n..]
  }

  /** Without an occurrence of `p`, ReplaceFirst changes nothing. */
  lemma {:induction false} ReplaceFirstAbsent(s: string, p: string, r: string)
    requires FirstOccurrence(s, p).None?
    ensures ReplaceFirst(s, p, r) == s
    decreases |s|
  {
    if s != [] {
      ReplaceFirstAbsent(s[1..], p, r);
    }
  }

  /** ReplaceFirst splices `r` in at `indexOf`. */
  lemma {:induction false} ReplaceFirstAtFirstOccurrence(s: string, p: string, r: string, i: nat)
    requires FirstOccurrence(s, p) == Some(i)
    ensures ReplaceFirst(s, p, r) == Splice(s, i, |p|, r)
    decreases |s|
  {
    if !StartsWith(s, p) {
      var t := s[1..];
      assert FirstOccurrence(t, p) == Some(i - 1);
      ReplaceFirstAtFirstOccurrence(t, p, r, i - 1);
      assert ReplaceFirst(s, p, r) == [s[0]] + ReplaceFirst(t, p, r);
      SpliceAfterFirst(s, i, |p|, r);
    }
  }

  /** Splicing after the first character commutes with dropping it. */
  lemma SpliceAfterFirst(s: string, i: nat, n: nat, r: string)
    requires 0 < i && i + n <= |s|
    ensures [s[0]] + Splice(s[1..], i - 1, n, r) == Splice(s, i, n, r)
  {
    assert [s[0]] + s[1..][..i - 1] == s[..i];
    assert s[1..][i - 1 + n..] == s[i + n..];
  }

  /** Text appended after the first occurrence is kept after the replacement. */
  lemma ReplaceFirstExtends(s: string, t: string, p: string, r: string, i: nat)
    requires FirstOccurrence(s, p) == Some(i)
    ensures ReplaceFirst(s + t, p, r) == ReplaceFirst(s, p, r) + t
  {
    FirstOccurrenceExtends(s, t, p, i);
    ReplaceFirstAtFirstOccurrence(s + t, p, r, i);
    ReplaceFirstAtFirstOccurrence(s, p, r, i);
    SpliceExtends(s, t, i, |p|, r);
  }

  lemma SpliceExtends(s: string, t: string, i: nat, n: nat, r: string)
    requires i + n <= |s|
    ensures Splice(s + t, i, n, r) == Splice(s, i, n, r) + t
  {
    assert (s + t)[..i] == s[..i];
    assert (s + t)[i + n..] == s[i + n..] + t;
  }

  // ---------------------------------------------------------------------
  // Multi-line template texts

  /** The lines joined with line feeds, as a JavaScript template literal
      spanning several lines holds them. */
  function JoinLines(lines: seq<string>): string
  {
    if lines == [] then ""
    else if |lines| == 1 then lines[0]
    else lines[0] + "\n" + JoinLines(lines[1..])
  }

  lemma JoinLinesStartsWithFirst(lines: seq<string>)
    requires lines != []
    ensures StartsWith(JoinLines(lines), lines[0])
  {
    if |lines| > 1 {
      assert JoinLines(lines) == lines[0] + ("\n" + JoinLines(lines[1..]));
    }
  }
}
