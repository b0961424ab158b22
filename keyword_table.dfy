/** The shape both diagram-type classifiers share: an ordered list of
    categories, each with its keywords, where the first category one of whose
    keywords occurs in the lower-cased text wins, and `Flowchart` is the
    fallback. The classifiers themselves are if/else-if chains; this module
    is the reference they are proved against, and the place where two
    tables are compared. */
module KeywordTable {
  import opened Text
  import opened Diagram

  datatype Row = Row(kind: DiagramType, keywords: seq<string>)

  predicate MentionsAny(s: string, keywords: seq<string>) {
    exists i :: 0 <= i < |keywords| && Contains(s, keywords[i])
  }

  /** The kind of the first row with a keyword in `s`, else `Flowchart`. */
  function FirstMatch(rows: seq<Row>, s: string): DiagramType
  {
    if rows == [] then Flowchart
    else if MentionsAny(s, rows[0].keywords) then rows[0].kind
    else FirstMatch(rows[1..], s)
  }

  /** The rows test the categories in `Rank` order, and none of them is the
      fallback. */
  predicate WellOrdered(rows: seq<Row>) {
    && (forall i :: 0 <= i < |rows| ==> rows[i].kind != Flowchart)
    && (forall i, j :: 0 <= i < j < |rows| ==> Rank(rows[i].kind) < Rank(rows[j].kind))
  }

  /** `b` tests the same categories as `a`, with a subset of `a`'s keywords. */
  predicate Narrower(b: seq<Row>, a: seq<Row>) {
    && |b| == |a|
    && (forall i :: 0 <= i < |a| ==> b[i].kind == a[i].kind)
    && (forall i, k :: 0 <= i < |a| && k in b[i].keywords ==> k in a[i].keywords)
  }

  /** `s` contains none of the keywords `a` has beyond `b`. */
  predicate NoExtraKeyword(s: string, b: seq<Row>, a: seq<Row>)
    requires |b| == |a|
  {
    forall i, k :: 0 <= i < |a| && k in a[i].keywords && k !in b[i].keywords ==> !Contains(s, k)
  }

  /** Fallback exactly when no keyword of any row occurs. */
  lemma {:induction false} FirstMatchFallback(rows: seq<Row>, s: string)
    requires WellOrdered(rows)
    ensures FirstMatch(rows, s) == Flowchart <==>
      forall i :: 0 <= i < |rows| ==> !MentionsAny(s, rows[i].keywords)
  {
    if rows != [] {
      FirstMatchFallback(rows[1..], s);
      if !MentionsAny(s, rows[0].keywords) {
        assert forall i :: 1 <= i < |rows| ==> rows[i] == rows[1..][i - 1];
      }
    }
  }

  /** Priority: the first row with a keyword in `s` decides, whatever later
      rows match. */
  lemma {:induction false} FirstMatchPriority(rows: seq<Row>, s: string, i: nat)
    requires i < |rows| && MentionsAny(s, rows[i].keywords)
    requires forall j :: 0 <= j < i ==> !MentionsAny(s, rows[j].keywords)
    ensures FirstMatch(rows, s) == rows[i].kind
  {
    if i > 0 {
      assert !MentionsAny(s, rows[0].keywords);
      FirstMatchPriority(rows[1..], s, i - 1);
    }
  }

  /** A table with more keywords per category classifies a text into the
      same category or an earlier one. */
  lemma {:induction false} WiderTableRanksNoLater(a: seq<Row>, b: seq<Row>, s: string)
    requires WellOrdered(a) && Narrower(b, a)
    ensures Rank(FirstMatch(a, s)) <= Rank(FirstMatch(b, s))
  {
    if a != [] {
      if MentionsAny(s, b[0].keywords) {
        var i :| 0 <= i < |b[0].keywords| && Contains(s, b[0].keywords[i]);
        var k := b[0].keywords[i];
        assert k in a[0].keywords;
        var j :| 0 <= j < |a[0].keywords| && a[0].keywords[j] == k;
        assert MentionsAny(s, a[0].keywords);
      } else if MentionsAny(s, a[0].keywords) {
        assert Rank(FirstMatch(a, s)) == Rank(a[0].kind);
        FirstMatchRankBound(b[1..], s, Rank(b[0].kind));
      } else {
        WiderTableRanksNoLater(a[1..], b[1..], s);
      }
    }
  }

  /** Every row after the first ranks after it, so their match does too. */
  lemma {:induction false} FirstMatchRankBound(rows: seq<Row>, s: string, r: nat)
    requires forall i :: 0 <= i < |rows| ==> r < Rank(rows[i].kind)
    requires r < 5
    ensures r < Rank(FirstMatch(rows, s))
  {
    if rows != [] && !MentionsAny(s, rows[0].keywords) {
      FirstMatchRankBound(rows[1..], s, r);
    }
  }

  /** Two tables agree on a text that holds none of the keywords by which
      they differ. */
  lemma {:induction false} TablesAgreeWithoutExtraKeywords(a: seq<Row>, b: seq<Row>, s: string)
    requires Narrower(b, a) && NoExtraKeyword(s, b, a)
    ensures FirstMatch(a, s) == FirstMatch(b, s)
  {
    if a != [] {
      assert MentionsAny(s, a[0].keywords) <==> MentionsAny(s, b[0].keywords) by {
        if MentionsAny(s, a[0].keywords) {
          var i :| 0 <= i < |a[0].keywords| && Contains(s, a[0].keywords[i]);
          var k := a[0].keywords[i];
          assert k in b[0].keywords;
          var j :| 0 <= j < |b[0].keywords| && b[0].keywords[j] == k;
        }
        if MentionsAny(s, b[0].keywords) {
          var i :| 0 <= i < |b[0].keywords| && Contains(s, b[0].keywords[i]);
          assert b[0].keywords[i] in a[0].keywords;
        }
      }
      assert Narrower(b[1..], a[1..]) by {
        forall i, k | 0 <= i < |a| - 1 && k in b[1..][i].keywords ensures k in a[1..][i].keywords {
          assert b[1..][i] == b[i + 1];
        }
      }
      TablesAgreeWithoutExtraKeywords(a[1..], b[1..], s);
    }
  }
}
