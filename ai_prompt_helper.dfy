/** The "AI Diagram Assistant" box (src/components/AIPromptHelper.tsx): a
    custom prompt is classified by its own keyword chain, narrower than the
    one of the generate panel, and handed on unchanged with that type; the
    quick-start buttons hand on a fixed text with a fixed type. */
module AIPromptHelper {
  import opened Text
  import opened Diagram
  import opened KeywordTable
  import AIPromptInterface

  /** The if/else-if chain of `handleCustomPrompt`, over the lower-cased prompt. */
  function ClassifyPrompt(prompt: string): DiagramType {
    if Contains(prompt, "sequence") || Contains(prompt, "interaction")
      || Contains(prompt, "communication") then Sequence
    else if Contains(prompt, "class") || Contains(prompt, "object")
      || Contains(prompt, "inheritance") then Class
    else if Contains(prompt, "timeline") || Contains(prompt, "schedule")
      || Contains(prompt, "gantt") then Gantt
    else if Contains(prompt, "database") || Contains(prompt, "entity")
      || Contains(prompt, "relationship") then Er
    else if Contains(prompt, "mind") || Contains(prompt, "hierarchy")
      || Contains(prompt, "concept") then Mindmap
    else Flowchart
  }

  /** The chain's categories and keywords, in the order it tests them. */
  const HelperTable: seq<Row> := [
    Row(Sequence, ["sequence", "interaction", "communication"]),
    Row(Class, ["class", "object", "inheritance"]),
    Row(Gantt, ["timeline", "schedule", "gantt"]),
    Row(Er, ["database", "entity", "relationship"]),
    Row(Mindmap, ["mind", "hierarchy", "concept"])
  ]

  lemma HelperTableWellOrdered()
    ensures WellOrdered(HelperTable)
  {
  }

  lemma MentionsAnyOfThree(s: string, a: string, b: string, c: string)
    ensures MentionsAny(s, [a, b, c]) <==> Contains(s, a) || Contains(s, b) || Contains(s, c)
  {
    var ks := [a, b, c];
    if Contains(s, a) { assert Contains(s, ks[0]); }
    if Contains(s, b) { assert Contains(s, ks[1]); }
    if Contains(s, c) { assert Contains(s, ks[2]); }
  }

  /** The chain is the first-match rule over its table. */
  lemma ClassifyIsFirstMatch(s: string)
    ensures ClassifyPrompt(s) == FirstMatch(HelperTable, s)
  {
    var t := HelperTable;
    MentionsAnyOfThree(s, "sequence", "interaction", "communication");
    MentionsAnyOfThree(s, "class", "object", "inheritance");
    MentionsAnyOfThree(s, "timeline", "schedule", "gantt");
    MentionsAnyOfThree(s, "database", "entity", "relationship");
    MentionsAnyOfThree(s, "mind", "hierarchy", "concept");
    assert FirstMatch(t[5..], s) == Flowchart;
    assert FirstMatch(t[4..], s) == if MentionsAny(s, t[4].keywords) then Mindmap else FirstMatch(t[5..], s) by {
      assert t[4..][1..] == t[5..];
    }
    assert FirstMatch(t[3..], s) == if MentionsAny(s, t[3].keywords) then Er else FirstMatch(t[4..], s) by {
      assert t[3..][1..] == t[4..];
    }
    assert FirstMatch(t[2..], s) == if MentionsAny(s, t[2].keywords) then Gantt else FirstMatch(t[3..], s) by {
      assert t[2..][1..] == t[3..];
    }
    assert FirstMatch(t[1..], s) == if MentionsAny(s, t[1].keywords) then Class else FirstMatch(t[2..], s) by {
      assert t[1..][1..] == t[2..];
    }
  }

  /** `flowchart` exactly when none of the fifteen keywords occurs. */
  lemma ClassifyFlowchartIffNoKeyword(s: string)
    ensures ClassifyPrompt(s) == Flowchart <==>
      forall i :: 0 <= i < |HelperTable| ==> !MentionsAny(s, HelperTable[i].keywords)
  {
    ClassifyIsFirstMatch(s);
    HelperTableWellOrdered();
    FirstMatchFallback(HelperTable, s);
  }

  /** Priority: sequence, then class, gantt, er and mindmap. */
  lemma ClassifyPriority(s: string, i: nat)
    requires i < |HelperTable| && MentionsAny(s, HelperTable[i].keywords)
    requires forall j :: 0 <= j < i ==> !MentionsAny(s, HelperTable[j].keywords)
    ensures ClassifyPrompt(s) == HelperTable[i].kind
  {
    ClassifyIsFirstMatch(s);
    FirstMatchPriority(HelperTable, s, i);
  }

  // ---------------------------------------------------------------------
  // handleCustomPrompt

  /** What `handleCustomPrompt` passes to `onGeneratePrompt`: nothing for a
      blank prompt, else the prompt as typed with the type of its
      lower-cased copy. */
  function HandleCustomPrompt(customPrompt: string): Option<(string, DiagramType)> {
    if Trim(customPrompt) == "" then None
    else Some((customPrompt, ClassifyPrompt(LowerStr(customPrompt))))
  }

  /** A blank prompt produces no callback; otherwise the callback gets the
      prompt text unchanged, and a type that does not depend on its case. */
  lemma HandleCustomPromptPassesText(customPrompt: string)
    ensures HandleCustomPrompt(customPrompt).None? <==> IsBlank(customPrompt)
    ensures HandleCustomPrompt(customPrompt).Some? ==>
      && HandleCustomPrompt(customPrompt).value.0 == customPrompt
      && HandleCustomPrompt(customPrompt).value.1 == ClassifyPrompt(LowerStr(customPrompt))
    ensures HandleCustomPrompt(LowerStr(customPrompt)).None? <==> HandleCustomPrompt(customPrompt).None?
    ensures HandleCustomPrompt(customPrompt).Some? ==>
      HandleCustomPrompt(LowerStr(customPrompt)).value.1 == HandleCustomPrompt(customPrompt).value.1
  {
    TrimEmptyIffBlank(customPrompt);
    TrimEmptyIffBlank(LowerStr(customPrompt));
    LowerStrIdempotent(customPrompt);
    LowerKeepsBlank(customPrompt);
  }

  /** The submit button's `disabled` condition. */
  predicate SubmitDisabled(customPrompt: string) {
    Trim(customPrompt) == ""
  }

  lemma SubmitDisabledIffNoCallback(customPrompt: string)
    ensures SubmitDisabled(customPrompt) <==> HandleCustomPrompt(customPrompt).None?
    ensures SubmitDisabled(customPrompt) <==> IsBlank(customPrompt)
  {
    TrimEmptyIffBlank(customPrompt);
  }

  // ---------------------------------------------------------------------
  // The two classifiers compared

  /** This chain tests the generate panel's categories with a subset of its
      keywords: it lacks "api", "oop", "project plan", "table" and
      "brainstorm". */
  lemma HelperNarrowerThanSuggest()
    ensures Narrower(HelperTable, AIPromptInterface.SuggestTable)
  {
  }

  /** The generate panel puts every text in the same category as this chain,
      or in an earlier one. */
  lemma SuggestRanksNoLater(prompt: string)
    ensures Rank(AIPromptInterface.SuggestDiagramType(prompt)) <= Rank(ClassifyPrompt(LowerStr(prompt)))
  {
    var s := LowerStr(prompt);
    AIPromptInterface.SuggestIsFirstMatch(prompt);
    ClassifyIsFirstMatch(s);
    AIPromptInterface.SuggestTableWellOrdered();
    HelperNarrowerThanSuggest();
    WiderTableRanksNoLater(AIPromptInterface.SuggestTable, HelperTable, s);
  }

  /** The keywords only the generate panel knows, row by row. */
  lemma ExtraKeywords(i: int, k: string)
    requires 0 <= i < 5 && k in AIPromptInterface.SuggestTable[i].keywords && k !in HelperTable[i].keywords
    ensures k in ["api", "oop", "project plan", "table", "brainstorm"]
  {
  }

  /** Without "api", "oop", "project plan", "table" and "brainstorm" in the
      lower-cased prompt, both classifiers give the same type. */
  lemma ClassifiersAgree(prompt: string)
    requires forall k :: k in ["api", "oop", "project plan", "table", "brainstorm"] ==> !Contains(LowerStr(prompt), k)
    ensures AIPromptInterface.SuggestDiagramType(prompt) == ClassifyPrompt(LowerStr(prompt))
  {
    var s := LowerStr(prompt);
    var a := AIPromptInterface.SuggestTable;
    AIPromptInterface.SuggestIsFirstMatch(prompt);
    ClassifyIsFirstMatch(s);
    HelperNarrowerThanSuggest();
    forall i, k | 0 <= i < |a| && k in a[i].keywords && k !in HelperTable[i].keywords
      ensures !Contains(s, k)
    {
      ExtraKeywords(i, k);
    }
    TablesAgreeWithoutExtraKeywords(a, HelperTable, s);
  }

  // ---------------------------------------------------------------------
  // Quick-start ideas

  datatype Suggestion = Suggestion(text: string, kind: DiagramType)
  datatype Category = Category(name: string, suggestions: seq<Suggestion>)

  const QuickStart: seq<Category> := [
    Category("Business Process", [
      Suggestion("User registration and onboarding flow", Flowchart),
      Suggestion("E-commerce order processing", Sequence),
      Suggestion("Customer support ticket lifecycle", Flowchart)
    ]),
    Category("Software Architecture", [
      Suggestion("Microservices communication", Sequence),
      Suggestion("Database relationships for blog system", Er),
      Suggestion("Class structure for inventory system", Class)
    ]),
    Category("Project Management", [
      Suggestion("Software development sprint timeline", Gantt),
      Suggestion("Product feature roadmap", Gantt),
      Suggestion("Project dependencies and milestones", Flowchart)
    ])
  ]

  /** A quick-start button's click: the suggestion's own text and type,
      without the custom prompt's blank check or classifier. The offered
      texts start with a letter, and no button offers a mindmap. */
  function QuickStartClick(c: nat, j: nat): (r: (string, DiagramType))
    requires c < |QuickStart| && j < |QuickStart[c].suggestions|
    ensures r.0 != [] && 'A' <= r.0[0] <= 'Z'
    ensures r.1 != Mindmap
  {
    (QuickStart[c].suggestions[j].text, QuickStart[c].suggestions[j].kind)
  }

  /** Some quick-start button offers type `t`. */
  predicate Offered(t: DiagramType) {
    exists c, j :: 0 <= c < |QuickStart| && 0 <= j < |QuickStart[c].suggestions| && QuickStart[c].suggestions[j].kind == t
  }

  /** Every quick-start text is non-blank: had it been typed as a custom
      prompt it would have passed the check, and the callback would have
      received the same text. */
  lemma QuickStartTextsPassGuard(c: nat, j: nat)
    requires c < |QuickStart| && j < |QuickStart[c].suggestions|
    ensures HandleCustomPrompt(QuickStartClick(c, j).0).Some?
    ensures HandleCustomPrompt(QuickStartClick(c, j).0).value.0 == QuickStartClick(c, j).0
  {
    var t := QuickStartClick(c, j).0;
    assert !IsSpace(t[0]);
    TrimEmptyIffBlank(t);
  }

  /** The buttons offer every category but `mindmap`. */
  lemma QuickStartKinds()
    ensures forall t :: Offered(t) <==> t != Mindmap
  {
    forall t
      ensures Offered(t) <==> t != Mindmap
    {
      match t
      case Flowchart => assert QuickStart[0].suggestions[0].kind == t;
      case Sequence => assert QuickStart[0].suggestions[1].kind == t;
      case Class => assert QuickStart[1].suggestions[2].kind == t;
      case Gantt => assert QuickStart[2].suggestions[0].kind == t;
      case Er => assert QuickStart[1].suggestions[1].kind == t;
      case Mindmap =>
    }
  }
}
