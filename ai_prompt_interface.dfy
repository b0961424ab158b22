/** The "AI Diagram Generator" panel (src/components/AIPromptInterface.tsx):
    a keyword classifier picks a diagram type for the prompt, and the
    generate button runs the generator for that type after a simulated
    delay, with an `isGenerating` flag set in between. */
module AIPromptInterface {
  import opened Text
  import opened Diagram
  import opened KeywordTable
  import DiagramCode

  /** `suggestDiagramType`: ordered case-insensitive substring tests. */
  function SuggestDiagramType(text: string): DiagramType {
    var lower := LowerStr(text);
    if Contains(lower, "sequence") || Contains(lower, "interaction")
      || Contains(lower, "communication") || Contains(lower, "api") then Sequence
    else if Contains(lower, "class") || Contains(lower, "object")
      || Contains(lower, "inheritance") || Contains(lower, "oop") then Class
    else if Contains(lower, "timeline") || Contains(lower, "schedule")
      || Contains(lower, "gantt") || Contains(lower, "project plan") then Gantt
    else if Contains(lower, "database") || Contains(lower, "entity")
      || Contains(lower, "relationship") || Contains(lower, "table") then Er
    else if Contains(lower, "mind") || Contains(lower, "concept")
      || Contains(lower, "hierarchy") || Contains(lower, "brainstorm") then Mindmap
    else Flowchart
  }

  /** The classifier's categories and keywords, in the order it tests them. */
  const SuggestTable: seq<Row> := [
    Row(Sequence, ["sequence", "interaction", "communication", "api"]),
    Row(Class, ["class", "object", "inheritance", "oop"]),
    Row(Gantt, ["timeline", "schedule", "gantt", "project plan"]),
    Row(Er, ["database", "entity", "relationship", "table"]),
    Row(Mindmap, ["mind", "concept", "hierarchy", "brainstorm"])
  ]

  lemma SuggestTableWellOrdered()
    ensures WellOrdered(SuggestTable)
  {
  }

  lemma MentionsAnyOfFour(s: string, a: string, b: string, c: string, d: string)
    ensures MentionsAny(s, [a, b, c, d]) <==> Contains(s, a) || Contains(s, b) || Contains(s, c) || Contains(s, d)
  {
    var ks := [a, b, c, d];
    if Contains(s, a) { assert Contains(s, ks[0]); }
    if Contains(s, b) { assert Contains(s, ks[1]); }
    if Contains(s, c) { assert Contains(s, ks[2]); }
    if Contains(s, d) { assert Contains(s, ks[3]); }
  }

  /** The if/else-if chain is the first-match rule over its table. */
  lemma SuggestIsFirstMatch(text: string)
    ensures SuggestDiagramType(text) == FirstMatch(SuggestTable, LowerStr(text))
  {
    var s := LowerStr(text);
    var t := SuggestTable;
    MentionsAnyOfFour(s, "sequence", "interaction", "communication", "api");
    MentionsAnyOfFour(s, "class", "object", "inheritance", "oop");
    MentionsAnyOfFour(s, "timeline", "schedule", "gantt", "project plan");
    MentionsAnyOfFour(s, "database", "entity", "relationship", "table");
    MentionsAnyOfFour(s, "mind", "concept", "hierarchy", "brainstorm");
    assert FirstMatch(t[5..], s) == Flowchart;
    assert FirstMatch(t[4..], s) == if MentionsAny(s, t[4].keywords) then Mindmap else FirstMatch(t[5..], s) by {
      assert t[4..][1..] == t[5..];
    }
    assert FirstMatch(t[3..], s) == if MentionsAny(s, t[3].keywords) then Er else FirstMatch(t[4..], s) by {
      assert t[3..][1..] == t[4..];
    }
    assert FirstMatch(t[2..], s) == if MentionsAny(s, t[2].keywords) then Gantt else FirstMatch(t[3..], s) by {
      assert t[2..][1..] == t[3..];
    }
    assert FirstMatch(t[1..], s) == if MentionsAny(s, t[1].keywords) then Class else FirstMatch(t[2..], s) by {
      assert t[1..][1..] == t[2..];
    }
  }

  /** The fallback `flowchart` is returned exactly when none of the twenty
      keywords occurs in the lower-cased text. */
  lemma SuggestFlowchartIffNoKeyword(text: string)
    ensures SuggestDiagramType(text) == Flowchart <==>
      forall i :: 0 <= i < |SuggestTable| ==> !MentionsAny(LowerStr(text), SuggestTable[i].keywords)
  {
    SuggestIsFirstMatch(text);
    SuggestTableWellOrdered();
    FirstMatchFallback(SuggestTable, LowerStr(text));
  }

  /** Priority: the first category of the table with a keyword in the text
      is the answer, whatever keywords of later categories it also holds. */
  lemma SuggestPriority(text: string, i: nat)
    requires i < |SuggestTable| && MentionsAny(LowerStr(text), SuggestTable[i].keywords)
    requires forall j :: 0 <= j < i ==> !MentionsAny(LowerStr(text), SuggestTable[j].keywords)
    ensures SuggestDiagramType(text) == SuggestTable[i].kind
  {
    SuggestIsFirstMatch(text);
    FirstMatchPriority(SuggestTable, LowerStr(text), i);
  }

  /** The test is a plain substring test: "Capital" holds "api" and is
      classified as a sequence diagram. */
  lemma CapitalIsSequence()
    ensures SuggestDiagramType("Capital") == Sequence
  {
    var s := LowerStr("Capital");
    assert s == "capital";
    assert OccursAt(s, "api", 1);
    ContainsIffOccurs(s, "api");
  }

  /** With none of the sequence and class keywords, "project plan" in the
      lower-cased text makes it a Gantt chart. */
  lemma ProjectPlanIsGantt(text: string)
    requires forall k :: k in SuggestTable[0].keywords + SuggestTable[1].keywords ==> !Contains(LowerStr(text), k)
    requires Contains(LowerStr(text), "project plan")
    ensures SuggestDiagramType(text) == Gantt
  {
    var ks := SuggestTable[0].keywords + SuggestTable[1].keywords;
    assert ks[0] == "sequence" && ks[1] == "interaction" && ks[2] == "communication" && ks[3] == "api";
    assert ks[4] == "class" && ks[5] == "object" && ks[6] == "inheritance" && ks[7] == "oop";
  }

  /** Without any of the Gantt keywords, the text is not a Gantt chart. */
  lemma NoGanttKeywordNotGantt(text: string)
    requires !Contains(LowerStr(text), "timeline") && !Contains(LowerStr(text), "schedule")
    requires !Contains(LowerStr(text), "gantt") && !Contains(LowerStr(text), "project plan")
    ensures SuggestDiagramType(text) != Gantt
  {
  }

  /** Any capitalisation of "project plan" is a Gantt chart, by the last
      Gantt keyword. */
  lemma ProjectPlanExample(text: string)
    requires LowerStr(text) == "project plan"
    ensures SuggestDiagramType(text) == Gantt
  {
    var s := LowerStr(text);
    ProjectPlanHolds(s);
    ProjectPlanIsGantt(text);
  }

  /** With two spaces between the words no Gantt keyword matches: the
      keyword "project plan" needs exactly one. */
  lemma ProjectPlanNeedsOneSpace(text: string)
    requires LowerStr(text) == "project  plan"
    ensures SuggestDiagramType(text) != Gantt
  {
    var u := LowerStr(text);
    TwoSpacesMissGanttKeywords(u);
    NoGanttKeywordNotGantt(text);
  }

  lemma ProjectPlanHolds(s: string)
    requires s == "project plan"
    ensures forall k :: k in SuggestTable[0].keywords + SuggestTable[1].keywords ==> !Contains(s, k)
    ensures Contains(s, "project plan")
  {
    assert s == "pr" + ['o'] + "ject plan";
    NoSequenceOrClassKeyword("pr", "ject plan");
    assert OccursAt(s, "project plan", 0);
    ContainsIffOccurs(s, "project plan");
  }

  lemma TwoSpacesMissGanttKeywords(u: string)
    requires u == "project  plan"
    ensures !Contains(u, "timeline") && !Contains(u, "schedule")
    ensures !Contains(u, "gantt") && !Contains(u, "project plan")
  {
    NoGanttWord(u);
    TwoSpacesMissProjectPlan(u);
  }

  lemma TwoSpacesMissProjectPlan(u: string)
    requires u == "project  plan"
    ensures !Contains(u, "project plan")
  {
    var kw := "project plan";
    ContainsIffOccurs(u, kw);
    forall i | OccursAt(u, kw, i) ensures false {
      OccurrenceCharAt(u, kw, i, 8);
      OccurrenceCharAt(u, kw, i, 0);
    }
  }

  /** A text with one `o` and none of `s`, `i`, `m`, `b`, `h` holds no
      keyword of the sequence or class categories. */
  lemma NoSequenceOrClassKeyword(a: string, b: string)
    requires 'o' !in a && 'o' !in b
    requires forall c :: c in "simbh" ==> c !in a + ['o'] + b
    ensures forall k :: k in SuggestTable[0].keywords + SuggestTable[1].keywords ==> !Contains(a + ['o'] + b, k)
  {
    var s := a + ['o'] + b;
    AbsentCharRulesOut(s, "sequence", 's');
    AbsentCharRulesOut(s, "interaction", 'i');
    AbsentCharRulesOut(s, "communication", 'm');
    AbsentCharRulesOut(s, "api", 'i');
    AbsentCharRulesOut(s, "class", 's');
    AbsentCharRulesOut(s, "object", 'b');
    AbsentCharRulesOut(s, "inheritance", 'h');
    SingleCharRulesOut(a, 'o', b, "oop", 0, 1);
  }

  /** A text without `m`, `s` or `g` holds none of the first three Gantt keywords. */
  lemma NoGanttWord(u: string)
    requires 'm' !in u && 's' !in u && 'g' !in u
    ensures !Contains(u, "timeline") && !Contains(u, "schedule") && !Contains(u, "gantt")
  {
    AbsentCharRulesOut(u, "timeline", 'm');
    AbsentCharRulesOut(u, "schedule", 's');
    AbsentCharRulesOut(u, "gantt", 'g');
  }

  // ---------------------------------------------------------------------
  // handleGenerate

  /** What the generate button hands to `onGenerateCode` for a prompt:
      nothing for a blank prompt, else the text generated for the
      suggested type, together with that type. */
  function Generation(prompt: string): Option<(string, DiagramType)> {
    if Trim(prompt) == "" then None
    else
      var t := SuggestDiagramType(prompt);
      Some((DiagramCode.GenerateDiagramCode(prompt, t), t))
  }

  /** A blank prompt generates nothing; any other prompt generates a text
      whose first line names the type reported with it. */
  lemma GenerationNamesItsType(prompt: string)
    ensures Generation(prompt).None? <==> IsBlank(prompt)
    ensures Generation(prompt).Some? ==>
      DiagramCode.TypeOfCode(Generation(prompt).value.0) == Some(Generation(prompt).value.1)
  {
    TrimEmptyIffBlank(prompt);
    DiagramCode.TypeOfGeneratedCode(prompt, SuggestDiagramType(prompt));
  }

  /** The generate button's `disabled` condition. */
  predicate GenerateDisabled(prompt: string, isGenerating: bool) {
    Trim(prompt) == "" || isGenerating
  }

  lemma EnabledButtonGenerates(prompt: string, isGenerating: bool)
    ensures !GenerateDisabled(prompt, isGenerating) <==> !isGenerating && Generation(prompt).Some?
  {
  }

  /** The panel's state: the prompt text, the `isGenerating` flag, and the
      prompt captured by the pending timer callback, if one is scheduled. */
  class PromptPanel {
    var prompt: string
    var isGenerating: bool
    var pending: Option<string>

    ghost predicate Valid()
      reads this
    {
      isGenerating <==> pending.Some?
    }

    constructor ()
      ensures Valid() && prompt == "" && !isGenerating
    {
      prompt := "";
      isGenerating := false;
      pending := None;
    }

    /** Typing in the text area; it is disabled while generating. */
    method EditPrompt(text: string)
      requires Valid()
      modifies this
      ensures Valid() && isGenerating == old(isGenerating) && pending == old(pending)
      ensures prompt == if old(isGenerating) then old(prompt) else text
    {
      if !isGenerating {
        prompt := text;
      }
    }

    /** `handleGenerate`, reached through the button, which is disabled while
      generating: a blank prompt changes nothing; otherwise the flag is set
      and the callback is scheduled with the current prompt. */
    method HandleGenerate() returns (started: bool)
      requires Valid() && !isGenerating
      modifies this
      ensures Valid() && prompt == old(prompt)
      ensures started <==> !IsBlank(old(prompt))
      ensures !started ==> !isGenerating && pending == old(pending)
      ensures started ==> isGenerating && pending == Some(old(prompt))
    {
      TrimEmptyIffBlank(prompt);
      if Trim(prompt) == "" {
        return false;
      }
      isGenerating := true;
      pending := Some(prompt);
      started := true;
    }

    /** The timer fires: the callback receives the generated text and the
      suggested type, and the flag is cleared. */
    method TimerFires() returns (code: string, t: DiagramType)
      requires Valid() && isGenerating
      modifies this
      ensures Valid() && !isGenerating && prompt == old(prompt)
      ensures t == SuggestDiagramType(old(pending).value)
      ensures code == DiagramCode.GenerateDiagramCode(old(pending).value, t)
    {
      var p := pending.value;
      t := SuggestDiagramType(p);
      code := DiagramCode.GenerateDiagramCode(p, t);
      isGenerating := false;
      pending := None;
    }
  }
}
