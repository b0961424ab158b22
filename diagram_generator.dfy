/** The editor screen (src/components/DiagramGenerator.tsx): the selected
    diagram type, the code in the editor and whether the template gallery is
    open. Every handler's state updates are applied together; after that an
    effect keyed on the selected type runs when, and only when, the type
    differs from the one of the previous render, and it loads that type's
    default code into the editor. */
module DiagramGenerator {
  import opened Text
  import opened Diagram
  import DiagramCode

  /** Lines 16-21. */
  const DefaultFlowchartLines: seq<string> := [
    "flowchart TD",
    "    A[Start] --> B{Decision}",
    "    B -->|Yes| C[Action 1]",
    "    B -->|No| D[Action 2]",
    "    C --> E[End]",
    "    D --> E"
  ]

  /** Lines 22-33. */
  const DefaultSequenceLines: seq<string> := [
    "sequenceDiagram",
    "    participant User",
    "    participant App",
    "    participant API",
    "    participant DB",
    "    ",
    "    User->>App: Request data",
    "    App->>API: Call endpoint",
    "    API->>DB: Query database",
    "    DB-->>API: Return results",
    "    API-->>App: Send response",
    "    App-->>User: Display data"
  ]

  /** Lines 34-48. */
  const DefaultClassLines: seq<string> := [
    "classDiagram",
    "    class User {",
    "        +String name",
    "        +String email",
    "        +login()",
    "        +logout()",
    "    }",
    "    ",
    "    class Order {",
    "        +String id",
    "        +Date createdAt",
    "        +calculateTotal()",
    "    }",
    "    ",
    "    User ||--o{ Order : places"
  ]

  /** Lines 49-58. */
  const DefaultGanttLines: seq<string> := [
    "gantt",
    "    title Project Timeline",
    "    dateFormat  YYYY-MM-DD",
    "    section Planning",
    "    Requirements    :done,    req, 2024-01-01,2024-01-07",
    "    Design         :done,    des, 2024-01-08,2024-01-14",
    "    section Development",
    "    Frontend       :active,  dev1, 2024-01-15,2024-02-15",
    "    Backend        :         dev2, 2024-01-20,2024-02-20",
    "    Testing        :         test, 2024-02-21,2024-03-07"
  ]

  /** Lines 59-74. */
  const DefaultErLines: seq<string> := [
    "erDiagram",
    "    USER ||--o{ ORDER : places",
    "    ORDER ||--|{ LINE-ITEM : contains",
    "    PRODUCT ||--o{ LINE-ITEM : \"ordered in\"",
    "    ",
    "    USER {",
    "        string name",
    "        string email",
    "        string id PK",
    "    }",
    "    ",
    "    ORDER {",
    "        string id PK",
    "        date created_at",
    "        string user_id FK",
    "    }"
  ]

  /** Lines 75-88. */
  const DefaultMindmapLines: seq<string> := [
    "mindmap",
    "  root((AI Diagram App))",
    "    Editor",
    "      Code Input",
    "      Syntax Highlighting",
    "      Auto-completion",
    "    Engines",
    "      Mermaid",
    "      PlantUML",
    "      Graphviz",
    "    Features",
    "      Live Preview",
    "      Export Options",
    "      Templates"
  ]

  /** `defaultCodes[t]`. */
  function DefaultCode(t: DiagramType): string {
    match t
    case Flowchart => JoinLines(DefaultFlowchartLines)
    case Sequence => JoinLines(DefaultSequenceLines)
    case Class => JoinLines(DefaultClassLines)
    case Gantt => JoinLines(DefaultGanttLines)
    case Er => JoinLines(DefaultErLines)
    case Mindmap => JoinLines(DefaultMindmapLines)
  }

  /** Every default opens with its own type's header line. */
  lemma DefaultCodeHeader(t: DiagramType)
    ensures StartsWith(DefaultCode(t), DiagramCode.Header(t))
  {
    match t
    case Flowchart => JoinLinesStartsWithFirst(DefaultFlowchartLines);
    case Sequence => JoinLinesStartsWithFirst(DefaultSequenceLines);
    case Class => JoinLinesStartsWithFirst(DefaultClassLines);
    case Gantt => JoinLinesStartsWithFirst(DefaultGanttLines);
    case Er => JoinLinesStartsWithFirst(DefaultErLines);
    case Mindmap => JoinLinesStartsWithFirst(DefaultMindmapLines);
  }

  /** `defaultCodes[selectedType] || ''`: every type has a non-empty
      default, so the `''` fallback is never taken, and the loaded text
      names the type on its first line. */
  function EffectCode(t: DiagramType): (r: string)
    ensures r == DefaultCode(t) && r != ""
    ensures DiagramCode.TypeOfCode(r) == Some(t)
  {
    DefaultCodeHeader(t);
    DiagramCode.TypeOfCodeReadsHeader(DefaultCode(t), t);
    if DefaultCode(t) != "" then DefaultCode(t) else ""
  }

  // ---------------------------------------------------------------------
  // The screen as a value, and one function per handler

  datatype Editor = Editor(selectedType: DiagramType, code: string, showTemplates: bool)

  /** The state of the first render, before any effect. */
  function Initial(): Editor {
    Editor(Flowchart, "", false)
  }

  /** The `selectedType` effect after a render of `e`, when the previous
      render had type `rendered`. */
  function AfterEffect(rendered: DiagramType, e: Editor): Editor {
    if e.selectedType != rendered then e.(code := EffectCode(e.selectedType)) else e
  }

  /** Mounting runs the effect once, whatever the type. */
  function Mounted(): (r: Editor)
    ensures r == Editor(Flowchart, DefaultCode(Flowchart), false)
    ensures DiagramCode.TypeOfCode(r.code) == Some(Flowchart)
  {
    Initial().(code := EffectCode(Initial().selectedType))
  }

  /** `onTypeChange={setSelectedType}`. */
  function TypeChange(e: Editor, t: DiagramType): Editor {
    AfterEffect(e.selectedType, e.(selectedType := t))
  }

  /** `handleTemplateSelect`, followed by the effect. */
  function TemplateSelect(e: Editor, template: Template): Editor {
    AfterEffect(e.selectedType, Editor(template.kind, template.code, false))
  }

  /** `onChange={setCode}`, reached through the editor's `value || ''`. */
  function EditorChange(e: Editor, value: Option<string>): Editor {
    e.(code := if value.Some? then value.value else "")
  }

  /** The Templates button. */
  function ToggleTemplates(e: Editor): Editor {
    e.(showTemplates := !e.showTemplates)
  }

  /** The gallery's close button. */
  function CloseTemplates(e: Editor): Editor {
    e.(showTemplates := false)
  }

  // ---------------------------------------------------------------------
  // What the handlers do

  /** Switching to another type loads that type's default and keeps the
      gallery as it was; choosing the current type again changes nothing. */
  lemma TypeChangeLoadsDefault(e: Editor, t: DiagramType)
    ensures t != e.selectedType ==>
      TypeChange(e, t) == Editor(t, DefaultCode(t), e.showTemplates)
    ensures t != e.selectedType ==> DiagramCode.TypeOfCode(TypeChange(e, t).code) == Some(t)
    ensures t == e.selectedType ==> TypeChange(e, t) == e
  {
  }

  /** A template of the current type: the effect does not run, so its code
      stays in the editor and the gallery closes. */
  lemma TemplateOfSameTypeKeepsCode(e: Editor, template: Template)
    requires template.kind == e.selectedType
    ensures TemplateSelect(e, template) == Editor(template.kind, template.code, false)
  {
  }

  /** A template of another type: the effect runs after the handler and
      replaces the template's code by the type's default, so the template's
      code reaches the editor only when it is that default. */
  lemma TemplateOfOtherTypeLosesCode(e: Editor, template: Template)
    requires template.kind != e.selectedType
    ensures TemplateSelect(e, template) == Editor(template.kind, DefaultCode(template.kind), false)
    ensures TemplateSelect(e, template).code == template.code <==> template.code == DefaultCode(template.kind)
  {
  }

  /** The template selection the handler is evidently meant to perform: the
      template's type and code, whatever type was selected before. */
  function TemplateSelectIntended(e: Editor, template: Template): (r: Editor)
    ensures r.selectedType == template.kind && r.code == template.code && !r.showTemplates
    ensures template.kind == e.selectedType ==> r == TemplateSelect(e, template)
  {
    Editor(template.kind, template.code, false)
  }

  /** An editor change replaces the code, with a missing value read as the
      empty text, and touches nothing else. */
  lemma EditorChangeSetsCode(e: Editor, value: Option<string>)
    ensures EditorChange(e, value).selectedType == e.selectedType
    ensures EditorChange(e, value).showTemplates == e.showTemplates
    ensures value.Some? ==> EditorChange(e, value).code == value.value
    ensures value.None? ==> EditorChange(e, value).code == ""
  {
  }

  /** The Templates button twice restores the gallery state; close always
      leaves it closed, and only the gallery flag changes. */
  lemma GalleryButtons(e: Editor)
    ensures ToggleTemplates(ToggleTemplates(e)) == e
    ensures ToggleTemplates(e).showTemplates != e.showTemplates
    ensures !CloseTemplates(e).showTemplates && CloseTemplates(CloseTemplates(e)) == CloseTemplates(e)
    ensures CloseTemplates(e).(showTemplates := e.showTemplates) == e
  {
  }

  // ---------------------------------------------------------------------
  // The component

  class EditorScreen {
    var selectedType: DiagramType
    var code: string
    var showTemplates: bool

    function View(): Editor
      reads this
    {
      Editor(selectedType, code, showTemplates)
    }

    /** Mount: the initial state, then the effect. */
    constructor ()
      ensures View() == Mounted()
    {
      selectedType := Flowchart;
      code := "";
      showTemplates := false;
      code := EffectCode(Flowchart);
    }

    /** The `selectedType` effect, run after a handler whose render started
        from type `rendered`. */
    method RunEffect(rendered: DiagramType)
      modifies this
      ensures View() == AfterEffect(rendered, old(View()))
    {
      if selectedType != rendered {
        code := EffectCode(selectedType);
      }
    }

    method ChangeType(t: DiagramType)
      modifies this
      ensures View() == TypeChange(old(View()), t)
    {
      var rendered := selectedType;
      selectedType := t;
      RunEffect(rendered);
    }

    method SelectTemplate(template: Template)
      modifies this
      ensures View() == TemplateSelect(old(View()), template)
    {
      var rendered := selectedType;
      selectedType := template.kind;
      code := template.code;
      showTemplates := false;
      RunEffect(rendered);
    }

    method EditCode(value: Option<string>)
      modifies this
      ensures View() == EditorChange(old(View()), value)
    {
      code := if value.Some? then value.value else "";
    }

    method ToggleGallery()
      modifies this
      ensures View() == ToggleTemplates(old(View()))
    {
      showTemplates := !showTemplates;
    }

    method CloseGallery()
      modifies this
      ensures View() == CloseTemplates(old(View()))
    {
      showTemplates := false;
    }
  }
}
