/** The prompt-to-diagram text generator (src/utils/diagramGenerator.ts):
    the prompt is lower-cased once, the diagram type selects a per-type
    generator, and each generator picks a fixed text by ordered keyword
    tests. Only the gantt title and the mindmap root depend on the prompt. */
module DiagramCode {
  import opened Text
  import opened Diagram

  /** Lines 27-32: the login/authentication flowchart. */
  const FlowchartLoginLines: seq<string> := [
    "flowchart TD",
    "    A[User Login] --> B{Valid Credentials?}",
    "    B -->|Yes| C[Generate Session]",
    "    B -->|No| D[Show Error]",
    "    C --> E[Redirect to Dashboard]",
    "    D --> A"
  ]

  /** Lines 36-44: the cart and payment flowchart. */
  const FlowchartOrderLines: seq<string> := [
    "flowchart TD",
    "    A[Add to Cart] --> B{Cart Empty?}",
    "    B -->|No| C[Review Order]",
    "    B -->|Yes| A",
    "    C --> D{Payment Valid?}",
    "    D -->|Yes| E[Process Order]",
    "    D -->|No| F[Payment Error]",
    "    E --> G[Send Confirmation]",
    "    F --> C"
  ]

  /** Lines 47-53: the generic process flowchart. */
  const FlowchartDefaultLines: seq<string> := [
    "flowchart TD",
    "    A[Start] --> B[Process Input]",
    "    B --> C{Validation}",
    "    C -->|Valid| D[Execute Action]",
    "    C -->|Invalid| E[Handle Error]",
    "    D --> F[Return Result]",
    "    E --> F"
  ]

  /** Lines 58-69: the login sequence diagram. */
  const SequenceLoginLines: seq<string> := [
    "sequenceDiagram",
    "    participant User",
    "    participant Frontend",
    "    participant AuthAPI",
    "    participant Database",
    "    ",
    "    User->>Frontend: Enter credentials",
    "    Frontend->>AuthAPI: POST /login",
    "    AuthAPI->>Database: Verify user",
    "    Database-->>AuthAPI: User data",
    "    AuthAPI-->>Frontend: JWT token",
    "    Frontend-->>User: Login success"
  ]

  /** Lines 72-80: the client/server sequence diagram. */
  const SequenceDefaultLines: seq<string> := [
    "sequenceDiagram",
    "    participant Client",
    "    participant Server",
    "    participant Database",
    "    ",
    "    Client->>Server: Request data",
    "    Server->>Database: Query",
    "    Database-->>Server: Results",
    "    Server-->>Client: Response"
  ]

  /** Lines 85-109: the product inventory class diagram. */
  const ClassInventoryLines: seq<string> := [
    "classDiagram",
    "    class Product {",
    "        +String id",
    "        +String name",
    "        +Decimal price",
    "        +Integer stock",
    "        +updateStock()",
    "        +calculateDiscount()",
    "    }",
    "    ",
    "    class Category {",
    "        +String id",
    "        +String name",
    "        +String description",
    "        +addProduct()",
    "    }",
    "    ",
    "    class Inventory {",
    "        +trackProduct()",
    "        +updateQuantity()",
    "        +checkAvailability()",
    "    }",
    "    ",
    "    Category ||--o{ Product",
    "    Inventory ||--|| Product"
  ]

  /** Lines 112-128: the base entity class diagram. */
  const ClassDefaultLines: seq<string> := [
    "classDiagram",
    "    class BaseEntity {",
    "        +String id",
    "        +Date createdAt",
    "        +Date updatedAt",
    "        +save()",
    "        +delete()",
    "    }",
    "    ",
    "    class User {",
    "        +String name",
    "        +String email",
    "        +login()",
    "        +logout()",
    "    }",
    "    ",
    "    BaseEntity <|-- User"
  ]

  /** Lines 148-168: the blog entity-relationship diagram. */
  const ErBlogLines: seq<string> := [
    "erDiagram",
    "    USER ||--o{ POST : writes",
    "    POST ||--o{ COMMENT : has",
    "    USER ||--o{ COMMENT : makes",
    "    CATEGORY ||--o{ POST : contains",
    "    ",
    "    USER {",
    "        string id PK",
    "        string username UK",
    "        string email UK",
    "        datetime created_at",
    "    }",
    "    ",
    "    POST {",
    "        string id PK",
    "        string title",
    "        text content",
    "        string user_id FK",
    "        string category_id FK",
    "        datetime published_at",
    "    }"
  ]

  /** Lines 171-186: the customer order entity-relationship diagram. */
  const ErDefaultLines: seq<string> := [
    "erDiagram",
    "    CUSTOMER ||--o{ ORDER : places",
    "    ORDER ||--|{ ORDER-ITEM : contains",
    "    PRODUCT ||--o{ ORDER-ITEM : \"appears in\"",
    "    ",
    "    CUSTOMER {",
    "        string id PK",
    "        string name",
    "        string email UK",
    "    }",
    "    ",
    "    ORDER {",
    "        string id PK",
    "        date order_date",
    "        string customer_id FK",
    "    }"
  ]

  /** Lines 134-143: everything after the title line. */
  const GanttBodyLines: seq<string> := [
    "    dateFormat  YYYY-MM-DD",
    "    section Planning",
    "    Requirements    :done, req, 2024-01-01,2024-01-14",
    "    Design         :done, des, 2024-01-15,2024-01-28",
    "    section Development",
    "    Backend        :active, dev1, 2024-01-29,2024-03-15",
    "    Frontend       :active, dev2, 2024-02-12,2024-03-30",
    "    section Testing",
    "    Integration    :test, 2024-03-16,2024-04-07",
    "    Deployment     :deploy, 2024-04-08,2024-04-15"
  ]

  /** Lines 192-207: the fixed branches under the root node. */
  const MindmapBranchLines: seq<string> := [
    "    Planning",
    "      Research",
    "      Requirements",
    "      Design",
    "    Development",
    "      Frontend",
    "      Backend",
    "      Database",
    "    Testing",
    "      Unit Tests",
    "      Integration",
    "      User Testing",
    "    Deployment",
    "      Staging",
    "      Production",
    "      Monitoring"
  ]

  const FlowchartLogin: string := JoinLines(FlowchartLoginLines)
  const FlowchartOrder: string := JoinLines(FlowchartOrderLines)
  const FlowchartDefault: string := JoinLines(FlowchartDefaultLines)
  const SequenceLogin: string := JoinLines(SequenceLoginLines)
  const SequenceDefault: string := JoinLines(SequenceDefaultLines)
  const ClassInventory: string := JoinLines(ClassInventoryLines)
  const ClassDefault: string := JoinLines(ClassDefaultLines)
  const ErBlog: string := JoinLines(ErBlogLines)
  const ErDefault: string := JoinLines(ErDefaultLines)


  /** Line 133: the gantt title. */
  function GanttTitle(prompt: string): string {
    if Contains(prompt, "project") then "Project Timeline" else "Development Schedule"
  }

  function GanttWithTitle(title: string): string {
    JoinLines(["gantt", "    title " + title] + GanttBodyLines)
  }

  // ---------------------------------------------------------------------
  // The per-type generators; each receives the already lower-cased prompt.

  function FlowchartCode(prompt: string): string {
    if Contains(prompt, "login") || Contains(prompt, "auth") then FlowchartLogin
    else if Contains(prompt, "order") || Contains(prompt, "purchase") then FlowchartOrder
    else FlowchartDefault
  }

  function SequenceCode(prompt: string): string {
    if Contains(prompt, "login") || Contains(prompt, "auth") then SequenceLogin
    else SequenceDefault
  }

  function ClassCode(prompt: string): string {
    if Contains(prompt, "inventory") || Contains(prompt, "product") then ClassInventory
    else ClassDefault
  }

  function GanttCode(prompt: string): string {
    GanttWithTitle(GanttTitle(prompt))
  }

  function ErCode(prompt: string): string {
    if Contains(prompt, "blog") || Contains(prompt, "post") then ErBlog
    else ErDefault
  }

  function MindmapCode(prompt: string): string {
    JoinLines(["mindmap", "  root((" + prompt + "))"] + MindmapBranchLines)
  }

  /** `generateDiagramCode(prompt, type)`. The source's `default:` branch
      cannot be reached with a `DiagramType`, so the match has no such case. */
  function GenerateDiagramCode(prompt: string, t: DiagramType): string {
    var normalized := LowerStr(prompt);
    match t
    case Flowchart => FlowchartCode(normalized)
    case Sequence => SequenceCode(normalized)
    case Class => ClassCode(normalized)
    case Gantt => GanttCode(normalized)
    case Er => ErCode(normalized)
    case Mindmap => MindmapCode(normalized)
  }

  // ---------------------------------------------------------------------
  // What the generated text says about its type

  /** The first line each diagram type's text opens with. */
  function Header(t: DiagramType): string {
    match t
    case Flowchart => "flowchart TD"
    case Sequence => "sequenceDiagram"
    case Class => "classDiagram"
    case Gantt => "gantt"
    case Er => "erDiagram"
    case Mindmap => "mindmap"
  }

  /** Reads the diagram type back from the first line of a text. */
  function TypeOfCode(code: string): Option<DiagramType> {
    if StartsWith(code, "flowchart TD") then Some(Flowchart)
    else if StartsWith(code, "sequenceDiagram") then Some(Sequence)
    else if StartsWith(code, "classDiagram") then Some(Class)
    else if StartsWith(code, "gantt") then Some(Gantt)
    else if StartsWith(code, "erDiagram") then Some(Er)
    else if StartsWith(code, "mindmap") then Some(Mindmap)
    else None
  }

  lemma FlowchartStartsWithHeader(prompt: string)
    ensures StartsWith(FlowchartCode(prompt), Header(Flowchart))
  {
    JoinLinesStartsWithFirst(FlowchartLoginLines);
    JoinLinesStartsWithFirst(FlowchartOrderLines);
    JoinLinesStartsWithFirst(FlowchartDefaultLines);
  }

  lemma SequenceStartsWithHeader(prompt: string)
    ensures StartsWith(SequenceCode(prompt), Header(Sequence))
  {
    JoinLinesStartsWithFirst(SequenceLoginLines);
    JoinLinesStartsWithFirst(SequenceDefaultLines);
  }

  lemma ClassStartsWithHeader(prompt: string)
    ensures StartsWith(ClassCode(prompt), Header(Class))
  {
    JoinLinesStartsWithFirst(ClassInventoryLines);
    JoinLinesStartsWithFirst(ClassDefaultLines);
  }

  lemma GanttStartsWithHeader(prompt: string)
    ensures StartsWith(GanttCode(prompt), Header(Gantt))
  {
    JoinLinesStartsWithFirst(["gantt", "    title " + GanttTitle(prompt)] + GanttBodyLines);
  }

  lemma ErStartsWithHeader(prompt: string)
    ensures StartsWith(ErCode(prompt), Header(Er))
  {
    JoinLinesStartsWithFirst(ErBlogLines);
    JoinLinesStartsWithFirst(ErDefaultLines);
  }

  lemma MindmapStartsWithHeader(prompt: string)
    ensures StartsWith(MindmapCode(prompt), Header(Mindmap))
  {
    JoinLinesStartsWithFirst(["mindmap", "  root((" + prompt + "))"] + MindmapBranchLines);
  }

  /** Each type's text opens with that type's own header line. */
  lemma GeneratedStartsWithHeader(prompt: string, t: DiagramType)
    ensures StartsWith(GenerateDiagramCode(prompt, t), Header(t))
  {
    var n := LowerStr(prompt);
    match t
    case Flowchart => FlowchartStartsWithHeader(n);
    case Sequence => SequenceStartsWithHeader(n);
    case Class => ClassStartsWithHeader(n);
    case Gantt => GanttStartsWithHeader(n);
    case Er => ErStartsWithHeader(n);
    case Mindmap => MindmapStartsWithHeader(n);
  }

  /** A text that opens with a type's header is read back as that type: no
      header is a prefix of another. */
  lemma TypeOfCodeReadsHeader(code: string, t: DiagramType)
    requires StartsWith(code, Header(t))
    ensures TypeOfCode(code) == Some(t)
  {
    assert code[..|Header(t)|] == Header(t);
    match t
    case Flowchart => assert code[0] == 'f';
    case Sequence => assert code[0] == 's';
    case Class => assert code[0] == 'c';
    case Gantt => assert code[0] == 'g';
    case Er => assert code[0] == 'e';
    case Mindmap => assert code[0] == 'm';
  }

  /** The generated text names the requested type on its first line, so the
      type can be read back from it. */
  lemma TypeOfGeneratedCode(prompt: string, t: DiagramType)
    ensures TypeOfCode(GenerateDiagramCode(prompt, t)) == Some(t)
  {
    GeneratedStartsWithHeader(prompt, t);
    TypeOfCodeReadsHeader(GenerateDiagramCode(prompt, t), t);
  }

  /** Only the lower-cased prompt matters: a prompt and its lower-cased copy
      give the same text for every type. */
  lemma GenerateIgnoresCase(prompt: string, t: DiagramType)
    ensures GenerateDiagramCode(prompt, t) == GenerateDiagramCode(LowerStr(prompt), t)
  {
    LowerStrIdempotent(prompt);
  }

  // ---------------------------------------------------------------------
  // Which fixed text is chosen

  /** Two joined texts differ when their first lines agree and their second
      lines differ at column `k`. */
  lemma {:induction false} SecondLinesDiffer(a: seq<string>, b: seq<string>, k: nat)
    requires |a| >= 2 && |b| >= 2 && a[0] == b[0]
    requires k < |a[1]| && k < |b[1]| && a[1][k] != b[1][k]
    ensures JoinLines(a) != JoinLines(b)
  {
    JoinLinesStartsWithFirst(a[1..]);
    JoinLinesStartsWithFirst(b[1..]);
    var i := |a[0]| + 1 + k;
    assert JoinLines(a) == a[0] + "\n" + JoinLines(a[1..]);
    assert JoinLines(b) == b[0] + "\n" + JoinLines(b[1..]);
    assert JoinLines(a)[i] == JoinLines(a[1..])[k] == a[1][k];
    assert JoinLines(b)[i] == JoinLines(b[1..])[k] == b[1][k];
  }

  lemma FlowchartTextsDistinct()
    ensures FlowchartLogin != FlowchartOrder
    ensures FlowchartLogin != FlowchartDefault
    ensures FlowchartOrder != FlowchartDefault
  {
    SecondLinesDiffer(FlowchartLoginLines, FlowchartOrderLines, 6);
    SecondLinesDiffer(FlowchartLoginLines, FlowchartDefaultLines, 6);
    SecondLinesDiffer(FlowchartOrderLines, FlowchartDefaultLines, 6);
  }

  /** Flowchart precedence: `login`/`auth` beat `order`/`purchase`, which
      beat the generic text. */
  lemma FlowchartChoice(prompt: string)
    ensures var n := LowerStr(prompt); var r := GenerateDiagramCode(prompt, Flowchart);
      && (r == FlowchartLogin <==> Contains(n, "login") || Contains(n, "auth"))
      && (r == FlowchartOrder <==>
            !Contains(n, "login") && !Contains(n, "auth") && (Contains(n, "order") || Contains(n, "purchase")))
      && (r == FlowchartDefault <==>
            !Contains(n, "login") && !Contains(n, "auth") && !Contains(n, "order") && !Contains(n, "purchase"))
  {
    FlowchartTextsDistinct();
  }

  lemma SequenceChoice(prompt: string)
    ensures var n := LowerStr(prompt);
      GenerateDiagramCode(prompt, Sequence) == SequenceLogin <==> Contains(n, "login") || Contains(n, "auth")
  {
    SecondLinesDiffer(SequenceLoginLines, SequenceDefaultLines, 16);
  }

  lemma ClassChoice(prompt: string)
    ensures var n := LowerStr(prompt);
      GenerateDiagramCode(prompt, Class) == ClassInventory <==> Contains(n, "inventory") || Contains(n, "product")
  {
    SecondLinesDiffer(ClassInventoryLines, ClassDefaultLines, 10);
  }

  lemma ErChoice(prompt: string)
    ensures var n := LowerStr(prompt);
      GenerateDiagramCode(prompt, Er) == ErBlog <==> Contains(n, "blog") || Contains(n, "post")
  {
    SecondLinesDiffer(ErBlogLines, ErDefaultLines, 4);
  }

  /** The gantt text is fixed but for its title, `Project Timeline` exactly
      when the lower-cased prompt mentions `project`. */
  lemma GanttChoice(prompt: string)
    ensures var r := GenerateDiagramCode(prompt, Gantt);
      && (r == GanttWithTitle("Project Timeline") <==> Contains(LowerStr(prompt), "project"))
      && (r == GanttWithTitle("Development Schedule") <==> !Contains(LowerStr(prompt), "project"))
  {
    SecondLinesDiffer(["gantt", "    title " + "Project Timeline"] + GanttBodyLines,
                      ["gantt", "    title " + "Development Schedule"] + GanttBodyLines, 10);
  }

  /** Every text the generator can return for a type other than mindmap,
      none of which is built from the prompt. */
  function FixedTexts(t: DiagramType): set<string> {
    match t
    case Flowchart => {FlowchartLogin, FlowchartOrder, FlowchartDefault}
    case Sequence => {SequenceLogin, SequenceDefault}
    case Class => {ClassInventory, ClassDefault}
    case Gantt => {GanttWithTitle("Project Timeline"), GanttWithTitle("Development Schedule")}
    case Er => {ErBlog, ErDefault}
    case Mindmap => {}
  }

  lemma GeneratedIsFixedText(prompt: string, t: DiagramType)
    requires t != Mindmap
    ensures GenerateDiagramCode(prompt, t) in FixedTexts(t)
  {
  }

  /** The keywords the generator tests. */
  const GeneratorKeywords: seq<string> :=
    ["login", "auth", "order", "purchase", "inventory", "product", "project", "blog", "post"]

  predicate SameKeywordHits(p: string, q: string) {
    forall i :: 0 <= i < |GeneratorKeywords| ==>
      (Contains(p, GeneratorKeywords[i]) <==> Contains(q, GeneratorKeywords[i]))
  }

  /** Apart from the mindmap, the output depends on nothing but which of the
      generator's keywords the lower-cased prompt contains. */
  lemma GeneratedDependsOnlyOnKeywords(p: string, q: string, t: DiagramType)
    requires t != Mindmap
    requires SameKeywordHits(LowerStr(p), LowerStr(q))
    ensures GenerateDiagramCode(p, t) == GenerateDiagramCode(q, t)
  {
    var m, n := LowerStr(p), LowerStr(q);
    match t
    case Flowchart => FlowchartKeywordsDecide(m, n);
    case Sequence => SequenceKeywordsDecide(m, n);
    case Class => ClassKeywordsDecide(m, n);
    case Gantt => GanttKeywordsDecide(m, n);
    case Er => ErKeywordsDecide(m, n);
  }

  lemma FlowchartKeywordsDecide(m: string, n: string)
    requires SameKeywordHits(m, n)
    ensures FlowchartCode(m) == FlowchartCode(n)
  {
    var k := GeneratorKeywords;
    assert k[0] == "login" && k[1] == "auth" && k[2] == "order" && k[3] == "purchase";
  }

  lemma SequenceKeywordsDecide(m: string, n: string)
    requires SameKeywordHits(m, n)
    ensures SequenceCode(m) == SequenceCode(n)
  {
    var k := GeneratorKeywords;
    assert k[0] == "login" && k[1] == "auth";
  }

  lemma ClassKeywordsDecide(m: string, n: string)
    requires SameKeywordHits(m, n)
    ensures ClassCode(m) == ClassCode(n)
  {
    var k := GeneratorKeywords;
    assert k[4] == "inventory" && k[5] == "product";
  }

  lemma GanttKeywordsDecide(m: string, n: string)
    requires SameKeywordHits(m, n)
    ensures GanttCode(m) == GanttCode(n)
  {
    var k := GeneratorKeywords;
    assert k[6] == "project";
  }

  lemma ErKeywordsDecide(m: string, n: string)
    requires SameKeywordHits(m, n)
    ensures ErCode(m) == ErCode(n)
  {
    var k := GeneratorKeywords;
    assert k[7] == "blog" && k[8] == "post";
  }

  // ---------------------------------------------------------------------
  // The mindmap splices the prompt into its root node

  const MindmapPrefix: string := "mindmap\n  root(("

  function MindmapSuffix(): string {
    "))\n" + JoinLines(MindmapBranchLines)
  }

  /** The first two lines of a joined text, spelled out. */
  lemma JoinTwoLinesThen(a: string, b: string, rest: seq<string>)
    requires rest != []
    ensures JoinLines([a, b] + rest) == a + "\n" + b + "\n" + JoinLines(rest)
  {
    var lines := [a, b] + rest;
    assert lines[1..] == [b] + rest;
    assert lines[1..][1..] == rest;
  }

  /** The mindmap's lines, for any lines after the root node. */
  lemma MindmapShape(n: string, rest: seq<string>)
    requires rest != []
    ensures JoinLines(["mindmap", "  root((" + n + "))"] + rest) == MindmapPrefix + n + ("))\n" + JoinLines(rest))
  {
    JoinTwoLinesThen("mindmap", "  root((" + n + "))", rest);
  }

  /** The mindmap text is the fixed prefix, the lower-cased prompt and the
      fixed suffix, in that order. */
  lemma MindmapSplicesPrompt(prompt: string)
    ensures GenerateDiagramCode(prompt, Mindmap) == MindmapPrefix + LowerStr(prompt) + MindmapSuffix()
  {
    MindmapShape(LowerStr(prompt), MindmapBranchLines);
  }

  /** The text between `root((` and `))`, when `code` has the mindmap's shape. */
  function MindmapRoot(code: string): Option<string> {
    var s := MindmapSuffix();
    if |MindmapPrefix| + |s| <= |code| && StartsWith(code, MindmapPrefix) && code[|code| - |s|..] == s
    then Some(code[|MindmapPrefix|..|code| - |s|])
    else None
  }

  /** The lower-cased prompt is recovered verbatim from the mindmap text. */
  lemma MindmapRootIsPrompt(prompt: string)
    ensures MindmapRoot(GenerateDiagramCode(prompt, Mindmap)) == Some(LowerStr(prompt))
  {
    MindmapSplicesPrompt(prompt);
    var code := GenerateDiagramCode(prompt, Mindmap);
    var n := LowerStr(prompt);
    assert code[..|MindmapPrefix|] == MindmapPrefix;
    assert code[|code| - |MindmapSuffix()|..] == MindmapSuffix();
    assert code[|MindmapPrefix|..|code| - |MindmapSuffix()|] == n;
  }
}
