# AI diagram generator — a verified model of its core

The application is a browser editor for Mermaid diagrams. It has six
diagram types: flowchart, sequence, class, gantt, er and mindmap.

- **Generating from a prompt.** A free-text prompt is classified into a
  diagram type by ordered keyword tests. A text generator
  (`generateDiagramCode`) then turns the prompt and the type into Mermaid
  source.
- **The editor screen.** It keeps the selected type, the code and the
  template gallery's visibility. An effect loads the type's default code
  whenever the type changes.
- **The preview pane.** It renders the code through the Mermaid compiler
  and shows a spinner, an error, the diagram or a placeholder. It also has
  a zoom factor, an edit-mode flag and an SVG download.
- **The interactive container.** In edit mode it decorates the SVG's
  primitive shapes and gives them hover listeners. It also follows a drag
  position.

This project models those parts in Dafny and proves what they promise.

| module | file | models |
|---|---|---|
| `Text` | text.dfy | `toLowerCase` (ASCII), `trim`, `includes`, `indexOf`, `replace` with a string pattern, joining lines |
| `Diagram` | diagram.dfy | the diagram types and templates of `src/types/diagram.ts` |
| `KeywordTable` | keyword_table.dfy | an if/else-if chain of keyword tests, written as a first-match rule over a table |
| `DiagramCode` | diagram_code.dfy | `src/utils/diagramGenerator.ts` |
| `AIPromptInterface` | ai_prompt_interface.dfy | the generate panel: `suggestDiagramType`, `handleGenerate` and the `isGenerating` flag |
| `AIPromptHelper` | ai_prompt_helper.dfy | the assistant box: `handleCustomPrompt`, its guard and the quick-start buttons |
| `DiagramGenerator` | diagram_generator.dfy | the editor screen's state, its effect and its handlers |
| `DiagramPreview` | diagram_preview.dfy | the preview pane's render steps, zoom, edit mode, download and panels |
| `InteractiveDiagram` | interactive_diagram.dfy | the edit-mode effect over the SVG elements, hover and drag |

Pure code is modelled as functions over datatypes: the generator, both
classifiers and the text operations they use.

The components are modelled in three ways.

- **Classes tied to step functions.** The editor screen
  (`DiagramGenerator.EditorScreen`) and the preview pane
  (`DiagramPreview.PreviewPane`) are classes. A `View()` function gives each
  one's state as a datatype value. Each method's `ensures` ties the new view
  to a step function of the old one, for example
  `View() == TypeChange(old(View()), t)`. The lemmas prove what the step
  functions promise.
- **Classes stated field by field.** The generate panel
  (`AIPromptInterface.PromptPanel`) keeps its prompt, its `isGenerating`
  flag and the prompt captured by the pending timer. Its methods' `ensures`
  name those fields directly. The interactive container
  (`InteractiveDiagram.Overlay`) keeps its elements in an array that its
  effect loop fills and its hover handlers update in place. Its `ensures`
  compare the array's contents with `EffectNodes`, `EnterNode` and
  `LeaveNode`.
- **A function of the typed text.** The assistant box (`AIPromptHelper`)
  keeps only the text typed so far. It is modelled as the function
  `HandleCustomPrompt` of that text, together with the predicate for its
  button's `disabled` condition.

A React event is modelled as the batch of state updates of its handler,
followed by the effects whose dependencies changed.

## Model

| member | source | states |
|---|---|---|
| `Text.Lower` | src/components/AIPromptInterface.tsx:31 | one character's ASCII lower-case: capitals move by 32, everything else is kept, and no capital remains |
| `Text.LowerStr` | src/components/AIPromptInterface.tsx:31 | lower-casing keeps the length and maps every character through the ASCII lower-case map |
| `Text.LowerStrIdempotent` | src/utils/diagramGenerator.ts:5 | lower-casing a lower-cased text changes nothing |
| `Text.TrimEmptyIffBlank` | src/components/AIPromptInterface.tsx:15 | `trim()` gives the empty text exactly when every character is white space |
| `Text.TrimKeepsInnerText` | src/components/AIPromptHelper.tsx:40 | `trim()` drops white space only, at both ends: the result is a slice of the input with blank text before and after it, and it neither starts nor ends with white space |
| `Text.TrimStart` | src/components/AIPromptInterface.tsx:15 | the suffix left after the leading white space: blank text before it, and it does not start with white space |
| `Text.TrimEnd` | src/components/AIPromptInterface.tsx:15 | the prefix left before the trailing white space: blank text after it, and it does not end with white space |
| `Text.Trim` | src/components/AIPromptInterface.tsx:15 | `trim()`; stated by `Text.TrimEmptyIffBlank` and `Text.TrimKeepsInnerText` |
| `Text.ContainsIffOccurs` | src/components/AIPromptInterface.tsx:33 | `includes` holds exactly when the pattern occurs at some index |
| `Text.Contains` | src/components/AIPromptInterface.tsx:33 | `includes`; stated by `Text.ContainsIffOccurs` |
| `Text.FirstOccurrence` | src/components/InteractiveDiagram.tsx:43 | the index found is an occurrence, no earlier index is one, and none is found only when there is no occurrence |
| `Text.ReplaceFirstAbsent` | src/components/InteractiveDiagram.tsx:43 | `replace` with a string pattern that does not occur returns the text unchanged |
| `Text.ReplaceFirstAtFirstOccurrence` | src/components/InteractiveDiagram.tsx:43 | `replace` with a string pattern rewrites the first occurrence only |
| `Text.ReplaceFirst` | src/components/InteractiveDiagram.tsx:43 | `replace` with a string pattern; stated by `Text.ReplaceFirstAbsent`, `Text.ReplaceFirstAtFirstOccurrence` and `Text.ReplaceFirstExtends` |
| `Text.ReplaceFirstExtends` | src/components/InteractiveDiagram.tsx:43 | appending text after the first occurrence does not move the replacement |
| `Text.ShiftOccurs` | src/components/AIPromptInterface.tsx:33 | the occurrences of a pattern after index 0 are those of the text without its first character, shifted by one |
| `Diagram.Rank` | src/components/AIPromptInterface.tsx:33-45 | each type's position in the classifiers' chains; only the flowchart fallback comes last |
| `KeywordTable.FirstMatchFallback` | src/components/AIPromptInterface.tsx:33-45 | an if/else-if keyword chain falls through to flowchart exactly when no row's keyword occurs |
| `KeywordTable.FirstMatchPriority` | src/components/AIPromptInterface.tsx:33-45 | the first row with a matching keyword decides the type |
| `KeywordTable.WiderTableRanksNoLater` | src/components/AIPromptHelper.tsx:45-55 | a chain with more keywords per row never answers a later category than a narrower one |
| `KeywordTable.TablesAgreeWithoutExtraKeywords` | src/components/AIPromptHelper.tsx:45-55 | two chains that differ only by extra keywords agree on every text holding none of them |
| `DiagramCode.GeneratedStartsWithHeader` | src/utils/diagramGenerator.ts:3-23 | the text generated for a type opens with that type's Mermaid header line |
| `DiagramCode.GenerateDiagramCode` | src/utils/diagramGenerator.ts:3-23 | `generateDiagramCode`: lower-cases the prompt once and dispatches on the type; no contract of its own, its properties are the lemmas in the rows around this one |
| `DiagramCode.FlowchartCode` | src/utils/diagramGenerator.ts:25-54 | `generateFlowchartCode`; its choice is stated by `DiagramCode.FlowchartChoice` |
| `DiagramCode.SequenceCode` | src/utils/diagramGenerator.ts:56-81 | `generateSequenceCode`; its choice is stated by `DiagramCode.SequenceChoice` |
| `DiagramCode.ClassCode` | src/utils/diagramGenerator.ts:83-129 | `generateClassCode`; its choice is stated by `DiagramCode.ClassChoice` |
| `DiagramCode.GanttCode` | src/utils/diagramGenerator.ts:131-144 | `generateGanttCode`; its title is stated by `DiagramCode.GanttChoice` |
| `DiagramCode.ErCode` | src/utils/diagramGenerator.ts:146-187 | `generateERCode`; its choice is stated by `DiagramCode.ErChoice` |
| `DiagramCode.MindmapCode` | src/utils/diagramGenerator.ts:189-208 | `generateMindmapCode`; its shape is stated by `DiagramCode.MindmapSplicesPrompt` and `DiagramCode.MindmapRootIsPrompt` |
| `DiagramCode.TypeOfCodeReadsHeader` | src/utils/diagramGenerator.ts:3-23 | no header line is a prefix of another, so the header determines the type |
| `DiagramCode.TypeOfGeneratedCode` | src/utils/diagramGenerator.ts:3-23 | the type is read back from the generated text as the one requested |
| `DiagramCode.GenerateIgnoresCase` | src/utils/diagramGenerator.ts:5 | a prompt and its lower-cased copy generate the same text for every type |
| `DiagramCode.FlowchartTextsDistinct` | src/utils/diagramGenerator.ts:25-54 | the three flowchart texts are pairwise different |
| `DiagramCode.FlowchartChoice` | src/utils/diagramGenerator.ts:25-54 | login/auth gives the login flow; otherwise order/purchase gives the cart flow; otherwise the generic flow; each in both directions |
| `DiagramCode.SequenceChoice` | src/utils/diagramGenerator.ts:56-81 | the login sequence exactly when login or auth occurs |
| `DiagramCode.ClassChoice` | src/utils/diagramGenerator.ts:83-129 | the inventory classes exactly when inventory or product occurs |
| `DiagramCode.GanttChoice` | src/utils/diagramGenerator.ts:131-144 | the title is "Project Timeline" exactly when project occurs, else "Development Schedule" |
| `DiagramCode.ErChoice` | src/utils/diagramGenerator.ts:146-187 | the blog schema exactly when blog or post occurs |
| `DiagramCode.GeneratedIsFixedText` | src/utils/diagramGenerator.ts:3-187 | for every type but mindmap the text is one of that type's fixed texts |
| `DiagramCode.GeneratedDependsOnlyOnKeywords` | src/utils/diagramGenerator.ts:25-187 | for every type but mindmap, prompts with the same hits on the nine generator keywords give the same text |
| `DiagramCode.MindmapSplicesPrompt` | src/utils/diagramGenerator.ts:189-208 | the mindmap text is a fixed prefix, the lower-cased prompt and a fixed suffix |
| `DiagramCode.MindmapRootIsPrompt` | src/utils/diagramGenerator.ts:189-208 | the lower-cased prompt is recovered verbatim from the root node |
| `AIPromptInterface.SuggestDiagramType` | src/components/AIPromptInterface.tsx:30-46 | `suggestDiagramType`: the ordered keyword tests over the lower-cased text; no contract of its own, its properties are the lemmas below |
| `AIPromptInterface.SuggestIsFirstMatch` | src/components/AIPromptInterface.tsx:30-46 | `suggestDiagramType` is the first-match rule over its five rows of four keywords |
| `AIPromptInterface.SuggestFlowchartIffNoKeyword` | src/components/AIPromptInterface.tsx:30-46 | flowchart exactly when none of the twenty keywords occurs in the lower-cased text |
| `AIPromptInterface.SuggestPriority` | src/components/AIPromptInterface.tsx:33-43 | the first category with a keyword wins: sequence, class, gantt, er, mindmap |
| `AIPromptInterface.CapitalIsSequence` | src/components/AIPromptInterface.tsx:33 | the test is a plain substring test: "Capital" holds "api" and is a sequence diagram |
| `AIPromptInterface.ProjectPlanIsGantt` | src/components/AIPromptInterface.tsx:37 | without sequence and class keywords, "project plan" makes a gantt chart |
| `AIPromptInterface.NoGanttKeywordNotGantt` | src/components/AIPromptInterface.tsx:37 | without the four gantt keywords the type is not gantt |
| `AIPromptInterface.ProjectPlanExample` | src/components/AIPromptInterface.tsx:37 | any capitalisation of "project plan" is a gantt chart |
| `AIPromptInterface.ProjectPlanNeedsOneSpace` | src/components/AIPromptInterface.tsx:37 | "project  plan", with two spaces, is not a gantt chart |
| `AIPromptInterface.Generation` | src/components/AIPromptInterface.tsx:14-28 | what `handleGenerate` passes to `onGenerateCode`; stated by `AIPromptInterface.GenerationNamesItsType` and `AIPromptInterface.PromptPanel.TimerFires` |
| `AIPromptInterface.GenerateDisabled` | src/components/AIPromptInterface.tsx:71 | the generate button's `disabled` expression; stated by `AIPromptInterface.EnabledButtonGenerates` |
| `AIPromptInterface.GenerationNamesItsType` | src/components/AIPromptInterface.tsx:14-28 | a blank prompt generates nothing; any other generates a text whose header names the type passed with it |
| `AIPromptInterface.EnabledButtonGenerates` | src/components/AIPromptInterface.tsx:71 | the button is enabled exactly when no generation is running and the prompt would generate |
| `AIPromptInterface.PromptPanel.EditPrompt` | src/components/AIPromptInterface.tsx:62-65 | typing replaces the prompt unless the text area is disabled by a running generation |
| `AIPromptInterface.PromptPanel.HandleGenerate` | src/components/AIPromptInterface.tsx:14-20 | a blank prompt changes nothing; otherwise the flag is set and the callback is scheduled with the current prompt |
| `AIPromptInterface.PromptPanel.TimerFires` | src/components/AIPromptInterface.tsx:20-27 | the callback receives the suggested type and the code generated for it, and the flag is cleared |
| `AIPromptHelper.ClassifyPrompt` | src/components/AIPromptHelper.tsx:42-55 | the custom prompt's keyword chain; no contract of its own, its properties are the lemmas below |
| `AIPromptHelper.ClassifyIsFirstMatch` | src/components/AIPromptHelper.tsx:45-55 | the custom prompt's chain is the first-match rule over five rows of three keywords |
| `AIPromptHelper.ClassifyFlowchartIffNoKeyword` | src/components/AIPromptHelper.tsx:43-55 | flowchart exactly when none of the fifteen keywords occurs |
| `AIPromptHelper.ClassifyPriority` | src/components/AIPromptHelper.tsx:45-55 | the first category with a keyword wins |
| `AIPromptHelper.HandleCustomPrompt` | src/components/AIPromptHelper.tsx:39-59 | `handleCustomPrompt`; stated by `AIPromptHelper.HandleCustomPromptPassesText` |
| `AIPromptHelper.SubmitDisabled` | src/components/AIPromptHelper.tsx:84 | the submit button's `disabled` expression; stated by `AIPromptHelper.SubmitDisabledIffNoCallback` |
| `AIPromptHelper.HandleCustomPromptPassesText` | src/components/AIPromptHelper.tsx:39-59 | no callback exactly for a blank prompt; otherwise the prompt is passed as typed, with the type of its lower-cased copy; typing the prompt in lower case gives the same outcome type and the same blank check |
| `AIPromptHelper.SubmitDisabledIffNoCallback` | src/components/AIPromptHelper.tsx:84 | the button is disabled exactly when a click would produce no callback |
| `AIPromptHelper.HelperNarrowerThanSuggest` | src/components/AIPromptHelper.tsx:45-55 | the chain tests the generate panel's categories, in the same order, with a subset of its keywords |
| `AIPromptHelper.SuggestRanksNoLater` | src/components/AIPromptHelper.tsx:45-55 | the generate panel classifies every text into the same category or an earlier one |
| `AIPromptHelper.ClassifiersAgree` | src/components/AIPromptHelper.tsx:45-55 | without "api", "oop", "project plan", "table" and "brainstorm" both classifiers agree |
| `AIPromptHelper.QuickStartClick` | src/components/AIPromptHelper.tsx:9-34 | a quick-start button passes a text starting with a capital letter and a type other than mindmap |
| `AIPromptHelper.QuickStartTextsPassGuard` | src/components/AIPromptHelper.tsx:106 | every quick-start text is non-blank and would pass the custom prompt's guard unchanged |
| `AIPromptHelper.QuickStartKinds` | src/components/AIPromptHelper.tsx:9-34 | the buttons offer exactly the five types other than mindmap |
| `DiagramGenerator.DefaultCode` | src/components/DiagramGenerator.tsx:15-89 | `defaultCodes[t]`; stated by `DiagramGenerator.DefaultCodeHeader` and `DiagramGenerator.EffectCode` |
| `DiagramGenerator.DefaultCodeHeader` | src/components/DiagramGenerator.tsx:15-89 | every default code opens with its own type's header line |
| `DiagramGenerator.EffectCode` | src/components/DiagramGenerator.tsx:91 | the `''` fallback is never taken, and the loaded code names its type |
| `DiagramGenerator.Mounted` | src/components/DiagramGenerator.tsx:9-13 | after mounting, the flowchart's default code is in the editor and the gallery is closed |
| `DiagramGenerator.Initial` | src/components/DiagramGenerator.tsx:9-11 | the state of the first render; stated by `DiagramGenerator.Mounted` |
| `DiagramGenerator.AfterEffect` | src/components/DiagramGenerator.tsx:13-92 | the `[selectedType]` effect after a render; stated by `DiagramGenerator.EditorScreen.RunEffect` and the handler lemmas |
| `DiagramGenerator.TypeChange` | src/components/DiagramGenerator.tsx:104-107 | `onTypeChange={setSelectedType}` followed by the effect; stated by `DiagramGenerator.TypeChangeLoadsDefault` |
| `DiagramGenerator.TemplateSelect` | src/components/DiagramGenerator.tsx:94-98 | `handleTemplateSelect` followed by the effect; stated by `DiagramGenerator.TemplateOfSameTypeKeepsCode` and `DiagramGenerator.TemplateOfOtherTypeLosesCode` |
| `DiagramGenerator.EditorChange` | src/components/CodeEditor.tsx:59 | the editor's `onChange(value \|\| '')` reaching `setCode`; stated by `DiagramGenerator.EditorChangeSetsCode` |
| `DiagramGenerator.ToggleTemplates` | src/components/DiagramGenerator.tsx:109 | the Templates button; stated by `DiagramGenerator.GalleryButtons` |
| `DiagramGenerator.CloseTemplates` | src/components/DiagramGenerator.tsx:120 | the gallery's close; stated by `DiagramGenerator.GalleryButtons` |
| `DiagramGenerator.TypeChangeLoadsDefault` | src/components/DiagramGenerator.tsx:104-107 | a new type loads its default code; the same type changes nothing |
| `DiagramGenerator.TemplateOfSameTypeKeepsCode` | src/components/DiagramGenerator.tsx:94-98 | a template of the current type puts its code in the editor and closes the gallery |
| `DiagramGenerator.TemplateOfOtherTypeLosesCode` | src/components/DiagramGenerator.tsx:91-98 | a template of another type ends with that type's default code, which equals the template's only if the template's code is the default |
| `DiagramGenerator.TemplateSelectIntended` | src/components/DiagramGenerator.tsx:94-98 | the intended selection shows the template's type and code with the gallery closed, as the handler does for the current type |
| `DiagramGenerator.EditorChangeSetsCode` | src/components/CodeEditor.tsx:59 | an edit replaces the code, a missing value reading as empty, and nothing else |
| `DiagramGenerator.GalleryButtons` | src/components/DiagramGenerator.tsx:108-121 | the Templates button toggles the gallery; close always closes it; neither touches anything else |
| `DiagramGenerator.EditorScreen.constructor` | src/components/DiagramGenerator.tsx:9-13 | the screen starts in the mounted state |
| `DiagramGenerator.EditorScreen.RunEffect` | src/components/DiagramGenerator.tsx:13-92 | the effect reloads the default code only when the type changed since the last render |
| `DiagramGenerator.EditorScreen.ChangeType` | src/components/DiagramGenerator.tsx:104-107 | the type selector's change, followed by the effect |
| `DiagramGenerator.EditorScreen.SelectTemplate` | src/components/DiagramGenerator.tsx:94-98 | the three updates of the handler, followed by the effect |
| `DiagramGenerator.EditorScreen.EditCode` | src/components/DiagramGenerator.tsx:125-129 | the editor's change sets the code |
| `DiagramGenerator.EditorScreen.ToggleGallery` | src/components/DiagramGenerator.tsx:109 | the Templates button flips the gallery flag |
| `DiagramGenerator.EditorScreen.CloseGallery` | src/components/DiagramGenerator.tsx:120 | the gallery's close hides it |
| `DiagramPreview.Initial` | src/components/DiagramPreview.tsx:14-18 | the pane's initial state; stated by `DiagramPreview.InitialInv` |
| `DiagramPreview.ErrorText` | src/components/DiagramPreview.tsx:46 | an `Error`'s message, else "Failed to render diagram" |
| `DiagramPreview.RenderStart` | src/components/DiagramPreview.tsx:33-41 | `renderDiagram` up to the `await`; stated by `DiagramPreview.BlankCodeOnlyClearsSvg`, `DiagramPreview.RenderSteps` and `DiagramPreview.PreviewPane.StartRender` |
| `DiagramPreview.RenderComplete` | src/components/DiagramPreview.tsx:42-50 | the `await`, `catch` and `finally`; stated by `DiagramPreview.RenderSteps` and `DiagramPreview.StepsKeepInv` |
| `DiagramPreview.BlankCodeOnlyClearsSvg` | src/components/DiagramPreview.tsx:34-37 | blank code clears the SVG and leaves the error and the loading flag as they were |
| `DiagramPreview.RenderSteps` | src/components/DiagramPreview.tsx:33-51 | a render raises the loading flag and clears the error, then keeps either the SVG or the error, and lowers the flag |
| `DiagramPreview.ZoomIn` | src/components/DiagramPreview.tsx:65 | zooming in gives `Min(z + 0.1, 3)`: one step up, capped at 3 |
| `DiagramPreview.ZoomOut` | src/components/DiagramPreview.tsx:66 | zooming out gives `Max(z - 0.1, 0.2)`: one step down, floored at 0.2 |
| `DiagramPreview.ZoomInTimesIsCapped` | src/components/DiagramPreview.tsx:65 | n clicks in add n steps, capped at 3 |
| `DiagramPreview.ZoomOutTimesIsFloored` | src/components/DiagramPreview.tsx:66 | n clicks out take off n steps, floored at 0.2 |
| `DiagramPreview.ZoomLimitsFromStart` | src/components/DiagramPreview.tsx:17 | from 1, twenty clicks in reach 3 and eight clicks out reach 0.2, and fewer do not |
| `DiagramPreview.ToggleEdit` | src/components/DiagramPreview.tsx:74 | the edit-mode button; stated by `DiagramPreview.ToggleEditTwice` |
| `DiagramPreview.ToggleEditTwice` | src/components/DiagramPreview.tsx:74 | the edit button flips the flag, and twice restores it |
| `DiagramPreview.DownloadPayload` | src/components/DiagramPreview.tsx:53-63 | a download saves the SVG text; the button is disabled exactly when there is none |
| `DiagramPreview.DownloadDisabled` | src/components/DiagramPreview.tsx:101 | the download button's `disabled` expression; stated by `DiagramPreview.DownloadPayload` |
| `DiagramPreview.ShowsSpinner` | src/components/DiagramPreview.tsx:111-115 | the spinner's condition; stated by `DiagramPreview.ExactlyOnePanel` |
| `DiagramPreview.ShowsError` | src/components/DiagramPreview.tsx:117-124 | the error panel's condition; stated by `DiagramPreview.ExactlyOnePanel` |
| `DiagramPreview.ShowsDiagram` | src/components/DiagramPreview.tsx:126-134 | the diagram's condition; stated by `DiagramPreview.ExactlyOnePanel` |
| `DiagramPreview.ShowsPlaceholder` | src/components/DiagramPreview.tsx:136-143 | the placeholder's condition; stated by `DiagramPreview.ExactlyOnePanel` |
| `DiagramPreview.InitialInv` | src/components/DiagramPreview.tsx:14-18 | the pane starts with the placeholder |
| `DiagramPreview.StepsKeepInv` | src/components/DiagramPreview.tsx:33-74 | every step keeps: no SVG beside an error, no error while loading, zoom within bounds |
| `DiagramPreview.ExactlyOnePanel` | src/components/DiagramPreview.tsx:111-143 | in every reachable state some panel shows; spinner and error never show together; diagram and placeholder exclude each other |
| `DiagramPreview.PreviewPane.constructor` | src/components/DiagramPreview.tsx:14-18 | the pane's initial state |
| `DiagramPreview.PreviewPane.StartRender` | src/components/DiagramPreview.tsx:33-40 | the compiler is called exactly for non-blank code, with the loading flag raised |
| `DiagramPreview.PreviewPane.CompleteRender` | src/components/DiagramPreview.tsx:42-50 | the outcome lands as the SVG or the error, and the flag is lowered |
| `DiagramPreview.RenderRemountsOverlay` | src/components/DiagramPreview.tsx:126-134 | a render of non-blank code hides the diagram panel, so the interactive container is unmounted; the completed render shows it again exactly when it produced a non-empty SVG |
| `DiagramPreview.RenderAndRemount` | src/components/DiagramPreview.tsx:126-134 | a render of non-blank code followed by the new mount: the pane steps as `RenderComplete(RenderStart(...))`, a container exists exactly when the diagram panel shows, and it is fresh, loaded with `EffectNodes`, with its drag position back at the origin |
| `DiagramPreview.PreviewPane.ClickZoomIn` | src/components/DiagramPreview.tsx:65 | only the zoom changes, by one capped step |
| `DiagramPreview.PreviewPane.ClickZoomOut` | src/components/DiagramPreview.tsx:66 | only the zoom changes, by one floored step |
| `DiagramPreview.PreviewPane.ClickEditMode` | src/components/DiagramPreview.tsx:74 | only the edit flag changes |
| `InteractiveDiagram.StyleText` | src/components/InteractiveDiagram.tsx:36 | `getAttribute('style')` in a concatenation, with `null` for an absent attribute; stated by `InteractiveDiagram.EffectAffordances` |
| `InteractiveDiagram.Decorated` | src/components/InteractiveDiagram.tsx:34-36 | one element after the edit-mode loop; stated by `InteractiveDiagram.EffectAffordances` |
| `InteractiveDiagram.EffectNodes` | src/components/InteractiveDiagram.tsx:23-55 | the effect keeps one node per element |
| `InteractiveDiagram.EffectAffordances` | src/components/InteractiveDiagram.tsx:28-36 | outside edit mode nothing is decorated; in edit mode exactly the primitives get the pointer suffix after their old style (`null` when absent) and the listeners |
| `InteractiveDiagram.EnterStyle` | src/components/InteractiveDiagram.tsx:38-40 | the `mouseenter` style; stated by the hover lemmas below |
| `InteractiveDiagram.LeaveStyle` | src/components/InteractiveDiagram.tsx:42-44 | the `mouseleave` style, with `''` for an absent attribute; stated by the hover lemmas below |
| `InteractiveDiagram.EnterNode` | src/components/InteractiveDiagram.tsx:38-40 | `mouseenter` on an element that has the listener; stated by `InteractiveDiagram.Overlay.MouseEnter` and `InteractiveDiagram.HoverRestoresAfterEffect` |
| `InteractiveDiagram.LeaveNode` | src/components/InteractiveDiagram.tsx:42-44 | `mouseleave` on an element that has the listener; stated by `InteractiveDiagram.Overlay.MouseLeave` and `InteractiveDiagram.HoverRestoresAfterEffect` |
| `InteractiveDiagram.MarkerFirstAt` | src/components/InteractiveDiagram.tsx:39-43 | the marker appended to a style holding none, and ending in `;`, is its first occurrence |
| `InteractiveDiagram.EnterThenLeaveRestores` | src/components/InteractiveDiagram.tsx:38-44 | entering then leaving restores such a style |
| `InteractiveDiagram.TwoEntersOneLeave` | src/components/InteractiveDiagram.tsx:38-44 | two enters and one leave are one enter |
| `InteractiveDiagram.LeaveRemovesEarliestMarker` | src/components/InteractiveDiagram.tsx:42-44 | leaving removes the earliest marker, not the one added last |
| `InteractiveDiagram.StraddlingMarker` | src/components/InteractiveDiagram.tsx:38-44 | on a style not ending in `;` the round trip can cut into the original text |
| `InteractiveDiagram.HoverRestoresAfterEffect` | src/components/InteractiveDiagram.tsx:35-44 | on a decorated element without a marker, a hover in and out restores its style |
| `InteractiveDiagram.LeaveAbsentStyle` | src/components/InteractiveDiagram.tsx:43 | leaving an element with no style attribute gives it the empty style |
| `InteractiveDiagram.Overlay.constructor` | src/components/InteractiveDiagram.tsx:19-21 | a new mount: no elements, no grab cursor, edit mode not yet seen, drag position at the origin |
| `InteractiveDiagram.Overlay.RunEffect` | src/components/InteractiveDiagram.tsx:23-55 | the loop leaves the container as `EffectNodes` of the new content, the grab cursor exactly in edit mode with an SVG, the edit-mode prop recorded, the drag position unchanged within the mount (an edit-mode toggle reruns the effect without remounting) |
| `InteractiveDiagram.Overlay.MouseEnter` | src/components/InteractiveDiagram.tsx:38-40 | only the hovered element changes, as `mouseenter` says |
| `InteractiveDiagram.Overlay.MouseLeave` | src/components/InteractiveDiagram.tsx:42-44 | only the left element changes, as `mouseleave` says |
| `InteractiveDiagram.Overlay.Drag` | src/components/InteractiveDiagram.tsx:57-76 | only possible in edit mode, where the draggable wrapper exists; the position becomes the drag event's, and nothing else changes |

## Left out

- `InteractiveDiagram.Overlay`: one object is one mount of the container. Its drag position survives edit-mode toggles but not a reload of the preview: every render of non-blank code unmounts it, and the next mount starts at (0, 0), as `DiagramPreview.RenderAndRemount` states.

- The Mermaid compiler and `mermaid.initialize` are external. A render's outcome is a parameter of the complete step.
- Renders that overlap are not modelled. A later render may start before an earlier one settles, so a blank code while loading, or two promises settling out of order, are outside the model.
- The 1500 ms timer of `handleGenerate` is modelled as a separate step, `TimerFires`. Time itself is not modelled.
- `Date.now()` in render ids and download file names is not modelled.
- The download's Blob, object URL and anchor click are not modelled. The model keeps the SVG text that would be saved.
- `innerHTML` parsing and `querySelector` are not modelled. The SVG is given as its list of elements, with a flag saying whether an `svg` root exists.
- Real DOM listeners and the click listener's `console.log` are not modelled. Listeners are a flag on each node.
- `react-draggable`'s own behaviour and the CSS scale transform are not modelled.
- Zoom is a real number. JavaScript's floating-point rounding of `prev + 0.1` is not modelled, nor is the rounded percentage shown.
- `Text.LowerStr`: lower-cases ASCII letters only; the Unicode case mapping of `toLowerCase` is not modelled.
- The `default:` branch of `generateDiagramCode` cannot be reached with a closed set of types, so the model has no such case.
- src/hooks/useDiagramEngine.ts is not part of this model; no core component uses it.
- src/components/CodeEditor.tsx is not modelled, apart from its `value || ''` change handler. Monaco, copying and formatting are left out.
- The presentation files are not part of this model: Header.tsx, App.tsx, DiagramTypeSelector.tsx, and TemplateGallery.tsx apart from its `onSelect`/`onClose` calls. Neither are the unused `DiagramNode` and `DiagramEdge` types.
- `DiagramPreview.PreviewPane.CompleteRender`: requires the loading flag, because without overlapping renders a completion always follows a start of non-blank code.

## Findings

| source | as written | input that shows it | evidently intended | confidence | as-written member | corrected member |
|---|---|---|---|---|---|---|
| src/components/DiagramGenerator.tsx:91-98 | `handleTemplateSelect` sets the type and the template's code together. When the type changes, the `[selectedType]` effect then runs and overwrites the code with the type's default. | With the flowchart selected, choose a sequence template whose code differs from the sequence default: the editor shows the sequence default, not the template. | The editor shows the chosen template's code, whatever type was selected before. | not executed | `DiagramGenerator.TemplateOfOtherTypeLosesCode` | `DiagramGenerator.TemplateSelectIntended` |
