/** The preview pane (src/components/DiagramPreview.tsx): it renders the code
    through an external compiler, keeps the resulting SVG text or the error
    message, a loading flag, a zoom factor and an edit-mode flag, and shows
    one of four panels. The compiler is not modelled: each render is a start
    step followed by a complete step that receives the compiler's outcome. */
module DiagramPreview {
  import opened Text
  import opened InteractiveDiagram

  /** What the compiler's promise settles to: an SVG text, or a thrown
      value, which is an `Error` object with a message or anything else. */
  datatype Thrown = ErrorObject(message: string) | OtherValue
  datatype Outcome = Rendered(svg: string) | Threw(thrown: Thrown)

  datatype Preview = Preview(svgContent: string, isLoading: bool, error: string, zoom: real, editMode: bool)

  const MinZoom: real := 0.2
  const MaxZoom: real := 3.0
  const ZoomStep: real := 0.1

  function Initial(): Preview {
    Preview("", false, "", 1.0, false)
  }

  /** The message kept for a thrown value. */
  function ErrorText(t: Thrown): (r: string)
    ensures t.OtherValue? ==> r == "Failed to render diagram"
    ensures t.ErrorObject? ==> r == t.message
  {
    match t
    case ErrorObject(m) => m
    case OtherValue => "Failed to render diagram"
  }

  // ---------------------------------------------------------------------
  // renderDiagram

  /** The synchronous part of `renderDiagram`: blank code clears the SVG and
      stops; other code raises the loading flag and clears the error. */
  function RenderStart(p: Preview, code: string): Preview {
    if Trim(code) == "" then p.(svgContent := "")
    else p.(isLoading := true, error := "")
  }

  /** The part after the compiler settles: the SVG, or the error with no
      SVG, and in both cases the loading flag is lowered. */
  function RenderComplete(p: Preview, outcome: Outcome): Preview
    requires p.isLoading
  {
    match outcome
    case Rendered(svg) => p.(svgContent := svg, isLoading := false)
    case Threw(t) => p.(error := ErrorText(t), svgContent := "", isLoading := false)
  }

  /** A blank code changes only the SVG: the error and the loading flag
      keep their values, so an earlier error stays on screen. */
  lemma BlankCodeOnlyClearsSvg(p: Preview, code: string)
    requires IsBlank(code)
    ensures RenderStart(p, code) == p.(svgContent := "")
    ensures RenderStart(p, code).error == p.error && RenderStart(p, code).isLoading == p.isLoading
  {
    TrimEmptyIffBlank(code);
  }

  /** Non-blank code: the start step raises the loading flag and clears the
      error; the complete step keeps exactly one of the SVG and the error
      message, and lowers the flag. */
  lemma RenderSteps(p: Preview, code: string, outcome: Outcome)
    requires !IsBlank(code)
    ensures RenderStart(p, code).isLoading && RenderStart(p, code).error == ""
    ensures RenderStart(p, code).svgContent == p.svgContent
    ensures !RenderComplete(RenderStart(p, code), outcome).isLoading
    ensures outcome.Rendered? ==>
      RenderComplete(RenderStart(p, code), outcome).svgContent == outcome.svg
      && RenderComplete(RenderStart(p, code), outcome).error == ""
    ensures outcome.Threw? ==>
      RenderComplete(RenderStart(p, code), outcome).svgContent == ""
      && RenderComplete(RenderStart(p, code), outcome).error == ErrorText(outcome.thrown)
    ensures RenderComplete(RenderStart(p, code), outcome).zoom == p.zoom
    ensures RenderComplete(RenderStart(p, code), outcome).editMode == p.editMode
  {
    TrimEmptyIffBlank(code);
  }

  // ---------------------------------------------------------------------
  // Zoom, edit mode and download

  function Min(a: real, b: real): real { if a <= b then a else b }
  function Max(a: real, b: real): real { if a >= b then a else b }

  /** `zoomIn`: one step up, capped at the maximum. */
  function ZoomIn(z: real): (r: real)
    ensures r == Min(z + ZoomStep, MaxZoom)
  {
    if z + ZoomStep < MaxZoom then z + ZoomStep else MaxZoom
  }

  /** `zoomOut`: one step down, floored at the minimum. */
  function ZoomOut(z: real): (r: real)
    ensures r == Max(z - ZoomStep, MinZoom)
  {
    if z - ZoomStep > MinZoom then z - ZoomStep else MinZoom
  }

  /** `n` clicks on zoom in. */
  function ZoomInTimes(z: real, n: nat): real {
    if n == 0 then z else ZoomIn(ZoomInTimes(z, n - 1))
  }

  /** `n` clicks on zoom out. */
  function ZoomOutTimes(z: real, n: nat): real {
    if n == 0 then z else ZoomOut(ZoomOutTimes(z, n - 1))
  }

  /** `n` clicks on zoom in add `n` steps, capped at the maximum. */
  lemma {:induction false} ZoomInTimesIsCapped(z: real, n: nat)
    requires z <= MaxZoom
    ensures ZoomInTimes(z, n) == Min(z + n as real * ZoomStep, MaxZoom)
  {
    if n > 0 {
      ZoomInTimesIsCapped(z, n - 1);
    }
  }

  /** `n` clicks on zoom out take `n` steps off, floored at the minimum. */
  lemma {:induction false} ZoomOutTimesIsFloored(z: real, n: nat)
    requires z >= MinZoom
    ensures ZoomOutTimes(z, n) == Max(z - n as real * ZoomStep, MinZoom)
  {
    if n > 0 {
      ZoomOutTimesIsFloored(z, n - 1);
    }
  }

  /** From the initial factor, twenty clicks on zoom in reach the maximum,
      and more clicks stay there; eight clicks the other way reach the
      minimum. Fewer clicks stay short of either bound. */
  lemma ZoomLimitsFromStart(n: nat)
    ensures n >= 20 ==> ZoomInTimes(Initial().zoom, n) == MaxZoom
    ensures n < 20 ==> ZoomInTimes(Initial().zoom, n) < MaxZoom
    ensures n >= 8 ==> ZoomOutTimes(Initial().zoom, n) == MinZoom
    ensures n < 8 ==> ZoomOutTimes(Initial().zoom, n) > MinZoom
  {
    ZoomInTimesIsCapped(1.0, n);
    ZoomOutTimesIsFloored(1.0, n);
  }

  function ToggleEdit(p: Preview): Preview {
    p.(editMode := !p.editMode)
  }

  lemma ToggleEditTwice(p: Preview)
    ensures ToggleEdit(ToggleEdit(p)) == p
    ensures ToggleEdit(p).editMode != p.editMode
  {
  }

  /** What `downloadSVG` saves: the SVG text, or nothing when there is none. */
  function DownloadPayload(p: Preview): (r: Option<string>)
    ensures r.None? <==> DownloadDisabled(p)
    ensures r.Some? ==> r.value == p.svgContent && r.value != ""
  {
    if p.svgContent != "" then Some(p.svgContent) else None
  }

  /** The download button's `disabled` condition. */
  predicate DownloadDisabled(p: Preview) {
    p.svgContent == ""
  }

  // ---------------------------------------------------------------------
  // Panels

  predicate ShowsSpinner(p: Preview) { p.isLoading }
  predicate ShowsError(p: Preview) { p.error != "" }
  predicate ShowsDiagram(p: Preview) { !p.isLoading && p.error == "" && p.svgContent != "" }
  predicate ShowsPlaceholder(p: Preview) { !p.isLoading && p.error == "" && p.svgContent == "" }

  /** What every sequence of steps from the initial state keeps. */
  predicate Inv(p: Preview) {
    && !(p.svgContent != "" && p.error != "")
    && (p.isLoading ==> p.error == "")
    && MinZoom <= p.zoom <= MaxZoom
  }

  lemma InitialInv()
    ensures Inv(Initial()) && ShowsPlaceholder(Initial())
  {
  }

  /** Every step keeps the invariant. */
  lemma StepsKeepInv(p: Preview, code: string, outcome: Outcome)
    requires Inv(p)
    ensures Inv(RenderStart(p, code))
    ensures RenderStart(p, code).isLoading ==> Inv(RenderComplete(RenderStart(p, code), outcome))
    ensures p.isLoading ==> Inv(RenderComplete(p, outcome))
    ensures Inv(p.(zoom := ZoomIn(p.zoom))) && Inv(p.(zoom := ZoomOut(p.zoom)))
    ensures Inv(ToggleEdit(p))
  {
  }

  /** In a reachable state exactly one panel is shown. */
  lemma ExactlyOnePanel(p: Preview)
    requires Inv(p)
    ensures ShowsSpinner(p) || ShowsError(p) || ShowsDiagram(p) || ShowsPlaceholder(p)
    ensures !(ShowsSpinner(p) && ShowsError(p))
    ensures !(ShowsDiagram(p) && ShowsPlaceholder(p))
    ensures ShowsDiagram(p) || ShowsPlaceholder(p) <==> !ShowsSpinner(p) && !ShowsError(p)
  {
  }

  /** The interactive container is mounted exactly while the diagram panel
      shows (lines 126-134). A render of non-blank code puts up the spinner
      and so unmounts it; the container a completed render shows is a new
      mount. */
  lemma RenderRemountsOverlay(p: Preview, code: string, outcome: Outcome)
    requires !IsBlank(code)
    ensures !ShowsDiagram(RenderStart(p, code))
    ensures ShowsDiagram(RenderComplete(RenderStart(p, code), outcome)) <==> outcome.Rendered? && outcome.svg != ""
  {
    TrimEmptyIffBlank(code);
  }

  // ---------------------------------------------------------------------
  // The component

  class PreviewPane {
    var svgContent: string
    var isLoading: bool
    var error: string
    var zoom: real
    var editMode: bool

    function View(): Preview
      reads this
    {
      Preview(svgContent, isLoading, error, zoom, editMode)
    }

    ghost predicate Valid()
      reads this
    {
      Inv(View())
    }

    constructor ()
      ensures View() == Initial() && Valid()
    {
      svgContent := "";
      isLoading := false;
      error := "";
      zoom := 1.0;
      editMode := false;
    }

    /** `renderDiagram` up to the `await`; `started` tells whether the
        compiler is called. */
    method StartRender(code: string) returns (started: bool)
      requires Valid()
      modifies this
      ensures Valid() && View() == RenderStart(old(View()), code)
      ensures started <==> !IsBlank(code)
      ensures started ==> isLoading
    {
      TrimEmptyIffBlank(code);
      if Trim(code) == "" {
        svgContent := "";
        return false;
      }
      isLoading := true;
      error := "";
      started := true;
    }

    /** `renderDiagram` after the `await`, the `catch` and the `finally`. */
    method CompleteRender(outcome: Outcome)
      requires Valid() && isLoading
      modifies this
      ensures Valid() && View() == RenderComplete(old(View()), outcome)
    {
      match outcome {
        case Rendered(svg) =>
          svgContent := svg;
        case Threw(t) =>
          error := ErrorText(t);
          svgContent := "";
      }
      isLoading := false;
    }

    method ClickZoomIn()
      requires Valid()
      modifies this
      ensures Valid() && View() == old(View()).(zoom := ZoomIn(old(zoom)))
    {
      zoom := ZoomIn(zoom);
    }

    method ClickZoomOut()
      requires Valid()
      modifies this
      ensures Valid() && View() == old(View()).(zoom := ZoomOut(old(zoom)))
    {
      zoom := ZoomOut(zoom);
    }

    method ClickEditMode()
      requires Valid()
      modifies this
      ensures Valid() && View() == ToggleEdit(old(View()))
    {
      editMode := !editMode;
    }
  }

  /** A render of non-blank code as the pane shows it: the start and the
      completion, then, when the diagram panel shows, a new interactive
      container whose effect loads the SVG. `content` and `hasSvg` are the
      rendered SVG seen as its elements and whether it has an `svg` root.
      The new container's drag position is the origin, whatever it was in
      the container shown before the render. */
  method RenderAndRemount(pane: PreviewPane, code: string, outcome: Outcome, content: seq<Element>, hasSvg: bool)
      returns (overlay: Overlay?)
    requires pane.Valid() && !IsBlank(code)
    modifies pane
    ensures pane.Valid() && pane.View() == RenderComplete(RenderStart(old(pane.View()), code), outcome)
    ensures overlay != null <==> ShowsDiagram(pane.View())
    ensures overlay != null ==>
      && fresh(overlay) && fresh(overlay.nodes)
      && overlay.dragPosition == Point(0.0, 0.0)
      && overlay.nodes[..] == EffectNodes(content, hasSvg, pane.editMode)
      && overlay.editMode == pane.editMode
  {
    var started := pane.StartRender(code);
    pane.CompleteRender(outcome);
    overlay := null;
    if ShowsDiagram(pane.View()) {
      overlay := new Overlay();
      overlay.RunEffect(content, hasSvg, pane.editMode);
    }
  }
}
