/** The interactive SVG container (src/components/InteractiveDiagram.tsx).
    On every change of the SVG text or of the edit mode, an effect replaces
    the container's content with the SVG; in edit mode it then gives the
    SVG root a grab cursor and every `rect`, `circle`, `ellipse` and
    `polygon` a pointer style and hover listeners. Hovering appends an
    opacity declaration to the element's `style` attribute and leaving
    removes its first occurrence. Dragging moves the diagram.

    The SVG is abstracted as the sequence of its elements, each with its tag
    and its `style` attribute, absent or present. */
module InteractiveDiagram {
  import opened Text

  datatype Element = Element(tag: string, style: Option<string>)

  /** An element in the container: its tag, its `style` attribute, and
      whether the effect attached the hover listeners to it. */
  datatype Node = Node(tag: string, style: Option<string>, listening: bool)

  datatype Point = Point(x: real, y: real)

  /** What the edit-mode effect appends to each primitive's style. */
  const PointerSuffix: string := "; cursor: pointer; transition: opacity 0.2s;"

  /** What `mouseenter` appends and `mouseleave` removes. */
  const HoverMarker: string := "; opacity: 0.8;"

  /** The tags matched by `querySelectorAll('rect, circle, ellipse, polygon')`. */
  predicate IsPrimitive(tag: string) {
    tag == "rect" || tag == "circle" || tag == "ellipse" || tag == "polygon"
  }

  /** `getAttribute('style')` used as a string: an absent attribute is `null`,
      which string concatenation spells out. */
  function StyleText(style: Option<string>): string {
    match style
    case None => "null"
    case Some(s) => s
  }

  predicate EndsWithSemicolon(s: string) {
    s != [] && s[|s| - 1] == ';'
  }

  // ---------------------------------------------------------------------
  // The effect

  /** An element as the container holds it right after `innerHTML` is set. */
  function Loaded(e: Element): Node {
    Node(e.tag, e.style, false)
  }

  /** An element after the edit-mode loop has visited it. */
  function Decorated(e: Element): Node {
    if IsPrimitive(e.tag) then Node(e.tag, Some(StyleText(e.style) + PointerSuffix), true)
    else Loaded(e)
  }

  /** The container's elements after an effect run over `content`. */
  function EffectNodes(content: seq<Element>, hasSvg: bool, editMode: bool): (r: seq<Node>)
    ensures |r| == |content|
  {
    seq(|content|, k requires 0 <= k < |content| =>
      if editMode && hasSvg then Decorated(content[k]) else Loaded(content[k]))
  }

  /** The effect depends only on the new content: outside edit mode every
      element is as loaded, with no listener; in edit mode exactly the
      primitives get the pointer suffix, once, after their old style text
      (`null` when absent), and the listeners. */
  lemma EffectAffordances(content: seq<Element>, hasSvg: bool, editMode: bool, k: nat)
    requires k < |content|
    ensures EffectNodes(content, hasSvg, editMode)[k].tag == content[k].tag
    ensures !(editMode && hasSvg) || !IsPrimitive(content[k].tag) ==>
      EffectNodes(content, hasSvg, editMode)[k] == Node(content[k].tag, content[k].style, false)
    ensures editMode && hasSvg && IsPrimitive(content[k].tag) ==>
      && EffectNodes(content, hasSvg, editMode)[k].listening
      && EffectNodes(content, hasSvg, editMode)[k].style == Some(StyleText(content[k].style) + PointerSuffix)
      && EndsWithSemicolon(EffectNodes(content, hasSvg, editMode)[k].style.value)
  {
    var s := StyleText(content[k].style) + PointerSuffix;
    assert s[|s| - 1] == PointerSuffix[|PointerSuffix| - 1];
  }

  // ---------------------------------------------------------------------
  // Hover

  /** `mouseenter`: the style text with the marker appended. */
  function EnterStyle(style: Option<string>): string {
    StyleText(style) + HoverMarker
  }

  /** `mouseleave`: the first marker removed; an absent attribute gives the
      empty text. */
  function LeaveStyle(style: Option<string>): string {
    match style
    case None => ""
    case Some(s) => ReplaceFirst(s, HoverMarker, "")
  }

  /** The listeners act on the elements the effect attached them to. */
  function EnterNode(n: Node): Node {
    if n.listening then n.(style := Some(EnterStyle(n.style))) else n
  }

  function LeaveNode(n: Node): Node {
    if n.listening then n.(style := Some(LeaveStyle(n.style))) else n
  }

  /** The only `;` of the marker after its first character is its last one. */
  lemma MarkerSemicolons(k: int)
    requires 1 <= k < |HoverMarker| && HoverMarker[k] == ';'
    ensures k == |HoverMarker| - 1
  {
    var tail := HoverMarker[1..];
    assert tail == " opacity: 0.8" + [';'] + "";
    OnlyIndexOf(" opacity: 0.8", ';', "");
    assert tail[k - 1] == ';';
  }

  /** In `s + marker + rest`, the marker cannot start inside `s` when `s`
      holds no marker and is empty or ends with `;`. */
  lemma {:induction false} NoMarkerInside(s: string, rest: string, j: int)
    requires !Contains(s, HoverMarker) && (s == "" || EndsWithSemicolon(s))
    requires 0 <= j < |s|
    ensures !OccursAt(s + HoverMarker + rest, HoverMarker, j)
  {
    var u := s + HoverMarker + rest;
    var m := HoverMarker;
    if OccursAt(u, m, j) {
      if j + |m| <= |s| {
        assert u[j..j + |m|] == s[j..j + |m|];
        ContainsIffOccurs(s, m);
        assert OccursAt(s, m, j);
      } else {
        var k := |s| - j;
        OccurrenceCharAt(u, m, j, k);
        MarkerSemicolons(k);
        OccurrenceCharAt(u, m, j, k - 1);
      }
    }
  }

  /** The first marker of `s + marker + rest` is the appended one. */
  lemma MarkerFirstAt(s: string, rest: string)
    requires !Contains(s, HoverMarker) && (s == "" || EndsWithSemicolon(s))
    ensures FirstOccurrence(s + HoverMarker + rest, HoverMarker) == Some(|s|)
  {
    var u := s + HoverMarker + rest;
    assert u[|s|..|s| + |HoverMarker|] == HoverMarker;
    assert OccursAt(u, HoverMarker, |s|);
    var r := FirstOccurrence(u, HoverMarker);
    if r.Some? && r.value < |s| {
      NoMarkerInside(s, rest, r.value);
    }
  }

  /** Leaving removes the marker added last only when there is no earlier
      one: a style with no marker that is empty or ends with `;` is
      restored by an enter followed by a leave. */
  lemma EnterThenLeaveRestores(s: string)
    requires !Contains(s, HoverMarker) && (s == "" || EndsWithSemicolon(s))
    ensures LeaveStyle(Some(EnterStyle(Some(s)))) == s
  {
    MarkerFirstAt(s, "");
    assert s + HoverMarker == s + HoverMarker + "";
    ReplaceFirstAtFirstOccurrence(s + HoverMarker, HoverMarker, "", |s|);
    assert (s + HoverMarker)[..|s|] == s;
  }

  /** Two enters and one leave leave the style with exactly one marker, as
      after one enter. */
  lemma TwoEntersOneLeave(s: string)
    requires !Contains(s, HoverMarker) && (s == "" || EndsWithSemicolon(s))
    ensures LeaveStyle(Some(EnterStyle(Some(EnterStyle(Some(s)))))) == EnterStyle(Some(s))
  {
    MarkerFirstAt(s, "");
    assert s + HoverMarker + "" == s + HoverMarker;
    ReplaceFirstExtends(s + HoverMarker, HoverMarker, HoverMarker, "", |s|);
    EnterThenLeaveRestores(s);
  }

  /** An earlier marker is removed first: leaving after an enter on a style
      that already holds a marker keeps the new one and drops the old. */
  lemma LeaveRemovesEarliestMarker(s: string, i: nat)
    requires FirstOccurrence(s, HoverMarker) == Some(i)
    ensures LeaveStyle(Some(EnterStyle(Some(s)))) == Splice(s, i, |HoverMarker|, "") + HoverMarker
  {
    ReplaceFirstExtends(s, HoverMarker, HoverMarker, "", i);
    ReplaceFirstAtFirstOccurrence(s, HoverMarker, "", i);
  }

  /** Without the trailing `;` the round trip can fail: `x; opacity: 0.8`
      (the marker without its last character, after any `x` other than
      `;`) holds no marker, yet once the marker is appended the first
      marker starts inside the original text, and leaving cuts into it. */
  lemma StraddlingMarker(x: char)
    requires x != ';'
    ensures !Contains([x] + HoverMarker[..14], HoverMarker)
    ensures LeaveStyle(Some(EnterStyle(Some([x] + HoverMarker[..14])))) == [x] + HoverMarker[1..]
    ensures [x] + HoverMarker[1..] != [x] + HoverMarker[..14]
  {
    var m := HoverMarker;
    var s := [x] + m[..14];
    StraddleHasNoMarker(x);
    var u := s + m;
    assert u[1..1 + |m|] == m;
    assert OccursAt(u, m, 1);
    NotAtStart(u, m);
    var r := FirstOccurrence(u, m);
    assert r == Some(1);
    ReplaceFirstAtFirstOccurrence(u, m, "", 1);
    assert u[1 + |m|..] == m[1..];
    assert ([x] + m[1..])[1] != ([x] + m[..14])[1];
  }

  lemma StraddleHasNoMarker(x: char)
    requires x != ';'
    ensures !Contains([x] + HoverMarker[..14], HoverMarker)
  {
    var s := [x] + HoverMarker[..14];
    ContainsIffOccurs(s, HoverMarker);
    forall j | OccursAt(s, HoverMarker, j) ensures false {
      OccurrenceCharAt(s, HoverMarker, j, 0);
    }
  }

  lemma NotAtStart(u: string, m: string)
    requires u != [] && m != [] && u[0] != m[0]
    ensures !OccursAt(u, m, 0)
  {
    if OccursAt(u, m, 0) {
      OccurrenceCharAt(u, m, 0, 0);
    }
  }

  /** On an element the effect decorated, a hover in and out restores the
      style whenever it holds no marker, since the pointer suffix ends it
      with `;`. */
  lemma HoverRestoresAfterEffect(content: seq<Element>, k: nat)
    requires k < |content| && IsPrimitive(content[k].tag)
    requires !Contains(EffectNodes(content, true, true)[k].style.value, HoverMarker)
    ensures LeaveNode(EnterNode(EffectNodes(content, true, true)[k])) == EffectNodes(content, true, true)[k]
  {
    var n := EffectNodes(content, true, true)[k];
    EffectAffordances(content, true, true, k);
    EnterThenLeaveRestores(n.style.value);
  }

  /** Leaving a listening element whose attribute is absent gives it the
      empty style. */
  lemma LeaveAbsentStyle(n: Node)
    requires n.listening && n.style.None?
    ensures LeaveNode(n).style == Some("")
  {
  }

  // ---------------------------------------------------------------------
  // The component

  /** One mount of the component. Its state lives only as long as the
      mount: the preview unmounts the container whenever it shows another
      panel, and the next mount is a new object, whose drag position is
      the origin again. */
  class Overlay {
    /** The elements of the SVG in the container, in document order. */
    var nodes: array<Node>
    /** Whether the SVG root has the grab cursor. */
    var svgGrab: bool
    /** The edit-mode prop of the last render; the drag handle exists only
        while it is set. */
    var editMode: bool
    var dragPosition: Point

    constructor ()
      ensures nodes.Length == 0 && !svgGrab && !editMode && dragPosition == Point(0.0, 0.0)
    {
      nodes := new Node[0];
      svgGrab := false;
      editMode := false;
      dragPosition := Point(0.0, 0.0);
    }

    /** The effect on `[svgContent, editMode]`: the content is replaced and,
        in edit mode, each primitive is decorated in place. */
    method RunEffect(content: seq<Element>, hasSvg: bool, editMode: bool)
      modifies this
      ensures fresh(nodes)
      ensures nodes[..] == EffectNodes(content, hasSvg, editMode)
      ensures svgGrab == (editMode && hasSvg)
      ensures this.editMode == editMode
      ensures dragPosition == old(dragPosition)
    {
      this.editMode := editMode;
      var a := new Node[|content|](k requires 0 <= k < |content| => Loaded(content[k]));
      svgGrab := false;
      if editMode && hasSvg {
        svgGrab := true;
        var i := 0;
        while i < a.Length
          modifies a
          invariant 0 <= i <= a.Length == |content|
          invariant forall k :: 0 <= k < i ==> a[k] == Decorated(content[k])
          invariant forall k :: i <= k < a.Length ==> a[k] == Loaded(content[k])
        {
          if IsPrimitive(a[i].tag) {
            a[i] := Node(a[i].tag, Some(StyleText(a[i].style) + PointerSuffix), true);
          }
          i := i + 1;
        }
      }
      nodes := a;
    }

    method MouseEnter(i: nat)
      requires i < nodes.Length
      modifies nodes
      ensures nodes[..] == old(nodes[..])[i := EnterNode(old(nodes[i]))]
    {
      nodes[i] := EnterNode(nodes[i]);
    }

    method MouseLeave(i: nat)
      requires i < nodes.Length
      modifies nodes
      ensures nodes[..] == old(nodes[..])[i := LeaveNode(old(nodes[i]))]
    {
      nodes[i] := LeaveNode(nodes[i]);
    }

    /** `handleDrag`: the position is the last drag event's. Only the
        draggable wrapper of edit mode calls it. */
    method Drag(x: real, y: real)
      requires editMode
      modifies this
      ensures dragPosition == Point(x, y)
      ensures nodes == old(nodes) && svgGrab == old(svgGrab) && editMode
    {
      dragPosition := Point(x, y);
    }
  }
}
