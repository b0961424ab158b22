/** The shared types of the application (src/types/diagram.ts). */
module Diagram {

  /** The six diagram kinds the editor, the classifiers and the generator know. */
  datatype DiagramType = Flowchart | Sequence | Class | Gantt | Er | Mindmap

  /** A gallery template: a named preset of diagram source text of one kind. */
  datatype Template = Template(id: string, name: string, kind: DiagramType, description: string, code: string)

  /** The order in which both keyword classifiers test the categories;
      `Flowchart`, their fallback, comes last. */
  function Rank(t: DiagramType): (r: nat)
    ensures r <= 5
    ensures r == 5 <==> t == Flowchart
  {
    match t
    case Sequence => 0
    case Class => 1
    case Gantt => 2
    case Er => 3
    case Mindmap => 4
    case Flowchart => 5
  }
}
