/**
  The data attached to drag sources and drop targets (src/components/Designer.tsx:198-225
  for canvas elements; the palette button's data is read at Designer.tsx:29 and 37).
*/
module DragData {
  import opened ElementModel

  /** `active.data.current`: a palette button or an element already on the canvas. */
  datatype ActiveData =
    | SidebarButton(kind: Kind)
    | CanvasElement(typeName: string, elementId: string)

  datatype Half = Top | Bottom

  /** A drop on the bottom half goes one place after the target (`isBottomHalfDroppable`). */
  function Offset(half: Half): (k: nat)
    ensures k == 0 <==> half == Top
    ensures k <= 1
  {
    if half == Top then 0 else 1
  }

  /** `over.data.current`: the canvas area, a half of a canvas element, or a container column. */
  datatype OverData =
    | DesignerDropArea
    | ElementHalf(typeName: string, elementId: string, half: Half)
    | ColumnArea(columnId: string, elementId: string)

  /** What `DesignerElementWrapper` registers for a root element: its two halves and its handle. */
  function WrapperTargets(e: Element): (targets: seq<OverData>)
    ensures |targets| == 2
    ensures forall t :: t in targets ==> t.ElementHalf? && t.elementId == e.id && t.typeName == e.typeName
    ensures targets[0].half == Top && targets[1].half == Bottom
  {
    [ElementHalf(e.typeName, e.id, Top), ElementHalf(e.typeName, e.id, Bottom)]
  }

  function WrapperDraggable(e: Element): (a: ActiveData)
    ensures a.CanvasElement? && a.elementId == e.id
  {
    CanvasElement(e.typeName, e.id)
  }
}
