/** The state of the paint application's single component and its event
    handlers. Each handler is one atomic step from the current state, the
    pointer's client coordinates and the bounding box of the element the event
    is attached to, to a new state. `Date.now()` becomes the parameter `now`. */
module Paint {
  import opened Geometry
  import opened Shapes

  datatype Option<T> = None | Some(value: T)

  /** The floating preview that follows the pointer during a palette drag. */
  datatype Preview = Preview(x: real, y: real, visible: bool)

  const HiddenPreview: Preview := Preview(0.0, 0.0, false)

  /** What the file picker and `JSON.parse` deliver to the import handler:
      no file chosen, text that does not parse, or a parsed list of records. */
  datatype ImportOutcome = NoFile | ParseError | Parsed(records: seq<Shape>)

  /** `if (draggedShape)`: JavaScript truthiness, so both `null` and the id 0
      mean that no shape is being dragged. */
  predicate DraggingShape(dragged: Option<int>) {
    dragged.Some? && dragged.value != 0
  }

  class PaintState {
    var shapes: seq<Shape>
    var selectedTool: Tool
    var isDraggingFromSidebar: bool
    var draggedTool: Option<Tool>
    var dragPreview: Preview
    var draggedShape: Option<int>
    var dragOffset: Point

    /** The drag fields never disagree: a palette drag is in progress exactly
        when a tool is carried and exactly when the preview is shown, an idle
        preview sits at the origin, and no grab offset outlives its shape drag. */
    ghost predicate Valid()
      reads this
    {
      (isDraggingFromSidebar <==> draggedTool.Some?) &&
      (isDraggingFromSidebar <==> dragPreview.visible) &&
      (!isDraggingFromSidebar ==> dragPreview == HiddenPreview) &&
      (draggedShape.None? ==> dragOffset == Origin)
    }

    /** The initial `useState` values. */
    constructor ()
      ensures Valid()
      ensures shapes == [] && selectedTool == CircleType
      ensures !isDraggingFromSidebar && draggedTool == None && dragPreview == HiddenPreview
      ensures draggedShape == None && dragOffset == Origin
    {
      shapes := [];
      selectedTool := CircleType;
      isDraggingFromSidebar := false;
      draggedTool := None;
      dragPreview := HiddenPreview;
      draggedShape := None;
      dragOffset := Origin;
    }

    /** A click on a palette entry selects that tool; nothing else changes. */
    method SelectTool(tool: Tool)
      requires Valid()
      modifies this
      ensures Valid()
      ensures selectedTool == tool
      ensures shapes == old(shapes) && isDraggingFromSidebar == old(isDraggingFromSidebar)
      ensures draggedTool == old(draggedTool) && dragPreview == old(dragPreview)
      ensures draggedShape == old(draggedShape) && dragOffset == old(dragOffset)
    {
      selectedTool := tool;
    }

    /** A press on a palette entry starts a palette drag carrying that tool,
        with the preview at the pointer. The selected tool is not changed. */
    method SidebarDragStart(tool: Tool, clientX: real, clientY: real)
      requires Valid()
      modifies this
      ensures Valid()
      ensures isDraggingFromSidebar && draggedTool == Some(tool)
      ensures dragPreview == Preview(clientX, clientY, true)
      ensures shapes == old(shapes) && selectedTool == old(selectedTool)
      ensures draggedShape == old(draggedShape) && dragOffset == old(dragOffset)
    {
      isDraggingFromSidebar := true;
      draggedTool := Some(tool);
      dragPreview := Preview(clientX, clientY, true);
    }

    /** A pointer move during a palette drag moves only the preview; outside
        a palette drag it does nothing. */
    method SidebarDragMove(clientX: real, clientY: real)
      requires Valid()
      modifies this
      ensures Valid()
      ensures dragPreview == if old(isDraggingFromSidebar) then Preview(clientX, clientY, true)
                             else old(dragPreview)
      ensures shapes == old(shapes) && selectedTool == old(selectedTool)
      ensures isDraggingFromSidebar == old(isDraggingFromSidebar) && draggedTool == old(draggedTool)
      ensures draggedShape == old(draggedShape) && dragOffset == old(dragOffset)
    {
      if isDraggingFromSidebar {
        dragPreview := Preview(clientX, clientY, true);
      }
    }

    /** The document-wide move listener, installed only during a palette drag,
        forwards to the sidebar move. */
    method GlobalMouseMove(clientX: real, clientY: real)
      requires Valid()
      modifies this
      ensures Valid()
      ensures dragPreview == if old(isDraggingFromSidebar) then Preview(clientX, clientY, true)
                             else old(dragPreview)
      ensures shapes == old(shapes) && selectedTool == old(selectedTool)
      ensures isDraggingFromSidebar == old(isDraggingFromSidebar) && draggedTool == old(draggedTool)
      ensures draggedShape == old(draggedShape) && dragOffset == old(dragOffset)
    {
      if isDraggingFromSidebar {
        SidebarDragMove(clientX, clientY);
      }
    }

    /** A click on the empty canvas appends one shape of the selected tool,
        centred on the pointer and not clamped, unless a palette drag is in
        progress. Earlier shapes and the drag fields stay as they were. */
    method AddShape(clientX: real, clientY: real, canvas: Rect, now: int)
      requires Valid()
      modifies this
      ensures Valid()
      ensures shapes == if old(isDraggingFromSidebar) then old(shapes)
        else old(shapes) + [ClickedShape(now, old(selectedTool), clientX - canvas.left, clientY - canvas.top)]
      ensures selectedTool == old(selectedTool)
      ensures isDraggingFromSidebar == old(isDraggingFromSidebar) && draggedTool == old(draggedTool)
      ensures dragPreview == old(dragPreview)
      ensures draggedShape == old(draggedShape) && dragOffset == old(dragOffset)
    {
      if isDraggingFromSidebar {
        return;
      }
      var x := clientX - canvas.left;
      var y := clientY - canvas.top;
      shapes := shapes + [ClickedShape(now, selectedTool, x, y)];
    }

    /** A palette drop on the canvas: when a palette drag carrying a tool is in
        progress, appends one shape of that tool, centred on the pointer and
        clamped into the canvas, and ends the palette drag; otherwise nothing. */
    method CanvasDrop(clientX: real, clientY: real, canvas: Rect, now: int)
      requires Valid()
      modifies this
      ensures Valid()
      ensures old(isDraggingFromSidebar) && old(draggedTool).Some? ==>
        shapes == old(shapes) + [DroppedShape(now, old(draggedTool).value, clientX - canvas.left,
                                              clientY - canvas.top, canvas.width, canvas.height)] &&
        !isDraggingFromSidebar && draggedTool == None && dragPreview == HiddenPreview
      ensures !(old(isDraggingFromSidebar) && old(draggedTool).Some?) ==>
        shapes == old(shapes) && isDraggingFromSidebar == old(isDraggingFromSidebar) &&
        draggedTool == old(draggedTool) && dragPreview == old(dragPreview)
      ensures selectedTool == old(selectedTool)
      ensures draggedShape == old(draggedShape) && dragOffset == old(dragOffset)
    {
      if !isDraggingFromSidebar || draggedTool.None? {
        return;
      }
      var x := clientX - canvas.left;
      var y := clientY - canvas.top;
      shapes := shapes + [DroppedShape(now, draggedTool.value, x, y, canvas.width, canvas.height)];
      isDraggingFromSidebar := false;
      draggedTool := None;
      dragPreview := HiddenPreview;
    }

    /** A double-click on a shape deletes every shape carrying its id. */
    method DeleteShape(id: int)
      requires Valid()
      modifies this
      ensures Valid()
      ensures shapes == RemoveId(old(shapes), id)
      ensures selectedTool == old(selectedTool)
      ensures isDraggingFromSidebar == old(isDraggingFromSidebar) && draggedTool == old(draggedTool)
      ensures dragPreview == old(dragPreview)
      ensures draggedShape == old(draggedShape) && dragOffset == old(dragOffset)
    {
      shapes := RemoveId(shapes, id);
    }

    /** A press on a shape starts a shape drag: it records the shape's id and
        the pointer's offset inside the shape's own bounding box. */
    method ShapeMouseDown(shape: Shape, clientX: real, clientY: real, shapeBox: Rect)
      requires Valid()
      modifies this
      ensures Valid()
      ensures draggedShape == Some(shape.id)
      ensures dragOffset == Point(clientX - shapeBox.left, clientY - shapeBox.top)
      ensures shapes == old(shapes) && selectedTool == old(selectedTool)
      ensures isDraggingFromSidebar == old(isDraggingFromSidebar) && draggedTool == old(draggedTool)
      ensures dragPreview == old(dragPreview)
    {
      var offsetX := clientX - shapeBox.left;
      var offsetY := clientY - shapeBox.top;
      draggedShape := Some(shape.id);
      dragOffset := Point(offsetX, offsetY);
    }

    /** A pointer move over the canvas during a shape drag puts every shape
        carrying the dragged id at the pointer less the grab offset, clamped
        into the canvas; outside a shape drag it does nothing. */
    method MouseMove(clientX: real, clientY: real, canvas: Rect)
      requires Valid()
      modifies this
      ensures Valid()
      ensures shapes == if DraggingShape(old(draggedShape))
        then MoveMatching(old(shapes), old(draggedShape).value,
                          clientX - canvas.left - old(dragOffset).x,
                          clientY - canvas.top - old(dragOffset).y,
                          canvas.width, canvas.height)
        else old(shapes)
      ensures selectedTool == old(selectedTool)
      ensures isDraggingFromSidebar == old(isDraggingFromSidebar) && draggedTool == old(draggedTool)
      ensures dragPreview == old(dragPreview)
      ensures draggedShape == old(draggedShape) && dragOffset == old(dragOffset)
    {
      if DraggingShape(draggedShape) {
        var x := clientX - canvas.left - dragOffset.x;
        var y := clientY - canvas.top - dragOffset.y;
        shapes := MoveMatching(shapes, draggedShape.value, x, y, canvas.width, canvas.height);
      }
    }

    /** A pointer release on the canvas: during a palette drag it is the drop
        (which, by `Valid()`, always finds a tool and appends a shape);
        otherwise it ends any shape drag and clears the grab offset. */
    method MouseUp(clientX: real, clientY: real, canvas: Rect, now: int)
      requires Valid()
      modifies this
      ensures Valid()
      ensures old(isDraggingFromSidebar) ==>
        shapes == old(shapes) + [DroppedShape(now, old(draggedTool).value, clientX - canvas.left,
                                              clientY - canvas.top, canvas.width, canvas.height)] &&
        !isDraggingFromSidebar && draggedTool == None && dragPreview == HiddenPreview &&
        draggedShape == old(draggedShape) && dragOffset == old(dragOffset)
      ensures !old(isDraggingFromSidebar) ==>
        shapes == old(shapes) && draggedShape == None && dragOffset == Origin &&
        isDraggingFromSidebar == old(isDraggingFromSidebar) &&
        draggedTool == old(draggedTool) && dragPreview == old(dragPreview)
      ensures selectedTool == old(selectedTool)
    {
      if isDraggingFromSidebar {
        CanvasDrop(clientX, clientY, canvas, now);
      } else {
        draggedShape := None;
        dragOffset := Origin;
      }
    }

    /** The pointer leaving the canvas is wired to the same handler as a
        release, so a palette drag that crosses the canvas and leaves it drops
        a shape at the point of exit. */
    method MouseLeave(clientX: real, clientY: real, canvas: Rect, now: int)
      requires Valid()
      modifies this
      ensures Valid()
      ensures old(isDraggingFromSidebar) ==>
        shapes == old(shapes) + [DroppedShape(now, old(draggedTool).value, clientX - canvas.left,
                                              clientY - canvas.top, canvas.width, canvas.height)] &&
        !isDraggingFromSidebar && draggedTool == None && dragPreview == HiddenPreview &&
        draggedShape == old(draggedShape) && dragOffset == old(dragOffset)
      ensures !old(isDraggingFromSidebar) ==>
        shapes == old(shapes) && draggedShape == None && dragOffset == Origin &&
        isDraggingFromSidebar == old(isDraggingFromSidebar) &&
        draggedTool == old(draggedTool) && dragPreview == old(dragPreview)
      ensures selectedTool == old(selectedTool)
    {
      MouseUp(clientX, clientY, canvas, now);
    }

    /** The document-wide release listener returns every drag field to its
        idle value and never touches the shapes. */
    method GlobalMouseUp()
      requires Valid()
      modifies this
      ensures Valid()
      ensures !isDraggingFromSidebar && draggedTool == None && dragPreview == HiddenPreview
      ensures draggedShape == None && dragOffset == Origin
      ensures shapes == old(shapes) && selectedTool == old(selectedTool)
    {
      isDraggingFromSidebar := false;
      draggedTool := None;
      dragPreview := HiddenPreview;
      draggedShape := None;
      dragOffset := Origin;
    }

    /** One release of the pointer over the canvas, in dispatch order: the
        canvas handler first, then the document listener, which is installed
        only while a palette drag is in progress. The drop therefore happens
        before the reset, and afterwards every drag field is idle. */
    method ReleaseOverCanvas(clientX: real, clientY: real, canvas: Rect, now: int)
      requires Valid()
      modifies this
      ensures Valid()
      ensures shapes == if old(isDraggingFromSidebar)
        then old(shapes) + [DroppedShape(now, old(draggedTool).value, clientX - canvas.left,
                                         clientY - canvas.top, canvas.width, canvas.height)]
        else old(shapes)
      ensures !isDraggingFromSidebar && draggedTool == None && dragPreview == HiddenPreview
      ensures draggedShape == None && dragOffset == Origin
      ensures selectedTool == old(selectedTool)
    {
      var listening := isDraggingFromSidebar;
      MouseUp(clientX, clientY, canvas, now);
      if listening {
        GlobalMouseUp();
      }
    }

    /** The import handler: with no file nothing happens, text that does not
        parse leaves the shapes as they were, and a
        parsed list replaces the shapes wholesale, unvalidated. */
    method ImportData(outcome: ImportOutcome)
      requires Valid()
      modifies this
      ensures Valid()
      ensures shapes == if outcome.Parsed? then outcome.records else old(shapes)
      ensures selectedTool == old(selectedTool)
      ensures isDraggingFromSidebar == old(isDraggingFromSidebar) && draggedTool == old(draggedTool)
      ensures dragPreview == old(dragPreview)
      ensures draggedShape == old(draggedShape) && dragOffset == old(dragOffset)
    {
      match outcome {
        case NoFile =>
        case ParseError =>
        case Parsed(records) =>
          shapes := records;
      }
    }

    /** The status bar: one count per palette type and the total. */
    function Status(): (t: Tally)
      reads this
      ensures t.total == |shapes|
      ensures t.circles + t.squares + t.triangles <= t.total
      ensures t.circles == CountKind(shapes, CircleType)
      ensures t.squares == CountKind(shapes, SquareType)
      ensures t.triangles == CountKind(shapes, TriangleType)
    {
      StatusTally(shapes)
    }
  }
}
