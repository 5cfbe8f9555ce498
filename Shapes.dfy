/** The shape list of the paint application and the pure transforms the
    handlers apply to it: append (array spread), delete (`filter` on the id),
    move (`map` that repositions the shapes carrying the dragged id), and the
    per-type counts shown in the status bar. */
module Shapes {
  import opened Geometry

  /** The `type` strings the palette produces. */
  const CircleType: string := "circle"
  const SquareType: string := "square"
  const TriangleType: string := "triangle"

  predicate IsTool(kind: string) {
    kind == CircleType || kind == SquareType || kind == TriangleType
  }

  /** A palette tool. A shape read back by import may carry any other string. */
  type Tool = kind: string | IsTool(kind) witness CircleType

  /** A placed shape: `{id, type, x, y, size, color}`, where `(x, y)` is the
      top-left corner of its bounding box in canvas coordinates. */
  datatype Shape = Shape(id: int, kind: string, x: real, y: real, size: real, color: string)

  /** Every shape the application creates is 50 wide, centred on the pointer
      by subtracting 25, and painted in one colour. */
  const ShapeSize: real := 50.0
  const HalfShape: real := 25.0
  const ShapeColor: string := "#3b82f6"

  /** The whole bounding box lies inside a `w` by `h` canvas. */
  predicate InCanvas(sh: Shape, w: real, h: real) {
    0.0 <= sh.x && sh.x + sh.size <= w && 0.0 <= sh.y && sh.y + sh.size <= h
  }

  predicate AllInCanvas(s: seq<Shape>, w: real, h: real) {
    forall i :: 0 <= i < |s| ==> InCanvas(s[i], w, h)
  }

  predicate UniqueIds(s: seq<Shape>) {
    forall i, j :: 0 <= i < j < |s| ==> s[i].id != s[j].id
  }

  predicate HasId(s: seq<Shape>, id: int) {
    exists i :: 0 <= i < |s| && s[i].id == id
  }

  /** The shape a click on the canvas creates: centred on the canvas-local
      pointer `(px, py)` and NOT clamped, so it can stick out of the canvas. */
  function ClickedShape(id: int, tool: Tool, px: real, py: real): (r: Shape)
    ensures r.id == id && r.kind == tool && r.size == ShapeSize && r.color == ShapeColor
    ensures r.x + r.size / 2.0 == px && r.y + r.size / 2.0 == py
  {
    Shape(id, tool, px - HalfShape, py - HalfShape, ShapeSize, ShapeColor)
  }

  /** A click at canvas point (100, 100) with the square tool creates the
      square whose corner is (75, 75). */
  lemma ClickAtHundred(id: int)
    ensures ClickedShape(id, SquareType, 100.0, 100.0) == Shape(id, "square", 75.0, 75.0, 50.0, "#3b82f6")
  {
  }

  /** A click 10 units from the canvas corner creates a shape that sticks out
      of the canvas by 15 units on each axis, however large the canvas. */
  lemma ClickNearCornerLeavesCanvas(id: int, tool: Tool, w: real, h: real)
    ensures ClickedShape(id, tool, 10.0, 10.0).x == -15.0
    ensures !InCanvas(ClickedShape(id, tool, 10.0, 10.0), w, h)
  {
  }

  /** The shape a palette drop creates on a `w` by `h` canvas: centred on the
      pointer, then clamped with the constant 50 for the width. */
  function DroppedShape(id: int, tool: Tool, px: real, py: real, w: real, h: real): (r: Shape)
    ensures r.id == id && r.kind == tool && r.size == ShapeSize && r.color == ShapeColor
    ensures 0.0 <= r.x && 0.0 <= r.y
    ensures ShapeSize <= w ==> r.x <= w - ShapeSize
    ensures ShapeSize <= h ==> r.y <= h - ShapeSize
    ensures ShapeSize <= w && ShapeSize <= h ==> InCanvas(r, w, h)
    ensures InCanvas(ClickedShape(id, tool, px, py), w, h) ==> r == ClickedShape(id, tool, px, py)
  {
    Shape(id, tool, Clamp(px - HalfShape, w, ShapeSize), Clamp(py - HalfShape, h, ShapeSize),
          ShapeSize, ShapeColor)
  }

  /** `shapes.filter(shape => shape.id !== id)`: every shape carrying `id` goes,
      every other shape stays, in its order. */
  function RemoveId(s: seq<Shape>, id: int): (r: seq<Shape>)
    ensures |r| <= |s|
    ensures forall k :: 0 <= k < |r| ==> r[k].id != id
  {
    if s == [] then []
    else if s[0].id == id then RemoveId(s[1..], id)
    else [s[0]] + RemoveId(s[1..], id)
  }

  /** The filter invents nothing: every shape it keeps was in the list. */
  lemma {:induction false} RemoveIdSubset(s: seq<Shape>, id: int)
    ensures forall t :: t in RemoveId(s, id) ==> t in s
  {
    if s != [] {
      RemoveIdSubset(s[1..], id);
    }
  }

  /** The filter loses nothing but the given id: every other shape is kept. */
  lemma {:induction false} RemoveIdKeepsOthers(s: seq<Shape>, id: int)
    ensures forall t :: t in s && t.id != id ==> t in RemoveId(s, id)
  {
    if s != [] {
      RemoveIdKeepsOthers(s[1..], id);
      assert forall t :: t in s ==> t == s[0] || t in s[1..];
    }
  }

  /** The filter works piecewise, so it keeps the relative order of the
      shapes it keeps. */
  lemma {:induction false} RemoveIdConcat(a: seq<Shape>, b: seq<Shape>, id: int)
    ensures RemoveId(a + b, id) == RemoveId(a, id) + RemoveId(b, id)
  {
    if a == [] {
      assert a + b == b;
    } else {
      assert (a + b)[0] == a[0];
      assert (a + b)[1..] == a[1..] + b;
      RemoveIdConcat(a[1..], b, id);
    }
  }

  /** Deleting an id no shape carries changes nothing. */
  lemma {:induction false} RemoveIdAbsent(s: seq<Shape>, id: int)
    requires !HasId(s, id)
    ensures RemoveId(s, id) == s
  {
    if s != [] {
      assert s[0].id != id;
      assert !HasId(s[1..], id) by {
        forall i | 0 <= i < |s[1..]| ensures s[1..][i].id != id {
          assert s[1..][i] == s[i + 1];
        }
      }
      RemoveIdAbsent(s[1..], id);
      assert s == [s[0]] + s[1..];
    }
  }

  /** Deleting twice is deleting once. */
  lemma {:induction false} RemoveIdIdempotent(s: seq<Shape>, id: int)
    ensures RemoveId(RemoveId(s, id), id) == RemoveId(s, id)
  {
    var r := RemoveId(s, id);
    assert !HasId(r, id);
    RemoveIdAbsent(r, id);
  }

  /** Removing the id of a shape that no shape before or after it carries
      removes that one shape. */
  lemma {:induction false} RemoveIdSplice(pre: seq<Shape>, t: Shape, post: seq<Shape>)
    requires !HasId(pre, t.id) && !HasId(post, t.id)
    ensures RemoveId(pre + [t] + post, t.id) == pre + post
  {
    RemoveIdConcat(pre + [t], post, t.id);
    RemoveIdConcat(pre, [t], t.id);
    RemoveIdAbsent(pre, t.id);
    RemoveIdAbsent(post, t.id);
    assert RemoveId([t], t.id) == [] by {
      assert [t][1..] == [];
    }
  }

  /** With unique ids, the double-click on the shape at index `i` removes
      exactly that shape and leaves every other one, in order. */
  lemma {:induction false} DeleteUniqueRemovesOne(s: seq<Shape>, i: int)
    requires UniqueIds(s) && 0 <= i < |s|
    ensures RemoveId(s, s[i].id) == s[..i] + s[i + 1..]
  {
    var pre, post := s[..i], s[i + 1..];
    assert !HasId(pre, s[i].id) by {
      forall j | 0 <= j < |pre| ensures pre[j].id != s[i].id {
        assert pre[j] == s[j];
      }
    }
    assert !HasId(post, s[i].id) by {
      forall j | 0 <= j < |post| ensures post[j].id != s[i].id {
        assert post[j] == s[i + 1 + j];
      }
    }
    RemoveIdSplice(pre, s[i], post);
    assert s == pre + [s[i]] + post;
  }

  /** Deleting keeps ids unique. */
  lemma {:induction false} RemoveIdKeepsUniqueIds(s: seq<Shape>, id: int)
    requires UniqueIds(s)
    ensures UniqueIds(RemoveId(s, id))
  {
    if s != [] {
      assert UniqueIds(s[1..]) by {
        forall i, j | 0 <= i < j < |s[1..]| ensures s[1..][i].id != s[1..][j].id {
          assert s[1..][i] == s[i + 1] && s[1..][j] == s[j + 1];
        }
      }
      RemoveIdKeepsUniqueIds(s[1..], id);
      var rest := RemoveId(s[1..], id);
      RemoveIdSubset(s[1..], id);
      if s[0].id != id {
        forall k | 0 <= k < |rest| ensures rest[k].id != s[0].id {
          assert rest[k] in s[1..];
          var m :| 0 <= m < |s[1..]| && s[1..][m] == rest[k];
          assert s[1..][m] == s[m + 1];
        }
        var r := [s[0]] + rest;
        forall i, j | 0 <= i < j < |r| ensures r[i].id != r[j].id {
          assert r[j] == rest[j - 1];
          if i > 0 {
            assert r[i] == rest[i - 1];
          }
        }
      }
    }
  }

  /** Deleting keeps every remaining shape inside the canvas it was in. */
  lemma RemoveIdKeepsInCanvas(s: seq<Shape>, id: int, w: real, h: real)
    requires AllInCanvas(s, w, h)
    ensures AllInCanvas(RemoveId(s, id), w, h)
  {
  }

  /** One shape after a drag move to the raw position `(x, y)` on a `w` by `h`
      canvas: only `x` and `y` change, each clamped against its own size. */
  function Reposition(sh: Shape, x: real, y: real, w: real, h: real): (r: Shape)
    ensures r == sh.(x := r.x, y := r.y)
    ensures r.x == Clamp(x, w, sh.size) && r.y == Clamp(y, h, sh.size)
    ensures sh.size <= w && sh.size <= h ==> InCanvas(r, w, h)
  {
    sh.(x := Clamp(x, w, sh.size), y := Clamp(y, h, sh.size))
  }

  /** `shapes.map(...)` of a drag move: the shapes carrying `target` are
      repositioned, the others are untouched; length and order stay. */
  function MoveMatching(s: seq<Shape>, target: int, x: real, y: real, w: real, h: real): (r: seq<Shape>)
    ensures |r| == |s|
    ensures forall i :: 0 <= i < |s| && s[i].id != target ==> r[i] == s[i]
    ensures forall i :: 0 <= i < |s| && s[i].id == target ==>
      r[i] == s[i].(x := r[i].x, y := r[i].y) &&
      r[i].x == Clamp(x, w, s[i].size) && r[i].y == Clamp(y, h, s[i].size)
  {
    seq(|s|, i requires 0 <= i < |s| =>
      if s[i].id == target then Reposition(s[i], x, y, w, h) else s[i])
  }

  /** The new position comes from the pointer, not from the old position, so
      a repeated move event leaves the list as the first one did. */
  lemma MoveIdempotent(s: seq<Shape>, target: int, x: real, y: real, w: real, h: real)
    ensures MoveMatching(MoveMatching(s, target, x, y, w, h), target, x, y, w, h)
         == MoveMatching(s, target, x, y, w, h)
  {
  }

  /** A move keeps every shape inside the canvas when every shape was inside
      it before: a shape that fits is clamped back into it. */
  lemma MoveKeepsInCanvas(s: seq<Shape>, target: int, x: real, y: real, w: real, h: real)
    requires AllInCanvas(s, w, h)
    ensures AllInCanvas(MoveMatching(s, target, x, y, w, h), w, h)
  {
  }

  /** A move keeps ids unique, since it changes no id. */
  lemma MoveKeepsUniqueIds(s: seq<Shape>, target: int, x: real, y: real, w: real, h: real)
    requires UniqueIds(s)
    ensures UniqueIds(MoveMatching(s, target, x, y, w, h))
  {
  }

  /** Appending a shape with an id not yet in the list keeps ids unique. */
  lemma AppendKeepsUniqueIds(s: seq<Shape>, t: Shape)
    requires UniqueIds(s) && !HasId(s, t.id)
    ensures UniqueIds(s + [t])
  {
  }

  /** `shapes.filter(s => s.type === kind).length`. */
  function CountKind(s: seq<Shape>, kind: string): (n: nat)
    ensures n <= |s|
    ensures n == 0 <==> forall i :: 0 <= i < |s| ==> s[i].kind != kind
  {
    if s == [] then 0
    else (if s[0].kind == kind then 1 else 0) + CountKind(s[1..], kind)
  }

  /** The shapes whose type is none of the palette's, which only import can
      bring in and which no per-type status-bar count includes (the total
      does include them). */
  function CountUnknown(s: seq<Shape>): (n: nat)
    ensures n <= |s|
    ensures n == 0 <==> forall i :: 0 <= i < |s| ==> IsTool(s[i].kind)
  {
    if s == [] then 0
    else (if IsTool(s[0].kind) then 0 else 1) + CountUnknown(s[1..])
  }

  /** The three type counts and the unknown ones make up the whole list. */
  lemma {:induction false} CountsPartition(s: seq<Shape>)
    ensures CountKind(s, CircleType) + CountKind(s, SquareType) + CountKind(s, TriangleType)
            + CountUnknown(s) == |s|
  {
    if s != [] {
      CountsPartition(s[1..]);
    }
  }

  /** Counting is additive over concatenation. */
  lemma {:induction false} CountConcat(a: seq<Shape>, b: seq<Shape>, kind: string)
    ensures CountKind(a + b, kind) == CountKind(a, kind) + CountKind(b, kind)
  {
    if a == [] {
      assert a + b == b;
    } else {
      assert (a + b)[0] == a[0];
      assert (a + b)[1..] == a[1..] + b;
      CountConcat(a[1..], b, kind);
    }
  }

  /** Appending a shape raises exactly its own type's count by one. */
  lemma {:induction false} CountAppend(s: seq<Shape>, t: Shape, kind: string)
    ensures CountKind(s + [t], kind) == CountKind(s, kind) + (if t.kind == kind then 1 else 0)
  {
    CountConcat(s, [t], kind);
    assert [t][1..] == [];
  }

  /** With unique ids, deleting the shape at index `i` lowers exactly its own
      type's count by one. */
  lemma {:induction false} DeleteUniqueCount(s: seq<Shape>, i: int, kind: string)
    requires UniqueIds(s) && 0 <= i < |s|
    ensures CountKind(RemoveId(s, s[i].id), kind)
         == CountKind(s, kind) - (if s[i].kind == kind then 1 else 0)
  {
    DeleteUniqueRemovesOne(s, i);
    assert s == s[..i] + ([s[i]] + s[i + 1..]);
    CountConcat(s[..i], [s[i]] + s[i + 1..], kind);
    CountConcat([s[i]], s[i + 1..], kind);
    CountConcat(s[..i], s[i + 1..], kind);
    assert [s[i]][1..] == [];
  }

  /** Two lists with the same types at the same places have the same counts. */
  lemma {:induction false} CountSameKinds(a: seq<Shape>, b: seq<Shape>, kind: string)
    requires |a| == |b| && forall i :: 0 <= i < |a| ==> a[i].kind == b[i].kind
    ensures CountKind(a, kind) == CountKind(b, kind)
  {
    if a != [] {
      CountSameKinds(a[1..], b[1..], kind);
    }
  }

  /** A move leaves the status-bar counts as they were. */
  lemma {:induction false} MoveKeepsCounts(s: seq<Shape>, target: int, x: real, y: real, w: real, h: real, kind: string)
    ensures CountKind(MoveMatching(s, target, x, y, w, h), kind) == CountKind(s, kind)
  {
    CountSameKinds(MoveMatching(s, target, x, y, w, h), s, kind);
  }

  /** What the status bar shows. */
  datatype Tally = Tally(circles: nat, squares: nat, triangles: nat, total: nat)

  function StatusTally(s: seq<Shape>): (t: Tally)
    ensures t.total == |s|
    ensures t.circles + t.squares + t.triangles + CountUnknown(s) == t.total
  {
    CountsPartition(s);
    Tally(CountKind(s, CircleType), CountKind(s, SquareType), CountKind(s, TriangleType), |s|)
  }
}
