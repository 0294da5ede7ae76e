/** The shape record the hotspot manager stores, its type tag, and the
    renumbering that every commit and every save applies to a shape list. */
module Shapes {

  /** The value of the shape selector. The renderer knows four kinds; any
      other string is kept as it is and draws only the numbered handle. */
  datatype ShapeType = Rectangle | Square | Circle | Triangle | Other(name: string)

  /** The selector's string value read as a shape type. */
  function ParseType(value: string): (t: ShapeType)
    ensures t.Other? <==> value !in {"rectangle", "square", "circle", "triangle"}
    ensures TypeName(t) == value && Canonical(t)
  {
    if value == "rectangle" then Rectangle
    else if value == "square" then Square
    else if value == "circle" then Circle
    else if value == "triangle" then Triangle
    else Other(value)
  }

  /** The string a shape type is written as in a saved shape record. */
  function TypeName(t: ShapeType): string
  {
    match t
    case Rectangle => "rectangle"
    case Square => "square"
    case Circle => "circle"
    case Triangle => "triangle"
    case Other(name) => name
  }

  /** A type tag that is what parsing its own name gives: an "other" tag
      never carries one of the four known names. */
  predicate Canonical(t: ShapeType)
  {
    t.Other? ==> t.name !in {"rectangle", "square", "circle", "triangle"}
  }

  /** Two selector values give the same shape type only when they are the
      same string, so distinct selections are saved as distinct types. */
  lemma ParseTypeInjective(a: string, b: string)
    ensures ParseType(a) == ParseType(b) <==> a == b
  {
  }

  /** A type tag that does not pose as one of the four known kinds survives
      being written and read back. */
  lemma ParseOfName(t: ShapeType)
    requires Canonical(t)
    ensures ParseType(TypeName(t)) == t
  {
  }

  /** One hotspot: the gesture's start and end in image coordinates and the
      1-based number drawn in its handle. */
  datatype Shape = Shape(kind: ShapeType, startX: real, startY: real, endX: real, endY: real, index: int)

  /** Two shapes that differ at most in their number. */
  predicate SameExceptIndex(a: Shape, b: Shape)
  {
    a.kind == b.kind && a.startX == b.startX && a.startY == b.startY &&
    a.endX == b.endX && a.endY == b.endY
  }

  /** Every shape carries its 1-based position in the list as its number. */
  predicate NumberedFrom1(s: seq<Shape>)
  {
    forall i :: 0 <= i < |s| ==> s[i].index == i + 1
  }

  /** The list with each shape renumbered by its position, as the `map`
      over `(shape, index)` in addToHistory and saveShapes does. */
  function Renumber(s: seq<Shape>): (r: seq<Shape>)
    ensures |r| == |s| && NumberedFrom1(r)
    ensures forall i :: 0 <= i < |s| ==> SameExceptIndex(r[i], s[i])
  {
    seq(|s|, i requires 0 <= i < |s| => s[i].(index := i + 1))
  }

  /** Renumbering leaves a list alone exactly when it is already numbered. */
  lemma RenumberFixes(s: seq<Shape>)
    ensures Renumber(s) == s <==> NumberedFrom1(s)
  {
    if NumberedFrom1(s) {
      forall i | 0 <= i < |s| ensures Renumber(s)[i] == s[i] {
        assert s[i].(index := i + 1) == s[i];
      }
    }
  }

  /** Renumbering twice is renumbering once. */
  lemma RenumberIdempotent(s: seq<Shape>)
    ensures Renumber(Renumber(s)) == Renumber(s)
  {
    RenumberFixes(Renumber(s));
  }

  /** Renumbering a list with one more shape at the end renumbers the old
      list and gives the new shape the next number. */
  lemma {:induction false} RenumberSnoc(s: seq<Shape>, x: Shape)
    ensures Renumber(s + [x]) == Renumber(s) + [x.(index := |s| + 1)]
  {
    var l := Renumber(s + [x]);
    var r := Renumber(s) + [x.(index := |s| + 1)];
    assert |l| == |r|;
    forall i | 0 <= i < |l| ensures l[i] == r[i] {
      if i < |s| {
        assert (s + [x])[i] == s[i];
      } else {
        assert (s + [x])[i] == x;
      }
    }
  }

  /** A numbered list with a shape numbered one past its length appended is
      still numbered; this is what stopDrawing relies on when it pushes the
      new shape. */
  lemma AppendNext(s: seq<Shape>, x: Shape)
    requires NumberedFrom1(s) && x.index == |s| + 1
    ensures NumberedFrom1(s + [x])
  {
    forall i | 0 <= i < |s| + 1 ensures (s + [x])[i].index == i + 1 {
      if i < |s| { assert (s + [x])[i] == s[i]; }
    }
  }

  /** The numbers of a list of shapes, in order. */
  function Indices(s: seq<Shape>): (r: seq<int>)
    ensures |r| == |s| && forall i :: 0 <= i < |s| ==> r[i] == s[i].index
  {
    seq(|s|, i requires 0 <= i < |s| => s[i].index)
  }

  /** The list 1, 2, ..., n. */
  function OneTo(n: nat): (r: seq<int>)
    ensures |r| == n && forall i :: 0 <= i < n ==> r[i] == i + 1
  {
    seq(n, i => i + 1)
  }

  /** A renumbered list always saves the numbers 1..n. */
  lemma RenumberedIndices(s: seq<Shape>)
    ensures Indices(Renumber(s)) == OneTo(|s|)
  {
  }
}
