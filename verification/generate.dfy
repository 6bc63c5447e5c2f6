/** The placement of shapes in a synthetic image (generate.py:10-13, 38-80).

    The num_shapes, shape-index, size and position draws are inputs here: a Draw is one
    iteration's size and position, and generate_shape receives the finite stream of
    draws it would consume. The colour and rotation draws are not modelled.
    The source loops until a draw is accepted; when the stream runs out first the model
    reports None. Pixels, colour, rotation and the image itself are not modelled. */
module Generate {
  import opened Boxes
  import opened Overlap

  const Width: int := 112
  const Height: int := 112

  /** The polygon side counts by shape index; 0 draws an ellipse (generate.py:13, 58-63). */
  const Shapes: seq<int> := [0, 3, 4, 5, 6]

  /** int(min(WIDTH, HEIGHT) * 0.2) and int(min(WIDTH, HEIGHT) * 0.6) (generate.py:47). */
  const MinSide: int := ((if Width < Height then Width else Height) as real * 0.2).Floor
  const MaxSide: int := ((if Width < Height then Width else Height) as real * 0.6).Floor

  /** One iteration's random.randint results: the side s, then x, then y (generate.py:47-49). */
  datatype Draw = Draw(s: int, x: int, y: int)

  /** The ranges randint draws from: both bounds included. */
  predicate DrawInRange(d: Draw)
  {
    MinSide <= d.s <= MaxSide && 0 <= d.x <= Width - d.s - 1 && 0 <= d.y <= Height - d.s - 1
  }

  /** A row of data: [shape_idx, x, y, s, s] (generate.py:78). */
  datatype Label = Label(shape: int, x: real, y: real, w: real, h: real)

  /** box[1:] of a row of data, read as a centre-form box (generate.py:52). */
  function LabelBox(l: Label): Box
  {
    Box(l.x, l.y, l.w, l.h)
  }

  /** prop_box: the proposed square in normalised centre form (generate.py:53-54). */
  function ProposedBox(d: Draw): (b: Box)
    ensures b.w == b.h == d.s as real / Width as real
  {
    var ss := d.s as real / Width as real;
    Box(d.x as real / Width as real + ss / 2.0, d.y as real / Height as real + ss / 2.0, ss, ss)
  }

  /** A draw is accepted when its proposal clashes with no earlier row (generate.py:50-56). */
  predicate Accepted(data: seq<Label>, d: Draw)
  {
    forall i :: 0 <= i < |data| ==> !Overlaps(LabelBox(data[i]), ProposedBox(d))
  }

  /** What generate_shape returns besides the image: shape_idx and the normalised
      x, y and s (generate.py:65-69). */
  datatype Shape = Shape(shapeIdx: int, x: real, y: real, s: real)

  function ShapeLabel(sh: Shape): Label
  {
    Label(sh.shapeIdx, sh.x, sh.y, sh.s, sh.s)
  }

  /** The returned values for an accepted draw (generate.py:65-67). */
  function Normalised(shapeIdx: int, d: Draw): (sh: Shape)
    ensures LabelBox(ShapeLabel(sh)) == ProposedBox(d)
  {
    var s := d.s as real / Width as real;
    Shape(shapeIdx, d.x as real / Width as real + s / 2.0, d.y as real / Height as real + s / 2.0, s)
  }

  /** The result of the rejection loop on a stream of draws: the first accepted draw,
      normalised; None when every draw is rejected. */
  function Place(data: seq<Label>, shapeIdx: int, draws: seq<Draw>): (r: Option<Shape>)
    ensures r.Some? ==> r.value.shapeIdx == shapeIdx
    decreases |draws|
  {
    if |draws| == 0 then None
    else if Accepted(data, draws[0]) then Some(Normalised(shapeIdx, draws[0]))
    else Place(data, shapeIdx, draws[1..])
  }

  /** generate_shape (generate.py:38-69) without the drawing: the rejection loop over
      the draws, then the normalisation of the accepted one. */
  method GenerateShape(data: seq<Label>, shapeIdx: int, draws: seq<Draw>) returns (r: Option<Shape>)
    requires 0 <= shapeIdx < |Shapes|
    ensures r == Place(data, shapeIdx, draws)
  {
    var valid := false;
    var s, x, y := 0, 0, 0;
    var i := 0;
    while !valid && i < |draws|
      invariant 0 <= i <= |draws|
      invariant valid ==> 0 < i && Draw(s, x, y) == draws[i - 1] && Accepted(data, draws[i - 1])
                          && Place(data, shapeIdx, draws) == Some(Normalised(shapeIdx, draws[i - 1]))
      invariant !valid ==> Place(data, shapeIdx, draws) == Place(data, shapeIdx, draws[i..])
    {
      s, x, y := draws[i].s, draws[i].x, draws[i].y;
      valid := ClashFree(data, s, x, y);
      PlaceStep(data, shapeIdx, draws, i);
      i := i + 1;
    }
    if !valid {
      assert draws[i..] == [];
      return None;
    }
    var sn := s as real / Width as real;
    var xn := x as real / Width as real + sn / 2.0;
    var yn := y as real / Height as real + sn / 2.0;
    r := Some(Shape(shapeIdx, xn, yn, sn));
  }

  /** The inner loop of generate_shape (generate.py:50-56): valid stays true exactly
      when the proposal clashes with no row of data. */
  method ClashFree(data: seq<Label>, s: int, x: int, y: int) returns (valid: bool)
    ensures valid <==> Accepted(data, Draw(s, x, y))
  {
    valid := true;
    for k := 0 to |data|
      invariant valid <==> forall j :: 0 <= j < k ==> !Overlaps(LabelBox(data[j]), ProposedBox(Draw(s, x, y)))
    {
      var box := LabelBox(data[k]);
      var ss := s as real / Width as real;
      var propBox := Box(x as real / Width as real + ss / 2.0, y as real / Height as real + ss / 2.0, ss, ss);
      assert propBox == ProposedBox(Draw(s, x, y));
      if Overlaps(box, propBox) {
        valid := false;
      }
    }
  }

  /** One step of the rejection loop on the stream from position i. */
  lemma PlaceStep(data: seq<Label>, shapeIdx: int, draws: seq<Draw>, i: nat)
    requires i < |draws|
    ensures Accepted(data, draws[i]) ==> Place(data, shapeIdx, draws[i..]) == Some(Normalised(shapeIdx, draws[i]))
    ensures !Accepted(data, draws[i]) ==> Place(data, shapeIdx, draws[i..]) == Place(data, shapeIdx, draws[i + 1..])
  {
    assert draws[i..][0] == draws[i];
    assert draws[i..][1..] == draws[i + 1..];
  }

  /** The rejection loop ends on the first accepted draw, and only on one: the
      returned shape is the normalised proposal of a draw that clashes with no earlier
      row, every earlier draw clashed, and None means every draw clashed
      (generate.py:45-56, 65-69). */
  lemma {:induction false} PlaceChoosesFirstAccepted(data: seq<Label>, shapeIdx: int, draws: seq<Draw>)
    ensures Place(data, shapeIdx, draws).None? <==> forall j :: 0 <= j < |draws| ==> !Accepted(data, draws[j])
    ensures Place(data, shapeIdx, draws).Some? ==>
      exists j :: 0 <= j < |draws| && FirstAccepted(data, draws, j)
        && Place(data, shapeIdx, draws).value == Normalised(shapeIdx, draws[j])
    decreases |draws|
  {
    if |draws| == 0 {
    } else if Accepted(data, draws[0]) {
      assert FirstAccepted(data, draws, 0);
    } else {
      var rest := draws[1..];
      PlaceChoosesFirstAccepted(data, shapeIdx, rest);
      assert forall j :: 1 <= j < |draws| ==> draws[j] == rest[j - 1];
      if Place(data, shapeIdx, rest).Some? {
        var j :| 0 <= j < |rest| && FirstAccepted(data, rest, j)
          && Place(data, shapeIdx, rest).value == Normalised(shapeIdx, rest[j]);
        assert FirstAccepted(data, draws, j + 1) by {
          forall k | 0 <= k < j + 1
            ensures !Accepted(data, draws[k])
          {
            if k > 0 {
              assert draws[k] == rest[k - 1];
            }
          }
        }
      }
    }
  }

  /** Draw j is accepted and every draw before it was rejected. */
  predicate FirstAccepted(data: seq<Label>, draws: seq<Draw>, j: nat)
    requires j < |draws|
  {
    Accepted(data, draws[j]) && forall k :: 0 <= k < j ==> !Accepted(data, draws[k])
  }

  /** A placed shape clashes with no row already in data. */
  lemma {:induction false} PlaceClashesWithNone(data: seq<Label>, shapeIdx: int, draws: seq<Draw>)
    requires Place(data, shapeIdx, draws).Some?
    ensures forall i :: 0 <= i < |data| ==>
      !Overlaps(LabelBox(data[i]), LabelBox(ShapeLabel(Place(data, shapeIdx, draws).value)))
    decreases |draws|
  {
    if !Accepted(data, draws[0]) {
      PlaceClashesWithNone(data, shapeIdx, draws[1..]);
    }
  }

  /** The normalised box of an in-range draw: a square of side s/112 with
      22/112 <= s/112 <= 67/112, whose edges lie within [0, 111/112]
      (generate.py:47-49, 53-54, 65-67). */
  lemma NormalisedInImage(shapeIdx: int, d: Draw)
    requires DrawInRange(d)
    ensures var b := LabelBox(ShapeLabel(Normalised(shapeIdx, d)));
      && b.w == b.h
      && 22.0 / 112.0 <= b.w <= 67.0 / 112.0
      && 0.0 <= Left(b) && Right(b) <= 111.0 / 112.0
      && 0.0 <= Top(b) && Bottom(b) <= 111.0 / 112.0
      && Proper(b)
  {
    SideBounds();
    var b := ProposedBox(d);
    assert Left(b) == d.x as real / 112.0;
    assert Right(b) == (d.x + d.s) as real / 112.0;
    assert Top(b) == d.y as real / 112.0;
    assert Bottom(b) == (d.y + d.s) as real / 112.0;
  }

  /** The sides randint draws from are 22 to 67 pixels. */
  lemma SideBounds()
    ensures MinSide == 22 && MaxSide == 67
  {
    assert 112.0 * 0.2 == 22.4;
    assert 112.0 * 0.6 == 67.2;
  }

  /** A row of data as generate_image writes it: a square in the image, with a shape
      index into Shapes. */
  predicate WellFormed(l: Label)
  {
    && 0 <= l.shape < |Shapes|
    && l.w == l.h
    && 0.0 <= Left(LabelBox(l)) && Right(LabelBox(l)) <= 111.0 / 112.0
    && 0.0 <= Top(LabelBox(l)) && Bottom(LabelBox(l)) <= 111.0 / 112.0
    && Proper(LabelBox(l))
  }

  /** No row clashes with a row appended before it. */
  predicate NoEarlierClash(data: seq<Label>)
  {
    forall i, j :: 0 <= j < i < |data| ==> !Overlaps(LabelBox(data[j]), LabelBox(data[i]))
  }

  /** The labels of generate_image after placing the remaining shapes onto data: None
      when a shape's draws run out. */
  function ImageFrom(data: seq<Label>, shapeIdxs: seq<int>, draws: seq<seq<Draw>>): Option<seq<Label>>
    requires |shapeIdxs| == |draws|
    decreases |shapeIdxs|
  {
    if |shapeIdxs| == 0 then Some(data)
    else match Place(data, shapeIdxs[0], draws[0])
      case None => None
      case Some(sh) => ImageFrom(data + [ShapeLabel(sh)], shapeIdxs[1..], draws[1..])
  }

  /** generate_image (generate.py:71-80) without the pixels: num_shapes, each shape's
      index and each shape's stream of draws are inputs. */
  method GenerateImage(numShapes: int, shapeIdxs: seq<int>, draws: seq<seq<Draw>>) returns (r: Option<seq<Label>>)
    requires 1 <= numShapes <= 3 && |shapeIdxs| == numShapes && |draws| == numShapes
    requires forall k :: 0 <= k < numShapes ==> 0 <= shapeIdxs[k] < |Shapes|
    requires forall k, j :: 0 <= k < numShapes && 0 <= j < |draws[k]| ==> DrawInRange(draws[k][j])
    ensures r == ImageFrom([], shapeIdxs, draws)
    ensures r.Some? ==>
      && 1 <= |r.value| == numShapes <= 3
      && (forall i :: 0 <= i < numShapes ==> WellFormed(r.value[i]) && r.value[i].shape == shapeIdxs[i])
      && NoEarlierClash(r.value)
  {
    ImageShapes([], shapeIdxs, draws);
    ImageRows([], shapeIdxs, draws);
    var data: seq<Label> := [];
    for k := 0 to numShapes
      invariant ImageFrom([], shapeIdxs, draws) == ImageFrom(data, shapeIdxs[k..], draws[k..])
    {
      var res := GenerateShape(data, shapeIdxs[k], draws[k]);
      assert shapeIdxs[k..][0] == shapeIdxs[k] && draws[k..][0] == draws[k];
      assert shapeIdxs[k..][1..] == shapeIdxs[k + 1..] && draws[k..][1..] == draws[k + 1..];
      if res.None? {
        return None;
      }
      data := data + [ShapeLabel(res.value)];
    }
    assert shapeIdxs[numShapes..] == [];
    r := Some(data);
  }

  /** generate_image's labels keep the rows already present in front and add one row
      per shape, carrying the shape index drawn for it (generate.py:72-80). */
  lemma {:induction false} ImageShapes(data: seq<Label>, shapeIdxs: seq<int>, draws: seq<seq<Draw>>)
    requires |shapeIdxs| == |draws|
    ensures var r := ImageFrom(data, shapeIdxs, draws);
      r.Some? ==>
        && |r.value| == |data| + |shapeIdxs|
        && r.value[..|data|] == data
        && (forall k :: 0 <= k < |shapeIdxs| ==> r.value[|data| + k].shape == shapeIdxs[k])
    decreases |shapeIdxs|
  {
    if |shapeIdxs| != 0 {
      var p := Place(data, shapeIdxs[0], draws[0]);
      if p.Some? {
        var l := ShapeLabel(p.value);
        ImageShapes(data + [l], shapeIdxs[1..], draws[1..]);
        var r := ImageFrom(data + [l], shapeIdxs[1..], draws[1..]);
        assert ImageFrom(data, shapeIdxs, draws) == r;
        if r.Some? {
          AppendShapes(data, l, shapeIdxs, r.value);
        }
      }
    } else {
      assert data[..|data|] == data;
    }
  }

  /** Every row of generate_image is a well-formed square, and none clashes with a row
      appended before it (generate.py:13, 42, 47-56, 65-69, 72-80). */
  lemma {:induction false} ImageRows(data: seq<Label>, shapeIdxs: seq<int>, draws: seq<seq<Draw>>)
    requires |shapeIdxs| == |draws|
    requires forall k :: 0 <= k < |shapeIdxs| ==> 0 <= shapeIdxs[k] < |Shapes|
    requires forall k, j :: 0 <= k < |draws| && 0 <= j < |draws[k]| ==> DrawInRange(draws[k][j])
    requires forall i :: 0 <= i < |data| ==> WellFormed(data[i])
    requires NoEarlierClash(data)
    ensures var r := ImageFrom(data, shapeIdxs, draws);
      r.Some? ==> (forall i :: 0 <= i < |r.value| ==> WellFormed(r.value[i])) && NoEarlierClash(r.value)
    decreases |shapeIdxs|
  {
    if |shapeIdxs| != 0 {
      var p := Place(data, shapeIdxs[0], draws[0]);
      if p.Some? {
        var l := ShapeLabel(p.value);
        PlacedWellFormed(data, shapeIdxs[0], draws[0]);
        PlaceClashesWithNone(data, shapeIdxs[0], draws[0]);
        AppendClashFree(data, l);
        ImageRows(data + [l], shapeIdxs[1..], draws[1..]);
        assert ImageFrom(data, shapeIdxs, draws) == ImageFrom(data + [l], shapeIdxs[1..], draws[1..]);
      }
    }
  }

  /** Appending a well-formed row that clashes with no earlier row keeps the rows
      well formed and clash-free. */
  lemma AppendClashFree(data: seq<Label>, l: Label)
    requires forall i :: 0 <= i < |data| ==> WellFormed(data[i])
    requires NoEarlierClash(data)
    requires WellFormed(l)
    requires forall i :: 0 <= i < |data| ==> !Overlaps(LabelBox(data[i]), LabelBox(l))
    ensures forall i :: 0 <= i < |data + [l]| ==> WellFormed((data + [l])[i])
    ensures NoEarlierClash(data + [l])
  {
    var data' := data + [l];
    forall i, j | 0 <= j < i < |data'|
      ensures !Overlaps(LabelBox(data'[j]), LabelBox(data'[i]))
    {
      if i < |data| {
        assert data'[i] == data[i] && data'[j] == data[j];
      }
    }
  }

  /** The rows after placing the remaining shapes onto data + [l] start with data, and
      carry l's shape index followed by the remaining indices. */
  lemma AppendShapes(data: seq<Label>, l: Label, shapeIdxs: seq<int>, labels: seq<Label>)
    requires |shapeIdxs| != 0 && l.shape == shapeIdxs[0]
    requires |labels| == |data| + |shapeIdxs|
    requires labels[..|data + [l]|] == data + [l]
    requires forall k :: 0 <= k < |shapeIdxs[1..]| ==> labels[|data + [l]| + k].shape == shapeIdxs[1..][k]
    ensures labels[..|data|] == data
    ensures forall k :: 0 <= k < |shapeIdxs| ==> labels[|data| + k].shape == shapeIdxs[k]
  {
    assert labels[..|data|] == labels[..|data + [l]|][..|data|];
    forall k | 0 <= k < |shapeIdxs|
      ensures labels[|data| + k].shape == shapeIdxs[k]
    {
      if k == 0 {
        assert labels[|data|] == labels[..|data + [l]|][|data|] == l;
      } else {
        assert labels[|data| + k] == labels[|data + [l]| + (k - 1)];
        assert shapeIdxs[1..][k - 1] == shapeIdxs[k];
      }
    }
  }

  /** A placed shape, from in-range draws, is a well-formed row. */
  lemma {:induction false} PlacedWellFormed(data: seq<Label>, shapeIdx: int, draws: seq<Draw>)
    requires 0 <= shapeIdx < |Shapes|
    requires forall j :: 0 <= j < |draws| ==> DrawInRange(draws[j])
    ensures Place(data, shapeIdx, draws).Some? ==> WellFormed(ShapeLabel(Place(data, shapeIdx, draws).value))
    decreases |draws|
  {
    if |draws| == 0 {
    } else if Accepted(data, draws[0]) {
      NormalisedInImage(shapeIdx, draws[0]);
    } else {
      PlacedWellFormed(data, shapeIdx, draws[1..]);
    }
  }

  /** Every pair of labels of one image is clash-free in both argument orders of
      overlaps. */
  lemma NoClashEitherOrder(labels: seq<Label>)
    requires NoEarlierClash(labels)
    ensures forall i, j :: 0 <= i < |labels| && 0 <= j < |labels| && i != j ==>
      !Overlaps(LabelBox(labels[i]), LabelBox(labels[j]))
  {
    forall i, j | 0 <= i < |labels| && 0 <= j < |labels| && i != j
      ensures !Overlaps(LabelBox(labels[i]), LabelBox(labels[j]))
    {
      OverlapsSymmetric(LabelBox(labels[i]), LabelBox(labels[j]));
    }
  }
}
