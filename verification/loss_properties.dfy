/** What YoloLoss.forward promises, stated over the model in Loss: which box
    feeds the box term, the residual of an empty cell, where each confidence error
    goes, what the class term adds, the weighting of the total, and the layout in
    which the flat prediction tensor is read. */
module LossProperties {
  import opened Boxes
  import opened LossLayout
  import opened Loss

  /** The box term reads the responsible slot's box, masked by the objectness
      before the size transform is applied (loss.py:33-39). */
  lemma BoxTermReadsResponsibleBox(sqrt: real -> real, iou: (Box, Box) -> real, p: PredCell, t: TargetCell)
    ensures var b, e := ResponsibleBox(iou, p, t), t.objectness;
      BoxPrediction(sqrt, iou, p, t)
        == [Mask(e, b.x), Mask(e, b.y), PredictedSize(sqrt, Mask(e, b.w)), PredictedSize(sqrt, Mask(e, b.h))]
  {
    if Responsible(iou(p.box1, t.box), iou(p.box2, t.box)) == 0 {
      assert Blend(0.0, p.box2, p.box1) == p.box1 == ResponsibleBox(iou, p, t);
    } else {
      assert Blend(1.0, p.box2, p.box1) == p.box2 == ResponsibleBox(iou, p, t);
    }
  }

  /** In a cell holding an object, the box term compares the responsible box's centre
      untransformed and its size through sqrt(|v + 1e-6|) against sqrt of the target
      size (loss.py:33-45). */
  lemma ObjectCellBoxTerm(sqrt: real -> real, iou: (Box, Box) -> real, p: PredCell, t: TargetCell)
    requires |p.classes| == |t.classes| && t.objectness == 1.0
    ensures var b := ResponsibleBox(iou, p, t);
      CellTerms(sqrt, iou, p, t).box
        == Sq(b.x - t.box.x) + Sq(b.y - t.box.y)
           + Sq(PredictedSize(sqrt, b.w) - sqrt(t.box.w)) + Sq(PredictedSize(sqrt, b.h) - sqrt(t.box.h))
  {
    var b := ResponsibleBox(iou, p, t);
    BoxTermReadsResponsibleBox(sqrt, iou, p, t);
    var u := [b.x, b.y, PredictedSize(sqrt, b.w), PredictedSize(sqrt, b.h)];
    var v := [t.box.x, t.box.y, sqrt(t.box.w), sqrt(t.box.h)];
    assert BoxPrediction(sqrt, iou, p, t) == u;
    assert BoxTarget(sqrt, t) == v;
    SumSqFour(u, v);
  }

  /** A cell without an object still adds exactly 2·1e-6 to box_loss: masking comes
      before the transform, so each of w and h contributes sqrt(1e-6)² (loss.py:33-40). */
  lemma EmptyCellBoxResidual(sqrt: real -> real, iou: (Box, Box) -> real, p: PredCell, t: TargetCell)
    requires IsSqrt(sqrt) && |p.classes| == |t.classes| && t.objectness == 0.0
    ensures CellTerms(sqrt, iou, p, t).box == 2.0 * Eps
  {
    BoxTermReadsResponsibleBox(sqrt, iou, p, t);
    var u := [0.0, 0.0, sqrt(Eps), sqrt(Eps)];
    var v := [0.0, 0.0, 0.0, 0.0];
    assert BoxPrediction(sqrt, iou, p, t) == u;
    assert BoxTarget(sqrt, t) == v;
    SumSqFour(u, v);
    SqrtSquared(sqrt, Eps);
    assert Sq(u[2] - v[2]) == Sq(u[3] - v[3]) == Eps;
  }

  lemma SqrtSquared(sqrt: real -> real, a: real)
    requires IsSqrt(sqrt) && 0.0 <= a
    ensures Sq(sqrt(a)) == a
  {
  }

  /** The size transforms (loss.py:39-40): the predicted one gives back |v + 1e-6| when
      squared, so it does not preserve sign (v and -v - 2e-6 look alike); the target one
      gives back v, for non-negative v. */
  lemma SizeTransforms(sqrt: real -> real, v: real)
    requires IsSqrt(sqrt)
    ensures 0.0 <= PredictedSize(sqrt, v) && Sq(PredictedSize(sqrt, v)) == Abs(v + Eps)
    ensures PredictedSize(sqrt, -v - 2.0 * Eps) == PredictedSize(sqrt, v)
    ensures 0.0 <= v ==> 0.0 <= sqrt(v) && Sq(sqrt(v)) == v
  {
    assert Abs(-v - 2.0 * Eps + Eps) == Abs(v + Eps);
  }

  /** Each slot's confidence is regressed on its own IoU, never on a constant; the
      error is weighted by e² in obj_conf_loss (loss.py:48-53). */
  lemma ObjConfidenceWeight(sqrt: real -> real, iou: (Box, Box) -> real, p: PredCell, t: TargetCell)
    requires |p.classes| == |t.classes|
    ensures CellTerms(sqrt, iou, p, t).obj
      == Sq(t.objectness) * (Sq(p.conf1 - iou(p.box1, t.box)) + Sq(p.conf2 - iou(p.box2, t.box)))
  {
    assert CellTerms(sqrt, iou, p, t).obj == ConfTerm(t.objectness, p, iou(p.box1, t.box), iou(p.box2, t.box));
    TwoScaled(t.objectness, p.conf1, p.conf2, iou(p.box1, t.box), iou(p.box2, t.box));
    assert Mask(Sq(t.objectness), Sq(p.conf1 - iou(p.box1, t.box)) + Sq(p.conf2 - iou(p.box2, t.box)))
      == Sq(t.objectness) * (Sq(p.conf1 - iou(p.box1, t.box)) + Sq(p.conf2 - iou(p.box2, t.box)));
  }

  /** The same error is weighted by (1 - e)² in noobj_conf_loss (loss.py:48-49, 54-57). */
  lemma NoobjConfidenceWeight(sqrt: real -> real, iou: (Box, Box) -> real, p: PredCell, t: TargetCell)
    requires |p.classes| == |t.classes|
    ensures CellTerms(sqrt, iou, p, t).noobj
      == Sq(1.0 - t.objectness) * (Sq(p.conf1 - iou(p.box1, t.box)) + Sq(p.conf2 - iou(p.box2, t.box)))
  {
    assert CellTerms(sqrt, iou, p, t).noobj == ConfTerm(1.0 - t.objectness, p, iou(p.box1, t.box), iou(p.box2, t.box));
    TwoScaled(1.0 - t.objectness, p.conf1, p.conf2, iou(p.box1, t.box), iou(p.box2, t.box));
    assert Mask(Sq(1.0 - t.objectness), Sq(p.conf1 - iou(p.box1, t.box)) + Sq(p.conf2 - iou(p.box2, t.box)))
      == Sq(1.0 - t.objectness) * (Sq(p.conf1 - iou(p.box1, t.box)) + Sq(p.conf2 - iou(p.box2, t.box)));
  }

  /** With an objectness of 1 or 0 the confidence error lands in exactly one of
      obj_conf_loss and noobj_conf_loss, unweighted (loss.py:48-57). */
  lemma ConfidenceRouting(sqrt: real -> real, iou: (Box, Box) -> real, p: PredCell, t: TargetCell)
    requires |p.classes| == |t.classes|
    ensures t.objectness == 1.0 ==>
      && CellTerms(sqrt, iou, p, t).obj == Sq(p.conf1 - iou(p.box1, t.box)) + Sq(p.conf2 - iou(p.box2, t.box))
      && CellTerms(sqrt, iou, p, t).noobj == 0.0
    ensures t.objectness == 0.0 ==>
      && CellTerms(sqrt, iou, p, t).obj == 0.0
      && CellTerms(sqrt, iou, p, t).noobj == Sq(p.conf1 - iou(p.box1, t.box)) + Sq(p.conf2 - iou(p.box2, t.box))
  {
    SumSqTwo(p.conf1, p.conf2, iou(p.box1, t.box), iou(p.box2, t.box));
  }

  /** The class term is the squared error over the C class entries weighted by e²:
      the whole error from a cell holding an object, nothing from a cell without one
      (loss.py:60-63). */
  lemma ClassTerm(sqrt: real -> real, iou: (Box, Box) -> real, p: PredCell, t: TargetCell)
    requires |p.classes| == |t.classes|
    ensures var r, e := CellTerms(sqrt, iou, p, t), t.objectness;
      && r.cls == Sq(e) * SumSq(p.classes, t.classes)
      && (e == 0.0 ==> r.cls == 0.0)
      && (e == 1.0 ==> r.cls == SumSq(p.classes, t.classes))
  {
    SumSqScaled(t.objectness, p.classes, t.classes);
    if t.objectness == 0.0 {
      MaskedByZero(p.classes, t.classes);
    } else if t.objectness == 1.0 {
      KeptByOne(p.classes);
      KeptByOne(t.classes);
    }
  }

  /** The total is 5 · box_loss + obj_conf_loss + 0.5 · noobj_conf_loss + class_loss,
      and it and each component are non-negative (loss.py:16-18, 66-71). */
  lemma ForwardWeighting(cfg: Config, sqrt: real -> real, iou: (Box, Box) -> real,
                         predictions: seq<real>, target: seq<seq<real>>)
    ensures var c := Components(cfg, sqrt, iou, predictions, target);
      c.Ok? ==>
        && Forward(cfg, sqrt, iou, predictions, target)
           == Ok(5.0 * c.value.box + c.value.obj + 0.5 * c.value.noobj + c.value.cls)
        && NonNegative(c.value)
        && 0.0 <= Forward(cfg, sqrt, iou, predictions, target).value
  {
  }

  /** forward succeeds exactly on well-shaped input, and then its components are the
      masked sums over the reshaped, decoded prediction cells and the decoded target
      cells, and its result is their weighted total (loss.py:20-72). */
  lemma ForwardOnWellShaped(cfg: Config, sqrt: real -> real, iou: (Box, Box) -> real,
                            predictions: seq<real>, target: seq<seq<real>>)
    ensures Components(cfg, sqrt, iou, predictions, target).Ok? <==> WellShaped(cfg, predictions, target)
    ensures Forward(cfg, sqrt, iou, predictions, target).Ok? <==> WellShaped(cfg, predictions, target)
    ensures WellShaped(cfg, predictions, target) ==>
      var ps := DecodePredictions(cfg.C, Reshape(predictions, |target|, PredictionWidth(cfg)));
      var ts := DecodeTargets(cfg.C, target);
      && Components(cfg, sqrt, iou, predictions, target) == Ok(SumTerms(sqrt, iou, ps, ts))
      && Forward(cfg, sqrt, iou, predictions, target) == Ok(Total(SumTerms(sqrt, iou, ps, ts)))
  {
    if WellShaped(cfg, predictions, target) {
      var w, g := PredictionWidth(cfg), cfg.S * cfg.S;
      var k := |target| / g;
      assert |target| == k * g;
      assert |predictions| == k * (g * w);
      MultipleMod(k, g * w);
      var n := CellCount(cfg, |predictions|);
      assert n * w == |target| * w;
      CancelWidth(n, |target|, w);
    }
  }

  lemma CancelWidth(n: nat, m: nat, w: nat)
    requires 0 < w && n * w == m * w
    ensures n == m
  {
  }

  /** The sum over all cells of each cell's weighted total (the weights applied cell
      by cell). */
  function CellTotals(sqrt: real -> real, iou: (Box, Box) -> real, ps: seq<PredCell>, ts: seq<TargetCell>): real
    requires CellsMatch(ps, ts)
    decreases |ps|
  {
    if |ps| == 0 then 0.0
    else Total(CellTerms(sqrt, iou, ps[0], ts[0])) + CellTotals(sqrt, iou, ps[1..], ts[1..])
  }

  /** Weighting the summed components gives the same total as summing the weighted
      cells: each cell contributes 5·box + obj + 0.5·noobj + class of its own. */
  lemma {:induction false} TotalIsSumOfCellTotals(sqrt: real -> real, iou: (Box, Box) -> real,
                                                  ps: seq<PredCell>, ts: seq<TargetCell>)
    requires CellsMatch(ps, ts)
    ensures Total(SumTerms(sqrt, iou, ps, ts)) == CellTotals(sqrt, iou, ps, ts)
    decreases |ps|
  {
    if |ps| != 0 {
      TotalIsSumOfCellTotals(sqrt, iou, ps[1..], ts[1..]);
    }
  }

  /** The cells the loss reads: cell k of the flat prediction tensor starts at entry
      k·(C+5B); its classes are the first C entries, slot 1's confidence is at C and
      its box at C+1..C+4, slot 2's confidence at C+5 and its box at C+6..C+9
      (loss.py:21-26, 49). */
  lemma PredictionCellLayout(C: nat, predictions: seq<real>, n: nat, w: nat, k: nat)
    requires |predictions| == n * w && C + 10 <= w && k < n
    ensures var p := DecodePredictions(C, Reshape(predictions, n, w))[k];
      && k * w + w <= |predictions|
      && p.classes == predictions[k * w..k * w + C]
      && p.conf1 == predictions[k * w + C]
      && BoxEntries(p.box1) == predictions[k * w + C + 1..k * w + C + 5]
      && p.conf2 == predictions[k * w + C + 5]
      && BoxEntries(p.box2) == predictions[k * w + C + 6..k * w + C + 10]
  {
    ReshapeCell(predictions, n, w, k);
  }

  /** Sum of squares of two four-entry vectors, written out. */
  lemma SumSqFour(u: seq<real>, v: seq<real>)
    requires |u| == 4 && |v| == 4
    ensures SumSq(u, v) == Sq(u[0] - v[0]) + Sq(u[1] - v[1]) + Sq(u[2] - v[2]) + Sq(u[3] - v[3])
  {
    assert SumSq(u[3..], v[3..]) == Sq(u[3] - v[3]) + SumSq(u[4..], v[4..]);
    assert SumSq(u[2..], v[2..]) == Sq(u[2] - v[2]) + SumSq(u[2..][1..], v[2..][1..]);
    assert u[2..][1..] == u[3..] && v[2..][1..] == v[3..];
    assert SumSq(u[1..], v[1..]) == Sq(u[1] - v[1]) + SumSq(u[1..][1..], v[1..][1..]);
    assert u[1..][1..] == u[2..] && v[1..][1..] == v[2..];
  }

  /** Sum of squares of two two-entry vectors, written out. */
  lemma SumSqTwo(a0: real, a1: real, b0: real, b1: real)
    ensures SumSq([a0, a1], [b0, b1]) == Sq(a0 - b0) + Sq(a1 - b1)
  {
    assert [a0, a1][1..] == [a1] && [b0, b1][1..] == [b1];
    assert SumSq([a1], [b1]) == Sq(a1 - b1) + SumSq([], []);
  }

  /** Sq(k·a - k·b) = k² · Sq(a - b), for x = k·a and y = k·b. */
  lemma ScaledSquare(k: real, a: real, b: real, x: real, y: real)
    requires x == Mask(k, a) && y == Mask(k, b)
    ensures Sq(x - y) == Mask(Sq(k), Sq(a - b))
  {
    assert x - y == k * (a - b);
  }

  /** Masking distributes over a sum. */
  lemma MaskAdd(k: real, u: real, v: real)
    ensures Mask(k, u) + Mask(k, v) == Mask(k, u + v)
  {
  }

  /** Scaling both two-entry vectors by k scales their sum of squares by k². */
  lemma TwoScaled(k: real, c1: real, c2: real, i1: real, i2: real)
    ensures SumSq([Mask(k, c1), Mask(k, c2)], [Mask(k, i1), Mask(k, i2)]) == Mask(Sq(k), Sq(c1 - i1) + Sq(c2 - i2))
  {
    SumSqTwo(Mask(k, c1), Mask(k, c2), Mask(k, i1), Mask(k, i2));
    ScaledSquare(k, c1, i1, Mask(k, c1), Mask(k, i1));
    ScaledSquare(k, c2, i2, Mask(k, c2), Mask(k, i2));
    MaskAdd(Sq(k), Sq(c1 - i1), Sq(c2 - i2));
  }

  /** Masking both vectors by k scales their sum of squares by k². */
  lemma {:induction false} SumSqScaled(k: real, a: seq<real>, b: seq<real>)
    requires |a| == |b|
    ensures SumSq(ScaleEntries(k, a), ScaleEntries(k, b)) == Mask(Sq(k), SumSq(a, b))
    decreases |a|
  {
    if |a| != 0 {
      SumSqScaled(k, a[1..], b[1..]);
      ScaleEntriesTail(k, a);
      ScaleEntriesTail(k, b);
      var sa, sb := ScaleEntries(k, a), ScaleEntries(k, b);
      ScaledSquare(k, a[0], b[0], sa[0], sb[0]);
      assert SumSq(sa, sb) == Sq(sa[0] - sb[0]) + SumSq(sa[1..], sb[1..]);
      assert SumSq(a, b) == Sq(a[0] - b[0]) + SumSq(a[1..], b[1..]);
      MaskAdd(Sq(k), Sq(a[0] - b[0]), SumSq(a[1..], b[1..]));
    }
  }

  /** Masking by 0 makes any two vectors of one length equal. */
  lemma MaskedByZero(a: seq<real>, b: seq<real>)
    requires |a| == |b|
    ensures ScaleEntries(0.0, a) == ScaleEntries(0.0, b)
  {
  }

  /** Masking by 1 changes nothing. */
  lemma KeptByOne(a: seq<real>)
    ensures ScaleEntries(1.0, a) == a
  {
  }

  /** The sum of squares over a concatenation is the sum over the parts: the sum over
      a flattened tensor may be taken cell by cell. */
  lemma {:induction false} SumSqAppend(a1: seq<real>, a2: seq<real>, b1: seq<real>, b2: seq<real>)
    requires |a1| == |b1| && |a2| == |b2|
    ensures SumSq(a1 + a2, b1 + b2) == SumSq(a1, b1) + SumSq(a2, b2)
    decreases |a1|
  {
    if |a1| != 0 {
      SumSqAppend(a1[1..], a2, b1[1..], b2);
      assert (a1 + a2)[1..] == a1[1..] + a2;
      assert (b1 + b2)[1..] == b1[1..] + b2;
    } else {
      assert a1 + a2 == a2;
      assert b1 + b2 == b2;
    }
  }

  lemma ScaleEntriesTail(k: real, a: seq<real>)
    requires |a| != 0
    ensures ScaleEntries(k, a)[1..] == ScaleEntries(k, a[1..])
  {
    var l, r := ScaleEntries(k, a)[1..], ScaleEntries(k, a[1..]);
    assert |l| == |r|;
    forall i | 0 <= i < |l|
      ensures l[i] == r[i]
    {
      assert l[i] == ScaleEntries(k, a)[i + 1] == Mask(k, a[i + 1]);
    }
  }
}
