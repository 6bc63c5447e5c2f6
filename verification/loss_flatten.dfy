/** The flattened vectors that nn.MSELoss receives in loss.py:42-63, and the proof
    that summing Loss.CellTerms cell by cell gives the same four components.

    torch.flatten(box_predictions, end_dim=-2) lists the cells in order, four box
    entries each; the class vectors list the cells in order, C entries each; the
    confidence vectors list slot 1 of every cell, then slot 2 of every cell. */
module LossFlatten {
  import opened Boxes
  import opened LossLayout
  import opened Loss
  import opened LossProperties

  /** torch.flatten(box_predictions, end_dim=-2) (loss.py:43). */
  function BoxPredictionsFlat(sqrt: real -> real, iou: (Box, Box) -> real, ps: seq<PredCell>, ts: seq<TargetCell>): (v: seq<real>)
    requires |ps| == |ts|
    ensures |v| == 4 * |ps|
    decreases |ps|
  {
    if |ps| == 0 then [] else BoxPrediction(sqrt, iou, ps[0], ts[0]) + BoxPredictionsFlat(sqrt, iou, ps[1..], ts[1..])
  }

  /** torch.flatten(box_targets, end_dim=-2) (loss.py:44). */
  function BoxTargetsFlat(sqrt: real -> real, ts: seq<TargetCell>): (v: seq<real>)
    ensures |v| == 4 * |ts|
    decreases |ts|
  {
    if |ts| == 0 then [] else BoxTarget(sqrt, ts[0]) + BoxTargetsFlat(sqrt, ts[1..])
  }

  /** The mask of the confidence terms: exists_box for obj_conf_loss, 1 - exists_box
      for noobj_conf_loss. */
  function ConfMask(t: TargetCell, noobj: bool): real
  {
    if noobj then 1.0 - t.objectness else t.objectness
  }

  /** One slot's masked confidences over all cells, in cell order (a row of
      doubled_exists_box * pred_conf, loss.py:48-49). */
  function ConfColumn(ps: seq<PredCell>, ts: seq<TargetCell>, noobj: bool, second: bool): (v: seq<real>)
    requires |ps| == |ts|
    ensures |v| == |ps|
    decreases |ps|
  {
    if |ps| == 0 then []
    else [Mask(ConfMask(ts[0], noobj), if second then ps[0].conf2 else ps[0].conf1)]
         + ConfColumn(ps[1..], ts[1..], noobj, second)
  }

  /** One slot's masked IoUs over all cells, in cell order (a row of
      doubled_exists_box * IOUs, loss.py:22-28, 52). */
  function IouColumn(iou: (Box, Box) -> real, ps: seq<PredCell>, ts: seq<TargetCell>, noobj: bool, second: bool): (v: seq<real>)
    requires |ps| == |ts|
    ensures |v| == |ps|
    decreases |ps|
  {
    if |ps| == 0 then []
    else [Mask(ConfMask(ts[0], noobj), iou(if second then ps[0].box2 else ps[0].box1, ts[0].box))]
         + IouColumn(iou, ps[1..], ts[1..], noobj, second)
  }

  /** torch.flatten(exists_box * predictions[..., :C], end_dim=-2) (loss.py:61). */
  function ClassesFlat(ms: seq<real>, cs: seq<seq<real>>): (v: seq<real>)
    requires |ms| == |cs|
    decreases |cs|
  {
    if |cs| == 0 then [] else ScaleEntries(ms[0], cs[0]) + ClassesFlat(ms[1..], cs[1..])
  }

  function Objectness(ts: seq<TargetCell>): (ms: seq<real>)
    ensures |ms| == |ts| && forall i :: 0 <= i < |ts| ==> ms[i] == ts[i].objectness
  {
    seq(|ts|, i requires 0 <= i < |ts| => ts[i].objectness)
  }

  function PredClasses(ps: seq<PredCell>): (cs: seq<seq<real>>)
    ensures |cs| == |ps| && forall i :: 0 <= i < |ps| ==> cs[i] == ps[i].classes
  {
    seq(|ps|, i requires 0 <= i < |ps| => ps[i].classes)
  }

  function TargetClasses(ts: seq<TargetCell>): (cs: seq<seq<real>>)
    ensures |cs| == |ts| && forall i :: 0 <= i < |ts| ==> cs[i] == ts[i].classes
  {
    seq(|ts|, i requires 0 <= i < |ts| => ts[i].classes)
  }

  /** box_loss is the sum of squares over the two flattened box tensors (loss.py:42-45). */
  lemma {:induction false} BoxLossIsFlatMse(sqrt: real -> real, iou: (Box, Box) -> real, ps: seq<PredCell>, ts: seq<TargetCell>)
    requires CellsMatch(ps, ts)
    ensures SumTerms(sqrt, iou, ps, ts).box == SumSq(BoxPredictionsFlat(sqrt, iou, ps, ts), BoxTargetsFlat(sqrt, ts))
    decreases |ps|
  {
    if |ps| != 0 {
      BoxLossIsFlatMse(sqrt, iou, ps[1..], ts[1..]);
      SumSqAppend(BoxPrediction(sqrt, iou, ps[0], ts[0]), BoxPredictionsFlat(sqrt, iou, ps[1..], ts[1..]),
                  BoxTarget(sqrt, ts[0]), BoxTargetsFlat(sqrt, ts[1..]));
    }
  }

  /** The sum of one mask's confidence terms cell by cell equals the sum of squares
      over slot 1's column followed by slot 2's column. */
  lemma {:induction false} ConfColumnsSum(sqrt: real -> real, iou: (Box, Box) -> real,
                                          ps: seq<PredCell>, ts: seq<TargetCell>, noobj: bool)
    requires CellsMatch(ps, ts)
    ensures var r := SumTerms(sqrt, iou, ps, ts);
      (if noobj then r.noobj else r.obj)
        == SumSq(ConfColumn(ps, ts, noobj, false), IouColumn(iou, ps, ts, noobj, false))
           + SumSq(ConfColumn(ps, ts, noobj, true), IouColumn(iou, ps, ts, noobj, true))
    decreases |ps|
  {
    if |ps| != 0 {
      ConfColumnsSum(sqrt, iou, ps[1..], ts[1..], noobj);
      var p, t := ps[0], ts[0];
      var m := ConfMask(t, noobj);
      var c1, c2 := ConfColumn(ps[1..], ts[1..], noobj, false), ConfColumn(ps[1..], ts[1..], noobj, true);
      var i1, i2 := IouColumn(iou, ps[1..], ts[1..], noobj, false), IouColumn(iou, ps[1..], ts[1..], noobj, true);
      assert ConfColumn(ps, ts, noobj, false) == [Mask(m, p.conf1)] + c1;
      assert ConfColumn(ps, ts, noobj, true) == [Mask(m, p.conf2)] + c2;
      assert IouColumn(iou, ps, ts, noobj, false) == [Mask(m, iou(p.box1, t.box))] + i1;
      assert IouColumn(iou, ps, ts, noobj, true) == [Mask(m, iou(p.box2, t.box))] + i2;
      var x1, x2 := [Mask(m, p.conf1)], [Mask(m, p.conf2)];
      var y1, y2 := [Mask(m, iou(p.box1, t.box))], [Mask(m, iou(p.box2, t.box))];
      assert x1 + x2 == [Mask(m, p.conf1), Mask(m, p.conf2)];
      assert y1 + y2 == [Mask(m, iou(p.box1, t.box)), Mask(m, iou(p.box2, t.box))];
      if noobj {
        assert m == 1.0 - t.objectness;
        assert CellTerms(sqrt, iou, p, t).noobj == SumSq(x1 + x2, y1 + y2);
      } else {
        assert m == t.objectness;
        assert CellTerms(sqrt, iou, p, t).obj == SumSq(x1 + x2, y1 + y2);
      }
      SumSqAppend(x1, x2, y1, y2);
      SumSqAppend(x1, c1, y1, i1);
      SumSqAppend(x2, c2, y2, i2);
      var rest := SumTerms(sqrt, iou, ps[1..], ts[1..]);
      Regroup(if noobj then SumTerms(sqrt, iou, ps, ts).noobj else SumTerms(sqrt, iou, ps, ts).obj,
              SumSq(x1 + x2, y1 + y2), if noobj then rest.noobj else rest.obj,
              SumSq(x1, y1), SumSq(x2, y2), SumSq(c1, i1), SumSq(c2, i2),
              SumSq(x1 + c1, y1 + i1), SumSq(x2 + c2, y2 + i2));
    }
  }

  lemma Regroup(total: real, cell: real, rest: real, a1: real, a2: real, r1: real, r2: real, s1: real, s2: real)
    requires total == cell + rest && cell == a1 + a2 && rest == r1 + r2
    requires s1 == a1 + r1 && s2 == a2 + r2
    ensures total == s1 + s2
  {
  }

  /** obj_conf_loss and noobj_conf_loss are sums of squares over the flattened
      confidence tensors: slot 1 of every cell, then slot 2 (loss.py:48-57). */
  lemma ConfLossIsFlatMse(sqrt: real -> real, iou: (Box, Box) -> real, ps: seq<PredCell>, ts: seq<TargetCell>)
    requires CellsMatch(ps, ts)
    ensures SumTerms(sqrt, iou, ps, ts).obj
      == SumSq(ConfColumn(ps, ts, false, false) + ConfColumn(ps, ts, false, true),
               IouColumn(iou, ps, ts, false, false) + IouColumn(iou, ps, ts, false, true))
    ensures SumTerms(sqrt, iou, ps, ts).noobj
      == SumSq(ConfColumn(ps, ts, true, false) + ConfColumn(ps, ts, true, true),
               IouColumn(iou, ps, ts, true, false) + IouColumn(iou, ps, ts, true, true))
  {
    ConfColumnsSum(sqrt, iou, ps, ts, false);
    ConfColumnsSum(sqrt, iou, ps, ts, true);
    SumSqAppend(ConfColumn(ps, ts, false, false), ConfColumn(ps, ts, false, true),
                IouColumn(iou, ps, ts, false, false), IouColumn(iou, ps, ts, false, true));
    SumSqAppend(ConfColumn(ps, ts, true, false), ConfColumn(ps, ts, true, true),
                IouColumn(iou, ps, ts, true, false), IouColumn(iou, ps, ts, true, true));
  }

  /** class_loss is the sum of squares over the two flattened, masked class tensors
      (loss.py:60-63). */
  lemma {:induction false} ClassLossIsFlatMse(sqrt: real -> real, iou: (Box, Box) -> real, ps: seq<PredCell>, ts: seq<TargetCell>)
    requires CellsMatch(ps, ts)
    ensures |ClassesFlat(Objectness(ts), PredClasses(ps))| == |ClassesFlat(Objectness(ts), TargetClasses(ts))|
    ensures SumTerms(sqrt, iou, ps, ts).cls
      == SumSq(ClassesFlat(Objectness(ts), PredClasses(ps)), ClassesFlat(Objectness(ts), TargetClasses(ts)))
    decreases |ps|
  {
    ClassesFlatLength(Objectness(ts), PredClasses(ps), TargetClasses(ts));
    if |ps| != 0 {
      ClassLossIsFlatMse(sqrt, iou, ps[1..], ts[1..]);
      assert Objectness(ts)[1..] == Objectness(ts[1..]);
      assert PredClasses(ps)[1..] == PredClasses(ps[1..]);
      assert TargetClasses(ts)[1..] == TargetClasses(ts[1..]);
      SumSqAppend(ScaleEntries(ts[0].objectness, ps[0].classes), ClassesFlat(Objectness(ts[1..]), PredClasses(ps[1..])),
                  ScaleEntries(ts[0].objectness, ts[0].classes), ClassesFlat(Objectness(ts[1..]), TargetClasses(ts[1..])));
    }
  }

  /** Class vectors of matching widths flatten to vectors of one length. */
  lemma {:induction false} ClassesFlatLength(ms: seq<real>, preds: seq<seq<real>>, targets: seq<seq<real>>)
    requires |ms| == |preds| == |targets|
    requires forall i :: 0 <= i < |preds| ==> |preds[i]| == |targets[i]|
    ensures |ClassesFlat(ms, preds)| == |ClassesFlat(ms, targets)|
    decreases |ms|
  {
    if |ms| != 0 {
      ClassesFlatLength(ms[1..], preds[1..], targets[1..]);
    }
  }
}
