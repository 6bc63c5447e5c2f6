/** YoloLoss (loss.py): the composite detection loss, one sample cell at a time.

    nn.MSELoss(reduction='sum') is the plain sum of squared differences over
    `real`. The IoU routine and the square root are not defined here: both are
    parameters, and IsSqrt says what the proofs assume of the square root. */
module Loss {
  import opened Boxes
  import opened LossLayout

  /** Weight of the box term, set by YoloLoss.__init__ (loss.py:17). */
  const LambdaCoord: real := 5.0
  /** Weight of the no-object confidence term (loss.py:18). */
  const LambdaNoobj: real := 0.5
  /** The constant added to predicted sizes before the square root (loss.py:39). */
  const Eps: real := 0.000001

  /** The grid configuration: S×S cells per sample, B slots in the reshape, C classes. */
  datatype Config = Config(S: nat, B: nat, C: nat)

  /** Width of a prediction cell in the reshape of loss.py:21. */
  function PredictionWidth(cfg: Config): nat
  {
    cfg.C + 5 * cfg.B
  }

  /** The shapes under which the tensor operations of forward raise. */
  datatype LossError =
    | EmptyGrid          // S = 0: the reshape has no cells to fill
    | MissingSecondSlot  // B < 2: entries C+5..C+9 of a cell do not exist
    | ReshapeFailed      // the prediction size is not a multiple of S·S·(C+5B)
    | TargetMismatch     // the target's cells do not line up with the prediction's

  /** The non-negative square root: what torch.sqrt computes on non-negative arguments. */
  ghost predicate IsSqrt(sqrt: real -> real)
  {
    && sqrt(0.0) == 0.0
    && forall a: real :: 0.0 <= a ==> 0.0 <= sqrt(a) && sqrt(a) * sqrt(a) == a
  }

  /** The slot torch.max selects from the two IoUs (loss.py:28-29): 0 for slot 1,
      1 for slot 2; on a tie the first maximal index, slot 1. */
  function Responsible(iou1: real, iou2: real): (slot: nat)
    ensures slot <= 1
    ensures (if slot == 0 then iou1 else iou2) == Max(iou1, iou2)
    ensures iou1 == iou2 ==> slot == 0
  {
    if iou2 > iou1 then 1 else 0
  }

  /** The responsible predictor's box: one of the two predicted boxes, and one whose
      IoU with the target box is the larger of the two IoUs. */
  function ResponsibleBox(iou: (Box, Box) -> real, p: PredCell, t: TargetCell): (b: Box)
    ensures b == p.box1 || b == p.box2
    ensures iou(b, t.box) == Max(iou(p.box1, t.box), iou(p.box2, t.box))
  {
    if Responsible(iou(p.box1, t.box), iou(p.box2, t.box)) == 0 then p.box1 else p.box2
  }

  /** best * second + (1 - best) * first, entry by entry (loss.py:34-35). With best an
      index in {0, 1} this selects one of the two boxes. */
  function Blend(best: real, second: Box, first: Box): (b: Box)
    ensures best == 0.0 ==> b == first
    ensures best == 1.0 ==> b == second
  {
    Box(best * second.x + (1.0 - best) * first.x,
        best * second.y + (1.0 - best) * first.y,
        best * second.w + (1.0 - best) * first.w,
        best * second.h + (1.0 - best) * first.h)
  }

  /** An entry multiplied by a mask value (exists_box or 1 - exists_box). */
  function Mask(k: real, v: real): (r: real)
    ensures k == 0.0 ==> r == 0.0
    ensures k == 1.0 ==> r == v
  {
    k * v
  }

  /** A box masked entry by entry. */
  function ScaleBox(k: real, b: Box): Box
  {
    Box(Mask(k, b.x), Mask(k, b.y), Mask(k, b.w), Mask(k, b.h))
  }

  /** A vector masked entry by entry. */
  function ScaleEntries(k: real, v: seq<real>): (r: seq<real>)
    ensures |r| == |v|
    ensures forall i :: 0 <= i < |v| ==> r[i] == Mask(k, v[i])
  {
    seq(|v|, i requires 0 <= i < |v| => Mask(k, v[i]))
  }

  /** The size transform applied to predicted widths and heights (loss.py:39). */
  function PredictedSize(sqrt: real -> real, v: real): real
  {
    sqrt(Abs(v + Eps))
  }

  /** Sum of squared differences: nn.MSELoss with reduction='sum'. */
  function SumSq(a: seq<real>, b: seq<real>): (r: real)
    requires |a| == |b|
    ensures 0.0 <= r
    ensures a == b ==> r == 0.0
  {
    if |a| == 0 then 0.0 else Sq(a[0] - b[0]) + SumSq(a[1..], b[1..])
  }

  /** A cell's entries of box_predictions after the in-place transform (loss.py:33-39):
      the blended box of the selected slot, masked by the objectness, with its width
      and height replaced by PredictedSize. */
  function BoxPrediction(sqrt: real -> real, iou: (Box, Box) -> real, p: PredCell, t: TargetCell): (v: seq<real>)
    ensures |v| == 4
  {
    var best := Responsible(iou(p.box1, t.box), iou(p.box2, t.box));
    var m := ScaleBox(t.objectness, Blend(best as real, p.box2, p.box1));
    [m.x, m.y, PredictedSize(sqrt, m.w), PredictedSize(sqrt, m.h)]
  }

  /** A cell's entries of box_targets after the in-place transform (loss.py:37, 40). */
  function BoxTarget(sqrt: real -> real, t: TargetCell): (v: seq<real>)
    ensures |v| == 4
  {
    var m := ScaleBox(t.objectness, t.box);
    [m.x, m.y, sqrt(m.w), sqrt(m.h)]
  }

  /** The four loss components, or one cell's share of them. */
  datatype Terms = Terms(box: real, obj: real, noobj: real, cls: real)

  predicate NonNegative(r: Terms)
  {
    0.0 <= r.box && 0.0 <= r.obj && 0.0 <= r.noobj && 0.0 <= r.cls
  }

  function AddTerms(a: Terms, b: Terms): Terms
  {
    Terms(a.box + b.box, a.obj + b.obj, a.noobj + b.noobj, a.cls + b.cls)
  }

  /** A cell's confidence error under the mask m: both slots' confidences against
      their own IoUs, masked by m (loss.py:48-57; m is exists_box for obj_conf_loss and
      1 - exists_box for noobj_conf_loss). */
  function ConfTerm(m: real, p: PredCell, iou1: real, iou2: real): real
  {
    SumSq([Mask(m, p.conf1), Mask(m, p.conf2)], [Mask(m, iou1), Mask(m, iou2)])
  }

  /** One cell's share of box_loss, obj_conf_loss, noobj_conf_loss and class_loss
      (loss.py:42-63). */
  function CellTerms(sqrt: real -> real, iou: (Box, Box) -> real, p: PredCell, t: TargetCell): (r: Terms)
    requires |p.classes| == |t.classes|
    ensures NonNegative(r)
  {
    var e := t.objectness;
    var iou1 := iou(p.box1, t.box);
    var iou2 := iou(p.box2, t.box);
    Terms(
      SumSq(BoxPrediction(sqrt, iou, p, t), BoxTarget(sqrt, t)),
      ConfTerm(e, p, iou1, iou2),
      ConfTerm(1.0 - e, p, iou1, iou2),
      SumSq(ScaleEntries(e, p.classes), ScaleEntries(e, t.classes)))
  }

  /** Classes line up between the prediction cells and the target cells. */
  predicate CellsMatch(ps: seq<PredCell>, ts: seq<TargetCell>)
  {
    |ps| == |ts| && forall i :: 0 <= i < |ps| ==> |ps[i].classes| == |ts[i].classes|
  }

  /** The four components summed over all cells. */
  function SumTerms(sqrt: real -> real, iou: (Box, Box) -> real, ps: seq<PredCell>, ts: seq<TargetCell>): (r: Terms)
    requires CellsMatch(ps, ts)
    ensures NonNegative(r)
    decreases |ps|
  {
    if |ps| == 0 then Terms(0.0, 0.0, 0.0, 0.0)
    else AddTerms(CellTerms(sqrt, iou, ps[0], ts[0]), SumTerms(sqrt, iou, ps[1..], ts[1..]))
  }

  /** The weighted total of loss.py:66-71. */
  function Total(r: Terms): real
  {
    LambdaCoord * r.box + r.obj + LambdaNoobj * r.noobj + r.cls
  }

  /** The shape checks, reshape and masked sums of YoloLoss.forward (loss.py:20-63):
      the four components box_loss, obj_conf_loss, noobj_conf_loss and class_loss.
      The prediction tensor is given flat (the reshape of line 21 accepts any shape
      with the right number of entries); the target tensor is given as its list of
      cells, sample by sample and row by row. */
  function Components(cfg: Config, sqrt: real -> real, iou: (Box, Box) -> real,
                      predictions: seq<real>, target: seq<seq<real>>): (r: Result<Terms, LossError>)
    ensures r.Ok? ==> NonNegative(r.value)
    ensures r.Ok? ==> WellShaped(cfg, predictions, target)
  {
    var w := PredictionWidth(cfg);
    if cfg.S == 0 then Err(EmptyGrid)
    else if cfg.B < 2 then Err(MissingSecondSlot)
    else if |predictions| % (cfg.S * cfg.S * w) != 0 then Err(ReshapeFailed)
    else
      var n := CellCount(cfg, |predictions|);
      if |target| != n || exists i :: 0 <= i < |target| && |target[i]| < cfg.C + 5 then Err(TargetMismatch)
      else
        var ps := DecodePredictions(cfg.C, Reshape(predictions, n, w));
        var ts := DecodeTargets(cfg.C, target);
        Ok(SumTerms(sqrt, iou, ps, ts))
  }

  /** The shapes forward accepts: a grid of S > 0, at least two box slots, one
      prediction cell of width C+5B per target cell, N·S·S cells in all, and target
      cells wide enough for the classes, the objectness and the box. */
  predicate WellShaped(cfg: Config, predictions: seq<real>, target: seq<seq<real>>)
  {
    && 0 < cfg.S && 2 <= cfg.B
    && |predictions| == |target| * PredictionWidth(cfg)
    && |target| % (cfg.S * cfg.S) == 0
    && forall i :: 0 <= i < |target| ==> cfg.C + 5 <= |target[i]|
  }

  /** YoloLoss.forward (loss.py:20-72): only the weighted total is returned. */
  function Forward(cfg: Config, sqrt: real -> real, iou: (Box, Box) -> real,
                   predictions: seq<real>, target: seq<seq<real>>): (r: Result<real, LossError>)
    ensures r.Ok? ==> 0.0 <= r.value
    ensures r.Err? <==> Components(cfg, sqrt, iou, predictions, target).Err?
  {
    match Components(cfg, sqrt, iou, predictions, target)
    case Ok(terms) => Ok(Total(terms))
    case Err(e) => Err(e)
  }

  /** The number of cells, N·S·S, of a prediction tensor whose size is a multiple of
      S·S·(C+5B). */
  function CellCount(cfg: Config, size: nat): (n: nat)
    requires 0 < cfg.S && 2 <= cfg.B
    requires size % (cfg.S * cfg.S * PredictionWidth(cfg)) == 0
    ensures size == n * PredictionWidth(cfg)
    ensures n % (cfg.S * cfg.S) == 0
  {
    var grid := cfg.S * cfg.S;
    var w := PredictionWidth(cfg);
    var batch := size / (grid * w);
    assert size == batch * (grid * w);
    assert batch * (grid * w) == (batch * grid) * w;
    assert (batch * grid) % grid == 0 by { MultipleMod(batch, grid); }
    batch * grid
  }

  lemma MultipleMod(k: nat, m: nat)
    requires 0 < m
    ensures (k * m) % m == 0
  {
    var q, r := (k * m) / m, (k * m) % m;
    assert k * m == q * m + r && 0 <= r < m;
    assert (k - q) * m == r;
    // Case split on the sign of k - q for the solver: either nonzero sign would put
    // |r| >= m, so k - q == 0 and r == 0.
    if k - q >= 1 {
    } else if k - q <= -1 {
    }
  }
}
