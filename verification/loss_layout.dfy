/** The tensor layout the loss reads (loss.py:21-30, 49).

    The prediction tensor is reshaped to cells of width C + 5B; each cell holds
    C class scores, then slot 1 (confidence at C, box at C+1..C+4), then slot 2
    (confidence at C+5, box at C+6..C+9). A target cell holds C class entries,
    the objectness at C and the box at C+1..C+4. */
module LossLayout {
  import opened Boxes

  /** The part of a prediction cell the loss reads: the class scores and two slots. */
  datatype PredCell = PredCell(classes: seq<real>, conf1: real, box1: Box, conf2: real, box2: Box)

  /** The part of a target cell the loss reads. */
  datatype TargetCell = TargetCell(classes: seq<real>, objectness: real, box: Box)

  /** The box stored at entries i..i+3 of a cell. */
  function BoxAt(v: seq<real>, i: nat): (b: Box)
    requires i + 4 <= |v|
    ensures BoxEntries(b) == v[i..i + 4]
  {
    Box(v[i], v[i + 1], v[i + 2], v[i + 3])
  }

  /** Reads a prediction cell with C classes; entries past C + 10 (further slots) are ignored. */
  function DecodePrediction(C: nat, v: seq<real>): (p: PredCell)
    requires C + 10 <= |v|
    ensures |p.classes| == C
  {
    PredCell(v[..C], v[C], BoxAt(v, C + 1), v[C + 5], BoxAt(v, C + 6))
  }

  /** Writes a prediction cell back in the tensor layout. */
  function EncodePrediction(p: PredCell): (v: seq<real>)
    ensures |v| == |p.classes| + 10
  {
    p.classes + [p.conf1] + BoxEntries(p.box1) + [p.conf2] + BoxEntries(p.box2)
  }

  /** Reads a target cell with C classes; entries past C + 5 are ignored. */
  function DecodeTarget(C: nat, v: seq<real>): (t: TargetCell)
    requires C + 5 <= |v|
    ensures |t.classes| == C
  {
    TargetCell(v[..C], v[C], BoxAt(v, C + 1))
  }

  function EncodeTarget(t: TargetCell): (v: seq<real>)
    ensures |v| == |t.classes| + 5
  {
    t.classes + [t.objectness] + BoxEntries(t.box)
  }

  /** Decoding what was encoded gives the cell back. */
  lemma PredictionRoundTrip(p: PredCell)
    ensures DecodePrediction(|p.classes|, EncodePrediction(p)) == p
  {
    var v := EncodePrediction(p);
    var C := |p.classes|;
    assert v[..C] == p.classes;
    assert BoxAt(v, C + 1) == p.box1;
    assert BoxAt(v, C + 6) == p.box2;
  }

  /** The first C + 10 entries of a prediction cell are exactly what the loss reads,
      at the offsets of the layout. */
  lemma PredictionLayout(C: nat, v: seq<real>)
    requires C + 10 <= |v|
    ensures EncodePrediction(DecodePrediction(C, v)) == v[..C + 10]
    ensures DecodePrediction(C, v).conf1 == v[C] && DecodePrediction(C, v).conf2 == v[C + 5]
    ensures BoxEntries(DecodePrediction(C, v).box1) == v[C + 1..C + 5]
    ensures BoxEntries(DecodePrediction(C, v).box2) == v[C + 6..C + 10]
  {
    var p := DecodePrediction(C, v);
    assert v[..C + 10] == v[..C] + [v[C]] + v[C + 1..C + 5] + [v[C + 5]] + v[C + 6..C + 10];
  }

  lemma TargetRoundTrip(t: TargetCell)
    ensures DecodeTarget(|t.classes|, EncodeTarget(t)) == t
  {
    var v := EncodeTarget(t);
    var C := |t.classes|;
    assert v[..C] == t.classes;
    assert BoxAt(v, C + 1) == t.box;
  }

  lemma TargetLayout(C: nat, v: seq<real>)
    requires C + 5 <= |v|
    ensures EncodeTarget(DecodeTarget(C, v)) == v[..C + 5]
    ensures DecodeTarget(C, v).objectness == v[C]
    ensures BoxEntries(DecodeTarget(C, v).box) == v[C + 1..C + 5]
  {
    assert v[..C + 5] == v[..C] + [v[C]] + v[C + 1..C + 5];
  }

  /** Cuts a flat tensor of n * w entries into n consecutive cells of width w
      (the reshape of loss.py:21 with the batch and grid dimensions merged);
      ReshapeCell states where each entry of each cell comes from. */
  function Reshape(flat: seq<real>, n: nat, w: nat): (cells: seq<seq<real>>)
    requires |flat| == n * w
    ensures |cells| == n
    ensures forall i :: 0 <= i < n ==> |cells[i]| == w
  {
    AllCellBounds(n, w);
    seq(n, i requires 0 <= i < n => flat[Offset(i, w)..Offset(i, w) + w])
  }

  /** Where cell i of width w starts in the flat tensor. */
  function Offset(i: nat, w: nat): nat
  {
    i * w
  }

  /** Cell i of the reshaped tensor is entries i * w up to (i + 1) * w of the flat
      tensor: its entry j is entry i * w + j. */
  lemma ReshapeCell(flat: seq<real>, n: nat, w: nat, i: nat)
    requires |flat| == n * w && i < n
    ensures i * w + w <= |flat|
    ensures Reshape(flat, n, w)[i] == flat[i * w..i * w + w]
    ensures forall j :: 0 <= j < w ==> Reshape(flat, n, w)[i][j] == flat[i * w + j]
  {
    CellBounds(i, n, w);
  }

  lemma AllCellBounds(n: nat, w: nat)
    ensures forall i :: 0 <= i < n ==> Offset(i, w) + w <= n * w
  {
    forall i | 0 <= i < n
      ensures Offset(i, w) + w <= n * w
    {
      CellBounds(i, n, w);
    }
  }

  /** The i-th cell of n cells of width w lies inside the n * w entries. */
  lemma CellBounds(i: nat, n: nat, w: nat)
    requires i < n
    ensures 0 <= i * w <= (i + 1) * w <= n * w
    ensures (i + 1) * w == i * w + w
  {
    assert (i + 1) * w == i * w + w;
    MulMonotone(i + 1, n, w);
  }

  lemma MulMonotone(a: nat, b: nat, w: nat)
    requires a <= b
    ensures a * w <= b * w
  {
    assert b * w == a * w + (b - a) * w;
  }

  /** Every cell of the reshaped prediction tensor, decoded. */
  function DecodePredictions(C: nat, cells: seq<seq<real>>): (ps: seq<PredCell>)
    requires forall i :: 0 <= i < |cells| ==> C + 10 <= |cells[i]|
    ensures |ps| == |cells|
    ensures forall i :: 0 <= i < |cells| ==> ps[i] == DecodePrediction(C, cells[i])
  {
    seq(|cells|, i requires 0 <= i < |cells| => DecodePrediction(C, cells[i]))
  }

  function DecodeTargets(C: nat, cells: seq<seq<real>>): (ts: seq<TargetCell>)
    requires forall i :: 0 <= i < |cells| ==> C + 5 <= |cells[i]|
    ensures |ts| == |cells|
    ensures forall i :: 0 <= i < |cells| ==> ts[i] == DecodeTarget(C, cells[i])
  {
    seq(|cells|, i requires 0 <= i < |cells| => DecodeTarget(C, cells[i]))
  }
}
