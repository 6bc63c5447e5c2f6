# YOLO loss and synthetic shapes, modelled in Dafny

This project models two parts of a small YOLO object-detection repository.

- **The loss.** `YoloLoss` (loss.py) reshapes the network output into an S×S grid of
  cells of width C + 5B. It picks, per cell, the responsible one of the first two
  predicted boxes: the one whose IoU with the target box is larger, the first on a
  tie. It then sums four masked squared-error terms:
  - box, with sizes passed through a square root;
  - object confidence;
  - no-object confidence;
  - class.

  It returns 5·box + obj + 0.5·noobj + class.
- **The generator.** The synthetic-data generator (generate.py) places one to three
  shapes in a 112×112 image: each is an ellipse or a randomly rotated regular polygon
  with 3 to 6 sides, labelled by the s×s square box it is drawn in. It keeps drawing a
  random size and position until the proposed square box clashes with none placed
  before it. Two boxes clash (`overlaps`) when their clamped intersection exceeds 30%
  of the area of either box.

How the project is laid out:

- `boxes.dfy`: the centre-form box, `Option` and `Result`, and real helpers.
- `loss_layout.dfy`: the tensor layout. It covers decoding and encoding a cell, and
  cutting the flat prediction tensor into cells.
- `loss.dfy`: `YoloLoss.forward` as functions. Each shape error becomes a `LossError`
  value.
- `loss_properties.dfy`: what the loss promises, cell by cell and in total.
- `loss_flatten.dfy`: proofs that the per-cell sums equal the sums of squares over the
  flattened tensors that `nn.MSELoss` receives.
- `overlap.dfy`: `overlaps` and its properties.
- `generate.dfy`:
  - `generate_shape` and `generate_image` as methods with loops;
  - `Place` and `ImageFrom`, the specification functions they are proved against;
  - lemmas about those functions.

Some of the source's operations are not defined here and are not computed.

- **IoU.** The IoU routine of utils.py is a parameter `iou: (Box, Box) -> real`.
- **Square root.** `torch.sqrt` is a parameter `sqrt: real -> real`. The lemmas that
  need its meaning assume `IsSqrt(sqrt)`.
- **Random draws.** The num_shapes, shape-index, size and position draws of the
  generator are inputs. A `Draw` is one iteration's side and position. The colour and
  rotation draws are not modelled.
- **Tensor shapes.** The prediction tensor is given flat. The target is given as its
  list of cells.

## Model

| member | source | states |
|---|---|---|
| LossLayout.PredictionRoundTrip | loss.py:21-26 | decoding an encoded prediction cell gives it back |
| LossLayout.PredictionLayout | loss.py:22-35 | the class scores, the two confidences (entries C and C+5) and the two boxes (entries C+1..C+4 and C+6..C+9) are exactly the first C+10 entries of a cell |
| LossLayout.TargetRoundTrip | loss.py:23-30 | decoding an encoded target cell gives it back |
| LossLayout.TargetLayout | loss.py:23-37 | the objectness is entry C and the box is entries C+1..C+4 of a target cell; the first C+5 entries are exactly what the loss reads |
| LossLayout.Reshape | loss.py:21 | a tensor of n·w entries is cut into n cells of width w |
| LossLayout.ReshapeCell | loss.py:21 | cell i of the reshape is entries i·w up to i·w+w of the flat tensor, entry by entry |
| Loss.Responsible | loss.py:28-29 | the selected slot holds the larger of the two IoUs; a tie selects slot 1 |
| Loss.ResponsibleBox | loss.py:22-36 | the responsible box is one of the two predicted boxes and has the maximal IoU with the target box |
| Loss.Blend | loss.py:33-36 | best·box2 + (1 − best)·box1 is box1 for best = 0 and box2 for best = 1 |
| Loss.Mask | loss.py:33-37 | masking by 0 gives 0 and masking by 1 leaves the entry unchanged |
| Loss.SumSq | loss.py:16 | the summed squared error is non-negative and zero for equal vectors |
| Loss.CellTerms | loss.py:33-63 | each of a cell's four loss terms is non-negative |
| Loss.SumTerms | loss.py:42-63 | each of the four components summed over all cells is non-negative |
| Loss.CellCount | loss.py:21 | a prediction size that divides by S·S·(C+5B) is N·S·S cells of width C+5B |
| Loss.Components | loss.py:20-63 | on success all components are non-negative and the input is well shaped: S > 0, B ≥ 2, exactly one prediction cell of width C+5B per target cell, a cell count that is a multiple of S·S, and every target cell at least C+5 wide |
| Loss.Forward | loss.py:20-72 | the returned loss is non-negative, and forward fails exactly when Components fails |
| LossProperties.BoxTermReadsResponsibleBox | loss.py:33-39 | the box term's prediction is the responsible box masked by the objectness, with the size transform applied after masking |
| LossProperties.ObjectCellBoxTerm | loss.py:33-45 | with objectness 1, the box term is the squared error on the untransformed centre plus the squared error between sqrt(\|v + 1e-6\|) of the predicted size and sqrt of the target size |
| LossProperties.EmptyCellBoxResidual | loss.py:33-40 | with objectness 0, a cell still adds exactly 2·1e-6 to the box term |
| LossProperties.SizeTransforms | loss.py:39-40 | the predicted size transform squares back to \|v + 1e-6\| and does not preserve sign; the target transform squares back to v for v ≥ 0 |
| LossProperties.ObjConfidenceWeight | loss.py:48-53 | each slot's confidence is regressed on its own IoU, and the squared error is weighted by e² in obj_conf_loss |
| LossProperties.NoobjConfidenceWeight | loss.py:54-57 | the same squared error is weighted by (1 − e)² in noobj_conf_loss |
| LossProperties.ConfidenceRouting | loss.py:48-57 | with objectness 1 the whole confidence error is in obj_conf_loss and noobj_conf_loss gets 0; with objectness 0 it is the other way round |
| LossProperties.ClassTerm | loss.py:60-63 | the class term is e² times the squared class error: all of it for objectness 1, nothing for objectness 0 |
| LossProperties.ForwardOnWellShaped | loss.py:20-72 | forward succeeds exactly on well-shaped input; then the components are the masked sums over the reshaped, decoded prediction cells and the decoded target cells, and the result is their weighted total |
| LossProperties.ForwardWeighting | loss.py:66-71 | the loss is 5·box + obj + 0.5·noobj + class, with every component non-negative |
| LossProperties.TotalIsSumOfCellTotals | loss.py:66-71 | weighting the summed components equals summing each cell's weighted total |
| LossProperties.PredictionCellLayout | loss.py:21-26 | decoded cell k reads its classes, confidences and boxes at offsets k·(C+5B) + … of the flat prediction tensor |
| LossProperties.SumSqScaled | loss.py:60-63 | masking both vectors by k multiplies their summed squared error by k² |
| LossProperties.SumSqAppend | loss.py:42-45 | the summed squared error over a concatenation is the sum over its parts |
| LossFlatten.BoxLossIsFlatMse | loss.py:42-45 | box_loss summed cell by cell equals the summed squared error over the flattened box tensors |
| LossFlatten.ConfLossIsFlatMse | loss.py:48-57 | obj_conf_loss and noobj_conf_loss summed cell by cell equal the summed squared error over the flattened confidence tensors (slot 1 of all cells, then slot 2) |
| LossFlatten.ConfColumnsSum | loss.py:48-57 | one mask's per-cell confidence terms add up to the errors of the slot-1 column plus those of the slot-2 column |
| LossFlatten.ClassLossIsFlatMse | loss.py:60-63 | class_loss summed cell by cell equals the summed squared error over the flattened, masked class tensors |
| Overlap.ClipBelow | generate.py:29 | the clipped value is non-negative and equals the input when that is non-negative |
| Overlap.Intersection | generate.py:19-29 | the intersection area is never negative |
| Overlap.IntersectionSymmetric | generate.py:24-29 | the intersection does not depend on the argument order |
| Overlap.OverlapsSymmetric | generate.py:15-35 | overlaps(A, B) == overlaps(B, A) |
| Overlap.SeparatedNoOverlap | generate.py:24-35 | proper boxes that are apart along x or y have intersection 0 and do not clash |
| Overlap.OverlapsIff | generate.py:29-35 | for proper boxes, overlaps holds exactly when the intersection is strictly greater than 0.3·area(A) or 0.3·area(B) |
| Overlap.SelfOverlaps | generate.py:29-31 | a proper box clashes with itself |
| Overlap.ContainedOverlaps | generate.py:29-33 | a proper box inside another has the whole of its area as intersection and clashes with it in both orders |
| Overlap.QuotientAbove | generate.py:30-33 | for a positive area, the ratio exceeds t exactly when the intersection exceeds t times the area |
| Generate.ProposedBox | generate.py:53-54 | the proposal is a square of side s/112 |
| Generate.Normalised | generate.py:65-69 | the returned centre and size are those of the proposal that was checked for clashes |
| Generate.Place | generate.py:45-69 | the shape chosen by the rejection loop carries the shape index it was given |
| Generate.GenerateShape | generate.py:38-69 | the rejection loop returns the first accepted draw, normalised, or None when the draws run out |
| Generate.ClashFree | generate.py:50-56 | the inner loop leaves valid true exactly when the proposal clashes with no row of data |
| Generate.PlaceStep | generate.py:46-56 | one iteration either stops on an accepted draw or continues with the rest of the stream |
| Generate.PlaceChoosesFirstAccepted | generate.py:45-56 | the placed shape comes from an accepted draw, every earlier draw clashed, and None means every draw clashed |
| Generate.PlaceClashesWithNone | generate.py:50-56 | the placed shape clashes with no row already in data |
| Generate.NormalisedInImage | generate.py:47-67 | for in-range draws the box is a proper square with side in [22/112, 67/112] and edges in [0, 111/112] |
| Generate.SideBounds | generate.py:47 | the side is drawn from 22 to 67 pixels |
| Generate.GenerateImage | generate.py:71-80 | the labels are ImageFrom of the draws; when complete there are 1 to 3 of them, each well formed with its drawn shape index, none clashing with an earlier one |
| Generate.ImageShapes | generate.py:72-80 | placing shapes keeps the rows already present in front and adds one row per shape, carrying that shape's index |
| Generate.ImageRows | generate.py:72-80 | every row placed is a well-formed square, and none clashes with a row before it |
| Generate.PlacedWellFormed | generate.py:42-69 | a shape placed from in-range draws, with a shape index into SHAPES, is a well-formed row |
| Generate.NoClashEitherOrder | generate.py:55 | labels that clash with no earlier label clash with no other label in either argument order |

## Left out

- The IoU routine (`intersection_over_union`) lives in utils.py, which is not part of
  this model. The loss takes it as a parameter and proves nothing about its values.
- `torch.sqrt` is a parameter. The model does not produce the NaN that the source gets
  from the square root of a negative target size. Lemmas that need the square root's
  meaning assume `IsSqrt`.
- Floating point is not modelled. All arithmetic is on exact reals: the 1e-6 constant
  and the 0.3 threshold are exact, and there is no rounding. numpy's division by a zero
  area follows IEEE: a positive intersection over 0 clashes, and 0 over 0 does not.
- Broadcasting is not modelled. A prediction batch of one against a target batch of
  N > 1 broadcasts in the source, provided the IoU routine is elementwise like the torch
  operations around it. Every operand then becomes [N, S, S, …], and the loss scores the
  one prediction against all N targets. The model reports `TargetMismatch` for that
  input. The reverse case, a target batch smaller than the prediction batch, fails in the
  source too: `nn.MSELoss` at loss.py:42-45 cannot match N·S·S flattened prediction rows
  against fewer target rows. There the model's `TargetMismatch` agrees with the source.
  A target cell narrower than C + 5 is also reported as `TargetMismatch`.
- The target's rank and grid shape are not checked. The source needs a target of
  shape [N, S, S, ≥ C+5] (loss.py:22-23 broadcast it against the reshaped
  predictions and loss.py:30 unsqueezes dimension 3). The model takes the target as a
  flat list of cells and checks only the cell count and the cell widths, so a target
  of shape [S, S, C+5] or [N, S·S, 1, C+5] with the right number of cells, which the
  source rejects, is accepted here.
- Gradients, `nn.Module` and the autograd mechanics of `nn.MSELoss` are out of scope.
  The loss is modelled as a sum of squared differences.
- The four components are internal. `forward` returns only the weighted total
  (loss.py:72), and tests.py:198 unpacks five values from it. The model follows
  loss.py.
- S, B and C come from params.py, which is not part of this model. They are the
  fields of `Config`. Slots past the second, which exist when B > 2, are ignored, as in
  the source.
- Randomness is replaced by inputs. The following are not modelled:
  - the colour and rotation draws (generate.py:41, 61);
  - the image and drawing objects (generate.py:39-40, 73), the `SHAPES` lookup, which
    only drawing uses (generate.py:43), the drawing itself (generate.py:58-63) and the
    pasting (generate.py:77);
  - the dataset and CSV writing (generate.py:82-97).

  The num_shapes draw (generate.py:72), the shape-index draw (generate.py:42) and the
  size/position draws (generate.py:47-49) become the inputs `numShapes`,
  `shapeIdx`/`shapeIdxs` and `draws`, and their randint ranges become preconditions.
- The rejection loop of `generate_shape` need not terminate in the source. Here it
  runs over a finite stream of draws and returns `None` when the stream runs out.
  `generate_image` then returns `None`.
- evaluate.py and tests.py are not part of this model: they are drivers around
  library and unseen code.
