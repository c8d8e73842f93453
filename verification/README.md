# BeltTool core in Dafny

BeltTool is a single-page tool for a leather workshop. The maker enters a
customer's pant waist size and picks a belt design: width, colour, end
shape, buckle and how the buckle is attached. The tool shows a live preview
of the belt. It then produces an order document whose second page holds two
full-size cutting templates, and keeps a history of the orders placed.

This project models the parts of that tool that compute something:

- **The path engine.** It reads the SVG path data of the four end shapes
  (round, square, square taper, spear). Its commands are the moveto,
  lineto, horizontal and vertical lineto, cubic curveto and closepath
  commands of section 8.3 of the SVG 1.1 path-data grammar. The engine turns
  them into one absolute start point and a list of relative line and curve
  segments, scaled and translated. It also draws a shape at a belt width,
  either as authored or mirrored so that the tip points right.
- **The belt geometry.** This covers the total belt length, and the holes,
  buckle zone and ruler marks of the on-screen preview. It also covers the
  two cutting templates: the tip end (A) and the buckle end (B), whose fold
  line, buckle slot, stitch guides, rivets and snaps lie symmetrically about
  the centre. Their rulers are included too.
- **The editor actions.** These are the waist buttons and typed inputs
  clamped to 26..54, the readiness check for generating, new order,
  load and duplicate, and the generated file name.
- **The order history.** This covers save with its 100-order cap, delete by
  id, the empty fallback on load, the `BLT-YYMMDD-NNNN` order number, and the
  generate action.

The modules and files are:

| module | file |
|---|---|
| `Wrappers` | wrappers.dfy |
| `Text` | text.dfy: decimal digits, padding, trimming, `parseInt` |
| `PathParser` | path_parser.dfy: tokens, segments, the parser state machine |
| `PathProperties` | path_properties.dfy: concatenation, start point, per-command behaviour, repetition |
| `PathPieces` | path_pieces.dfy: a path as a list of command chunks |
| `PathScaling` | path_scaling.dfy: scale linearity and origin independence |
| `PathReplay` | path_replay.dfy: the segments replay the pen |
| `EndShapes` | end_shapes.dfy: the authored contours |
| `EndShapeDrawing` | end_shape_drawing.dfy: drawing and mirroring |
| `BeltDesign` | belt_design.dfy: the design, order, constants and editor actions |
| `BeltPreview` | belt_preview.dfy: the preview geometry |
| `CuttingTemplates` | cutting_templates.dfy: templates A and B and their rulers |
| `PdfFileName` | pdf_file_name.dfy: the document's file name |
| `OrderHistory` | order_history.dfy: storage, order numbers, generating an order |

A path is given as its token list (`Cmd(c)` or `Num(v)`), and coordinates
are exact reals.

The tokenizer (`src/utils/pdfGenerator.ts:54`) accepts a lowercase `m`, but
the command switch (`src/utils/pdfGenerator.ts:68-152`) has no case for it.
So `m` is skipped like any unknown letter, and the numbers after it are then
skipped as stray numbers. The model does the same. The authored contours use
only `M`.

## Model

| member | source | states |
|---|---|---|
| PathParser.TakeNums | src/utils/pdfGenerator.ts:61-64 | Reading `n` numbers succeeds exactly when the next `n` tokens are all numbers, and then returns those numbers in order |
| PathParser.RunOp | src/utils/pdfGenerator.ts:83-150 | A command's repeat loop leaves a suffix of its input unconsumed |
| PathParser.Dispatch | src/utils/pdfGenerator.ts:66-152 | Handling one command letter consumes a prefix of the tokens after it |
| PathProperties.RunConcat | src/utils/pdfGenerator.ts:66-153 | Parsing `a + b`, where `b` starts at a command, is parsing `a` and then continuing with `b` from the state reached |
| PathProperties.RunOpConcat | src/utils/pdfGenerator.ts:76-149 | A repeat loop stops at the next command letter, so tokens appended after one do not change what the loop reads |
| PathProperties.DispatchConcat | src/utils/pdfGenerator.ts:67-152 | One command's effect does not depend on tokens that start after the next command letter |
| PathProperties.TakeNumsConcat | src/utils/pdfGenerator.ts:61-64 | Reading numbers never reaches past a command letter |
| PathProperties.RunKeepsStart | src/utils/pdfGenerator.ts:69-81 | Once a moveto has been seen, no later command changes the start point |
| PathProperties.DispatchKeepsStart | src/utils/pdfGenerator.ts:69-81 | After the first moveto, a later moveto or any other command keeps the start point |
| PathProperties.RunOpKeepsStart | src/utils/pdfGenerator.ts:83-150 | Segment commands never touch the start point or the moveto flag |
| PathProperties.StartAfterMove | src/utils/pdfGenerator.ts:69-75 | Once a moveto has fixed the start point, the rest of its command and every later command keep it |
| PathProperties.MoveFromInit | src/utils/pdfGenerator.ts:69-75 | The first moveto sets the start point to its pair scaled and shifted by the origin |
| PathProperties.MovedStart | src/utils/pdfGenerator.ts:69-75 | A path that opens with a moveto keeps the start point that moveto sets, whatever follows |
| PathProperties.StartPoint | src/utils/pdfGenerator.ts:69-75 | A path that opens with `M x y` has the start point `(x*scale + ox, y*scale + oy)` |
| PathProperties.MoveToPair | src/utils/pdfGenerator.ts:69-81 | Coordinate pairs after a moveto are read as absolute linetos from the moved pen |
| PathProperties.MoveChunk | src/utils/pdfGenerator.ts:69-81 | A moveto with `2k` numbers emits `k - 1` segments, keeps the earlier segments, and takes its start point from its first pair unless one was already set |
| PathProperties.AxisCommands | src/utils/pdfGenerator.ts:99-122 | `h` emits `(d*scale, 0)` and moves the pen by `d`; `H` emits `((d - cx)*scale, 0)` and sets the pen x; `v` and `V` do the same on the y axis. Each reads exactly one number |
| PathProperties.AxisApply | src/utils/pdfGenerator.ts:99-122 | The axis commands zero the other component and change only one pen coordinate |
| PathProperties.SingleCommand | src/utils/pdfGenerator.ts:99-122 | A one-number command consumes exactly one number and no more, even if more follow |
| PathProperties.SingleOp | src/utils/pdfGenerator.ts:99-122 | A non-repeating command applied to a number leaves the remaining tokens untouched |
| PathProperties.SkippedTokens | src/utils/pdfGenerator.ts:66-152 | A stray number, or a letter with no case in the switch, is consumed without emitting a segment or moving the pen |
| PathProperties.SkippedLetters | src/utils/pdfGenerator.ts:68-152 | `Z`, `z` and `m` are among the letters that do nothing |
| PathProperties.RunCommand | src/utils/pdfGenerator.ts:66-68 | The main loop hands the letter and the tokens after it to the command's case and resumes where that case stopped |
| PathProperties.TakeNumsOfNums | src/utils/pdfGenerator.ts:61-64 | Reading `n` numbers from a run of at least `n` numbers gives the first `n` and leaves the rest |
| PathProperties.ApplyOpAppends | src/utils/pdfGenerator.ts:83-150 | One application of a segment command appends exactly one segment and keeps the earlier ones and the start point |
| PathProperties.RepeatStep | src/utils/pdfGenerator.ts:83-150 | A repeating command with at least one full argument group applies the group and loops on the rest |
| PathProperties.RepeatStop | src/utils/pdfGenerator.ts:62-64 | A repeating command with no numbers after it does nothing |
| PathProperties.RepeatedOp | src/utils/pdfGenerator.ts:83-150 | `l`, `L`, `c` or `C` followed by `k` argument groups emits exactly `k` segments, keeps the earlier segments and the start point, and stops at the next command |
| PathProperties.RepeatedOpFrom | src/utils/pdfGenerator.ts:83-150 | The inductive step of the repeat loop: one group applied, then `k - 1` more, is `k` in all |
| PathProperties.AppendedStep | src/utils/pdfGenerator.ts:83-150 | Appending `k - 1` segments after a state that has one more segment is appending `k` |
| PathProperties.SkipNums | src/utils/pdfGenerator.ts:66-68 | A run of numbers with no command before it changes nothing |
| PathProperties.RunWholeChunk | src/utils/pdfGenerator.ts:66-152 | A command that consumes all its numbers is the whole effect of its chunk |
| PathProperties.ChunkOfOp | src/utils/pdfGenerator.ts:83-150 | What a segment command appends by itself is what its chunk appends to the parse |
| PathProperties.OpChunk | src/utils/pdfGenerator.ts:83-150 | A segment-command chunk whose number count fits the command emits the counted segments and keeps the start point |
| PathProperties.ChunkCount | src/utils/pdfGenerator.ts:83-150 | A fitting repeating chunk holds a whole number of argument groups; a non-repeating one holds exactly one number |
| PathProperties.SkipChunk | src/utils/pdfGenerator.ts:151 | A chunk of a letter that does nothing changes nothing, whatever numbers follow it |
| PathProperties.RunChunk | src/utils/pdfGenerator.ts:66-152 | Every fitting chunk appends its counted segments and keeps the earlier ones; only a moveto may set the start point |
| PathPieces.Flatten | src/utils/pdfGenerator.ts:54 | A list of command chunks becomes the token list the tokenizer would produce, and it starts at a command |
| PathPieces.RunPieces | src/utils/pdfGenerator.ts:66-153 | A path of fitting chunks parses, and it emits exactly the sum of the chunks' segment counts after the segments already present |
| PathPieces.FlattenAppend | src/utils/pdfGenerator.ts:54 | Tokenizing two chunk lists one after the other is tokenizing their concatenation |
| PathPieces.CountShift | src/utils/pdfGenerator.ts:66-153 | Counting from index `k + 1` is counting the tail from index `k` |
| PathPieces.CountCons | src/utils/pdfGenerator.ts:66-153 | The segment count of a chunk list is the first chunk's count plus that of the rest |
| PathReplay.Replay | src/utils/pdfGenerator.ts:56-150 | For a path whose only moveto is the first command, the start point plus the sum of every segment's final pair is the final pen, scaled and translated |
| PathReplay.RunReplays | src/utils/pdfGenerator.ts:66-153 | The replay equation holds after any moveto-free token list |
| PathReplay.RunOpReplays | src/utils/pdfGenerator.ts:83-150 | Every loop of a segment command keeps the replay equation |
| PathReplay.ApplyOpReplays | src/utils/pdfGenerator.ts:83-150 | Each emitted segment's final pair is the pen displacement times the scale, for relative and absolute commands alike |
| PathReplay.ReplaysApplied | src/utils/pdfGenerator.ts:83-150 | A segment whose final pair is the pen displacement keeps the replay equation |
| PathReplay.ReplaysStep | src/utils/pdfGenerator.ts:83-150 | The same, for any state that appends one such segment |
| PathReplay.RawSegEnd | src/utils/pdfGenerator.ts:83-150 | Before scaling, the final pair of every command's segment is exactly how far the command moves the pen |
| PathReplay.ScaledEnd | src/utils/pdfGenerator.ts:86-146 | Scaling a segment scales its final pair |
| PathReplay.SumAppend | src/utils/pdfGenerator.ts:78-94 | The displacement sum of a list grows by the final pair of the segment appended |
| PathReplay.NoMoveSuffix | src/utils/pdfGenerator.ts:66-68 | What is left of a moveto-free list after a command is still moveto-free |
| PathScaling.ParseScaleLinear | src/utils/pdfGenerator.ts:72-146 | Parsing at any scale and origin succeeds exactly when parsing at scale 1 does, with the same number of segments, each the scale-1 segment times the scale |
| PathScaling.RunScaledFrom | src/utils/pdfGenerator.ts:66-153 | Scale-related states stay scale-related through any token list, and fail together |
| PathScaling.RunOpScaled | src/utils/pdfGenerator.ts:83-150 | A command's loop keeps two scale-related states related |
| PathScaling.DispatchScaled | src/utils/pdfGenerator.ts:66-152 | One command keeps two scale-related states related |
| PathScaling.ApplyOpScaled | src/utils/pdfGenerator.ts:83-150 | Every segment component is the scale-1 component times the scale; the pen is unaffected by the scale |
| PathScaling.ScaleAfterUnit | src/utils/pdfGenerator.ts:86-146 | Scaling by 1 and then by `k` is scaling by `k` |
| PathScaling.OriginShift | src/utils/pdfGenerator.ts:72-73 | Two origins give the same pen and the same segments; only the start point differs, by the difference of the origins |
| PathScaling.RunShifted | src/utils/pdfGenerator.ts:66-153 | Origin-shifted states stay shifted through any token list, and fail together |
| PathScaling.RunOpShifted | src/utils/pdfGenerator.ts:83-150 | A command's loop emits the same segments whatever the origin |
| PathScaling.DispatchShifted | src/utils/pdfGenerator.ts:66-152 | One command keeps origin-shifted states shifted |
| PathScaling.MoveShifted | src/utils/pdfGenerator.ts:69-75 | Only the first moveto sees the origin, and it shifts the start point by it |
| EndShapes.ClosedExtendsOutline | src/utils/pdfGenerator.ts:17-30 | Each closed contour is its open outline followed by one vertical edge, 76 units for round and square and 75 for square taper and spear, and a closepath |
| EndShapes.ClosedParse | src/utils/pdfGenerator.ts:17-30 | For every shape, scale and origin, the parsed closed contour is the parsed outline plus one segment `(0, h*scale)`, with the same start point |
| EndShapes.OutlineParses | src/utils/pdfGenerator.ts:17-30 | Each outline parses, sets its start point, and emits 5 segments (round, square) or 7 (square taper, spear) |
| EndShapes.OutlineFits | src/utils/pdfGenerator.ts:24-30 | Every chunk of each outline has a number count its command accepts, and the counts add up to the shape's segment count |
| EndShapes.RoundFits | src/utils/pdfGenerator.ts:26 | The round outline's chunks fit and emit 5 segments |
| EndShapes.SquareFits | src/utils/pdfGenerator.ts:27 | The square outline's chunks fit and emit 5 segments |
| EndShapes.SquareTaperFits | src/utils/pdfGenerator.ts:28 | The square-taper outline's chunks fit and emit 7 segments |
| EndShapes.SpearFits | src/utils/pdfGenerator.ts:29 | The spear outline's chunks fit and emit 7 segments |
| EndShapes.MovePiecesParse | src/utils/pdfGenerator.ts:66-75 | A fitting chunk list that opens with a one-pair moveto parses to its segment count, with the start point set |
| EndShapes.PairChunk | src/utils/pdfGenerator.ts:54 | A two-number chunk is its letter followed by the two numbers |
| EndShapes.EdgeRun | src/utils/pdfGenerator.ts:111-151 | The closing `v h Z` appends one vertical segment of height `h` and moves the pen down by `h` |
| EndShapes.EdgeTokens | src/utils/pdfGenerator.ts:17-22 | The closing edge is the tokens `v`, `h`, `Z` |
| EndShapes.ClosepathRun | src/utils/pdfGenerator.ts:151 | A closepath changes nothing |
| EndShapes.CloseWithEdge | src/utils/pdfGenerator.ts:66-153 | Appending the closing edge to any parsable contour appends one vertical segment |
| EndShapeDrawing.ShapeParses | src/utils/pdfGenerator.ts:17-30 | Every authored contour, closed or open, parses at every scale and origin to its segment count, 6 or 8 when closed |
| EndShapeDrawing.DrawExtent | src/utils/pdfGenerator.ts:165-182 | Drawing an end shape always hands its segments to the line call and returns the left edge plus 105 contour units at `beltWidth / 76` per unit |
| EndShapeDrawing.DrawPathExtent | src/utils/pdfGenerator.ts:165-182 | A contour with at least two segments is drawn whole and returns `x + 105*scale` |
| EndShapeDrawing.MirroredExtent | src/utils/pdfGenerator.ts:188-212 | Drawing a mirrored end shape always draws it and returns the right edge minus 105 contour units at the belt's scale |
| EndShapeDrawing.MirroredPathExtent | src/utils/pdfGenerator.ts:188-212 | A mirrored contour with at least two segments is drawn whole and returns `rightEdgeX - 105*scale` |
| EndShapeDrawing.MirrorSegs | src/utils/pdfGenerator.ts:204-207 | Mirroring keeps the segment count and reflects each segment on its own |
| EndShapeDrawing.MirroredIsReflection | src/utils/pdfGenerator.ts:165-212 | For every shape, the mirrored drawing has every x component negated, every y component kept, the same start y, and the start x reflected about `rightEdgeX` relative to the unmirrored drawing's left edge |
| EndShapeDrawing.PathMirrorIsReflection | src/utils/pdfGenerator.ts:165-212 | The same for any contour with at least two segments that sets a start point (begins with a moveto) |
| EndShapeDrawing.MirrorInvolution | src/utils/pdfGenerator.ts:202-207 | Mirroring twice about the same right edge gives the path back |
| EndShapeDrawing.MirrorSums | src/utils/pdfGenerator.ts:204-207 | Mirroring negates the total x displacement and keeps the total y displacement |
| EndShapeDrawing.MirrorReflects | src/utils/pdfGenerator.ts:202-209 | Every vertex of the mirrored path is the reflection in `x = rightEdgeX / 2` of the matching vertex of the path drawn at origin 0 |
| BeltDesign.BeltWidth.Inches | src/types.ts:1 | The four widths lie between 1 and 1.75 inches |
| BeltDesign.TotalLengthParts | src/App.tsx:43-44 | Total length is waist + 11 for a separate buckle piece and waist + 13.5 for an integrated one, so the two differ by exactly 2.5, and nothing else in the design matters |
| BeltDesign.TotalLengthRange | src/components/BeltPreview/BeltPreview.tsx:30-31 | Every waist in 26..54 gives a belt of 37 to 67.5 inches, and one more inch of waist gives one more inch of belt |
| BeltDesign.DefaultTotalLength | src/App.tsx:14-23 | The starting design is 45 inches long and its waist is in range |
| BeltDesign.Clamp | src/App.tsx:81 | The result is in 26..54; it is the input when that is in range, and the nearer bound otherwise |
| BeltDesign.ClampProperties | src/App.tsx:81 | Clamping is idempotent and monotone, and fixes exactly the values in range |
| BeltDesign.AdjustWaist | src/App.tsx:80-83 | The waist buttons keep the waist in 26..54, add `delta` whenever the sum is in range, and change nothing but the waist |
| BeltDesign.AdjustWaistUndo | src/App.tsx:80-83 | A step that stays in range is undone by the opposite step |
| BeltDesign.AdjustActualWaist | src/App.tsx:85-89 | The actual-waist buttons start from the waist size when no actual size is set, add the step when the sum stays in 26..54, stop at 26 or 54 when it would leave the range, and change nothing else |
| BeltDesign.AdjustActualWaistFromWaist | src/App.tsx:85-89 | With no actual size set, stepping behaves as if the waist size had been recorded as the actual size; with one set, it moves the actual size as the waist buttons move the waist |
| BeltDesign.AdjustActualWaistUndo | src/App.tsx:85-89 | A step of the actual size that stays in range is undone by the opposite step, leaving the starting size recorded |
| BeltDesign.WaistInput | src/App.tsx:128-131 | A typed waist that reads as an integer sets the waist in 26..54; any other text leaves the design unchanged |
| BeltDesign.ActualWaistInput | src/App.tsx:152-156 | A typed actual waist clears the field exactly when the text has no leading integer; otherwise it is set in 26..54; nothing else changes |
| BeltDesign.WaistInputTyped | src/App.tsx:128-131 | Typing a number, with or without a fraction after it, sets the waist to that number clamped; an empty field changes nothing |
| BeltDesign.ActualWaistInputTyped | src/App.tsx:152-156 | Typing a number sets the actual waist to that number clamped; clearing the field removes it |
| BeltDesign.CanGenerateIff | src/App.tsx:91 | An order can be generated exactly when the customer name has a character that is not whitespace |
| BeltDesign.Reset | src/App.tsx:63-66 | New order restores the default design (waist 34, no actual waist, width 1.5, light-brown colour, round end, square antique-brass buckle on a separate piece) and empty customer fields |
| BeltDesign.LoadOrder | src/App.tsx:68-72 | Loading an order restores its design and customer details |
| BeltDesign.Duplicate | src/App.tsx:74-78 | Duplicating keeps the order's design and empties every customer field |
| BeltDesign.FreshCustomerBlocked | src/App.tsx:63-91 | After new order or duplicate, nothing can be generated until a name is entered |
| BeltDesign.ResetAndDuplicate | src/App.tsx:63-78 | Reset and duplicate ignore the editor's previous contents, and a duplicate is a reset with the order's design |
| BeltPreview.TipWidthAspect | src/components/BeltPreview/BeltPreview.tsx:41 | The tip area keeps the artwork's 105:78 aspect at the drawn height, the same for every design |
| BeltPreview.HoleScale | src/components/BeltPreview/BeltPreview.tsx:44 | The scale times the total length is the drawn span, and it is positive for a belt of positive length |
| BeltPreview.AtInchGap | src/components/BeltPreview/BeltPreview.tsx:44-47 | A gap of `b - a` inches is drawn as `b - a` scaled inches, and order is kept on a belt of positive length |
| BeltPreview.AtInchStep | src/components/BeltPreview/BeltPreview.tsx:44-47 | A step of `g` inches is drawn as `g` scaled inches |
| BeltPreview.Holes | src/components/BeltPreview/BeltPreview.tsx:45-48 | There are exactly `holeCount` holes |
| BeltPreview.HolesSpacing | src/components/BeltPreview/BeltPreview.tsx:45-48 | The first hole is 5 scaled inches from the tip, consecutive holes are one scaled inch apart, and the holes strictly increase on a belt of positive length |
| BeltPreview.HolesOnBelt | src/components/BeltPreview/BeltPreview.tsx:44-52 | For every waist from 26 up, every hole lies on the drawn belt and left of the buckle zone |
| BeltPreview.BuckleArea | src/components/BeltPreview/BeltPreview.tsx:51-52 | The buckle zone ends exactly at the right end of the drawn span, starts 6 inches before the belt's end, and is 6 scaled inches wide |
| BeltPreview.BeltEnd | src/components/BeltPreview/BeltPreview.tsx:44-47 | The tip is at the left edge and the full length lands on the right end of the span |
| BeltPreview.Marks | src/components/BeltPreview/BeltPreview.tsx:55-59 | The loop emits `floor(total/5) + 1` marks, mark `k` at `5k` inches labelled with `5k` and an inch sign |
| BeltPreview.MarksPlacement | src/components/BeltPreview/BeltPreview.tsx:55-59 | The first mark is at the tip labelled `0"`, marks are 5 scaled inches apart, and none lies past the right end of the belt |
| BeltPreview.FirstMark | src/components/BeltPreview/BeltPreview.tsx:57-58 | The zero mark is at the tip, labelled `0"` |
| BeltPreview.MarkWithin | src/components/BeltPreview/BeltPreview.tsx:57 | Every mark the loop emits is at most the total length from the tip |
| BeltPreview.MarkOnBelt | src/components/BeltPreview/BeltPreview.tsx:57-58 | No mark lies past the right end of the drawn belt |
| BeltPreview.MarkGap | src/components/BeltPreview/BeltPreview.tsx:57-58 | Neighbouring marks are 5 scaled inches apart |
| CuttingTemplates.RulerTicks | src/utils/pdfGenerator.ts:773-785 | The ruler has one tick per whole inch from 0 to the floor of its length, tick `i` at `x + i`, captioned `i` |
| CuttingTemplates.TickPlacement | src/utils/pdfGenerator.ts:777-780 | Ticks lie on the ruler one inch apart, and a tick is major exactly when its inch is a multiple of 5 |
| CuttingTemplates.TipTemplateLength14 | src/utils/pdfGenerator.ts:491-540 | Template A is `5 + 7*1 + 2` = 14 inches long whatever the design, and its ruler has 15 ticks |
| CuttingTemplates.TipHoles | src/utils/pdfGenerator.ts:529-534 | Template A carries exactly `holeCount` holes |
| CuttingTemplates.TipHolePlacement | src/utils/pdfGenerator.ts:526-534 | Hole `i` sits `5 + i` inches from the left edge on the centre line, captioned `5 + i`, strictly inside the template and past the end shape for every width |
| CuttingTemplates.TipSeams | src/utils/pdfGenerator.ts:494-513 | The stroked tip contour ends where the top and bottom edges begin, the body fill starts 0.03 inch inside the shape and reaches the dashed right end, and the edges are one belt width apart |
| CuttingTemplates.BuckleLengthLinear | src/utils/pdfGenerator.ts:574-575 | The fallback ratio 3 is never used; every ratio is between 2.9 and 3.4; template B's length is linear in the belt width |
| CuttingTemplates.BuckleSeams | src/utils/pdfGenerator.ts:584-622 | For every shape, width and attachment, the straight edges of template B meet the end shapes' contours. A separate piece's body fill overlaps each shape by 0.03 inch; an integrated end starts at a dashed left edge with the body covering the whole length |
| CuttingTemplates.ShapesAtExtent | src/utils/pdfGenerator.ts:610-618 | Template B's end shapes are drawn and each is one shape extent wide, the left ones from the left edge and the mirrored ones up to the right edge |
| CuttingTemplates.PieceSeams | src/utils/pdfGenerator.ts:609-622 | The separate-piece case of the seam property |
| CuttingTemplates.IntegratedSeams | src/utils/pdfGenerator.ts:584-601 | The integrated case of the seam property |
| CuttingTemplates.AssembledSeams | src/utils/pdfGenerator.ts:584-622 | The seam property for shapes drawn at the expected extents |
| CuttingTemplates.BuckleBodyPositive | src/utils/pdfGenerator.ts:574-621 | For every shape and width, template B is longer than two end shapes, so its straight stretch has positive length |
| CuttingTemplates.FoldAtCentre | src/utils/pdfGenerator.ts:576-651 | The fold line is vertical at half the template length, 0.2 inch past both edges; the buckle slot is centred on the fold line and on the centre line, which lies midway between the edges |
| CuttingTemplates.RivetsSymmetric | src/utils/pdfGenerator.ts:673-685 | The four rivets pair off as mirror images in the fold line, and upper and lower rivets as mirror images in the centre line |
| CuttingTemplates.GridSymmetric | src/utils/pdfGenerator.ts:674-685 | Four circles at the corners of a rectangle centred on `(cx, cy)` are pairwise reflections in both axes |
| CuttingTemplates.SnapsAndColumns | src/utils/pdfGenerator.ts:692-712 | The two snaps reflect each other in the fold line on the centre line, and each alternative stitch joins an upper rivet to the lower rivet below it |
| CuttingTemplates.StitchesSymmetric | src/utils/pdfGenerator.ts:657-670 | The right stitch guides are the left ones reflected in the fold line, the two rows are symmetric about the centre line, and the guides stop 0.2 inch short of the fold |
| PdfFileName.SafeName | src/utils/pdfGenerator.ts:236 | The name part is never empty and holds only ASCII letters and digits: the name's own letters and digits, or `Customer` when it has none |
| PdfFileName.SafeNameIdempotent | src/utils/pdfGenerator.ts:236 | A non-empty alphanumeric name is used as is, and cleaning a cleaned name changes nothing |
| PdfFileName.SafeNameMembers | src/utils/pdfGenerator.ts:236 | A character appears in the name part exactly when it is a letter or digit of the name, unless the name has none |
| PdfFileName.FallbackIsAlnum | src/utils/pdfGenerator.ts:236 | The fallback name survives cleaning unchanged |
| PdfFileName.FileNameParts | src/utils/pdfGenerator.ts:236-238 | The file name reads back as `BeltOrder_`, the cleaned name up to the first underscore, the date, and `.pdf` |
| PdfFileName.FileName | src/utils/pdfGenerator.ts:236-238 | The file name's length is the sum of its parts |
| PdfFileName.BeforeUnderscore | src/utils/pdfGenerator.ts:238 | The text before the first underscore is a prefix with no underscore, followed by an underscore or the end |
| PdfFileName.BeforeUnderscoreOf | src/utils/pdfGenerator.ts:238 | An underscore-free part followed by an underscore reads back as itself |
| PdfFileName.PartsLayout | src/utils/pdfGenerator.ts:238 | A file name's prefix, name, date and suffix can be read back from their positions |
| OrderHistory.LoadOrders | src/utils/orderUtils.ts:35-42 | With no stored entry, an empty one, or text that is not JSON, the history is empty; a stored list comes back as it is; a parsed value that is not a list comes back as a non-list (`None`) |
| OrderHistory.SaveOrder | src/utils/orderUtils.ts:27-33 | Saving fails exactly when the stored value is not a list; otherwise the new order is first, the history has `min(n + 1, 100)` orders, and the rest is the newest part of the old history in the same order |
| OrderHistory.WithoutId | src/utils/orderUtils.ts:45 | Filtering by id keeps no order with that id and keeps only orders from the list |
| OrderHistory.DeleteOrder | src/utils/orderUtils.ts:44-47 | Deleting fails exactly when the stored value is not a list; otherwise no order has the id afterwards |
| OrderHistory.DeleteOrderProperties | src/utils/orderUtils.ts:44-47 | An order survives a delete exactly when it was stored with another id; deleting twice is deleting once; deleting an id nobody has changes nothing |
| OrderHistory.WithoutIdAppend | src/utils/orderUtils.ts:45 | Filtering distributes over concatenation, so the survivors keep their relative order |
| OrderHistory.WithoutIdMembers | src/utils/orderUtils.ts:45 | An order survives the filter exactly when it is in the list with another id |
| OrderHistory.WithoutAbsentId | src/utils/orderUtils.ts:45 | Filtering an id nobody has returns the list unchanged |
| OrderHistory.SaveThenDelete | src/utils/orderUtils.ts:27-47 | Saving an order with a new id below the cap and then deleting it gives the old history back; on a non-list value saving and deleting both fail |
| OrderHistory.SeqNumber | src/utils/orderUtils.ts:10 | The sequence part is between 1000 and 9999 for every draw in `[0, 1)` |
| OrderHistory.OrderNumberFormat | src/utils/orderUtils.ts:5-12 | An order number is 15 characters: `BLT-`, the year's last two digits, the zero-padded month and day, `-`, and the four-digit sequence, each readable at its fixed position |
| OrderHistory.YearField | src/utils/orderUtils.ts:7 | The year part is two digits reading the year modulo 100 |
| OrderHistory.PaddedField | src/utils/orderUtils.ts:8-9 | A month or day from 1 to 99, zero-padded, is two digits reading the number |
| OrderHistory.SeqField | src/utils/orderUtils.ts:10 | The sequence part is four digits reading the sequence number |
| OrderHistory.NumberLayout | src/utils/orderUtils.ts:11 | The five parts of an order number sit at fixed positions |
| OrderHistory.PlaceOrder | src/App.tsx:47-58 | Generating builds an order from the editor's design and customer, the given id and date, the order number for the date and draw, and the current total length; the history is the result of saving that order, which puts it at the front, and fails only on a stored non-list value |
| OrderHistory.PlaceThenLoad | src/App.tsx:47-72 | Whenever the save succeeds, loading the order just generated restores the editor it came from |
| Text.NatToString | src/utils/orderUtils.ts:7-10 | A decimal rendering is a non-empty run of digits, one digit long exactly for numbers below 10 |
| Text.NatToStringValue | src/utils/orderUtils.ts:7-10 | Reading a rendered number back gives the number |
| Text.TwoDigitLength | src/utils/orderUtils.ts:8-9 | Numbers 10 to 99 render as two digits |
| Text.FourDigitLength | src/utils/orderUtils.ts:10 | Numbers 1000 to 9999 render as four digits |
| Text.PadStart | src/utils/orderUtils.ts:8-9 | Padding reaches the width, keeps the text at its end, and fills the front |
| Text.PaddedValue | src/utils/orderUtils.ts:8-9 | A zero-padded rendering still reads as the number |
| Text.PaddedDigits | src/utils/orderUtils.ts:8-9 | Leading zeros do not change a digit string's value |
| Text.LeadingZeros | src/utils/orderUtils.ts:8-9 | Zeros in front of digits keep their value |
| Text.ZerosValue | src/utils/orderUtils.ts:8-9 | A run of zeros reads as 0 |
| Text.TakeLast | src/utils/orderUtils.ts:7 | Taking the last `k` characters gives a suffix whose length is the smaller of the text's length and `k` |
| Text.LastTwoDigits | src/utils/orderUtils.ts:7 | The last two characters of a rendered number read as the number modulo 100 |
| Text.TwoDigitSplit | src/utils/orderUtils.ts:7 | A rendering of 10 or more is the rendering of its tens followed by its units digit |
| Text.HundredsSplit | src/utils/orderUtils.ts:7 | A rendering of 100 or more is the rendering of its hundreds followed by its tens digit and its units digit |
| Text.PairValue | src/utils/orderUtils.ts:7 | Two digits read as tens and units |
| Text.TensAndUnits | src/utils/orderUtils.ts:7 | Dropping the units twice drops two digits, and tens and units give the value modulo 100 |
| Text.TrimStart | src/App.tsx:91 | Trimming the front drops only whitespace and stops at a non-whitespace character |
| Text.TrimEnd | src/App.tsx:91 | Trimming the end drops only whitespace and stops at a non-whitespace character |
| Text.TrimEmpty | src/App.tsx:91 | A trimmed text is empty exactly when every character is whitespace |
| Text.KeepAlnum | src/utils/pdfGenerator.ts:236 | Removing non-alphanumerics leaves only letters and digits and never lengthens the text |
| Text.KeepAlnumAppend | src/utils/pdfGenerator.ts:236 | Cleaning distributes over concatenation |
| Text.KeepAlnumMembers | src/utils/pdfGenerator.ts:236 | A character survives cleaning exactly when it occurs and is a letter or digit |
| Text.KeepAlnumIdentity | src/utils/pdfGenerator.ts:236 | Cleaning an alphanumeric text changes nothing |
| Text.DigitRun | src/App.tsx:129-153 | The digit run is the longest all-digit prefix |
| Text.DigitRunStops | src/App.tsx:129-153 | The digit run of digits followed by a non-digit is those digits |
| Text.ParseIntRoundTrip | src/App.tsx:129-153 | Integer parsing reads back every rendered integer, negative ones included, whatever non-digit text follows |
| Text.NegativeRoundTrip | src/App.tsx:129-153 | Integer parsing reads back a rendered negative integer |
| Text.NegativeParts | src/App.tsx:129-153 | A rendered negative integer is a minus sign followed by digits reading its magnitude |
| Text.NegativeReading | src/App.tsx:129-153 | A minus sign followed by digits reading `m` parses as `-m` |
| Text.DigitsThenRest | src/App.tsx:129-153 | A rendered number followed by a non-digit starts with a digit and its digit run reads the number |
| Text.ParseUnsigned | src/App.tsx:129-153 | Text starting with a digit parses as the value of its digit run |
| Text.ParseNegative | src/App.tsx:129-153 | A minus sign followed by a digit parses as the negated digit run |
| Text.SignedMinus | src/App.tsx:129-153 | After the whitespace, a minus sign negates the digit run that follows it |
| Text.NothingToTrim | src/App.tsx:129-153 | Text that starts with a non-whitespace character is not trimmed |
| Text.DigitChar | src/utils/orderUtils.ts:7-10 | The digit character of `d` is a digit reading `d` |
| Text.Repeat | src/utils/orderUtils.ts:8-9 | A repeat of `k` characters has length `k` and holds only that character |

## Left out

- Tokenizing: the model starts from the token list that the regular
  expression at `src/utils/pdfGenerator.ts:54` produces. The four contours are
  given as chunk lists, and `parseFloat` is replaced by exact reals.
- A missing number, which the source reads as NaN, makes the model's parse
  fail (`None`). The authored contours never lack one, as `ShapeParses` shows.
- Floating-point rounding: all coordinates are exact reals, so for instance
  `293 / 98.5` is exact.
- Every jsPDF call (`lines`, `rect`, `line`, `circle`, `roundedRect`, text,
  fonts, colours, dash patterns, `save`). The model keeps the coordinates each
  call receives, but not the drawing.
- Page 1 of the order document, `drawTable`, `sectionHeader`,
  `drawDimensionArrow`, the scale-check ruler, and the text notes of page 2.
  These are presentation only.
- The SVG and JSX rendering of the preview, including clip paths, textures and
  the drawn buckle.
- Browser storage and JSON: the stored history is a value passed in and
  returned, in one of four shapes. No entry or an empty one loads as the
  empty list. Text that is not JSON makes the parse throw, and the catch in
  `loadOrders` gives the empty list. A JSON value that is not a list is
  returned unchanged; inserting into it or filtering it then throws, which
  `SaveOrder` and `DeleteOrder` model as `None`. A list whose elements are
  not well-formed orders is not distinguished from a list of orders.
- The clock, `Math.random`, `crypto.randomUUID`, `toLocaleDateString` and
  `toISOString`: the year, month index, day, random draw, order id and date
  texts are parameters.
- `formatDate`: its text is the `date` parameter of `OrderHistory.PlaceOrder`.
- The colour, buckle shape and buckle material lookups, and the toast
  messages.
- The starting design in `src/App.tsx:14-23` names fields that `BeltDesign`
  does not have (`buckleId`, `finish`, `style`). The model's default uses the
  fields of `src/types.ts`, with a square antique-brass buckle.
- Pricing is left out: it is constant zero in this version, and its display
  is UI only.
- The option lists, the form components and the order-history panel are UI
  wrappers around the actions above.
- `parseInt` with a `0x` prefix: a typed number field never holds one.
  `IsWhitespace` is the whitespace set of `trim` and `parseInt`: tab to
  carriage return, the byte order mark, the line and paragraph separators and
  the Unicode space separators.
- The waist size is modelled as an integer. The typed inputs always produce
  one, and the buttons add whole inches.
- BeltPreview.HoleScale: requires a non-zero total length. At zero length the
  source divides by zero, which no waist the inputs allow can reach
  (`HolesOnBelt` shows the length is positive from waist 26 up).
- OrderHistory.OrderNumberFormat: stated for years from 10 on, where the year
  renders as at least two digits, and for calendar months and days. The
  digit layout of years below 10 is not stated.
- The mirrored draw with fewer than two segments is modelled, but no authored
  contour reaches that case.
