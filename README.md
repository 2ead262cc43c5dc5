# caffe image transforms: the decision logic, modelled in Dafny

This project models the decision logic of caffe's data-augmentation transforms in
`src/caffe/util/im_transforms.cpp`. That logic decides what the OpenCV calls
receive. The pixel kernels themselves (colour conversions, blurs, resampling,
warps) are treated as opaque. The model covers:

- the weighted die `roll_weighted_die`, used as a Bernoulli gate `[1 - p, p]`, as a
  fair coin, and as a uniform choice among interpolation modes (`WeightedDie`);
- the fill-value normalisation shared by the pad value and the salt-and-pepper
  values: one value or one per channel, a single value replicated (`FillValues`);
- the resize policy (`ResizePolicy`):
  - the output size of each resize mode (`InferNewSize`);
  - the remap of a normalised bounding box through its setters
    (`UpdateBBoxByResizePolicy`, a class with a method);
  - the integer size and border arithmetic of `AspectKeepingResizeAndPad` and
    `AspectKeepingResizeBySmall`;
  - the parameter handling of `ApplyResize`;
- the border-peeling crop `is_border` / `CropMask` on a byte grid, with its loops
  as loops (`CropMask`);
- the posterisation lookup table of `colorReduce`, filled by a loop into an
  array (`Posterize`);
- the in-place salt-and-pepper writer `constantNoise` on a 3-D byte array, and
  the setup of its count and fill colour (`SaltPepper`);
- the effect schedules: which gates roll, which draws they consume, and which
  effects run in which order. This covers `ApplyNoise` (`NoiseChain`),
  `ApplyDistort` (`Distortion`, with its gate lemmas in `DistortionGates`) and
  the quadrilateral construction of `ApplyGeometry` (`Geometry`).

Random numbers are inputs. Every `caffe_rng_uniform` draw is a unit value `t` in
[0, 1], placed on [lo, hi] as `lo + t * (hi - lo)`. `roll_weighted_die` takes
its draw from the same stream. The `caffe_rng_rand` draws of `constantNoise`
come as a separate sequence of pairs. C++ `float` is modelled as `real`, and
`floor` / `static_cast<int>` on non-negative values as `.Floor`. `LOG(FATAL)` and
`CHECK` failures become `Err` results of the `Common.Error` kinds. Reads the
source leaves undefined become preconditions: `roll_weighted_die` on an empty
vector, three pad values read on a 1-channel image, and `val[0]` of an empty
fill vector.

Two behaviours of the code differ from what the parameters' descriptions
suggest; the model follows the code:

- A channel reorder on an image without three channels is fatal
  (`CHECK_EQ` at line 715), not a pass-through (`Distortion.ShuffleNeedsThreeChannels`).
- Salt-and-pepper noise with `fraction = 1` does not in general overwrite every
  pixel, because positions are drawn with replacement
  (`SaltPepper.HitsAtMostWrites`, `SaltPepper.RepeatedDrawLeavesPixel`).

Two OpenCV preconditions decide failures that the file does not spell out,
and the model makes them errors:

- `cvtColor` to HSV accepts 3 or 4 channels and produces 3. A firing saturation
  (factor other than 1 +- 0.001) or hue (non-zero shift) on another channel
  count is fatal (`NotColourImage`). After it the image has 3 channels.
- `cv::resize` refuses a target size with no pixels. FIT_LARGE_SIZE_AND_PAD can
  truncate the content extent to 0 (`EmptyResize`).

## Model

| member | source | states |
|---|---|---|
| WeightedDie.LowerBound | src/caffe/util/im_transforms.cpp:35-37 | the index is the first whose running total is not below the draw, or the length |
| WeightedDie.RollInRange | src/caffe/util/im_transforms.cpp:33-37 | a draw on [0, total] never passes the last running total, so `lower_bound` finds a face |
| WeightedDie.Roll | src/caffe/util/im_transforms.cpp:28-38 | the face is a valid index and the smallest one whose running total reaches the draw scaled to the total |
| WeightedDie.RollWeightedDie | src/caffe/util/im_transforms.cpp:28-38 | the partial-sum loop followed by the binary search shows the face `Roll` specifies |
| WeightedDie.LowerBoundSearch | src/caffe/util/im_transforms.cpp:35-37 | binary search over an ordered running total finds `LowerBound` |
| WeightedDie.NonNegativeWeightsSorted | src/caffe/util/im_transforms.cpp:30-31 | non-negative weights give an ordered running total, as `lower_bound` needs |
| WeightedDie.GateFires | src/caffe/util/im_transforms.cpp:448-452 | the die `[1 - p, p]` shows 1 exactly when the draw exceeds `1 - p`, for every `p >= 0` |
| WeightedDie.Gate | src/caffe/util/im_transforms.cpp:730-734 | a gate fires exactly when the draw exceeds `1 - p` |
| WeightedDie.FairCoin | src/caffe/util/im_transforms.cpp:774-781 | the coin `{0.5, 0.5}` shows 1 exactly when the draw exceeds one half |
| WeightedDie.UniformChoice | src/caffe/util/im_transforms.cpp:364-367 | the uniform die over n faces selects face i exactly when `t * n` lies in (i, i + 1] |
| FillValues.FillValues | src/caffe/util/im_transforms.cpp:390-405 | accepted exactly for zero, one or one-per-channel values; every channel receives its value, or the single value replicated |
| FillValues.ReplicateFillValues | src/caffe/util/im_transforms.cpp:554-570 | the copy-then-push loop yields what `FillValues` specifies |
| Common.BorderFor | src/caffe/util/im_transforms.cpp:349-362 | each pad mode selects its OpenCV border; an unknown one is the only error |
| ResizePolicy.InferNewSize | src/caffe/util/im_transforms.cpp:100-126 | WARP and FIT_LARGE_SIZE_AND_PAD keep the configured size; FIT_SMALL_SIZE keeps the configured dimension on the relatively narrower axis and sets the other to the truncated aspect-kept value (`floor(width / aspect)` or `floor(aspect * height)`), never below its configured one; unknown mode is fatal |
| ResizePolicy.UpdateBBoxByResizePolicy | src/caffe/util/im_transforms.cpp:40-98 | the setters leave the box the remap specifies; WARP and FIT_SMALL_SIZE only clamp it to [0, 1]; an unknown mode leaves it untouched and is fatal |
| ResizePolicy.WarpAndFitSmallSizeOnlyClamp | src/caffe/util/im_transforms.cpp:54-89 | under WARP and FIT_SMALL_SIZE every min coordinate becomes max(0, c) and every max coordinate min(1, c) |
| ResizePolicy.BoxPaddingBounds | src/caffe/util/im_transforms.cpp:61-71 | the padding is non-negative, leaves a positive unpadded extent, and that extent is the aspect-kept size of the input |
| ResizePolicy.FitLargeSizeAndPadClampsOtherAxis | src/caffe/util/im_transforms.cpp:60-78 | FIT_LARGE_SIZE_AND_PAD only clamps the axis it does not pad |
| ResizePolicy.PaddedEdgeInverts | src/caffe/util/im_transforms.cpp:60-78 | on the padded axis a coordinate c in [0, 1] maps to `(padding + c * inner) / dim`, lies in [padding / dim, 1 - padding / dim], and is recovered by the inverse map |
| ResizePolicy.PaddedEdgesUnclamped | src/caffe/util/im_transforms.cpp:64-74 | inside [0, 1] neither clamp of the padded axis acts |
| ResizePolicy.PaddedMaxLeavesUnitRange | src/caffe/util/im_transforms.cpp:67-68 | as written, a 200 x 100 input padded into 100 x 100 with ymax 1.8 gets ymax 1.15, outside [0, 1] |
| ResizePolicy.CorrectedPaddedMaxInsideContent | src/caffe/util/im_transforms.cpp:67-74 | clamped at the unpadded extent, the max coordinate stays below `1 - padding / dim`, and agrees with the code for c <= 1 |
| ResizePolicy.CorrectedBBoxMaxWithinUnit | src/caffe/util/im_transforms.cpp:40-98 | the corrected remap keeps every max coordinate at most 1, and equals the code's on boxes already within 1 |
| ResizePolicy.PadLayoutFits | src/caffe/util/im_transforms.cpp:268-295 | content plus borders equal the configured size on both axes; one axis keeps its configured extent, the other the truncated aspect-kept one; the borders are split floor / rest on one axis only |
| ResizePolicy.PaddingAgreement | src/caffe/util/im_transforms.cpp:281-290 | the integer border of the image resize lies at most half a pixel below, and less than half a pixel above, the real padding of the box remap |
| ResizePolicy.ResizedSizeIsInferred | src/caffe/util/im_transforms.cpp:297-314 | the aspect-keeping resizes produce exactly the size `InferNewSize` predicts |
| ResizePolicy.PadValue | src/caffe/util/im_transforms.cpp:390-407 | no values give zero; one value is replicated; several give the first three; a rejected count is fatal |
| ResizePolicy.ChooseInterp | src/caffe/util/im_transforms.cpp:364-389 | without configured modes the interpolation is linear; otherwise it is the configured mode i for which `t * n` lies in (i, i + 1], the face the uniform die selects (`UniformPick`) |
| ResizePolicy.ApplyResizeOutcome | src/caffe/util/im_transforms.cpp:341-425 | fails exactly on an unknown pad mode, an unknown drawn interpolation, a rejected pad-value count, or FIT_LARGE_SIZE_AND_PAD content truncated to no pixels; an unknown resize mode gives the empty image; otherwise the size is `InferNewSize`'s, the border and pad value those of the configuration, and the interpolation the mode the uniform die selects |
| ResizePolicy.ThinInputCannotBePadded | src/caffe/util/im_transforms.cpp:276-279 | a 1000 x 1 input fitted into 10 x 10 is resized to 0 rows, and the resize fails |
| ResizePolicy.ApplyResize | src/caffe/util/im_transforms.cpp:341-425 | the checks in the source's order, then the size of the chosen resize; its outcome is stated by `ApplyResizeOutcome` |
| ResizePolicy.UpdatedBBox | src/caffe/util/im_transforms.cpp:40-98 | the box remap of each mode; stated by `UpdateBBoxByResizePolicy`, `WarpAndFitSmallSizeOnlyClamp`, `FitLargeSizeAndPadClampsOtherAxis` and `PaddedEdgeInverts` |
| ResizePolicy.PadLayout | src/caffe/util/im_transforms.cpp:268-295 | the content size and the four borders of FIT_LARGE_SIZE_AND_PAD; stated by `PadLayoutFits` and `PaddingAgreement` |
| ResizePolicy.SmallSideSize | src/caffe/util/im_transforms.cpp:297-314 | the size of FIT_SMALL_SIZE; stated by `ResizedSizeIsInferred` |
| CropMask.IsBorder | src/caffe/util/im_transforms.cpp:129-137 | the nested loop answers true exactly when every pixel of the region has the colour |
| CropMask.Probe | src/caffe/util/im_transforms.cpp:155-157 | taking a region succeeds exactly when it lies inside the image, and then reports whether it is uniform |
| CropMask.CountBorders | src/caffe/util/im_transforms.cpp:146-158 | the count is at most the number of edges, and succeeds exactly when every edge lies inside the image |
| CropMask.CountBordersAll | src/caffe/util/im_transforms.cpp:146-162 | all edges count exactly when all are uniform |
| CropMask.PeelBottomStopsAtContent | src/caffe/util/im_transforms.cpp:165-171 | the bottom loop drops only uniform rows and stops at a row that is not uniform |
| CropMask.PeelRightStopsAtContent | src/caffe/util/im_transforms.cpp:173-179 | the right loop drops only uniform columns and stops at one that is not |
| CropMask.PeelTopKeepsBottomEdge | src/caffe/util/im_transforms.cpp:181-188 | the top loop keeps `y + height`, drops only uniform rows and stops at one that is not |
| CropMask.PeelLeftKeepsRightEdge | src/caffe/util/im_transforms.cpp:190-197 | the left loop keeps `x + width`, drops only uniform columns and stops at one that is not |
| CropMask.CropMask | src/caffe/util/im_transforms.cpp:142-214 | the probe loop and the four do-while loops compute the window `CropWindow` specifies |
| CropMask.CropWindow | src/caffe/util/im_transforms.cpp:142-214 | the window of `CropMask`: the whole image unless all four edges are uniform, else the peeled window with the margin; stated by `CropWindowWholeUnlessBordered`, `CropWindowInside` and `BlankMaskFails` |
| CropMask.Peeled | src/caffe/util/im_transforms.cpp:164-197 | the four peeling loops in turn; stated by `PeeledInside` and `TopLeftStayInside` |
| CropMask.Pad | src/caffe/util/im_transforms.cpp:199-211 | the margin as written; stated by `PadStaysInside`, `PadKeepsRightEdge` and `PadMarginOneSided` |
| CropMask.PeelBottom | src/caffe/util/im_transforms.cpp:165-171 | the bottom loop as a recursion; stated by `PeelBottomStopsAtContent` and `PeelBottomOfBlankFails` |
| CropMask.PeelRight | src/caffe/util/im_transforms.cpp:173-179 | the right loop as a recursion; stated by `PeelRightStopsAtContent` |
| CropMask.PeelTop | src/caffe/util/im_transforms.cpp:181-188 | the top loop as a recursion; stated by `PeelTopKeepsBottomEdge` |
| CropMask.PeelLeft | src/caffe/util/im_transforms.cpp:190-197 | the left loop as a recursion; stated by `PeelLeftKeepsRightEdge` |
| CropMask.CountProbes | src/caffe/util/im_transforms.cpp:146-158 | the probe loop counts the uniform edges as `CountBorders` does, failing at the first edge outside the image |
| CropMask.PeelBottomLoop | src/caffe/util/im_transforms.cpp:165-171 | the bottom do-while loop computes `PeelBottom` and changes only the height |
| CropMask.PeelRightLoop | src/caffe/util/im_transforms.cpp:173-179 | the right do-while loop computes `PeelRight` and keeps the window's corner |
| CropMask.PeelTopLoop | src/caffe/util/im_transforms.cpp:181-188 | the top do-while loop computes `PeelTop` and keeps `x` |
| CropMask.PeelLeftLoop | src/caffe/util/im_transforms.cpp:190-197 | the left do-while loop computes `PeelLeft` |
| CropMask.CropWindowWholeUnlessBordered | src/caffe/util/im_transforms.cpp:146-162 | an image under two rows or columns fails; otherwise the whole image comes back unless all four probed edges have the colour at (0, 0) |
| CropMask.TopLeftStayInside | src/caffe/util/im_transforms.cpp:181-197 | the top and left loops stop inside the window the right loop left |
| CropMask.PadStaysInside | src/caffe/util/im_transforms.cpp:199-211 | with a non-negative margin the padded window stays inside the image and does not shrink |
| CropMask.PeeledInside | src/caffe/util/im_transforms.cpp:164-197 | on an image at least two columns wide the four loops leave a window inside the image, at least 2 x 1 |
| CropMask.CropWindowInside | src/caffe/util/im_transforms.cpp:142-214 | a returned window lies inside the image and is at least two columns wide and one row high |
| CropMask.PeelBottomOfBlankFails | src/caffe/util/im_transforms.cpp:165-171 | on a single-colour mask the bottom loop reaches row -1, which is refused |
| CropMask.BlankMaskFails | src/caffe/util/im_transforms.cpp:142-214 | a single-colour mask makes `CropMask` fail |
| CropMask.PadKeepsRightEdge | src/caffe/util/im_transforms.cpp:200-208 | as written, when `x` is lowered by the margin the right edge stays where it was |
| CropMask.PadMarginOneSided | src/caffe/util/im_transforms.cpp:199-211 | as written, window (5, 5, 2, 2) in a 10 x 10 mask with margin 2 becomes (3, 3, 4, 4) |
| CropMask.PadCorrected | src/caffe/util/im_transforms.cpp:199-211 | the corrected margin contains the window, stays inside the image, and adds the margin on each side that has room |
| CropMask.CropWindowCorrected | src/caffe/util/im_transforms.cpp:142-214 | with the corrected margin the window fails exactly when the code's does, and lies inside the image |
| CropMask.CorrectedWindowHasMargin | src/caffe/util/im_transforms.cpp:206-208 | with the corrected margin the right edge moves out by the padding whenever the image has room |
| Posterize.ColorReduceTable | src/caffe/util/im_transforms.cpp:219-229 | the loop fills a fresh 256-entry table with `(i / div * div + div / 2) mod 256` |
| Posterize.LutEntry | src/caffe/util/im_transforms.cpp:222-225 | one table entry after the store into a `uchar`; stated by `EntryInOwnBucket`, `NoWrapAtTop` and `WideBucketsWrap` |
| Posterize.Table | src/caffe/util/im_transforms.cpp:220-225 | the 256 entries as a sequence; stated by `LutIdempotent` and `LutMonotone` |
| Posterize.ApplyLut | src/caffe/util/im_transforms.cpp:227 | every byte is replaced by its table entry |
| Posterize.EntryInOwnBucket | src/caffe/util/im_transforms.cpp:223-225 | without wrap-around, entry i is the middle of i's own bucket |
| Posterize.LutIdempotent | src/caffe/util/im_transforms.cpp:219-229 | without wrap-around, looking an entry up again gives the same entry |
| Posterize.LutMonotone | src/caffe/util/im_transforms.cpp:219-229 | without wrap-around the table keeps the order of bytes |
| Posterize.NoWrapAtTop | src/caffe/util/im_transforms.cpp:223-225 | the table wraps exactly when entry 255 does |
| Posterize.PosterizeIdempotent | src/caffe/util/im_transforms.cpp:219-229 | without wrap-around, posterising twice is posterising once |
| Posterize.WideBucketsWrap | src/caffe/util/im_transforms.cpp:223-225 | with div 200 entry 255 wraps to 44, below entry 0 (100) |
| SaltPepper.ConstantNoise | src/caffe/util/im_transforms.cpp:318-339 | every pixel a draw lands on gets the fill colour in every channel; every other pixel, and every pixel of an image with other than 1 or 3 channels, keeps its value |
| SaltPepper.HitsAtMostWrites | src/caffe/util/im_transforms.cpp:318-339 | n writes change at most n pixels |
| SaltPepper.RepeatedDrawLeavesPixel | src/caffe/util/im_transforms.cpp:572-574 | two writes into a 1 x 2 image can miss a pixel although the count is the whole image |
| SaltPepper.NoiseSetup | src/caffe/util/im_transforms.cpp:550-575 | fails exactly on a rejected value count; the count is floor(fraction * cols * rows); the fill colour is the values, replicated when there is one |
| SaltPepper.SetupFeedsNoise | src/caffe/util/im_transforms.cpp:554-575 | the fill colour has an entry per channel exactly when values are configured |
| SaltPepper.ZeroFractionWritesNothing | src/caffe/util/im_transforms.cpp:572-574 | fraction 0 gives no writes |
| NoiseChain.Flags | src/caffe/util/im_transforms.cpp:431-446 | `all_effects` flags every gated effect; otherwise the configured flags |
| NoiseChain.Gates | src/caffe/util/im_transforms.cpp:448-587 | one answer per effect, and exactly one draw per flagged effect |
| NoiseChain.GatesConsumeInOrder | src/caffe/util/im_transforms.cpp:451-587 | effect k fires exactly when it is flagged and the draw after those of the flagged effects before it passes the gate |
| NoiseChain.PlanRuns | src/caffe/util/im_transforms.cpp:451-597 | each operation runs exactly under its condition: its gate, the channel tests, the JPEG quality |
| NoiseChain.PlanOrdered | src/caffe/util/im_transforms.cpp:451-597 | the operations run in the source's order |
| NoiseChain.PlanNoise | src/caffe/util/im_transforms.cpp:554-576 | a running salt-and-pepper operation carries the prepared count and fill colour, and is the only one |
| NoiseChain.ZeroProbabilityIsIdentity | src/caffe/util/im_transforms.cpp:429-430 | `prob == 0` returns the input and uses no draw |
| NoiseChain.ScheduleFollowsGates | src/caffe/util/im_transforms.cpp:428-598 | fails only on a rejected salt-and-pepper count when that gate fires; one draw per flagged effect; operations in order; each runs exactly when its gate fires; JPEG on colour images with a quality set; a firing salt-and-pepper operation carries `NoiseSetup`'s count `floor(fraction * cols * rows)` and replicated fill colour |
| NoiseChain.AllEffectsRollsEveryGate | src/caffe/util/im_transforms.cpp:445-446 | with `all_effects` all ten gates roll |
| NoiseChain.DecolorizeNeverRuns | src/caffe/util/im_transforms.cpp:451-458 | as written, decolorize never runs |
| NoiseChain.ScheduleWith | src/caffe/util/im_transforms.cpp:428-598 | the schedule with the channel count the decolorize test reads as a parameter; stated by `ScheduleFollowsGates` and `ZeroProbabilityIsIdentity` |
| NoiseChain.ApplyNoise | src/caffe/util/im_transforms.cpp:428-598 | the schedule as written, the decolorize test reading 1 channel; stated by `DecolorizeNeverRuns` |
| NoiseChain.ApplyNoiseCorrected | src/caffe/util/im_transforms.cpp:451-458 | the schedule with the decolorize test reading the input's channels; stated by `DecolorizeRunsWhenGateFires` |
| NoiseChain.DecolorizeRunsWhenGateFires | src/caffe/util/im_transforms.cpp:451-458 | corrected, decolorize runs on a colour image exactly when its gate fires |
| Distortion.AdjustInRange | src/caffe/util/im_transforms.cpp:600-688 | a magnitude drawn after the range CHECKs lies in its range |
| Distortion.Steps | src/caffe/util/im_transforms.cpp:881-937 | the adjustments follow the given order, each is flagged and in range, and the draws are one per flagged effect plus one per drawn magnitude; failure is a range CHECK, an HSV conversion of an image with neither 3 nor 4 channels, or a shuffle of a non-3-channel image; accepted ranges on 3 channels never fail; `StepsFailIff` states exactly when it fails |
| DistortionGates.StepsFollowGates | src/caffe/util/im_transforms.cpp:881-937 | effect i runs exactly when it is flagged and the draw at its offset passes the gate `[1 - prob, prob]`; a running adjustment other than the shuffle has the magnitude the next draw gives it |
| Distortion.StepsUseOffset | src/caffe/util/im_transforms.cpp:881-937 | the draws consumed are the offset past the last effect |
| Distortion.StepsUnfold | src/caffe/util/im_transforms.cpp:881-937 | a successful schedule is the first effect's adjustment, if it ran, followed by the schedule of the rest on the remaining draws |
| Distortion.ApplyDistort | src/caffe/util/im_transforms.cpp:863-940 | `prob <= 0` consumes one draw and returns the input; otherwise the first draw selects the order, the adjustments follow it, and one more draw is counted; the failures are those of `Steps`, exactly as `DistortFailIff` states |
| DistortionGates.DistortFollowsGates | src/caffe/util/im_transforms.cpp:863-937 | after the order draw, effect i of the chosen order runs exactly when flagged and its gate draw fires, takes its magnitude from the draw after its gate, and the draws used are 1 plus the offset past the last effect |
| Distortion.SaturationNeedsColourImage | src/caffe/util/im_transforms.cpp:656-672 | a firing saturation with a factor other than 1 on a 1-channel image is fatal |
| Distortion.StepsFailIff | src/caffe/util/im_transforms.cpp:881-937 | the schedule fails exactly when some effect fails: it is flagged, its gate draw fires, and its range is rejected, or it is the shuffle on an image that has not 3 channels at that point, or its magnitude converts colour on one with neither 3 nor 4 |
| Distortion.FailsAtShift | src/caffe/util/im_transforms.cpp:881-937 | a later effect fails in the whole schedule exactly when it fails in the rest, run on the draws and channel count the first effect left |
| Distortion.DistortFailIff | src/caffe/util/im_transforms.cpp:863-937 | `ApplyDistort` fails exactly when an effect of the chosen order fails after the order draw; unflagged effects, closed gates and their ranges never matter |
| Distortion.BrightnessContrastAnyChannels | src/caffe/util/im_transforms.cpp:881-900 | brightness and contrast alone, with accepted ranges, succeed on any channel count and any draws |
| Distortion.EachEffectOnce | src/caffe/util/im_transforms.cpp:881-937 | no adjustment kind runs twice |
| Distortion.NothingFlaggedUsesOneDraw | src/caffe/util/im_transforms.cpp:863-880 | with no effect flagged only the first draw is used |
| Distortion.ShuffleNeedsThreeChannels | src/caffe/util/im_transforms.cpp:709-716 | a firing channel shuffle on a 1-channel image is fatal |
| Geometry.ZoomChoice | src/caffe/util/im_transforms.cpp:770-782 | no zoom unless a zoom flag is set; a coin draw only when both directions are enabled; the chosen direction is enabled |
| Geometry.GeometryWith | src/caffe/util/im_transforms.cpp:725-851 | `prob == 0` is the identity without draws; a gate that does not fire uses one draw; failure is exactly an unknown pad mode (`PadModeUnknown`) or a reversed draw range (`BadRange`) after the gate fires; a firing gate that does not fail warps; the canvas is 3 cols x 3 rows; the input rectangle is zoomed in one enabled direction on both axes and the output quad has the perspective shape; the draw count follows the flags |
| Geometry.InputQuadOutcome | src/caffe/util/im_transforms.cpp:763-811 | the input rectangle is the default one without zoom; otherwise the left and top edges both lie in the range of the one enabled direction the coin picked, mirrored about the canvas centre |
| Geometry.MixedZoomExcluded | src/caffe/util/im_transforms.cpp:774-807 | with both zoom directions enabled, a rectangle zoomed in across and out down is not a possible input rectangle |
| Geometry.InputQuad | src/caffe/util/im_transforms.cpp:763-811 | the zoom choice and the two edge draws; stated by `InputQuadOutcome` |
| Geometry.OutputQuad | src/caffe/util/im_transforms.cpp:816-850 | the two perspective draws; stated by `OutputQuadOutcome` |
| Geometry.ApplyGeometry | src/caffe/util/im_transforms.cpp:725-851 | the transform as written, mirrored about `cols` and `rows`; stated by `GeometryWith`, `StillZoomWidensInput` and `StillPerspectiveStretchesOutput` |
| Geometry.ApplyGeometryCorrected | src/caffe/util/im_transforms.cpp:725-851 | mirrored about the last pixel; stated by `StillFactorsKeepDefaults` and `CorrectedZoomCentred` |
| Geometry.OutputQuadOutcome | src/caffe/util/im_transforms.cpp:816-850 | each perspective moves one corner within its range and mirrors it; every other coordinate keeps its default |
| Geometry.StillZoomWidensInput | src/caffe/util/im_transforms.cpp:805-807 | as written, a zoom of factor 0 moves the right and bottom edges to 2 cols and 2 rows, off the default rectangle |
| Geometry.StillPerspectiveStretchesOutput | src/caffe/util/im_transforms.cpp:826-833 | as written, a perspective of factor 0 puts a corner on row `rows`, off the default output |
| Geometry.StillFactorsKeepDefaults | src/caffe/util/im_transforms.cpp:763-851 | mirrored about the last pixel, zero zoom and perspective factors give back both default rectangles |
| Geometry.CorrectedZoomCentred | src/caffe/util/im_transforms.cpp:770-811 | mirrored about the last pixel, a zoomed rectangle keeps the default centre, and a factor of at most 1 keeps it on the canvas pixels |

## Left out

- OpenCV kernels are opaque, because their source is not part of this model:
  - `cvtColor`, `GaussianBlur`, `equalizeHist`, CLAHE, `erode`, `bitwise_not`;
  - the JPEG `imencode` / `imdecode` round trip;
  - `resize` interpolation, `copyMakeBorder`, `getPerspectiveTransform`, `warpPerspective`;
  - `threshold` and `floodFill`. With them go `fillEdgeImage` and `CenterObjectAndFillBg`.
  The schedules name each of these as an operation.
- `cv::LUT` is modelled as a per-byte lookup on a flat byte sequence (`Posterize.ApplyLut`). The image layout is not modelled.
- The pixel arithmetic of `AdjustBrightness`, `AdjustContrast`, `AdjustSaturation` and `AdjustHue` is left out. It is saturating `convertTo` on floats. The tests that decide whether saturation and hue convert to HSV are modelled on reals (`Distortion.ConvertsColour`); the float rounding of `fabs(delta - 1.f) != 1e-3` is not.
- The random sources are inputs: `caffe_rng_uniform` as unit draws, `caffe_rng_rand` as pairs of naturals.
- The source has a single generator behind both; the model keeps the `caffe_rng_rand` pairs as a separate sequence from the uniform stream.
- The permutation `std::random_shuffle` draws in `RandomOrderChannels` (from `std::rand`) is not modelled. The schedule records only that the shuffle happens.
- IEEE float rounding of the box, aspect and quad arithmetic is not modelled; `real` is an abstraction of `float`.
- SaltPepper.NoiseSetup: takes the salt-and-pepper values as bytes, so the `uchar(float)` conversion of the configured values is not modelled.
- NoiseChain.ScheduleWith: images have 1 or 3 channels. The JPEG decode always yields three channels, so for other counts the channel tests after it would need the decoded image, which is opaque here.
- The `point` argument of `CropMask` is not read by the source and plays no part in the model.
- An empty region handed to `is_border` counts as uniform. OpenCV's behaviour on empty regions is not modelled beyond its inside-the-image check.
- ResizePolicy.PadValue: requires three channels when values are configured. The source reads three entries, which a 1-channel image with one value does not have.
- Geometry.GeometryWith: requires `prob >= 0`. A negative `prob` rolls a die with no faces, which the source leaves undefined. The same holds for `NoiseChain.ScheduleWith` whenever a gated effect is flagged.
- A reversed `caffe_rng_uniform` range is fatal in caffe (its `CHECK_LE`); the model returns `BadRange` for it. The function itself lives outside this file.
- Protobuf parameter classes are plain records, and `LOG` / `CHECK` become error results. The `USE_OPENCV` and version macros are not modelled.

## Findings

| source | as written | input that shows it | evidently intended | confidence | as-written member | corrected member |
|---|---|---|---|---|---|---|
| src/caffe/util/im_transforms.cpp:67-68 | on the padded axis of FIT_LARGE_SIZE_AND_PAD the max coordinate is clamped to the full output extent before the padding is added | a 200 x 100 input into 100 x 100, ymax 1.8: result ymax 1.15 | clamp to the unpadded extent, so the max coordinate stays at most 1 | medium, not executed | ResizePolicy.PaddedMaxLeavesUnitRange | ResizePolicy.CorrectedBBoxMaxWithinUnit |
| src/caffe/util/im_transforms.cpp:453 | decolorize tests the channel count of the still-empty output image, which is never above 1 | any colour image with the decolorize gate firing | test the input image's channel count | high, not executed | NoiseChain.DecolorizeNeverRuns | NoiseChain.DecolorizeRunsWhenGateFires |
| src/caffe/util/im_transforms.cpp:200-208 | the margin lowers `x` by `padding` and then widens by `padding`, so when `x` is lowered the right edge does not move out | window (5, 5, 2, 2) in a 10 x 10 mask, padding 2: result (3, 3, 4, 4) | move the right edge out by `padding` as well, wherever the image has room | medium, not executed | CropMask.PadMarginOneSided | CropMask.CropWindowCorrected |
| src/caffe/util/im_transforms.cpp:805-807 | zoomed corners are mirrored as `3 cols - x0` and `3 rows - y0` (and the perspective corners as `rows - y`, `cols - x`), while the default rectangles end at `2 cols - 1` and `rows - 1` | zoom-in only with zoom_factor 0: the input rectangle becomes (cols, rows)-(2 cols, 2 rows) instead of (cols, rows)-(2 cols - 1, 2 rows - 1) | mirror about the last pixel, `3 cols - 1 - x0`, `rows - 1 - y` | medium, not executed | Geometry.StillZoomWidensInput | Geometry.StillFactorsKeepDefaults |
