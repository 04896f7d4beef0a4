# MobileSAM pipeline in Dafny

This project models the Unity wrapper around MobileSAM, a two-stage image segmentation network. An image encoder turns a picture into an embedding. A prompt decoder turns the embedding plus point prompts into masks. The model covers three parts of the wrapper.

- **Preprocessing transforms** (`transforms.dfy`).
  - `GetPreprocessShape` resizes an image so that its longest side becomes the encoder input size `IMG_SIZE = 1024`, rounding each side half-up.
  - `ApplyCoords` copies a prompt-coordinate array and scales every x by `newW / origW` and every y by `newH / origH`.
  - `ApplyImage` passes the new width and height to the texture transform.
- **The `MobileSAM` pipeline** (`mobilesam.dfy`, with the shared parts in `decoding.dfy`).
  - A class-wide encoder/decoder cache, filled lazily from the resource store.
  - The `Backend` setter, which tears the workers down and rebuilds them only when the value changes.
  - `InitializeNetwork`. It stops early when a model is missing. Otherwise it replaces the cached encoder by a compiled graph that multiplies input 0 by 255.
  - `DecodeMasks`. It checks the point count against the label count, fills the six decoder input slots in a fixed order, runs the decoder and sizes the result texture from the `masks` output.
  - `Dispose`.
- **The older `MobileSAMPredictor`** (`predictor.dfy`). It has the same shape, with three differences:
  - its getters import the model again on every access;
  - the decoder is fed a string-keyed dictionary that is cleared and refilled;
  - it also owns a tensor allocator and an operator object, which `Dispose` releases.

The inference runtime (Unity Sentis) is modelled in `sentis.dfy` as opaque handles. A model is an object carrying the graph it was built from. A tensor is a shape plus what is known of its contents. A worker records what it was asked to execute and whether it was disposed. `wrappers.dfy` holds `Option`, `Result` and `Outcome`.

How source features are represented:

- **Static fields.** The class-wide static fields of each pipeline class become one `ModelCache` object, passed to the constructor. C# statics are shared by every instance; in the model that sharing holds when callers pass all instances the same cache object, and the x255 stacking then carries across instances as well.
- **Resource store.** `Resources.Load` is a lookup in a map that is fixed when the cache is made.
- **Model loading.** `ModelLoader.Load` allocates a new `Model` object. This makes object identity show whether a getter returned the same model or a reloaded one.
- **Encoder wrapping.** The functional graph built around the encoder is the graph constructor `InputScaled(255, inner)`.
- **Prompt arguments.** `DecodeMasks` throws away its prompt arguments and always uses the image centre with label 1. So its tail, from the count check to the result texture, is modelled on its own as `DecodePrompt` for an arbitrary prompt. That is where the `ArgumentException` path can be reached. `DecodeMasks` is the centre prompt followed by `DecodePrompt`.
- **Decoder output.** The `masks` tensor the decoder produces is a parameter.
- **Fresh tensors.** `new Tensor<float>(new TensorShape(1, 1, 256, 256))` in `MobileSAM` is assumed to be zero-filled, as the predictor's `TensorFloat.Zeros` is explicitly; both are modelled as `Zeros`.

The model follows the code as written, including these behaviours, which differ from what the original SAM pipeline does:

- **Argument order.** `orig_im_size` is passed as `[width, height]`; the SAM ONNX decoder's input description asks for `(height, width)`.
- **The count check truncates.** It compares `|coords| / 2` with the label count, so an odd number of coordinates passes (`OddCoordinateCountPassesCheck`).
- **Coordinates are not rescaled.** The prompt reaches the decoder in original pixels; nothing calls `ApplyCoords` before decoding.
- **No state machine.** Nothing checks that an image was encoded first or that the object is still live. Box and mask prompts are accepted and ignored.
- **A backend change keeps the cache.** It leaves the model cache in place. In `MobileSAM` every such change wraps the encoder in one more x255 stage (`ReinitStacksScaling`). The predictor's `InitializeNetwork` wraps nothing: its x255 is an `_ops.Mul` applied to each image inside `EncodeImage`, so no stage accumulates, and `ReinitKeepsImported` proves the plain imported graphs stay.

## Model

| member | source | states |
|---|---|---|
| ArrayUtils.Copy | com.doji.mobilesam/Runtime/Scripts/Utils/Transforms.cs:51-56 | a new array of the same length, equal element by element to the source |
| Transforms.GetPreprocessShape | com.doji.mobilesam/Runtime/Scripts/Utils/Transforms.cs:42-47 | computes the new sides with `ResizedSide` and returns them positionally as (newH, newW); its properties are proved by `GetPreprocessShapeRoundsHalfUp` and `LongestSideBecomesLongSideLength` |
| Transforms.GetPreprocessShapeRoundsHalfUp | com.doji.mobilesam/Runtime/Scripts/Utils/Transforms.cs:42-46 | each new side is the floor of `oldSide * (L / max(oldW, oldH)) + 1/2`; the element named `width` carries the new height and the one named `height` the new width |
| Transforms.ResizedSideRoundsHalfUp | com.doji.mobilesam/Runtime/Scripts/Utils/Transforms.cs:43-45 | the integer formula for one side equals the float expression `(int)(side * scale + 0.5)` taken over the reals |
| Transforms.QuotientBounds | com.doji.mobilesam/Runtime/Scripts/Utils/Transforms.cs:44-45 | the truncating quotient used for the casts is the unique q with `d*q <= a < d*q + d` |
| Transforms.ResizedSideBounds | com.doji.mobilesam/Runtime/Scripts/Utils/Transforms.cs:43-45 | a side no longer than the longest resizes into [0, L], and the longest side resizes to exactly L |
| Transforms.LongestSideBecomesLongSideLength | com.doji.mobilesam/Runtime/Scripts/Utils/Transforms.cs:42-46 | for non-negative sides, not both zero, the larger new side is L, both lie in [0, L], the longer old side maps to L, and a square maps to L on both sides |
| Transforms.ApplyImageDimensions | com.doji.mobilesam/Runtime/Scripts/Utils/Transforms.cs:20-22 | `SetDimensions` gets the resized width then the resized height, the longer of which is `IMG_SIZE` |
| Transforms.ScaleCoords | com.doji.mobilesam/Runtime/Scripts/Utils/Transforms.cs:32-37 | the coordinates `ApplyCoords` produces: `ScaleAxes` with factors `newW / origW` and `newH / origH`; `ApplyCoords` is proved equal to it, and `ScaleAxesPair`, `ScaleCoordsEmpty`, `ScaleCoordsMapsCorners` and `ScaleCoordsStaysInside` state its properties |
| Transforms.ApplyCoords | com.doji.mobilesam/Runtime/Scripts/Utils/Transforms.cs:29-40 | returns a fresh array equal to `ScaleCoords` of the input; the caller's array is not modified |
| Transforms.ScaleInPlace | com.doji.mobilesam/Runtime/Scripts/Utils/Transforms.cs:34-37 | the stride-2 loop leaves each even element multiplied by `sx` and each odd element by `sy` |
| Transforms.ScaleAxesPair | com.doji.mobilesam/Runtime/Scripts/Utils/Transforms.cs:35-36 | in pair p, index 2p is the x scaled by `sx` and index 2p+1 the y scaled by `sy` |
| Transforms.ScaleCoordsEmpty | com.doji.mobilesam/Runtime/Scripts/Utils/Transforms.cs:34-39 | no coordinates in, none out |
| Transforms.ScaleCoordsMapsCorners | com.doji.mobilesam/Runtime/Scripts/Utils/Transforms.cs:32-37 | the corners (0,0), (w,0), (0,h), (w,h) of the original image map to (0,0), (newW,0), (0,newH), (newW,newH); the helper `AxisScaleEdge` supplies `w * (n / w) == n` |
| Transforms.ScaleCoordsStaysInside | com.doji.mobilesam/Runtime/Scripts/Utils/Transforms.cs:32-37 | an x in [0, origW] maps into [0, newW] and a y in [0, origH] into [0, newH] |
| Transforms.ScaleAxesStaysInside | com.doji.mobilesam/Runtime/Scripts/Utils/Transforms.cs:35-36 | per-axis factors `nw/w` and `nh/h` map [0,w] x [0,h] into [0,nw] x [0,nh] |
| Sentis.Stacked255Scale | com.doji.mobilesam/Runtime/Scripts/MobileSAM.cs:93-97 | k x255 stages around an imported graph scale input 0 by 255^k |
| Sentis.CompileInputScaled | com.doji.mobilesam/Runtime/Scripts/MobileSAM.cs:93-97 | a fresh model whose graph multiplies input 0 by the factor and then runs the given model |
| Decoding.ValidatePrompt | com.doji.mobilesam/Runtime/Scripts/MobileSAM.cs:156-160 | the count check: `|coords| / 2` against the label count, giving the point count or the `ArgumentException`; characterised by `ValidatePromptAccepts` |
| Decoding.ValidatePromptAccepts | com.doji.mobilesam/Runtime/Scripts/MobileSAM.cs:156-160 | the check passes iff there are 2n or 2n+1 coordinates for n labels, gives n on success, and otherwise throws the label-mismatch `ArgumentException` |
| Decoding.CentrePrompt | com.doji.mobilesam/Runtime/Scripts/MobileSAM.cs:153-154 | one point at half the width and half the height, with label 1 |
| Decoding.CentrePromptValid | com.doji.mobilesam/Runtime/Scripts/MobileSAM.cs:153-160 | the centre prompt always passes the count check with one point, so `DecodeMasks` never throws |
| Decoding.DecoderInputs | com.doji.mobilesam/Runtime/Scripts/MobileSAM.cs:162-173 | the six decoder inputs in slot order, with N = `|coords| / 2`; `DecoderInputsMeetContract` proves they meet the decoder contract, `OddCoordinateCountPassesCheck` shows where they do not |
| Decoding.DecoderInputsMeetContract | com.doji.mobilesam/Runtime/Scripts/MobileSAM.cs:162-173 | with two coordinates per label, the six slots meet the decoder contract: embeddings, (1,N,2), (1,N), (1,1,256,256) zeros, `[0]`, and `[width, height]` |
| Decoding.OddCoordinateCountPassesCheck | com.doji.mobilesam/Runtime/Scripts/MobileSAM.cs:156-162 | three coordinates with one label pass the check, yet the coordinate tensor then holds 3 values for a (1,1,2) shape |
| Decoding.NamedInputs | Packages/com.doji.mobilesam/Runtime/Scripts/MobileSAMPredictor.cs:186-192 | the six inputs keyed by their names; `NamedInputsByName` and `NamesDistinct` prove the keys are exactly the six distinct names, each mapped to its slot |
| Decoding.NamedInputsByName | Packages/com.doji.mobilesam/Runtime/Scripts/MobileSAMPredictor.cs:186-192 | the dictionary's keys are exactly the six input names, each mapped to its slot's tensor |
| Decoding.NamesDistinct | Packages/com.doji.mobilesam/Runtime/Scripts/MobileSAMPredictor.cs:187-192 | the six input names are pairwise distinct, so none overwrites another |
| MobileSam.LazyGet | com.doji.mobilesam/Runtime/Scripts/MobileSAM.cs:9-21 | the asset is looked up only while unknown; a held model is kept; a model is imported only when none is held and the asset exists; with no asset the model is unchanged |
| MobileSam.LazyGetIdempotent | com.doji.mobilesam/Runtime/Scripts/MobileSAM.cs:9-21 | a second get changes nothing, so repeated gets return the same model |
| MobileSam.InitNetwork | com.doji.mobilesam/Runtime/Scripts/MobileSAM.cs:85-97 | the cache slots `InitializeNetwork` leaves, given what the resource store holds; characterised by `InitNetworkBuildsIffBothModels` and, iterated, by `ReinitStacksScaling` |
| MobileSam.InitNetworkBuildsIffBothModels | com.doji.mobilesam/Runtime/Scripts/MobileSAM.cs:85-100 | workers are built iff both getters yield a model; if the encoder is missing the decoder is not touched; when built, the encoder gains one x255 stage |
| MobileSam.ReinitStacksScaling | com.doji.mobilesam/Runtime/Scripts/MobileSAM.cs:45-54 | from an empty cache with both assets present, the k-th initialisation leaves the encoder with k x255 stages, so input 0 is scaled by 255^k |
| MobileSam.ModelCache.Encoder | com.doji.mobilesam/Runtime/Scripts/MobileSAM.cs:9-21 | the cache slot follows `LazyGet` of what the resource store holds under `ONNX/mobilesam.encoder` (`ResourcesLoad`, a map lookup standing in for `Resources.Load`); a held model object is kept; any new model is fresh; the decoder fields are untouched |
| MobileSam.ModelCache.Decoder | com.doji.mobilesam/Runtime/Scripts/MobileSAM.cs:25-37 | the same getter for the decoder path, with the encoder fields untouched |
| MobileSam.MobileSam.constructor | com.doji.mobilesam/Runtime/Scripts/MobileSAM.cs:81-83 | CPU backend, six empty slots, no result, then the state `InitializeNetwork` leaves |
| MobileSam.MobileSam.InitializeNetwork | com.doji.mobilesam/Runtime/Scripts/MobileSAM.cs:85-106 | the cache follows `InitNetwork`; when it builds, fresh workers on the current backend run the cached models and a 1024x1024 target is allocated; otherwise the workers and the target are kept |
| MobileSam.MobileSam.BuildWorkers | com.doji.mobilesam/Runtime/Scripts/MobileSAM.cs:93-101 | the cached encoder is replaced by its x255 wrapping, the decoder is kept, and both workers are fresh and live |
| MobileSam.MobileSam.SetBackend | com.doji.mobilesam/Runtime/Scripts/MobileSAM.cs:45-55 | an equal value changes nothing; a different one disposes the old workers, keeping what they were asked to run, sets the backend and re-initialises |
| MobileSam.MobileSam.DecodePrompt | com.doji.mobilesam/Runtime/Scripts/MobileSAM.cs:156-181 | throws exactly when the count check fails, and then touches nothing; otherwise the six slots hold `DecoderInputs` in order, the decoder is scheduled once on them, and the result is `MaskTexture(masks)`: height from mask dimension 2, width from dimension 3 |
| MobileSam.MobileSam.DecodeMasks | com.doji.mobilesam/Runtime/Scripts/MobileSAM.cs:143-183 | never throws; the slots hold the inputs for the centre prompt whatever prompt was passed; the decoder is scheduled once; the result is `MaskTexture(masks)` |
| MobileSam.MobileSam.Dispose | com.doji.mobilesam/Runtime/Scripts/MobileSAM.cs:187-190 | each existing worker is disposed; a missing one is skipped |
| Predictor.ReloadGet | Packages/com.doji.mobilesam/Runtime/Scripts/MobileSAMPredictor.cs:11-23 | the asset is looked up only while unknown; whenever the asset exists the model is the imported graph; otherwise the model is unchanged |
| Predictor.ReloadReplacesWhatLazyKeeps | Packages/com.doji.mobilesam/Runtime/Scripts/MobileSAMPredictor.cs:18-20 | a reloading get replaces a held model by the imported graph, where the lazy getter keeps it |
| Predictor.InitNetwork | Packages/com.doji.mobilesam/Runtime/Scripts/MobileSAMPredictor.cs:89-98 | the cache slots `InitializeNetwork` leaves, each getter running twice once both models exist; characterised by `InitNetworkBuildsIffBothModels` and, iterated, by `ReinitKeepsImported` |
| Predictor.InitNetworkBuildsIffBothModels | Packages/com.doji.mobilesam/Runtime/Scripts/MobileSAMPredictor.cs:89-98 | handles are built iff both getters yield a model; if the encoder is missing the decoder is not touched; nothing wraps the encoder |
| Predictor.ReinitKeepsImported | Packages/com.doji.mobilesam/Runtime/Scripts/MobileSAMPredictor.cs:47-57 | with both assets present, any number of initialisations leaves the plain imported graphs |
| Predictor.ModelCache.Encoder | Packages/com.doji.mobilesam/Runtime/Scripts/MobileSAMPredictor.cs:11-23 | the slot follows `ReloadGet` of what the resource store holds under `ONNX/mobilesam.encoder` (`ResourcesLoad`); whenever the asset is known the returned model is a fresh object; without it the model is unchanged |
| Predictor.ModelCache.Decoder | Packages/com.doji.mobilesam/Runtime/Scripts/MobileSAMPredictor.cs:27-39 | the same getter for the decoder path `ONNX/sam_onnx_example` |
| Predictor.MobileSamPredictor.constructor | Packages/com.doji.mobilesam/Runtime/Scripts/MobileSAMPredictor.cs:85-87 | CPU backend, an empty dictionary, no result, then the state `InitializeNetwork` leaves |
| Predictor.MobileSamPredictor.InitializeNetwork | Packages/com.doji.mobilesam/Runtime/Scripts/MobileSAMPredictor.cs:89-107 | the cache follows `InitNetwork`; when it builds, fresh workers, a fresh allocator and fresh ops on the current backend exist; otherwise all four handles are kept |
| Predictor.MobileSamPredictor.BuildWorkers | Packages/com.doji.mobilesam/Runtime/Scripts/MobileSAMPredictor.cs:97-102 | each getter runs once more and yields a fresh model, which the new worker runs |
| Predictor.MobileSamPredictor.CreateOps | Packages/com.doji.mobilesam/Runtime/Scripts/MobileSAMPredictor.cs:99-100 | a fresh live allocator, and fresh live ops on the current backend that use it |
| Predictor.MobileSamPredictor.SetBackend | Packages/com.doji.mobilesam/Runtime/Scripts/MobileSAMPredictor.cs:47-57 | an equal value changes nothing; a different one disposes all four handles, keeping what the old workers ran, sets the backend and re-initialises |
| Predictor.MobileSamPredictor.DecodePrompt | Packages/com.doji.mobilesam/Runtime/Scripts/MobileSAMPredictor.cs:174-200 | throws exactly when the count check fails, and then touches nothing; otherwise the dictionary is exactly the six named inputs, the decoder executes it once, and the result is `MaskTexture(masks)`: height from mask dimension 2, width from dimension 3 |
| Predictor.MobileSamPredictor.DecodeMasks | Packages/com.doji.mobilesam/Runtime/Scripts/MobileSAMPredictor.cs:161-202 | never throws; the dictionary holds the centre-prompt inputs whatever prompt was passed; the decoder executes it once; the result is `MaskTexture(masks)` |
| Predictor.MobileSamPredictor.Dispose | Packages/com.doji.mobilesam/Runtime/Scripts/MobileSAMPredictor.cs:204-210 | each existing encoder, decoder, allocator and ops is disposed; missing ones are skipped |

## Left out

- `EncodeImage` and `PredictMasks`: these are texture-to-tensor conversion and worker execution inside the runtime. The embeddings and the decoder's `masks` output are parameters. The predictor's `EncodeImage` also multiplies the input by 255 through its `Ops` object (MobileSAMPredictor.cs:122); that multiplication is not modelled.
- `ApplyImage`'s texture conversion (`TextureTransform`, `ToTensor`, `Reshape`/`Squeeze`) is not modelled. Only the dimensions it sets are (`ApplyImageDimensions`). The source never calls `Transforms` from the pipeline, so the module stands alone.
- The network graphs, tensor contents produced by networks, `TextureConverter.ToTexture` pixels and the `RenderTexture` contents are not modelled. Only their sizes are.
- Logging (`Debug.Log`, `Debug.LogError`) produces no modelled effect.
- Tensor disposal by `using` blocks and tensor lifetimes are not modelled, nor the tensors the predictor leaves undisposed.
- Floats are modelled exactly, over integers and reals. Float rounding of `scale` and of the coordinate products could differ near a .5 tie.
- The source recomputes the coordinate factors on every pass of the loop. The model computes each factor once, which gives the same value.
- `NormalizeDepth` and the `box`, `maskInput`, `multimaskOutput` and `returnLogits` parameters are never read. They are left out.
- The null-prompt fallback (`?.` and `?? 0`) is unreachable, because the prompt is overwritten before it is read.
- `MobileSam.MobileSam.DecodePrompt` and `DecodeMasks` require a decoder worker. Calling them before a successful initialisation dereferences null in the source, and that exception is not modelled. They also require a `masks` output of rank at least 4, as the decoder graph produces.
- `Predictor.MobileSamPredictor.DecodePrompt` and `DecodeMasks` carry the same two requirements for the same reasons.
- What the tensor constructor does when the data length differs from the shape is not modelled. `OddCoordinateCountPassesCheck` shows the input that would reach it.
- `Transforms.GetPreprocessShape` accepts a zero side but requires the longer side to be positive. When both sides are zero, `Math.Max` is zero and the float division gives a non-finite scale whose cast is not modelled.
- `Transforms.ApplyCoords`, `XScale` and `YScale` require both sides positive. A zero side divides by zero in `newW / origSize.width`, giving a non-finite factor, and that is not modelled.
- `Transforms.ApplyCoords` requires an even length. An odd length indexes past the end in the source, and that exception is not modelled.
- Concurrency: none in the source. Unity's single-threaded object model is assumed.
