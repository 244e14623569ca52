# MediVision upload widget and translation server, in Dafny

MediVision is a chest X-ray dashboard. It has two pieces of real logic, and this
project models both.

- **The upload widget** (`components/upload-form.tsx`) is a React component with
  five pieces of state: `isDragging`, `file`, `preview`, `progress` and
  `isUploading`. Its handlers accept one image file by drag-and-drop or with the
  file picker, refuse anything whose media type does not start with `image/`,
  read the file into a preview data URL, and simulate an upload with a 100 ms
  interval that adds 5 to the progress bar until it reaches 100.
  - `UploadModel` (`upload_model.dfy`) is the state machine over values. Its
    `Step` function runs one handler or one browser callback on a `State`.
  - `UploadComponent.UploadForm` (`upload_form.dfy`) is the component as a class.
    Its fields are updated in place, one method per handler. Each method is
    proved to move the object's `Snapshot()` exactly as `Step` does.
  - `removeFile` cancels neither the file read nor the progress interval; only
    the interval's own callback clears it, once progress has reached 100
    (components/upload-form.tsx:72-73). So the state also counts the live
    intervals (`liveIntervals`) and keeps the reads still in flight
    (`pendingReads`). Their callbacks are separate events (`Tick`, `ReadDone`)
    that can arrive at any later point, including after `removeFile`.
- **The translation server** (`server/main.py`) is a FastAPI service.
  - `TranslateEndpoint` (`translate.dfy`) models `translate_image`. It first
    answers 503 if either network is missing, then 400 for an unknown
    `translation_type`. Otherwise it picks `G_AB` or `G_BA` with their labels.
    Any exception inside its `try` block becomes 500. Reading, decoding, running
    the network and encoding are given to it as their outcomes.
  - `GeneratorNet` (`generator_net.dfy`) models `Generator.__init__` and
    `ResnetBlock.__init__`. They are reduced to the list of layers they build and
    the channel counts of those layers. `Flow` follows the channel count through
    the list and fails on any mismatch. `BuildGenerator` keeps the three loops of
    `Generator.__init__`. Each loop gathers its stage's blocks and appends them
    to `model` when it ends, which gives the same list as appending block by
    block. It is proved to take `input_channels` to `output_channels`. Its channel pairs
    run 64 → 128 → 256, stay at 256 through the residual blocks, and come back
    256 → 128 → 64.

Four consequences of the code are worth stating on their own:
- `removeFile` does not cancel a running interval. The interval keeps moving the
  emptied widget's progress up to 100 and clears itself on the tick after that
  (`RemoveDoesNotCancel`, `IntervalsDrain`).
- A read that completes after removal installs a preview while no file is
  selected (`StalePreviewAfterRemove`).
- `isUploading` stays true through the tick that brings progress to 100, and
  only the 21st tick sets it to false (`UploadRunsToCompletion`).
- Every `simulateUpload` starts another interval, so starting, removing the
  file, choosing another and starting again leaves two intervals running (`SimulateStartsInterval`,
  `RestartAfterRemoveRunsTwo`).

## Model

| member | source | states |
|---|---|---|
| UploadModel.Step | components/upload-form.tsx:18-79 | one handler or callback: it keeps the invariant (progress a multiple of 5 within 0..100, `isUploading` only while an interval is live); an event whose callback cannot fire (a tick with no live interval, a read not in flight) changes nothing; warnings are never taken back and at most one read retires per event; a tick never lowers progress that is within 0..100 |
| UploadModel.HandleFile | components/upload-form.tsx:42-57 | an image becomes the selected file and its read joins those in flight, with no warning; anything else adds one warning and leaves file and reads alone; preview, progress, upload flag, highlight and intervals never change |
| UploadModel.RunPreservesValid | components/upload-form.tsx:18-79 | any sequence of events keeps that invariant, from any valid state |
| UploadModel.ReachableIsValid | components/upload-form.tsx:12-16 | every state reachable from the initial `useState` values satisfies the invariant |
| UploadModel.RejectsNonImage | components/upload-form.tsx:44-47 | a file whose type does not start with `image/` raises exactly one warning and leaves every other part of the state unchanged |
| UploadModel.AcceptsImage | components/upload-form.tsx:49-56 | an image becomes the selected file, and a read of exactly that file starts; the preview and everything else stay as they were |
| UploadModel.ReadDoneSetsPreview | components/upload-form.tsx:53-55 | a completed read sets the preview to its own result, retires that read only, and changes nothing else |
| UploadModel.OnlyFirstFileCounts | components/upload-form.tsx:27-40 | drop and file change with a non-empty list depend only on its first file, which goes to `handleFile` |
| UploadModel.EmptyListIgnored | components/upload-form.tsx:31-39 | with no file, file change changes nothing and drop only lowers the highlight |
| UploadModel.DragHighlight | components/upload-form.tsx:18-34 | drag-over sets `isDragging` and drag-leave clears it, touching nothing else; drop clears it and then acts exactly like a file change |
| UploadModel.RemoveResets | components/upload-form.tsx:59-64 | removal clears file and preview, sets progress to 0 and `isUploading` to false, keeps live intervals and pending reads, changes nothing else, and is idempotent |
| UploadModel.RemoveOnEmptyIsNoOp | components/upload-form.tsx:59-64 | removing from an already empty widget changes nothing |
| UploadModel.SimulateStartsInterval | components/upload-form.tsx:66-70 | starting the upload sets `isUploading`, resets progress to 0, starts one more interval and changes nothing else |
| UploadModel.RestartAfterRemoveRunsTwo | components/upload-form.tsx:42-70 | choose image a and start, remove it, choose image b and start again: two intervals are live, the upload flag is set, progress is 0 and b is selected |
| UploadModel.TickEffect | components/upload-form.tsx:70-79 | a tick below 100 adds 5 and nothing else; a tick at 100 or more pins progress at 100, clears its interval, sets `isUploading` to false and changes nothing else |
| UploadModel.TicksAdvance | components/upload-form.tsx:71-77 | while the bar has room, n ticks add exactly 5·n and change nothing else |
| UploadModel.TicksMonotone | components/upload-form.tsx:70-79 | ticks never lower progress, never add intervals, and keep the invariant |
| UploadModel.UploadRunsToCompletion | components/upload-form.tsx:66-79 | after starting, progress reads 5·n after n ≤ 20 ticks with `isUploading` still true; it reaches 100 at tick 20, and only tick 21 sets `isUploading` to false and clears the interval |
| UploadModel.RemoveDoesNotCancel | components/upload-form.tsx:59-79 | after removal a live interval still moves the emptied widget's progress by 5 per tick, up to 100 |
| UploadModel.IntervalsDrain | components/upload-form.tsx:70-79 | left alone, the live intervals deliver exactly `(100 - progress)/5 + liveIntervals` more ticks: some interval is live before that many, none after (0 when none is live) |
| UploadModel.StalePreviewAfterRemove | components/upload-form.tsx:52-64 | a read that completes after removal installs its preview although no file is selected |
| UploadModel.OlderReadFinishesLast | components/upload-form.tsx:42-64 | choosing image a, removing it and choosing image b, with b's read completing first, leaves b selected but a's data URL as the preview |
| UploadModel.PreviewOnlyFromReadOrRemove | components/upload-form.tsx:14-64 | no event other than a completed read or a removal changes the preview |
| UploadComponent.UploadForm.constructor | components/upload-form.tsx:12-16 | the component mounts with every piece of state at its initial value and nothing in flight |
| UploadComponent.UploadForm.HandleDragOver | components/upload-form.tsx:18-21 | the object's new state is the drag-over step of the state machine |
| UploadComponent.UploadForm.HandleDragLeave | components/upload-form.tsx:23-25 | the object's new state is the drag-leave step |
| UploadComponent.UploadForm.HandleDrop | components/upload-form.tsx:27-34 | the object's new state is the drop step, reached by calling `HandleFile` on the first file |
| UploadComponent.UploadForm.HandleFileChange | components/upload-form.tsx:36-40 | the object's new state is the file-change step, reached by calling `HandleFile` on the first file |
| UploadComponent.UploadForm.HandleFile | components/upload-form.tsx:42-57 | the object's new state is `UploadModel.HandleFile` of the old one |
| UploadComponent.UploadForm.PreviewLoaded | components/upload-form.tsx:53-55 | the object's new state is the step of that read's completion |
| UploadComponent.UploadForm.RemoveFile | components/upload-form.tsx:59-64 | the object's new state is the removal step; nothing in flight is cancelled |
| UploadComponent.UploadForm.SimulateUpload | components/upload-form.tsx:66-80 | the object's new state is the start step, with one more live interval |
| UploadComponent.UploadForm.IntervalTick | components/upload-form.tsx:70-79 | the object's new state is the tick step of one live interval |
| GeneratorNet.LayerFlow | server/main.py:11-72 | a convolution accepts exactly its `in_channels` and yields its `out_channels`; a norm accepts exactly its feature count; ReLU and tanh accept anything; a residual block accepts only its own width, and only if its convolutions give that width back; nothing but a convolution changes the width |
| GeneratorNet.ResnetConvBlock | server/main.py:14-20 | the residual block's convolutions carry `channels` channels to `channels`, reject every other width, and have the pairs (channels, channels) twice |
| GeneratorNet.ResnetBlock | server/main.py:11-23 | `ResnetBlock(channels)` is a residual layer of that width that accepts exactly `channels` channels and returns that many, so the skip addition is well formed |
| GeneratorNet.FlowAppend | server/main.py:29-76 | following the channels through `a + b` is following them through `a`, then through `b` |
| GeneratorNet.FlowChains | server/main.py:29-76 | if a layer list carries c channels through to d, its channel pairs chain from c to d, each layer's input being the previous layer's output |
| GeneratorNet.ResidualRunPreserves | server/main.py:49-50 | any run of residual blocks of one width keeps that width, with one (c, c) pair per block |
| GeneratorNet.ConvNormReluFlow | server/main.py:39-45 | a convolution from i to o channels, then its norm and ReLU, carries i channels to o with the single pair (i, o) |
| GeneratorNet.GeneratorChannels | server/main.py:26-76 | the generator's layer list, stage by stage, carries `input_channels` to `output_channels`, chains every layer to the next, has exactly the pairs (in, 64), (64, 128), (128, 256), (256, 256) per residual block, (256, 128), (128, 64), (64, out), and has 17 + the number of blocks layers |
| GeneratorNet.BuildGenerator | server/main.py:26-76 | the loops build exactly that stage-by-stage list (a negative block count building none), so the built list takes `input_channels` to `output_channels` with every adjacent layer matching; its pairs are (in, 64), (64, 128), (128, 256), then (256, 256) once per residual block, then (256, 128), (128, 64), (64, out); its length is 17 + the number of blocks |
| TranslateEndpoint.SelectDirection | server/main.py:178-185 | `G_AB` is chosen exactly for "normal_to_pneumonia", labelled normal → pneumonia; otherwise `G_BA`, labelled pneumonia → normal; source and target always differ |
| TranslateEndpoint.SuccessMessage | server/main.py:194 | the message is "Translated ", the source label, " to ", the target label: its length is 15 plus the labels' lengths, and the prefix, both labels and " to " each sit at their fixed positions |
| TranslateEndpoint.TranslateImage | server/main.py:162-199 | 503 exactly when a network is missing; 400 exactly when both are loaded and the type is unknown; success exactly when the guards pass and every stage succeeds, with the message "Translated <source> to <target>" and the encoded image; every error is 400, 500 or 503 |
| TranslateEndpoint.UnloadedCheckedFirst | server/main.py:168-169 | with a network missing the answer is 503 "Models not loaded yet", whatever the type and the upload |
| TranslateEndpoint.UnknownTypeRejected | server/main.py:171-172 | with both loaded, an unknown type is 400 "Invalid translation type", whatever the upload |
| TranslateEndpoint.FailureInsideTryIs500 | server/main.py:174-199 | a failure in reading, decoding, translating or encoding is 500 with "Error: " and the exception's text |
| TranslateEndpoint.NormalToPneumoniaUsesGAB | server/main.py:178-196 | "normal_to_pneumonia" runs `G_AB` and answers "Translated normal to pneumonia" with its image |
| TranslateEndpoint.PneumoniaToNormalUsesGBA | server/main.py:182-196 | "pneumonia_to_normal" runs `G_BA` and answers "Translated pneumonia to normal" with its image |
| TranslateEndpoint.MessageIdentifiesDirection | server/main.py:193-194 | the two known types give different success messages |

## Left out

- Rendering (the JSX of `components/upload-form.tsx`) is not modelled. So the
  handlers can be called in any state, even though the page shows the drop zone
  only while no file is selected.
- `e.preventDefault()`, the text of the `alert`, and the data-URL contents of a
  read are browser-supplied. They appear as nothing, a warning count, and an
  opaque string passed to the completion event.
- The 100 ms period of `setInterval` is not modelled. Time is modelled only as
  discrete `Tick` events, one per firing of some live interval. The live
  intervals are counted but not told apart, because their callbacks are
  identical.
- A missing file list (`null`) is modelled as the empty list. Both make drop and
  file change skip `handleFile`.
- React's scheduling of state updates is not modelled. The model applies each
  handler's and callback's updates at once, in order. The tick's
  `clearInterval` and `setIsUploading(false)` run inside the `setProgress`
  updater, which React may run later, at the next render. So a handler that
  runs in between can be overtaken: a stale tick at 100 followed by a click
  on "Process X-ray" may end with `isUploading` false and progress 0, while
  the model's `Tick` then `Simulate` gives `isUploading` true.
- The file-size display uses floating-point division and formatting, so it is
  not modelled.
- `ResnetBlock.forward`, `Generator.forward`, `preprocess_image` and
  `generate_from_image` are tensor arithmetic. They appear only through the
  outcome that `TranslateImage` receives.
- `startup_event` loads models from the filesystem. It appears only as the two
  "loaded" flags that `TranslateImage` receives.
- The FastAPI app, CORS, `read_root`, `await file.read()`, `Image.open`, PNG
  saving and base64 encoding are I/O and library calls. They appear only as
  their outcome or are not modelled.
- `GeneratorNet.LayerFlow` requires `InstanceNorm2d`'s feature count to match
  the incoming channels. Torch enforces this only for affine norms.
  `LayerFlow`'s channel check states the intended chain.
- `components/dashboard-nav.tsx`, `components/simple-featured-content.tsx` and
  the `app/` pages are layout with no state worth modelling.
