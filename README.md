# Personal website core, modelled in Dafny

The site has three parts worth modelling.

- **The MNIST page.** A visitor draws a digit on a 280 x 280 black stage. On each pointer move the page takes a snapshot and sends it to a web worker, tagged with a job counter. The worker averages 10 x 10 blocks down to 28 x 28 and runs the layers of a trained network one after another. It posts every layer's output and then the predicted digit. The page shows five chosen layer outputs: three convolution layers as grids of feature maps and two dense layers as scaled strips. Pressing Clear wipes the strokes, blanks the display and advances the counter, so answers to older jobs are dropped.
- **The resume.** A build script turns what its regular expressions capture from the resume page into a plain-text resume. It collapses spaces in the summary, dedupes and sorts the coursework, cleans up job bullets, fills in default education fields, joins project descriptions and formats contact details. It then lays the sections out with fixed separators. On the page itself, ticking specialisations selects a duplicate-free list of courses.
- **The theme.** The stored theme mode is validated and selects a palette. The mode is then written back to storage.

## Layout

- Shared pieces:
  - `wrappers.dfy`: `Option`.
  - `protocol.dfy`: snapshots, tensors, layers and the messages in both directions.
  - `js_array.dfy`: `[...new Set]`, `filter`, `join` and `indexOf`.
  - `js_sort.dfy`: the default string `sort`.
  - `raster.dfy`: min/max scaling and the picture a canvas shows.
- MNIST core:
  - `prediction_worker.dfy`: the worker.
  - `job_dispatcher.dfy`: the page's job counter, stale filter and display slots.
  - `stroke_capture.dfy`: the drawing canvas.
  - `conv2d_layer.dfy` and `dense_layer.dfy`: the two visualisers.
  - `pipeline.dfy`: page and worker together.
- Resume and theme:
  - `resume_text.dfy`: the text generator.
  - `coursework_selection.dfy`: the course picker.
  - `theme.dfy`: theme mode and palette.

Where the code changes state in place (the worker's model slot, the page's refs and state, the Konva layer, the canvases), the model is a class. Each method's `ensures` ties the new state to a pure step function, and the step functions carry the lemmas. Loops in the source are loops in the model.

Two behaviours of the code worth stating:

- The worker has no per-layer cancellation check. The loop at src/workers/prediction.worker.ts:68-71 never looks at job ids. An abandoned job is therefore still computed and posted, and only the page's filter (src/pages/MNIST.tsx:49) drops it.
- `init` posts `modelReady` every time, including when a model is already loaded (src/workers/prediction.worker.ts:13-15). Only the loading is skipped.

## Model

| member | source | states |
|---|---|---|
| Protocol.Encode | src/pages/MNIST.tsx:99 | a predict request reaches the worker as an object with `type` "predict" and both `data` and `jobId` keys present; `init` has type "init" |
| PredictionWorker.IsWorkerMessage | src/workers/prediction.worker.ts:32-48 | non-objects and null are rejected, `init` is always accepted, `predict` is accepted exactly when both `data` and `jobId` keys are present, and any other type is rejected |
| PredictionWorker.PageRequestsAreWorkerMessages | src/workers/prediction.worker.ts:32-48 | every request the page sends passes the worker's shape check |
| PredictionWorker.RowSum | src/workers/prediction.worker.ts:20-21 | a run of k red bytes sums to between 0 and 255k |
| PredictionWorker.BlockSum | src/workers/prediction.worker.ts:21 | a 10-wide, k-high block sums to between 0 and 2550k |
| PredictionWorker.Cell | src/workers/prediction.worker.ts:21-22 | a block mean of red bytes divided by 255 lies in [0, 1] |
| PredictionWorker.Downsample | src/workers/prediction.worker.ts:18-24 | a 280 x 280 frame gives 784 values; entry 28i+j is the mean red value of block (i, j) divided by 255; every entry is in [0, 1] |
| PredictionWorker.Forward | src/workers/prediction.worker.ts:67-71 | one output per layer |
| PredictionWorker.ForwardChain | src/workers/prediction.worker.ts:68-71 | the first output is the first layer applied to the input, and each later output is its layer applied to the previous output |
| PredictionWorker.ForwardPrefix | src/workers/prediction.worker.ts:68-71 | running the first n layers gives the first n outputs of the full run |
| PredictionWorker.RunLayers | src/workers/prediction.worker.ts:64-71 | the loop's `outputs` equal `Forward(layers, input)`, and `x` is the last output (or the input when there are no layers) |
| PredictionWorker.ArgMax | src/workers/prediction.worker.ts:78 | an index of a maximal entry, the first such index |
| PredictionWorker.FirstRow | src/workers/prediction.worker.ts:78 | the first row along the last axis exists exactly when the shape is nonempty and its last extent is positive and fits the values; it is that prefix of the values |
| PredictionWorker.InvalidMessageIgnored | src/workers/prediction.worker.ts:50-53 | a message that fails the check changes nothing, loads nothing and posts nothing |
| PredictionWorker.InitNeverReloads | src/workers/prediction.worker.ts:7-16 | `init` with a model present keeps it, does not load and posts `modelReady` |
| PredictionWorker.InitTwice | src/workers/prediction.worker.ts:7-16 | two `init`s on a fresh worker load once and post `modelReady` twice |
| PredictionWorker.PredictNeedsModelAndData | src/workers/prediction.worker.ts:62 | a predict without a model or with falsy data posts nothing and leaves the model unchanged |
| PredictionWorker.PredictPostsActivationsThenPrediction | src/workers/prediction.worker.ts:61-84 | an accepted predict posts activations (one per layer, in order) and then the prediction, both tagged with the request's jobId; the digit indexes a maximal entry of the first row of the final output |
| PredictionWorker.Worker.constructor | src/workers/prediction.worker.ts:5 | the worker starts with no model and no posts |
| PredictionWorker.Worker.LoadModelAndWeights | src/workers/prediction.worker.ts:7-16 | the model slot and posts change as `Respond` says for `init` |
| PredictionWorker.Worker.Predict | src/workers/prediction.worker.ts:61-84 | the posts grow by `PredictReplies` for the frame and job; the model stays |
| PredictionWorker.Worker.OnMessage | src/workers/prediction.worker.ts:50-87 | the new model slot, the new posts and the load count are those of `Respond` |
| JobDispatcher.Mounted | src/pages/MNIST.tsx:30-44 | the page starts with counter 0, loading, nothing shown and one `init` sent |
| JobDispatcher.ClearAdvancesAndBlanks | src/pages/MNIST.tsx:79-88 | Clear adds one to the counter and blanks the prediction and all five slots, leaving loading and sent alone |
| JobDispatcher.DrawSendsCurrentTag | src/pages/MNIST.tsx:90-100 | while loading, or without a 2D context, nothing happens; otherwise one predict is sent with the current counter and nothing else changes |
| JobDispatcher.StaleResultDropped | src/pages/MNIST.tsx:49-51 | a result whose jobId differs from the counter leaves the page unchanged |
| JobDispatcher.ModelReadyAccepted | src/pages/MNIST.tsx:53-55 | `modelReady` passes the filter whatever the counter and only ends loading |
| JobDispatcher.CurrentActivationsFill | src/pages/MNIST.tsx:56-67 | current activations that are not an array change nothing; an array with at least 16 entries fills slots 3, 6, 9, 13 and 15; a shorter one fills the slots up to the first index past its end |
| JobDispatcher.CurrentPredictionShown | src/pages/MNIST.tsx:68-70 | a current prediction is shown, and nothing else changes |
| JobDispatcher.CounterCountsClears | src/pages/MNIST.tsx:80 | after any run of events the counter has grown by exactly the number of Clears |
| JobDispatcher.ReadyStaysReady | src/pages/MNIST.tsx:54 | once ready, the page never goes back to loading |
| JobDispatcher.SentTagsNeverAhead | src/pages/MNIST.tsx:99 | no predict sent carries a tag above the current counter, and requests are only appended |
| JobDispatcher.SupersededResultDropped | src/pages/MNIST.tsx:49-51 | after at least one Clear, any result tagged with the older counter is dropped |
| JobDispatcher.Dispatcher.constructor | src/pages/MNIST.tsx:30-44 | the fields are those of `Mounted` |
| JobDispatcher.Dispatcher.HandleClear | src/pages/MNIST.tsx:79-88 | the fields are those of `Cleared`, and the drawing canvas ends up with no strokes |
| JobDispatcher.Dispatcher.HandleDraw | src/pages/MNIST.tsx:90-100 | the fields are those of `Drawn` |
| JobDispatcher.Dispatcher.OnMessage | src/pages/MNIST.tsx:46-72 | the fields are those of `Delivered`, with the slot writes stopping at the first index past the data |
| StrokeCapture.HandlerFor | src/components/DrawingCanvas.tsx:147-153 | mouse down and touch start start a stroke; mouse move and touch move extend it; mouse up, mouse leave and touch end finish it |
| StrokeCapture.WithoutLines | src/components/DrawingCanvas.tsx:68 | only rectangles remain, every rectangle is kept, and a leading rectangle stays first |
| StrokeCapture.Line.constructor | src/components/DrawingCanvas.tsx:99-106 | a line holds the given points |
| StrokeCapture.Canvas.constructor | src/components/DrawingCanvas.tsx:28-46 | a mounted canvas holds only the black 280 x 280 background; not drawing, no current line, no callbacks |
| StrokeCapture.Canvas.MouseDown | src/components/DrawingCanvas.tsx:92-110 | the drawing flag is raised even without a pointer; with a pointer on a mounted stage a fresh line with the point twice becomes current and is added last |
| StrokeCapture.Canvas.MouseMove | src/components/DrawingCanvas.tsx:112-128 | while drawing with a pointer and a current line, only that line gains the point and `onDraw` is called once; otherwise nothing changes |
| StrokeCapture.Canvas.MouseUp | src/components/DrawingCanvas.tsx:130-138 | only while drawing: the flag drops, the current line is forgotten and `onDrawEnd` is called when given; the strokes stay |
| StrokeCapture.Canvas.Clear | src/components/DrawingCanvas.tsx:64-71 | every line is destroyed, the background stays first, and the flag, the current ref and the callbacks are unchanged |
| Raster.Min | src/components/Conv2DLayer.tsx:24 | the least entry: it occurs and no entry is smaller |
| Raster.Max | src/components/Conv2DLayer.tsx:25 | the greatest entry: it occurs and no entry is larger |
| Raster.MinMaxScaled | src/components/Conv2DLayer.tsx:24-26 | a nonconstant list scales into [0, 1], with 0 exactly at its minima and 1 exactly at its maxima |
| Conv2DLayer.Columns | src/components/Conv2DLayer.tsx:43 | a missing or zero wrap limit falls back to the number of feature maps |
| Conv2DLayer.GroupFeatureMaps | src/components/Conv2DLayer.tsx:42-52 | the rows laid end to end are 0 .. featureMaps-1; every row is nonempty, all but the last are full and the last is not over full; no rows exactly when there are no maps; the row count lies between the ceiling bounds |
| Conv2DLayer.RowBounds | src/components/Conv2DLayer.tsx:44-52 | with n feature maps, the rows hold more than (rows - 1) full rows and at most rows full rows |
| Conv2DLayer.RowCountIsCeiling | src/components/Conv2DLayer.tsx:44-52 | the number of rows is ceil(featureMaps / columns) |
| Conv2DLayer.ConcatLength | src/components/Conv2DLayer.tsx:44-52 | well-formed rows hold (rows - 1) * columns plus the last row's length |
| Conv2DLayer.ChannelMap | src/components/Conv2DLayer.tsx:16-23 | channel k as an H x W map takes entry p * C + k of the activation for every pixel p |
| Conv2DLayer.MapImage | src/components/Conv2DLayer.tsx:22-28 | the panel shows an H x W picture in [0, 1], 0 exactly at the channel's minima and 1 exactly at its maxima |
| Conv2DLayer.Conv2DPanels.constructor | src/components/Conv2DLayer.tsx:55-64 | one untouched canvas per feature map |
| Conv2DLayer.Conv2DPanels.Draw | src/components/Conv2DLayer.tsx:16-30 | every canvas k shows channel k of the activation, scaled |
| Conv2DLayer.Conv2DPanels.FillBlack | src/components/Conv2DLayer.tsx:32-38 | every canvas is filled black |
| Conv2DLayer.Conv2DPanels.Render | src/components/Conv2DLayer.tsx:14-40 | with activations every canvas k shows channel k scaled; without them every canvas is black |
| DenseLayer.LayerDims | src/components/DenseLayer.tsx:22-25 | only a missing width or height falls back, to the neuron count and to 1 |
| DenseLayer.InitialSize | src/components/DenseLayer.tsx:59-60 | a zero or missing size prop gives 10 pixels, otherwise ten per cell |
| DenseLayer.Reshape | src/components/DenseLayer.tsx:31 | rows x cols grid whose cell (y, x) is entry y * cols + x |
| DenseLayer.ReshapeRoundTrip | src/components/DenseLayer.tsx:31 | laying the reshaped rows end to end gives the values back |
| DenseLayer.FlattenPrefix | src/components/DenseLayer.tsx:31 | the first k rows laid end to end are the first k * cols values |
| DenseLayer.GuardedScaled | src/components/DenseLayer.tsx:32-40 | every entry lies in [0, 1]; a constant tensor gives all zeros; otherwise min-max scaling with 0 at the minima and 1 at the maxima |
| DenseLayer.DenseCanvas.constructor | src/components/DenseLayer.tsx:58-61 | the canvas starts at the markup size, untouched |
| DenseLayer.DenseCanvas.Render | src/components/DenseLayer.tsx:16-54 | without activations, black at the current size; with them, resized to ten pixels per cell, then the scaled grid when the reshape fits, or the wiped canvas when it throws |
| JsArray.Dedup | src/pages/Resume.tsx:291 | no duplicates, and exactly the elements of the input |
| JsArray.DedupFirstOccurrenceOrder | src/pages/Resume.tsx:291 | elements keep the order of their first occurrences |
| JsArray.Remove | src/pages/Resume.tsx:338 | the value is gone, every other element keeps its multiplicity, and nothing new appears |
| JsArray.RemoveAppend | src/pages/Resume.tsx:338 | filtering distributes over concatenation, keeping relative order |
| JsArray.RemoveAbsent | src/pages/Resume.tsx:338 | filtering out an absent value changes nothing |
| JsArray.JoinSplit | scripts/generateResumeTxt.ts:311 | joining a concatenation puts one separator between the joined halves |
| JsArray.JoinLength | scripts/generateResumeTxt.ts:311 | a join of n strings has their total length plus n - 1 separators |
| JsSort.BelowTotal | scripts/generateResumeTxt.ts:58 | any two different strings are ordered one way and only one way |
| JsSort.BelowTransitive | scripts/generateResumeTxt.ts:58 | the string order is transitive |
| JsSort.SortSorted | scripts/generateResumeTxt.ts:58 | the sorted array is ascending |
| JsSort.Sort | scripts/generateResumeTxt.ts:58 | sorting permutes: same length, same multiset |
| JsSort.SortDistinct | scripts/generateResumeTxt.ts:58 | sorting distinct strings gives a strictly ascending array of exactly the same strings |
| ResumeText.Trim | scripts/generateResumeTxt.ts:21 | no white space at either end |
| ResumeText.TrimKeepsVisible | scripts/generateResumeTxt.ts:21 | trimming removes white space only: the visible characters are kept, in order |
| ResumeText.TrimIsInfix | scripts/generateResumeTxt.ts:21 | the trimmed text is a contiguous piece of the input |
| ResumeText.CollapseSpaces | scripts/generateResumeTxt.ts:20 | no two neighbouring white-space characters, each a plain space, every visible character kept, empty exactly when the input is; a leading white-space run becomes one leading space, otherwise the first character is kept |
| ResumeText.CollapseKeepsWords | scripts/generateResumeTxt.ts:20 | the result splits into the same words as the input, in order: no word is split, merged or dropped |
| ResumeText.CollapseKeepsEnd | scripts/generateResumeTxt.ts:20 | a trailing white-space run becomes one trailing space; otherwise the last character is the input's own |
| ResumeText.TrimKeepsWords | scripts/generateResumeTxt.ts:21 | trimming keeps every word, in order |
| ResumeText.TrimKeepsCollapsed | scripts/generateResumeTxt.ts:19-21 | trimming keeps a collapsed text collapsed |
| ResumeText.Summary | scripts/generateResumeTxt.ts:14-22 | no match gives ""; otherwise no white space at either end, no two consecutive white spaces, the visible characters of the capture and the same words in order |
| ResumeText.UnescapeEscape | scripts/generateResumeTxt.ts:91-93 | the two replacements undo the escaping of quotes in any backslash-free text |
| ResumeText.CleanBullet | scripts/generateResumeTxt.ts:91-94 | a cleaned piece has no white space at either end |
| ResumeText.KeptBulletsShape | scripts/generateResumeTxt.ts:90-98 | every kept bullet is longer than 20 characters and trimmed |
| ResumeText.KeptBulletsStep | scripts/generateResumeTxt.ts:90-98 | one more piece adds its cleaned form to the bullets exactly when that is longer than 20 characters |
| ResumeText.KeptBulletsExactly | scripts/generateResumeTxt.ts:90-98 | a text is kept exactly when it is a cleaned piece longer than 20 characters, and bullets of appended pieces are appended in order |
| ResumeText.LongOnlyAppend | scripts/generateResumeTxt.ts:95-97 | filtering by length keeps input order |
| ResumeText.CleanDescriptions | scripts/generateResumeTxt.ts:86-98 | the loop collects exactly `KeptBullets` of the pieces |
| ResumeText.ExtractJobs | scripts/generateResumeTxt.ts:66-104 | the loop builds `JobsOf` of the matches: every match processed once, in order |
| ResumeText.ExtractJob | scripts/generateResumeTxt.ts:82-100 | one match gives its three fields and the bullets `CleanDescriptions` keeps |
| ResumeText.JobsOfPointwise | scripts/generateResumeTxt.ts:66-104 | one job per match; job i carries match i's company, title and dates and the kept bullets of its pieces |
| ResumeText.OrDefault | scripts/generateResumeTxt.ts:43-46 | a missing or empty capture gives the default, any other gives the capture |
| ResumeText.Coursework | scripts/generateResumeTxt.ts:55-58 | duplicate-free, strictly ascending, and exactly the set of captured course names |
| ResumeText.EducationOf | scripts/generateResumeTxt.ts:42-62 | the school is the capture when it matched; the other fields fall back to their fixed defaults; the coursework is `Coursework` of the names |
| ResumeText.NothingMatchedGivesDefaults | scripts/generateResumeTxt.ts:42-46 | with no match at all the record is the five defaults and no coursework |
| ResumeText.JoinNothing | scripts/generateResumeTxt.ts:150-153 | joining with "" concatenates in order |
| ResumeText.ProjectDescriptionInOrder | scripts/generateResumeTxt.ts:150-153 | a description is "" without pieces, and otherwise the first piece followed by the rest in order |
| ResumeText.ExtractProjects | scripts/generateResumeTxt.ts:131-165 | one project per match, in order, its description the pieces concatenated |
| ResumeText.FormatPhone | scripts/generateResumeTxt.ts:227-230 | well-formed digit groups give a 14-character number |
| ResumeText.ParsePhone | scripts/generateResumeTxt.ts:227 | only a text of the shape (ddd) ddd-dddd is accepted |
| ResumeText.PhoneRoundTrip | scripts/generateResumeTxt.ts:227-230 | formatting well-formed groups and parsing them back gives the groups; parsing and formatting gives the text back |
| ResumeText.FindFrom | scripts/generateResumeTxt.ts:217 | the first occurrence at or after a start, or none at all |
| ResumeText.ReplaceFirst | scripts/generateResumeTxt.ts:217 | with a string pattern only the first occurrence is replaced; no occurrence leaves the text alone |
| ResumeText.LocationSpelledOut | scripts/generateResumeTxt.ts:215-218 | a location without "Hts" is unchanged; otherwise its first "Hts" becomes "Heights" |
| ResumeText.ExtractContactInfo | scripts/generateResumeTxt.ts:191-251 | without a profile section, all fields are empty; with one, each field is empty or formatted from its capture (location spelled out, phone formatted, the linkedin and github prefixes, the fixed website) |
| ResumeText.BulletsAppend | scripts/generateResumeTxt.ts:284-286 | bullet lines of a concatenation are each part's lines, in order |
| ResumeText.BulletsSingle | scripts/generateResumeTxt.ts:285 | each item gives one "- item" line |
| ResumeText.CourseworkBlockWhenNonempty | scripts/generateResumeTxt.ts:282-288 | the "Relevant Coursework" block is empty exactly when there is no coursework |
| ResumeText.JobBlockEndsLine | scripts/generateResumeTxt.ts:294-299 | a job's lines are never empty and end with a newline |
| ResumeText.ExperienceSeparation | scripts/generateResumeTxt.ts:293-304 | appending a job adds its block after one newline: one empty line between consecutive jobs and none after the last |
| ResumeText.ProjectsSeparation | scripts/generateResumeTxt.ts:317-325 | appending a project adds its block after one newline: one empty line between consecutive projects and none after the last |
| ResumeText.ProjectBlockEndsLine | scripts/generateResumeTxt.ts:318-320 | a project's lines end with a newline |
| ResumeText.SkillBlocksAppend | scripts/generateResumeTxt.ts:309-312 | each category contributes its own block, in entry order |
| ResumeText.AppendBullets | scripts/generateResumeTxt.ts:284-286 | the loop appends exactly the bullet lines |
| ResumeText.AppendJob | scripts/generateResumeTxt.ts:294-299 | one job's title, company, dates and bullets |
| ResumeText.AppendExperience | scripts/generateResumeTxt.ts:291-304 | the loop appends the heading, the job blocks separated by newlines, and one closing newline |
| ResumeText.AppendSkills | scripts/generateResumeTxt.ts:307-312 | the heading, then each category followed by its joined list and an empty line |
| ResumeText.AppendProjects | scripts/generateResumeTxt.ts:315-325 | the heading, the project blocks separated by newlines, and one closing newline |
| ResumeText.AppendHeader | scripts/generateResumeTxt.ts:258-266 | the name and the six contact lines, then an empty line |
| ResumeText.AppendSummary | scripts/generateResumeTxt.ts:269-271 | the summary under its heading, then an empty line |
| ResumeText.AppendEducation | scripts/generateResumeTxt.ts:274-288 | the five education lines, then the coursework block only when there is coursework |
| ResumeText.AppendDiplomas | scripts/generateResumeTxt.ts:328-332 | the diplomas as bullet lines under their heading |
| ResumeText.GenerateResumeTxt | scripts/generateResumeTxt.ts:254-335 | the output is the seven sections in order, each built from what the extractors return |
| CourseworkSelection.FlatMapMembers | src/pages/Resume.tsx:291 | a course is in the flat map exactly when a selected specialisation lists it |
| CourseworkSelection.SelectedCourses | src/pages/Resume.tsx:291 | the shown courses have no duplicates |
| CourseworkSelection.SelectedCoursesExactly | src/pages/Resume.tsx:291 | a course is shown exactly when a selected specialisation lists it, in the order of first occurrence |
| CourseworkSelection.CourseLineShownIffSelected | src/pages/Resume.tsx:317 | the course line is rendered exactly when some specialisation is ticked |
| CourseworkSelection.InitialSelectionShown | src/pages/Resume.tsx:279 | the initial selection [1, 2, 4, 6] is valid and shows courses |
| CourseworkSelection.Toggle | src/pages/Resume.tsx:338 | ticking appends the index at the end and keeps the rest; unticking removes every copy and keeps the multiplicity of the rest |
| CourseworkSelection.UntickKeepsOrder | src/pages/Resume.tsx:338 | unticking keeps the other entries in their relative order |
| CourseworkSelection.TickUntickRoundTrip | src/pages/Resume.tsx:338 | ticking an unticked box and unticking it again restores the selection |
| CourseworkSelection.ToggleKeepsRange | src/pages/Resume.tsx:332-338 | toggling a checkbox's own index keeps every option a valid specialisation |
| Theme.ModeName | src/context/ThemeContext.tsx:120 | a mode is stored as "light" or "dark" |
| Theme.ValidThemeMode | src/context/ThemeContext.tsx:38-41 | "light" gives light; anything else, missing included, gives dark |
| Theme.ModeNameRoundTrip | src/context/ThemeContext.tsx:38-41 | a stored mode name reads back as that mode; any other string, or nothing, is dark |
| Theme.PersistThenRead | src/context/ThemeContext.tsx:119-122 | after the effect writes the mode, reading it gives the mode back, and other stored entries are untouched |
| Theme.ReloadKeepsMode | src/context/ThemeContext.tsx:38-43 | reloading the page keeps the mode it read the first time |
| Theme.PaletteFor | src/context/ThemeContext.tsx:44-66 | the palette's mode is the theme mode |
| Theme.PaletteColours | src/context/ThemeContext.tsx:47-58 | dark: primary main #90caf9, background #121212; light: #1976d2 and #f5f5f5; primary dark #1565c0 in both; the streak colour is shared |
| Theme.ModesDiffer | src/context/ThemeContext.tsx:48 | the primary main colour tells the modes apart, and avatars wear it (line 95) |
| Theme.EffectMode | src/context/ThemeContext.tsx:119-122 | the effect stores and sets the same mode it rendered with |
| Pipeline.AnswerApplied | src/pages/MNIST.tsx:46-72 | delivering a current job's answer fills the slots from the activations and shows the worker's digit |
| Pipeline.ScenarioDrawAndShow | src/pages/MNIST.tsx:90-100 | once ready, a drawn frame is sent as job 0 and its answer appears in full |
| Pipeline.StaleRepliesDropped | src/pages/MNIST.tsx:49-51 | any number of results tagged with another job leave the page unchanged |
| Pipeline.PredictRepliesTagged | src/workers/prediction.worker.ts:76-79 | every post answering a request carries its tag |
| Pipeline.ScenarioClearBeforeAnswer | src/pages/MNIST.tsx:79-88 | a Clear before the answer arrives drops the answer, and the page stays blank with counter 1 |
| Pipeline.ScenarioLaterFrameWins | src/pages/MNIST.tsx:56-70 | two answers under one job: the later one's digit and layers are shown |
| Pipeline.ScenarioPredictBeforeModel | src/workers/prediction.worker.ts:62 | a predict before the model is loaded posts nothing |

## Left out

- TensorFlow.js internals: layers are uninterpreted functions on tensors. `avgPool`, `reshape`, `slice`, `unstack`, `resizeNearestNeighbor` and `browser.draw` appear only in what they decide: shapes, which values are read, and which panel shows what.
- Floating point: values are reals. float32 rounding, NaN and infinities are not modelled.
- Conv2DLayer.Conv2DPanels.Render: requires every rendered channel to have a nonzero range. In the source a constant channel divides by zero and draws NaN.
- DenseLayer.DenseCanvas.Render: requires a tensor with at least one axis. A scalar would make the neuron count undefined; the page always passes `[1, n]` tensors.
- DenseLayer.DenseCanvas.Render and Conv2DLayer.Conv2DPanels.Render: assume the canvas refs are attached. The early returns on missing refs and on a missing 2D context are not modelled.
- Asynchrony and transport:
  - `postMessage` is modelled as in-order delivery.
  - Worker termination on unmount is not modelled.
  - The `await` points inside one worker handler are treated as atomic. Two `init`s that race while the first load is pending are therefore not modelled.
  - `requestAnimationFrame` is not modelled.
- The live preview (`updatePreview`), pointer-to-canvas coordinate mapping and Konva's rendering and batching are not modelled. A pointer position is an input, or `None` when there is no preview canvas.
- The Clear button's `disabled` attribute while loading is left to the markup. `handleClear` itself is modelled without that guard.
- The jobId typing mismatch is not modelled. The worker's interface declares `jobId` a string, but the page sends a number and compares it with `!==`. The model uses integers throughout.
- Regular-expression matching in the resume script: every extractor takes its capture groups as inputs.
- `extractSkills` and `extractDiplomasAndCertifications`: taken as already extracted. Their categories and items enter `GenerateResumeTxt` as inputs.
- File reading and writing, console output and `process.exit` in the resume script are not modelled.
- ResumeText.Coursework and JsSort.Sort: the order is over Unicode code points. JavaScript compares UTF-16 code units, which differs only for characters outside the Basic Multilingual Plane. Lengths (`length > 20`) are likewise counted in code points.
- ResumeText.UnescapeEscape: stated for texts without backslashes. With other backslash sequences the two replacements are still modelled exactly as written, but no round trip is claimed.
- `localStorage`: the storage is a map passed in and returned. The React state hooks and context of the theme provider are not modelled. The typography settings and the mode-independent component styles are not modelled.
- Other files (artwork, projects, routing, the ASCII animation, build configuration) are outside this model.
