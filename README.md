# Photo booth core, modelled in Dafny

This project models the core logic of a browser photo booth (a React and
TypeScript application) and proves properties of that model. The core covers
these parts:

- **Capture screen** (`Camera`): the re-entrancy guard, the five-second
  countdown, the capture procedure and the twenty-second preview.
  - The capture procedure switches the lights on, takes a screenshot,
    composites the overlays, makes a thumbnail, stores the photo and switches
    the lights off.
  - The preview offers retake and cancel.
- **Image utilities** (`ImageProcessor`): the thumbnail size rule, the
  "cover" placement of a photo under an overlay, and the left-to-right fold
  over the enabled overlays that skips failures.
- **Photo store** (`PhotoStore`): prepend with its own thumbnail, delete by
  id, and replace filters by id.
- **Filters**: the ordered CSS filter list (`FilterStyle`), the preset table
  (`FilterPresets`), and the slider and preset handlers of the filter panel
  (`FilterPanel`).
- **Prop layer**: the clamped move, the rotation that wraps at 360 degrees
  and the bounded scale of a placed prop, plus its drag session
  (`DraggableProp`). The editor's prop list and filter write-through
  (`PhotoEditor`).
- **Admin settings store** (`AdminStore`): the recursive `deepMerge` over a
  JavaScript value tree, login and logout.
- **Analytics store** (`AnalyticsStore`): one counter per event type, a
  newest-first history and per-day tallies.
- **Admin panels**: the processing panel (`ImageProcessingPanel`) and the
  virtual-props panel (`PropsSettingsPanel`).
  - The processing panel covers the overlay list, the processing switches
    and the processed/unprocessed gallery filter.
  - The props panel covers the prop catalogue, the file-extension stripping
    and the enable switch.
  - Both panels rebuild a settings section and hand it to the settings store.
- **Print dialog** (`PrintDialog`): the copies stepper bounded to 1..5, and a
  payment that must succeed before anything prints.

**How the model is built**

- **Components and stores.** Those whose state the source updates step by
  step are classes whose methods update fields.
  - For example, `CameraScreen`, `PhotoStore.Store`, `AdminStore.Store`,
    `Editor`, `Dialog` and the two panel classes.
  - The computations they use are functions with lemmas beside them.
- **Timers and promises.** These become events that the environment fires.
  For example, a countdown tick, the capture deadline, a preview tick, or a
  payment settling.
- **The outside world.** Whatever the capture needs from it is a parameter.
  This covers the webcam, the lights, the screenshot, the overlay images,
  the canvas, the clock and ids.
- **Images.** An image is an opaque value with a width and a height. Whether
  it loads is a predicate on it.
- **Settings.** The settings are a tree of JavaScript values (`Json`), so
  that `deepMerge` runs on the same shapes as in the source.
  - Each panel reads its section through a typed decoding of that tree.
  - A round-trip lemma shows that what a panel writes reads back as the
    typed section it meant to write.
  - An installation lemma shows that the other sections stay as they were.

## Model

| member | source | states |
|---|---|---|
| IdLists.Remove | src/store/photoStore.ts:46-48 | no survivor carries the removed id, and the list never grows |
| IdLists.RemoveMembers | src/store/photoStore.ts:46-48 | an element survives exactly when it was present and carries another id |
| IdLists.RemoveAppend | src/components/PhotoEditor.tsx:49-51 | removal distributes over concatenation, so the survivors keep their order |
| IdLists.RemoveAbsent | src/store/photoStore.ts:46-48 | removing an id that no element carries changes nothing |
| IdLists.RemoveIdempotent | src/store/photoStore.ts:46-48 | removing the same id twice equals removing it once |
| ImageProcessor.RoundDiv | src/utils/imageProcessor.ts:17 | `Math.round` of a non-negative quotient: the nearest integer, with halves rounded up |
| ImageProcessor.ThumbnailSize | src/utils/imageProcessor.ts:12-25 | only the longer axis is clamped to its bound, and the other axis is scaled and rounded; an axis within its bound leaves the size unchanged; the result never exceeds the source size and keeps the aspect ratio within rounding |
| ImageProcessor.ShrinkBound | src/utils/imageProcessor.ts:15-24 | scaling by a factor below one and rounding never exceeds the original side |
| ImageProcessor.CreateThumbnail | src/utils/imageProcessor.ts:3-47 | resolves exactly when the image loads and a canvas exists, else rejects with the matching message; the thumbnail is the image redrawn at the computed size: the longer axis clamped to its bound and the other scaled and rounded, or the original size when within bounds; never larger than the image, with the aspect ratio kept within rounding |
| ImageProcessor.CoverFit | src/utils/imageProcessor.ts:74-82 | the scaled photo covers the canvas on both axes, is tight on one axis, keeps the photo's aspect ratio and is centred with non-positive offsets |
| ImageProcessor.ProcessImage | src/utils/imageProcessor.ts:50-107 | succeeds exactly when the photo and the overlay load and a canvas exists; the result has the overlay's size and is the photo composited under the overlay |
| ImageProcessor.Enabled | src/utils/imageProcessor.ts:115 | keeps exactly the enabled overlays; a list whose overlays are all enabled comes back unchanged |
| ImageProcessor.EnabledAppend | src/utils/imageProcessor.ts:115 | filtering distributes over concatenation, so the enabled overlays keep their list order and multiplicity |
| ImageProcessor.ProcessImageWithOverlays | src/utils/imageProcessor.ts:109-130 | the loop's result is the left-to-right fold of `processImage` over the enabled overlays, with failures skipped |
| ImageProcessor.ApplyAllAppend | src/utils/imageProcessor.ts:117-123 | the fold runs left to right: a split list folds the second part over the first part's result |
| ImageProcessor.NoEnabledOverlays | src/utils/imageProcessor.ts:114-125 | with no enabled overlay the original image comes back unchanged |
| ImageProcessor.AllFailing | src/utils/imageProcessor.ts:117-123 | when every overlay fails, the working image carries through unchanged |
| ImageProcessor.ApplyAllLoads | src/utils/imageProcessor.ts:117-125 | the fold never turns a loadable image into one that does not load |
| ImageProcessor.ApplyAllSize | src/utils/imageProcessor.ts:109-125 | the fold's result is the original or has the size of one of the overlays' images |
| FilterStyle.FilterFunctions | src/utils/filters.ts:5-12 | exactly six functions in the order brightness, contrast, saturate, sepia, grayscale, blur; each carries its field, and only blur has the `px` unit |
| FilterStyle.CssAll | src/utils/filters.ts:6-11 | one rendered function per filter, in order |
| FilterStyle.SplitJoin | src/utils/filters.ts:12 | joining parts without spaces by single spaces and splitting again gives the parts back |
| FilterStyle.FilterStyleParts | src/utils/filters.ts:3-13 | the style splits into exactly the six rendered functions in their fixed order, and the preset tag does not affect it |
| FilterPresets.Table | src/utils/filterPresets.ts:3-100 | eight presets with distinct names; Normal is the identity; B&W has saturation 0 and grayscale 1; only Soft blurs, by 1.5; every value is within its slider's range |
| FilterPanel.HandleFilterChange | src/components/PhotoFilters.tsx:12-14 | sets the edited field, keeps the other five and clears the preset tag |
| FilterPanel.FindPreset | src/components/PhotoFilters.tsx:17 | finds the first table entry with the name, or none exactly when no entry has it |
| FilterPanel.HandlePresetChange | src/components/PhotoFilters.tsx:16-20 | no change exactly for a name not in the table; otherwise the result is tagged with the name |
| FilterPanel.FindDistinct | src/components/PhotoFilters.tsx:17 | with distinct names the lookup returns the one entry carrying the name |
| FilterPanel.PresetValues | src/components/PhotoFilters.tsx:16-20 | a known preset replaces all six values with its table entry's values |
| FilterPanel.PresetActiveExactly | src/components/PhotoFilters.tsx:32-40 | after choosing a preset, exactly its button is active |
| FilterPanel.ManualEditDeactivates | src/components/PhotoFilters.tsx:13 | after a slider edit no preset button is active |
| FilterPanel.PresetsWithinSliders | src/components/PhotoFilters.tsx:62-147 | every preset's values lie within the slider ranges |
| FilterPanel.FilterChangeWithinSliders | src/components/PhotoFilters.tsx:62-147 | an in-range slider value keeps all filters within range |
| PhotoStore.WithFilters | src/store/photoStore.ts:49-53 | same length; only the filters of photos with the id change, to the new ones |
| PhotoStore.WithFiltersAbsent | src/store/photoStore.ts:49-53 | an id no photo carries leaves the collection unchanged |
| PhotoStore.WithFiltersOverwrite | src/store/photoStore.ts:49-53 | a second update of the same id wins over the first |
| PhotoStore.Store.constructor | src/store/photoStore.ts:22 | the collection starts empty |
| PhotoStore.Store.AddPhoto | src/store/photoStore.ts:23-45 | the photo goes first with default filters, and the older photos follow in order; it gets a new thumbnail exactly when one can be made, sized by the 400×600 default bounds; otherwise it keeps the one it came with |
| PhotoStore.Store.DeletePhoto | src/store/photoStore.ts:46-48 | the collection loses exactly the photos with the id |
| PhotoStore.Store.UpdatePhotoFilters | src/store/photoStore.ts:49-53 | the collection becomes `WithFilters` of the old one |
| PhotoStore.DeleteAfterAdd | src/store/photoStore.ts:23-48 | deleting the id of a just-added photo removes it together with every older copy of that id |
| DraggableProp.Move | src/components/DraggableProp.tsx:27-41 | only x and y change; each is at least 0 and at most the container minus the prop, when that is non-negative; an in-range target is kept, and one out of range is clamped to the edge |
| DraggableProp.Rem360 | src/components/DraggableProp.tsx:72 | JavaScript's `% 360`: in [0, 360) for a non-negative sum, in (-360, 0] for a negative one, and a whole number of turns from the sum |
| DraggableProp.Rotate | src/components/DraggableProp.tsx:67-75 | only the rotation changes, to the truncating remainder of the sum |
| DraggableProp.Scale | src/components/DraggableProp.tsx:77-86 | only the scale changes; it stays in [0.5, 2], is the sum when that is in range, and otherwise is clamped to the nearer end |
| DraggableProp.QuarterTurn | src/components/DraggableProp.tsx:72 | one +90 press takes each quarter position to the next, and 270 back to 0 |
| DraggableProp.RotatePressesCycle | src/components/DraggableProp.tsx:67-115 | from 0, n presses of the rotate button give 90·(n mod 4) |
| DraggableProp.IncrementalMoves | src/components/DraggableProp.tsx:27-43 | two in-range incremental moves land where one move by the summed delta lands |
| DraggableProp.MoveSettles | src/components/DraggableProp.tsx:31-32 | a clamped position is a fixed point of a zero move |
| DraggableProp.DragSession.constructor | src/components/DraggableProp.tsx:18-20 | no drag, origin (0, 0) |
| DraggableProp.DragSession.MouseDown | src/components/DraggableProp.tsx:61-65 | starts a drag with the cursor as origin |
| DraggableProp.DragSession.MouseMove | src/components/DraggableProp.tsx:23-44 | without a drag or mounted elements, nothing is emitted and the origin stays; otherwise the moved prop is emitted and the origin becomes the cursor |
| DraggableProp.DragSession.MouseUp | src/components/DraggableProp.tsx:46-48 | ends the drag |
| PhotoEditor.NewProp | src/components/PhotoEditor.tsx:30-40 | copies the item's id and url, and places it at (50, 50) with scale 1 and rotation 0 |
| PhotoEditor.ReplaceProp | src/components/PhotoEditor.tsx:45-47 | same length and ids; the props with the updated id become it, and the others stay |
| PhotoEditor.ReplaceAbsent | src/components/PhotoEditor.tsx:46 | an id not on the photo leaves the props unchanged |
| PhotoEditor.ReplaceIdempotent | src/components/PhotoEditor.tsx:46 | replacing twice equals replacing once |
| PhotoEditor.ReplaceThenRemove | src/components/PhotoEditor.tsx:45-51 | removing a replaced prop's id gives what removing it from the original gives |
| PhotoEditor.AddThenRemove | src/components/PhotoEditor.tsx:29-51 | adding a prop with a fresh id and removing that id restores the props |
| PhotoEditor.Editor.constructor | src/components/PhotoEditor.tsx:18-20 | starts from the photo's filters and props (none if it has no list), with the picker closed |
| PhotoEditor.Editor.HandleFilterChange | src/components/PhotoEditor.tsx:24-27 | the editor shows the new filters, and every stored photo with this id carries them |
| PhotoEditor.Editor.HandleAddProp | src/components/PhotoEditor.tsx:29-43 | exactly one new prop at the end, and the picker closes |
| PhotoEditor.Editor.HandlePropChange | src/components/PhotoEditor.tsx:45-47 | the props become `ReplaceProp` of the old ones |
| PhotoEditor.Editor.HandlePropRemove | src/components/PhotoEditor.tsx:49-51 | the props lose exactly those with the id |
| PhotoEditor.Editor.TogglePropSelector | src/components/PhotoEditor.tsx:107-109 | flips the picker only when props are enabled |
| PhotoEditor.Editor.HandleSave | src/components/PhotoEditor.tsx:53-64 | builds the photo record with the editor's props and filters and changes nothing |
| Camera.CountdownStep | src/components/Camera.tsx:58-64 | a number above 1 goes down by one, and 1 or none becomes none |
| Camera.CountdownFromStart | src/components/Camera.tsx:55-65 | from 5 the countdown shows 5 − ticks and is gone after the fifth tick |
| Camera.AnyEnabled | src/components/Camera.tsx:86 | true exactly when some overlay is enabled |
| Camera.HasOverlays | src/components/Camera.tsx:85-86 | true exactly when the list is defined and holds an enabled overlay |
| Camera.OverlayFailuresDoNotBlockCapture | src/components/Camera.tsx:88-102 | with lights, a readable screenshot and a canvas, a photo is stored whatever the overlays do |
| Camera.ProcessedWithoutOverlayDrawn | src/components/Camera.tsx:85-117 | when no overlay image loads, the stored image is the bare screenshot, yet the photo is marked processed |
| Camera.NoOverlaysUnprocessed | src/components/Camera.tsx:85-117 | without an enabled overlay the screenshot is stored as it is and not marked processed |
| Camera.DisabledOverlayOnly | src/components/Camera.tsx:85-86 | a list with only a disabled overlay counts as no overlays |
| Camera.BalancedPair | src/components/Camera.tsx:76-133 | one capture's on-then-off keeps the light calls alternating |
| Camera.TakePicture | src/components/Camera.tsx:74-128 | yields a shot exactly when the lights, the screenshot, the processed image and the canvas all succeed; the shot's photo has identity filters and `processed = hasOverlays`, and its preview shows the processed image and its thumbnail, sized by the 800×1200 preview bounds; the stored photo's thumbnail follows the 400×600 default bounds |
| Camera.CameraScreen.constructor | src/components/Camera.tsx:19-22 | idle, no countdown, no preview, preview timer at 20 |
| Camera.CameraScreen.StartCountdown | src/components/Camera.tsx:52-72 | ignored while capturing; otherwise shows 5, starts an interval and schedules the capture |
| Camera.CameraScreen.CountdownTick | src/components/Camera.tsx:57-65 | applies `CountdownStep`, stops the interval when the count is gone, and strictly lowers the outstanding countdown work |
| Camera.CameraScreen.CaptureDeadline | src/components/Camera.tsx:74-135 | with a webcam the lights go on and then off; on success the photo is stored first with the store's own 400×600 thumbnail and the preview opens for 20 seconds with its 800×1200 thumbnail; on failure the store and the preview are unchanged |
| Camera.CameraScreen.CaptureFinished | src/components/Camera.tsx:68-71 | the guard clears only after the capture has finished |
| Camera.CameraScreen.PreviewTick | src/components/Camera.tsx:40-50 | one second less, and the preview closes at 0 |
| Camera.CameraScreen.Retake | src/components/Camera.tsx:170-174 | closes the preview, resets its timer to 20 and starts a countdown |
| Camera.CameraScreen.Cancel | src/components/Camera.tsx:284 | closes only the preview; the store is untouched |
| AdminStore.DeepMerge | src/store/adminStore.ts:113-131 | the key loop with recursion computes `Merge` |
| AdminStore.MergeKeepsTarget | src/store/adminStore.ts:116 | target keys the source does not name keep their values |
| AdminStore.MergeKeys | src/store/adminStore.ts:116-128 | a truthy source gives an object with exactly the target's keys plus the source's |
| AdminStore.MergeReplacesArrays | src/store/adminStore.ts:125-126 | an array in the source replaces the target's value outright |
| AdminStore.MergeSelf | src/store/adminStore.ts:113-131 | merging an object into itself changes nothing |
| AdminStore.MergeIdempotent | src/store/adminStore.ts:146-149 | applying the same update twice equals applying it once |
| AdminStore.CoveringMerge | src/store/adminStore.ts:118-128 | an update naming every key of what it merges into is installed exactly as given |
| AdminStore.SectionUpdate | src/store/adminStore.ts:146-149 | a covering section update installs the section and leaves every other section as it was |
| AdminStore.DefaultSettings | src/store/adminStore.ts:13-110 | the five sections, with props off and an empty catalogue, and processing at 1200×1800 with no overlays, preserve-original on and auto-process off |
| AdminStore.Store.constructor | src/store/adminStore.ts:136-137 | unauthenticated, with the default settings |
| AdminStore.Store.Login | src/store/adminStore.ts:138-144 | succeeds and authenticates exactly for "admin"; a wrong password changes nothing |
| AdminStore.Store.Logout | src/store/adminStore.ts:145 | unauthenticated, with the settings kept |
| AdminStore.Store.UpdateSettings | src/store/adminStore.ts:146-149 | the settings become the deep merge of the old settings and the update |
| AnalyticsStore.Bump | src/store/analyticsStore.ts:84-86 | only the day's tally for a capture, print or email event rises, by one |
| AnalyticsStore.Tracked | src/store/analyticsStore.ts:50-92 | exactly one counter rises; the event heads the history and the older entries keep their order; today's tally is bumped, starting from zeros; other days are unchanged |
| AnalyticsStore.InitialConsistent | src/store/analyticsStore.ts:33-44 | in the initial data, each total equals its per-day sum |
| AnalyticsStore.TrackedConsistent | src/store/analyticsStore.ts:62-89 | tracking an event keeps each total equal to its per-day sum |
| AnalyticsStore.TrackAllConsistent | src/store/analyticsStore.ts:50-92 | any run of events from consistent data keeps the totals equal to the per-day sums |
| AnalyticsStore.Store.constructor | src/store/analyticsStore.ts:49 | starts from the initial data |
| AnalyticsStore.Store.TrackEvent | src/store/analyticsStore.ts:50-92 | the data becomes `Tracked` of the old data |
| AnalyticsStore.Store.ResetStats | src/store/analyticsStore.ts:93 | the data is the initial data again |
| ImageProcessingPanel.DecodeInt | src/components/admin/ImageProcessingPanel.tsx:128 | reads only whole numbers, and gives back the number it read |
| ImageProcessingPanel.ProcessingRoundTrip | src/components/admin/ImageProcessingPanel.tsx:17-25 | every processing section written reads back as itself |
| ImageProcessingPanel.InstallProcessing | src/components/admin/ImageProcessingPanel.tsx:39-44 | writing a whole section over a readable one installs exactly it and keeps the other sections |
| ImageProcessingPanel.DefaultsAgree | src/components/admin/ImageProcessingPanel.tsx:17-25 | the panel's fallback equals the store's default section |
| ImageProcessingPanel.ToggleOverlays | src/components/admin/ImageProcessingPanel.tsx:63-65 | same length; only `enabled` of the matching overlays flips, and everything else stays |
| ImageProcessingPanel.ToggleTwice | src/components/admin/ImageProcessingPanel.tsx:59-67 | toggling the same id twice restores the list |
| ImageProcessingPanel.FilteredPhotos | src/components/admin/ImageProcessingPanel.tsx:70-72 | a photo is listed exactly when it is present and its kind's box is ticked |
| ImageProcessingPanel.ShowAll | src/components/admin/ImageProcessingPanel.tsx:70-72 | both boxes ticked list every photo in order |
| ImageProcessingPanel.ShowSplit | src/components/admin/ImageProcessingPanel.tsx:70-72 | the processed-only and unprocessed-only lists together hold as many photos as the collection |
| ImageProcessingPanel.Panel.constructor | src/components/admin/ImageProcessingPanel.tsx:13-14 | both boxes start ticked |
| ImageProcessingPanel.Panel.SetShowProcessed | src/components/admin/ImageProcessingPanel.tsx:224 | sets the processed box only |
| ImageProcessingPanel.Panel.SetShowUnprocessed | src/components/admin/ImageProcessingPanel.tsx:233 | sets the unprocessed box only |
| ImageProcessingPanel.Panel.Install | src/components/admin/ImageProcessingPanel.tsx:39-44 | the settings read back the section handed over; all other settings sections and the login state are kept |
| ImageProcessingPanel.Panel.UploadOverlay | src/components/admin/ImageProcessingPanel.tsx:27-48 | with a file, one enabled overlay named after the file is appended; without one nothing changes; all other settings sections and the login state are kept |
| ImageProcessingPanel.Panel.DeleteOverlay | src/components/admin/ImageProcessingPanel.tsx:50-57 | the section's overlays lose exactly those with the id; all other settings sections and the login state are kept |
| ImageProcessingPanel.Panel.ToggleOverlay | src/components/admin/ImageProcessingPanel.tsx:59-68 | the section's overlays become `ToggleOverlays` of the old ones; all other settings sections and the login state are kept |
| ImageProcessingPanel.Panel.SetAutoProcess | src/components/admin/ImageProcessingPanel.tsx:86-92 | only auto-process changes in the section; all other settings sections and the login state are kept |
| ImageProcessingPanel.Panel.SetPreserveOriginal | src/components/admin/ImageProcessingPanel.tsx:102-108 | only preserve-original changes in the section; all other settings sections and the login state are kept |
| ImageProcessingPanel.Panel.SetWidth | src/components/admin/ImageProcessingPanel.tsx:122-131 | only the default width changes in the section; all other settings sections and the login state are kept |
| ImageProcessingPanel.Panel.SetHeight | src/components/admin/ImageProcessingPanel.tsx:141-150 | only the default height changes in the section; all other settings sections and the login state are kept |
| PropsSettingsPanel.SectionRoundTrip | src/components/admin/PropsSettingsPanel.tsx:22-27 | every props section written reads back as itself, including the partial ones |
| PropsSettingsPanel.PropsEnabled | src/components/admin/PropsSettingsPanel.tsx:54 | the box is ticked exactly when `enabled` is present and true |
| PropsSettingsPanel.InstallProps | src/components/admin/PropsSettingsPanel.tsx:22-27 | a section that keeps every current field is installed as given, and other sections are kept |
| PropsSettingsPanel.DefaultProps | src/store/adminStore.ts:62-65 | the default props section is off with an empty catalogue |
| PropsSettingsPanel.StripExtension | src/components/admin/PropsSettingsPanel.tsx:17 | drops the text from the last dot when at least one character follows it and no slash does; otherwise leaves the name unchanged |
| PropsSettingsPanel.StripExamples | src/components/admin/PropsSettingsPanel.tsx:17 | "hat.v2.png" becomes "hat.v2", while "crown", "glasses." and "a.b/c" are unchanged |
| PropsSettingsPanel.UploadedItem | src/components/admin/PropsSettingsPanel.tsx:15-20 | the new prop has the stripped file name, the file's data, the given id and category "custom" |
| PropsSettingsPanel.Panel.constructor | src/components/admin/PropsSettingsPanel.tsx:6-7 | the panel works on the given settings store |
| PropsSettingsPanel.Panel.Install | src/components/admin/PropsSettingsPanel.tsx:22-27 | the settings read back the section handed over; all other settings sections and the login state are kept |
| PropsSettingsPanel.Panel.UploadProp | src/components/admin/PropsSettingsPanel.tsx:10-31 | with a file, exactly one custom prop is appended to the catalogue (a missing one counts as empty); without one nothing changes; all other settings sections and the login state are kept |
| PropsSettingsPanel.Panel.DeleteProp | src/components/admin/PropsSettingsPanel.tsx:33-40 | the catalogue loses exactly the props with the id; with no props section it becomes empty; all other settings sections and the login state are kept |
| PropsSettingsPanel.Panel.SetEnabled | src/components/admin/PropsSettingsPanel.tsx:52-60 | only `enabled` changes in the props section, and the switch then reads as the box; all other settings sections and the login state are kept |
| PrintDialog.StepperBounds | src/components/PrintDialog.tsx:63-77 | both buttons keep the count in 1..5 and move it by one where they can |
| PrintDialog.IncrementSaturates | src/components/PrintDialog.tsx:72 | from 1, n presses of plus give 1 + n, stopping at 5 |
| PrintDialog.ChargeAmount | src/components/PrintDialog.tsx:30 | the charge is non-negative for a non-negative price, and 0 when nothing is owed |
| PrintDialog.Dialog.TotalAmount | src/components/PrintDialog.tsx:17 | the total, times 100, is the amount charged |
| PrintDialog.Dialog.constructor | src/components/PrintDialog.tsx:13-15 | one copy, idle, no error, nothing printed or charged |
| PrintDialog.Dialog.PressMinus | src/components/PrintDialog.tsx:64 | the count becomes `max(1, c − 1)` and stays in range |
| PrintDialog.Dialog.PressPlus | src/components/PrintDialog.tsx:72 | the count becomes `min(5, c + 1)` and stays in range |
| PrintDialog.Dialog.PressPay | src/components/PrintDialog.tsx:19-30 | without payments the copies print at once and the status is kept; with payments the status becomes processing, the error clears and the total times 100 is charged |
| PrintDialog.Dialog.Settle | src/components/PrintDialog.tsx:31-41 | on success the status is success, the copies counted at the press print and closing is scheduled; on failure the status is error with its message, and nothing prints |

## Left out

- **Pixels.** Canvas drawing, JPEG encoding and data URLs are not modelled.
  An image is an opaque value, and a drawn canvas records what was drawn
  where. An image of size zero counts as one that does not load.
- **Number printing.** How JavaScript prints a number inside a template
  literal is the parameter `fmt` of `FilterStyle`. `parseInt` of a text that
  is not a number (NaN) is not modelled: the width and height handlers take
  an integer.
- **Timers and promises.** These become events: `CountdownTick`,
  `CaptureDeadline`, `CaptureFinished`, `PreviewTick` and `Settle`.
  - The 100 ms settle delay and the 2-second close timeout are not modelled;
    `closeScheduled` records the close timeout.
  - `addPhoto` runs inside `CaptureDeadline` as one step, although the
    source does not await it.
- **Light controller.**
  - The light controller itself is not part of this model. Its calls are
    recorded as a sequence.
  - A rejection from `deactivateLights` in the `finally` block is not
    modelled. In the source it would skip clearing `isCapturing`.
- **Capture errors.**
  - `Camera.TakePicture` treats any failure of the preview thumbnail as "no
    photo", as the outer catch does.
  - The catch around `processImageWithOverlays` at
    src/components/Camera.tsx:96-98 cannot fire, because that function
    absorbs every failure. It has no counterpart here.
  - The `preserveOriginal` branch at src/components/Camera.tsx:120-123 only
    writes a log line and is not modelled.
- **Settings snapshots.**
  - The settings a capture or a panel handler sees are the current ones.
    The source's handlers can read a render-time snapshot that is stale by
    the time a file finishes loading; that is not modelled.
  - Persisting the stores to local storage is not modelled.
- **Spreading values.** JSON objects are maps, so key order is not
  modelled. Spreading a string or an array into an object (which
  `deepMerge` would do if a section held one where an object was expected)
  gives no entries here.
- **Typed section readers.**
  `ImageProcessingPanel.ProcessingView` reads only a processing section of
  exactly the typed shape. The handlers require one, and other shapes are
  not modelled.
- **Props sections.** `PropsSettingsPanel.PropsView` accepts only sections
  whose fields are `enabled` and `items`.
- `PropsSettingsPanel.Panel.DeleteProp`: excludes a props section that has
  no `items`, because there the source's `items.filter` throws.
- `DraggableProp.Rem360`: a negative sum gives a rotation in (-360, 0], as
  JavaScript's `%` does. The only rotate button adds 90, so from 0 the
  rotation stays in {0, 90, 180, 270} (`RotatePressesCycle`).
- **Missing `processed`.** A missing overlay list gives `processed`
  undefined in the source. Here it is false.
- `AnalyticsStore.TrackAllConsistent`: a run of events shares one `today`.
  A run spanning several days is covered by chaining runs, one per day.
- **Clock and ids.** The clock, `Date.now()` ids and the ISO date string
  are parameters.
- **Rendering.** The print dialog's price formatting and the panels'
  rendering are not modelled.
- **Payment failure points.** A failure to initialise the payment terminal
  and a declined payment both settle as a failure. The amount asked for is
  recorded when the button is pressed.
