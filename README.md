# Smart photo editor: a verified model of its discrete core

This project models, in Dafny, the parts of the smart photo editor that are
logic rather than markup:

- **The adjustment editor** (`ImageEditor.dfy`). The editor keeps a record
  of eight adjustments: brightness, contrast, saturation, blur, rotation,
  sepia, grayscale and invert. Pure update rules implement its sliders and
  buttons. The record compiles to a canvas filter string, and the model
  keeps that template character for character, including its line breaks,
  indentation and trailing blanks. A decoder reads the string back. The
  `Editor` class holds the busy flag and the deferred redraw. The redraw
  clears, saves, rotates about the centre, sets the filter, draws and
  restores.
- **The preset effects panel** (`ImageEffects.dfy`). It has a closed catalog
  of six presets. The canvas filter built from a preset and an intensity has
  a decoder that reads it back. The `EffectsPanel` class is the guarded
  redraw: it resizes the canvas to the image, clears it and draws under the
  expression. It also has the selection, intensity and save handlers.
- **The application shell** (`App.dfy`). The `Session` class holds the
  selected image, the newest-first gallery and the current view. It has the
  save, view-change and cancel transitions, and the rule that picks the
  screen to show.
- **The uploader** (`ImageUploader.dfy`). It accepts a file by its MIME
  type, looks at only the first file of a drop or a selection, and keeps a
  highlight flag that follows drag events.
- **The static server** (`Server.dfy`). It turns a URL into a path under
  `dist`, falls back to the index page for paths that contain no `.`,
  looks up the content type from the extension, and decides the 200 or 500
  outcome over an abstract set of files that exist.

Two support modules sit beside these:

- `Canvas.dfy` is an abstract HTML canvas. Its `Surface` class has the
  bitmap size, the drawing state that `save()` and `restore()` keep (the
  transformation and the filter), the saved-state stack, the marks visible
  on the surface, and a trace of every call. Assigning the width or the
  height resets the bitmap and the whole context, as the HTML canvas does.
- `Strings.dfy` holds the text operations the core relies on:
  - splitting on whitespace into tokens;
  - printing an integer the way a template literal does, and parsing it
    back;
  - the prefix, suffix and last-segment queries.

`Wrappers.dfy` holds the `Option` type.

Several behaviours of the code are modelled as they are written:

- `applyFilters` returns at once while a draw is in flight. It captures the
  adjustments when it is called. The effect, rotate and reset handlers
  therefore do not schedule a draw of a change made while busy. The effect
  and rotate buttons stay enabled while busy. Such a change is therefore
  not drawn until a later change made while idle schedules a draw. That
  draw captures the whole record, including the earlier change.
  `Editor.HandleToggleEffect` and `Editor.HandleRotate` state this exactly
  through `RedrawRequested`.
- Without a loaded image, the deferred draw throws at `drawImage`. The saved
  context is never restored and the busy flag is never cleared. The model
  shows this as the `Stuck` state. The redraw scheduled on mount reaches
  this state whenever its idle callback runs before the image has loaded.
- The effects panel's image-load handler belongs to the first render. It
  draws with the selection and intensity of that render (no preset, 100),
  whatever has been chosen since.
- The server's fallback path pipes the index page without writing a status
  line. It goes out as an implicit 200 with no content type.

## Model

| member | source | states |
|---|---|---|
| ImageEditor.InitialInDomain | src/components/ImageEditor.jsx:33-42 | the initial record has brightness, contrast and saturation 100, blur 0, rotation 0 and every effect off, and lies within the sliders' ranges |
| ImageEditor.ChangeFilter | src/components/ImageEditor.jsx:120-122 | the changed slider takes the new value; every other slider, every effect and the rotation keep theirs |
| ImageEditor.ChangeFilterInDomain | src/components/ImageEditor.jsx:166-178 | a value the slider offers (0 to 200, 0 to 20 for blur) keeps the whole record within its domain |
| ImageEditor.ToggleEffect | src/components/ImageEditor.jsx:124-126 | exactly the named effect is negated; other effects, sliders and rotation are unchanged |
| ImageEditor.ToggleTwice | src/components/ImageEditor.jsx:124-126 | toggling the same effect twice gives back the original record |
| ImageEditor.ToggleEffectInDomain | src/components/ImageEditor.jsx:124-126 | toggling keeps the record within its domain |
| ImageEditor.RotateQuarterInDomain | src/components/ImageEditor.jsx:128-133 | a quarter turn keeps the rotation in {0, 90, 180, 270} and changes no other field |
| ImageEditor.RotateTimesRotation | src/components/ImageEditor.jsx:128-133 | after n presses the rotation is the start plus 90·n modulo 360, and nothing else has changed |
| ImageEditor.RotationFromInitial | src/components/ImageEditor.jsx:128-133 | from the initial record, any number of presses leaves the rotation a quarter turn and the record in its domain |
| ImageEditor.RotatePeriod | src/components/ImageEditor.jsx:128-133 | four presses return any record with rotation below 360 to itself |
| ImageEditor.RotateQuarter | src/components/ImageEditor.jsx:128-133 | the update of the rotate button; its properties are stated by RotateQuarterInDomain, RotateTimesRotation, RotationFromInitial and RotatePeriod |
| ImageEditor.Reset | src/components/ImageEditor.jsx:141-152 | the update of the reset button; its property is stated by ResetIdempotent |
| ImageEditor.ResetIdempotent | src/components/ImageEditor.jsx:141-152 | reset yields the initial record whatever the prior state, so resetting twice is resetting once |
| ImageEditor.Compose | src/components/ImageEditor.jsx:91-99 | the filter template, character for character; what it contains is stated by ComposeTokens, FlagTokenPresent, DecodeCompose and ComposeInjective |
| ImageEditor.ComposeTokens | src/components/ImageEditor.jsx:91-99 | the non-blank tokens of the filter string are brightness, contrast, saturate and blur in that order, then each set effect in template order |
| ImageEditor.FlagTokenPresent | src/components/ImageEditor.jsx:96-98 | each effect's token is in the filter string if and only if that effect is on |
| ImageEditor.DecodeCompose | src/components/ImageEditor.jsx:91-99 | reading the filter string back gives every adjustment except the rotation, which is not part of the string |
| ImageEditor.ComposeInjective | src/components/ImageEditor.jsx:91-99 | any two records give the same filter string exactly when they agree on everything but the rotation |
| ImageEditor.RotationTransform | src/components/ImageEditor.jsx:84-88 | the transformation the draw applies: none for rotation 0, otherwise translate to the centre, rotate, translate back; stated by Editor.RotateAboutCentre and Editor.RunScheduledDraw |
| ImageEditor.RotationCalls | src/components/ImageEditor.jsx:84-88 | the canvas calls of that transformation; stated by Editor.RotateAboutCentre |
| ImageEditor.PrepareCalls | src/components/ImageEditor.jsx:77-101 | the calls before the image is drawn: clear, save, the rotation calls, the filter; stated by Editor.PrepareDraw |
| ImageEditor.RedrawCalls | src/components/ImageEditor.jsx:77-105 | the whole trace of the deferred draw, ending after the filter when there is no image; stated by Editor.RunScheduledDraw |
| ImageEditor.Editor.constructor | src/components/ImageEditor.jsx:31-44 | initial record, not busy, no image, nothing scheduled, a blank canvas |
| ImageEditor.Editor.OnImageLoad | src/components/ImageEditor.jsx:51-61 | the canvas takes the image's size, which resets its context, and shows the image drawn once with no filter or transformation |
| ImageEditor.Editor.ApplyFilters | src/components/ImageEditor.jsx:66-68 | while busy nothing changes; otherwise the editor becomes busy and a draw of the current record is scheduled |
| ImageEditor.Editor.RunScheduledDraw | src/components/ImageEditor.jsx:71-113 | the exact call trace (clear, save, rotation only when not 0, filter, draw, restore); with an image the context state and stack equal those before, the surface is one draw under the captured filter and rotation, and the busy flag is cleared; without one the editor stays busy with the save unmatched |
| ImageEditor.Editor.PrepareDraw | src/components/ImageEditor.jsx:77-101 | the full-area clear empties the surface, the save pushes the old state, and the state becomes the centre rotation and the compiled filter |
| ImageEditor.Editor.RotateAboutCentre | src/components/ImageEditor.jsx:84-88 | the translate, rotate, translate sequence is applied only for a non-zero rotation |
| ImageEditor.Editor.HandleFilterChange | src/components/ImageEditor.jsx:120-122 | the slider (disabled while busy) updates the record and always schedules its draw |
| ImageEditor.Editor.HandleToggleEffect | src/components/ImageEditor.jsx:124-126 | the record is toggled; a draw of it is scheduled only when the editor was idle, otherwise the draw in flight is kept |
| ImageEditor.Editor.HandleRotate | src/components/ImageEditor.jsx:128-133 | the record turns a quarter; a draw of it is scheduled only when the editor was idle |
| ImageEditor.Editor.HandleReset | src/components/ImageEditor.jsx:141-152 | the record becomes the initial one and a draw of it is scheduled |
| ImageEffects.CatalogShape | src/components/ImageEffects.jsx:22-53 | the catalog has six presets: Vintage, Dramatic, Vivid, Cool, Warm, Noir, in that order |
| ImageEffects.CatalogDistinct | src/components/ImageEffects.jsx:22-53 | no two presets share a name or a filter |
| ImageEffects.CatalogNamesIdentify | src/components/ImageEffects.jsx:22-53 | within the catalog, equal names or equal filters mean the same preset |
| ImageEffects.Expression | src/components/ImageEffects.jsx:89-91 | `none` without a preset; otherwise the preset's filter, then a blank and the opacity token |
| ImageEffects.ExpressionTokens | src/components/ImageEffects.jsx:89-91 | the filter functions of the expression are the preset's own followed by `opacity(i%)` |
| ImageEffects.DecodeExpressionOf | src/components/ImageEffects.jsx:89-91 | the expression reads back as the preset's filter and the intensity |
| ImageEffects.ExpressionInjective | src/components/ImageEffects.jsx:89-91 | over the catalog, the expression determines the selection and, with a preset, the intensity |
| ImageEffects.EffectsPanel.constructor | src/components/ImageEffects.jsx:56-57 | no preset selected, intensity 100 |
| ImageEffects.EffectsPanel.DrawWith | src/components/ImageEffects.jsx:74-93 | without a canvas or an image nothing changes; otherwise the canvas has the image's size, was fully cleared, has the expression as filter and shows one draw of the image |
| ImageEffects.EffectsPanel.Mount | src/components/ImageEffects.jsx:70-72 | the redraw on mount finds no image and leaves the canvas untouched |
| ImageEffects.EffectsPanel.OnImageLoad | src/components/ImageEffects.jsx:61-68 | the loaded image is drawn with the first render's state: filter `none` |
| ImageEffects.EffectsPanel.SelectEffect | src/components/ImageEffects.jsx:171 | the selection is replaced and the intensity kept; a new selection is drawn, and reselecting the same preset draws nothing |
| ImageEffects.EffectsPanel.SetIntensity | src/components/ImageEffects.jsx:150-157 | with a preset selected, the intensity (0 to 100) changes and a changed value is drawn |
| ImageEffects.EffectsPanel.HandleSave | src/components/ImageEffects.jsx:95-100 | a snapshot of the canvas is emitted only when the canvas exists; the button requires a selection |
| App.Render | src/App.jsx:104-127 | the screen chosen from the selection, the view and the gallery; stated by RenderCases |
| App.RenderCases | src/App.jsx:104-127 | the editor exactly for a selected image in view `editor`, effects exactly for a selected image in any other view, uploader and gallery exactly when nothing is selected |
| App.Prepend | src/App.jsx:92-95 | the gallery grows by one, the new image is first and the old order is kept |
| App.SaveAllNewestFirst | src/App.jsx:92-95 | saving several images in turn leaves them newest first, ahead of the earlier gallery |
| App.Session.constructor | src/App.jsx:80-82 | no selection, empty gallery, view `editor` |
| App.Session.RenderContent | src/App.jsx:104-127 | `renderContent` over the session's state; the constructor, SelectImage, HandleSaveEdit and HandleCancel state the screen after each |
| App.Session.SelectImage | src/App.jsx:84-90 | the read data URL becomes the selection and opens the screen of the current view |
| App.Session.HandleSaveEdit | src/App.jsx:92-95 | the result is prepended to the gallery, the selection cleared, and the uploader with the new gallery shown |
| App.Session.HandleViewChange | src/App.jsx:97-102 | the view becomes the given one; the selection is cleared exactly when the view differs from the previous one |
| App.Session.HandleCancel | src/App.jsx:110 | the selection is cleared; gallery and view are unchanged |
| ImageUploader.IsImage | src/components/ImageUploader.jsx:38 | the type test of the validation; used by Admitted and Uploader.ValidateAndProcessFile |
| ImageUploader.Admitted | src/components/ImageUploader.jsx:24-27 | a file is handed on exactly when the list is non-empty and its first file is an image, and it is that first file |
| ImageUploader.AdmittedFirstOnly | src/components/ImageUploader.jsx:24-27 | files after the first never change the outcome |
| ImageUploader.AfterDrag | src/components/ImageUploader.jsx:12-16 | enter and over set the highlight, leave clears it, other types leave it as it was |
| ImageUploader.AfterNonDrags | src/components/ImageUploader.jsx:12-16 | a run of events none of which is enter, over or leave leaves the highlight as it was |
| ImageUploader.LastDragEventDecides | src/components/ImageUploader.jsx:9-17 | after any run of events the highlight is on exactly when the last enter, over or leave was not a leave |
| ImageUploader.Uploader.constructor | src/components/ImageUploader.jsx:6 | not dragging, nothing handed on, no alert |
| ImageUploader.Uploader.ValidateAndProcessFile | src/components/ImageUploader.jsx:37-43 | an `image/` file is handed on unchanged exactly once; any other file is refused with the alert and not handed on |
| ImageUploader.Uploader.HandleDrag | src/components/ImageUploader.jsx:9-17 | the highlight follows the event type |
| ImageUploader.Uploader.HandleDrop | src/components/ImageUploader.jsx:19-28 | the highlight always ends; only the first dropped file is validated, and an empty drop does nothing else |
| ImageUploader.Uploader.HandleFileSelect | src/components/ImageUploader.jsx:30-35 | only the first chosen file is validated; an empty selection does nothing |
| Server.ResolvePath | server.js:10 | `/` resolves to `dist/index.html`; any other URL lies under `dist/` and ends with the URL |
| Server.ServedPath | server.js:13-15 | the path tried first always contains a `.` |
| Server.ServedPathCases | server.js:10-15 | `/` and every URL without a `.` are served the index page; a URL with a `.` its own resolved path |
| Server.ExtName | server.js:29 | the extension contains no `.` and the path ends with `.` and the extension |
| Server.ContentType | server.js:29-30 | the lookup for a whole path; what it sends is stated by ContentTypeOfExtension |
| Server.ContentTypeOfExtension | server.js:17-30 | the type is the map entry for `.` and the text after the last `.`, or `application/octet-stream`, whatever comes before |
| Server.JpgContentType | server.js:23 | `.jpg` is sent as `image/jpg` |
| Server.UnknownContentType | server.js:30 | every extension without `.` that the map does not know is sent as `application/octet-stream`, whatever path precedes it |
| Server.XyzContentType | server.js:30 | for instance `.xyz` is sent as `application/octet-stream` |
| Server.IndexIsHtml | server.js:18 | the index page is sent as `text/html` |
| Server.Outcome | server.js:32-45 | the answer over the set of files that open; stated by OutcomeStatus |
| Server.OutcomeStatus | server.js:32-45 | a file that opens is sent with status 200, its own path and the content type of that path; otherwise the index page is sent with an implicit 200 and no type when it opens; otherwise 500 with the fixed message. So every answer is 200 or 500, and 500 exactly when neither the file nor the index opens |
| Server.HandleRequest | server.js:9-46 | the handler as written, reassigning the path, gives the outcome above |
| Server.RootRequest | server.js:10 | with the index present, `/` is answered 200 with the index as `text/html` |
| Server.MissingAssetFallsBack | server.js:33-41 | a URL with a `.` whose file is missing is answered 200 with the index page and no content type |
| Strings.LastSegmentAfter | server.js:29 | `split('.').pop()` gives the text after the last `.`, whatever precedes it |

## Left out

- Pixels:
  - What the filter functions do to pixels is not modelled.
  - `drawImage` is recorded as a mark under the filter and transformation in force; the two are not applied.
  - Only a `clearRect` over the whole bitmap at the identity transformation empties the surface. Any other `clearRect` is kept as a separate mark.
- Floating point: `ctx.rotate` takes radians computed with `Math.PI`. The model records the angle in degrees. The translations are exact reals.
- Scheduling:
  - `requestIdleCallback` and its timeout, the Promise and its `then` are not modelled. The deferred draw is the separate step `RunScheduledDraw`.
  - React's batching and re-rendering are not modelled. Each `useEffect` that reacts to a change runs in the handler that made the change.
- Asynchronous loading: the image `onload` events and the `FileReader` decode are events the caller delivers (`OnImageLoad`, `SelectImage`).
- Encoding: JPEG encoding through `toDataURL`, `toBlob` and download links is not modelled. A snapshot is the surface as it stands. The editor's save and download buttons (src/components/ImageEditor.jsx:135-164) are not modelled.
- The drag and drop handlers call `preventDefault()` and `stopPropagation()`
  (src/components/ImageUploader.jsx:10-11, 20-21). These calls are not
  modelled: the model has no browser default action and no propagation of
  events between elements.
- The editor's Cancel button is disabled while the editor is busy. The
  model keeps the editor and the shell apart, so `App.Session.HandleCancel`
  does not see that flag.
- `ImageEffects.EffectsPanel.Mount`: unmounting, which nulls the canvas reference, is not modelled.
- src/components/ImageGallery.jsx is not part of this model. Its only content is presentation: lazy loading, hover and scroll observers.
- src/components/Navbar.jsx is not part of this model. It only ever asks for the view `editor`, so nothing in the repository reaches the effects panel. `App.Session.HandleViewChange` takes any view name.
- src/config.js is not part of this model. It reads environment variables only.
- Server:
  - Node streams and HTTP framing are not modelled.
  - The `__dirname` prefix is not modelled. The root is taken to contain no `.`, as the `.` test on the whole joined path needs.
  - `path.join` normalisation is not modelled: repeated separators, `..` segments and path traversal.
  - A path that opens but fails on reading, such as a directory, is not modelled.
  - The listening port and the log line are not modelled.
- `ImageEditor.Editor.HandleFilterChange`: any integer is accepted. The range the slider offers is a separate lemma (`ChangeFilterInDomain`). The slider emits whole numbers in its default step, so non-integer values are not modelled.
- `ImageEffects.EffectsPanel.SetIntensity`: the intensity is taken to be a whole number from 0 to 100, the slider's range.
- Intensity 0: with intensity 0 the expression ends in `opacity(0%)`, which draws the image fully transparent. The model keeps the expression exactly as the code builds it and does not claim that intensity 0 means "no effect".
