# OpenShot timeline bridge and 3D-title catalogue, in Dafny

This project models the two pieces of decision logic in OpenShot's Qt front end
and proves what they promise.

**The 3D animated titles catalogue** (`src/windows/models/blender_model.py`,
module `Catalogue`). `update_model` goes through the `blender` directory. It
keeps a file only when the file is regular and ".xml" appears anywhere in its
name. It then applies the window's category toggles ("show all", then "show
video", then "show audio", checked in that order). It then applies the search
text, a case-blind substring match on the translated title or description. For
each kept entry it makes sure a thumbnail is cached, generating one if needed.
It appends a three-column row (thumbnail with tool tip, translated title,
descriptor path) unless the path is already in the `model_paths` dictionary.
`clear=True` empties the table and the dictionary first. The class
`BlenderModel` holds the rows and the dictionary. Its `UpdateModel` is the
loop, with the source's `continue`s, and is proved equal to the specification
function `Scan`. The lemmas about `Scan` state the properties: no path is ever
in two rows, existing rows are kept, every new row comes from a listed entry
that passed the filters, every entry that passed the filters and has a
thumbnail gets its path recorded, and a refresh without clearing adds nothing.

**The timeline bridge** (`src/windows/timeline_webview.py`, module `Timeline`).
The class `TimelineWebView` holds the `new_clip` flag and the list of scripts
handed to the page. It refers to a `Project` (clip records keyed by their "id"
value, file records keyed by file id) and to the window's `ZoomSlider`.
- `changed` emits a `LoadJson(...)` call for a "load" action and an
  `ApplyJsonDiff([...])` call for any other action.
- `update_zoom` emits `setScale(<n>)`.
- Each emitted script is proved to parse back, on the page's side, to the
  intended call with the intended argument.
- `update_clip_data` is an upsert by id. A dictionary is used as it is. Text is
  JSON-parsed first, and each way it can raise is a distinct error.
- `show_context_menu` always offers "New". It adds "remove clip" for "clip" and
  "remove transition" for "transition".
- Ctrl+wheel moves the zoom slider by one page step per whole notch of 120. The
  notch count is truncated toward zero, written out explicitly.
- `dragEnterEvent` and `dropEvent` drive the `new_clip` flag. A dropped file's
  clip record gets `file_id`, `title`, `image`, `duration` and `end`. `end` is 8
  seconds for images and the reader's duration otherwise.
- Over any sequence of drag events, a drag with no drop in it creates at most
  one clip. Over a longer run, clips created never exceed the drops plus one.
- There is no drag-leave handler. So a drag that leaves without dropping keeps
  the flag up, and every later drag creates nothing until a drop arrives
  (`AtMostOneClipPerDrag`, second postcondition).

Inputs stand in for everything outside the two files. These are the directory
listing and the parsed descriptors, the set of existing thumbnail files, the
translation function, the thumbnail generator, the JSON parser and the media
library's clip JSON.

## Model

| member | source | states |
|---|---|---|
| `Strings.ContainsIffOccurs` | src/windows/models/blender_model.py:89 | Python's `sub in s`, as searched, holds exactly when some window of `s` equals `sub` |
| `Strings.BaseName` | src/windows/timeline_webview.py:159 | the file name taken from a stored path is its longest suffix without a separator |
| `Strings.ParseIntToString` | src/windows/timeline_webview.py:110 | `str` on the slider value loses nothing: parsing it back gives the value |
| `Catalogue.BlenderModel.constructor` | src/windows/models/blender_model.py:149-155 | a new catalogue has no rows and an empty `model_paths` |
| `Catalogue.BlenderModel.UpdateModel` | src/windows/models/blender_model.py:43-147 | the new rows, dictionary and thumbnail files are those of `Scan` started from an empty table when `clear` is set and from the current one otherwise; the table and dictionary stay consistent |
| `Catalogue.XmlAnywhereInName` | src/windows/models/blender_model.py:63-64 | any regular file with ".xml" anywhere in its name is read, and a non-regular one never is |
| `Catalogue.CategoryFilterCases` | src/windows/models/blender_model.py:80-86 | "show all" or no toggle lets every category through; "show video" keeps only "Video" and wins over "show audio"; "show audio" alone keeps only "Audio" |
| `Catalogue.TextFilterMeaning` | src/windows/models/blender_model.py:88-90 | empty search text keeps everything; otherwise an entry is kept exactly when the lower-cased text occurs in the lower-cased translated title or description |
| `Catalogue.ScanValid` | src/windows/models/blender_model.py:141-144 | after any scan the dictionary's keys are exactly the table's paths, each mapped to itself, and no path is in two rows |
| `Catalogue.ScanKeeps` | src/windows/models/blender_model.py:141-144 | a scan keeps the earlier rows in front, and keeps every known path and cached thumbnail |
| `Catalogue.ScanRowsSound` | src/windows/models/blender_model.py:63-144 | every row a scan adds is the (thumbnail, translated title, path) row of a listed entry that passed both filters and whose thumbnail file exists after the scan; an entry whose thumbnail cannot be generated gets no row |
| `Catalogue.ScanComplete` | src/windows/models/blender_model.py:63-144 | every listed entry that passes both filters and whose thumbnail is cached or can be generated has its path in `model_paths` afterwards, even when an earlier thumbnail failed |
| `Catalogue.ScanCacheBound` | src/windows/models/blender_model.py:93-111 | a scan only adds thumbnail files that it generated successfully for entries that passed both filters; filtered-out entries never get a thumbnail |
| `Catalogue.RescanAddsNothing` | src/windows/models/blender_model.py:141-144 | scanning the same listing again without clearing adds no row and no path |
| `Catalogue.AsWrittenAgreesWithoutFailures` | src/windows/models/blender_model.py:63-147 | while no kept entry lacks a thumbnail, the scan as written (`ScanAsWritten`, which raises at line 116 and keeps the rows appended so far) finishes with exactly the state of the intended scan |
| `Catalogue.FailedThumbnailDropsLaterEntries` | src/windows/models/blender_model.py:113-118 | as written, a failed thumbnail stops the scan and a later good entry gets no row; the intended scan shows it |
| `Timeline.ChangedScript` | src/windows/timeline_webview.py:60-69 | the script parses back to `LoadJson(json)` for a "load" action and to `ApplyJsonDiff(json)` for any other |
| `Timeline.TimelineWebView.Changed` | src/windows/timeline_webview.py:60-69 | exactly one script, that of the action, is appended to what the page has been sent |
| `Timeline.SetScaleScript` | src/windows/timeline_webview.py:106-111 | the zoom script parses back to `setScale` with exactly the slider's value |
| `Timeline.TimelineWebView.UpdateZoom` | src/windows/timeline_webview.py:106-111 | exactly the `setScale` script for the new value is sent to the page |
| `Timeline.Project.Save` | src/windows/timeline_webview.py:83-88 | saving a record with an id replaces the project's clips by their upsert with it (the existing clip's data, or a new clip's); file records are untouched |
| `Timeline.Upsert` | src/windows/timeline_webview.py:83-88 | after storing, the record under its id is the new data, wholesale, and every other record is unchanged |
| `Timeline.UpsertSize` | src/windows/timeline_webview.py:83-86 | storing adds a record exactly when no record had that id |
| `Timeline.UpsertIdempotent` | src/windows/timeline_webview.py:83-88 | storing the same record twice is the same as storing it once |
| `Timeline.ClipDataOfMeaning` | src/windows/timeline_webview.py:77-83 | a dictionary is taken as it is and text is JSON-parsed; the result is stored only if it is an object with an "id", and each failure is told apart |
| `Timeline.TimelineWebView.UpdateClipData` | src/windows/timeline_webview.py:73-88 | the project's clips become the upsert of the decoded record, or stay as they were when decoding raises; file records are untouched |
| `Timeline.ContextMenuActions` | src/windows/timeline_webview.py:96-103 | the menu starts with "New"; "remove clip" is in it exactly for "clip", "remove transition" exactly for "transition"; it has two entries for those two kinds and only "New" otherwise |
| `Timeline.ZoomSteps` | src/windows/timeline_webview.py:117-118 | the step count is the number of whole 120-unit notches in the wheel delta, with the delta's sign (truncation toward zero) |
| `Timeline.ZoomStepsOdd` | src/windows/timeline_webview.py:118 | the same scroll up and down gives opposite step counts |
| `Timeline.ZoomBackAndForth` | src/windows/timeline_webview.py:114-119 | a Ctrl+wheel one way and then back by the same delta returns the slider to its value |
| `Timeline.TimelineWebView.WheelEvent` | src/windows/timeline_webview.py:114-123 | with Ctrl held the slider becomes value minus page step times steps; without it the slider is untouched and the event is passed on |
| `Timeline.ThumbForName` | src/windows/timeline_webview.py:151-156 | the clip thumbnail is `<file id>.png` inside the thumbnail directory for video and image files, and `AudioThumbnail.png` inside `<app>/images` for anything else |
| `Timeline.NewClipRecordFields` | src/windows/timeline_webview.py:168-178 | the new clip record is the media library's JSON plus `file_id`, file name as `title`, thumbnail as `image`, reader duration as `duration`, and `end` equal to the reader duration, or 8.0 for images; other keys unchanged; none without a reader duration |
| `Timeline.TimelineWebView.BuildNewClip` | src/windows/timeline_webview.py:151-178 | the record built in place is the one `NewClipRecord` describes |
| `Timeline.DragEnterEffect` | src/windows/timeline_webview.py:135-187 | nothing happens while a clip is pending or for a drag with URLs or without text; the event is ignored exactly for an unknown file id; for a known file whose record builds and has an id, that record is stored under its id, the flag goes up and the event is accepted; it raises, with nothing changed, exactly when the record cannot be built or has no id |
| `Timeline.TimelineWebView.StartNewClip` | src/windows/timeline_webview.py:165-184 | after a known file is found: the built record is stored and the flag raised, or, if building or storing raises, nothing changes |
| `Timeline.TimelineWebView.DragEnterEvent` | src/windows/timeline_webview.py:132-187 | the flag, the project's clips and the event outcome are those of `DragEnter`; file records and sent scripts are untouched |
| `Timeline.TimelineWebView.DropEvent` | src/windows/timeline_webview.py:203-208 | a drop accepts the event and lowers the flag |
| `Timeline.TimelineWebView.constructor` | src/windows/timeline_webview.py:210-228 | a new timeline has no clip pending and has sent no script |
| `Timeline.AtMostOneClipPerDrag` | src/windows/timeline_webview.py:135-184 | within a drag (no drop) at most one clip is created, exactly when the flag goes up; with the flag already up nothing changes |
| `Timeline.ClipsBoundedByDrops` | src/windows/timeline_webview.py:135-208 | over any run of drag events, clips created are at most the drops plus one |
| `Timeline.DragThenDrop` | src/windows/timeline_webview.py:184-208 | a drag ending in a drop creates at most one clip and leaves the flag down for the next drag |

## Left out

- Qt and WebKit plumbing is not modelled. This covers `eval_js`, `setup_js_data`, signal connections, `QMenu.exec_`, item icons and flags, `contextMenuEvent`, `app.processEvents()` and logging. The page is modelled by the list of scripts sent to it. A menu is a list of action names.
- Because `app.processEvents()` (blender_model.py:147) is left out, the toggles and the search text are taken as constant for a whole scan, although the event loop runs between entries and the user could change them mid-scan.
- Because the `valueChanged` connection (timeline_webview.py:225) is left out, `WheelEvent` leaves the sent scripts unchanged. In the application, a Ctrl+wheel that moves the slider also sends a `setScale` script through `update_zoom`; calling `UpdateZoom` with the new value models that second step.
- The table's header labels and column count are Qt view settings and are left out. A row is a record with three columns.
- XML parsing is left out: each listed entry comes with its parsed descriptor. A descriptor missing a tag would make `update_model` raise; that is not modelled.
- Thumbnail generation through the media library is left out, including the scale `95.0 / width`. It is an input function that reports success or failure for an icon path and a thumbnail path.
- The directory listing, `isfile` and the thumbnail cache's `exists` are inputs. The cache is a set of paths that grows as thumbnails are generated.
- Translation is an input function.
- Strings.Lower: lower-cases ASCII letters only; Python's Unicode case mapping is not modelled.
- The failure dialog's text and display are not modelled (see Findings).
- Catalogue.RescanAddsNothing: stated only for icon names that are not absolute paths. `os.path.join` lets an absolute icon name replace the cache directory, so two different icons could share one thumbnail file.
- `dragMoveEvent` is left out. It only formats the cursor's float coordinates into a `MoveClip` script.
- Clamping of the slider to its range happens inside Qt's `setValue` and is not modelled. Neither is the page scrolling when Ctrl is not held.
- The zoom label text of `update_zoom` is left out: it is a translated format string.
- Durations are JSON number literals that are copied and never computed on. The 8-second default is the literal `8.0`.
- The wheel step uses exact integer truncation. Python divides in floating point and truncates. For Qt's 32-bit wheel deltas the two agree.
- How the project's `save` broadcasts the change to listeners is not modelled. Storing is a map update by id.
- A missing reader duration, or a clip record without "id", raises inside the drag handler. This is modelled as the outcome `Raised` with nothing changed. What PyQt does with the escaped exception is not modelled.

## Findings

| source | as written | input that shows it | evidently intended | confidence | as-written member | corrected member |
|---|---|---|---|---|---|---|
| src/windows/models/blender_model.py:116 | the handler for a failed thumbnail formats its message with `filename`, which is not defined in `update_model`. The handler itself raises `NameError`, so the scan stops at the first failed thumbnail and the rest of the listing is never shown | a listing where a visible entry whose icon cannot be rendered comes before a visible entry with a good thumbnail: the second entry gets no row | show the dialog, skip the failing entry (the `continue` on line 118) and carry on with the listing | high; not executed | `Catalogue.FailedThumbnailDropsLaterEntries` | `Catalogue.ScanComplete` |
