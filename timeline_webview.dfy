/**
 * The bridge between project data and the HTML timeline (src/windows/timeline_webview.py).
 *
 * Project changes become script calls on the timeline's scope object; the
 * timeline calls back to store clip records; Ctrl+wheel moves the zoom slider;
 * dragging a project file onto the timeline creates one clip record per drag.
 *
 * The page's script engine is modelled by the list of scripts handed to it,
 * the project by a map from clip id to clip record, the media library's clip
 * JSON and the JSON parser by functions passed in.
 */
module Timeline {
  import opened Wrappers
  import opened Strings

  /** JSON values as the bridge sees them; numbers are kept as their literal text and never computed on. */
  datatype Json =
    | Null
    | Bool(b: bool)
    | Number(literal: string)
    | Str(s: string)
    | Array(items: seq<Json>)
    | Object(fields: map<string, Json>)

  /** A clip record: a JSON object. */
  type ClipData = map<string, Json>

  /** The project's clips, by the value of their "id" field. */
  type ClipStore = map<Json, ClipData>

  // ---------------------------------------------------------------- scripts

  const ScopeSelector: string := "$('body').scope()"
  const LoadOpen: string := ScopeSelector + ".LoadJson("
  const DiffOpen: string := ScopeSelector + ".ApplyJsonDiff(["
  const ScaleOpen: string := ScopeSelector + ".setScale("
  const CallClose: string := ");"
  const DiffClose: string := "]);"

  /** A change notification: its type ("load", "insert", "update", ...) and its JSON text. */
  datatype UpdateAction = UpdateAction(kind: string, json: string)

  /** The scope-object calls the bridge makes, as the page reads them. */
  datatype ScopeCall = LoadJson(json: string) | ApplyJsonDiff(json: string) | SetScale(value: int)

  /** The text strictly between a known opening and a known closing, if the code has that shape. */
  function Between(code: string, open: string, close: string): Option<string>
  {
    if |open| + |close| <= |code| && code[..|open|] == open && code[|code| - |close|..] == close
    then Some(code[|open|..|code| - |close|])
    else None
  }

  lemma BetweenOfConcat(open: string, middle: string, close: string)
    ensures Between(open + middle + close, open, close) == Some(middle)
  {
    var code := open + middle + close;
    assert code[..|open|] == open;
    assert code[|code| - |close|..] == close;
    assert code[|open|..|code| - |close|] == middle;
  }

  lemma BetweenMismatch(code: string, open: string, close: string, k: nat)
    requires k < |open| && k < |code| && code[k] != open[k]
    ensures Between(code, open, close) == None
  {
    if |open| + |close| <= |code| {
      assert code[..|open|][k] == code[k];
    }
  }

  /** How the page reads a script the bridge sends: which scope function it calls, and with what. */
  function ParseScopeCall(code: string): Option<ScopeCall>
  {
    match Between(code, LoadOpen, CallClose)
    case Some(json) => Some(LoadJson(json))
    case None =>
      match Between(code, DiffOpen, DiffClose)
      case Some(json) => Some(ApplyJsonDiff(json))
      case None =>
        match Between(code, ScaleOpen, CallClose)
        case Some(digits) => Some(SetScale(ParseInt(digits)))
        case None => None
  }

  /** `changed`: a "load" action reloads the whole project in the page, any other applies one diff. */
  function ChangedScript(a: UpdateAction): (code: string)
    ensures ParseScopeCall(code) == Some(if a.kind == "load" then LoadJson(a.json) else ApplyJsonDiff(a.json))
  {
    if a.kind == "load" then
      var code := LoadOpen + a.json + CallClose;
      BetweenOfConcat(LoadOpen, a.json, CallClose);
      code
    else
      var code := DiffOpen + a.json + DiffClose;
      assert code[|ScopeSelector| + 1] == 'A';
      BetweenMismatch(code, LoadOpen, CallClose, |ScopeSelector| + 1);
      BetweenOfConcat(DiffOpen, a.json, DiffClose);
      code
  }

  /** Where the three openings first differ: the character after the selector and its dot. */
  lemma OpeningsDiffer()
    ensures |ScopeSelector| + 1 < |LoadOpen| && LoadOpen[|ScopeSelector| + 1] == 'L'
    ensures |ScopeSelector| + 1 < |DiffOpen| && DiffOpen[|ScopeSelector| + 1] == 'A'
    ensures |ScopeSelector| + 1 < |ScaleOpen| && ScaleOpen[|ScopeSelector| + 1] == 's'
  {
  }

  lemma SetScaleParses(value: int)
    ensures ParseScopeCall(ScaleOpen + IntToString(value) + CallClose) == Some(SetScale(value))
  {
    var digits := IntToString(value);
    var code := ScaleOpen + digits + CallClose;
    OpeningsDiffer();
    var k := |ScopeSelector| + 1;
    assert code[k] == ScaleOpen[k];
    BetweenMismatch(code, LoadOpen, CallClose, k);
    BetweenMismatch(code, DiffOpen, DiffClose, k);
    BetweenOfConcat(ScaleOpen, digits, CallClose);
    assert Between(code, ScaleOpen, CallClose) == Some(digits);
    ParseIntToString(value);
  }

  /** `update_zoom`: the script that sets the timeline's scale to the slider's value. */
  function SetScaleScript(value: int): (code: string)
    ensures ParseScopeCall(code) == Some(SetScale(value))
  {
    SetScaleParses(value);
    ScaleOpen + IntToString(value) + CallClose
  }

  // ----------------------------------------------------------- clip store

  /** Store a clip record under its id: a record with that id is replaced wholesale, otherwise one is added. */
  function Upsert(store: ClipStore, data: ClipData): (r: ClipStore)
    requires "id" in data
    ensures data["id"] in r && r[data["id"]] == data
    ensures forall k :: k != data["id"] ==> (k in r <==> k in store)
    ensures forall k :: k != data["id"] && k in store ==> r[k] == store[k]
  {
    store[data["id"] := data]
  }

  /** Storing the same record twice is the same as storing it once. */
  lemma UpsertIdempotent(store: ClipStore, data: ClipData)
    requires "id" in data
    ensures Upsert(Upsert(store, data), data) == Upsert(store, data)
  {
  }

  /** An upsert adds a record exactly when no record had that id. */
  lemma UpsertSize(store: ClipStore, data: ClipData)
    requires "id" in data
    ensures |Upsert(store, data)| == if data["id"] in store then |store| else |store| + 1
  {
    var r := Upsert(store, data);
    if data["id"] in store {
      assert r.Keys == store.Keys;
    } else {
      assert r.Keys == store.Keys + {data["id"]};
    }
  }

  /** What `update_clip_data` receives: a dictionary from Python, or JSON text from the page. */
  datatype ClipArg = DictArg(fields: ClipData) | TextArg(text: string)

  /** The exceptions `update_clip_data` lets escape: bad JSON, a non-object, no "id" key. */
  datatype UpdateError = InvalidJson | NotAnObject | MissingId

  /** The record `update_clip_data` stores, or the error it raises on the way. */
  function ClipDataOf(arg: ClipArg, parse: string -> Option<Json>): Result<ClipData, UpdateError>
  {
    var parsed :=
      match arg
      case DictArg(d) => Success(d)
      case TextArg(t) =>
        match parse(t)
        case None => Failure(InvalidJson)
        case Some(Object(d)) => Success(d)
        case Some(_) => Failure(NotAnObject);
    if parsed.Failure? then parsed
    else if "id" !in parsed.value then Failure(MissingId)
    else parsed
  }

  /**
   * A dictionary is stored as it is, JSON text only when it parses to an
   * object; either way only when it has an "id" key, and the error names
   * which of these failed.
   */
  lemma ClipDataOfMeaning(arg: ClipArg, parse: string -> Option<Json>)
    ensures var r := ClipDataOf(arg, parse);
      && (r.Success? ==> "id" in r.value)
      && (arg.DictArg? ==> (r.Success? <==> "id" in arg.fields) && (r.Success? ==> r.value == arg.fields))
      && (arg.TextArg? ==> (r.Success? <==> parse(arg.text).Some? && parse(arg.text).value.Object? && "id" in parse(arg.text).value.fields))
      && (arg.TextArg? && r.Success? ==> parse(arg.text) == Some(Object(r.value)))
      && (r == Failure(InvalidJson) <==> arg.TextArg? && parse(arg.text).None?)
      && (r == Failure(NotAnObject) <==> arg.TextArg? && parse(arg.text).Some? && !parse(arg.text).value.Object?)
  {
  }

  // ------------------------------------------------------------ context menu

  /** The actions the timeline's context menu can hold. */
  datatype MenuAction = ActionNew | ActionRemoveClip | ActionRemoveTransition

  /** `show_context_menu(type)`: "New" always comes first; "clip" and "transition" each add their remove action. */
  function ContextMenuActions(kind: Option<string>): (actions: seq<MenuAction>)
    ensures |actions| == if kind == Some("clip") || kind == Some("transition") then 2 else 1
    ensures actions[0] == ActionNew
    ensures ActionRemoveClip in actions <==> kind == Some("clip")
    ensures ActionRemoveTransition in actions <==> kind == Some("transition")
  {
    if kind == Some("clip") then [ActionNew, ActionRemoveClip]
    else if kind == Some("transition") then [ActionNew, ActionRemoveTransition]
    else [ActionNew]
  }

  // -------------------------------------------------------------------- zoom

  /** The bit Qt sets in the keyboard modifiers while Ctrl is held. */
  const ControlModifier: bv32 := 0x0400_0000

  /** One notch of a standard mouse wheel. */
  const TickScale: int := 120

  predicate CtrlHeld(modifiers: bv32)
  {
    modifiers & ControlModifier != 0
  }

  function Abs(x: int): nat
  {
    if x < 0 then -x else x
  }

  /** `int(deltaY / 120)`: whole notches, truncated toward zero (not floored) for upward scrolls. */
  function ZoomSteps(deltaY: int): (steps: int)
    ensures Abs(steps) * TickScale <= Abs(deltaY) < (Abs(steps) + 1) * TickScale
    ensures steps > 0 ==> deltaY > 0
    ensures steps < 0 ==> deltaY < 0
  {
    if deltaY >= 0 then deltaY / TickScale else -((-deltaY) / TickScale)
  }

  /** The slider value after a Ctrl+wheel: one page step per notch, the wheel's direction reversed. */
  function ZoomedValue(value: int, pageStep: int, deltaY: int): int
  {
    value - pageStep * ZoomSteps(deltaY)
  }

  /** Scrolling down is the mirror of scrolling up by the same amount (which a floor would break). */
  lemma ZoomStepsOdd(deltaY: int)
    ensures ZoomSteps(-deltaY) == -ZoomSteps(deltaY)
  {
  }

  /** A Ctrl+wheel one way and then back by the same amount leaves the slider where it was. */
  lemma ZoomBackAndForth(value: int, pageStep: int, deltaY: int)
    ensures ZoomedValue(ZoomedValue(value, pageStep, deltaY), pageStep, -deltaY) == value
  {
    ZoomStepsOdd(deltaY);
  }

  // -------------------------------------------------------------- drag and drop

  /** What a drag carries: whether it has URLs, whether it has text, and the text (a file id). */
  datatype MimeData = MimeData(hasUrls: bool, hasText: bool, text: string)

  /** A project file record: its id, its stored path, its media type and its absolute path. */
  datatype FileRecord = FileRecord(id: string, path: string, mediaType: string, absolutePath: string)

  /** The application directory and the thumbnail directory. */
  datatype InfoPaths = InfoPaths(appPath: string, thumbnailPath: string)

  /** The thumbnail shown for a new clip: the file's own for video and images, a fixed audio picture otherwise. */
  function ThumbFor(info: InfoPaths, f: FileRecord): string
  {
    if f.mediaType == "video" || f.mediaType == "image" then JoinPath(info.thumbnailPath, f.id + ".png")
    else JoinPath(JoinPath(info.appPath, "images"), "AudioThumbnail.png")
  }

  /**
   * The thumbnail of a video or an image lies in the thumbnail directory and is
   * named after the file id; any other file gets the audio picture from the
   * application's images directory.
   */
  lemma ThumbForName(info: InfoPaths, f: FileRecord)
    requires '/' !in f.id
    ensures BaseName(ThumbFor(info, f)) ==
      if f.mediaType == "video" || f.mediaType == "image" then f.id + ".png" else "AudioThumbnail.png"
    ensures f.mediaType == "video" || f.mediaType == "image" ==> info.thumbnailPath <= ThumbFor(info, f)
    ensures !(f.mediaType == "video" || f.mediaType == "image") ==> JoinPath(info.appPath, "images") <= ThumbFor(info, f)
  {
    if f.mediaType == "video" || f.mediaType == "image" {
      assert '/' !in f.id + ".png" by {
        forall i | 0 <= i < |f.id + ".png"| ensures (f.id + ".png")[i] != '/' {
          if i < |f.id| { assert (f.id + ".png")[i] == f.id[i]; }
        }
      }
      BaseNameOfJoin(info.thumbnailPath, f.id + ".png");
      JoinPathExtends(info.thumbnailPath, f.id + ".png");
    } else {
      JoinPathExtends(JoinPath(info.appPath, "images"), "AudioThumbnail.png");
      BaseNameOfJoin(JoinPath(info.appPath, "images"), "AudioThumbnail.png");
    }
  }

  /** `clip["reader"]["duration"]`, if the media library's JSON has it. */
  function ReaderDuration(clip: ClipData): Option<Json>
  {
    if "reader" in clip && clip["reader"].Object? && "duration" in clip["reader"].fields
    then Some(clip["reader"].fields["duration"])
    else None
  }

  /** The keys the drop handler writes into the media library's clip JSON. */
  const AddedKeys: set<string> := {"file_id", "title", "image", "duration", "end"}

  /** The media library's clip JSON with the five keys the drop handler writes. */
  function WithClipFields(clip: ClipData, fileId: Json, title: Json, image: Json, duration: Json, end: Json): ClipData
  {
    clip["file_id" := fileId]["title" := title]["image" := image]["duration" := duration]["end" := end]
  }

  /**
   * The clip record built for a dropped file, or None when the media
   * library's JSON has no reader duration (the lookup raises).
   */
  function NewClipRecord(info: InfoPaths, f: FileRecord, clip: ClipData): Option<ClipData>
  {
    match ReaderDuration(clip)
    case None => None
    case Some(duration) =>
      var end := if f.mediaType != "image" then duration else Number("8.0");
      Some(WithClipFields(clip, Str(f.id), Str(BaseName(f.path)), Str(ThumbFor(info, f)), duration, end))
  }

  /**
   * The record is the media library's JSON with the file id, the file name as
   * title, the thumbnail, the reader's duration as duration, and as end the
   * reader's duration, or 8 seconds for an image; every other key is kept.
   */
  lemma NewClipRecordFields(info: InfoPaths, f: FileRecord, clip: ClipData)
    ensures NewClipRecord(info, f, clip).Some? <==> ReaderDuration(clip).Some?
    ensures var r := NewClipRecord(info, f, clip);
      r.Some? ==> && r.value.Keys == clip.Keys + AddedKeys
                  && r.value["file_id"] == Str(f.id)
                  && r.value["title"] == Str(BaseName(f.path))
                  && r.value["image"] == Str(ThumbFor(info, f))
                  && r.value["duration"] == ReaderDuration(clip).value
                  && r.value["end"] == (if f.mediaType == "image" then Number("8.0") else ReaderDuration(clip).value)
                  && (forall k :: k in clip && k !in AddedKeys ==> r.value[k] == clip[k])
  {
    if ReaderDuration(clip).Some? {
      var duration := ReaderDuration(clip).value;
      var end := if f.mediaType != "image" then duration else Number("8.0");
      WithClipFieldsFacts(clip, Str(f.id), Str(BaseName(f.path)), Str(ThumbFor(info, f)), duration, end);
    }
  }

  lemma WithClipFieldsFacts(clip: ClipData, fileId: Json, title: Json, image: Json, duration: Json, end: Json)
    ensures var r := WithClipFields(clip, fileId, title, image, duration, end);
      && r.Keys == clip.Keys + AddedKeys
      && r["file_id"] == fileId && r["title"] == title && r["image"] == image
      && r["duration"] == duration && r["end"] == end
      && (forall k :: k in clip && k !in AddedKeys ==> r[k] == clip[k])
  {
    var m1 := clip["file_id" := fileId];
    var m2 := m1["title" := title];
    var m3 := m2["image" := image];
    var m4 := m3["duration" := duration];
    var m5 := m4["end" := end];
    assert m5 == WithClipFields(clip, fileId, title, image, duration, end);
    assert m5.Keys == clip.Keys + {"file_id"} + {"title"} + {"image"} + {"duration"} + {"end"};
    assert AddedKeys == {"file_id"} + {"title"} + {"image"} + {"duration"} + {"end"};
    assert "title" != "image" by { assert "title"[0] != "image"[0]; }
    assert m5["image"] == image;
    assert m5["title"] == title;
    assert m5["file_id"] == fileId;
    forall k | k in clip && k !in AddedKeys ensures m5[k] == clip[k] {
      assert k != "file_id" && k != "title" && k != "image" && k != "duration" && k != "end";
    }
  }

  /** Writing the first three keys leaves the reader's duration where it was. */
  lemma ReaderDurationKept(clip: ClipData, fileId: Json, title: Json, image: Json)
    ensures ReaderDuration(clip["file_id" := fileId]["title" := title]["image" := image]) == ReaderDuration(clip)
  {
    var m := clip["file_id" := fileId]["title" := title]["image" := image];
    assert "reader" in m <==> "reader" in clip;
    if "reader" in clip {
      assert m["reader"] == clip["reader"];
    }
  }

  /** How a drag event ends: accepted, ignored, or with an exception escaping the handler. */
  datatype DragOutcome = Accepted | Ignored | Raised

  /** The part of the state the drag handlers touch: the `new_clip` flag and the clip store. */
  datatype DragState = DragState(newClip: bool, clips: ClipStore)

  /** The end of `dragEnterEvent` once the file is known: build the record, store it, raise the flag. */
  function StartClip(st: DragState, info: InfoPaths, f: FileRecord, clipJson: ClipData): (DragState, DragOutcome)
  {
    match NewClipRecord(info, f, clipJson)
    case None => (st, Raised)
    case Some(rec) => if "id" !in rec then (st, Raised) else (DragState(true, Upsert(st.clips, rec)), Accepted)
  }

  /**
   * `dragEnterEvent`: only a text drag (no URLs) while no new clip is pending
   * starts one; an unknown file id ignores the event; otherwise the clip
   * record is built, stored, and the flag is raised.
   */
  function DragEnter(st: DragState, files: map<string, FileRecord>, info: InfoPaths, mime: MimeData,
                     clipJsonOf: string -> ClipData): (DragState, DragOutcome)
  {
    if st.newClip || mime.hasUrls || !mime.hasText then (st, Accepted)
    else if mime.text !in files then (st, Ignored)
    else StartClip(st, info, files[mime.text], clipJsonOf(files[mime.text].absolutePath))
  }

  /**
   * What a drag-enter does: nothing while a clip is pending or for a drag that
   * is not plain text; "ignored" exactly for an unknown file id; for a known
   * file whose record can be built and has an id, the record is stored under
   * that id and the flag goes up; "raised", with nothing changed, exactly when
   * that record cannot be built or has no id.
   */
  lemma DragEnterEffect(st: DragState, files: map<string, FileRecord>, info: InfoPaths, mime: MimeData,
                        clipJsonOf: string -> ClipData)
    ensures var r := DragEnter(st, files, info, mime, clipJsonOf);
      && (st.newClip || mime.hasUrls || !mime.hasText ==> r == (st, Accepted))
      && (r.1 == Ignored <==> !st.newClip && !mime.hasUrls && mime.hasText && mime.text !in files)
      && (r.1 != Accepted ==> r.0 == st)
      && (r.0 != st ==> !st.newClip && r.0.newClip && mime.text in files)
      && (r.0.newClip != st.newClip ==>
            var rec := NewClipRecord(info, files[mime.text], clipJsonOf(files[mime.text].absolutePath));
            rec.Some? && "id" in rec.value && r.0.clips == Upsert(st.clips, rec.value))
      && (!st.newClip && !mime.hasUrls && mime.hasText && mime.text in files ==>
            var rec := NewClipRecord(info, files[mime.text], clipJsonOf(files[mime.text].absolutePath));
            (rec.Some? && "id" in rec.value ==> r == (DragState(true, Upsert(st.clips, rec.value)), Accepted)))
      && (r.1 == Raised <==>
            && !st.newClip && !mime.hasUrls && mime.hasText && mime.text in files
            && var rec := NewClipRecord(info, files[mime.text], clipJsonOf(files[mime.text].absolutePath));
               !(rec.Some? && "id" in rec.value))
  {
  }

  /** `dropEvent`: the pending clip is finished. */
  function DropState(st: DragState): DragState
  {
    st.(newClip := false)
  }

  /** The events of drags over the timeline. */
  datatype DragEvent = Enter(mime: MimeData, clipJsonOf: string -> ClipData) | Drop

  /** Runs a sequence of drag events, counting the clips they create. */
  function Run(st: DragState, files: map<string, FileRecord>, info: InfoPaths, evs: seq<DragEvent>): (DragState, nat)
    decreases |evs|
  {
    if |evs| == 0 then (st, 0)
    else
      var (mid, n) := Run(st, files, info, evs[..|evs| - 1]);
      match evs[|evs| - 1]
      case Drop => (DropState(mid), n)
      case Enter(mime, clipJsonOf) =>
        var next := DragEnter(mid, files, info, mime, clipJsonOf).0;
        (next, if next.newClip && !mid.newClip then n + 1 else n)
  }

  /**
   * Within one drag (enter events, no drop) at most one clip is created, and
   * exactly when the flag goes up; a drag that starts with the flag already
   * up (an earlier drag left without dropping) changes nothing at all.
   */
  lemma {:induction false} AtMostOneClipPerDrag(st: DragState, files: map<string, FileRecord>, info: InfoPaths, evs: seq<DragEvent>)
    requires forall i :: 0 <= i < |evs| ==> evs[i].Enter?
    ensures Run(st, files, info, evs).1 == if Run(st, files, info, evs).0.newClip && !st.newClip then 1 else 0
    ensures st.newClip ==> Run(st, files, info, evs) == (st, 0)
    decreases |evs|
  {
    if |evs| > 0 {
      AtMostOneClipPerDrag(st, files, info, evs[..|evs| - 1]);
      assert evs[|evs| - 1].Enter?;
    }
  }

  function Drops(evs: seq<DragEvent>): nat
    decreases |evs|
  {
    if |evs| == 0 then 0 else Drops(evs[..|evs| - 1]) + (if evs[|evs| - 1].Drop? then 1 else 0)
  }

  /**
   * Over any run of drag events, every clip created is paid for by a drop
   * or by the flag being down at the start: from the initial state, at most
   * one clip more than there were drops.
   */
  lemma {:induction false} ClipsBoundedByDrops(st: DragState, files: map<string, FileRecord>, info: InfoPaths, evs: seq<DragEvent>)
    ensures Run(st, files, info, evs).1 + (if Run(st, files, info, evs).0.newClip then 0 else 1)
            <= Drops(evs) + (if st.newClip then 0 else 1)
    decreases |evs|
  {
    if |evs| > 0 {
      ClipsBoundedByDrops(st, files, info, evs[..|evs| - 1]);
    }
  }

  /** A drag that ends in a drop creates at most one clip and leaves the bridge ready for the next one. */
  lemma DragThenDrop(st: DragState, files: map<string, FileRecord>, info: InfoPaths, enters: seq<DragEvent>)
    requires forall i :: 0 <= i < |enters| ==> enters[i].Enter?
    ensures Run(st, files, info, enters + [Drop]).1 <= 1
    ensures !Run(st, files, info, enters + [Drop]).0.newClip
  {
    AtMostOneClipPerDrag(st, files, info, enters);
    assert (enters + [Drop])[..|enters|] == enters;
  }

  // -------------------------------------------------------------- objects

  /** The project data the bridge reads and writes: clip records by id and file records by id. */
  class Project {
    var clips: ClipStore
    var files: map<string, FileRecord>

    constructor (files: map<string, FileRecord>)
      ensures this.clips == map[] && this.files == files
    {
      this.clips := map[];
      this.files := files;
    }

    /** Save a clip record: `Clip.get(id)` or a new `Clip()`, its data replaced, then saved. */
    method Save(data: ClipData)
      requires "id" in data
      modifies this
      ensures clips == Upsert(old(clips), data)
      ensures files == old(files)
    {
      clips := clips[data["id"] := data];
    }
  }

  /** The window's zoom slider. */
  class ZoomSlider {
    var value: int
    var pageStep: int

    constructor (value: int, pageStep: int)
      ensures this.value == value && this.pageStep == pageStep
    {
      this.value := value;
      this.pageStep := pageStep;
    }
  }

  /** The timeline widget: the `new_clip` flag and the scripts it has handed to the page. */
  class TimelineWebView {
    var newClip: bool
    var evaluated: seq<string>
    const project: Project
    const slider: ZoomSlider

    /** A new timeline has no clip pending and has sent no script yet. */
    constructor (project: Project, slider: ZoomSlider)
      ensures !newClip && evaluated == []
      ensures this.project == project && this.slider == slider
    {
      this.project := project;
      this.slider := slider;
      newClip := false;
      evaluated := [];
    }

    /** `changed`: hand the page the script for one change notification. */
    method Changed(action: UpdateAction)
      modifies this
      ensures evaluated == old(evaluated) + [ChangedScript(action)]
      ensures newClip == old(newClip)
    {
      var code: string;
      if action.kind == "load" {
        code := ScopeSelector + ".LoadJson(" + action.json + ");";
      } else {
        code := ScopeSelector + ".ApplyJsonDiff([" + action.json + "]);";
      }
      evaluated := evaluated + [code];
    }

    /** `update_zoom`: hand the page the script that sets the scale. */
    method UpdateZoom(newValue: int)
      modifies this
      ensures evaluated == old(evaluated) + [SetScaleScript(newValue)]
      ensures newClip == old(newClip)
    {
      var code := ScopeSelector + ".setScale(" + IntToString(newValue) + ");";
      evaluated := evaluated + [code];
    }

    /** `update_clip_data`: decode the record and upsert it into the project by id. */
    method UpdateClipData(arg: ClipArg, parse: string -> Option<Json>) returns (r: Result<ClipData, UpdateError>)
      modifies project
      ensures r == ClipDataOf(arg, parse)
      ensures project.clips == if r.Success? then Upsert(old(project.clips), r.value) else old(project.clips)
      ensures project.files == old(project.files)
    {
      var clipData: ClipData;
      match arg {
        case DictArg(d) =>
          clipData := d;
        case TextArg(text) =>
          var parsed := parse(text);
          if parsed.None? {
            return Failure(InvalidJson);
          }
          if !parsed.value.Object? {
            return Failure(NotAnObject);
          }
          clipData := parsed.value.fields;
      }
      if "id" !in clipData {
        return Failure(MissingId);
      }
      project.Save(clipData);
      r := Success(clipData);
    }

    /** `wheelEvent`: with Ctrl held, move the zoom slider; otherwise pass the event on to scroll the page. */
    method WheelEvent(modifiers: bv32, deltaY: int) returns (passedOn: bool)
      modifies slider
      ensures passedOn == !CtrlHeld(modifiers)
      ensures slider.value == if CtrlHeld(modifiers) then ZoomedValue(old(slider.value), old(slider.pageStep), deltaY) else old(slider.value)
      ensures slider.pageStep == old(slider.pageStep)
    {
      if modifiers & ControlModifier != 0 {
        var steps: int;
        if deltaY >= 0 {
          steps := deltaY / TickScale;
        } else {
          steps := -((-deltaY) / TickScale);
        }
        slider.value := slider.value - slider.pageStep * steps;
        passedOn := false;
      } else {
        passedOn := true;
      }
    }

    /**
     * The middle of `dragEnterEvent`: pick the thumbnail and the file name, then
     * add the missing keys to the media library's clip JSON in place.
     */
    method BuildNewClip(info: InfoPaths, file: FileRecord, clipJsonOf: string -> ClipData) returns (clip: Option<ClipData>)
      ensures clip == NewClipRecord(info, file, clipJsonOf(file.absolutePath))
    {
      var thumbPath: string;
      if file.mediaType == "video" || file.mediaType == "image" {
        thumbPath := JoinPath(info.thumbnailPath, file.id + ".png");
      } else {
        thumbPath := JoinPath(JoinPath(info.appPath, "images"), "AudioThumbnail.png");
      }
      var filename := BaseName(file.path);
      var newClip := clipJsonOf(file.absolutePath);
      ghost var original := newClip;
      newClip := newClip["file_id" := Str(file.id)];
      newClip := newClip["title" := Str(filename)];
      newClip := newClip["image" := Str(thumbPath)];
      var duration := ReaderDuration(newClip);
      ReaderDurationKept(original, Str(file.id), Str(filename), Str(thumbPath));
      if duration.None? {
        return None;
      }
      newClip := newClip["duration" := duration.value];
      if file.mediaType != "image" {
        newClip := newClip["end" := duration.value];
      } else {
        newClip := newClip["end" := Number("8.0")];
      }
      clip := Some(newClip);
    }

    /** `dragEnterEvent`: maybe start a new clip from the dragged file id. */
    method DragEnterEvent(mime: MimeData, info: InfoPaths, clipJsonOf: string -> ClipData) returns (outcome: DragOutcome)
      modifies this, project
      ensures (DragState(newClip, project.clips), outcome) ==
        DragEnter(DragState(old(newClip), old(project.clips)), old(project.files), info, mime, clipJsonOf)
      ensures project.files == old(project.files) && evaluated == old(evaluated)
    {
      outcome := Accepted;
      if !newClip && !mime.hasUrls && mime.hasText {
        var fileId := mime.text;
        if fileId !in project.files {
          outcome := Ignored;
        } else {
          var file := project.files[fileId];
          outcome := StartNewClip(info, file, clipJsonOf);
        }
      }
    }

    /** The end of `dragEnterEvent` once the file is found: build the record, store it, raise the flag. */
    method StartNewClip(info: InfoPaths, file: FileRecord, clipJsonOf: string -> ClipData) returns (outcome: DragOutcome)
      modifies this, project
      ensures (DragState(newClip, project.clips), outcome) ==
        StartClip(DragState(old(newClip), old(project.clips)), info, file, clipJsonOf(file.absolutePath))
      ensures project.files == old(project.files) && evaluated == old(evaluated)
    {
      var clip := BuildNewClip(info, file, clipJsonOf);
      if clip.None? {
        return Raised;
      }
      var r := UpdateClipData(DictArg(clip.value), (s: string) => None);
      if r.Failure? {
        return Raised;
      }
      newClip := true;
      return Accepted;
    }

    /** `dropEvent`: the drop ends the drag; the flag goes down. */
    method DropEvent() returns (outcome: DragOutcome)
      modifies this
      ensures !newClip && outcome == Accepted
      ensures evaluated == old(evaluated)
    {
      newClip := false;
      outcome := Accepted;
    }
  }
}
