/**
 * The catalogue behind the 3D animated titles screen (src/windows/models/blender_model.py).
 *
 * `update_model` walks the listing of `<app>/blender`, keeps the XML descriptors
 * that pass the window's category toggles and search text, makes sure each kept
 * entry has a cached thumbnail, and appends one three-column row per entry to
 * the table, never appending the same descriptor path twice.
 *
 * The listing, the parsed descriptors, the thumbnail cache's contents, the
 * translation function and the thumbnail generator are all inputs.
 */
module Catalogue {
  import opened Strings

  /** The five fields read from one descriptor file. */
  datatype Descriptor = Descriptor(title: string, description: string, icon: string, category: string, service: string)

  /** One name of the directory listing, whether it is a regular file, and what it parses to. */
  datatype DirEntry = DirEntry(name: string, isFile: bool, doc: Descriptor)

  /** The window's three category actions: "show all", "show video", "show audio". */
  datatype Toggles = Toggles(showAll: bool, showVideo: bool, showAudio: bool)

  /**
   * What one scan reads from outside: the application directory, the thumbnail
   * cache directory, the filter state of the window, the translation function
   * and the thumbnail generator, which reports whether it managed to render
   * the icon at the first path into the thumbnail at the second.
   */
  datatype Env = Env(
    appPath: string,
    cachePath: string,
    toggles: Toggles,
    filterText: string,
    tr: string -> string,
    generate: (string, string) -> bool)

  /** The thumbnail column: the icon shown and its tool tip. */
  datatype Thumb = Thumb(icon: string, toolTip: string)

  /** One table row: thumbnail, translated title, descriptor path. */
  datatype Row = Row(thumb: Thumb, name: string, path: string)

  function EffectsDir(env: Env): string { JoinPath(env.appPath, "blender") }

  function IconsDir(env: Env): string { JoinPath(EffectsDir(env), "icons") }

  function EntryPath(env: Env, e: DirEntry): string { JoinPath(EffectsDir(env), e.name) }

  function IconPath(env: Env, e: DirEntry): string { JoinPath(IconsDir(env), e.doc.icon) }

  function ThumbPath(env: Env, e: DirEntry): string { JoinPath(env.cachePath, e.doc.icon) }

  /** Only regular files whose name contains ".xml" somewhere are read. */
  predicate IsCandidate(e: DirEntry)
  {
    e.isFile && Contains(e.name, ".xml")
  }

  /** The category toggles, in the order the window checks them. */
  predicate CategoryAllows(t: Toggles, category: string)
  {
    if t.showAll then true
    else if t.showVideo then category == "Video"
    else if t.showAudio then category == "Audio"
    else true
  }

  /** The search box: empty text keeps everything, otherwise a case-blind match on the translated title or description. */
  predicate TextAllows(text: string, title: string, description: string)
  {
    text == "" || Contains(Lower(title), Lower(text)) || Contains(Lower(description), Lower(text))
  }

  /** An entry survives both filters. */
  predicate Visible(env: Env, e: DirEntry)
  {
    && IsCandidate(e)
    && CategoryAllows(env.toggles, e.doc.category)
    && TextAllows(env.filterText, env.tr(e.doc.title), env.tr(e.doc.description))
  }

  /** The thumbnail is already cached, or it can be generated now. */
  predicate ThumbOk(env: Env, cache: set<string>, e: DirEntry)
  {
    ThumbPath(env, e) in cache || env.generate(IconPath(env, e), ThumbPath(env, e))
  }

  /** The row built for an entry. */
  function RowOf(env: Env, e: DirEntry): Row
  {
    Row(Thumb(ThumbPath(env, e), env.tr(e.doc.title)), env.tr(e.doc.title), EntryPath(env, e))
  }

  /** The table, the `model_paths` dictionary and the set of thumbnail files that exist. */
  datatype ScanState = ScanState(rows: seq<Row>, paths: map<string, string>, cache: set<string>)

  /** The state `update_model` starts its loop from. */
  function Start(clear: bool, rows: seq<Row>, paths: map<string, string>, cache: set<string>): ScanState
  {
    if clear then ScanState([], map[], cache) else ScanState(rows, paths, cache)
  }

  /** One turn of the loop: filter, make sure of the thumbnail, append unless the path is known. */
  function Step(env: Env, st: ScanState, e: DirEntry): ScanState
  {
    if !Visible(env, e) || !ThumbOk(env, st.cache, e) then st
    else
      var cache := st.cache + {ThumbPath(env, e)};
      var path := EntryPath(env, e);
      if path in st.paths then st.(cache := cache)
      else ScanState(st.rows + [RowOf(env, e)], st.paths[path := path], cache)
  }

  /** The whole loop over a listing, entry by entry from the front. */
  function Scan(env: Env, st: ScanState, es: seq<DirEntry>): ScanState
    decreases |es|
  {
    if |es| == 0 then st else Step(env, Scan(env, st, es[..|es| - 1]), es[|es| - 1])
  }

  /** The paths shown in a table. */
  function RowPaths(rows: seq<Row>): set<string>
  {
    set i | 0 <= i < |rows| :: rows[i].path
  }

  /**
   * The table and the dictionary agree: the dictionary maps each path to
   * itself, its keys are exactly the paths in the table, and no path is in
   * two rows.
   */
  ghost predicate TableValid(rows: seq<Row>, paths: map<string, string>)
  {
    && (forall p :: p in paths ==> paths[p] == p)
    && paths.Keys == RowPaths(rows)
    && (forall i, j :: 0 <= i < j < |rows| ==> rows[i].path != rows[j].path)
  }

  lemma StepValid(env: Env, st: ScanState, e: DirEntry)
    requires TableValid(st.rows, st.paths)
    ensures TableValid(Step(env, st, e).rows, Step(env, st, e).paths)
  {
    var r := Step(env, st, e);
    if r.rows != st.rows {
      var rows := st.rows + [RowOf(env, e)];
      assert r.rows == rows;
      assert RowPaths(rows) == RowPaths(st.rows) + {EntryPath(env, e)} by {
        forall p | p in RowPaths(rows) ensures p in RowPaths(st.rows) + {EntryPath(env, e)} {
          var i :| 0 <= i < |rows| && rows[i].path == p;
          if i < |st.rows| { assert st.rows[i] == rows[i]; }
        }
        forall p | p in RowPaths(st.rows) + {EntryPath(env, e)} ensures p in RowPaths(rows) {
          if p in RowPaths(st.rows) {
            var i :| 0 <= i < |st.rows| && st.rows[i].path == p;
            assert rows[i] == st.rows[i];
          } else {
            assert rows[|st.rows|].path == p;
          }
        }
      }
      forall i, j | 0 <= i < j < |rows| ensures rows[i].path != rows[j].path {
        if j == |st.rows| {
          assert rows[i] == st.rows[i];
          assert st.rows[i].path in RowPaths(st.rows);
        }
      }
    }
  }

  /** A scan keeps the table and `model_paths` in step: no path ever appears in two rows. */
  lemma {:induction false} ScanValid(env: Env, st: ScanState, es: seq<DirEntry>)
    requires TableValid(st.rows, st.paths)
    ensures TableValid(Scan(env, st, es).rows, Scan(env, st, es).paths)
    decreases |es|
  {
    if |es| > 0 {
      ScanValid(env, st, es[..|es| - 1]);
      StepValid(env, Scan(env, st, es[..|es| - 1]), es[|es| - 1]);
    }
  }

  /** A scan only adds: earlier rows stay in front, known paths and cached thumbnails stay. */
  lemma {:induction false} ScanKeeps(env: Env, st: ScanState, es: seq<DirEntry>)
    ensures |st.rows| <= |Scan(env, st, es).rows|
    ensures Scan(env, st, es).rows[..|st.rows|] == st.rows
    ensures st.paths.Keys <= Scan(env, st, es).paths.Keys
    ensures st.cache <= Scan(env, st, es).cache
    decreases |es|
  {
    if |es| > 0 {
      var mid := Scan(env, st, es[..|es| - 1]);
      ScanKeeps(env, st, es[..|es| - 1]);
      var r := Step(env, mid, es[|es| - 1]);
      assert r.rows[..|st.rows|] == mid.rows[..|st.rows|];
    }
  }

  /**
   * Every row a scan adds is the row of a listed entry that passed both
   * filters and whose thumbnail file exists after the scan: an entry whose
   * thumbnail could not be generated gets no row.
   */
  lemma {:induction false} ScanRowsSound(env: Env, st: ScanState, es: seq<DirEntry>, k: int)
    requires |st.rows| <= k < |Scan(env, st, es).rows|
    ensures exists e :: && e in es && Visible(env, e) && ThumbPath(env, e) in Scan(env, st, es).cache
                        && Scan(env, st, es).rows[k] == RowOf(env, e)
    decreases |es|
  {
    var init, last := es[..|es| - 1], es[|es| - 1];
    var mid := Scan(env, st, init);
    ScanKeeps(env, st, init);
    if k < |mid.rows| {
      ScanRowsSound(env, st, init, k);
      var e :| e in init && Visible(env, e) && ThumbPath(env, e) in mid.cache && mid.rows[k] == RowOf(env, e);
      assert Step(env, mid, last).rows[k] == mid.rows[k];
      assert mid.cache <= Step(env, mid, last).cache;
      assert e in es;
    } else {
      assert Scan(env, st, es).rows[k] == RowOf(env, last);
      assert last in es;
    }
  }

  /**
   * Every listed entry that passes both filters and whose thumbnail is cached
   * or can be generated ends up with its path in `model_paths`.
   */
  lemma {:induction false} ScanComplete(env: Env, st: ScanState, es: seq<DirEntry>, e: DirEntry)
    requires e in es && Visible(env, e) && ThumbOk(env, st.cache, e)
    ensures EntryPath(env, e) in Scan(env, st, es).paths
    decreases |es|
  {
    var init, last := es[..|es| - 1], es[|es| - 1];
    var mid := Scan(env, st, init);
    ScanKeeps(env, st, init);
    if e == last {
      assert ThumbOk(env, mid.cache, e);
    } else {
      assert e in init by {
        var i :| 0 <= i < |es| && es[i] == e;
        assert i < |es| - 1 && init[i] == e;
      }
      ScanComplete(env, st, init, e);
    }
  }

  /** The thumbnails a scan of `es` can generate: those of entries that pass both filters and whose generation succeeds. */
  function Generated(env: Env, es: seq<DirEntry>): set<string>
  {
    set e | e in es && Visible(env, e) && env.generate(IconPath(env, e), ThumbPath(env, e)) :: ThumbPath(env, e)
  }

  /**
   * A scan only caches thumbnails that were there already or that it
   * generated for an entry that passed the filters: filtered-out entries
   * never cost a thumbnail.
   */
  lemma {:induction false} ScanCacheBound(env: Env, st: ScanState, es: seq<DirEntry>)
    ensures Scan(env, st, es).cache <= st.cache + Generated(env, es)
    decreases |es|
  {
    if |es| > 0 {
      var init, last := es[..|es| - 1], es[|es| - 1];
      ScanCacheBound(env, st, init);
      assert Generated(env, init) <= Generated(env, es) by {
        forall e | e in init ensures e in es {
          var i :| 0 <= i < |init| && init[i] == e;
          assert es[i] == e;
        }
      }
      var mid := Scan(env, st, init);
      if Visible(env, last) && ThumbOk(env, mid.cache, last) && ThumbPath(env, last) !in mid.cache {
        assert last in es;
        assert ThumbPath(env, last) in Generated(env, es);
      }
    }
  }

  /**
   * A scan adds no row when every entry that could pass already has its path
   * known; `g` stands for the thumbnails the scan may generate on the way.
   */
  lemma {:induction false} ScanAddsNothing(env: Env, st: ScanState, es: seq<DirEntry>, g: set<string>)
    requires Generated(env, es) <= g
    requires forall e :: e in es && Visible(env, e) && (ThumbPath(env, e) in st.cache + g || ThumbOk(env, st.cache, e)) ==> EntryPath(env, e) in st.paths
    ensures Scan(env, st, es).rows == st.rows && Scan(env, st, es).paths == st.paths
    ensures Scan(env, st, es).cache <= st.cache + g
    decreases |es|
  {
    if |es| > 0 {
      var init, last := es[..|es| - 1], es[|es| - 1];
      assert Generated(env, init) <= Generated(env, es) by {
        forall e | e in init ensures e in es {
          var i :| 0 <= i < |init| && init[i] == e;
          assert es[i] == e;
        }
      }
      forall e | e in init ensures e in es {
        var i :| 0 <= i < |init| && init[i] == e;
        assert es[i] == e;
      }
      ScanAddsNothing(env, st, init, g);
      var mid := Scan(env, st, init);
      assert last in es;
      if Visible(env, last) && ThumbOk(env, mid.cache, last) {
        if env.generate(IconPath(env, last), ThumbPath(env, last)) {
          assert ThumbPath(env, last) in Generated(env, es);
        }
        assert ThumbPath(env, last) in st.cache + g;
      }
    }
  }

  /**
   * Refreshing without clearing, over the same listing with the same filters
   * and generator, adds no row and no path: re-scanned paths are not re-added.
   * Stated for icon names that are not absolute paths, so that distinct icons
   * have distinct thumbnail files.
   */
  lemma RescanAddsNothing(env: Env, st: ScanState, es: seq<DirEntry>)
    requires forall e :: e in es ==> IsRelative(e.doc.icon)
    ensures Scan(env, Scan(env, st, es), es).rows == Scan(env, st, es).rows
    ensures Scan(env, Scan(env, st, es), es).paths == Scan(env, st, es).paths
  {
    var first := Scan(env, st, es);
    var g := Generated(env, es);
    ScanCacheBound(env, st, es);
    forall e | e in es && Visible(env, e) && (ThumbPath(env, e) in first.cache + g || ThumbOk(env, first.cache, e))
      ensures EntryPath(env, e) in first.paths
    {
      if ThumbPath(env, e) in st.cache || env.generate(IconPath(env, e), ThumbPath(env, e)) {
        ScanComplete(env, st, es, e);
      } else {
        assert ThumbPath(env, e) in g;
        var e' :| e' in es && Visible(env, e') && env.generate(IconPath(env, e'), ThumbPath(env, e')) && ThumbPath(env, e') == ThumbPath(env, e);
        assert IsRelative(e.doc.icon) && IsRelative(e'.doc.icon);
        JoinPathInjective(env.cachePath, e.doc.icon, e'.doc.icon);
        assert false;
      }
    }
    ScanAddsNothing(env, first, es, g);
  }

  /** Whatever the toggles, "show all" or all three off lets every category through; "show video" wins over "show audio". */
  lemma CategoryFilterCases(t: Toggles, category: string)
    ensures t.showAll || (!t.showVideo && !t.showAudio) ==> CategoryAllows(t, category)
    ensures !t.showAll && t.showVideo ==> (CategoryAllows(t, category) <==> category == "Video")
    ensures !t.showAll && !t.showVideo && t.showAudio ==> (CategoryAllows(t, category) <==> category == "Audio")
  {
  }

  /**
   * The search box keeps an entry exactly when the text is empty or, lower-cased,
   * it occurs in the lower-cased translated title or description.
   */
  lemma TextFilterMeaning(text: string, title: string, description: string)
    ensures TextAllows(text, title, description) <==>
      text == "" || Occurs(Lower(text), Lower(title)) || Occurs(Lower(text), Lower(description))
  {
    ContainsIffOccurs(Lower(title), Lower(text));
    ContainsIffOccurs(Lower(description), Lower(text));
  }

  /** Any name with ".xml" in it is read, not only names that end in ".xml". */
  lemma XmlAnywhereInName(before: string, after: string, doc: Descriptor)
    ensures IsCandidate(DirEntry(before + ".xml" + after, true, doc))
    ensures !IsCandidate(DirEntry(before + ".xml" + after, false, doc))
  {
    var name := before + ".xml" + after;
    assert OccursAt(".xml", name, |before|) by {
      assert name[|before|..|before| + 4] == ".xml";
    }
    ContainsIffOccurs(name, ".xml");
  }

  /**
   * What the scan does as the source is written: the failure handler formats
   * its message with a name that is not defined in `update_model`, so the
   * handler itself raises and the scan stops at the first thumbnail that
   * cannot be generated, keeping the rows appended so far.
   */
  datatype ScanOutcome = Finished(state: ScanState) | Raised(state: ScanState)

  function ScanAsWritten(env: Env, st: ScanState, es: seq<DirEntry>): ScanOutcome
    decreases |es|
  {
    if |es| == 0 then Finished(st)
    else
      match ScanAsWritten(env, st, es[..|es| - 1])
      case Raised(s) => Raised(s)
      case Finished(s) =>
        var e := es[|es| - 1];
        if Visible(env, e) && !ThumbOk(env, s.cache, e) then Raised(s) else Finished(Step(env, s, e))
  }

  /** Where no visible entry lacks a thumbnail, the written code and the intended skip agree. */
  lemma {:induction false} AsWrittenAgreesWithoutFailures(env: Env, st: ScanState, es: seq<DirEntry>)
    requires forall e :: e in es && Visible(env, e) ==> ThumbOk(env, st.cache, e)
    ensures ScanAsWritten(env, st, es) == Finished(Scan(env, st, es))
    decreases |es|
  {
    if |es| > 0 {
      var init, last := es[..|es| - 1], es[|es| - 1];
      forall e | e in init ensures e in es {
        var i :| 0 <= i < |init| && init[i] == e;
        assert es[i] == e;
      }
      AsWrittenAgreesWithoutFailures(env, st, init);
      ScanKeeps(env, st, init);
      assert last in es;
    }
  }

  /**
   * The discrepancy: a visible entry whose thumbnail fails, listed before a
   * visible entry whose thumbnail is fine, stops the written scan with no row
   * for the second entry, while the intended scan skips the first and shows
   * the second.
   */
  lemma FailedThumbnailDropsLaterEntries(env: Env, st: ScanState, bad: DirEntry, good: DirEntry)
    requires Visible(env, bad) && !ThumbOk(env, st.cache, bad)
    requires Visible(env, good) && ThumbOk(env, st.cache, good) && EntryPath(env, good) !in st.paths
    ensures ScanAsWritten(env, st, [bad, good]) == Raised(st)
    ensures Scan(env, st, [bad, good]).rows == st.rows + [RowOf(env, good)]
  {
    assert [bad, good][..1] == [bad];
    assert [bad][..0] == [];
    assert ScanAsWritten(env, st, []) == Finished(st);
    assert ScanAsWritten(env, st, [bad]) == Raised(st);
    assert Scan(env, st, [bad]) == st;
  }

  /** The catalogue object: its table rows and its `model_paths` dictionary. */
  class BlenderModel {
    var rows: seq<Row>
    var modelPaths: map<string, string>

    ghost predicate Valid()
      reads this
    {
      TableValid(rows, modelPaths)
    }

    /** A new catalogue has an empty table and an empty dictionary. */
    constructor ()
      ensures Valid()
      ensures rows == [] && modelPaths == map[]
    {
      rows := [];
      modelPaths := map[];
    }

    /**
     * `update_model(clear)`: with `clear` the table and dictionary are emptied
     * first; then every listed entry is filtered, given a thumbnail if it has
     * none, and appended unless its path is already known. Returns the set of
     * thumbnail files that exist afterwards.
     */
    method UpdateModel(clear: bool, env: Env, listing: seq<DirEntry>, cache: set<string>) returns (cacheAfter: set<string>)
      requires Valid()
      modifies this
      ensures Valid()
      ensures ScanState(rows, modelPaths, cacheAfter) == Scan(env, Start(clear, old(rows), old(modelPaths), cache), listing)
    {
      if clear {
        modelPaths := map[];
        rows := [];
      }
      ghost var start := ScanState(rows, modelPaths, cache);
      assert start == Start(clear, old(rows), old(modelPaths), cache);
      cacheAfter := cache;
      for i := 0 to |listing|
        invariant ScanState(rows, modelPaths, cacheAfter) == Scan(env, start, listing[..i])
      {
        assert listing[..i + 1][..i] == listing[..i];
        var entry := listing[i];
        if !(entry.isFile && Contains(entry.name, ".xml")) {
          continue;
        }
        var path := JoinPath(EffectsDir(env), entry.name);
        var doc := entry.doc;
        if !env.toggles.showAll {
          if env.toggles.showVideo {
            if doc.category != "Video" {
              continue;
            }
          } else if env.toggles.showAudio {
            if doc.category != "Audio" {
              continue;
            }
          }
        }
        if env.filterText != "" {
          var text := Lower(env.filterText);
          if !Contains(Lower(env.tr(doc.title)), text) && !Contains(Lower(env.tr(doc.description)), text) {
            continue;
          }
        }
        var thumbPath := JoinPath(env.cachePath, doc.icon);
        if thumbPath !in cacheAfter {
          var ok := env.generate(JoinPath(IconsDir(env), doc.icon), thumbPath);
          if !ok {
            continue;
          }
          cacheAfter := cacheAfter + {thumbPath};
        }
        var title := env.tr(doc.title);
        var row := Row(Thumb(thumbPath, title), title, path);
        if path !in modelPaths {
          rows := rows + [row];
          modelPaths := modelPaths[path := path];
        }
      }
      assert listing[..|listing|] == listing;
      ScanValid(env, start, listing);
    }
  }
}
