/**
 * What the two extraction entry points promise: the short-circuits, the entry each
 * strategy records, the `.lnk` and app-id aliasing, the invariants every call keeps,
 * and that a second request for an app key retrieves nothing.
 */
module ExtractionFacts {
  import opened Types
  import opened IconCache
  import opened Environment
  import opened Extraction

  /** The path passes the file guards and has an extension. */
  predicate Proceeds(p: Platform, path: string)
  {
    p.pathExists(path) && !p.isDir(path) && p.extension(path).Some?
  }

  /** The lower-cased extension of a path that has one. */
  function Ext(p: Platform, path: string): string
    requires p.extension(path).Some?
  {
    Lower(p.extension(path).value)
  }

  /** The world once a uuid is drawn and `get_icon_from_file(path)` is called. */
  function Tried(w: World, path: string): World
  {
    w.(drawn := w.drawn + 1, retrievals := w.retrievals + [path])
  }

  /** Past the guards and a cache miss, the extension's strategy runs. */
  lemma FromFileMisses(p: Platform, w: World, path: string, fuel: nat)
    requires Proceeds(p, path) && !FileCacheHit(p, w.cache, path, Ext(p, path))
    ensures FromFile(p, w, path, fuel) == FromUncached(p, w, path, Ext(p, path), fuel)
  {
  }

  /** A shortcut without a retrieved icon falls back to its target once the retrieval is logged. */
  lemma FromFileFallsBack(p: Platform, w: World, path: string, fuel: nat)
    requires Proceeds(p, path) && !FileCacheHit(p, w.cache, path, Ext(p, path))
    requires Ext(p, path) == "lnk" && !p.iconFromFile(path)
    ensures FromFile(p, w, path, fuel) == FromTarget(p, Tried(w, path), path, fuel)
  {
    FromFileMisses(p, w, path, fuel);
  }

  /** Every file an entry of the pack refers to is present in the store. */
  ghost predicate StoreBacksCache(w: World)
  {
    (forall k :: k in w.cache.app ==> Files(w.cache.app[k]) <= w.stored) &&
    (forall k :: k in w.cache.file ==> Files(w.cache.file[k]) <= w.stored)
  }

  /** Nothing is ever taken away: keys, stored files, the retrieval log and the uuid count only grow. */
  ghost predicate Grows(w: World, w': World)
  {
    w.cache.app.Keys <= w'.cache.app.Keys && w.cache.file.Keys <= w'.cache.file.Keys &&
    w.stored <= w'.stored && w.retrievals <= w'.retrievals && w.drawn <= w'.drawn
  }

  /** The pack on disk is the in-memory pack. */
  predicate WrittenThrough(w: World)
  {
    w.persisted == w.cache
  }

  /** A missing path or a directory fails; no extension, or a cache hit, succeeds with nothing changed. */
  lemma FromFileShortCircuits(p: Platform, w: World, path: string, fuel: nat)
    ensures !p.pathExists(path) || p.isDir(path) ==> FromFile(p, w, path, fuel) == (Err(NotAFile), w)
    ensures p.pathExists(path) && !p.isDir(path) && p.extension(path).None? ==> FromFile(p, w, path, fuel) == (Ok, w)
    ensures Proceeds(p, path) && FileCacheHit(p, w.cache, path, Ext(p, path)) ==> FromFile(p, w, path, fuel) == (Ok, w)
  {
  }

  /**
   * A `.url` file copies the placeholder and records it in the file namespace under the
   * fixed key "url", whatever the path; no icon is retrieved. A failed copy records nothing.
   */
  lemma FromFileUrl(p: Platform, w: World, path: string, fuel: nat)
    requires Proceeds(p, path) && Ext(p, path) == "url" && !FileCacheHit(p, w.cache, path, "url")
    ensures var (r, w') := FromFile(p, w, path, fuel);
      w'.retrievals == w.retrievals && w'.drawn == w.drawn + 1 &&
      (p.copyOk(UrlPlaceholder, PngName(p, w)) ==>
        w'.cache == Cache(w.cache.app, w.cache.file["url" := Static(PngName(p, w))]) &&
        w'.stored == w.stored + {PngName(p, w)} &&
        (r == Ok <==> p.writeOk(w'.cache)) && (r == Ok ==> WrittenThrough(w'))) &&
      (!p.copyOk(UrlPlaceholder, PngName(p, w)) ==> r == Err(IoError) && w'.cache == w.cache && w'.stored == w.stored)
  {
  }

  /**
   * A retrieved icon is saved and recorded as `Static("<uuid>.png")`: per path in the app
   * namespace for `exe`/`lnk`, per extension in the file namespace otherwise. A failed save
   * records nothing.
   */
  lemma FromFileDirect(p: Platform, w: World, path: string, fuel: nat)
    requires Proceeds(p, path) && Ext(p, path) != "url" && !FileCacheHit(p, w.cache, path, Ext(p, path))
    requires p.iconFromFile(path)
    ensures var (r, w') := FromFile(p, w, path, fuel);
      var icon := Static(PngName(p, w));
      w'.retrievals == w.retrievals + [path] && w'.drawn == w.drawn + 1 &&
      (p.saveOk(PngName(p, w)) ==>
        w'.cache == (if IsAppExtension(Ext(p, path)) then Cache(w.cache.app[path := icon], w.cache.file)
                     else Cache(w.cache.app, w.cache.file[Ext(p, path) := icon])) &&
        w'.stored == w.stored + {PngName(p, w)} &&
        (r == Ok <==> p.writeOk(w'.cache)) && (r == Ok ==> WrittenThrough(w'))) &&
      (!p.saveOk(PngName(p, w)) ==> r == Err(IoError) && w'.cache == w.cache && w'.stored == w.stored)
  {
  }

  /**
   * Without a retrieved icon only a shortcut has a way out: its target is resolved and
   * extracted, and on success the shortcut's key gets the target's entry. Every other
   * file fails with nothing recorded.
   */
  lemma FromFileNoIcon(p: Platform, w: World, path: string, fuel: nat)
    requires Proceeds(p, path) && Ext(p, path) != "url" && !FileCacheHit(p, w.cache, path, Ext(p, path))
    requires !p.iconFromFile(path)
    ensures var (r, w') := FromFile(p, w, path, fuel);
      (Ext(p, path) != "lnk" ==> r == Err(ExtractionFailed) && w' == Tried(w, path)) &&
      (Ext(p, path) == "lnk" && p.lnkTarget(path).None? ==> r == Err(LnkUnresolved) && w' == Tried(w, path)) &&
      (Ext(p, path) == "lnk" && r == Ok ==>
        p.lnkTarget(path).Some? && p.lnkTarget(path).value in w'.cache.app &&
        path in w'.cache.app && w'.cache.app[path] == w'.cache.app[p.lnkTarget(path).value] &&
        WrittenThrough(w'))
    ensures Ext(p, path) == "lnk" && p.lnkTarget(path).Some? && fuel > 0 ==>
      var target := p.lnkTarget(path).value;
      var (tr, tw) := FromFile(p, Tried(w, path), target, fuel - 1);
      (tr.Err? ==> FromFile(p, w, path, fuel) == (tr, tw)) &&
      (tr == Ok && target !in tw.cache.app ==> FromFile(p, w, path, fuel) == (Err(TargetIconMissing), tw)) &&
      (tr == Ok && target in tw.cache.app ==>
        var (r, w') := FromFile(p, w, path, fuel);
        w'.cache == tw.cache.(app := tw.cache.app[path := tw.cache.app[target]]) &&
        w'.stored == tw.stored && w'.retrievals == tw.retrievals && w'.drawn == tw.drawn &&
        (r == Ok <==> p.writeOk(w'.cache)) && (r == Ok ==> WrittenThrough(w')))
  {
    FromFileMisses(p, w, path, fuel);
    if Ext(p, path) == "lnk" {
      FromFileFallsBack(p, w, path, fuel);
    }
  }

  /** Every call keeps the store backing every entry of the pack. */
  lemma {:induction false} FromFileKeepsStoreBacked(p: Platform, w: World, path: string, fuel: nat)
    requires StoreBacksCache(w)
    ensures StoreBacksCache(FromFile(p, w, path, fuel).1)
    decreases fuel
  {
    if Proceeds(p, path) && !FileCacheHit(p, w.cache, path, Ext(p, path)) && Ext(p, path) != "url" {
      FromFileMisses(p, w, path, fuel);
      var tried := Tried(w, path);
      assert StoreBacksCache(tried);
      if Ext(p, path) == "lnk" && !p.iconFromFile(path) && p.lnkTarget(path).Some? && fuel > 0 {
        FromFileFallsBack(p, w, path, fuel);
        var target := p.lnkTarget(path).value;
        var (r, after) := FromFile(p, tried, target, fuel - 1);
        FromFileKeepsStoreBacked(p, tried, target, fuel - 1);
        if r == Ok && target in after.cache.app {
          InsertKeepsStoreBacked(after, path, after.cache.app[target]);
        }
      } else if p.iconFromFile(path) && p.saveOk(PngName(p, w)) {
        var saved := tried.(stored := tried.stored + {PngName(p, w)});
        if IsAppExtension(Ext(p, path)) {
          InsertKeepsStoreBacked(saved, path, Static(PngName(p, w)));
        } else {
          InsertFileKeepsStoreBacked(saved, Ext(p, path), Static(PngName(p, w)));
        }
      }
    }
  }

  lemma InsertKeepsStoreBacked(w: World, key: string, icon: Icon)
    requires StoreBacksCache(w) && Files(icon) <= w.stored
    ensures StoreBacksCache(InsertApp(w, key, icon))
  {
  }

  lemma InsertFileKeepsStoreBacked(w: World, key: string, icon: Icon)
    requires StoreBacksCache(w) && Files(icon) <= w.stored
    ensures StoreBacksCache(InsertFile(w, key, icon))
  {
  }

  /** Every call only adds: keys, stored files, retrievals and drawn uuids. */
  lemma {:induction false} FromFileGrows(p: Platform, w: World, path: string, fuel: nat)
    ensures Grows(w, FromFile(p, w, path, fuel).1)
    decreases fuel
  {
    var w' := FromFile(p, w, path, fuel).1;
    if Proceeds(p, path) && !FileCacheHit(p, w.cache, path, Ext(p, path)) && Ext(p, path) != "url" {
      FromFileMisses(p, w, path, fuel);
      var tried := Tried(w, path);
      assert w.retrievals <= tried.retrievals;
      if Ext(p, path) == "lnk" && !p.iconFromFile(path) && p.lnkTarget(path).Some? && fuel > 0 {
        FromFileFallsBack(p, w, path, fuel);
        var target := p.lnkTarget(path).value;
        var after := FromFile(p, tried, target, fuel - 1).1;
        FromFileGrows(p, tried, target, fuel - 1);
        assert w'.retrievals == after.retrievals;
      } else {
        assert w'.retrievals == tried.retrievals;
      }
    }
  }

  /** A success that changed the pack has written it. */
  lemma FromFileWritesThrough(p: Platform, w: World, path: string, fuel: nat)
    ensures var (r, w') := FromFile(p, w, path, fuel);
      r == Ok && w'.cache != w.cache ==> WrittenThrough(w')
  {
    if Proceeds(p, path) && !FileCacheHit(p, w.cache, path, Ext(p, path)) {
      FromFileMisses(p, w, path, fuel);
      if Ext(p, path) == "lnk" && !p.iconFromFile(path) {
        FromFileFallsBack(p, w, path, fuel);
      }
    }
  }

  /**
   * After a successful extraction of an `exe` or `lnk`, asking again is a cache hit:
   * nothing is retrieved, stored or recorded, so the icon is retrieved at most once.
   */
  lemma FromFileSecondCallIsHit(p: Platform, w: World, path: string, fuel: nat, fuel2: nat)
    requires p.extension(path).Some? && IsAppExtension(Ext(p, path))
    requires FromFile(p, w, path, fuel).0 == Ok
    ensures var w' := FromFile(p, w, path, fuel).1;
      path in w'.cache.app && FromFile(p, w', path, fuel2) == (Ok, w')
  {
    if Proceeds(p, path) && !FileCacheHit(p, w.cache, path, Ext(p, path)) {
      FromFileMisses(p, w, path, fuel);
      if Ext(p, path) == "lnk" && !p.iconFromFile(path) {
        FromFileFallsBack(p, w, path, fuel);
      }
    }
  }

  /** The recursion bound changes nothing for a call that did not run out of it. */
  lemma {:induction false} FromFileFuelMonotone(p: Platform, w: World, path: string, fuel: nat, more: nat)
    requires fuel <= more && FromFile(p, w, path, fuel).0 != Err(OutOfFuel)
    ensures FromFile(p, w, path, more) == FromFile(p, w, path, fuel)
    decreases fuel
  {
    if Proceeds(p, path) && !FileCacheHit(p, w.cache, path, Ext(p, path)) {
      FromFileMisses(p, w, path, fuel);
      FromFileMisses(p, w, path, more);
      if Ext(p, path) == "lnk" && !p.iconFromFile(path) {
        FromFileFallsBack(p, w, path, fuel);
        FromFileFallsBack(p, w, path, more);
        if p.lnkTarget(path).Some? && fuel > 0 {
          FromFileFuelMonotone(p, Tried(w, path), p.lnkTarget(path).value, fuel - 1, more - 1);
        }
      }
    }
  }

  /** `get_file_icon` finds an entry exactly when the path's lower-cased extension is a key. */
  ghost predicate LookupByExtension(p: Platform)
  {
    forall file: map<string, Icon>, path: string | p.extension(path).Some? ::
      p.fileIcon(file, path).Some? <==> Ext(p, path) in file
  }

  /**
   * With a lookup by extension, a successful extraction of any file with an extension
   * makes every later request for that extension a cache hit; in particular one `.url`
   * file serves every other `.url` file.
   */
  lemma FromFileSharedByExtension(p: Platform, w: World, path: string, other: string, fuel: nat, fuel2: nat)
    requires LookupByExtension(p)
    requires p.extension(path).Some? && !IsAppExtension(Ext(p, path))
    requires FromFile(p, w, path, fuel).0 == Ok
    requires Proceeds(p, other) && Ext(p, other) == Ext(p, path)
    ensures var w' := FromFile(p, w, path, fuel).1;
      Ext(p, path) in w'.cache.file && FromFile(p, w', other, fuel2) == (Ok, w')
  {
  }

  /** An app id already in the app namespace succeeds with nothing changed. */
  lemma FromUmidCacheHit(p: Platform, w: World, aumid: Aumid, fuel: nat)
    requires aumid.id in w.cache.app
    ensures FromUmid(p, w, aumid, fuel) == (Ok, w)
  {
  }

  /**
   * A packaged app copies its light and dark icons under one fresh uuid `<n>` and records
   * `Dynamic("<n>_light.png", "<n>_dark.png", None)`; a failed copy records nothing.
   */
  lemma FromUmidAppx(p: Platform, w: World, id: string, fuel: nat)
    requires id !in w.cache.app
    ensures p.uwpIcons(id).None? ==> FromUmid(p, w, Appx(id), fuel) == (Err(UwpIconMissing), w)
    ensures p.uwpIcons(id).Some? ==>
      var (light, dark) := p.uwpIcons(id).value;
      var n := p.uuid(w.drawn);
      var lightName, darkName := n + "_light.png", n + "_dark.png";
      var (r, w') := FromUmid(p, w, Appx(id), fuel);
      w'.drawn == w.drawn + 1 && w'.retrievals == w.retrievals &&
      (p.copyOk(light, lightName) && p.copyOk(dark, darkName) ==>
        w'.cache == Cache(w.cache.app[id := Dynamic(lightName, darkName, None)], w.cache.file) &&
        w'.stored == w.stored + {lightName, darkName} &&
        (r == Ok <==> p.writeOk(w'.cache)) && (r == Ok ==> WrittenThrough(w'))) &&
      (!(p.copyOk(light, lightName) && p.copyOk(dark, darkName)) ==> r == Err(IoError) && w'.cache == w.cache)
  {
  }

  /**
   * A property-store id goes through its start-menu shortcut: no shortcut fails with
   * nothing changed; otherwise the shortcut is extracted and, on success, the id gets the
   * shortcut's entry.
   */
  lemma FromUmidPropertyStore(p: Platform, w: World, id: string, fuel: nat)
    requires id !in w.cache.app
    ensures p.shortcutFor(id).None? ==> FromUmid(p, w, PropertyStore(id), fuel) == (Err(NoShortcut), w)
    ensures p.shortcutFor(id).Some? ==>
      var lnk := p.shortcutFor(id).value;
      var (lr, lw) := FromFile(p, w, lnk, fuel);
      var (r, w') := FromUmid(p, w, PropertyStore(id), fuel);
      (lr.Err? ==> (r, w') == (lr, lw)) &&
      (lr == Ok && lnk !in lw.cache.app ==> (r, w') == (Err(TargetIconMissing), lw)) &&
      (lr == Ok && lnk in lw.cache.app ==>
        w'.cache == lw.cache.(app := lw.cache.app[id := lw.cache.app[lnk]]) &&
        w'.stored == lw.stored && w'.retrievals == lw.retrievals && w'.drawn == lw.drawn &&
        (r == Ok <==> p.writeOk(w'.cache))) &&
      (r == Ok ==> lnk in w'.cache.app && id in w'.cache.app && w'.cache.app[id] == w'.cache.app[lnk] && WrittenThrough(w'))
  {
  }

  /** `extract_and_save_icon_umid` keeps the store backing every entry of the pack. */
  lemma FromUmidKeepsStoreBacked(p: Platform, w: World, aumid: Aumid, fuel: nat)
    requires StoreBacksCache(w)
    ensures StoreBacksCache(FromUmid(p, w, aumid, fuel).1)
  {
    if aumid.PropertyStore? && aumid.id !in w.cache.app && p.shortcutFor(aumid.id).Some? {
      FromFileKeepsStoreBacked(p, w, p.shortcutFor(aumid.id).value, fuel);
    }
  }

  /** `extract_and_save_icon_umid` only adds. */
  lemma FromUmidGrows(p: Platform, w: World, aumid: Aumid, fuel: nat)
    ensures Grows(w, FromUmid(p, w, aumid, fuel).1)
  {
    if aumid.PropertyStore? && aumid.id !in w.cache.app && p.shortcutFor(aumid.id).Some? {
      FromFileGrows(p, w, p.shortcutFor(aumid.id).value, fuel);
    }
  }

  /** After a successful call, asking again for the same app id is a cache hit. */
  lemma FromUmidSecondCallIsHit(p: Platform, w: World, aumid: Aumid, fuel: nat, fuel2: nat)
    requires FromUmid(p, w, aumid, fuel).0 == Ok
    ensures var w' := FromUmid(p, w, aumid, fuel).1;
      aumid.id in w'.cache.app && FromUmid(p, w', aumid, fuel2) == (Ok, w')
  {
  }
}
