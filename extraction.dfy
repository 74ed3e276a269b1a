/**
 * `extract_and_save_icon_from_file` and `extract_and_save_icon_umid`: check the
 * cache, pick a strategy from the (lower-cased) extension or the kind of app user
 * model id, store the asset, record it in the icon pack and write the pack.
 *
 * `World` is the state both entry points act on; `FromFile` and `FromUmid` give its
 * new value, and the methods below are proved to produce it on the two objects.
 * `fuel` bounds the shortcut recursion, which the source leaves unbounded.
 */
module Extraction {
  import opened Types
  import opened IconCache
  import opened Environment

  datatype Error =
    | NotAFile           // "Path is not a file"
    | IoError            // copy, save or pack write failed
    | ExtractionFailed   // "Failed to extract icon"
    | LnkUnresolved      // resolve_lnk_target failed
    | TargetIconMissing  // "Ups": no app icon under the target's key
    | NoShortcut         // "No shortcut found for umid"
    | UwpIconMissing     // get_high_quality_icon_path failed
    | OutOfFuel          // recursion bound reached (not in the source)

  datatype Outcome = Ok | Err(error: Error)

  /** An `AppUserModelId`; `id` is what `as_ref()` gives. */
  datatype Aumid = Appx(id: string) | PropertyStore(id: string)

  /** The icon pack, the copy on disk, and the effects kept by `Host`. */
  datatype World = World(cache: Cache, persisted: Cache, stored: set<string>, retrievals: seq<string>, drawn: nat)

  function WorldOf(m: IconPackManager, h: Host): World
    reads m, h
  {
    World(m.Contents(), m.persisted, h.stored, h.retrievals, h.drawn)
  }

  /** The shipped placeholder copied for every `.url` file (`icons/url.png` in the app resources). */
  const UrlPlaceholder: string := "icons/url.png"

  function LowerChar(c: char): char
  {
    if 'A' <= c <= 'Z' then (c as int + 32) as char else c
  }

  /** `to_lowercase`, for ASCII letters: no upper-case letter is left and nothing else changes. */
  function Lower(s: string): (r: string)
    ensures |r| == |s|
    ensures forall i :: 0 <= i < |r| ==> !('A' <= r[i] <= 'Z')
    ensures forall i :: 0 <= i < |s| && !('A' <= s[i] <= 'Z') ==> r[i] == s[i]
    ensures forall i :: 0 <= i < |s| && 'A' <= s[i] <= 'Z' ==> r[i] as int == s[i] as int + 32
  {
    seq(|s|, i requires 0 <= i < |s| => LowerChar(s[i]))
  }

  /** `exe` and `lnk` icons are kept per path in the app namespace. */
  predicate IsAppExtension(ext: string)
  {
    ext == "exe" || ext == "lnk"
  }

  /** The cache lookup that short-circuits `extract_and_save_icon_from_file`. */
  predicate FileCacheHit(p: Platform, cache: Cache, path: string, ext: string)
  {
    if IsAppExtension(ext) then path in cache.app else p.fileIcon(cache.file, path).Some?
  }

  function InsertApp(w: World, key: string, icon: Icon): World
  {
    w.(cache := w.cache.(app := w.cache.app[key := icon]))
  }

  function InsertFile(w: World, key: string, icon: Icon): World
  {
    w.(cache := w.cache.(file := w.cache.file[key := icon]))
  }

  /** `write_system_icon_pack()?` as the last step of a branch. */
  function Write(p: Platform, w: World): (Outcome, World)
  {
    if p.writeOk(w.cache) then (Ok, w.(persisted := w.cache)) else (Err(IoError), w)
  }

  /** The store file name of a static icon: the next uuid with `.png`. */
  function PngName(p: Platform, w: World): string
  {
    p.uuid(w.drawn) + ".png"
  }

  /** `extract_and_save_icon_from_file(path)`. */
  function FromFile(p: Platform, w: World, path: string, fuel: nat): (Outcome, World)
    decreases fuel, 2
  {
    if !p.pathExists(path) || p.isDir(path) then (Err(NotAFile), w)
    else if p.extension(path).None? then (Ok, w)
    else
      var ext := Lower(p.extension(path).value);
      if FileCacheHit(p, w.cache, path, ext) then (Ok, w)
      else FromUncached(p, w, path, ext, fuel)
  }

  /** After a cache miss: draw the store name, then run the strategy of the extension. */
  function FromUncached(p: Platform, w: World, path: string, ext: string, fuel: nat): (Outcome, World)
    decreases fuel, 1
  {
    var name := PngName(p, w);
    var named := w.(drawn := w.drawn + 1);
    if ext == "url" then StoreUrl(p, named, name)
    else
      var tried := named.(retrievals := named.retrievals + [path]);
      if p.iconFromFile(path) then StoreRetrieved(p, tried, path, ext, name)
      else if ext != "lnk" then (Err(ExtractionFailed), tried)
      else FromTarget(p, tried, path, fuel)
  }

  /** A `.url` file: copy the placeholder, record it under the file key "url", write. */
  function StoreUrl(p: Platform, w: World, name: string): (Outcome, World)
  {
    if !p.copyOk(UrlPlaceholder, name) then (Err(IoError), w)
    else Write(p, InsertFile(w.(stored := w.stored + {name}), "url", Static(name)))
  }

  /** A retrieved icon: save it, record it per path (`exe`/`lnk`) or per extension, write. */
  function StoreRetrieved(p: Platform, w: World, path: string, ext: string, name: string): (Outcome, World)
  {
    if !p.saveOk(name) then (Err(IoError), w)
    else
      var saved := w.(stored := w.stored + {name});
      Write(p, if IsAppExtension(ext) then InsertApp(saved, path, Static(name))
               else InsertFile(saved, ext, Static(name)))
  }

  /** A shortcut without an icon: extract its target, then give the shortcut the target's entry. */
  function FromTarget(p: Platform, w: World, path: string, fuel: nat): (Outcome, World)
    decreases fuel, 0
  {
    match p.lnkTarget(path)
    case None => (Err(LnkUnresolved), w)
    case Some(target) =>
      if fuel == 0 then (Err(OutOfFuel), w)
      else
        var (r, after) := FromFile(p, w, target, fuel - 1);
        if r.Err? then (r, after)
        else if target !in after.cache.app then (Err(TargetIconMissing), after)
        else Write(p, InsertApp(after, path, after.cache.app[target]))
  }

  /** `extract_and_save_icon_umid(aumid)`. */
  function FromUmid(p: Platform, w: World, aumid: Aumid, fuel: nat): (Outcome, World)
  {
    if aumid.id in w.cache.app then (Ok, w)
    else
      match aumid
      case Appx(id) =>
        (match p.uwpIcons(id)
         case None => (Err(UwpIconMissing), w)
         case Some((light, dark)) =>
           var n := p.uuid(w.drawn);
           var named := w.(drawn := w.drawn + 1);
           var lightName, darkName := n + "_light.png", n + "_dark.png";
           if !p.copyOk(light, lightName) then (Err(IoError), named)
           else
             var copied := named.(stored := named.stored + {lightName});
             if !p.copyOk(dark, darkName) then (Err(IoError), copied)
             else Write(p, InsertApp(copied.(stored := copied.stored + {darkName}), id,
                                     Dynamic(lightName, darkName, None))))
      case PropertyStore(id) =>
        match p.shortcutFor(id)
        case None => (Err(NoShortcut), w)
        case Some(lnk) =>
          var (r, after) := FromFile(p, w, lnk, fuel);
          if r.Err? then (r, after)
          else if lnk !in after.cache.app then (Err(TargetIconMissing), after)
          else Write(p, InsertApp(after, id, after.cache.app[lnk]))
  }

  /** `extract_and_save_icon_from_file(path)` on the icon manager and the host. */
  method ExtractAndSaveIconFromFile(p: Platform, m: IconPackManager, h: Host, path: string, fuel: nat)
    returns (r: Outcome)
    modifies m, h
    decreases fuel, 2
    ensures (r, WorldOf(m, h)) == FromFile(p, old(WorldOf(m, h)), path, fuel)
  {
    if !p.pathExists(path) || p.isDir(path) {
      return Err(NotAFile);
    }
    var rawExt := p.extension(path);
    if rawExt.None? {
      return Ok;
    }
    var ext := Lower(rawExt.value);
    var isApp := ext == "exe" || ext == "lnk";
    if isApp {
      if m.GetAppIcon(path).Some? {
        return Ok;
      }
    } else if m.GetFileIcon(p.fileIcon, path).Some? {
      return Ok;
    }
    r := ExtractUncached(p, m, h, path, ext, fuel);
  }

  /** The part of `extract_and_save_icon_from_file` after a cache miss. */
  method ExtractUncached(p: Platform, m: IconPackManager, h: Host, path: string, ext: string, fuel: nat)
    returns (r: Outcome)
    modifies m, h
    decreases fuel, 1
    ensures (r, WorldOf(m, h)) == FromUncached(p, old(WorldOf(m, h)), path, ext, fuel)
  {
    var id := h.NewUuid(p);
    var name := id + ".png";
    if ext == "url" {
      r := SaveUrlIcon(p, m, h, name);
      return;
    }
    var retrieved := h.RetrieveIcon(p, path);
    if retrieved {
      r := SaveRetrievedIcon(p, m, h, path, ext, name);
      return;
    }
    if ext == "lnk" {
      r := ExtractFromTarget(p, m, h, path, fuel);
      return;
    }
    return Err(ExtractionFailed);
  }

  /** The `.url` branch: copy the placeholder, record it under "url", write the pack. */
  method SaveUrlIcon(p: Platform, m: IconPackManager, h: Host, name: string) returns (r: Outcome)
    modifies m, h
    ensures (r, WorldOf(m, h)) == StoreUrl(p, old(WorldOf(m, h)), name)
  {
    var copied := h.CopyIcon(p, UrlPlaceholder, name);
    if !copied {
      return Err(IoError);
    }
    m.AddSystemFileIcon("url", Static(name));
    var written := m.WriteSystemIconPack(p.writeOk);
    return if written then Ok else Err(IoError);
  }

  /** The direct branch: save the retrieved icon, record it, write the pack. */
  method SaveRetrievedIcon(p: Platform, m: IconPackManager, h: Host, path: string, ext: string, name: string)
    returns (r: Outcome)
    modifies m, h
    ensures (r, WorldOf(m, h)) == StoreRetrieved(p, old(WorldOf(m, h)), path, ext, name)
  {
    var saved := h.SaveIcon(p, name);
    if !saved {
      return Err(IoError);
    }
    if ext == "exe" || ext == "lnk" {
      m.AddSystemAppIcon(path, Static(name));
    } else {
      m.AddSystemFileIcon(ext, Static(name));
    }
    var written := m.WriteSystemIconPack(p.writeOk);
    return if written then Ok else Err(IoError);
  }

  /** The shortcut fallback: resolve the target, extract it, copy its entry to the shortcut, write. */
  method ExtractFromTarget(p: Platform, m: IconPackManager, h: Host, path: string, fuel: nat)
    returns (r: Outcome)
    modifies m, h
    decreases fuel, 0
    ensures (r, WorldOf(m, h)) == FromTarget(p, old(WorldOf(m, h)), path, fuel)
  {
    var target := p.lnkTarget(path);
    if target.None? {
      return Err(LnkUnresolved);
    }
    if fuel == 0 {
      return Err(OutOfFuel);
    }
    r := ExtractAndSaveIconFromFile(p, m, h, target.value, fuel - 1);
    if r.Err? {
      return;
    }
    var targetIcon := m.GetAppIcon(target.value);
    if targetIcon.None? {
      return Err(TargetIconMissing);
    }
    m.AddSystemAppIcon(path, targetIcon.value);
    var written := m.WriteSystemIconPack(p.writeOk);
    return if written then Ok else Err(IoError);
  }

  /** `extract_and_save_icon_umid(aumid)` on the icon manager and the host. */
  method ExtractAndSaveIconUmid(p: Platform, m: IconPackManager, h: Host, aumid: Aumid, fuel: nat)
    returns (r: Outcome)
    modifies m, h
    ensures (r, WorldOf(m, h)) == FromUmid(p, old(WorldOf(m, h)), aumid, fuel)
  {
    if m.GetAppIcon(aumid.id).Some? {
      return Ok;
    }
    match aumid {
      case Appx(id) =>
        var icons := p.uwpIcons(id);
        if icons.None? {
          return Err(UwpIconMissing);
        }
        var (light, dark) := icons.value;
        var n := h.NewUuid(p);
        var lightName, darkName := n + "_light.png", n + "_dark.png";
        var copied := h.CopyIcon(p, light, lightName);
        if !copied {
          return Err(IoError);
        }
        copied := h.CopyIcon(p, dark, darkName);
        if !copied {
          return Err(IoError);
        }
        m.AddSystemAppIcon(id, Dynamic(lightName, darkName, None));
        var written := m.WriteSystemIconPack(p.writeOk);
        return if written then Ok else Err(IoError);
      case PropertyStore(id) =>
        var lnk := p.shortcutFor(id);
        if lnk.None? {
          return Err(NoShortcut);
        }
        r := ExtractAndSaveIconFromFile(p, m, h, lnk.value, fuel);
        if r.Err? {
          return;
        }
        var lnkIcon := m.GetAppIcon(lnk.value);
        if lnkIcon.None? {
          return Err(TargetIconMissing);
        }
        m.AddSystemAppIcon(id, lnkIcon.value);
        var written := m.WriteSystemIconPack(p.writeOk);
        return if written then Ok else Err(IoError);
    }
  }
}
