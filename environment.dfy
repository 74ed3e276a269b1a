/**
 * Everything outside the extractor: the file system, the shell icon provider,
 * shortcut resolution, the UWP and start-menu managers and the uuid generator.
 * Queries are given as functions; effects on the icon store are kept in `Host`.
 */
module Environment {
  import opened Types
  import opened IconCache

  /** The answers of the outside world. */
  datatype Platform = Platform(
    pathExists: string -> bool,                        // Path::exists
    isDir: string -> bool,                             // Path::is_dir
    extension: string -> Option<string>,               // Path::extension
    fileIcon: (map<string, Icon>, string) -> Option<Icon>, // get_file_icon(path)
    iconFromFile: string -> bool,                      // get_icon_from_file succeeds
    saveOk: string -> bool,                            // RgbaImage::save into the store
    copyOk: (string, string) -> bool,                  // std::fs::copy(source, store name)
    writeOk: Cache -> bool,                            // write_system_icon_pack
    lnkTarget: string -> Option<string>,               // WindowsApi::resolve_lnk_target
    uwpIcons: string -> Option<(string, string)>,      // UwpManager::get_high_quality_icon_path
    shortcutFor: string -> Option<string>,             // search_shortcut_with_same_umid
    uuid: nat -> string)                               // the n-th Uuid::new_v4

  /** The effects of an extraction on the outside world. */
  class Host {
    /** Files present in the `system` folder of the user icon store. */
    var stored: set<string>
    /** Paths handed to `get_icon_from_file`, in call order. */
    var retrievals: seq<string>
    /** Number of uuids drawn so far. */
    var drawn: nat

    constructor (stored: set<string>)
      ensures this.stored == stored && retrievals == [] && drawn == 0
    {
      this.stored := stored;
      retrievals, drawn := [], 0;
    }

    /** `Uuid::new_v4()`. */
    method NewUuid(p: Platform) returns (u: string)
      modifies this`drawn
      ensures u == p.uuid(old(drawn)) && drawn == old(drawn) + 1
    {
      u := p.uuid(drawn);
      drawn := drawn + 1;
    }

    /** `get_icon_from_file(path)`: whether the shell gave a usable icon. */
    method RetrieveIcon(p: Platform, path: string) returns (ok: bool)
      modifies this`retrievals
      ensures ok == p.iconFromFile(path) && retrievals == old(retrievals) + [path]
    {
      ok := p.iconFromFile(path);
      retrievals := retrievals + [path];
    }

    /** `icon.save(system/name)`. */
    method SaveIcon(p: Platform, name: string) returns (ok: bool)
      modifies this`stored
      ensures ok == p.saveOk(name)
      ensures stored == if ok then old(stored) + {name} else old(stored)
    {
      ok := p.saveOk(name);
      if ok {
        stored := stored + {name};
      }
    }

    /** `std::fs::copy(source, system/name)`. */
    method CopyIcon(p: Platform, source: string, name: string) returns (ok: bool)
      modifies this`stored
      ensures ok == p.copyOk(source, name)
      ensures stored == if ok then old(stored) + {name} else old(stored)
    {
      ok := p.copyOk(source, name);
      if ok {
        stored := stored + {name};
      }
    }
  }
}
