/**
 * The icon pack cache that the extractor reads and updates: an app namespace keyed
 * by full path or app user model id, and a file namespace keyed by extension.
 */
module IconCache {
  import opened Types

  /** A stored icon (`seelen_core::state::Icon`); names are relative to the `system` folder. */
  datatype Icon =
    | Static(path: string)
    | Dynamic(light: string, dark: string, mask: Option<string>)

  /** The store files an icon refers to. */
  function Files(icon: Icon): set<string>
  {
    match icon
    case Static(path) => {path}
    case Dynamic(light, dark, mask) => {light, dark} + (if mask.Some? then {mask.value} else {})
  }

  /** The two namespaces of the system icon pack. */
  datatype Cache = Cache(app: map<string, Icon>, file: map<string, Icon>)

  /** The system icon pack held by the icon manager, and the copy last written to disk. */
  class IconPackManager {
    var app: map<string, Icon>
    var file: map<string, Icon>
    var persisted: Cache

    constructor (app: map<string, Icon>, file: map<string, Icon>)
      ensures this.app == app && this.file == file && persisted == Cache(app, file)
    {
      this.app, this.file := app, file;
      persisted := Cache(app, file);
    }

    function Contents(): Cache
      reads this
    {
      Cache(app, file)
    }

    /** `get_app_icon(key)`. */
    function GetAppIcon(key: string): (r: Option<Icon>)
      reads this
      ensures r.Some? <==> key in app
      ensures r.Some? ==> r.value == app[key]
    {
      if key in app then Some(app[key]) else None
    }

    /**
     * `get_file_icon(path)`: how a path is matched against the file namespace is not
     * modelled; the answer is the lookup's on the current file namespace, whatever the app one holds.
     */
    function GetFileIcon(lookup: (map<string, Icon>, string) -> Option<Icon>, path: string): (r: Option<Icon>)
      reads this
      ensures r == lookup(file, path)
    {
      lookup(file, path)
    }

    /** `add_system_app_icon(key, icon)`: inserts or overwrites one app entry. */
    method AddSystemAppIcon(key: string, icon: Icon)
      modifies this
      ensures app == old(app)[key := icon] && file == old(file) && persisted == old(persisted)
    {
      app := app[key := icon];
    }

    /** `add_system_file_icon(extension, icon)`: inserts or overwrites one file entry. */
    method AddSystemFileIcon(extension: string, icon: Icon)
      modifies this
      ensures file == old(file)[extension := icon] && app == old(app) && persisted == old(persisted)
    {
      file := file[extension := icon];
    }

    /** `write_system_icon_pack()`: on success the persisted pack becomes the in-memory one. */
    method WriteSystemIconPack(writeOk: Cache -> bool) returns (ok: bool)
      modifies this
      ensures ok == writeOk(old(Contents()))
      ensures app == old(app) && file == old(file)
      ensures persisted == if ok then Contents() else old(persisted)
    {
      ok := writeOk(Contents());
      if ok {
        persisted := Contents();
      }
    }
  }
}
