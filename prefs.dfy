/**
 * The lazily loaded string-to-string preference store (SimpleChatLibPrefs.cs)
 * over an abstract file.
 */
module Preferences {
  import opened Wrappers

  /**
   * The file chatdata.json: None while it does not exist, otherwise the
   * map its JSON text holds.
   */
  class Disk {
    var file: Option<map<string, string>>

    constructor (file: Option<map<string, string>>)
      ensures this.file == file
    {
      this.file := file;
    }
  }

  /** The map that loading `file` produces: empty when there is no file. */
  function Loaded(file: Option<map<string, string>>): map<string, string>
  {
    match file
    case None => map[]
    case Some(m) => m
  }

  class Prefs {
    /** The `_prefs` field: None until the first Get or Set loads it. */
    var cache: Option<map<string, string>>
    const disk: Disk

    constructor (disk: Disk)
      ensures this.disk == disk && cache == None
    {
      this.disk := disk;
      cache := None;
    }

    /**
     * The map every getter observes: the loaded map, or, before loading,
     * the map loading would produce now.
     */
    function Current(): map<string, string>
      reads this, disk
    {
      match cache
      case Some(m) => m
      case None => Loaded(disk.file)
    }

    /** Replaces the cache by what the file holds, or by an empty map without a file. */
    method Load()
      modifies this
      ensures cache == Some(Loaded(disk.file))
    {
      if disk.file.None? {
        cache := Some(map[]);
        return;
      }
      cache := Some(disk.file.value);
    }

    /** The stored value for `key`, or None; loads the file on first use. */
    method GetString(key: string) returns (value: Option<string>)
      modifies this
      ensures cache == Some(old(Current()))
      ensures old(cache).Some? ==> cache == old(cache)
      ensures value.None? <==> key !in Current()
      ensures value.Some? ==> value.value == Current()[key]
      ensures old(cache).None? && disk.file.None? ==> value == None
    {
      if cache.None? {
        Load();
      }
      value := if key in cache.value then Some(cache.value[key]) else None;
    }

    /** The stored value for `key`, or `defaultValue` when there is none. */
    method GetStringOr(key: string, defaultValue: string) returns (value: string)
      modifies this
      ensures cache == Some(old(Current()))
      ensures key !in Current() ==> value == defaultValue
      ensures key in Current() ==> value == Current()[key]
    {
      var stored := GetString(key);
      value := match stored case Some(v) => v case None => defaultValue;
    }

    /** Stores `value` under `key` in memory; loads the file first if needed. */
    method SetString(key: string, value: string)
      modifies this
      ensures cache == Some(old(Current())[key := value])
      ensures key in Current() && Current()[key] == value
      ensures forall k :: k != key ==> (k in Current() <==> k in old(Current()))
      ensures forall k :: k != key && k in Current() ==> Current()[k] == old(Current())[k]
    {
      if cache.None? {
        Load();
      }
      cache := Some(cache.value[key := value]);
    }

    /**
     * Writes the loaded map to the file; without a loaded map there is
     * nothing to write. Afterwards a fresh load sees what this store sees.
     */
    method Save()
      modifies disk
      ensures cache.None? ==> disk.file == old(disk.file)
      ensures cache.Some? ==> disk.file == cache
      ensures Current() == old(Current())
      ensures Loaded(disk.file) == Current()
    {
      if cache.None? {
        return;
      }
      disk.file := cache;
    }
  }
}
