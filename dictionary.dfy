/** The hierarchical dictionary (crates/sems_dictionary/src/dict.rs): values under keys, and
    sub-dictionaries ("folders") under keys, reached by paths of keys. A folder is owned by the
    dictionary holding it, so below the top level it is a value. */
module Dictionaries {
  import opened Facts

  /** A dictionary as a value: its values and its folders. */
  datatype Dict<K, V> = Dict(entries: map<K, V>, folders: map<K, Dict<K, V>>)

  function Empty<K, V>(): (d: Dict<K, V>)
    ensures d.entries == map[] && d.folders == map[]
  {
    Dict(map[], map[])
  }

  function Lookup<K, V>(m: map<K, V>, k: K): (r: Option<V>)
    ensures r.Some? <==> k in m
    ensures r.Some? ==> r.value == m[k]
  {
    if k in m then Some(m[k]) else None
  }

  /** The folder reached by following a path of folder keys from `d`, if every one exists. */
  function FolderAt<K, V>(d: Dict<K, V>, keys: seq<K>): Option<Dict<K, V>>
    decreases |keys|
  {
    if keys == [] then Some(d)
    else if keys[0] in d.folders then FolderAt(d.folders[keys[0]], keys[1..])
    else None
  }

  /** `get_deep`: a one-key path names a value of this dictionary; a longer one descends into
      the folder its first key names, and finds nothing when that folder is missing. The path
      must not be empty. Put another way, all keys but the last lead through folders, and the
      last names a value of the folder reached. */
  function GetDeep<K, V>(d: Dict<K, V>, path: seq<K>): (r: Option<V>)
    requires |path| > 0
    ensures r == match FolderAt(d, path[..|path| - 1])
                 case None => None
                 case Some(f) => Lookup(f.entries, path[|path| - 1])
    decreases |path|
  {
    if |path| == 1 then Lookup(d.entries, path[0])
    else if path[0] in d.folders then
      assert path[..|path| - 1][1..] == path[1..][..|path[1..]| - 1];
      GetDeep(d.folders[path[0]], path[1..])
    else None
  }

  /** `has_deep`, walking the path as `get_deep` does: it holds exactly when `get_deep` finds
      a value. */
  function HasDeep<K, V>(d: Dict<K, V>, path: seq<K>): (b: bool)
    requires |path| > 0
    ensures b <==> GetDeep(d, path).Some?
    decreases |path|
  {
    if |path| == 1 then path[0] in d.entries
    else if path[0] in d.folders then HasDeep(d.folders[path[0]], path[1..])
    else false
  }

  /** `remove_deep`: the dictionary afterwards and the value removed, which is the value
      `get_deep` finds. */
  function RemovedDeep<K, V>(d: Dict<K, V>, path: seq<K>): (r: (Dict<K, V>, Option<V>))
    requires |path| > 0
    ensures r.1 == GetDeep(d, path)
    decreases |path|
  {
    if |path| == 1 then (d.(entries := d.entries - {path[0]}), Lookup(d.entries, path[0]))
    else if path[0] in d.folders then
      var (f, o) := RemovedDeep(d.folders[path[0]], path[1..]);
      (d.(folders := d.folders[path[0] := f]), o)
    else (d, None)
  }

  /** `get_deep_mut` followed by an assignment through the reference it returns: the
      dictionary afterwards, and whether there was a value to assign to, which is exactly when
      `has_deep` holds. */
  function ReplacedDeep<K, V>(d: Dict<K, V>, path: seq<K>, v: V): (r: (Dict<K, V>, bool))
    requires |path| > 0
    ensures r.1 <==> HasDeep(d, path)
    decreases |path|
  {
    if |path| == 1 then
      if path[0] in d.entries then (d.(entries := d.entries[path[0] := v]), true) else (d, false)
    else if path[0] in d.folders then
      var (f, found) := ReplacedDeep(d.folders[path[0]], path[1..], v);
      (d.(folders := d.folders[path[0] := f]), found)
    else (d, false)
  }

  /** After `remove_deep` nothing is found at the path, and when nothing was found there the
      dictionary is unchanged. */
  lemma {:induction false} RemovedDeepMeaning<K, V>(d: Dict<K, V>, path: seq<K>)
    requires |path| > 0
    ensures GetDeep(RemovedDeep(d, path).0, path).None?
    ensures GetDeep(d, path).None? ==> RemovedDeep(d, path).0 == d
    decreases |path|
  {
    if |path| == 1 {
      if path[0] !in d.entries {
        assert d.entries - {path[0]} == d.entries;
      }
    } else if path[0] in d.folders {
      var f := d.folders[path[0]];
      RemovedDeepMeaning(f, path[1..]);
      if GetDeep(d, path).None? {
        assert d.folders[path[0] := f] == d.folders;
      }
    }
  }

  /** `remove_deep` disturbs no other path. */
  lemma {:induction false} RemovedDeepFrame<K, V>(d: Dict<K, V>, path: seq<K>, other: seq<K>)
    requires |path| > 0 && |other| > 0 && other != path
    ensures GetDeep(RemovedDeep(d, path).0, other) == GetDeep(d, other)
    decreases |path|
  {
    if |path| > 1 && path[0] in d.folders && |other| > 1 && other[0] == path[0] {
      assert other == [other[0]] + other[1..] && path == [path[0]] + path[1..];
      RemovedDeepFrame(d.folders[path[0]], path[1..], other[1..]);
    }
  }

  /** Assigning through `get_deep_mut`: where it succeeds `get_deep` then finds the assigned
      value, and where it fails nothing changes. */
  lemma {:induction false} ReplacedDeepMeaning<K, V>(d: Dict<K, V>, path: seq<K>, v: V)
    requires |path| > 0
    ensures ReplacedDeep(d, path, v).1 ==> GetDeep(ReplacedDeep(d, path, v).0, path) == Some(v)
    ensures !ReplacedDeep(d, path, v).1 ==> ReplacedDeep(d, path, v).0 == d
    decreases |path|
  {
    if |path| > 1 && path[0] in d.folders {
      ReplacedDeepMeaning(d.folders[path[0]], path[1..], v);
    }
  }

  /** Assigning through `get_deep_mut` disturbs no other path. */
  lemma {:induction false} ReplacedDeepFrame<K, V>(d: Dict<K, V>, path: seq<K>, v: V, other: seq<K>)
    requires |path| > 0 && |other| > 0 && other != path
    ensures GetDeep(ReplacedDeep(d, path, v).0, other) == GetDeep(d, other)
    decreases |path|
  {
    if |path| > 1 && path[0] in d.folders && |other| > 1 && other[0] == path[0] {
      assert other == [other[0]] + other[1..] && path == [path[0]] + path[1..];
      ReplacedDeepFrame(d.folders[path[0]], path[1..], v, other[1..]);
    }
  }

  lemma RemovedDeepFrameAll<K, V>(d: Dict<K, V>, path: seq<K>)
    requires |path| > 0
    ensures forall other :: |other| > 0 && other != path ==>
      GetDeep(RemovedDeep(d, path).0, other) == GetDeep(d, other)
  {
    forall other | |other| > 0 && other != path
      ensures GetDeep(RemovedDeep(d, path).0, other) == GetDeep(d, other)
    {
      RemovedDeepFrame(d, path, other);
    }
  }

  lemma ReplacedDeepFrameAll<K, V>(d: Dict<K, V>, path: seq<K>, v: V)
    requires |path| > 0
    ensures forall other :: |other| > 0 && other != path ==>
      GetDeep(ReplacedDeep(d, path, v).0, other) == GetDeep(d, other)
  {
    forall other | |other| > 0 && other != path
      ensures GetDeep(ReplacedDeep(d, path, v).0, other) == GetDeep(d, other)
    {
      ReplacedDeepFrame(d, path, v, other);
    }
  }

  /** A dictionary whose top level is updated in place. Its folders are owned values. */
  class Dictionary<K(==), V> {
    var entries: map<K, V>
    var folders: map<K, Dict<K, V>>

    /** The dictionary as a value. */
    function Contents(): (d: Dict<K, V>)
      reads this
      ensures d.entries == entries && d.folders == folders
    {
      Dict(entries, folders)
    }

    /** `new`: no values and no folders. */
    constructor ()
      ensures Contents() == Empty()
      ensures NoValues() && NoFolders()
    {
      entries := map[];
      folders := map[];
    }

    /** `get`. */
    function Get(key: K): (r: Option<V>)
      reads this
      ensures r.Some? <==> key in entries
      ensures r.Some? ==> r.value == entries[key]
    {
      Lookup(entries, key)
    }

    /** `get_folder`. */
    function GetFolder(key: K): (r: Option<Dict<K, V>>)
      reads this
      ensures r.Some? <==> key in folders
      ensures r.Some? ==> r.value == folders[key]
    {
      Lookup(folders, key)
    }

    /** `has`: whether `get` finds a value. */
    function Has(key: K): (b: bool)
      reads this
      ensures b <==> Get(key).Some?
    {
      key in entries
    }

    /** `has_folder`: whether `get_folder` finds a folder. */
    function HasFolder(key: K): (b: bool)
      reads this
      ensures b <==> GetFolder(key).Some?
    {
      key in folders
    }

    /** `value_count`: the number of keys holding a value. */
    function ValueCount(): (n: nat)
      reads this
      ensures n == |entries.Keys|
    {
      |entries|
    }

    /** `folder_count`: the number of keys holding a folder. */
    function FolderCount(): (n: nat)
      reads this
      ensures n == |folders.Keys|
    {
      |folders|
    }

    /** `no_values`: whether the value count is zero. */
    function NoValues(): (b: bool)
      reads this
      ensures b <==> ValueCount() == 0
    {
      entries == map[]
    }

    /** `no_folders`: whether the folder count is zero. */
    function NoFolders(): (b: bool)
      reads this
      ensures b <==> FolderCount() == 0
    {
      folders == map[]
    }

    /** `insert`: afterwards `get` finds the value; the previous value is returned; the
        folders are untouched. */
    method Insert(key: K, value: V) returns (previous: Option<V>)
      modifies this
      ensures previous == old(Get(key))
      ensures Get(key) == Some(value)
      ensures ValueCount() == old(ValueCount()) + (if previous.None? then 1 else 0)
      ensures entries == old(entries)[key := value]
      ensures folders == old(folders)
    {
      previous := Get(key);
      entries := entries[key := value];
    }

    /** `insert_folder`: the folder counterpart of `insert`; the values are untouched. */
    method InsertFolder(key: K, folder: Dict<K, V>) returns (previous: Option<Dict<K, V>>)
      modifies this
      ensures previous == old(GetFolder(key))
      ensures GetFolder(key) == Some(folder)
      ensures FolderCount() == old(FolderCount()) + (if previous.None? then 1 else 0)
      ensures folders == old(folders)[key := folder]
      ensures entries == old(entries)
    {
      previous := GetFolder(key);
      folders := folders[key := folder];
    }

    /** `get_mut` followed by an assignment through the reference it returns. */
    method ReplaceValue(key: K, value: V) returns (found: bool)
      modifies this
      ensures found <==> old(Has(key))
      ensures found ==> entries == old(entries)[key := value]
      ensures !found ==> entries == old(entries)
      ensures folders == old(folders)
    {
      found := key in entries;
      if found {
        entries := entries[key := value];
      }
    }

    /** `get_folder_mut` followed by an assignment through the reference it returns. */
    method ReplaceFolder(key: K, folder: Dict<K, V>) returns (found: bool)
      modifies this
      ensures found <==> old(HasFolder(key))
      ensures found ==> folders == old(folders)[key := folder]
      ensures !found ==> folders == old(folders)
      ensures entries == old(entries)
    {
      found := key in folders;
      if found {
        folders := folders[key := folder];
      }
    }

    /** `remove`: returns the stored value, afterwards `has` is false; removing a missing key
        returns nothing and changes nothing; the folders are untouched. */
    method Remove(key: K) returns (removed: Option<V>)
      modifies this
      ensures removed == old(Get(key))
      ensures !Has(key)
      ensures ValueCount() == old(ValueCount()) - (if removed.Some? then 1 else 0)
      ensures entries == old(entries) - {key}
      ensures removed.None? ==> entries == old(entries)
      ensures folders == old(folders)
    {
      removed := Get(key);
      entries := entries - {key};
      if removed.None? {
        assert entries == old(entries);
      }
    }

    /** `remove_folder`: the folder counterpart of `remove`; the values are untouched. */
    method RemoveFolder(key: K) returns (removed: Option<Dict<K, V>>)
      modifies this
      ensures removed == old(GetFolder(key))
      ensures !HasFolder(key)
      ensures FolderCount() == old(FolderCount()) - (if removed.Some? then 1 else 0)
      ensures folders == old(folders) - {key}
      ensures entries == old(entries)
    {
      removed := GetFolder(key);
      folders := folders - {key};
    }

    /** `remove_deep`: the value `get_deep` found is returned, and afterwards `get_deep` finds
        nothing there. */
    method RemoveDeep(path: seq<K>) returns (removed: Option<V>)
      requires |path| > 0
      modifies this
      ensures Contents() == RemovedDeep(old(Contents()), path).0
      ensures removed == GetDeep(old(Contents()), path)
      ensures !HasDeep(Contents(), path)
      ensures forall other :: |other| > 0 && other != path ==>
        GetDeep(Contents(), other) == GetDeep(old(Contents()), other)
    {
      ghost var before := Contents();
      RemovedDeepMeaning(before, path);
      if |path| == 1 {
        removed := Remove(path[0]);
      } else if path[0] in folders {
        var (f, o) := RemovedDeep(folders[path[0]], path[1..]);
        folders := folders[path[0] := f];
        removed := o;
      } else {
        removed := None;
      }
      assert Contents() == RemovedDeep(before, path).0;
      RemovedDeepFrameAll(before, path);
    }

    /** `get_deep_mut` followed by an assignment through the reference it returns. */
    method ReplaceDeep(path: seq<K>, value: V) returns (found: bool)
      requires |path| > 0
      modifies this
      ensures Contents() == ReplacedDeep(old(Contents()), path, value).0
      ensures found <==> HasDeep(old(Contents()), path)
      ensures found ==> GetDeep(Contents(), path) == Some(value)
      ensures forall other :: |other| > 0 && other != path ==>
        GetDeep(Contents(), other) == GetDeep(old(Contents()), other)
    {
      ghost var before := Contents();
      ReplacedDeepMeaning(before, path, value);
      if |path| == 1 {
        found := ReplaceValue(path[0], value);
      } else if path[0] in folders {
        var (f, b) := ReplacedDeep(folders[path[0]], path[1..], value);
        folders := folders[path[0] := f];
        found := b;
      } else {
        found := false;
      }
      assert Contents() == ReplacedDeep(before, path, value).0;
      ReplacedDeepFrameAll(before, path, value);
    }
  }
}
