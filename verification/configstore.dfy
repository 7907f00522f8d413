/**
 * The persistent settings store: a tree of JSON values addressed by dotted
 * keys such as `"detection.fps"`, starting from the built-in defaults and
 * overlaid with whatever the settings file holds.
 */
module ConfigStore {
  import opened Wrappers
  import opened Text

  /** A JSON value as Python holds it after `json.load`. */
  datatype Value =
    | Null
    | Bool(b: bool)
    | Int(i: int)
    | Real(r: real)
    | Str(s: string)
    | List(items: seq<Value>)
    | Dict(fields: map<string, Value>)

  /** Python truthiness: `None`, `False`, zero, and empty strings, lists and dicts are false. */
  predicate Truthy(v: Value)
  {
    match v
    case Null => false
    case Bool(b) => b
    case Int(i) => i != 0
    case Real(r) => r != 0.0
    case Str(s) => s != ""
    case List(xs) => xs != []
    case Dict(m) => m != map[]
  }

  /** The numeric value of a bool, int or float (`True == 1`, `False == 0`). */
  function Num(v: Value): Option<real>
  {
    match v
    case Bool(b) => Some(if b then 1.0 else 0.0)
    case Int(i) => Some(i as real)
    case Real(r) => Some(r)
    case _ => None
  }

  /**
   * Python `==` between two values: numbers compare by value across bool,
   * int and float; everything else compares structurally.
   */
  predicate PyEq(a: Value, b: Value)
  {
    if Num(a).Some? && Num(b).Some? then Num(a).value == Num(b).value else a == b
  }

  /** Python `==` is an equivalence: it is reflexive, symmetric and transitive. */
  lemma PyEqIsEquivalence(a: Value, b: Value, c: Value)
    ensures PyEq(a, a)
    ensures PyEq(a, b) ==> PyEq(b, a)
    ensures PyEq(a, b) && PyEq(b, c) ==> PyEq(a, c)
  {
  }

  /** `False == 0 == 0.0` and `True == 1`, while `None` equals only itself. */
  lemma PyEqExamples()
    ensures PyEq(Bool(false), Int(0)) && PyEq(Int(0), Real(0.0)) && PyEq(Bool(true), Int(1))
    ensures !PyEq(Null, Bool(false)) && !PyEq(Null, Int(0))
  {
  }

  /** The built-in settings every store starts from. */
  function Defaults(): map<string, Value>
  {
    map[
      "profile" := Dict(map["name" := Null, "password" := Null, "auto_connect" := Bool(true)]),
      "detection" := Dict(map["fps" := Int(10), "death_cooldown" := Real(5.0),
                              "death_threshold" := Real(0.75), "monitor" := Int(0)]),
      "templates" := Dict(map["death" := Dict(map["builtin" := Str("you_died_en.png"), "custom" := Null])]),
      "hotkeys" := Dict(map["manual_death" := Str("ctrl+shift+d"), "toggle_boss" := Str("ctrl+shift+b"),
                            "toggle_detection" := Str("ctrl+shift+p"), "show_overlay" := Str("ctrl+shift+o")]),
      "overlay" := Dict(map["enabled" := Bool(true), "position" := List([Int(50), Int(50)]),
                            "opacity" := Real(0.85), "scale" := Real(1.0)]),
      "calibration" := Dict(map["completed" := Bool(false), "death_region" := Null])
    ]
  }

  /** A recursive copy of a value: dicts and lists are rebuilt, scalars are shared. */
  function DeepCopy(v: Value): Value
  {
    match v
    case Dict(m) => Dict(map k | k in m :: DeepCopy(m[k]))
    case List(xs) => List(seq(|xs|, i requires 0 <= i < |xs| => DeepCopy(xs[i])))
    case _ => v
  }

  /** A copy holds exactly what the original holds. */
  lemma {:induction false} DeepCopyEqual(v: Value)
    ensures DeepCopy(v) == v
  {
    match v
    case Dict(m) =>
      forall k | k in m
        ensures DeepCopy(m[k]) == m[k]
      {
        DeepCopyEqual(m[k]);
      }
      assert (map k | k in m :: DeepCopy(m[k])) == m;
    case List(xs) =>
      forall i | 0 <= i < |xs|
        ensures DeepCopy(xs[i]) == xs[i]
      {
        DeepCopyEqual(xs[i]);
      }
      assert seq(|xs|, i requires 0 <= i < |xs| => DeepCopy(xs[i])) == xs;
    case _ =>
  }

  // ----- reading by path -----

  /** Walks down `path` through nested dicts; `None` once a key is missing or a value is not a dict. */
  function Lookup(v: Value, path: seq<string>): Option<Value>
    decreases |path|
  {
    if path == [] then Some(v)
    else if v.Dict? && path[0] in v.fields then Lookup(v.fields[path[0]], path[1..])
    else None
  }

  /** `get(key, default)`: the value at the dotted key, or `default` when it is missing or `None`. */
  function GetValue(data: map<string, Value>, key: string, default: Value): Value
  {
    GetPath(data, Split(key, '.'), default)
  }

  /** The value at an already split key, or `default` when it is missing or `None`. */
  function GetPath(data: map<string, Value>, path: seq<string>, default: Value): Value
  {
    match Lookup(Dict(data), path)
    case Some(v) => if v.Null? then default else v
    case None => default
  }

  /** A lookup returns `None` only when `default` is `None`, and returns anything else only if it is stored or is the default. */
  lemma GetValueCases(data: map<string, Value>, key: string, default: Value)
    ensures GetValue(data, key, default) == default
         || Lookup(Dict(data), Split(key, '.')) == Some(GetValue(data, key, default))
    ensures GetValue(data, key, default).Null? ==> default.Null?
  {
  }

  /** A two-segment dotted key reads the nested entry. */
  lemma TwoSegmentKey(data: map<string, Value>, section: string, name: string, default: Value)
    requires '.' !in section && '.' !in name
    ensures GetValue(data, section + "." + name, default) == GetPath(data, [section, name], default)
  {
    assert section + "." + name == section + ['.'] + name;
    SplitTwo(section, '.', name);
  }

  /** A fresh store reads 10 frames per second, threshold 0.75, cooldown 5.0 seconds and an enabled overlay. */
  lemma DefaultsRead()
    ensures GetPath(Defaults(), ["detection", "fps"], Null) == Int(10)
    ensures GetPath(Defaults(), ["detection", "death_threshold"], Null) == Real(0.75)
    ensures GetPath(Defaults(), ["detection", "death_cooldown"], Null) == Real(5.0)
    ensures GetPath(Defaults(), ["overlay", "enabled"], Null) == Bool(true)
  {
  }

  /** The stored `None` under `profile.name` reads as the caller's default. */
  lemma DefaultProfileNameReadsDefault(default: Value)
    ensures GetPath(Defaults(), ["profile", "name"], default) == default
  {
  }

  /** Looking up a path extended by one key looks up that key in the value found so far. */
  lemma {:induction false} LookupSnoc(v: Value, path: seq<string>, k: string)
    ensures Lookup(v, path + [k]) ==
      (match Lookup(v, path)
       case Some(w) => if w.Dict? && k in w.fields then Some(w.fields[k]) else None
       case None => None)
    decreases |path|
  {
    if path != [] {
      assert (path + [k])[1..] == path[1..] + [k];
      if v.Dict? && path[0] in v.fields {
        LookupSnoc(v.fields[path[0]], path[1..], k);
      }
    }
  }

  // ----- writing by path -----

  /**
   * `set` on the path `keys`: missing intermediate dicts are created; an
   * intermediate value that exists but is not a dict makes Python raise,
   * which is `None` here.
   */
  function SetPath(m: map<string, Value>, keys: seq<string>, v: Value): Option<map<string, Value>>
    requires keys != []
    decreases |keys|
  {
    if |keys| == 1 then Some(m[keys[0] := v])
    else
      var k := keys[0];
      if k !in m then
        match SetPath(map[], keys[1..], v)
        case Some(d) => Some(m[k := Dict(d)])
        case None => None
      else if m[k].Dict? then
        match SetPath(m[k].fields, keys[1..], v)
        case Some(d) => Some(m[k := Dict(d)])
        case None => None
      else None
  }

  /** `p` is a proper prefix of `keys` that leads to a stored value that is not a dict. */
  predicate BlockedAt(m: map<string, Value>, keys: seq<string>, j: int)
  {
    0 < j < |keys| && Lookup(Dict(m), keys[..j]).Some? && !Lookup(Dict(m), keys[..j]).value.Dict?
  }

  /** Writing fails exactly when some proper prefix of the path reaches a stored non-dict value. */
  lemma {:induction false} SetPathFailsIff(m: map<string, Value>, keys: seq<string>, v: Value)
    requires keys != []
    ensures SetPath(m, keys, v).None? <==> exists j :: BlockedAt(m, keys, j)
    decreases |keys|
  {
    if |keys| > 1 {
      var k := keys[0];
      var rest := keys[1..];
      if k !in m {
        SetPathIntoEmpty(rest, v);
        forall j | 0 < j < |keys|
          ensures !BlockedAt(m, keys, j)
        {
          assert keys[..j][0] == k;
        }
      } else if m[k].Dict? {
        SetPathFailsIff(m[k].fields, rest, v);
        forall j | 0 < j < |keys|
          ensures BlockedAt(m, keys, j) <==> j > 1 && BlockedAt(m[k].fields, rest, j - 1)
        {
          assert keys[..j][0] == k && keys[..j][1..] == rest[..j - 1];
          assert Lookup(Dict(m), keys[..j]) == Lookup(m[k], rest[..j - 1]);
          if j == 1 {
            assert Lookup(Dict(m), keys[..j]) == Some(m[k]);
          }
        }
        if j :| BlockedAt(m[k].fields, rest, j) {
          assert BlockedAt(m, keys, j + 1);
        }
      } else {
        assert keys[..1][1..] == [];
        assert BlockedAt(m, keys, 1);
      }
    } else {
      forall j | BlockedAt(m, keys, j)
        ensures false
      {
      }
    }
  }

  /** Writing below a freshly created dict never fails. */
  lemma {:induction false} SetPathIntoEmpty(keys: seq<string>, v: Value)
    requires keys != []
    ensures SetPath(map[], keys, v).Some?
    decreases |keys|
  {
    if |keys| > 1 {
      SetPathIntoEmpty(keys[1..], v);
    }
  }

  /** After a successful write the value reads back at its path. */
  lemma {:induction false} SetThenLookup(m: map<string, Value>, keys: seq<string>, v: Value)
    requires keys != [] && SetPath(m, keys, v).Some?
    ensures Lookup(Dict(SetPath(m, keys, v).value), keys) == Some(v)
    decreases |keys|
  {
    if |keys| > 1 {
      var k := keys[0];
      if k !in m {
        SetThenLookup(map[], keys[1..], v);
      } else {
        SetThenLookup(m[k].fields, keys[1..], v);
      }
    }
  }

  /** `get` after a successful `set` of the same key returns the value written (or the default for `None`). */
  lemma SetThenGet(m: map<string, Value>, key: string, v: Value, default: Value)
    requires SetPath(m, Split(key, '.'), v).Some?
    ensures GetValue(SetPath(m, Split(key, '.'), v).value, key, default) == if v.Null? then default else v
  {
    SetThenLookup(m, Split(key, '.'), v);
  }

  /** `p` and `keys` part ways at position `j`: they agree before it and differ at it. */
  predicate DivergeAt(p: seq<string>, keys: seq<string>, j: int)
  {
    0 <= j < |p| && j < |keys| && p[..j] == keys[..j] && p[j] != keys[j]
  }

  /** A write leaves every path that parts ways with the written one as it was. */
  lemma {:induction false} SetLeavesOthers(m: map<string, Value>, keys: seq<string>, v: Value, p: seq<string>, j: int)
    requires keys != [] && SetPath(m, keys, v).Some?
    requires DivergeAt(p, keys, j)
    ensures Lookup(Dict(SetPath(m, keys, v).value), p) == Lookup(Dict(m), p)
    decreases |keys|
  {
    var k := keys[0];
    if j > 0 {
      assert p[0] == k;
      var rest, prest := keys[1..], p[1..];
      assert prest[..j - 1] == p[1..j] && rest[..j - 1] == keys[1..j];
      assert DivergeAt(prest, rest, j - 1);
      if k !in m {
        SetLeavesOthers(map[], rest, v, prest, j - 1);
        EmptyLookup(prest);
      } else {
        SetLeavesOthers(m[k].fields, rest, v, prest, j - 1);
      }
    }
  }

  /** Nothing non-trivial is found below an empty dict. */
  lemma EmptyLookup(p: seq<string>)
    requires p != []
    ensures Lookup(Dict(map[]), p) == None
  {
  }

  // ----- overlaying a loaded file -----

  /**
   * `_merge(base, updates)`: every key of `updates` overrides `base`, except
   * that two dicts under the same key are merged recursively.
   */
  function MergeMaps(base: map<string, Value>, updates: map<string, Value>): (r: map<string, Value>)
    ensures r.Keys == base.Keys + updates.Keys
    decreases Dict(updates)
  {
    map k | k in base.Keys + updates.Keys ::
      if k in updates then
        if k in base && base[k].Dict? && updates[k].Dict? then
          Dict(MergeMaps(base[k].fields, updates[k].fields))
        else updates[k]
      else base[k]
  }

  /** Merging an empty file changes nothing. */
  lemma MergeNothing(base: map<string, Value>)
    ensures MergeMaps(base, map[]) == base
  {
  }

  /** Merging a tree into itself gives the same tree. */
  lemma {:induction false} MergeSelf(m: map<string, Value>)
    ensures MergeMaps(m, m) == m
    decreases Dict(m)
  {
    forall k | k in m
      ensures MergeMaps(m, m)[k] == m[k]
    {
      if m[k].Dict? {
        MergeSelf(m[k].fields);
      }
    }
  }

  /** Loading the same file twice has the effect of loading it once. */
  lemma {:induction false} MergeIdempotent(base: map<string, Value>, updates: map<string, Value>)
    ensures MergeMaps(MergeMaps(base, updates), updates) == MergeMaps(base, updates)
    decreases Dict(updates)
  {
    var r := MergeMaps(base, updates);
    forall k | k in r
      ensures MergeMaps(r, updates)[k] == r[k]
    {
      if k in updates && r[k].Dict? && updates[k].Dict? {
        if k in base && base[k].Dict? {
          MergeIdempotent(base[k].fields, updates[k].fields);
        } else {
          MergeSelf(updates[k].fields);
        }
      }
    }
  }

  /** Every non-dict value in the loaded file is what the merged tree holds at its path. */
  lemma {:induction false} MergeLeafWins(base: map<string, Value>, updates: map<string, Value>, p: seq<string>, x: Value)
    requires Lookup(Dict(updates), p) == Some(x) && !x.Dict?
    ensures Lookup(Dict(MergeMaps(base, updates)), p) == Some(x)
    decreases |p|
  {
    if p != [] {
      var k := p[0];
      if k in base && base[k].Dict? && updates[k].Dict? {
        MergeLeafWins(base[k].fields, updates[k].fields, p[1..], x);
      }
    }
  }

  /**
   * The loaded file does not reach `p`: walking down `p`, it lacks some key
   * while both trees hold dicts on the way there.
   */
  predicate Untouched(base: map<string, Value>, updates: map<string, Value>, p: seq<string>)
    decreases |p|
  {
    p != [] &&
    (p[0] !in updates ||
     (p[0] in base && base[p[0]].Dict? && updates[p[0]].Dict? &&
      Untouched(base[p[0]].fields, updates[p[0]].fields, p[1..])))
  }

  /** Settings the loaded file does not reach keep their value from before the load. */
  lemma {:induction false} MergeKeepsUntouched(base: map<string, Value>, updates: map<string, Value>, p: seq<string>)
    requires Untouched(base, updates, p)
    ensures Lookup(Dict(MergeMaps(base, updates)), p) == Lookup(Dict(base), p)
    decreases |p|
  {
    var k := p[0];
    if k in updates {
      MergeKeepsUntouched(base[k].fields, updates[k].fields, p[1..]);
    }
  }

  // ----- the store -----

  /** What reading the settings file produced. */
  datatype SettingsFile =
    | Missing                  // the file does not exist
    | Unreadable               // invalid JSON or an I/O error
    | Parsed(json: Value)      // the decoded JSON document

  datatype LoadOutcome = Loaded | NotLoaded | Raises

  class Config {
    /** The settings tree; its top level is always a dict. */
    var data: map<string, Value>

    /** A fresh store holds a copy of the defaults. */
    constructor()
      ensures data == Defaults()
    {
      var copy := DeepCopy(Dict(Defaults()));
      DeepCopyEqual(Dict(Defaults()));
      data := copy.fields;
    }

    /** `get(key, default)`: walks the dotted key segment by segment. */
    method Get(key: string, default: Value) returns (r: Value)
      ensures r == GetValue(data, key, default)
    {
      var keys := Split(key, '.');
      var value := Dict(data);
      var i := 0;
      while i < |keys|
        invariant 0 <= i <= |keys|
        invariant Lookup(Dict(data), keys) == Lookup(value, keys[i..])
      {
        if value.Dict? && keys[i] in value.fields {
          assert keys[i..][1..] == keys[i + 1..];
          value := value.fields[keys[i]];
          i := i + 1;
        } else {
          return default;
        }
      }
      assert keys[i..] == [];
      r := if value.Null? then default else value;
    }

    /**
     * `set(key, value)`. `ok` is false where Python raises `TypeError`
     * (some segment before the last names a stored non-dict value); the
     * settings are then exactly as before.
     */
    method Set(key: string, value: Value) returns (ok: bool)
      modifies this
      ensures var r := SetPath(old(data), Split(key, '.'), value);
        (ok <==> r.Some?) && data == (if ok then r.value else old(data))
    {
      var r := SetPath(data, Split(key, '.'), value);
      if r.Some? {
        data := r.value;
        ok := true;
      } else {
        ok := false;
      }
    }

    /**
     * `load()`: a missing or unreadable file leaves the settings alone and
     * reports false; a document that is not a JSON object makes `_merge`
     * raise before changing anything; otherwise it is merged over the settings.
     */
    method Load(file: SettingsFile) returns (outcome: LoadOutcome)
      modifies this
      ensures file.Parsed? && file.json.Dict? ==> outcome == Loaded && data == MergeMaps(old(data), file.json.fields)
      ensures file.Parsed? && !file.json.Dict? ==> outcome == Raises && data == old(data)
      ensures !file.Parsed? ==> outcome == NotLoaded && data == old(data)
    {
      match file
      case Parsed(Dict(updates)) =>
        data := MergeMaps(data, updates);
        outcome := Loaded;
      case Parsed(_) =>
        outcome := Raises;
      case _ =>
        outcome := NotLoaded;
    }
  }
}
