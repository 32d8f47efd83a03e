/** The configuration tree: recursive overlay of an override onto the
    defaults (`merge`), conversion to attribute-access dictionaries
    (`toDict`), and the attribute-access dictionary itself (`Dict`). */
module Config {
  import opened Values

  /** A configuration value: a leaf, or a dictionary.  `attr` marks an
      instance of the attribute-access `Dict` subclass; a plain `dict` has it
      false.  `isinstance(v, dict)` holds for both. */
  datatype Item = Scalar(v: Value) | Dict(entries: map<string, Item>, attr: bool)

  /** Python raises `TypeError` when `k in o` meets a leaf that is neither a
      string nor a tuple, or when a string or tuple is indexed by a key. */
  datatype MergeError = TypeError

  /** `s` occurs in `t` (Python's `s in t` on two strings). */
  predicate IsSubstring(s: string, t: string)
  {
    exists i :: 0 <= i <= |t| && StartsWith(t[i..], s)
  }

  /** The substring test is the existence of a slice equal to `s`. */
  lemma SubstringSlice(s: string, t: string)
    ensures IsSubstring(s, t) <==> exists i, j :: 0 <= i <= j <= |t| && t[i..j] == s
  {
    if IsSubstring(s, t) {
      var i :| 0 <= i <= |t| && StartsWith(t[i..], s);
      assert t[i..i + |s|] == t[i..][..|s|];
    }
    if exists i, j :: 0 <= i <= j <= |t| && t[i..j] == s {
      var i, j :| 0 <= i <= j <= |t| && t[i..j] == s;
      assert t[i..][..|s|] == t[i..j];
    }
  }

  /** `k in o` for the override `o`, whatever it is: key membership on a
      dictionary, a substring test on a string, item membership on a tuple. */
  function Member(o: Item, k: string): (r: Result<bool, MergeError>)
    ensures o.Dict? ==> r == Ok(k in o.entries)
    ensures o.Scalar? && o.v.Str? ==>
      r == Ok(exists i, j :: 0 <= i <= j <= |o.v.s| && o.v.s[i..j] == k)
    ensures o.Scalar? && o.v.Tuple? ==>
      r == Ok(exists i :: 0 <= i < |o.v.items| && o.v.items[i] == Str(k))
    ensures r.Err? <==> o.Scalar? && !o.v.Str? && !o.v.Tuple?
  {
    match o
    case Dict(entries, _) => Ok(k in entries)
    case Scalar(v) =>
      if v.Str? then SubstringSlice(k, v.s); Ok(IsSubstring(k, v.s))
      else if v.Tuple? then Ok(Str(k) in v.items)
      else Err(TypeError)
  }

  /** The value `merge` stores for key `k` whose default is `v`. */
  function MergeEntry(k: string, v: Item, o: Item): Result<Item, MergeError>
    decreases v, 2
  {
    match Member(o, k)
    case Err(e) => Err(e)
    case Ok(found) =>
      if !found then Ok(v)
      else if !o.Dict? then Err(TypeError)
      else if v.Dict? then
        match Merge(v, o.entries[k])
        case Ok(m) => Ok(Dict(m, false))
        case Err(e) => Err(e)
      else Ok(o.entries[k])
  }

  /** `merge(defaults, override)`: a fresh plain dictionary over the keys of
      the defaults; a `TypeError` raised for any key is raised by the call. */
  function Merge(d: Item, o: Item): Result<map<string, Item>, MergeError>
    requires d.Dict?
    decreases d, 1
  {
    if forall k :: k in d.entries ==> MergeEntry(k, d.entries[k], o).Ok? then
      Ok(map k | k in d.entries :: MergeEntry(k, d.entries[k], o).value)
    else Err(TypeError)
  }

  /** The result has exactly the keys of the defaults: keys found only in the
      override are dropped. */
  lemma MergeKeys(d: Item, o: Item)
    requires d.Dict? && Merge(d, o).Ok?
    ensures Merge(d, o).value.Keys == d.entries.Keys
  {
  }

  /** Per key, against a dictionary override: a key missing from the override
      keeps its default; a key in both takes the override's value unless the
      default is a dictionary, which is merged recursively. */
  lemma MergeValues(d: Item, o: Item)
    requires d.Dict? && o.Dict? && Merge(d, o).Ok?
    ensures forall k :: k in d.entries && k !in o.entries ==> Merge(d, o).value[k] == d.entries[k]
    ensures forall k :: k in d.entries && k in o.entries && !d.entries[k].Dict? ==>
      Merge(d, o).value[k] == o.entries[k]
    ensures forall k :: k in d.entries && k in o.entries && d.entries[k].Dict? ==>
      Merge(d.entries[k], o.entries[k]).Ok? &&
      Merge(d, o).value[k] == Dict(Merge(d.entries[k], o.entries[k]).value, false)
  {
    forall k | k in d.entries ensures MergeEntry(k, d.entries[k], o).Ok? {
    }
  }

  /** Merging with an empty override gives back the defaults' entries. */
  lemma MergeEmpty(d: Item, attr: bool)
    requires d.Dict?
    ensures Merge(d, Dict(map[], attr)) == Ok(d.entries)
  {
    var o := Dict(map[], attr);
    forall k | k in d.entries ensures MergeEntry(k, d.entries[k], o) == Ok(d.entries[k]) {
      assert Member(o, k) == Ok(false);
    }
    assert Merge(d, o).Ok?;
    assert Merge(d, o).value == d.entries;
  }

  /** An override that is a dictionary wherever the defaults are, at every
      key both have. */
  predicate Compatible(d: Item, o: Item)
    requires d.Dict?
    decreases d
  {
    && o.Dict?
    && forall k :: k in d.entries && k in o.entries && d.entries[k].Dict? ==>
         Compatible(d.entries[k], o.entries[k])
  }

  /** With such an override `merge` raises nothing. */
  lemma {:induction false} MergeTotal(d: Item, o: Item)
    requires d.Dict? && Compatible(d, o)
    ensures Merge(d, o).Ok?
    decreases d
  {
    forall k | k in d.entries ensures MergeEntry(k, d.entries[k], o).Ok? {
      if k in o.entries && d.entries[k].Dict? {
        MergeTotal(d.entries[k], o.entries[k]);
      }
    }
  }

  /** An override that is neither a dictionary, a string nor a tuple makes
      `k in override` raise as soon as the defaults have a key. */
  lemma MergeNonContainer(d: Item, v: Value, k: string)
    requires d.Dict? && k in d.entries && !v.Str? && !v.Tuple?
    ensures Merge(d, Scalar(v)) == Err(TypeError)
  {
    assert MergeEntry(k, d.entries[k], Scalar(v)).Err?;
  }

  /** The override file's values: a database host and a session secret. */
  const OverrideHost: Value := Str("127.0.0.1")
  const OverrideSecret: Value := Str("1234")

  /** The override file's tree. */
  function OverrideConfigs(): Item
  {
    Dict(map[
      "db" := Dict(map["host" := Scalar(OverrideHost)], false),
      "session" := Dict(map["secret" := Scalar(OverrideSecret)], false)
    ], false)
  }

  /** The database subtree: the host is replaced, the port kept. */
  lemma OverrideDb(defaultHost: Value, port: Value)
    ensures Merge(Dict(map["host" := Scalar(defaultHost), "port" := Scalar(port)], false),
                  OverrideConfigs().entries["db"])
      == Ok(map["host" := Scalar(OverrideHost), "port" := Scalar(port)])
  {
    var db := Dict(map["host" := Scalar(defaultHost), "port" := Scalar(port)], false);
    var odb := OverrideConfigs().entries["db"];
    assert odb == Dict(map["host" := Scalar(OverrideHost)], false);
    MergeTotal(db, odb);
    MergeValues(db, odb);
    MergeKeys(db, odb);
    var m := Merge(db, odb).value;
    var expected := map["host" := Scalar(OverrideHost), "port" := Scalar(port)];
    assert m.Keys == expected.Keys;
    assert m["host"] == expected["host"] && m["port"] == expected["port"];
    assert m == expected;
  }

  /** The session subtree: the secret is replaced. */
  lemma OverrideSession(secret: Value)
    ensures Merge(Dict(map["secret" := Scalar(secret)], false), OverrideConfigs().entries["session"])
      == Ok(map["secret" := Scalar(OverrideSecret)])
  {
    var session := Dict(map["secret" := Scalar(secret)], false);
    var osession := OverrideConfigs().entries["session"];
    assert osession == Dict(map["secret" := Scalar(OverrideSecret)], false);
    MergeTotal(session, osession);
    MergeValues(session, osession);
    MergeKeys(session, osession);
    var m := Merge(session, osession).value;
    assert m.Keys == {"secret"};
    assert m == map["secret" := Scalar(OverrideSecret)];
  }

  /** Merging that override onto defaults shaped like it replaces the host
      and the secret, keeps every other default and adds nothing. */
  lemma OverrideExample(defaultHost: Value, port: Value, secret: Value, debug: Value)
    ensures var d := Dict(map[
        "debug" := Scalar(debug),
        "db" := Dict(map["host" := Scalar(defaultHost), "port" := Scalar(port)], false),
        "session" := Dict(map["secret" := Scalar(secret)], false)
      ], false);
      Merge(d, OverrideConfigs()) == Ok(map[
        "debug" := Scalar(debug),
        "db" := Dict(map["host" := Scalar(OverrideHost), "port" := Scalar(port)], false),
        "session" := Dict(map["secret" := Scalar(OverrideSecret)], false)
      ])
  {
    var db := Dict(map["host" := Scalar(defaultHost), "port" := Scalar(port)], false);
    var session := Dict(map["secret" := Scalar(secret)], false);
    var d := Dict(map["debug" := Scalar(debug), "db" := db, "session" := session], false);
    var o := OverrideConfigs();
    OverrideDb(defaultHost, port);
    OverrideSession(secret);
    MergeTotal(d, o);
    MergeValues(d, o);
    MergeKeys(d, o);
    var r := Merge(d, o).value;
    var expected := map[
        "debug" := Scalar(debug),
        "db" := Dict(map["host" := Scalar(OverrideHost), "port" := Scalar(port)], false),
        "session" := Dict(map["secret" := Scalar(OverrideSecret)], false)
      ];
    assert r.Keys == expected.Keys;
    assert r["debug"] == expected["debug"];
    assert r["db"] == expected["db"];
    assert r["session"] == expected["session"];
    assert r == expected;
  }

  /** `toDict`: the same tree with every dictionary turned into a `Dict`. */
  function ToDict(v: Item): (r: Item)
    ensures r.Dict? <==> v.Dict?
    ensures r.Dict? ==> r.attr && r.entries.Keys == v.entries.Keys
    ensures !v.Dict? ==> r == v
  {
    match v
    case Scalar(_) => v
    case Dict(entries, _) => Dict(map k | k in entries :: ToDict(entries[k]), true)
  }

  /** Every dictionary in the tree is a `Dict`. */
  predicate AllAttr(v: Item)
  {
    v.Dict? ==> v.attr && forall k :: k in v.entries ==> AllAttr(v.entries[k])
  }

  /** The tree's content, forgetting which dictionaries are `Dict`s. */
  function Erase(v: Item): Item
  {
    match v
    case Scalar(_) => v
    case Dict(entries, _) => Dict(map k | k in entries :: Erase(entries[k]), false)
  }

  /** `toDict` changes no key and no leaf at any depth, and leaves only `Dict`s. */
  lemma {:induction false} ToDictPreserves(v: Item)
    ensures Erase(ToDict(v)) == Erase(v)
    ensures AllAttr(ToDict(v))
  {
    if v.Dict? {
      forall k | k in v.entries
        ensures Erase(ToDict(v.entries[k])) == Erase(v.entries[k])
        ensures AllAttr(ToDict(v.entries[k]))
      {
        ToDictPreserves(v.entries[k]);
      }
      assert Erase(ToDict(v)).entries == Erase(v).entries;
    }
  }

  /** Converting twice is converting once. */
  lemma {:induction false} ToDictIdempotent(v: Item)
    ensures ToDict(ToDict(v)) == ToDict(v)
  {
    if v.Dict? {
      forall k | k in v.entries ensures ToDict(ToDict(v.entries[k])) == ToDict(v.entries[k]) {
        ToDictIdempotent(v.entries[k]);
      }
      assert ToDict(ToDict(v)).entries == ToDict(v).entries;
    }
  }

  datatype AttrError = AttributeError(message: string)

  /** What `d.key` finds: an entry of the dictionary, or an attribute of the
      class itself, found by ordinary lookup before `__getattr__` runs. */
  datatype AttrValue = EntryValue(item: Item) | ClassAttribute(name: string)

  /** The public methods a `Dict` inherits from `dict`. */
  const DictMethods: set<string> :=
    {"clear", "copy", "fromkeys", "get", "items", "keys", "pop", "popitem", "setdefault", "update", "values"}

  /** A `__name__` of the class or of `object`, such as `__class__` or `__len__`. */
  predicate IsDunder(key: string)
  {
    |key| > 4 && key[..2] == "__" && key[|key| - 2..] == "__"
  }

  /** The names ordinary attribute lookup resolves on the class. */
  predicate ClassAttrName(key: string)
  {
    key in DictMethods || IsDunder(key)
  }

  /** The attribute-access dictionary `Dict`, as one object whose entries its
      methods change.  Inside a configuration tree, where it is only read, the
      same object is the value `Dict(entries, true)` of `Item`. */
  class AttrDict {
    var entries: map<string, Item>

    /** `Dict(names=(), values=(), **kw)`: the keyword entries, then each pair
        of `zip(names, values)` assigned in order; `Dict()` is empty. */
    constructor(names: seq<string> := [], values: seq<Item> := [], kw: map<string, Item> := map[])
      ensures entries == Overlay(kw, Zip(names, values))
    {
      var pairs := Zip(names, values);
      var m := kw;
      var i := 0;
      while i < |pairs|
        invariant 0 <= i <= |pairs|
        invariant m == Overlay(kw, pairs[..i])
      {
        assert pairs[..i + 1][..i] == pairs[..i];
        m := m[pairs[i].0 := pairs[i].1];
        i := i + 1;
      }
      assert pairs[..i] == pairs;
      entries := m;
    }

    /** `d.key`: a name of the class is found by ordinary lookup, whatever the
        entries hold; any other name reaches `__getattr__`, which gives the
        entry, or `AttributeError` naming the key. */
    function GetAttr(key: string): (r: Result<AttrValue, AttrError>)
      reads this
      ensures ClassAttrName(key) ==> r == Ok(ClassAttribute(key))
      ensures !ClassAttrName(key) ==> (r.Ok? <==> key in entries)
      ensures !ClassAttrName(key) && key in entries ==> r == Ok(EntryValue(entries[key]))
      ensures r.Err? ==> r.error.message == "'Dict' object has no attribute '" + key + "'"
    {
      if ClassAttrName(key) then Ok(ClassAttribute(key))
      else if key in entries then Ok(EntryValue(entries[key]))
      else Err(AttributeError("'Dict' object has no attribute '" + key + "'"))
    }

    /** `d.key = value` writes the entry `key`. */
    method SetAttr(key: string, value: Item)
      modifies this
      ensures entries == old(entries)[key := value]
      ensures !ClassAttrName(key) ==> GetAttr(key) == Ok(EntryValue(value))
      ensures ClassAttrName(key) ==> GetAttr(key) == Ok(ClassAttribute(key))
      ensures forall k :: k != key ==> GetAttr(k) == old(GetAttr(k))
    {
      entries := entries[key := value];
    }
  }

  /** The entries `Dict(names, values, **kw)` starts with: the keyword keys
      and the first `min(|names|, |values|)` names; a name takes the value of
      its last pair, a keyword entry no pair names keeps its value. */
  lemma InitEntries(names: seq<string>, values: seq<Item>, kw: map<string, Item>)
    ensures var n := if |names| < |values| then |names| else |values|;
      var m := Overlay(kw, Zip(names, values));
      && (forall k :: k in m <==> k in kw || k in names[..n])
      && (forall i :: 0 <= i < n && (forall j :: i < j < n ==> names[j] != names[i]) ==> m[names[i]] == values[i])
      && (forall k :: k in kw && k !in names[..n] ==> m[k] == kw[k])
  {
    var n := if |names| < |values| then |names| else |values|;
    var pairs := Zip(names, values);
    OverlayKeys(kw, pairs);
    OverlayLast(kw, pairs);
    OverlayKept(kw, pairs);
    forall k ensures k in names[..n] <==> exists i :: 0 <= i < |pairs| && pairs[i].0 == k {
      if k in names[..n] {
        var i :| 0 <= i < n && names[..n][i] == k;
        assert pairs[i].0 == k;
      }
    }
  }
}
