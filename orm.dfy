/** The object-relational mapping of www/orm.py: field descriptors, the schema
    derived from a model class's attributes, the four SQL templates, instance
    values with memoised defaults, and the (sql, args) pair every CRUD
    operation hands to the database. */
module Orm {
  import opened Values
  import opened SqlLiterals

  // ---------------------------------------------------------------------------
  // Field descriptors
  // ---------------------------------------------------------------------------

  /** A field's default: a literal value (`Literal(Null)` is Python's `None`,
      meaning "no default") or a zero-argument factory, named by `id`. */
  datatype Default = Literal(v: Value) | Factory(id: string)

  /** The subclass of `Field` a descriptor was made with (its `__class__.__name__`). */
  datatype FieldKind = BaseField | StringKind | BooleanKind | IntegerKind | FloatKind | TextKind

  /** A column descriptor.  `name` is `None` unless the column name differs
      from the attribute name. */
  datatype Field = Field(kind: FieldKind, name: Option<string>, columnType: string, primaryKey: bool, default: Default)

  /** `field.default is not None`. */
  predicate HasDefault(d: Default)
  {
    !(d.Literal? && d.v.Null?)
  }

  function KindName(k: FieldKind): string
  {
    match k
    case BaseField => "Field"
    case StringKind => "StringField"
    case BooleanKind => "BooleanField"
    case IntegerKind => "IntegerField"
    case FloatKind => "FloatField"
    case TextKind => "TextField"
  }

  /** `str(name)` for a field's name: `None` prints as `None`. */
  function NameText(name: Option<string>): string
  {
    if name.Some? then name.value else "None"
  }

  /** The text `str(field)` shows before the name. */
  function FieldStrPrefix(f: Field): string
  {
    "<" + KindName(f.kind) + ", " + f.columnType + ":"
  }

  /** `str(field)`: `<Kind, column_type:name>`.  The text between the prefix
      and the closing `>` is the name. */
  function FieldStr(f: Field): (r: string)
    ensures StartsWith(r, FieldStrPrefix(f))
    ensures |r| == |FieldStrPrefix(f)| + |NameText(f.name)| + 1
    ensures r[|FieldStrPrefix(f)|..|r| - 1] == NameText(f.name)
    ensures r[|r| - 1] == '>'
  {
    var prefix := FieldStrPrefix(f);
    var shown := NameText(f.name);
    var r := prefix + shown + ">";
    assert r[..|prefix|] == prefix;
    assert r[|prefix|..|r| - 1] == shown;
    r
  }

  /** Two fields of the same kind and column type print alike exactly when
      their names print alike: the name can be read back from `str(field)`. */
  lemma FieldStrName(f: Field, g: Field)
    requires f.kind == g.kind && f.columnType == g.columnType
    ensures FieldStr(f) == FieldStr(g) <==> NameText(f.name) == NameText(g.name)
  {
    var r, t := FieldStr(f), FieldStr(g);
    if r == t {
      assert NameText(f.name) == r[|FieldStrPrefix(f)|..|r| - 1] == NameText(g.name);
    }
  }

  function StringField(name: Option<string> := None, primaryKey: bool := false,
                       default: Default := Literal(Null), ddl: string := "varchar(100)"): (f: Field)
    ensures f.kind == StringKind && f.columnType == ddl
    ensures f.name == name && f.primaryKey == primaryKey && f.default == default
  {
    Field(StringKind, name, ddl, primaryKey, default)
  }

  /** A boolean column can never be the primary key.  The default is passed
      as `defalt`, the keyword the source spells; `default=` is not accepted. */
  function BooleanField(name: Option<string> := None, defalt: Default := Literal(Bool(false))): (f: Field)
    ensures f.kind == BooleanKind && f.columnType == "boolean" && !f.primaryKey
    ensures f.name == name && f.default == defalt
  {
    Field(BooleanKind, name, "boolean", false, defalt)
  }

  function IntegerField(name: Option<string> := None, primaryKey: bool := false,
                        default: Default := Literal(Int(0))): (f: Field)
    ensures f.kind == IntegerKind && f.columnType == "bigint"
    ensures f.name == name && f.primaryKey == primaryKey && f.default == default
  {
    Field(IntegerKind, name, "bigint", primaryKey, default)
  }

  /** The float default `0.0` is kept as an opaque value. */
  function FloatField(name: Option<string> := None, primaryKey: bool := false,
                      default: Default := Literal(Opaque("0.0"))): (f: Field)
    ensures f.kind == FloatKind && f.columnType == "real"
    ensures f.name == name && f.primaryKey == primaryKey && f.default == default
  {
    Field(FloatKind, name, "real", primaryKey, default)
  }

  /** A text column can never be the primary key. */
  function TextField(name: Option<string> := None, default: Default := Literal(Null)): (f: Field)
    ensures f.kind == TextKind && f.columnType == "text" && !f.primaryKey
    ensures f.name == name && f.default == default
  {
    Field(TextKind, name, "text", false, default)
  }

  /** The column an update assigns: the field's own name when it is a
      non-empty string, the attribute name otherwise (`field.name or attr`). */
  function ColumnName(attr: string, f: Field): (c: string)
    ensures f.name.Some? && f.name.value != "" ==> c == f.name.value
    ensures !(f.name.Some? && f.name.value != "") ==> c == attr
  {
    if f.name.Some? && f.name.value != "" then f.name.value else attr
  }

  // ---------------------------------------------------------------------------
  // Placeholders
  // ---------------------------------------------------------------------------

  /** `', '.join` of `n` question marks. */
  function ArgsString(n: nat): string
  {
    Join(Repeat("?", n), ", ")
  }

  /** `create_args_strings(n)`: the placeholder list of an insert. */
  method CreateArgsStrings(n: nat) returns (r: string)
    ensures r == ArgsString(n)
    ensures n == 0 <==> r == ""
    ensures Count(r, '?') == n
    ensures n > 0 ==> |r| == 3 * n - 2
    ensures forall i :: 0 <= i < |r| ==> r[i] == (if i % 3 == 0 then '?' else if i % 3 == 1 then ',' else ' ')
  {
    var l: seq<string> := [];
    var k := 0;
    while k < n
      invariant 0 <= k <= n
      invariant l == Repeat("?", k)
    {
      l := l + ["?"];
      k := k + 1;
    }
    r := Join(l, ", ");
    ArgsStringLength(n);
    ArgsStringCount(n);
    ArgsStringChars(n);
  }

  /** One more placeholder appends `, ?`. */
  lemma ArgsStringSnoc(n: nat)
    requires n > 1
    ensures ArgsString(n) == ArgsString(n - 1) + ", ?"
  {
    assert Repeat("?", n) == Repeat("?", n - 1) + ["?"];
    JoinSnoc(Repeat("?", n - 1), "?", ", ");
  }

  /** The placeholder list holds exactly `n` placeholders. */
  lemma ArgsStringCount(n: nat)
    ensures Count(ArgsString(n), '?') == n
  {
    CountJoin(Repeat("?", n), ", ", '?');
    CountAllRepeat("?", n, '?');
  }

  /** `n` placeholders take one character each and two more between two. */
  lemma {:induction false} ArgsStringLength(n: nat)
    ensures n == 0 <==> ArgsString(n) == ""
    ensures n > 0 ==> |ArgsString(n)| == 3 * n - 2
  {
    if n > 1 {
      ArgsStringLength(n - 1);
      ArgsStringSnoc(n);
    }
  }

  lemma ThirdPosition(q: int, r: int)
    requires 0 <= r < 3
    ensures (3 * q + r) % 3 == r
  {
  }

  /** The placeholder list is `?` at every third position, separated by `, `. */
  lemma {:induction false} ArgsStringChars(n: nat)
    ensures forall i :: 0 <= i < |ArgsString(n)| ==>
      ArgsString(n)[i] == (if i % 3 == 0 then '?' else if i % 3 == 1 then ',' else ' ')
  {
    if n > 1 {
      ArgsStringChars(n - 1);
      ArgsStringLength(n - 1);
      ArgsStringSnoc(n);
      var prev := ArgsString(n - 1);
      var m := |prev|;
      assert m == 3 * (n - 2) + 1;
      ThirdPosition(n - 2, 1);
      ThirdPosition(n - 1, 0);
      ThirdPosition(n - 1, 1);
      forall i | 0 <= i < |ArgsString(n)|
        ensures ArgsString(n)[i] == (if i % 3 == 0 then '?' else if i % 3 == 1 then ',' else ' ')
      {
        if i < m {
          assert ArgsString(n)[i] == prev[i];
        }
      }
    }
  }

  // ---------------------------------------------------------------------------
  // Schema derivation (ModelMetaclass.__new__)
  // ---------------------------------------------------------------------------

  /** A class attribute: a field descriptor or any other value. */
  datatype Attr = FieldAttr(field: Field) | PlainAttr(v: Value)

  /** The class body's attributes, in definition order. */
  type Attrs = seq<(string, Attr)>

  /** What a class body can declare: distinct, non-empty attribute names. */
  predicate ValidAttrs(attrs: Attrs)
  {
    && (forall i :: 0 <= i < |attrs| ==> attrs[i].0 != "")
    && (forall i, j :: 0 <= i < j < |attrs| ==> attrs[i].0 != attrs[j].0)
  }

  datatype OrmError =
    | DuplicatePrimaryKey(attr: string)
    | PrimaryKeyNotFound
    | UnknownField(key: string)
    | InvalidLimit(limit: Value)
    | JoinTypeError
    | MissingColumn(column: string)

  /** What the scan over the attributes has collected so far. */
  datatype ScanState = ScanState(mapping: map<string, Field>, pk: Option<string>, fields: seq<string>)

  /** One step of the scan, for attribute `a`. */
  function ScanStep(st: ScanState, a: (string, Attr)): Result<ScanState, OrmError>
  {
    if !a.1.FieldAttr? then Ok(st)
    else
      var m := st.mapping[a.0 := a.1.field];
      if a.1.field.primaryKey then
        if st.pk.Some? then Err(DuplicatePrimaryKey(a.0)) else Ok(ScanState(m, Some(a.0), st.fields))
      else Ok(ScanState(m, st.pk, st.fields + [a.0]))
  }

  /** The scan of lines 125-134 over the whole attribute list. */
  function Scan(attrs: Attrs): Result<ScanState, OrmError>
  {
    if attrs == [] then Ok(ScanState(map[], None, []))
    else
      var prev := Scan(attrs[..|attrs| - 1]);
      if prev.Err? then prev else ScanStep(prev.value, attrs[|attrs| - 1])
  }

  predicate IsPrimaryKeyAttr(a: (string, Attr))
  {
    a.1.FieldAttr? && a.1.field.primaryKey
  }

  /** Reference definitions: the names of primary-key fields, of the other
      fields, and the name-to-field map, each in definition order. */
  function PrimaryKeyNames(attrs: Attrs): (r: seq<string>)
  {
    if attrs == [] then []
    else PrimaryKeyNames(attrs[..|attrs| - 1]) + (if IsPrimaryKeyAttr(attrs[|attrs| - 1]) then [attrs[|attrs| - 1].0] else [])
  }

  function OrdinaryFieldNames(attrs: Attrs): (r: seq<string>)
  {
    if attrs == [] then []
    else
      var last := attrs[|attrs| - 1];
      OrdinaryFieldNames(attrs[..|attrs| - 1]) + (if last.1.FieldAttr? && !last.1.field.primaryKey then [last.0] else [])
  }

  function FieldMapping(attrs: Attrs): map<string, Field>
  {
    if attrs == [] then map[]
    else
      var last := attrs[|attrs| - 1];
      var m := FieldMapping(attrs[..|attrs| - 1]);
      if last.1.FieldAttr? then m[last.0 := last.1.field] else m
  }

  /** The scan succeeds exactly when at most one primary key is declared; its
      collected state is then the reference definitions, and a failure names
      the second primary-key attribute. */
  lemma {:induction false} ScanCharacterised(attrs: Attrs)
    ensures Scan(attrs).Ok? <==> |PrimaryKeyNames(attrs)| <= 1
    ensures Scan(attrs).Ok? ==> Scan(attrs).value == ScanState(
      FieldMapping(attrs),
      if PrimaryKeyNames(attrs) == [] then None else Some(PrimaryKeyNames(attrs)[0]),
      OrdinaryFieldNames(attrs))
    ensures Scan(attrs).Err? ==> Scan(attrs).error == DuplicatePrimaryKey(PrimaryKeyNames(attrs)[1])
  {
    if attrs != [] {
      ScanCharacterised(attrs[..|attrs| - 1]);
    }
  }

  /** Every mapped name is a field attribute, and each field attribute is mapped. */
  lemma {:induction false} FieldMappingKeys(attrs: Attrs)
    requires ValidAttrs(attrs)
    ensures forall k :: k in FieldMapping(attrs) <==> exists i :: 0 <= i < |attrs| && attrs[i].0 == k && attrs[i].1.FieldAttr?
    ensures forall i :: 0 <= i < |attrs| && attrs[i].1.FieldAttr? ==>
      attrs[i].0 in FieldMapping(attrs) && FieldMapping(attrs)[attrs[i].0] == attrs[i].1.field
  {
    if attrs != [] {
      var init := attrs[..|attrs| - 1];
      assert ValidAttrs(init);
      FieldMappingKeys(init);
      forall k | k in FieldMapping(attrs)
        ensures exists i :: 0 <= i < |attrs| && attrs[i].0 == k && attrs[i].1.FieldAttr?
      {
        if k in FieldMapping(init) {
          var i :| 0 <= i < |init| && init[i].0 == k && init[i].1.FieldAttr?;
          assert attrs[i] == init[i];
        } else {
          assert attrs[|attrs| - 1].0 == k;
        }
      }
      forall k | exists i :: 0 <= i < |attrs| && attrs[i].0 == k && attrs[i].1.FieldAttr?
        ensures k in FieldMapping(attrs)
      {
        var i :| 0 <= i < |attrs| && attrs[i].0 == k && attrs[i].1.FieldAttr?;
        if i < |init| {
          assert init[i] == attrs[i];
        }
      }
      forall i | 0 <= i < |attrs| && attrs[i].1.FieldAttr?
        ensures attrs[i].0 in FieldMapping(attrs) && FieldMapping(attrs)[attrs[i].0] == attrs[i].1.field
      {
        if i < |init| {
          assert init[i] == attrs[i];
          assert attrs[i].0 != attrs[|attrs| - 1].0;
        }
      }
    }
  }

  /** The ordinary field names are the non-key field attributes. */
  lemma {:induction false} OrdinaryNamesMembers(attrs: Attrs)
    ensures forall k :: k in OrdinaryFieldNames(attrs) <==>
      exists i :: 0 <= i < |attrs| && attrs[i].0 == k && attrs[i].1.FieldAttr? && !attrs[i].1.field.primaryKey
  {
    if attrs != [] {
      var init := attrs[..|attrs| - 1];
      OrdinaryNamesMembers(init);
      forall k ensures k in OrdinaryFieldNames(attrs) <==>
        exists i :: 0 <= i < |attrs| && attrs[i].0 == k && attrs[i].1.FieldAttr? && !attrs[i].1.field.primaryKey
      {
        if exists i :: 0 <= i < |attrs| && attrs[i].0 == k && attrs[i].1.FieldAttr? && !attrs[i].1.field.primaryKey {
          var i :| 0 <= i < |attrs| && attrs[i].0 == k && attrs[i].1.FieldAttr? && !attrs[i].1.field.primaryKey;
          if i < |init| { assert init[i] == attrs[i]; }
        }
        if k in OrdinaryFieldNames(init) {
          var i :| 0 <= i < |init| && init[i].0 == k && init[i].1.FieldAttr? && !init[i].1.field.primaryKey;
          assert attrs[i] == init[i];
        }
      }
    }
  }

  /** The primary-key names are the attributes declaring a primary key. */
  lemma {:induction false} PrimaryKeyNamesMembers(attrs: Attrs)
    ensures forall k :: k in PrimaryKeyNames(attrs) <==>
      exists i :: 0 <= i < |attrs| && attrs[i].0 == k && IsPrimaryKeyAttr(attrs[i])
  {
    if attrs != [] {
      var init := attrs[..|attrs| - 1];
      PrimaryKeyNamesMembers(init);
      forall k ensures k in PrimaryKeyNames(attrs) <==>
        exists i :: 0 <= i < |attrs| && attrs[i].0 == k && IsPrimaryKeyAttr(attrs[i])
      {
        if exists i :: 0 <= i < |attrs| && attrs[i].0 == k && IsPrimaryKeyAttr(attrs[i]) {
          var i :| 0 <= i < |attrs| && attrs[i].0 == k && IsPrimaryKeyAttr(attrs[i]);
          if i < |init| { assert init[i] == attrs[i]; }
        }
        if k in PrimaryKeyNames(init) {
          var i :| 0 <= i < |init| && init[i].0 == k && IsPrimaryKeyAttr(init[i]);
          assert attrs[i] == init[i];
        }
      }
    }
  }

  /** Distinct attribute names give distinct ordinary field names. */
  lemma {:induction false} OrdinaryNamesDistinct(attrs: Attrs)
    requires ValidAttrs(attrs)
    ensures Distinct(OrdinaryFieldNames(attrs))
  {
    if attrs != [] {
      var init := attrs[..|attrs| - 1];
      var last := attrs[|attrs| - 1];
      assert ValidAttrs(init);
      OrdinaryNamesDistinct(init);
      if last.1.FieldAttr? && !last.1.field.primaryKey {
        var prev := OrdinaryFieldNames(init);
        var all := prev + [last.0];
        assert OrdinaryFieldNames(attrs) == all;
        assert last.0 !in prev by {
          OrdinaryNamesMembers(init);
        }
        forall i, j | 0 <= i < j < |all| ensures all[i] != all[j] {
          if j < |prev| {
            assert all[i] == prev[i] && all[j] == prev[j];
          } else {
            assert all[i] == prev[i] && all[i] in prev;
          }
        }
      }
    }
  }

  /** The ordinary field names are the non-key field attributes in order, with
      no repetition, and the primary-key names those declaring a key. */
  lemma NamesPartition(attrs: Attrs)
    requires ValidAttrs(attrs)
    ensures forall k :: k in OrdinaryFieldNames(attrs) <==>
      exists i :: 0 <= i < |attrs| && attrs[i].0 == k && attrs[i].1.FieldAttr? && !attrs[i].1.field.primaryKey
    ensures forall k :: k in PrimaryKeyNames(attrs) <==>
      exists i :: 0 <= i < |attrs| && attrs[i].0 == k && IsPrimaryKeyAttr(attrs[i])
    ensures Distinct(OrdinaryFieldNames(attrs))
  {
    OrdinaryNamesMembers(attrs);
    PrimaryKeyNamesMembers(attrs);
    OrdinaryNamesDistinct(attrs);
  }

  predicate Distinct(s: seq<string>)
  {
    forall i, j :: 0 <= i < j < |s| ==> s[i] != s[j]
  }

  /** The entity schema attached to a model class. */
  datatype Schema = Schema(
    table: string,
    mapping: map<string, Field>,
    primaryKey: string,
    fields: seq<string>,
    select: string,
    insert: string,
    update: string,
    delete: string)

  /** A model class after the build: its remaining namespace and, unless it is
      the base class `Model`, its schema. */
  datatype ModelClass = ModelClass(name: string, attrs: Attrs, schema: Option<Schema>)

  /** The eight attributes the build assigns; they live in `Schema`. */
  const ReservedNames: set<string> :=
    {"__mapping__", "__table__", "__primary_key__", "__fields__",
     "__select__", "__insert__", "__update__", "__delete__"}

  function Lookup(attrs: Attrs, key: string): Option<Attr>
  {
    if attrs == [] then None
    else if attrs[0].0 == key then Some(attrs[0].1)
    else Lookup(attrs[1..], key)
  }

  /** `attrs.get('__table__', name)`, rendered as `%s` renders it. */
  function TableName(name: string, attrs: Attrs): (t: string)
    ensures Lookup(attrs, "__table__").None? ==> t == name
    ensures forall s :: Lookup(attrs, "__table__") == Some(PlainAttr(Str(s))) ==> t == s
  {
    match Lookup(attrs, "__table__")
    case None => name
    case Some(PlainAttr(v)) => PyStr(v)
    case Some(FieldAttr(f)) => FieldStr(f)
  }

  function Backticked(names: seq<string>): (r: seq<string>)
    ensures |r| == |names| && forall i :: 0 <= i < |names| ==> r[i] == "`" + names[i] + "`"
  {
    seq(|names|, i requires 0 <= i < |names| => "`" + names[i] + "`")
  }

  function SetClauses(fields: seq<string>, mapping: map<string, Field>): (r: seq<string>)
    ensures |r| == |fields|
  {
    seq(|fields|, i requires 0 <= i < |fields| =>
      (if fields[i] in mapping then ColumnName(fields[i], mapping[fields[i]]) else fields[i]) + "=?")
  }

  function SelectTemplate(table: string, pk: string, fields: seq<string>): string
  {
    "select `" + pk + "`, " + Join(Backticked(fields), ", ") + " from `" + table + "`"
  }

  function InsertTemplate(table: string, pk: string, fields: seq<string>): string
  {
    "insert into `" + table + "` (" + Join(Backticked(fields), ", ") + ", `" + pk + "`) values ("
    + ArgsString(|fields| + 1) + ")"
  }

  function UpdateTemplate(table: string, pk: string, fields: seq<string>, mapping: map<string, Field>): string
  {
    "update `" + table + "` set " + Join(SetClauses(fields, mapping), ", ") + " where `" + pk + "`=?"
  }

  function DeleteTemplate(table: string, pk: string): string
  {
    "delete from `" + table + "` where `" + pk + "`=?"
  }

  function MakeSchema(table: string, mapping: map<string, Field>, pk: string, fields: seq<string>): Schema
  {
    Schema(table, mapping, pk, fields,
      SelectTemplate(table, pk, fields),
      InsertTemplate(table, pk, fields),
      UpdateTemplate(table, pk, fields, mapping),
      DeleteTemplate(table, pk))
  }

  predicate KeepsInNamespace(a: (string, Attr))
  {
    !a.1.FieldAttr? && a.0 !in ReservedNames
  }

  /** The namespace left once the mapped attributes are popped. */
  function Namespace(attrs: Attrs): (r: Attrs)
  {
    if attrs == [] then []
    else Namespace(attrs[..|attrs| - 1]) + (if KeepsInNamespace(attrs[|attrs| - 1]) then [attrs[|attrs| - 1]] else [])
  }

  /** What `ModelMetaclass.__new__` produces for class `name`. */
  function BuildSpec(name: string, attrs: Attrs): Result<ModelClass, OrmError>
  {
    if name == "Model" then Ok(ModelClass(name, attrs, None))
    else
      match Scan(attrs)
      case Err(e) => Err(e)
      case Ok(st) =>
        if st.pk.None? then Err(PrimaryKeyNotFound)
        else Ok(ModelClass(name, Namespace(attrs),
                           Some(MakeSchema(TableName(name, attrs), st.mapping, st.pk.value, st.fields))))
  }

  /** An error found at a prefix of the attributes is the scan's error. */
  lemma {:induction false} ScanErrorSticks(attrs: Attrs, i: nat)
    requires i <= |attrs| && Scan(attrs[..i]).Err?
    ensures Scan(attrs) == Scan(attrs[..i])
    decreases |attrs| - i
  {
    if i < |attrs| {
      assert attrs[..i + 1][..i] == attrs[..i];
      ScanErrorSticks(attrs, i + 1);
    } else {
      assert attrs[..i] == attrs;
    }
  }

  /** The scan loop of `ModelMetaclass.__new__`: collects the mapping, the
      primary key and the ordinary fields, stopping at a second primary key. */
  method ScanAttrs(attrs: Attrs) returns (r: Result<ScanState, OrmError>)
    ensures r == Scan(attrs)
  {
    var mapping: map<string, Field> := map[];
    var fields: seq<string> := [];
    var pk: Option<string> := None;
    var i := 0;
    while i < |attrs|
      invariant 0 <= i <= |attrs|
      invariant Scan(attrs[..i]) == Ok(ScanState(mapping, pk, fields))
    {
      var (k, v) := attrs[i];
      assert attrs[..i + 1][..i] == attrs[..i];
      if v.FieldAttr? {
        mapping := mapping[k := v.field];
        if v.field.primaryKey {
          if pk.Some? {
            ScanErrorSticks(attrs, i + 1);
            return Err(DuplicatePrimaryKey(k));
          }
          pk := Some(k);
        } else {
          fields := fields + [k];
        }
      }
      i := i + 1;
    }
    assert attrs[..i] == attrs;
    r := Ok(ScanState(mapping, pk, fields));
  }

  /** The pop loop: the attributes left in the class namespace once the
      mapped names and the generated template names are removed. */
  method PopMapped(attrs: Attrs, mapping: map<string, Field>) returns (rest: Attrs)
    requires forall i :: 0 <= i < |attrs| ==> (attrs[i].0 in mapping <==> attrs[i].1.FieldAttr?)
    ensures rest == Namespace(attrs)
  {
    rest := [];
    var j := 0;
    while j < |attrs|
      invariant 0 <= j <= |attrs|
      invariant rest == Namespace(attrs[..j])
    {
      assert attrs[..j + 1][..j] == attrs[..j];
      if attrs[j].0 !in mapping && attrs[j].0 !in ReservedNames {
        rest := rest + [attrs[j]];
      }
      j := j + 1;
    }
    assert attrs[..j] == attrs;
  }

  /** `ModelMetaclass.__new__`: scans the attributes, checks for exactly one
      primary key, pops the mapped attributes and derives the templates. */
  method BuildModelClass(name: string, attrs: Attrs) returns (r: Result<ModelClass, OrmError>)
    requires ValidAttrs(attrs)
    ensures r == BuildSpec(name, attrs)
  {
    if name == "Model" {
      return Ok(ModelClass(name, attrs, None));
    }
    var table := TableName(name, attrs);
    var scanned := ScanAttrs(attrs);
    if scanned.Err? {
      return Err(scanned.error);
    }
    var st := scanned.value;
    if st.pk.None? {
      return Err(PrimaryKeyNotFound);
    }
    ScanCharacterised(attrs);
    FieldMappingKeys(attrs);
    forall i | 0 <= i < |attrs|
      ensures attrs[i].0 in st.mapping <==> attrs[i].1.FieldAttr?
    {
      if attrs[i].0 in st.mapping {
        var j :| 0 <= j < |attrs| && attrs[j].0 == attrs[i].0 && attrs[j].1.FieldAttr?;
        assert i == j;
      }
    }
    var rest := PopMapped(attrs, st.mapping);
    r := Ok(ModelClass(name, rest, Some(MakeSchema(table, st.mapping, st.pk.value, st.fields))));
  }

  /** What every schema the build produces satisfies: the primary key and the
      ordinary fields are mapped, these are all the mapped names, and the
      primary key is not among the ordinary fields, which do not repeat. */
  predicate SchemaValid(s: Schema)
  {
    && s.primaryKey in s.mapping
    && (forall f :: f in s.fields ==> f in s.mapping)
    && (forall k :: k in s.mapping ==> k == s.primaryKey || k in s.fields)
    && s.primaryKey !in s.fields
    && Distinct(s.fields)
  }

  /** The build of a (non-base) class succeeds exactly when one primary key is
      declared; it fails with the second primary key's name when there are
      more, and with "primary key not found" when there is none. */
  lemma BuildOutcome(name: string, attrs: Attrs)
    requires name != "Model"
    ensures BuildSpec(name, attrs).Ok? <==> |PrimaryKeyNames(attrs)| == 1
    ensures BuildSpec(name, attrs) == Err(PrimaryKeyNotFound) <==> PrimaryKeyNames(attrs) == []
    ensures forall k :: BuildSpec(name, attrs) == Err(DuplicatePrimaryKey(k)) <==>
      |PrimaryKeyNames(attrs)| >= 2 && k == PrimaryKeyNames(attrs)[1]
  {
    ScanCharacterised(attrs);
  }

  /** A class named `Model` is left exactly as declared. */
  lemma BaseModelBypass(attrs: Attrs)
    ensures BuildSpec("Model", attrs) == Ok(ModelClass("Model", attrs, None))
  {
  }

  /** A successful build's schema is made of the reference definitions. */
  lemma BuildFromReference(name: string, attrs: Attrs)
    requires BuildSpec(name, attrs).Ok? && name != "Model"
    ensures |PrimaryKeyNames(attrs)| == 1
    ensures BuildSpec(name, attrs) == Ok(ModelClass(name, Namespace(attrs), Some(MakeSchema(
      TableName(name, attrs), FieldMapping(attrs), PrimaryKeyNames(attrs)[0], OrdinaryFieldNames(attrs)))))
  {
    ScanCharacterised(attrs);
  }

  /** Every mapped name is a primary-key name or an ordinary name. */
  lemma MappedAreDeclared(attrs: Attrs)
    requires ValidAttrs(attrs)
    ensures forall k :: k in FieldMapping(attrs) ==> k in PrimaryKeyNames(attrs) || k in OrdinaryFieldNames(attrs)
  {
    FieldMappingKeys(attrs);
    OrdinaryNamesMembers(attrs);
    PrimaryKeyNamesMembers(attrs);
    forall k | k in FieldMapping(attrs) ensures k in PrimaryKeyNames(attrs) || k in OrdinaryFieldNames(attrs)
    {
      var i :| 0 <= i < |attrs| && attrs[i].0 == k && attrs[i].1.FieldAttr?;
      assert IsPrimaryKeyAttr(attrs[i]) || !attrs[i].1.field.primaryKey;
    }
  }

  /** Every primary-key name and every ordinary name is mapped. */
  lemma DeclaredAreMapped(attrs: Attrs)
    requires ValidAttrs(attrs)
    ensures forall k :: k in PrimaryKeyNames(attrs) ==> k in FieldMapping(attrs)
    ensures forall k :: k in OrdinaryFieldNames(attrs) ==> k in FieldMapping(attrs)
  {
    FieldMappingKeys(attrs);
    OrdinaryNamesMembers(attrs);
    PrimaryKeyNamesMembers(attrs);
    forall k | k in PrimaryKeyNames(attrs) ensures k in FieldMapping(attrs)
    {
      var i :| 0 <= i < |attrs| && attrs[i].0 == k && IsPrimaryKeyAttr(attrs[i]);
    }
    forall k | k in OrdinaryFieldNames(attrs) ensures k in FieldMapping(attrs)
    {
      var i :| 0 <= i < |attrs| && attrs[i].0 == k && attrs[i].1.FieldAttr? && !attrs[i].1.field.primaryKey;
    }
  }

  /** With one primary key, the mapped names are that key and the ordinary names. */
  lemma MappedNames(attrs: Attrs)
    requires ValidAttrs(attrs) && |PrimaryKeyNames(attrs)| == 1
    ensures FieldMapping(attrs).Keys == (set f | f in OrdinaryFieldNames(attrs)) + {PrimaryKeyNames(attrs)[0]}
  {
    MappedAreDeclared(attrs);
    DeclaredAreMapped(attrs);
    var pks := PrimaryKeyNames(attrs);
    assert forall k :: k in pks <==> k == pks[0];
  }

  /** A primary-key name is never an ordinary field name. */
  lemma KeyNotOrdinary(attrs: Attrs, pk: string)
    requires ValidAttrs(attrs) && pk in PrimaryKeyNames(attrs)
    ensures pk !in OrdinaryFieldNames(attrs)
  {
    OrdinaryNamesMembers(attrs);
    PrimaryKeyNamesMembers(attrs);
    var j :| 0 <= j < |attrs| && attrs[j].0 == pk && IsPrimaryKeyAttr(attrs[j]);
    forall i | 0 <= i < |attrs| && attrs[i].0 == pk
      ensures !(attrs[i].1.FieldAttr? && !attrs[i].1.field.primaryKey)
    {
      assert i == j;
    }
  }

  /** With one primary key, the reference definitions partition the field
      attributes: the key plus the ordinary names are exactly the mapped
      names, the key is not an ordinary name, and no ordinary name repeats. */
  lemma ReferencePartition(attrs: Attrs)
    requires ValidAttrs(attrs) && |PrimaryKeyNames(attrs)| == 1
    ensures var pk := PrimaryKeyNames(attrs)[0];
      var fields := OrdinaryFieldNames(attrs);
      && FieldMapping(attrs).Keys == (set f | f in fields) + {pk}
      && pk !in fields
      && Distinct(fields)
  {
    MappedNames(attrs);
    KeyNotOrdinary(attrs, PrimaryKeyNames(attrs)[0]);
    OrdinaryNamesDistinct(attrs);
  }

  /** The schema of a successful build: the single primary-key attribute is
      `primaryKey`, `fields` are the other field attributes in definition
      order, `fields` plus the key are exactly the mapped names, every field
      attribute maps to its descriptor, non-field attributes are ignored and
      stay in the namespace, and the table defaults to the class name. */
  lemma BuildSchemaShape(name: string, attrs: Attrs)
    requires ValidAttrs(attrs) && BuildSpec(name, attrs).Ok? && name != "Model"
    ensures BuildSpec(name, attrs).value.schema.Some?
    ensures DerivedFrom(name, attrs, BuildSpec(name, attrs).value.schema.value)
    ensures SchemaValid(BuildSpec(name, attrs).value.schema.value)
    ensures IsBuilt(BuildSpec(name, attrs).value.schema.value)
    ensures BuildSpec(name, attrs).value.attrs == Namespace(attrs)
  {
    BuildFromReference(name, attrs);
    ReferencePartition(attrs);
    FieldMappingKeys(attrs);
    var pk := PrimaryKeyNames(attrs)[0];
    var fields := OrdinaryFieldNames(attrs);
    var s := MakeSchema(TableName(name, attrs), FieldMapping(attrs), pk, fields);
    assert BuildSpec(name, attrs).value.schema.value == s;
    assert s.primaryKey == pk && s.fields == fields && s.mapping == FieldMapping(attrs);
    assert DerivedFrom(name, attrs, s);
    assert SchemaValid(s);
    assert IsBuilt(s);
  }

  /** How a built schema relates to the class body it came from. */
  ghost predicate DerivedFrom(name: string, attrs: Attrs, s: Schema)
  {
    && PrimaryKeyNames(attrs) == [s.primaryKey]
    && s.fields == OrdinaryFieldNames(attrs)
    && s.mapping.Keys == (set f | f in s.fields) + {s.primaryKey}
    && s.primaryKey !in s.fields
    && (forall i :: 0 <= i < |attrs| && attrs[i].1.FieldAttr? ==>
          attrs[i].0 in s.mapping && s.mapping[attrs[i].0] == attrs[i].1.field)
    && (Lookup(attrs, "__table__").None? ==> s.table == name)
  }

  // ---------------------------------------------------------------------------
  // Template invariants
  // ---------------------------------------------------------------------------

  /** No placeholder inside the table, key, field or column names. */
  predicate PlainNames(s: Schema)
  {
    && NoChar(s.table, '?') && NoChar(s.primaryKey, '?')
    && (forall i :: 0 <= i < |s.fields| ==> NoChar(s.fields[i], '?'))
    && (forall f :: f in s.mapping ==> NoChar(ColumnName(f, s.mapping[f]), '?'))
  }

  predicate IsBuilt(s: Schema)
  {
    s == MakeSchema(s.table, s.mapping, s.primaryKey, s.fields)
  }

  lemma {:induction false} BacktickedCount(names: seq<string>)
    requires forall i :: 0 <= i < |names| ==> NoChar(names[i], '?')
    ensures CountAll(Backticked(names), '?') == 0
  {
    if names != [] {
      assert Backticked(names)[1..] == Backticked(names[1..]);
      BacktickedCount(names[1..]);
      NoCharCount(names[0], '?');
      CountConcat("`" + names[0], "`", '?');
      CountConcat("`", names[0], '?');
    }
  }

  lemma {:induction false} SetClausesCount(fields: seq<string>, mapping: map<string, Field>)
    requires forall f :: f in fields ==> f in mapping && NoChar(ColumnName(f, mapping[f]), '?')
    ensures CountAll(SetClauses(fields, mapping), '?') == |fields|
  {
    if fields != [] {
      assert SetClauses(fields, mapping)[1..] == SetClauses(fields[1..], mapping);
      SetClausesCount(fields[1..], mapping);
      NoCharCount(ColumnName(fields[0], mapping[fields[0]]), '?');
      CountConcat(ColumnName(fields[0], mapping[fields[0]]), "=?", '?');
    }
  }

  lemma SelectPlaceholders(table: string, pk: string, fields: seq<string>)
    requires NoChar(table, '?') && NoChar(pk, '?')
    requires forall i :: 0 <= i < |fields| ==> NoChar(fields[i], '?')
    ensures Count(SelectTemplate(table, pk, fields), '?') == 0
  {
    SelectLiterals();
    SepLiterals();
    var cols := Join(Backticked(fields), ", ");
    BacktickedCount(fields);
    CountJoin(Backticked(fields), ", ", '?');
    NoCharCount(table, '?');
    NoCharCount(pk, '?');
    var a := "select `" + pk;
    CountConcat("select `", pk, '?');
    var b := a + "`, ";
    CountConcat(a, "`, ", '?');
    var c := b + cols;
    CountConcat(b, cols, '?');
    var d := c + " from `";
    CountConcat(c, " from `", '?');
    var e := d + table;
    CountConcat(d, table, '?');
    CountConcat(e, "`", '?');
    assert SelectTemplate(table, pk, fields) == e + "`";
  }

  lemma InsertPlaceholders(table: string, pk: string, fields: seq<string>)
    requires NoChar(table, '?') && NoChar(pk, '?')
    requires forall i :: 0 <= i < |fields| ==> NoChar(fields[i], '?')
    ensures Count(InsertTemplate(table, pk, fields), '?') == |fields| + 1
  {
    InsertLiterals();
    ValuesLiterals();
    SepLiterals();
    var cols := Join(Backticked(fields), ", ");
    BacktickedCount(fields);
    CountJoin(Backticked(fields), ", ", '?');
    NoCharCount(table, '?');
    NoCharCount(pk, '?');
    var ph := ArgsString(|fields| + 1);
    ArgsStringCount(|fields| + 1);
    var a := "insert into `" + table;
    CountConcat("insert into `", table, '?');
    var b := a + "` (";
    CountConcat(a, "` (", '?');
    var c := b + cols;
    CountConcat(b, cols, '?');
    var d := c + ", `";
    CountConcat(c, ", `", '?');
    var e := d + pk;
    CountConcat(d, pk, '?');
    var f := e + "`) values (";
    CountConcat(e, "`) values (", '?');
    var g := f + ph;
    CountConcat(f, ph, '?');
    CountConcat(g, ")", '?');
    assert InsertTemplate(table, pk, fields) == g + ")";
  }

  lemma UpdatePlaceholders(table: string, pk: string, fields: seq<string>, mapping: map<string, Field>)
    requires NoChar(table, '?') && NoChar(pk, '?')
    requires forall f :: f in fields ==> f in mapping && NoChar(ColumnName(f, mapping[f]), '?')
    ensures Count(UpdateTemplate(table, pk, fields, mapping), '?') == |fields| + 1
  {
    UpdateLiterals();
    SepLiterals();
    var sets := Join(SetClauses(fields, mapping), ", ");
    SetClausesCount(fields, mapping);
    CountJoin(SetClauses(fields, mapping), ", ", '?');
    NoCharCount(table, '?');
    NoCharCount(pk, '?');
    KeyConditionLiteral();
    var a := "update `" + table;
    CountConcat("update `", table, '?');
    var b := a + "` set ";
    CountConcat(a, "` set ", '?');
    var c := b + sets;
    CountConcat(b, sets, '?');
    var d := c + " where `";
    CountConcat(c, " where `", '?');
    var e := d + pk;
    CountConcat(d, pk, '?');
    CountConcat(e, "`=?", '?');
    assert UpdateTemplate(table, pk, fields, mapping) == e + "`=?";
  }

  lemma DeletePlaceholders(table: string, pk: string)
    requires NoChar(table, '?') && NoChar(pk, '?')
    ensures Count(DeleteTemplate(table, pk), '?') == 1
  {
    DeleteLiterals();
    SepLiterals();
    NoCharCount(table, '?');
    NoCharCount(pk, '?');
    KeyConditionLiteral();
    var a := "delete from `" + table;
    CountConcat("delete from `", table, '?');
    var b := a + "` where `";
    CountConcat(a, "` where `", '?');
    var c := b + pk;
    CountConcat(b, pk, '?');
    CountConcat(c, "`=?", '?');
    assert DeleteTemplate(table, pk) == c + "`=?";
  }

  /** Placeholder counts of the four templates: none in select, one per
      ordinary field plus one for the key in insert and update, one in delete. */
  lemma TemplatePlaceholders(s: Schema)
    requires IsBuilt(s) && SchemaValid(s) && PlainNames(s)
    ensures Count(s.select, '?') == 0
    ensures Count(s.insert, '?') == |s.fields| + 1
    ensures Count(s.update, '?') == |s.fields| + 1
    ensures Count(s.delete, '?') == 1
  {
    SelectPlaceholders(s.table, s.primaryKey, s.fields);
    InsertPlaceholders(s.table, s.primaryKey, s.fields);
    UpdatePlaceholders(s.table, s.primaryKey, s.fields, s.mapping);
    DeletePlaceholders(s.table, s.primaryKey);
  }

  /** Every schema the build produces is valid. */
  lemma BuiltSchemaValid(name: string, attrs: Attrs)
    requires ValidAttrs(attrs) && BuildSpec(name, attrs).Ok? && BuildSpec(name, attrs).value.schema.Some?
    ensures SchemaValid(BuildSpec(name, attrs).value.schema.value)
    ensures IsBuilt(BuildSpec(name, attrs).value.schema.value)
  {
    BuildSchemaShape(name, attrs);
  }

  // ---------------------------------------------------------------------------
  // Instances and the statements CRUD operations issue
  // ---------------------------------------------------------------------------

  /** What an operation hands to the database: the SQL text and its arguments. */
  datatype Statement = Statement(sql: string, args: seq<Value>)

  /** A result row: column name to value. */
  type Row = map<string, Value>

  /** `getattr(self, key, None)` on an instance's values. */
  function CurrentValue(values: map<string, Value>, key: string): Value
  {
    if key in values then values[key] else Null
  }

  /** Whether `getValueOrDefault` writes a default back for `key`. */
  predicate StoresDefault(values: map<string, Value>, f: Field, key: string)
  {
    CurrentValue(values, key).Null? && HasDefault(f.default)
  }

  /** The value `getValueOrDefault` returns; `produced` is what the factory
      returns if it is called. */
  function Resolved(values: map<string, Value>, f: Field, key: string, produced: Value): Value
  {
    var v := CurrentValue(values, key);
    if !v.Null? then v
    else if !HasDefault(f.default) then Null
    else if f.default.Factory? then produced else f.default.v
  }

  /** Resolution memoises: once a key resolved to a non-None value was stored,
      resolving it again returns that value, stores nothing more and does not
      call the factory (the result is independent of `later`). */
  lemma DefaultMemoised(values: map<string, Value>, f: Field, key: string, first: Value, later: Value)
    requires !Resolved(values, f, key, first).Null?
    ensures var v := Resolved(values, f, key, first);
      var after := if StoresDefault(values, f, key) then values[key := v] else values;
      && Resolved(after, f, key, later) == v
      && !StoresDefault(after, f, key)
  {
  }

  /** A literal default is used as is; a factory's value is used only when
      nothing non-None is stored; a stored non-None value always wins. */
  lemma ResolvedCases(values: map<string, Value>, f: Field, key: string, produced: Value)
    ensures !CurrentValue(values, key).Null? ==> Resolved(values, f, key, produced) == values[key]
    ensures CurrentValue(values, key).Null? && f.default.Literal? ==> Resolved(values, f, key, produced) == f.default.v
    ensures CurrentValue(values, key).Null? && f.default.Factory? ==> Resolved(values, f, key, produced) == produced
  {
  }

  /** The column order of insert and update arguments: ordinary fields, then the key. */
  function ColumnOrder(s: Schema): seq<string>
  {
    s.fields + [s.primaryKey]
  }

  lemma ColumnOrderDistinct(s: Schema)
    requires SchemaValid(s)
    ensures Distinct(ColumnOrder(s))
    ensures forall k :: k in ColumnOrder(s) ==> k in s.mapping
  {
  }

  /** The resolution `save` performs, key after key over `order`, as the
      arguments bound and the values left on the instance. */
  function SaveFold(values: map<string, Value>, mapping: map<string, Field>, order: seq<string>,
                    produced: string -> Value): (seq<Value>, map<string, Value>)
    requires forall k :: k in order ==> k in mapping
  {
    if order == [] then ([], values)
    else
      var key := order[|order| - 1];
      var prev := SaveFold(values, mapping, order[..|order| - 1], produced);
      var v := Resolved(prev.1, mapping[key], key, produced(key));
      (prev.0 + [v], if StoresDefault(prev.1, mapping[key], key) then prev.1[key := v] else prev.1)
  }

  /** Each key resolved against the values as they were before the call. */
  function ResolveAll(values: map<string, Value>, mapping: map<string, Field>, order: seq<string>,
                      produced: string -> Value): (r: seq<Value>)
    requires forall k :: k in order ==> k in mapping
    ensures |r| == |order|
  {
    seq(|order|, i requires 0 <= i < |order| => Resolved(values, mapping[order[i]], order[i], produced(order[i])))
  }

  /** The values before the call, plus every default that gets stored. */
  function StoreAll(values: map<string, Value>, mapping: map<string, Field>, order: seq<string>,
                    produced: string -> Value): map<string, Value>
    requires forall k :: k in order ==> k in mapping
  {
    values + map k | k in order && StoresDefault(values, mapping[k], k) :: Resolved(values, mapping[k], k, produced(k))
  }

  /** `after` is `before` with the default of every key of `order` that
      needs one stored, and nothing else changed. */
  ghost predicate StoredPointwise(before: map<string, Value>, after: map<string, Value>, mapping: map<string, Field>,
                            order: seq<string>, produced: string -> Value)
    requires forall k :: k in order ==> k in mapping
  {
    && (forall k :: k in after <==> k in before || (k in order && StoresDefault(before, mapping[k], k)))
    && (forall k :: k in after ==>
          after[k] == if k in order && StoresDefault(before, mapping[k], k)
                      then Resolved(before, mapping[k], k, produced(k)) else before[k])
  }

  lemma StoreAllPointwise(values: map<string, Value>, mapping: map<string, Field>, order: seq<string>,
                          produced: string -> Value)
    requires forall k :: k in order ==> k in mapping
    ensures StoredPointwise(values, StoreAll(values, mapping, order, produced), mapping, order, produced)
  {
  }

  /** Two maps related pointwise to the same `before` are equal. */
  lemma StoredPointwiseUnique(before: map<string, Value>, a: map<string, Value>, b: map<string, Value>,
                              mapping: map<string, Field>, order: seq<string>, produced: string -> Value)
    requires forall k :: k in order ==> k in mapping
    requires StoredPointwise(before, a, mapping, order, produced)
    requires StoredPointwise(before, b, mapping, order, produced)
    ensures a == b
  {
    assert a.Keys == b.Keys;
  }

  /** The step-by-step store of the fold is the pointwise one over distinct keys. */
  lemma {:induction false} SaveFoldStores(values: map<string, Value>, mapping: map<string, Field>,
                                          order: seq<string>, produced: string -> Value)
    requires Distinct(order) && forall k :: k in order ==> k in mapping
    ensures StoredPointwise(values, SaveFold(values, mapping, order, produced).1, mapping, order, produced)
  {
    if order != [] {
      var init := order[..|order| - 1];
      var key := order[|order| - 1];
      assert Distinct(init);
      SaveFoldStores(values, mapping, init, produced);
      var cur := SaveFold(values, mapping, init, produced).1;
      assert key !in init;
      assert CurrentValue(cur, key) == CurrentValue(values, key);
      var stores := StoresDefault(values, mapping[key], key);
      var v := Resolved(values, mapping[key], key, produced(key));
      var after := SaveFold(values, mapping, order, produced).1;
      assert after == if stores then cur[key := v] else cur;
      assert order == init + [key];
      forall k ensures k in after <==> k in values || (k in order && StoresDefault(values, mapping[k], k))
      {
        assert k in order <==> k in init || k == key;
      }
      forall k | k in after
        ensures after[k] == if k in order && StoresDefault(values, mapping[k], k)
                            then Resolved(values, mapping[k], k, produced(k)) else values[k]
      {
        assert k in order <==> k in init || k == key;
      }
    }
  }

  /** Each resolution of the fold sees the values as they were before the call. */
  lemma {:induction false} SaveFoldArgs(values: map<string, Value>, mapping: map<string, Field>,
                                        order: seq<string>, produced: string -> Value)
    requires Distinct(order) && forall k :: k in order ==> k in mapping
    ensures SaveFold(values, mapping, order, produced).0 == ResolveAll(values, mapping, order, produced)
  {
    if order != [] {
      var init := order[..|order| - 1];
      var key := order[|order| - 1];
      assert Distinct(init);
      SaveFoldArgs(values, mapping, init, produced);
      SaveFoldStores(values, mapping, init, produced);
      var cur := SaveFold(values, mapping, init, produced).1;
      assert key !in init;
      assert CurrentValue(cur, key) == CurrentValue(values, key);
      var v := Resolved(values, mapping[key], key, produced(key));
      assert ResolveAll(values, mapping, init, produced) + [v] == ResolveAll(values, mapping, order, produced);
    }
  }

  /** Over distinct keys no resolution sees another one's stored default, so
      the step-by-step resolution is the pointwise one. */
  lemma SaveFoldPointwise(values: map<string, Value>, mapping: map<string, Field>,
                          order: seq<string>, produced: string -> Value)
    requires Distinct(order) && forall k :: k in order ==> k in mapping
    ensures SaveFold(values, mapping, order, produced) ==
      (ResolveAll(values, mapping, order, produced), StoreAll(values, mapping, order, produced))
  {
    SaveFoldArgs(values, mapping, order, produced);
    SaveFoldStores(values, mapping, order, produced);
    StoreAllPointwise(values, mapping, order, produced);
    StoredPointwiseUnique(values, SaveFold(values, mapping, order, produced).1,
      StoreAll(values, mapping, order, produced), mapping, order, produced);
  }

  /** The arguments `save` binds. */
  function SaveArgs(values: map<string, Value>, s: Schema, produced: string -> Value): (r: seq<Value>)
    requires SchemaValid(s)
    ensures |r| == |s.fields| + 1
  {
    ResolveAll(values, s.mapping, ColumnOrder(s), produced)
  }

  /** The instance's values after `save` memoised defaults. */
  function SaveValues(values: map<string, Value>, s: Schema, produced: string -> Value): map<string, Value>
    requires SchemaValid(s)
  {
    StoreAll(values, s.mapping, ColumnOrder(s), produced)
  }

  /** A write's only outcome is a warning when the affected-row count is not 1. */
  function AffectedWarning(affected: int): (warned: bool)
  {
    affected != 1
  }

  /** Arguments of an update: the stored values, without defaults. */
  function UpdateArgs(values: map<string, Value>, s: Schema): (r: seq<Value>)
  {
    var order := ColumnOrder(s);
    seq(|order|, i requires 0 <= i < |order| => CurrentValue(values, order[i]))
  }

  /** A model instance: a mutable mapping from attribute name to value, bound
      to its class's schema. */
  class Instance {
    const schema: Schema
    var values: map<string, Value>

    constructor (schema: Schema, kw: map<string, Value>)
      ensures this.schema == schema && values == kw
    {
      this.schema := schema;
      values := kw;
    }

    /** `getValue(key)`: the stored value, `None` when absent, never a default. */
    function GetValue(key: string): (v: Value)
      reads this
      ensures key in values ==> v == values[key]
      ensures key !in values ==> v == Null
    {
      CurrentValue(values, key)
    }

    /** `getValueOrDefault(key)`: a stored non-None value, else the field's
        default (the factory's `produced` value, or the literal), stored back;
        `KeyError` when the key is unset and not a mapped field. */
    method GetValueOrDefault(key: string, produced: Value) returns (r: Result<Value, OrmError>)
      modifies this
      ensures !CurrentValue(old(values), key).Null? ==> r == Ok(old(values)[key]) && values == old(values)
      ensures CurrentValue(old(values), key).Null? && key !in schema.mapping ==>
        r == Err(UnknownField(key)) && values == old(values)
      ensures CurrentValue(old(values), key).Null? && key in schema.mapping ==>
        && r == Ok(Resolved(old(values), schema.mapping[key], key, produced))
        && values == if StoresDefault(old(values), schema.mapping[key], key)
                     then old(values)[key := r.value] else old(values)
    {
      var value := CurrentValue(values, key);
      if value.Null? {
        if key !in schema.mapping {
          return Err(UnknownField(key));
        }
        var field := schema.mapping[key];
        if HasDefault(field.default) {
          value := if field.default.Factory? then produced else field.default.v;
          values := values[key := value];
        }
      }
      r := Ok(value);
    }

    /** `save()`: binds `getValueOrDefault` of every ordinary field and then of
        the key, memoising defaults, and issues the insert template.  A row
        count other than 1 only warns. */
    method Save(produced: string -> Value, affected: int) returns (stmt: Statement, warned: bool)
      requires SchemaValid(schema)
      modifies this
      ensures stmt == Statement(schema.insert, SaveArgs(old(values), schema, produced))
      ensures values == SaveValues(old(values), schema, produced)
      ensures warned == AffectedWarning(affected)
    {
      var order := ColumnOrder(schema);
      ColumnOrderDistinct(schema);
      var args: seq<Value> := [];
      var i := 0;
      while i < |order|
        invariant 0 <= i <= |order|
        invariant (args, values) == SaveFold(old(values), schema.mapping, order[..i], produced)
      {
        var key := order[i];
        assert order[..i + 1][..i] == order[..i];
        var v := GetValueOrDefault(key, produced(key));
        args := args + [v.value];
        i := i + 1;
      }
      assert order[..i] == order;
      SaveFoldPointwise(old(values), schema.mapping, order, produced);
      stmt := Statement(schema.insert, args);
      warned := AffectedWarning(affected);
    }

    /** `update()`: binds `getValue` of every ordinary field and then of the
        key, without defaults, and issues the update template. */
    method Update(affected: int) returns (stmt: Statement, warned: bool)
      ensures stmt.sql == schema.update
      ensures |stmt.args| == |schema.fields| + 1
      ensures forall i :: 0 <= i < |schema.fields| ==> stmt.args[i] == GetValue(schema.fields[i])
      ensures stmt.args[|schema.fields|] == GetValue(schema.primaryKey)
      ensures warned == AffectedWarning(affected)
      ensures stmt.args == UpdateArgs(values, schema)
    {
      var args: seq<Value> := [];
      var i := 0;
      while i < |schema.fields|
        invariant 0 <= i <= |schema.fields|
        invariant |args| == i
        invariant forall j :: 0 <= j < i ==> args[j] == GetValue(schema.fields[j])
      {
        args := args + [GetValue(schema.fields[i])];
        i := i + 1;
      }
      args := args + [GetValue(schema.primaryKey)];
      assert args == UpdateArgs(values, schema);
      stmt := Statement(schema.update, args);
      warned := AffectedWarning(affected);
    }

    /** `remove()`: binds only the key and issues the delete template. */
    method Remove(affected: int) returns (stmt: Statement, warned: bool)
      ensures stmt == Statement(schema.delete, [GetValue(schema.primaryKey)])
      ensures warned == AffectedWarning(affected)
    {
      stmt := Statement(schema.delete, [GetValue(schema.primaryKey)]);
      warned := AffectedWarning(affected);
    }
  }

  /** `save` binds one argument per placeholder of the insert template, in the
      template's column order. */
  lemma SaveArgsMatchInsert(s: Schema, values: map<string, Value>, produced: string -> Value)
    requires IsBuilt(s) && SchemaValid(s) && PlainNames(s)
    ensures |SaveArgs(values, s, produced)| == Count(s.insert, '?')
    ensures |UpdateArgs(values, s)| == Count(s.update, '?')
    ensures Count(s.delete, '?') == 1
  {
    TemplatePlaceholders(s);
  }

  /** `update` never substitutes a default: an unset field is bound as None. */
  lemma UpdateArgsNoDefaults(values: map<string, Value>, s: Schema, i: nat)
    requires i < |ColumnOrder(s)| && ColumnOrder(s)[i] !in values
    ensures UpdateArgs(values, s)[i] == Null
  {
  }

  // ---------------------------------------------------------------------------
  // Fetches
  // ---------------------------------------------------------------------------

  /** `where` and `orderBy` clauses as `' '.join` lays them out; "" is `None`. */
  function WhereClause(where: string): string
  {
    if where == "" then "" else " where  " + where
  }

  function OrderClause(orderBy: string): string
  {
    if orderBy == "" then "" else " order by  " + orderBy
  }

  /** `isinstance(limit, int)` (a bool is an int in Python). */
  predicate IsIntLimit(limit: Value)
  {
    limit.Int? || limit.Bool?
  }

  predicate IsPairLimit(limit: Value)
  {
    limit.Tuple? && |limit.items| == 2
  }

  function LimitClause(limit: Value): string
  {
    if limit.Null? then ""
    else if IsIntLimit(limit) then " limit ?"
    else " limit ?,?"
  }

  function LimitArgs(limit: Value): seq<Value>
  {
    if IsIntLimit(limit) then [limit]
    else if IsPairLimit(limit) then limit.items
    else []
  }

  /** The words `findAll` inserts between its parts. */
  const WhereWord: string := "where "
  const OrderWord: string := "order by "
  const LimitWord: string := "limit"
  const OnePlaceholder: string := "?"
  const PairPlaceholders: string := "?,?"

  /** The parts `findAll` joins with single spaces: the select template, the
      optional where and order-by pairs, then the limit parts. */
  function FindAllParts(select: string, where: string, orderBy: string, limitParts: seq<string>): seq<string>
  {
    [select]
    + (if where != "" then [WhereWord, where] else [])
    + (if orderBy != "" then [OrderWord, orderBy] else [])
    + limitParts
  }

  /** The limit parts once the integer is bound as an argument instead. */
  function LimitParts(limit: Value): seq<string>
  {
    if limit.Null? then [] else if IsIntLimit(limit) then [LimitWord, OnePlaceholder] else [LimitWord, PairPlaceholders]
  }

  /** What a pair of parts adds to a space-joined text. */
  function PairText(extra: seq<string>): string
    requires |extra| == 0 || |extra| == 2
  {
    if extra == [] then "" else " " + extra[0] + " " + extra[1]
  }

  lemma JoinPair(parts: seq<string>, extra: seq<string>)
    requires parts != [] && (|extra| == 0 || |extra| == 2)
    ensures Join(parts + extra, " ") == Join(parts, " ") + PairText(extra)
  {
    if extra != [] {
      assert extra == [extra[0], extra[1]];
      JoinTwoMore(parts, extra[0], extra[1], " ");
      ConcatAssoc(Join(parts, " "), " ", extra[0], " ", extra[1]);
    } else {
      assert parts + extra == parts;
    }
  }

  lemma WherePair(where: string)
    ensures PairText(if where != "" then [WhereWord, where] else []) == WhereClause(where)
  {
  }

  lemma OrderPair(orderBy: string)
    ensures PairText(if orderBy != "" then [OrderWord, orderBy] else []) == OrderClause(orderBy)
  {
  }

  lemma LimitPair(limit: Value)
    ensures PairText(LimitParts(limit)) == LimitClause(limit)
  {
  }

  /** Joining the parts yields the select template followed by each clause. */
  lemma FindAllJoin(select: string, where: string, orderBy: string, limit: Value)
    ensures Join(FindAllParts(select, where, orderBy, LimitParts(limit)), " ")
      == select + WhereClause(where) + OrderClause(orderBy) + LimitClause(limit)
  {
    var w := if where != "" then [WhereWord, where] else [];
    var o := if orderBy != "" then [OrderWord, orderBy] else [];
    var l := LimitParts(limit);
    JoinPair([select], w);
    JoinPair([select] + w, o);
    JoinPair([select] + w + o, l);
    WherePair(where);
    OrderPair(orderBy);
    LimitPair(limit);
  }

  /** `findAll` as the source evidently intends it: the select template, then
      the optional where, order-by and limit clauses joined by single spaces.
      An integer limit adds one placeholder bound to it, a pair two bound in
      order, anything else that is not None is a `ValueError`.  `select` is
      called without a size, so one instance comes back per matching row. */
  method FindAll(s: Schema, where: string, args: seq<Value>, orderBy: string, limit: Value, matching: seq<Row>)
    returns (r: Result<Statement, OrmError>, rows: seq<Row>)
    ensures r.Ok? <==> limit.Null? || IsIntLimit(limit) || IsPairLimit(limit)
    ensures r.Err? ==> r.error == InvalidLimit(limit) && rows == []
    ensures r.Ok? ==> r.value.sql == s.select + WhereClause(where) + OrderClause(orderBy) + LimitClause(limit)
    ensures r.Ok? ==> r.value.args == args + LimitArgs(limit)
    ensures r.Ok? ==> rows == FetchRows(matching, 0)
  {
    rows := [];
    var sql: seq<string> := [s.select];
    if where != "" {
      sql := sql + [WhereWord, where];
    }
    var bound := args;
    if orderBy != "" {
      sql := sql + [OrderWord, orderBy];
    }
    if !limit.Null? {
      sql := sql + [LimitWord];
      if IsIntLimit(limit) {
        sql := sql + [OnePlaceholder];
        bound := bound + [limit];
      } else if IsPairLimit(limit) {
        sql := sql + [PairPlaceholders];
        bound := bound + limit.items;
      } else {
        return Err(InvalidLimit(limit)), [];
      }
    }
    assert sql == FindAllParts(s.select, where, orderBy, LimitParts(limit));
    FindAllJoin(s.select, where, orderBy, limit);
    r := Ok(Statement(Join(sql, " "), bound));
    rows := FetchRows(matching, 0);
  }

  /** The list `findAll` as written hands to `' '.join`: the string parts,
      then, for an integer limit, the integer itself after its placeholder. */
  function AsWrittenParts(select: string, where: string, orderBy: string, limit: Value): seq<Value>
  {
    Strs(FindAllParts(select, where, orderBy, []))
    + (if limit.Null? then []
       else if IsIntLimit(limit) then [Str(LimitWord), Str(OnePlaceholder), limit]
       else [Str(LimitWord), Str(PairPlaceholders)])
  }

  /** With an integer limit a non-string item reaches the join: `TypeError`. */
  lemma AsWrittenIntFails(select: string, where: string, orderBy: string, limit: Value)
    requires IsIntLimit(limit)
    ensures PyJoin(AsWrittenParts(select, where, orderBy, limit), " ").None?
  {
    var parts := AsWrittenParts(select, where, orderBy, limit);
    assert parts[|parts| - 1] == limit;
  }

  /** Otherwise the join is the text `FindAll` builds. */
  lemma AsWrittenOtherwise(select: string, where: string, orderBy: string, limit: Value)
    requires !IsIntLimit(limit)
    ensures PyJoin(AsWrittenParts(select, where, orderBy, limit), " ")
      == Some(select + WhereClause(where) + OrderClause(orderBy) + LimitClause(limit))
  {
    var strs := FindAllParts(select, where, orderBy, []);
    var parts := FindAllParts(select, where, orderBy, LimitParts(limit));
    assert parts == strs + LimitParts(limit);
    assert Strs(parts) == Strs(strs) + Strs(LimitParts(limit));
    assert AsWrittenParts(select, where, orderBy, limit) == Strs(parts);
    FindAllJoin(select, where, orderBy, limit);
  }

  /** `findAll` as written: the integer branch appends the integer itself to
      the SQL parts, so `' '.join` raises `TypeError` for every integer limit;
      all other inputs behave as `FindAll`. */
  method FindAllAsWritten(s: Schema, where: string, args: seq<Value>, orderBy: string, limit: Value)
    returns (r: Result<Statement, OrmError>)
    ensures IsIntLimit(limit) ==> r == Err(JoinTypeError)
    ensures !limit.Null? && !IsIntLimit(limit) && !IsPairLimit(limit) ==> r == Err(InvalidLimit(limit))
    ensures limit.Null? || IsPairLimit(limit) ==>
      r == Ok(Statement(s.select + WhereClause(where) + OrderClause(orderBy) + LimitClause(limit), args + LimitArgs(limit)))
  {
    var sql: seq<Value> := [Str(s.select)];
    if where != "" {
      sql := sql + [Str(WhereWord), Str(where)];
    }
    var bound := args;
    if orderBy != "" {
      sql := sql + [Str(OrderWord), Str(orderBy)];
    }
    assert sql == Strs(FindAllParts(s.select, where, orderBy, []));
    if !limit.Null? {
      sql := sql + [Str(LimitWord)];
      if IsIntLimit(limit) {
        sql := sql + [Str(OnePlaceholder), limit];
      } else if IsPairLimit(limit) {
        sql := sql + [Str(PairPlaceholders)];
        bound := bound + limit.items;
      } else {
        return Err(InvalidLimit(limit));
      }
    }
    assert sql == AsWrittenParts(s.select, where, orderBy, limit);
    if IsIntLimit(limit) {
      AsWrittenIntFails(s.select, where, orderBy, limit);
    } else {
      AsWrittenOtherwise(s.select, where, orderBy, limit);
      assert bound == args + LimitArgs(limit);
    }
    match PyJoin(sql, " ")
    case None =>
      r := Err(JoinTypeError);
    case Some(text) =>
      r := Ok(Statement(text, bound));
  }

  /** The rows `select(sql, args, size)` returns from the rows the statement
      matches: at most `size` of them when `size` is given (0 stands for None). */
  function FetchRows(matching: seq<Row>, size: nat): (r: seq<Row>)
    ensures size == 0 ==> r == matching
    ensures size > 0 ==> |r| == (if |matching| < size then |matching| else size)
    ensures forall i :: 0 <= i < |r| ==> r[i] == matching[i]
  {
    if size == 0 || |matching| <= size then matching else matching[..size]
  }

  /** `find(pk)`: the select template restricted to the key, bound to `[pk]`,
      fetching one row; `None` when nothing matches. */
  function Find(s: Schema, pk: Value, matching: seq<Row>): (r: (Statement, Option<Row>))
    ensures r.0 == Statement(s.select + " where `" + s.primaryKey + "`=?", [pk])
    ensures r.1.None? <==> matching == []
    ensures r.1.Some? ==> r.1.value == matching[0]
  {
    var rows := FetchRows(matching, 1);
    (Statement(s.select + " where `" + s.primaryKey + "`=?", [pk]),
     if |rows| == 0 then None else Some(rows[0]))
  }

  /** `find_number(selectField, where, args)`: counts or aggregates over the
      table, fetching one row; `None` when nothing matches, the first row's
      `_num_` otherwise (a row without it is a `KeyError`). */
  function FindNumber(s: Schema, selectField: string, where: string, args: seq<Value>, matching: seq<Row>)
    : (r: (Statement, Result<Option<Value>, OrmError>))
    ensures r.0.args == args
    ensures r.0.sql == "select " + selectField + " _num_ from `" + s.table + "`" + (if where == "" then "" else " where " + where)
    ensures r.1 == Ok(None) <==> matching == []
    ensures matching != [] && "_num_" in matching[0] ==> r.1 == Ok(Some(matching[0]["_num_"]))
    ensures matching != [] && "_num_" !in matching[0] ==> r.1 == Err(MissingColumn("_num_"))
  {
    var parts := ["select " + selectField + " _num_ from `" + s.table + "`"];
    var parts' := if where != "" then parts + ["where", where] else parts;
    JoinTwoMore(parts, "where", where, " ");
    var rows := FetchRows(matching, 1);
    (Statement(Join(parts', " "), args),
     if |rows| == 0 then Ok(None)
     else if "_num_" in rows[0] then Ok(Some(rows[0]["_num_"]))
     else Err(MissingColumn("_num_")))
  }

  /** Regrouping a text followed by four more pieces. */
  lemma ConcatAssoc(j: string, a: string, b: string, c: string, d: string)
    ensures j + a + b + c + d == j + (a + b + c + d)
  {
  }

  lemma JoinTwoMore(parts: seq<string>, a: string, b: string, sep: string)
    requires parts != []
    ensures Join(parts + [a, b], sep) == Join(parts, sep) + sep + a + sep + b
  {
    JoinSnoc(parts, a, sep);
    JoinSnoc(parts + [a], b, sep);
    assert parts + [a, b] == parts + [a] + [b];
  }

  /** The driver's placeholder: every `?` becomes `%s` (`sql.replace('?', '%s')`). */
  function DriverSql(sql: string): (r: string)
  {
    if sql == [] then []
    else (if sql[0] == '?' then "%s" else [sql[0]]) + DriverSql(sql[1..])
  }

  /** The rewrite leaves no `?`, adds one character per placeholder, and keeps
      one `%` per placeholder when the text had none. */
  lemma {:induction false} DriverSqlRewrites(sql: string)
    ensures NoChar(DriverSql(sql), '?')
    ensures |DriverSql(sql)| == |sql| + Count(sql, '?')
    ensures Count(DriverSql(sql), '%') == Count(sql, '%') + Count(sql, '?')
  {
    if sql != [] {
      DriverSqlRewrites(sql[1..]);
      var head := if sql[0] == '?' then "%s" else [sql[0]];
      CountConcat(head, DriverSql(sql[1..]), '%');
      assert NoChar(head, '?');
    }
  }
}
