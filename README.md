# PyBlog-aiohttp core, modelled in Dafny

This project models the sequential logic of the PyBlog-aiohttp blog backend and
proves properties of it. Everything the backend does around that logic is
input/output: the MySQL pool, aiohttp request parsing, logging and `asyncio`.
The four pieces are:

- **The ORM** (`orm.dfy`, module `Orm`). The `Field` descriptors are modelled.
  So is the schema build of `ModelMetaclass.__new__`: it scans the class
  attributes, checks for one primary key, pops the mapped names and builds the
  select, insert, update and delete templates. `create_args_strings` is
  modelled. A model instance is a class holding its values map and schema,
  with `getValue`, `getValueOrDefault` (which writes a default back), `save`,
  `update` and `remove`. Each database operation returns the
  `(sql, args)` statement it would hand to the driver. A fetch also takes the
  rows the database would return, as an abstract sequence. The driver's `?` to
  `%s` rewrite is a function on text.
- **Configuration** (`config.dfy`, module `Config`). This covers the recursive
  `merge` of a defaults tree with an override tree and `toDict`. The attribute
  dictionary `Dict` is a class, with its constructor, `__getattr__` and
  `__setattr__`. The override file's tree is a concrete example.
- **The JSON API helpers** (`apis.dfy`, module `Apis`). These are the three
  `APIError` kinds and their fixed codes, and the arithmetic of `Page`.
- **The web layer** (`coroweb.dfy`, module `Coroweb`). The `@get` and `@post`
  tags are modelled, with the five scans of a handler's parameter list that
  `RequestHandler` caches and `add_route`'s tag check.
  `RequestHandler.__call__` is modelled both as a specification function and
  as a method proved equal to it. It decides between rejecting the request,
  building the keyword arguments from the body, the query string or the path,
  and calling the handler.

Two shared modules support these. `Values` (`values.dfy`) holds the Python
values the core passes around and its string helpers: `' '.join`, `str()`,
ASCII `lower()`, `zip` and the key-by-key dictionary overlay. `SqlLiterals`
(`sql_literals.dfy`) holds the placeholder counts of the fixed template
pieces.

Python's `None` for the optional `where` and `orderBy` clauses of `findAll`
and `find_number` is the empty string. Both are falsy, and the source tests
only truthiness. A Python string content type of `None` is also the empty
string. `merge` and `toDict` are pure functions, so they cannot change their
inputs.

## Model

| member | source | states |
|---|---|---|
| `Orm.FieldStr` | www/orm.py:80-81 | `str(field)` is `<`, the class name, `, `, the column type, `:`, then the field's name (`None` when unset) and a closing `>` |
| `Orm.FieldStrName` | www/orm.py:80-81 | for one kind and column type, two fields print alike exactly when their names print alike, so the name can be read back from `str(field)` |
| `Orm.StringField` | www/orm.py:83-86 | a string field has column type `ddl` (default `varchar(100)`) and keeps its name, key flag and default |
| `Orm.BooleanField` | www/orm.py:88-91 | a boolean field has column type `boolean`, is never a primary key, and keeps the default passed as `defalt`, the keyword the source spells (default `False`) |
| `Orm.IntegerField` | www/orm.py:93-96 | an integer field has column type `bigint` and keeps its name, key flag and default |
| `Orm.FloatField` | www/orm.py:98-101 | a float field has column type `real` and keeps its name, key flag and default |
| `Orm.TextField` | www/orm.py:103-106 | a text field has column type `text` and is never a primary key |
| `Orm.ColumnName` | www/orm.py:146 | the update column is the field's `name` whenever that is set and non-empty, and the attribute name in every other case |
| `Orm.CreateArgsStrings` | www/orm.py:108-113 | the loop yields exactly `n` `?` separated by `, `: empty exactly when `n` is 0, `3n-2` characters long, `?` at every third position |
| `Orm.ArgsStringCount` | www/orm.py:108-113 | the placeholder list holds exactly `n` placeholders |
| `Orm.ArgsStringLength` | www/orm.py:108-113 | the list is empty exactly for `n = 0` and otherwise has `3n-2` characters |
| `Orm.ArgsStringChars` | www/orm.py:108-113 | character `i` is `?`, `,` or space according to `i mod 3` |
| `Orm.ScanAttrs` | www/orm.py:122-134 | the scan loop computes the scan specification on every attribute sequence, stopping at a second primary key |
| `Orm.ScanStep` | www/orm.py:125-134 | one attribute of the scan: a non-field is skipped; a field is mapped, and becomes the key or is appended to `fields`; a second key raises the duplicate error |
| `Orm.Scan` | www/orm.py:122-134 | the scan specification: the steps applied in attribute order from an empty mapping, no key and no fields, stopping at the first error |
| `Orm.ScanErrorSticks` | www/orm.py:130-131 | once a prefix raised, the whole scan raises the same error |
| `Orm.ScanCharacterised` | www/orm.py:125-134 | the scan succeeds exactly when at most one primary key is declared; it then holds the field mapping, the key and the ordinary names, and otherwise fails naming the second key attribute |
| `Orm.FieldMappingKeys` | www/orm.py:125-128 | the mapped names are exactly the `Field` attributes, and each is mapped to its own `Field` |
| `Orm.OrdinaryNamesMembers` | www/orm.py:129-134 | `fields` holds exactly the non-key `Field` attributes |
| `Orm.PrimaryKeyNamesMembers` | www/orm.py:129-132 | the primary-key candidates are exactly the attributes declaring a key |
| `Orm.OrdinaryNamesDistinct` | www/orm.py:133-134 | `fields` has no repetition |
| `Orm.NamesPartition` | www/orm.py:125-134 | both membership characterisations and the distinctness of `fields` together |
| `Orm.TableName` | www/orm.py:120 | the table is the class name unless `__table__` is declared, and a declared string is used as is |
| `Orm.PopMapped` | www/orm.py:137-143 | the pop loop leaves exactly the non-field attributes that are not among the eight generated names |
| `Orm.Namespace` | www/orm.py:137-143 | the attributes left in the class namespace: the non-field attributes not overwritten by the eight generated names, in order |
| `Orm.BuildSpec` | www/orm.py:117-148 | the build specification: `Model` unchanged; otherwise the scan, then "primary key not found" without a key, else the schema and the namespace |
| `Orm.BuildModelClass` | www/orm.py:117-148 | the metaclass computes the build specification for every class |
| `Orm.BuildOutcome` | www/orm.py:129-136 | a class other than `Model` builds exactly when one primary key is declared; no key gives "primary key not found", and more than one gives the duplicate error on the second |
| `Orm.BaseModelBypass` | www/orm.py:118-119 | a class named `Model` is returned exactly as declared, with no schema |
| `Orm.BuildFromReference` | www/orm.py:120-147 | a successful build's schema is made from the mapping, the single key and the ordinary names |
| `Orm.MappedAreDeclared` | www/orm.py:125-134 | every mapped name is the key or an ordinary field |
| `Orm.DeclaredAreMapped` | www/orm.py:125-134 | the key and every ordinary field are mapped |
| `Orm.MappedNames` | www/orm.py:125-134 | the mapping's key set is the ordinary fields plus the primary key |
| `Orm.KeyNotOrdinary` | www/orm.py:129-134 | the primary key is not among `fields` |
| `Orm.ReferencePartition` | www/orm.py:125-143 | `fields` plus `{pk}` is the mapping's key set, `pk` is not in `fields`, and `fields` does not repeat |
| `Orm.BuildSchemaShape` | www/orm.py:120-147 | a successful build's schema derives from the attributes, partitions the mapping, carries the four templates and leaves the unmapped namespace |
| `Orm.SelectTemplate` | www/orm.py:144 | `select` of the backticked key and fields from the backticked table |
| `Orm.InsertTemplate` | www/orm.py:145 | `insert into` the table of the backticked fields then the key, with `len(fields)+1` placeholders |
| `Orm.UpdateTemplate` | www/orm.py:146 | `update` the table, setting each field's column to `?`, where the key is `?` |
| `Orm.DeleteTemplate` | www/orm.py:147 | `delete from` the table where the key is `?` |
| `Orm.BacktickedCount` | www/orm.py:139 | backticking names free of `?` adds no placeholder |
| `Orm.SetClausesCount` | www/orm.py:146 | the `col=?` clauses hold one placeholder per field |
| `Orm.SelectPlaceholders` | www/orm.py:144 | the select template holds no placeholder |
| `Orm.InsertPlaceholders` | www/orm.py:145 | the insert template holds `len(fields)+1` placeholders |
| `Orm.UpdatePlaceholders` | www/orm.py:146 | the update template holds one placeholder per field plus one for the key |
| `Orm.DeletePlaceholders` | www/orm.py:147 | the delete template holds exactly one placeholder |
| `Orm.TemplatePlaceholders` | www/orm.py:139-147 | the placeholder counts of all four templates of a built schema |
| `Orm.BuiltSchemaValid` | www/orm.py:120-147 | every schema the build produces satisfies the schema invariant and carries its templates |
| `Orm.Instance.constructor` | www/orm.py:151-152 | a new instance holds the schema and the keyword values |
| `Orm.Instance.GetValue` | www/orm.py:160-161 | a stored key gives its value and a missing key gives `None`; no default is substituted |
| `Orm.Instance.GetValueOrDefault` | www/orm.py:162-170 | a stored non-`None` value is returned unchanged; otherwise the field's literal or produced default is returned and written back; an unknown key raises |
| `Orm.Resolved` | www/orm.py:162-170 | the value `getValueOrDefault` returns: the stored non-`None` value, else `None` without a default, else the literal or what the factory produced |
| `Orm.DefaultMemoised` | www/orm.py:162-170 | after a default was stored, resolving again returns it, stores nothing and ignores the factory |
| `Orm.ResolvedCases` | www/orm.py:163-167 | resolution returns the stored value, else the literal default, else what the factory produced |
| `Orm.ColumnOrderDistinct` | www/orm.py:219-220 | the fields then the key are distinct mapped names |
| `Orm.SaveFold` | www/orm.py:219-220 | the specification of `save`'s argument list: `getValueOrDefault` applied to the fields then the key, each call seeing the values stored by the calls before it |
| `Orm.SaveFoldStores` | www/orm.py:219-220 | resolving the keys one after another stores exactly the defaults that resolving each against the original values would store |
| `Orm.SaveFoldArgs` | www/orm.py:219-220 | each bound argument is the resolution against the values before the call |
| `Orm.SaveFoldPointwise` | www/orm.py:219-220 | the step-by-step resolution equals the pointwise one, in arguments and stored values |
| `Orm.SaveArgs` | www/orm.py:219-220 | `save` binds one argument per field plus the key |
| `Orm.Instance.Save` | www/orm.py:217-223 | `save` issues the insert template with `getValueOrDefault` of the fields then the key, stores the defaults, and only warns when the row count is not 1 |
| `Orm.UpdateArgs` | www/orm.py:226-227 | `getValue` of the fields then the key, against the stored values, with `None` for an unset one |
| `Orm.Instance.Update` | www/orm.py:224-230 | `update` issues the update template with `getValue` of the fields then the key (exactly `UpdateArgs` of the stored values), and only warns when the row count is not 1 |
| `Orm.Instance.Remove` | www/orm.py:231-236 | `remove` issues the delete template with the key's value alone, and only warns when the row count is not 1 |
| `Orm.SaveArgsMatchInsert` | www/orm.py:217-230 | the arguments of `save` and `update` match the placeholders of their templates, and `remove`'s one argument matches the delete template |
| `Orm.UpdateArgsNoDefaults` | www/orm.py:226-227 | `update` binds `None` for an unset value; it never uses a default |
| `Values.PyJoin` | www/orm.py:195 | `' '.join` succeeds exactly when every item is a string, giving the joined text |
| `Orm.FindAllJoin` | www/orm.py:174-195 | joining the parts gives the select template followed by the where, order-by and limit clauses |
| `Orm.AsWrittenIntFails` | www/orm.py:186-189 | with an integer limit, the source's part list holds an integer, so the join raises |
| `Orm.AsWrittenOtherwise` | www/orm.py:174-195 | with any other limit, the source's part list joins to the corrected text |
| `Orm.FindAllAsWritten` | www/orm.py:171-195 | `findAll` as written: an integer limit raises `TypeError`, an invalid limit raises `ValueError`, and no limit or a pair gives the select, clauses and arguments |
| `Orm.FindAll` | www/orm.py:171-196 | `findAll` corrected: succeeds exactly for no limit, an integer or a pair, with the clauses in order; the arguments are the caller's then the limit's values; every matching row comes back, as `select` is called without a size |
| `Orm.FetchRows` | www/orm.py:40-43 | a size fetches at most that many rows, as a prefix of the matching rows, and no size fetches all |
| `Orm.Find` | www/orm.py:209-215 | `find` issues the select template restricted to the key, bound to `[pk]`, and returns the first row or `None` |
| `Orm.FindNumber` | www/orm.py:198-207 | `find_number` issues `select <field> _num_ from` the table with the optional where clause, and returns `None` on no row, otherwise the first row's `_num_` |
| `Orm.DriverSql` | www/orm.py:39 | `sql.replace('?', '%s')`: each character kept, each `?` replaced by `%s` |
| `Orm.DriverSqlRewrites` | www/orm.py:39 | the driver text has no `?` left, one more character per placeholder, and one `%` per former `?` |
| `Config.SubstringSlice` | www/config.py:33 | the substring test holds exactly when some slice of the text equals the key |
| `Config.Member` | www/config.py:33 | `k in override` is key membership on a dictionary, the existence of a slice equal to `k` on a string and the existence of an item equal to `k` on a tuple, and raises on anything else |
| `Config.MergeEntry` | www/config.py:32-39 | the value `merge` stores for one key: the default when the override lacks the key, the recursive merge for a dict default, the override's value otherwise, and `TypeError` when the membership test or the indexing raises |
| `Config.Merge` | www/config.py:30-40 | `merge(defaults, override)`: a fresh plain dict over the defaults' keys holding each key's entry, or `TypeError` when any entry raises |
| `Config.MergeKeys` | www/config.py:30-40 | the merge has exactly the defaults' keys; keys only in the override are dropped |
| `Config.MergeValues` | www/config.py:32-39 | a key missing from the override keeps its default, a non-dict default is replaced, and a dict default is merged recursively |
| `Config.MergeEmpty` | www/config.py:38-39 | merging with an empty override gives the defaults back |
| `Config.MergeTotal` | www/config.py:30-40 | the merge cannot raise when every nested override is a dictionary wherever it is looked in |
| `Config.MergeNonContainer` | www/config.py:33 | an override leaf that is neither a string nor a tuple, met where a dictionary is expected, raises `TypeError` |
| `Config.OverrideDb` | www/config_override.py:11-13 | the override's `db` subtree replaces the host and keeps the port |
| `Config.OverrideSession` | www/config_override.py:14-16 | the override's `session` subtree replaces the secret |
| `Config.OverrideExample` | www/config_override.py:10-17 | merging the override onto matching defaults replaces the host and the secret and keeps every other default |
| `Config.ToDict` | www/config.py:42-46 | `toDict` turns exactly the dictionaries into `Dict`s with the same keys and leaves every leaf as it is |
| `Config.ToDictPreserves` | www/config.py:42-46 | at every depth `toDict` changes no key and no leaf, and leaves only `Dict`s |
| `Config.ToDictIdempotent` | www/config.py:42-46 | applying `toDict` twice is the same as once |
| `Config.AttrDict.constructor` | www/config.py:16-19 | `Dict(names=(), values=(), **kw)`: the keyword entries overlaid with the zipped pairs in order; `Dict()` is empty |
| `Config.InitEntries` | www/config.py:16-19 | the keys are those of `kw` and the zipped names; a name takes the value of its last pair; an unnamed `kw` entry is kept |
| `Config.AttrDict.GetAttr` | www/config.py:11-25 | `d.key`: a method `Dict` inherits from `dict` (`items`, `get`, ...) or a `__name__` gives the class attribute whatever the entries hold; any other name gives its entry, or `AttributeError` naming the key |
| `Config.AttrDict.SetAttr` | www/config.py:27-28 | `d.key = v` writes entry `key` and changes no other; reading `d.key` then gives `v`, unless `key` names a class attribute, which still wins |
| `Apis.NewApiError` | www/apis.py:10-18 | `APIError(error, data='', message='')` keeps the code, the data and the message it is given |
| `Apis.ApiValueError` | www/apis.py:20-25 | `APIValueError(field, message='')` is the base error with code `value:invalid` and the field as data |
| `Apis.ApiResourceNotFoundError` | www/apis.py:27-32 | `APIResourceNotFoundError(field, message='')` is the base error with code `value:notfound` and the field as data |
| `Apis.ApiPermissionError` | www/apis.py:34-39 | `APIPermissionError(field, message='')` is the base error with code `permission:forbidden` and data `permission`, whatever the field |
| `Apis.ApiErrorDefaults` | www/apis.py:14-38 | without a message every kind carries the empty message; the base error without data carries empty data |
| `Apis.ErrorCodesDistinct` | www/apis.py:14-39 | the three codes are distinct, and the permission error ignores its field |
| `Apis.FloorDiv` | www/apis.py:45 | Python's `//`, rounding toward negative infinity for either sign of the divisor |
| `Apis.FloorMod` | www/apis.py:45 | Python's `%`, the remainder left by `//` |
| `Apis.FloorDivMod` | www/apis.py:45 | Python's `//` and `%` satisfy `a == b*(a//b) + a%b`, with the remainder on the divisor's side |
| `Apis.MakePage` | www/apis.py:41-55 | `Page(item_count, page_index=1, page_size=10)` exists exactly when the page size is non-zero; otherwise the division raises |
| `Apis.PageCountCeiling` | www/apis.py:45 | the page count is the item count divided by the page size, rounded up |
| `Apis.PageClamped` | www/apis.py:46-49 | no items, or an index past the last page, gives offset 0, limit 0 and index 1 |
| `Apis.PageKept` | www/apis.py:50-53 | otherwise the index is kept (even below 1), the offset skips the earlier pages and the limit is the size |
| `Apis.OffsetInRange` | www/apis.py:45-52 | an index between 1 and the page count starts at an existing item |
| `Apis.DefaultPage` | www/apis.py:42-53 | `Page(n)` has pages of ten; with items it is the first page at offset 0 with limit 10, and with none it is empty |
| `Apis.PageNavigation` | www/apis.py:54-55 | there is a next page exactly below the page count and a previous page exactly above 1; an empty result has neither |
| `Coroweb.Tagged` | www/coroweb.py:15-36 | the wrapper both decorators return has the function's signature and behaviour and carries the method and path tags |
| `Coroweb.Get` | www/coroweb.py:15-26 | `@get(path)` is the tagging with method `GET` |
| `Coroweb.Post` | www/coroweb.py:28-36 | `@post(path)` is the tagging with method `POST` |
| `Coroweb.GetRequiredKwArgs` | www/coroweb.py:38-44 | the loop collects the keyword-only parameters without a default, in order |
| `Coroweb.GetNameKwArgs` | www/coroweb.py:46-52 | the loop collects all keyword-only parameters, in order |
| `Coroweb.HasNamedKwArgs` | www/coroweb.py:54-58 | true exactly when some parameter is keyword-only |
| `Coroweb.HasVarKwArg` | www/coroweb.py:60-64 | true exactly when some parameter is `**kw` |
| `Coroweb.RequestScan` | www/coroweb.py:66-76 | the request scan specification: parameters in order; after `request`, one that is not `*args`, `**kw` or keyword-only raises |
| `Coroweb.HasRequestArg` | www/coroweb.py:66-76 | the loop computes the request scan specification |
| `Coroweb.RequestScanErrorSticks` | www/coroweb.py:74-75 | once a prefix raised, the whole scan raises |
| `Coroweb.RequestScanCharacterised` | www/coroweb.py:66-76 | the scan raises exactly when a parameter after `request` is positional or ordinary, and otherwise answers whether `request` is declared |
| `Coroweb.KwArgsMembers` | www/coroweb.py:38-58 | the named and required lists hold exactly the keyword-only parameters (without default), and the named list is non-empty exactly when one exists |
| `Coroweb.RequiredAmongNamed` | www/coroweb.py:38-52 | the required names are a subsequence of the named ones |
| `Coroweb.NewRequestHandler` | www/coroweb.py:79-86 | the handler caches the five scans, and fails exactly when the request scan raises |
| `Coroweb.AddRoute` | www/coroweb.py:141-149 | an untagged function raises; a tagged one fails exactly as `RequestHandler` does, and is otherwise routed under its method and path with the handler holding all five scans of its signature |
| `Coroweb.MatchArgs` | www/coroweb.py:111 | each path variable becomes a string argument |
| `Coroweb.RestrictTo` | www/coroweb.py:113-118 | the copy loop keeps exactly the named entries that are present |
| `Coroweb.OverlayPairs` | www/coroweb.py:119-122 | the path variables overwrite the arguments one by one |
| `Coroweb.FindMissing` | www/coroweb.py:125-128 | the loop finds the first required name that is missing |
| `Coroweb.FirstMissing` | www/coroweb.py:125-128 | the specification of the required-argument check: the first required name absent from the arguments |
| `Coroweb.Collect` | www/coroweb.py:88-109 | the arguments read from the request: nothing for a handler without keyword or request parameters, the body of a POST by content type, the first value of each query parameter of a GET with a query string, and the bad-request texts |
| `Coroweb.BaseKw` | www/coroweb.py:110-118 | the arguments the call starts from: none, or the collected ones restricted to the named ones when there is no `**kw` |
| `Coroweb.KwSpec` | www/coroweb.py:110-124 | the call's arguments: the starting ones overlaid with the path variables, plus `request` when declared |
| `Coroweb.CallSpec` | www/coroweb.py:87-134 | the call specification: a rejected request or a missing required name gives a bad request; otherwise the handler's value, an `APIError` turned into its error, data and message, any other exception propagated |
| `Coroweb.Call` | www/coroweb.py:87-134 | the step-by-step call computes the call specification for every request |
| `Coroweb.FirstMissingCharacterised` | www/coroweb.py:125-128 | nothing is missing exactly when every required name is present; otherwise the answer is the first absent name |
| `Coroweb.MissingArgumentRejected` | www/coroweb.py:125-128 | a missing required name gives `Missing argument: <name>` whatever the handler does; the handler is not called |
| `Coroweb.CalledWithKw` | www/coroweb.py:129-134 | with every required name present, the handler's result is returned and an `APIError` becomes its error, data and message |
| `Coroweb.BaseKwEntries` | www/coroweb.py:113-118 | the starting arguments are the collected ones, restricted to the named ones when there is no `**kw` |
| `Coroweb.KwSpecKeys` | www/coroweb.py:110-124 | the argument names are `request` when declared, the path variables and the starting arguments |
| `Coroweb.KwSpecPath` | www/coroweb.py:119-122 | a path variable takes its matched value |
| `Coroweb.KwSpecKept` | www/coroweb.py:113-122 | a starting argument that no path variable names keeps its value |
| `Coroweb.NothingCollectedKw` | www/coroweb.py:110-111 | when nothing is collected, the arguments are exactly the path variables plus the request |
| `Coroweb.CollectedKw` | www/coroweb.py:112-124 | collected arguments survive the restriction to named arguments, path variables overwrite them, and the request is added when declared |
| `Coroweb.PostContentType` | www/coroweb.py:90-103 | for a POST: a missing type gives `Missing Content-Type.`; a JSON type gives the object or `JSON body must be object`; a urlencoded or multipart type gives the form fields; any other type gives `Unsupport Content-Type: ` and the type; prefixes are matched on the lowercased type |
| `Coroweb.JsonFormExclusive` | www/coroweb.py:94-99 | a multipart type is never taken for JSON |
| `Coroweb.JsonUrlencodedExclusive` | www/coroweb.py:94-99 | a urlencoded type is never taken for JSON |
| `Coroweb.PlainHandlerIgnoresBody` | www/coroweb.py:89 | a handler taking neither keyword arguments nor the request reads no body and gets only the path variables |

## Left out

- The database driver: `create_pool`, `select` and `execute` (www/orm.py:17-64) are connection-pool and cursor I/O. A statement is the `(sql, args)` pair they would receive, the rows are an input, and the affected-row count is a parameter. Only the `?` to `%s` rewrite and the fetch size are modelled.
- Logging everywhere, including the duplicate-argument warning of www/coroweb.py:121. It has no effect on results.
- `async`/`await`, `asyncio.coroutine` wrapping in `add_route`, and `inspect.signature`. A signature is a given parameter list, and operations are sequential steps.
- `ModelMetaclass` as a Python metaclass and `Model`'s dict-backed `__getattr__`/`__setattr__`. An instance is a class holding a values map, and `getattr(self, key, None)` is a lookup in that map.
- The class attributes are a sequence of distinct non-empty names, as a class body gives them. This is what `ValidAttrs` requires.
- A callable default is a `Factory`. The value it returns is a parameter (`produced`), because the call itself is outside the model.
- `Page.__str__`/`__repr__` (www/apis.py:57-60) and `Model.__str__`-style display text. These are display formatting only.
- `add_static` and `add_routes` (www/coroweb.py:136-139, 151-167). These are filesystem and module reflection.
- aiohttp request parsing. `request.json()`, `request.post()` and `parse_qs` are inputs. A JSON body that is not an object is the `None` body, and a malformed body that makes `json()` raise is not modelled.
- The handler function `**kw` call: the handler is a function from the keyword arguments to an outcome. Python's `TypeError` for an unexpected keyword is part of that outcome.
- The text of the two `ValueError`s of www/coroweb.py:75 and :145. Their kinds are modelled (`RequestNotLast`, `NotDecorated`), the messages are not.
- The module-level code of www/config.py:48-55 (it imports `config_default`, which is not part of this model), www/pymonitor.py and fabfile.py.
- `Values.Lower`: only ASCII letters are lowered, because Unicode case mapping is outside the model.
- Leaf values: a list, a set or a dict never stands as an `Opaque` leaf, so `Config.MergeNonContainer` covers only non-containers; `in` against a list or set override is not modelled.
- `Config.AttrDict.GetAttr`: every name of the form `__x__` is taken for a class attribute, although Python sends a dunder name that neither `dict` nor `object` defines to `__getattr__`; the exact set of dunders differs between Python versions.
- `Values.PyStr`: the quote and backslash escaping of `repr` inside a tuple's text is not modelled.
- `Orm.FloatField`: the `0.0` default is opaque text, because no float reasoning is needed.
- `Orm.FindAll`: `args.extend(limit)` mutates the caller's list in the source. The model returns the extended list instead.

## Findings

| source | as written | input that shows it | evidently intended | confidence | as-written member | corrected member |
|---|---|---|---|---|---|---|
| www/orm.py:187-189 | an integer limit appends `'?'` and then the integer itself to the SQL parts, so `' '.join(sql)` at line 195 raises `TypeError` | `findAll(limit=5)` (or `limit=True`, a bool being an int) | bind the integer as an argument, as the pair branch does: text `... limit ?` with the integer appended to `args` | not executed | `Orm.FindAllAsWritten` | `Orm.FindAll` |
