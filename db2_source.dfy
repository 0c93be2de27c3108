/** The DB2 data-source connector: its options holder, the data source built
    on it and the saved-dataset storage target, with their conversions to and
    from the framework's envelopes. */
module Db2 {
  import opened Wrappers
  import opened Db2Protos

  /** The exceptions the connector's code can raise. */
  datatype Error =
    | DataSourceNoName        // `DataSourceNoNameException`
    | AssertionFailed         // a failing `assert` statement
    | KeyError(key: string)   // a configuration key that is missing
    | TypeError               // comparing with an object that is not a `DB2Source`
    | NotJson                 // configuration bytes that are not a JSON object

  /** Python truthiness of an optional string: present and non-empty. */
  predicate Truthy(s: Option<string>) {
    s.Some? && s.value != ""
  }

  /** Python's `a or b` on optional strings. */
  function Or(a: Option<string>, b: Option<string>): (r: Option<string>) {
    if Truthy(a) then a else b
  }

  /** Python's `s or ""` on an optional string. */
  function OrEmpty(s: Option<string>): (r: string) {
    if Truthy(s) then s.value else ""
  }

  /** The configuration keys, in the order the decoders look them up. */
  const NameKey: string := "name"
  const QueryKey: string := "query"
  const TableKey: string := "table"

  /** The class path the framework uses to find this connector again. */
  const DB2SourceClassType: string :=
    "feast.infra.offline_stores.contrib.db2_offline_store.db2_source.DB2Source"

  // ---------------------------------------------------------------------
  // DB2Options

  /** The three strings that locate a DB2 source's rows. */
  datatype DB2Options = DB2Options(name: string, query: string, table: string)

  /** The `DB2Options` constructor: an absent value is stored as `""`. */
  function NewDB2Options(name: Option<string>, query: Option<string>, table: Option<string>): (o: DB2Options)
    ensures name.Some? ==> o.name == name.value
    ensures query.Some? ==> o.query == query.value
    ensures table.Some? ==> o.table == table.value
    ensures name.None? ==> o.name == ""
    ensures query.None? ==> o.query == ""
    ensures table.None? ==> o.table == ""
  {
    DB2Options(OrEmpty(name), OrEmpty(query), OrEmpty(table))
  }

  /** The JSON object `DB2Options.to_proto` writes: exactly the three keys,
      each holding its field as a string. */
  function OptionsToConfiguration(o: DB2Options): (c: Configuration)
    ensures c.Keys == {NameKey, QueryKey, TableKey}
    ensures c[NameKey] == JString(o.name)
    ensures c[QueryKey] == JString(o.query)
    ensures c[TableKey] == JString(o.table)
  {
    map[NameKey := JString(o.name), QueryKey := JString(o.query), TableKey := JString(o.table)]
  }

  /** `DB2Options.to_proto`. */
  function OptionsToProto(o: DB2Options): (p: CustomSourceOptions)
    ensures p.configuration.Keys == {NameKey, QueryKey, TableKey}
    ensures p.configuration == OptionsToConfiguration(o)
  {
    CustomSourceOptions(OptionsToConfiguration(o))
  }

  /** `config[key]` on the decoded JSON object: a missing key raises
      `KeyError`, JSON `null` reads as `None`. */
  function Lookup(c: Configuration, key: string): (r: Result<Option<string>, Error>)
    ensures r.Err? <==> key !in c
    ensures r.Err? ==> r.error == KeyError(key)
    ensures r.Ok? ==> (r.value.Some? <==> c[key].JString?)
    ensures r.Ok? && r.value.Some? ==> r.value.value == c[key].str
  {
    if key !in c then Err(KeyError(key))
    else match c[key]
      case JString(s) => Ok(Some(s))
      case JNull => Ok(None)
  }

  /** The value a present key contributes to a `DB2Options` field. */
  function FieldOf(c: Configuration, key: string): (field: string)
    requires key in c
  {
    match c[key]
    case JString(s) => s
    case JNull => ""
  }

  /** Decoding the JSON object into `DB2Options`, looking up name, query and
      table in that order. */
  function OptionsFromConfiguration(c: Configuration): (r: Result<DB2Options, Error>)
    ensures NameKey !in c ==> r == Err(KeyError(NameKey))
    ensures NameKey in c && QueryKey !in c ==> r == Err(KeyError(QueryKey))
    ensures NameKey in c && QueryKey in c && TableKey !in c ==> r == Err(KeyError(TableKey))
    ensures r.Ok? <==> NameKey in c && QueryKey in c && TableKey in c
    ensures r.Ok? ==> r.value == DB2Options(FieldOf(c, NameKey), FieldOf(c, QueryKey), FieldOf(c, TableKey))
  {
    var name :- Lookup(c, NameKey);
    var query :- Lookup(c, QueryKey);
    var table :- Lookup(c, TableKey);
    Ok(NewDB2Options(name, query, table))
  }

  /** `DB2Options.from_proto`: a missing key raises `KeyError`; otherwise each
      field is the key's string, or `""` for `null`. */
  function OptionsFromProto(p: CustomSourceOptions): (r: Result<DB2Options, Error>)
    ensures r.Err? <==> !(NameKey in p.configuration && QueryKey in p.configuration && TableKey in p.configuration)
    ensures r.Err? ==> r.error.KeyError?
    ensures NameKey !in p.configuration ==> r == Err(KeyError(NameKey))
    ensures NameKey in p.configuration && QueryKey !in p.configuration ==> r == Err(KeyError(QueryKey))
    ensures (NameKey in p.configuration && QueryKey in p.configuration && TableKey !in p.configuration)
      ==> r == Err(KeyError(TableKey))
    ensures r.Ok? ==> r.value.name == FieldOf(p.configuration, NameKey)
    ensures r.Ok? ==> r.value.query == FieldOf(p.configuration, QueryKey)
    ensures r.Ok? ==> r.value.table == FieldOf(p.configuration, TableKey)
  {
    OptionsFromConfiguration(p.configuration)
  }

  // ---------------------------------------------------------------------
  // The part of the framework's `DataSource` base class a DB2 source uses

  /** The fields the `DataSource` base class keeps for every source. */
  datatype DataSourceBase = DataSourceBase(
    name: string,
    timestampField: string,
    createdTimestampColumn: string,
    fieldMapping: map<string, string>,
    description: string,
    tags: map<string, string>,
    owner: string)

  /** The base class constructor, taken to store each value with an absent
      one replaced by the empty string or the empty map. */
  function NewDataSourceBase(
    name: string,
    timestampField: Option<string>,
    createdTimestampColumn: Option<string>,
    fieldMapping: Option<map<string, string>>,
    description: Option<string>,
    tags: Option<map<string, string>>,
    owner: Option<string>): (b: DataSourceBase)
  {
    DataSourceBase(
      name,
      OrEmpty(timestampField),
      OrEmpty(createdTimestampColumn),
      if fieldMapping.Some? then fieldMapping.value else map[],
      OrEmpty(description),
      if tags.Some? then tags.value else map[],
      OrEmpty(owner))
  }

  // ---------------------------------------------------------------------
  // DB2Source

  /** A DB2 data source: its options and the base class's fields. */
  datatype DB2Source = DB2Source(options: DB2Options, base: DataSourceBase)

  /** The name a source gets from its options: the explicit name when it is
      non-empty, the table otherwise. */
  function ResolvedName(o: DB2Options): (name: string) {
    if o.name != "" then o.name else o.table
  }

  /** What every constructed source satisfies: a non-empty name, resolved
      from its own options. */
  predicate Valid(s: DB2Source) {
    s.base.name != "" && s.base.name == ResolvedName(s.options)
  }

  /** The `DB2Source` constructor. Both name and table absent raise
      `DataSourceNoName`; otherwise the name is `name or table`, and an
      empty resolved name fails the assertion that follows. */
  function NewDB2Source(
    name: Option<string>,
    query: Option<string>,
    table: Option<string>,
    timestampField: Option<string>,
    createdTimestampColumn: Option<string>,
    fieldMapping: Option<map<string, string>>,
    description: Option<string>,
    tags: Option<map<string, string>>,
    owner: Option<string>): (r: Result<DB2Source, Error>)
    ensures r == Err(DataSourceNoName) <==> name.None? && table.None?
    ensures r == Err(AssertionFailed) <==> (name.Some? || table.Some?) && !Truthy(name) && !Truthy(table)
    ensures r.Ok? <==> Truthy(name) || Truthy(table)
    ensures r.Ok? ==> Valid(r.value)
    ensures r.Ok? ==> r.value.options == NewDB2Options(name, query, table)
    ensures r.Ok? && Truthy(name) ==> r.value.base.name == name.value
    ensures r.Ok? && !Truthy(name) ==> r.value.base.name == table.value
    ensures r.Ok? ==> r.value.base == NewDataSourceBase(r.value.base.name, timestampField,
                        createdTimestampColumn, fieldMapping, description, tags, owner)
  {
    var options := NewDB2Options(name, query, table);
    if name.None? && table.None? then
      Err(DataSourceNoName)
    else
      var resolved := Or(name, table);
      if !Truthy(resolved) then
        Err(AssertionFailed)
      else
        Ok(DB2Source(options, NewDataSourceBase(resolved.value, timestampField,
          createdTimestampColumn, fieldMapping, description, tags, owner)))
  }

  /** The right-hand side of `==`: a DB2 source or any other object. */
  datatype Comparand = Db2Object(source: DB2Source) | OtherObject

  /** `DB2Source.__eq__`. The base class's equality is not part of this
      model and is given as `baseEq`. The table is not compared. */
  function SourceEquals(baseEq: (DataSourceBase, DataSourceBase) -> bool, self: DB2Source, other: Comparand): (r: Result<bool, Error>)
    ensures r.Err? <==> other.OtherObject?
    ensures r.Err? ==> r.error == TypeError
    ensures r.Ok? ==> (r.value <==>
      && baseEq(self.base, other.source.base)
      && self.options.query == other.source.options.query
      && self.base.timestampField == other.source.base.timestampField
      && self.base.createdTimestampColumn == other.source.base.createdTimestampColumn
      && self.base.fieldMapping == other.source.base.fieldMapping)
  {
    match other
    case OtherObject => Err(TypeError)
    case Db2Object(o) =>
      Ok(&& baseEq(self.base, o.base)
         && self.options.query == o.options.query
         && self.base.timestampField == o.base.timestampField
         && self.base.createdTimestampColumn == o.base.createdTimestampColumn
         && self.base.fieldMapping == o.base.fieldMapping)
  }

  /** `DB2Source.to_proto`: a custom-source envelope carrying the options. */
  function SourceToProto(s: DB2Source): (p: DataSourceProto)
    ensures p.sourceType == CustomSource && p.dataSourceClassType == DB2SourceClassType
    ensures p.customOptions == Some(OptionsToProto(s.options))
    ensures p.name == s.base.name
    ensures p.fieldMapping == s.base.fieldMapping && p.description == s.base.description
    ensures p.tags == s.base.tags && p.owner == s.base.owner
    ensures p.timestampField == s.base.timestampField
    ensures p.createdTimestampColumn == s.base.createdTimestampColumn
  {
    DataSourceProto(
      s.base.name,
      CustomSource,
      DB2SourceClassType,
      s.base.fieldMapping,
      Some(OptionsToProto(s.options)),
      s.base.description,
      s.base.tags,
      s.base.owner,
      s.base.timestampField,
      s.base.createdTimestampColumn)
  }

  /** `DB2Source.from_proto`: asserts the custom options are set, looks up
      name, query and table in the configuration, and runs the constructor
      on them and on the envelope's other fields. The envelope's own name is
      not read. */
  function SourceFromProto(p: DataSourceProto): (r: Result<DB2Source, Error>)
    ensures p.customOptions.None? ==> r == Err(AssertionFailed)
    ensures p.customOptions.Some? ==>
      var c := p.customOptions.value.configuration;
      (NameKey !in c ==> r == Err(KeyError(NameKey))) &&
      (NameKey in c && QueryKey !in c ==> r == Err(KeyError(QueryKey))) &&
      (NameKey in c && QueryKey in c && TableKey !in c ==> r == Err(KeyError(TableKey)))
    ensures p.customOptions.Some? ==>
      var c := p.customOptions.value.configuration;
      NameKey in c && QueryKey in c && TableKey in c ==>
        && (r == Err(DataSourceNoName) <==> c[NameKey] == JNull && c[TableKey] == JNull)
        && (r.Ok? <==> FieldOf(c, NameKey) != "" || FieldOf(c, TableKey) != "")
        && (r == Err(AssertionFailed) <==>
              && !(c[NameKey] == JNull && c[TableKey] == JNull)
              && FieldOf(c, NameKey) == "" && FieldOf(c, TableKey) == "")
        && (r.Ok? ==> Ok(r.value.options) == OptionsFromConfiguration(c))
    ensures r.Ok? ==> Valid(r.value)
    ensures r.Ok? ==>
      && r.value.base.timestampField == p.timestampField
      && r.value.base.createdTimestampColumn == p.createdTimestampColumn
      && r.value.base.fieldMapping == p.fieldMapping
      && r.value.base.description == p.description
      && r.value.base.tags == p.tags
      && r.value.base.owner == p.owner
  {
    if p.customOptions.None? then
      Err(AssertionFailed)
    else
      var c := p.customOptions.value.configuration;
      var name :- Lookup(c, NameKey);
      var query :- Lookup(c, QueryKey);
      var table :- Lookup(c, TableKey);
      NewDB2Source(name, query, table, Some(p.timestampField), Some(p.createdTimestampColumn),
        Some(p.fieldMapping), Some(p.description), Some(p.tags), Some(p.owner))
  }

  /** `DB2Source.get_table_query_string`: the table itself when one is set,
      otherwise the query as a parenthesised sub-query. */
  function TableQueryString(s: DB2Source): (r: string)
    ensures s.options.table != "" ==> r == s.options.table
    ensures s.options.table == "" ==> r == "(" + s.options.query + ")"
  {
    if s.options.table != "" then s.options.table else "(" + s.options.query + ")"
  }

  // ---------------------------------------------------------------------
  // SavedDatasetDB2Storage

  /** A table a saved dataset is written to. */
  datatype SavedDatasetDB2Storage = SavedDatasetDB2Storage(db2Options: DB2Options)

  /** What every constructed storage target satisfies: only the table is set. */
  predicate StorageValid(st: SavedDatasetDB2Storage) {
    st.db2Options.name == "" && st.db2Options.query == ""
  }

  /** The `SavedDatasetDB2Storage` constructor. */
  function NewSavedDatasetDB2Storage(tableRef: string): (st: SavedDatasetDB2Storage)
    ensures StorageValid(st) && st.db2Options.table == tableRef
  {
    SavedDatasetDB2Storage(NewDB2Options(None, None, Some(tableRef)))
  }

  /** `SavedDatasetDB2Storage.to_proto`. */
  function StorageToProto(st: SavedDatasetDB2Storage): (p: SavedDatasetStorageProto)
    ensures p.customStorage == Some(OptionsToProto(st.db2Options))
  {
    SavedDatasetStorageProto(Some(OptionsToProto(st.db2Options)))
  }

  /** `SavedDatasetDB2Storage.from_proto`: decodes the custom storage's
      options and keeps only their table. When no custom storage is set, the
      message read is the default one, whose empty configuration is not
      JSON. */
  function StorageFromProto(p: SavedDatasetStorageProto): (r: Result<SavedDatasetDB2Storage, Error>)
    ensures p.customStorage.None? ==> r == Err(NotJson)
    ensures r.Ok? ==> StorageValid(r.value)
    ensures p.customStorage.Some? ==>
      (r.Ok? <==> OptionsFromProto(p.customStorage.value).Ok?)
    ensures p.customStorage.Some? && r.Err? ==> r.error == OptionsFromProto(p.customStorage.value).error
    ensures r.Ok? ==> r.value.db2Options.table == OptionsFromProto(p.customStorage.value).value.table
  {
    if p.customStorage.None? then
      Err(NotJson)
    else
      var o :- OptionsFromProto(p.customStorage.value);
      Ok(NewSavedDatasetDB2Storage(o.table))
  }

  /** `SavedDatasetDB2Storage.to_data_source`: a source with only the table
      given, every other argument at its default. */
  function ToDataSource(st: SavedDatasetDB2Storage): (r: Result<DB2Source, Error>)
    ensures st.db2Options.table == "" <==> r == Err(AssertionFailed)
    ensures r.Ok? <==> st.db2Options.table != ""
    ensures r.Ok? ==> r.value.options.table == st.db2Options.table
    ensures r.Ok? ==> r.value.base.name == st.db2Options.table
    ensures r.Ok? ==> TableQueryString(r.value) == st.db2Options.table
    ensures r.Ok? ==> r.value == DB2Source(DB2Options("", "", st.db2Options.table),
                                           DataSourceBase(st.db2Options.table, "", "", map[], "", map[], ""))
  {
    NewDB2Source(None, None, Some(st.db2Options.table), Some(""), Some(""), None, Some(""), None, Some(""))
  }
}
