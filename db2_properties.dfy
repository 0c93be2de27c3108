/** Properties of the DB2 connector that relate several of its operations:
    the serialisation round trips, what `__eq__` compares, how a source's
    name survives encoding, and how the saved-dataset storage and the data
    source it yields agree. */
module Db2Properties {
  import opened Wrappers
  import opened Db2Protos
  import opened Db2

  // ---------------------------------------------------------------------
  // DB2Options and its configuration object

  /** Decoding the configuration `to_proto` writes gives the same options. */
  lemma OptionsRoundTrip(o: DB2Options)
    ensures OptionsFromProto(OptionsToProto(o)) == Ok(o)
  {
  }

  /** The other direction: a configuration holding exactly the three keys,
      each a JSON string, is decoded and re-encoded to itself. */
  lemma ConfigurationRoundTrip(c: Configuration)
    requires c.Keys == {NameKey, QueryKey, TableKey}
    requires forall k :: k in c ==> c[k].JString?
    ensures OptionsFromConfiguration(c).Ok?
    ensures OptionsToConfiguration(OptionsFromConfiguration(c).value) == c
  {
    var o := OptionsFromConfiguration(c).value;
    var c' := OptionsToConfiguration(o);
    forall k | k in c ensures k in c' && c'[k] == c[k] {
      assert k == NameKey || k == QueryKey || k == TableKey;
    }
  }

  /** JSON `null` under a key is normalised to `""`, as an absent value is
      when the options are built directly. */
  lemma NullConfigurationValueIsEmpty(c: Configuration, key: string)
    requires NameKey in c && QueryKey in c && TableKey in c
    requires key == NameKey || key == QueryKey || key == TableKey
    requires c[key] == JNull
    ensures OptionsToConfiguration(OptionsFromConfiguration(c).value)[key] == JString("")
  {
  }

  // ---------------------------------------------------------------------
  // DB2Source construction

  /** Neither name nor table: the constructor raises the no-name error. */
  lemma NoNameOrTableFails(query: Option<string>)
    ensures NewDB2Source(None, query, None, Some(""), Some(""), None, Some(""), None, Some(""))
            == Err(DataSourceNoName)
  {
  }

  /** An empty name and no table passes the absence check and then fails
      the assertion on the resolved name. */
  lemma EmptyNameWithoutTableFails(query: Option<string>)
    ensures NewDB2Source(Some(""), query, None, Some(""), Some(""), None, Some(""), None, Some(""))
            == Err(AssertionFailed)
  {
  }

  /** Every valid source is the result of some constructor call: `Valid`
      describes exactly what the constructor can build. */
  lemma ValidIsConstructible(s: DB2Source)
    requires Valid(s)
    ensures exists name: Option<string>, table: Option<string> ::
      NewDB2Source(name, Some(s.options.query), table,
        Some(s.base.timestampField), Some(s.base.createdTimestampColumn), Some(s.base.fieldMapping),
        Some(s.base.description), Some(s.base.tags), Some(s.base.owner)) == Ok(s)
  {
    var name: Option<string> := if s.options.name != "" then Some(s.options.name) else None;
    var table := Some(s.options.table);
    var r := NewDB2Source(name, Some(s.options.query), table,
        Some(s.base.timestampField), Some(s.base.createdTimestampColumn), Some(s.base.fieldMapping),
        Some(s.base.description), Some(s.base.tags), Some(s.base.owner));
    assert r == Ok(s);
  }

  // ---------------------------------------------------------------------
  // DB2Source serialisation

  /** A configuration whose name and table are both empty strings passes the
      absence check and fails the assertion on the resolved name; one whose
      name and table are both `null` raises the no-name error; a `null` name
      with an empty-string table fails the assertion. */
  lemma EmptyConfiguredNameAndTableFail(p: DataSourceProto, query: JsonValue)
    ensures SourceFromProto(p.(customOptions := Some(CustomSourceOptions(
              map[NameKey := JString(""), QueryKey := query, TableKey := JString("")]))))
            == Err(AssertionFailed)
    ensures SourceFromProto(p.(customOptions := Some(CustomSourceOptions(
              map[NameKey := JNull, QueryKey := query, TableKey := JNull]))))
            == Err(DataSourceNoName)
    ensures SourceFromProto(p.(customOptions := Some(CustomSourceOptions(
              map[NameKey := JNull, QueryKey := query, TableKey := JString("")]))))
            == Err(AssertionFailed)
  {
  }

  /** Decoding the envelope of a valid source gives the same source back. */
  lemma SourceRoundTrip(s: DB2Source)
    requires Valid(s)
    ensures SourceFromProto(SourceToProto(s)) == Ok(s)
  {
    var p := SourceToProto(s);
    var c := p.customOptions.value.configuration;
    assert c == OptionsToConfiguration(s.options);
    var name := Some(s.options.name);
    var query := Some(s.options.query);
    var table := Some(s.options.table);
    assert SourceFromProto(p) == NewDB2Source(name, query, table, Some(p.timestampField),
      Some(p.createdTimestampColumn), Some(p.fieldMapping), Some(p.description), Some(p.tags), Some(p.owner));
  }

  /** Any source the constructor builds keeps its resolved name, query,
      table, timestamp columns, field mapping, description, tags and owner
      through encoding and decoding. */
  lemma ConstructedSourceRoundTrip(
    name: Option<string>, query: Option<string>, table: Option<string>,
    timestampField: Option<string>, createdTimestampColumn: Option<string>,
    fieldMapping: Option<map<string, string>>, description: Option<string>,
    tags: Option<map<string, string>>, owner: Option<string>)
    requires NewDB2Source(name, query, table, timestampField, createdTimestampColumn,
               fieldMapping, description, tags, owner).Ok?
    ensures
      var s := NewDB2Source(name, query, table, timestampField, createdTimestampColumn,
                 fieldMapping, description, tags, owner).value;
      var r := SourceFromProto(SourceToProto(s));
      && r.Ok?
      && r.value.base.name == s.base.name
      && r.value.options.query == s.options.query
      && r.value.options.table == s.options.table
      && r.value.base.timestampField == s.base.timestampField
      && r.value.base.createdTimestampColumn == s.base.createdTimestampColumn
      && r.value.base.fieldMapping == s.base.fieldMapping
      && r.value.base.description == s.base.description
      && r.value.base.tags == s.base.tags
      && r.value.base.owner == s.base.owner
  {
    var s := NewDB2Source(name, query, table, timestampField, createdTimestampColumn,
               fieldMapping, description, tags, owner).value;
    SourceRoundTrip(s);
  }

  /** Decoding never reads the envelope's own name, type or class path: the
      name comes only from the configuration's name or table. */
  lemma FromProtoIgnoresEnvelopeName(p: DataSourceProto, name: string, sourceType: SourceType, classType: string)
    ensures SourceFromProto(p.(name := name, sourceType := sourceType, dataSourceClassType := classType))
            == SourceFromProto(p)
  {
  }

  /** A source built from a table alone writes an empty name into its
      configuration; after decoding it has its name again, resolved anew
      from the table. */
  lemma TableOnlySourceRoundTrip(table: string, query: Option<string>)
    requires table != ""
    ensures
      var r := NewDB2Source(None, query, Some(table), Some(""), Some(""), None, Some(""), None, Some(""));
      && r.Ok?
      && r.value.base.name == table
      && SourceToProto(r.value).customOptions.value.configuration[NameKey] == JString("")
      && SourceFromProto(SourceToProto(r.value)) == Ok(r.value)
      && SourceFromProto(SourceToProto(r.value)).value.base.name == table
  {
    var r := NewDB2Source(None, query, Some(table), Some(""), Some(""), None, Some(""), None, Some(""));
    SourceRoundTrip(r.value);
  }

  // ---------------------------------------------------------------------
  // DB2Source equality

  /** `__eq__` does not look at the table: changing either side's table
      leaves the answer as it was. */
  lemma EqualsIgnoresTable(baseEq: (DataSourceBase, DataSourceBase) -> bool,
                           s: DB2Source, o: DB2Source, t1: string, t2: string)
    ensures SourceEquals(baseEq, s.(options := s.options.(table := t1)),
                         Db2Object(o.(options := o.options.(table := t2))))
            == SourceEquals(baseEq, s, Db2Object(o))
  {
  }

  /** Two sources over different tables but the same query can compare
      equal while their row-source texts differ. */
  lemma EqualSourcesMayReadDifferentRows(baseEq: (DataSourceBase, DataSourceBase) -> bool, s: DB2Source)
    requires baseEq(s.base, s.base)
    ensures
      var a := s.(options := s.options.(table := "a"));
      var b := s.(options := s.options.(table := "b"));
      SourceEquals(baseEq, a, Db2Object(b)) == Ok(true) && TableQueryString(a) != TableQueryString(b)
  {
  }

  /** When the base equality is reflexive, so is `__eq__`. */
  lemma EqualsReflexive(baseEq: (DataSourceBase, DataSourceBase) -> bool, s: DB2Source)
    requires forall b :: baseEq(b, b)
    ensures SourceEquals(baseEq, s, Db2Object(s)) == Ok(true)
  {
  }

  /** When the base equality is symmetric, so is `__eq__`. */
  lemma EqualsSymmetric(baseEq: (DataSourceBase, DataSourceBase) -> bool, s: DB2Source, o: DB2Source)
    requires forall a, b :: baseEq(a, b) == baseEq(b, a)
    ensures SourceEquals(baseEq, s, Db2Object(o)) == SourceEquals(baseEq, o, Db2Object(s))
  {
  }

  /** A decoded source compares equal to the one that was encoded. */
  lemma RoundTripCompareEqual(baseEq: (DataSourceBase, DataSourceBase) -> bool, s: DB2Source)
    requires forall b :: baseEq(b, b)
    requires Valid(s)
    ensures SourceFromProto(SourceToProto(s)).Ok?
    ensures SourceEquals(baseEq, s, Db2Object(SourceFromProto(SourceToProto(s)).value)) == Ok(true)
  {
    SourceRoundTrip(s);
  }

  // ---------------------------------------------------------------------
  // Row-source text

  /** With no table, the query is recovered from the text by dropping the
      parentheses around it. */
  lemma ParenthesisedQueryRecoverable(s: DB2Source)
    requires s.options.table == ""
    ensures |TableQueryString(s)| == |s.options.query| + 2
    ensures TableQueryString(s)[1..|TableQueryString(s)| - 1] == s.options.query
  {
    var t := TableQueryString(s);
    assert t == "(" + s.options.query + ")";
    assert t[1..|t| - 1] == s.options.query;
  }

  // ---------------------------------------------------------------------
  // SavedDatasetDB2Storage

  /** A constructed storage target survives encoding and decoding, table
      ref included. */
  lemma StorageRoundTrip(st: SavedDatasetDB2Storage)
    requires StorageValid(st)
    ensures StorageFromProto(StorageToProto(st)) == Ok(st)
  {
    OptionsRoundTrip(st.db2Options);
  }

  /** Encoding then decoding a storage target built from a table ref gives
      back that table ref. */
  lemma StorageTableRefRoundTrip(tableRef: string)
    ensures StorageFromProto(StorageToProto(NewSavedDatasetDB2Storage(tableRef))).Ok?
    ensures StorageFromProto(StorageToProto(NewSavedDatasetDB2Storage(tableRef))).value.db2Options.table == tableRef
  {
    StorageRoundTrip(NewSavedDatasetDB2Storage(tableRef));
  }

  /** The data source a storage target yields writes the same configuration
      into its envelope as the storage target writes into its own. */
  lemma DataSourceSharesStorageConfiguration(st: SavedDatasetDB2Storage)
    requires StorageValid(st) && st.db2Options.table != ""
    ensures ToDataSource(st).Ok?
    ensures SourceToProto(ToDataSource(st).value).customOptions == StorageToProto(st).customStorage
  {
  }
}
