# DB2 data-source connector — configuration model

A Dafny model of the configuration logic in the feature store's DB2 offline-store connector
(`sdk/python/feast/infra/offline_stores/contrib/db2_offline_store/db2_source.py`). The model covers:

- `DB2Options`, which turns an absent name, query or table into `""`;
- the `DB2Source` constructor and its name resolution: an explicit name, else the table; it raises
  the no-name error when both are absent, and it fails its assertion when the resolved name is empty;
- `get_table_query_string`, which gives the bare table or the parenthesised query;
- `DB2Source.__eq__`;
- `SavedDatasetDB2Storage` and the data source it yields;
- the conversions of all three to and from the framework's envelopes.

Everything in the file is pure: fields are set only in constructors. So every class is a `datatype`
and every method is a `function`. A raised exception is a `Result` error (`Db2.Error`). Python's
`Optional` is `Option`. Python truthiness is written out (`Db2.Truthy`, `Db2.Or`, `Db2.OrEmpty`).
The JSON object inside the custom-options envelope is a map from key to JSON value, where the value
is a string or `null`. The protobuf messages are plain datatypes (`db2_source.dfy`, `protos.dfy`).
`Db2.Valid` describes a constructed source: its name is non-empty and equals the options' name, or
the table when that name is empty. `Db2Properties.ValidIsConstructible` proves that the constructor
can build every such value.

Files: `wrappers.dfy` (Option, Result), `protos.dfy` (envelopes), `db2_source.dfy` (the operations),
`db2_properties.dfy` (lemmas that relate several operations).

## Model

All source paths are in `sdk/python/feast/infra/offline_stores/contrib/db2_offline_store/`.

| member | source | states |
|---|---|---|
| Db2.NewDB2Options | sdk/python/feast/infra/offline_stores/contrib/db2_offline_store/db2_source.py:130-138 | each of name, query and table is the given string, or `""` when it is absent (so no field is ever absent) |
| Db2.OptionsToConfiguration | sdk/python/feast/infra/offline_stores/contrib/db2_offline_store/db2_source.py:151-153 | the JSON object has exactly the keys name, query and table, each holding the matching field as a string |
| Db2.OptionsToProto | sdk/python/feast/infra/offline_stores/contrib/db2_offline_store/db2_source.py:149-155 | the custom options carry a configuration with exactly the three keys, each holding the matching field as a string |
| Db2.Lookup | sdk/python/feast/infra/offline_stores/contrib/db2_offline_store/db2_source.py:143-145 | a missing key raises `KeyError` for that key and only then; JSON `null` reads as absent, a string as itself |
| Db2.OptionsFromConfiguration | sdk/python/feast/infra/offline_stores/contrib/db2_offline_store/db2_source.py:143-145 | decoding succeeds exactly when all three keys are present; the first missing key, in the order name, query, table, is the one reported; on success each field is the key's string, or `""` for `null` |
| Db2.OptionsFromProto | sdk/python/feast/infra/offline_stores/contrib/db2_offline_store/db2_source.py:141-147 | `DB2Options.from_proto` fails with a `KeyError` exactly when one of the three keys is missing, reporting the first missing one in the order name, query, table; otherwise each field is the key's string, or `""` for `null` |
| Db2.NewDB2Source | sdk/python/feast/infra/offline_stores/contrib/db2_offline_store/db2_source.py:21-49 | fails with the no-name error exactly when name and table are both absent; fails the assertion exactly when one is given but neither is a non-empty string; otherwise succeeds with the explicit name if it is non-empty, else the table; the result is `Valid`, keeps the normalised options, and passes the other arguments to the base class |
| Db2.SourceEquals | sdk/python/feast/infra/offline_stores/contrib/db2_offline_store/db2_source.py:54-66 | comparing with a non-`DB2Source` raises `TypeError`, and only then; otherwise the answer is the base class equality AND equal query, timestamp field, created-timestamp column and field mapping |
| Db2.SourceToProto | sdk/python/feast/infra/offline_stores/contrib/db2_offline_store/db2_source.py:86-101 | the envelope is a custom source carrying the connector's class path and the options' encoding; its name, field mapping, description, tags, owner, timestamp field and created-timestamp column are the source's own |
| Db2.SourceFromProto | sdk/python/feast/infra/offline_stores/contrib/db2_offline_store/db2_source.py:68-84 | unset custom options fail the assertion; a missing configuration key raises `KeyError` for the first of name, query, table that is missing; with all three keys present, it raises the no-name error exactly when name and table are both `null`, succeeds exactly when name or table is a non-empty string, fails the assertion in every other case, and decodes the options the configuration holds; a decoded source is `Valid` and copies the envelope's timestamp columns, field mapping, description, tags and owner |
| Db2.TableQueryString | sdk/python/feast/infra/offline_stores/contrib/db2_offline_store/db2_source.py:121-126 | a non-empty table gives exactly the table; an empty one gives `"(" + query + ")"` |
| Db2.NewSavedDatasetDB2Storage | sdk/python/feast/infra/offline_stores/contrib/db2_offline_store/db2_source.py:163-166 | the storage holds the table ref, and its options' name and query are empty |
| Db2.StorageToProto | sdk/python/feast/infra/offline_stores/contrib/db2_offline_store/db2_source.py:174-175 | the custom storage is set to the options' encoding |
| Db2.StorageFromProto | sdk/python/feast/infra/offline_stores/contrib/db2_offline_store/db2_source.py:168-172 | unset custom storage fails; otherwise decoding succeeds exactly when the options decode, and a failure is the options' own `KeyError`; the result keeps only the decoded table |
| Db2.ToDataSource | sdk/python/feast/infra/offline_stores/contrib/db2_offline_store/db2_source.py:177-178 | an empty table ref fails the constructor's assertion, and only then; a non-empty one always succeeds, and the source's table, name and row-source text all equal the table ref, its name and query options are `""`, and every other base field has its default (`""` or `{}`) |
| Db2Properties.OptionsRoundTrip | sdk/python/feast/infra/offline_stores/contrib/db2_offline_store/db2_source.py:141-155 | decoding the options' encoding gives the same options |
| Db2Properties.ConfigurationRoundTrip | sdk/python/feast/infra/offline_stores/contrib/db2_offline_store/db2_source.py:141-155 | a configuration with exactly the three keys, all strings, decodes to options that encode back to that same configuration |
| Db2Properties.NullConfigurationValueIsEmpty | sdk/python/feast/infra/offline_stores/contrib/db2_offline_store/db2_source.py:136-138 | a JSON `null` under one of the three keys comes back as `""` after decoding and re-encoding |
| Db2Properties.NoNameOrTableFails | sdk/python/feast/infra/offline_stores/contrib/db2_offline_store/db2_source.py:36-37 | with both name and table absent, the constructor raises the no-name error |
| Db2Properties.EmptyNameWithoutTableFails | sdk/python/feast/infra/offline_stores/contrib/db2_offline_store/db2_source.py:36-39 | `name=""` with no table passes the absence check and then fails the assertion |
| Db2Properties.ValidIsConstructible | sdk/python/feast/infra/offline_stores/contrib/db2_offline_store/db2_source.py:33-49 | every `Valid` source is what some constructor call returns |
| Db2Properties.EmptyConfiguredNameAndTableFail | sdk/python/feast/infra/offline_stores/contrib/db2_offline_store/db2_source.py:74-77 | decoding a configuration whose name and table are both `""` fails the assertion; with both `null` it raises the no-name error; a `null` name with a `""` table fails the assertion |
| Db2Properties.SourceRoundTrip | sdk/python/feast/infra/offline_stores/contrib/db2_offline_store/db2_source.py:69-101 | decoding the envelope of a valid source gives exactly that source |
| Db2Properties.ConstructedSourceRoundTrip | sdk/python/feast/infra/offline_stores/contrib/db2_offline_store/db2_source.py:69-101 | a constructed source keeps its resolved name, query, table, timestamp field, created-timestamp column, field mapping, description, tags and owner through encoding and decoding |
| Db2Properties.FromProtoIgnoresEnvelopeName | sdk/python/feast/infra/offline_stores/contrib/db2_offline_store/db2_source.py:74-84 | decoding does not depend on the envelope's name, type or class path |
| Db2Properties.TableOnlySourceRoundTrip | sdk/python/feast/infra/offline_stores/contrib/db2_offline_store/db2_source.py:38 | a source built from a table alone writes an empty name into its configuration, and gets its name back on decoding because the name is resolved again from the table |
| Db2Properties.EqualsIgnoresTable | sdk/python/feast/infra/offline_stores/contrib/db2_offline_store/db2_source.py:60-66 | changing the table on either side does not change the answer of `__eq__` |
| Db2Properties.EqualSourcesMayReadDifferentRows | sdk/python/feast/infra/offline_stores/contrib/db2_offline_store/db2_source.py:60-66 | if base equality relates the source's base to itself, two variants of it that differ only in their tables ("a" and "b") compare equal, yet their row-source texts differ |
| Db2Properties.EqualsReflexive | sdk/python/feast/infra/offline_stores/contrib/db2_offline_store/db2_source.py:54-66 | if base equality is reflexive, every source equals itself |
| Db2Properties.EqualsSymmetric | sdk/python/feast/infra/offline_stores/contrib/db2_offline_store/db2_source.py:54-66 | if base equality is symmetric, `__eq__` is symmetric too |
| Db2Properties.RoundTripCompareEqual | sdk/python/feast/infra/offline_stores/contrib/db2_offline_store/db2_source.py:54-101 | if base equality is reflexive, a valid source equals what decoding its envelope gives |
| Db2Properties.ParenthesisedQueryRecoverable | sdk/python/feast/infra/offline_stores/contrib/db2_offline_store/db2_source.py:125-126 | with no table, removing the text's first and last character gives back the query |
| Db2Properties.StorageRoundTrip | sdk/python/feast/infra/offline_stores/contrib/db2_offline_store/db2_source.py:163-175 | a constructed storage target survives encoding and decoding |
| Db2Properties.StorageTableRefRoundTrip | sdk/python/feast/infra/offline_stores/contrib/db2_offline_store/db2_source.py:163-175 | the table ref comes back unchanged through encoding and decoding |
| Db2Properties.DataSourceSharesStorageConfiguration | sdk/python/feast/infra/offline_stores/contrib/db2_offline_store/db2_source.py:174-178 | for a non-empty table ref, the data source from `to_data_source` writes the same configuration into its envelope as the storage target writes into its own |

## Left out

- The base class `DataSource` (`feast/data_source.py`) is not part of this model. `Db2.NewDataSourceBase` assumes it stores each argument and turns an absent one into `""` or `{}`. It also assumes the base class checks nothing further.
- The base class equality in `__eq__` (line 61) is a parameter of `Db2.SourceEquals`. Its definition is not part of this model.
- `__hash__` (lines 51-52) and the runtime type checks of `@typechecked` are framework code, so they are not modelled.
- `get_table_column_names_and_types` (lines 110-119) opens a database connection and reads a cursor. That I/O is left out. The zero-row SQL text it sends is not modelled either.
- `source_datatype_to_feast_value_type` and the type-code conversion (lines 15, 106-108, 118) call functions whose definitions are not part of this model.
- `validate` (lines 103-104) does nothing, so there is nothing to model.
- JSON and protobuf encoding are left out: no bytes, no UTF-8 (lines 142, 151-153). Configuration values are JSON strings or `null`. Other JSON values, and bytes that are not JSON, are not modelled. The one exception is the default custom-storage message with its empty configuration, which is `Db2.Error.NotJson`.
- Python `assert` statements (lines 39, 70) are treated as always checked. With `python -O` they would be skipped, and that behaviour is not modelled.
