/** The host framework's envelopes, without their wire encoding: the
    `DataSource` message, the `SavedDatasetStorage` message and the generic
    custom-options message that carries a connector's configuration as a
    JSON object. */
module Db2Protos {
  import opened Wrappers

  /** One value of the JSON configuration object as `json.loads` gives it
      back: a string, or `null` (Python `None`). */
  datatype JsonValue = JString(str: string) | JNull

  /** The JSON object held in the custom options' `configuration` bytes,
      viewed as its key/value pairs. */
  type Configuration = map<string, JsonValue>

  /** `DataSource.CustomSourceOptions`: the opaque configuration of a
      connector the framework does not know natively. */
  datatype CustomSourceOptions = CustomSourceOptions(configuration: Configuration)

  /** `DataSource.SourceType`; only the custom source kind matters here. */
  datatype SourceType = Invalid | CustomSource | OtherSourceType

  /** The `DataSource` message, with the fields this connector reads or
      writes. `customOptions` is `None` when the field is not set. */
  datatype DataSourceProto = DataSourceProto(
    name: string,
    sourceType: SourceType,
    dataSourceClassType: string,
    fieldMapping: map<string, string>,
    customOptions: Option<CustomSourceOptions>,
    description: string,
    tags: map<string, string>,
    owner: string,
    timestampField: string,
    createdTimestampColumn: string)

  /** The `SavedDatasetStorage` message; `customStorage` is `None` when the
      message holds some other kind of storage or none at all. */
  datatype SavedDatasetStorageProto = SavedDatasetStorageProto(customStorage: Option<CustomSourceOptions>)
}
