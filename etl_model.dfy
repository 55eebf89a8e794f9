/**
 * The values the Load build task reads, builds and hands to its collaborators:
 * build parameters, column mappings, the run record (ETLLoad) and the recorded
 * effects of the foreign calls it makes.
 */
module EtlModel {
  import opened Wrappers

  // Build-parameter keys read by the Load task.
  const TableKey := "Table"
  const DbProviderKey := "DbProvider"
  const ConnectionStringKey := "ConnectionString"

  // Keys of one column-mapping entry.
  const ColumnKey := "Column"
  const MappingKey := "Mapping"
  const DataTypeNameKey := "DataTypeName"

  // Keys of the watermark parameter map given to the pre- and post-command.
  const LastMaxIdKey := "LastMaxId"
  const LastQueryTimeKey := "LastQueryTime"
  const LastMaxModifyTimeKey := "LastMaxModifyTime"

  /** One raw column-mapping entry, a dictionary from field name to text. */
  type MappingEntry = map<string, string>

  /**
   * The build parameters the Load task looks up. `None` stands for a key that
   * is absent or holds null; the DbProvider enumeration is kept as its name.
   */
  datatype Parameters = Parameters(
    Table: Option<string>,
    DbProvider: Option<string>,
    ConnectionString: Option<string>,
    ColumnMapping: Option<seq<MappingEntry>>,
    PreCommand: Option<string>,
    PostCommand: Option<string>)

  /** The parts of the build context the task uses besides the transform data. */
  datatype BuildContext = BuildContext(BuildKey: string, Parameters: Parameters)

  /** A resolved column mapping handed to the batch inserter. */
  datatype ColumnMapping = ColumnMapping(Column: string, Mapping: string, DataTypeName: Option<string>)

  /** Bookkeeping of the previous extract run; the two times are kept as ticks. */
  datatype LastExtract = LastExtract(MaxId: int, QueryTime: int, MaxModifyTime: int)

  /** An executed pre- or post-command as recorded in the run record (ETLDbCommand). */
  datatype DbCommand = DbCommand(Command: string, Parameters: map<string, int>, Taken: nat)

  /** The run record (ETLLoad) as handed to the ETL repository. */
  datatype LoadRecord = LoadRecord(
    Table: string,
    Size: nat,
    Taken: nat,
    PreCommand: Option<DbCommand>,
    PostCommand: Option<DbCommand>)

  /** Options used to create the SQL mapper (CreateSmartSqlMapperOptions). */
  datatype MapperOptions = MapperOptions(
    Alias: string,
    ProviderName: string,
    DataSourceName: string,
    ConnectionString: string)

  /** Why a Load run stops early. */
  datatype LoadError =
    | MissingParameter(key: string)       // a required build parameter is absent
    | MissingMappingField(field: string)  // a column-mapping entry lacks Column or Mapping
    | MapperCreateFailed                  // the SQL mapper factory threw
    | StatementFailed(command: string)    // executing the pre- or post-command threw
    | BatchCreateFailed                   // the batch-insert factory threw
    | InsertFailed                        // the bulk insert threw
    | RepositoryFailed                    // the ETL repository rejected the record

  /** One call the Load task makes on a collaborator, in the order it makes them. */
  datatype Effect =
    | CreateMapper(options: MapperOptions)
    | ExecPre(command: string, parameters: map<string, int>)
    | OpenBatch(provider: string)
    | AddMapping(mapping: ColumnMapping)
    | Insert(table: string, rows: nat, mappings: seq<ColumnMapping>)
    | DisposeBatch
    | ExecPost(command: string, parameters: map<string, int>)
    | RepoLoad(taskId: int, record: LoadRecord)

  /**
   * What the collaborators answer during one run: the task identity and the
   * last extract from the project, which foreign calls throw, and the elapsed
   * milliseconds the stopwatch reads around each timed call.
   */
  datatype Collaborators = Collaborators(
    TaskId: int,
    LastExtract: LastExtract,
    MapperCreateFails: bool,
    PreFails: bool,
    BatchCreateFails: bool,
    InsertFails: bool,
    PostFails: bool,
    RepositoryFails: bool,
    PreTaken: nat,
    InsertTaken: nat,
    PostTaken: nat)
}
