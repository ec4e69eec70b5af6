/**
 * What the CE providers report and what they ask of their base provider: the exceptions an
 * operation raises instead of completing, and the calls it makes on the base provider.
 */
module ProviderCalls {
  import opened Schema

  /** What a provider operation reports instead of completing. */
  datatype ProviderError =
    | NotSupported(message: string)   // a NotSupportedException
    | MigrationError(message: string) // a MigrationException

  /** A call the CE provider makes on its base provider, recorded in the order made. */
  datatype BaseCall =
    | AddColumnCall(table: string, added: Column)
    | RemoveColumnCall(table: string, column: string)
    | ChangeDefaultCall(table: string, column: string, value: Value)
    | ExecuteSql(sql: string)
}
