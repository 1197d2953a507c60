/**
 * The exceptions the parser raises, as values. Each constructor names the
 * Python exception it stands for.
 */
module Errors {

  datatype Error =
      /** CountryNotYetImplementedError: no `Country` member has that name. */
    | CountryNotYetImplemented(country: string)
      /** TypeError: a date that is neither text nor a timestamp. */
    | DateTypeError
      /** ValueError: text that does not parse as a date. */
    | InvalidDateFormat(text: string)
      /** ValueError: the response handed to the normaliser is empty. */
    | EmptyData
      /** ValueError: the response has neither `unix_seconds` nor `time`. */
    | NoTimeInformation
      /** KeyError: `forecast_values` without `production_type`. */
    | MissingProductionType
      /** ValueError raised by the table: a series whose length is not the row count. */
    | LengthMismatch(column: string, length: nat, rows: nat)
}
