# Energy Charts parser, modelled in Dafny

`EnergyChartsParser` is a client for the public Energy Charts web API. It has five parts:

- **Country registry.** 47 countries, each with an enum name and an API code. `get_country` upper-cases its input and returns the member whose declared name equals it, so members declared with lower-case letters in their names are never returned.
- **End points.** Three fixed paths.
- **Date formatter.** `format_date` turns text or a `pd.Timestamp` into `YYYY-MM-DD`.
- **Request builder.** `fetch_generation` builds the query for the generation end point and hands it to the transport.
- **Normaliser.** `make_dataframe` turns a JSON reply into a table:
  - `create_time_index` picks the time index;
  - `add_columns` assigns the series columns.

The model has one module per part:

| module | what it holds |
|---|---|
| `Registry` | `Country` and `APIEndPoint` as datatypes, and `GetCountry`, a search over the members in declaration order |
| `Dates` | `FormatDate`, over the input kinds text, timestamp and "anything else" |
| `Responses` | the decoded JSON object as a datatype with one optional field per key the core reads |
| `Columns` | column assignment `df[name] = values` as a function on the ordered column list |
| `Normaliser` | `Normalise`, the value-level specification of `make_dataframe` |
| `Frames` | a `DataFrame` class whose `SetColumn`, `AddEntries` and `AddColumns` methods update its column list in place, and `MakeDataFrame`, each proved against `Normaliser` |
| `EnergyCharts` | the `EnergyChartsParser` class, whose transport is a function field `queryApi`, and its `FetchGeneration` method |

Each Python exception is a constructor of `Errors.Error`:

- `CountryNotYetImplementedError` is `CountryNotYetImplemented`;
- the `TypeError` of `format_date` is `DateTypeError`;
- the `ValueError` of `format_date` is `InvalidDateFormat`;
- the `ValueError` of `make_dataframe` on an empty object is `EmptyData`;
- the `ValueError` of `create_time_index` is `NoTimeInformation`;
- the `KeyError` for a missing `production_type` is `MissingProductionType`;
- the `ValueError` pandas raises for a list whose length differs from a non-empty index is `LengthMismatch`; the model reports it for an empty index too (see "## Left out").

An operation that can raise returns a `Result`.

Some facts about the code that the model keeps as they are:

- **Country lookup.** `get_country` takes only a string. It neither passes a `Country` value through nor checks the type of its argument.
- **End points.** There is no resolver for end-point names, only the `APIEndPoint` enum.
- **Length mismatch.** pandas refuses a list whose length is not the row count of a non-empty index. The model reports this as `LengthMismatch`.
- **Mixed-case members.** Two members are declared with mixed-case names: `France` and `LITHUANIa`. `get_country` compares them with an upper-cased input, so it can never return them. `Registry.MixedCaseMembersUnreachable` and `Registry.GetCountryFrance` prove this.

## Model

| member | source | states |
|---|---|---|
| Registry.EndPointPathsDistinct | src/energy_data_parser/energy_charts.py:20-23 | the three end-point paths are pairwise distinct |
| Registry.APIEndPoint.Path | src/energy_data_parser/energy_charts.py:20-23 | every end-point path is absolute: a `/` followed by at least one character |
| Registry.Country.Name | src/energy_data_parser/energy_charts.py:115-161 | every declared name is between 5 and 17 characters long |
| Registry.Country.Code | src/energy_data_parser/energy_charts.py:115-161 | every API code is two or three lower-case ASCII letters |
| Registry.Country.Ordinal | src/energy_data_parser/energy_charts.py:111-161 | every member's position in the declaration order is below the member count |
| Registry.OrdinalOfMemberAt | src/energy_data_parser/energy_charts.py:111-161 | the member `MemberAt` gives for a position sits at that position, so `MemberAt` inverts `Ordinal` |
| Registry.CodesInjective | src/energy_data_parser/energy_charts.py:115-161 | no two countries share an API code, so a code identifies its member |
| Registry.NamesInjective | src/energy_data_parser/energy_charts.py:115-161 | no two countries share an enum name |
| Registry.MemberAtOrdinal | src/energy_data_parser/energy_charts.py:111-161 | every member sits at its own position of the declaration order that `for member in Country` follows |
| Registry.FindFrom | src/energy_data_parser/energy_charts.py:32-34 | the loop returns a member whose name equals the key, or none when no member from that position on has that name |
| Registry.Upper | src/energy_data_parser/energy_charts.py:33 | `country.upper()` keeps the length and upper-cases each lower-case ASCII letter in place |
| Registry.GetCountry | src/energy_data_parser/energy_charts.py:30-37 | succeeds exactly when some member's name equals the upper-cased input, and returns that member; otherwise fails with `CountryNotYetImplementedError` for that input |
| Registry.UpperIsAllUpper | src/energy_data_parser/energy_charts.py:33 | an upper-cased string has no lower-case letter |
| Registry.UpperFixesAllUpper | src/energy_data_parser/energy_charts.py:33 | upper-casing a string without lower-case letters leaves it unchanged |
| Registry.ReturnableIffAllUpper | src/energy_data_parser/energy_charts.py:30-37 | a member is returned for some input exactly when its name has no lower-case letter |
| Registry.FoundByOwnName | src/energy_data_parser/energy_charts.py:30-37 | a member with an all-upper-case name is found by that name |
| Registry.ReturnedIsAllUpper | src/energy_data_parser/energy_charts.py:33-34 | every member a lookup returns has an all-upper-case name |
| Registry.LowerNameUnreachable | src/energy_data_parser/energy_charts.py:33-34 | a member with a lower-case letter in its name is never returned |
| Registry.MixedCaseMembersUnreachable | src/energy_data_parser/energy_charts.py:133-140 | `France` and `LITHUANIa` are returned for no input |
| Registry.GetCountryFrance | src/energy_data_parser/energy_charts.py:30-37 | `get_country("france")` raises `CountryNotYetImplementedError` |
| Registry.NoMemberNamedFrance | src/energy_data_parser/energy_charts.py:115-161 | no member is named `FRANCE` |
| Registry.GetCountryGermany | tests/energy_charts/test_energy_charts.py:140-143 | `"germany"` resolves to `GERMANY`, whose code is `"de"` |
| Registry.GetCountryUnknown | tests/energy_charts/test_energy_charts.py:145-147 | `"invalid_country_code"` raises `CountryNotYetImplementedError` |
| Registry.NoMemberNamed | src/energy_data_parser/energy_charts.py:115-161 | a name longer than every declared name matches no member |
| Registry.NameIdentifies | src/energy_data_parser/energy_charts.py:115-161 | two members with the same name are the same member |
| Dates.Decimal | src/energy_data_parser/energy_charts.py:45 | the number a digit string denotes is below ten to the power of its length |
| Dates.Digits | src/energy_data_parser/energy_charts.py:48 | a zero-padded field has exactly the requested width and only digits |
| Dates.Strftime | src/energy_data_parser/energy_charts.py:48 | `strftime('%Y-%m-%d')` yields ten characters: four digits, a dash, two digits, a dash, two digits |
| Dates.ParseIso | src/energy_data_parser/energy_charts.py:44-47 | text is accepted only in that shape and only when it names a real calendar date |
| Dates.FormatDate | src/energy_data_parser/energy_charts.py:39-48 | a value that is neither text nor a timestamp raises `TypeError`; text fails with `ValueError` naming it exactly when it does not parse; a timestamp always formats; every result is in `YYYY-MM-DD` shape |
| Dates.DecimalOfDigits | src/energy_data_parser/energy_charts.py:45-48 | reading back a zero-padded field gives the number |
| Dates.DigitsOfDecimal | src/energy_data_parser/energy_charts.py:45-48 | zero-padding the number a digit string denotes gives the string back |
| Dates.ParseStrftime | src/energy_data_parser/energy_charts.py:44-48 | parsing a formatted timestamp gives the timestamp back |
| Dates.StrftimeParse | src/energy_data_parser/energy_charts.py:44-48 | text that parses is already in the form the formatter emits |
| Dates.TextAndStampAgree | src/energy_data_parser/energy_charts.py:43-48 | text and a timestamp for the same date format to the same string, namely the text |
| Dates.FormatDateIdempotent | src/energy_data_parser/energy_charts.py:39-48 | formatting the output of `format_date` again changes nothing |
| Dates.FormatDateExamples | tests/energy_charts/test_energy_charts.py:155-169 | `"2023-01-01"` and its timestamp both give `"2023-01-01"`; `"invalid_date"` raises `ValueError`; a number raises `TypeError` |
| Dates.FormatStampExample | tests/energy_charts/test_energy_charts.py:73-74 | the timestamps 2023-01-01 and 2023-12-31 format to those strings |
| Dates.DigitsExamples | tests/energy_charts/test_energy_charts.py:73-74 | the zero-padded fields of those two dates |
| Columns.Names | src/energy_data_parser/energy_charts.py:92-99 | the column names, one per column, in column order |
| Columns.Find | src/energy_data_parser/energy_charts.py:92-99 | a column lookup finds something exactly when the name is among the column names |
| Columns.PutNames | src/energy_data_parser/energy_charts.py:99 | assigning to an existing name keeps the name list; a new name is appended at the end |
| Columns.PutFind | src/energy_data_parser/energy_charts.py:99 | after `df[name] = values`, that name holds the new values and every other name keeps its own |
| Columns.PutColumns | src/energy_data_parser/energy_charts.py:99 | each column after an assignment is the new series or the column that was in that position |
| Columns.Step | src/energy_data_parser/energy_charts.py:99 | an assignment is refused exactly when the series is not as long as the index; a refusal leaves the columns as they were and reports the name, the series length and the row count |
| Columns.ApplyAll | src/energy_data_parser/energy_charts.py:86-100 | the only way a run of assignments fails is a series whose length differs from the row count, reported against that row count |
| Columns.LastValue | src/energy_data_parser/energy_charts.py:92-99 | a run of assignments gives a name a value exactly when it assigns that name |
| Columns.DedupElements | src/energy_data_parser/energy_charts.py:92-99 | the first-occurrence list of names holds the same names, each once |
| Columns.ApplyAllSucceedsIff | src/energy_data_parser/energy_charts.py:86-100 | a run of assignments succeeds exactly when every series is as long as the index |
| Columns.ApplyAllFailsAt | src/energy_data_parser/energy_charts.py:86-100 | the first series of the wrong length is the error, and the columns are those assigned before it |
| Columns.ApplyAllShaped | src/energy_data_parser/energy_charts.py:86-100 | assignments keep the names distinct and every column as long as the index |
| Columns.StepShaped | src/energy_data_parser/energy_charts.py:99 | one assignment keeps that table invariant |
| Columns.ApplyAllNames | src/energy_data_parser/energy_charts.py:86-100 | the resulting names are the existing names followed by newly assigned names, in order of first assignment; an overwritten name keeps its position |
| Columns.ApplyAllDedup | src/energy_data_parser/energy_charts.py:86-100 | the same, for columns already listed without repeats |
| Columns.DedupOfDistinct | src/energy_data_parser/energy_charts.py:86-100 | a list without repeated names is its own first-occurrence list |
| Columns.ApplyAllFind | src/energy_data_parser/energy_charts.py:86-100 | after a run, each name holds the series last assigned to it, or its old column when the run does not assign it |
| Columns.ApplyAllStops | src/energy_data_parser/energy_charts.py:86-100 | once an assignment is refused, later ones change nothing |
| Columns.ApplyAllSnoc | src/energy_data_parser/energy_charts.py:97-99 | a run extended by one series is the run followed by that one assignment |
| Normaliser.EpochIndex | src/energy_data_parser/energy_charts.py:75-79 | one index entry per `unix_seconds` value, in order |
| Normaliser.TextIndex | src/energy_data_parser/energy_charts.py:80-81 | one index entry per `time` value, in order |
| Normaliser.TimeIndex | src/energy_data_parser/energy_charts.py:74-84 | succeeds exactly when `unix_seconds` or `time` is present; `unix_seconds` wins; the row count is the length of the chosen field; otherwise `ValueError` |
| Normaliser.LeadingSeries | src/energy_data_parser/energy_charts.py:87-91 | fails with the missing-`production_type` `KeyError` exactly when `forecast_values` is present without `production_type`; otherwise at most one series, present exactly when `forecast_values` or `data` is, holding `forecast_values` when present, else `data` under `"frequency"` |
| Normaliser.Assignments | src/energy_data_parser/energy_charts.py:86-99 | the run fails exactly when the leading series does, with that `KeyError`; otherwise it is the leading series, then the `production_types` entries, then the `countries` entries |
| Normaliser.AddColumnsOutcome | src/energy_data_parser/energy_charts.py:86-100 | keeps the table invariant; the only errors are the missing `production_type` and a length mismatch, and the first leaves the columns untouched |
| Normaliser.Normalise | src/energy_data_parser/energy_charts.py:102-108 | the empty object raises `ValueError`; a table that is made has the time index `create_time_index` gives and distinct columns each as long as it; every error is one of the four the code raises |
| Normaliser.CategoryOrder | src/energy_data_parser/energy_charts.py:93-99 | the category entries are the `production_types` entries followed by the `countries` entries |
| Normaliser.NormaliseEmpty | src/energy_data_parser/energy_charts.py:103-104 | the empty object raises `ValueError` |
| Normaliser.NormaliseSucceedsIff | src/energy_data_parser/energy_charts.py:102-108 | a table is made exactly when the object is non-empty, has a time index, names its forecast series, and every series is as long as the index |
| Normaliser.NormaliseFailures | src/energy_data_parser/energy_charts.py:102-108 | the errors come in the order they are raised: empty object, then no time field, then missing `production_type` |
| Normaliser.NormaliseFirstMismatch | src/energy_data_parser/energy_charts.py:86-108 | the first series of the wrong length is the one reported |
| Normaliser.NormaliseFrame | src/energy_data_parser/energy_charts.py:102-108 | the table's index is the chosen time index; its columns are distinct names, in order of first assignment, each as long as the index, each holding the series last assigned to it, and no other columns |
| Normaliser.UnixSecondsWin | src/energy_data_parser/energy_charts.py:75-81 | when `unix_seconds` is present, `time` has no effect |
| Normaliser.ForecastWinsOverData | src/energy_data_parser/energy_charts.py:87-91 | when `forecast_values` is present, `data` has no effect |
| Normaliser.DedupHead | src/energy_data_parser/energy_charts.py:87-91 | the first name assigned is the first column |
| Normaliser.LeadingColumn | src/energy_data_parser/energy_charts.py:87-91 | the first column is named by `production_type` under `forecast_values`, else `"frequency"` under `data` |
| Normaliser.CategoryColumns | src/energy_data_parser/energy_charts.py:93-99 | without a leading series, the columns are the `production_types` names followed by the `countries` names, in order of first assignment |
| Normaliser.GenerationExample | tests/energy_charts/test_energy_charts.py:21-28 | the mocked generation reply gives two rows and the columns `solar` = [100, 200] and `wind` = [300, 400] |
| Normaliser.TwoColumns | src/energy_data_parser/energy_charts.py:97-99 | two series with different names and the right length become two columns in order |
| Normaliser.InstalledPowerExample | tests/energy_charts/test_energy_charts.py:37-44 | the mocked installed-power reply gives one row from `time` and the columns `wind` = [0] and `solar` = [0.296] |
| Frames.DataFrame.constructor | src/energy_data_parser/energy_charts.py:107 | `pd.DataFrame(index=index)` has that index and no column |
| Frames.DataFrame.SetColumn | src/energy_data_parser/energy_charts.py:99 | `df[name] = values` overwrites in place or appends, or is refused for a wrong length, and keeps the table invariant and the index |
| Frames.DataFrame.AddEntries | src/energy_data_parser/energy_charts.py:97-99 | the inner loop ends in the state the whole run of assignments reaches |
| Frames.DataFrame.AddColumns | src/energy_data_parser/energy_charts.py:86-100 | the columns and the error after `add_columns` are those of the specification, and the index is unchanged |
| Frames.Stop | src/energy_data_parser/energy_charts.py:86-100 | a refused assignment in a prefix decides the outcome of the whole run |
| Frames.CategoryEntriesPrefix | src/energy_data_parser/energy_charts.py:93-99 | the entries of the first categories are a prefix of all entries |
| Frames.PrefixStep | src/energy_data_parser/energy_charts.py:93-99 | one more category extends the entries so far and stays a prefix |
| Frames.MakeDataFrame | src/energy_data_parser/energy_charts.py:102-108 | the table built in place, or the error raised, is exactly what `Normalise` gives for the object |
| EnergyCharts.GenerationRequest | src/energy_data_parser/energy_charts.py:56-64 | the request goes out exactly when both dates format, and the start date's error wins; it has path `/public_power` and exactly the keys `country`, `start` and `end`, holding the member's code and the two formatted dates |
| EnergyCharts.FetchOutcome | src/energy_data_parser/energy_charts.py:56-71 | a date that does not format is the error and nothing is queried; otherwise the outcome is that of the reply to the request; a table returned keeps the table invariant; the empty-object `ValueError` is never the outcome |
| EnergyCharts.ReplyOutcome | src/energy_data_parser/energy_charts.py:66-71 | an empty reply gives the empty table; a non-empty reply gives exactly what `make_dataframe` gives for it; a table returned keeps the table invariant; the empty-object error is never the outcome |
| EnergyCharts.NonEmptyReplyNormalised | src/energy_data_parser/energy_charts.py:61-71 | for any dates that format, a non-empty reply to the request gives exactly the table or error `make_dataframe` gives for that reply, so every property proved of `Normalise` holds for `fetch_generation` |
| EnergyCharts.EnergyChartsParser.constructor | src/energy_data_parser/energy_charts.py:25-28 | the time zone is `Europe/Brussels` and the country is `get_country(DEFAULT_COUNTRY)`, which is `GERMANY` |
| EnergyCharts.EnergyChartsParser.FetchGeneration | src/energy_data_parser/energy_charts.py:50-71 | the error or the table returned is `FetchOutcome`: a formatting error, an empty table for an empty reply, or the normalised reply |
| EnergyCharts.DefaultCountryIsGermany | src/energy_data_parser/energy_charts.py:10 | the default country name resolves to `GERMANY` |
| EnergyCharts.GenerationRequestRoundTrip | src/energy_data_parser/energy_charts.py:56-60 | for timestamps the request always goes out, and its parameters give back the one member with that code and both dates |
| EnergyCharts.BadDateNoRequest | src/energy_data_parser/energy_charts.py:56-59 | an unparseable start date is the outcome, whatever the transport would reply |
| EnergyCharts.EmptyReplyEmptyFrame | src/energy_data_parser/energy_charts.py:66-67 | for any dates that format, an empty reply to the request gives an empty table, while `make_dataframe` itself would raise `ValueError` on that reply |
| EnergyCharts.GenerationRequestExample | tests/energy_charts/test_energy_charts.py:78-85 | Germany from 2023-01-01 to 2023-12-31 queries `/public_power` with exactly `country=de`, `start=2023-01-01` and `end=2023-12-31` |
| EnergyCharts.FetchGenerationExample | tests/energy_charts/test_energy_charts.py:71-93 | with the mocked reply, `fetch_generation` gives the two-by-two table of `solar` and `wind` |

## Left out

- HTTP transport: `query_API` in base_parser.py is not part of this model. The parser's `queryApi` function stands in for it. That function maps a request to the decoded reply and yields an empty reply when the status is not 200.
- Logging and printing: `logger.info` in `fetch_generation` and the print in `query_API` are left out, because they do not affect any result.
- The asynchronous example script and the other example scripts are not part of this model.
- `fetch_installed_power`, `fetch_total_power`, `fetch_data` and `get_endpoint`: the test suite calls them, but the parser source does not define them.
- `get_country(123)`: a non-string input cannot be represented, because `GetCountry` takes a `string`.
- Dates.ParseIso: `pd.Timestamp(text)` accepts many more formats, times of day and time zones. The model accepts only `YYYY-MM-DD` naming a real date with a year from 1 to 9999.
- Dates.FormatDate: pandas' nanosecond range, from 1677 to 2262, is not modelled. A timestamp is any valid calendar date (the `requires`).
- Registry.Upper: only ASCII letters are upper-cased. Python's Unicode case mapping, for example `ß` to `SS`, is not modelled.
- Normaliser.TimeIndex: the index keeps epoch seconds and `time` strings as given. Conversion to UTC datetimes by `pd.to_datetime` and `pd.DatetimeIndex` is not modelled, and neither is their failure on unparseable `time` strings.
- Frames.DataFrame.SetColumn: when the index is empty, pandas replaces it with a range index on the first assignment of a non-empty list. The model reports a length mismatch instead.
- Columns.Step: the same refusal on an empty index; for example `{"time": [], "data": [v]}` gives pandas a one-row table, while the model fails with `LengthMismatch`.
- Columns.ApplyAllSucceedsIff: inherits that refusal, so a run on an empty index succeeds only when every list is empty.
- Normaliser.NormaliseSucceedsIff: inherits that refusal for replies whose time field is an empty list.
- Frames.DataFrame.AddColumns: inherits that refusal, so "the index is unchanged" does not cover pandas adopting a range index.
- Responses.Value: cell values are opaque numbers or nulls. Nothing computes on them, so integer and float conversion is not modelled.
- Responses.Response: the reply is a record of the keys the core reads. Category entries without `name` or `data`, and values of other JSON types (a scalar `data`, for one, which pandas broadcasts), are not representable here. `otherKeys` holds only keys outside the seven modelled ones (`Response.Keyed`). The parser's constructor requires every reply of its transport to satisfy it; a value that breaks it stands for no JSON object.
- EnergyCharts.EnergyChartsParser: the `time_zone` and `api_key` fields are stored but never read by the core.
