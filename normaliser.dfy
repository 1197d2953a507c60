/**
 * What `make_dataframe` computes, as a value: the time index chosen by
 * `create_time_index` and the columns `add_columns` assigns, in order.
 */
module Normaliser {
  import opened Wrappers
  import opened Errors
  import opened Responses
  import opened Columns

  /** A table as a value: its time index and its columns in order. */
  datatype Frame = Frame(index: seq<TimePoint>, columns: seq<Series>)

  function EpochIndex(seconds: seq<int>): (r: seq<TimePoint>)
    ensures |r| == |seconds|
    ensures forall i :: 0 <= i < |r| ==> r[i] == EpochSeconds(seconds[i])
  {
    if seconds == [] then [] else [EpochSeconds(seconds[0])] + EpochIndex(seconds[1..])
  }

  function TextIndex(texts: seq<string>): (r: seq<TimePoint>)
    ensures |r| == |texts|
    ensures forall i :: 0 <= i < |r| ==> r[i] == TimeText(texts[i])
  {
    if texts == [] then [] else [TimeText(texts[0])] + TextIndex(texts[1..])
  }

  /**
   * `create_time_index`: `unix_seconds` when present, else `time`, else a
   * ValueError. The index has one entry per element of the field chosen.
   */
  function TimeIndex(data: Response): (r: Result<seq<TimePoint>, Error>)
    ensures r.Success? <==> data.unixSeconds.Some? || data.time.Some?
    ensures r.Failure? ==> r.error == NoTimeInformation
    ensures data.unixSeconds.Some? ==>
      (r.Success? && |r.value| == |data.unixSeconds.value| &&
       forall i :: 0 <= i < |r.value| ==> r.value[i] == EpochSeconds(data.unixSeconds.value[i]))
    ensures data.unixSeconds.None? && data.time.Some? ==>
      (r.Success? && |r.value| == |data.time.value| &&
       forall i :: 0 <= i < |r.value| ==> r.value[i] == TimeText(data.time.value[i]))
  {
    if data.unixSeconds.Some? then Success(EpochIndex(data.unixSeconds.value))
    else if data.time.Some? then Success(TextIndex(data.time.value))
    else Failure(NoTimeInformation)
  }

  /**
   * The first assignment of `add_columns`: `forecast_values` under the name
   * in `production_type` (a KeyError when that key is missing), otherwise
   * `data` under the name "frequency", otherwise nothing.
   */
  function LeadingSeries(data: Response): (r: Result<seq<Series>, Error>)
    ensures r.Failure? <==> data.forecastValues.Some? && data.productionType.None?
    ensures r.Failure? ==> r.error == MissingProductionType
    ensures r.Success? ==> (|r.value| == 1 <==> data.forecastValues.Some? || data.data.Some?)
    ensures r.Success? ==> |r.value| <= 1
    ensures r.Success? && data.forecastValues.Some? ==> r.value[0].values == data.forecastValues.value
    ensures r.Success? && data.forecastValues.None? && data.data.Some? ==>
      r.value[0] == Series("frequency", data.data.value)
  {
    if data.forecastValues.Some? then
      if data.productionType.Some? then Success([Series(data.productionType.value, data.forecastValues.value)])
      else Failure(MissingProductionType)
    else if data.data.Some? then
      Success([Series("frequency", data.data.value)])
    else
      Success([])
  }

  /** The keys whose entries `add_columns` assigns, in the order it visits them. */
  const CategoryKeys: seq<string> := ["production_types", "countries"]

  /** `data[key]` for a category key, `None` when the key is absent. */
  function Category(data: Response, key: string): Option<seq<Series>> {
    if key == "production_types" then data.productionTypes
    else if key == "countries" then data.countries
    else None
  }

  /** The entries of a category, or none when the key is absent (`continue`). */
  function Entries(category: Option<seq<Series>>): seq<Series> {
    match category
      case None => []
      case Some(entries) => entries
  }

  /** The entries of the categories `keys`, visited in order, each in document order. */
  function CategoryEntries(data: Response, keys: seq<string>): seq<Series> {
    if keys == [] then []
    else CategoryEntries(data, keys[..|keys| - 1]) + Entries(Category(data, keys[|keys| - 1]))
  }

  /** Every assignment `add_columns` makes, in the order it makes them. */
  function Assignments(data: Response): (r: Result<seq<Series>, Error>)
    ensures r.Success? <==> LeadingSeries(data).Success?
    ensures r.Failure? ==> r.error == MissingProductionType
    ensures r.Success? ==>
      r.value == LeadingSeries(data).value + Entries(data.productionTypes) + Entries(data.countries)
  {
    CategoryOrder(data);
    var lead :- LeadingSeries(data);
    Success(lead + CategoryEntries(data, CategoryKeys))
  }

  /** The category entries are the `production_types` entries followed by the `countries` entries. */
  lemma CategoryOrder(data: Response)
    ensures CategoryEntries(data, CategoryKeys) == Entries(data.productionTypes) + Entries(data.countries)
  {
    assert CategoryKeys[..1] == ["production_types"];
    assert ["production_types"][..0] == [];
    assert CategoryEntries(data, ["production_types"]) == [] + Entries(data.productionTypes);
  }

  /** What `add_columns` leaves in a table with `rows` rows, and the error it raises, if any. */
  function AddColumnsOutcome(cols: seq<Series>, rows: nat, data: Response): (r: (seq<Series>, Option<Error>))
    ensures Shaped(cols, rows) ==> Shaped(r.0, rows)
    ensures r.1.Some? ==> r.1.value == MissingProductionType || r.1.value.LengthMismatch?
    ensures r.1 == Some(MissingProductionType) ==> r.0 == cols
  {
    match Assignments(data)
      case Failure(e) => (cols, Some(e))
      case Success(asg) => ApplyAllKeepsShape(cols, rows, asg); ApplyAll(cols, rows, asg)
  }

  /** `make_dataframe`: a ValueError on an empty object, else the index and then the columns. */
  function Normalise(data: Response): (r: Result<Frame, Error>)
    ensures data.IsEmpty() ==> r == Failure(EmptyData)
    ensures r.Success? ==> TimeIndex(data) == Success(r.value.index)
    ensures r.Success? ==> Shaped(r.value.columns, |r.value.index|)
    ensures r.Failure? ==>
      || r.error == EmptyData || r.error == NoTimeInformation || r.error == MissingProductionType
      || r.error.LengthMismatch?
  {
    if data.IsEmpty() then
      Failure(EmptyData)
    else
      match TimeIndex(data)
        case Failure(e) => Failure(e)
        case Success(index) =>
          var outcome := AddColumnsOutcome([], |index|, data);
          if outcome.1.Some? then Failure(outcome.1.value) else Success(Frame(index, outcome.0))
  }

  predicate AllOfLength(asg: seq<Series>, rows: nat) {
    forall i :: 0 <= i < |asg| ==> |asg[i].values| == rows
  }

  /** The normaliser refuses the empty object, which the fetch operations instead turn into an empty table. */
  lemma NormaliseEmpty()
    ensures Normalise(EmptyResponse) == Failure(EmptyData)
  {
  }

  /**
   * Normalising succeeds exactly when the object is not empty, has a time
   * index, names its forecast series, and every series assigned is as long as
   * the index.
   */
  lemma NormaliseSucceedsIff(data: Response)
    ensures Normalise(data).Success? <==>
      && !data.IsEmpty()
      && TimeIndex(data).Success?
      && Assignments(data).Success?
      && AllOfLength(Assignments(data).value, |TimeIndex(data).value|)
  {
    if !data.IsEmpty() && TimeIndex(data).Success? && Assignments(data).Success? {
      ApplyAllSucceedsIff([], |TimeIndex(data).value|, Assignments(data).value);
    }
  }

  /**
   * The errors, in the order they are raised: empty object, no time index,
   * missing `production_type`, and then the first series of the wrong length.
   */
  lemma NormaliseFailures(data: Response)
    ensures data.IsEmpty() ==> Normalise(data) == Failure(EmptyData)
    ensures !data.IsEmpty() && TimeIndex(data).Failure? ==> Normalise(data) == Failure(NoTimeInformation)
    ensures !data.IsEmpty() && TimeIndex(data).Success? && data.forecastValues.Some? && data.productionType.None?
        ==> Normalise(data) == Failure(MissingProductionType)
  {
  }

  /** The first series of the wrong length is the one reported. */
  lemma NormaliseFirstMismatch(data: Response, k: nat)
    requires !data.IsEmpty() && TimeIndex(data).Success? && Assignments(data).Success?
    requires k < |Assignments(data).value|
    requires |Assignments(data).value[k].values| != |TimeIndex(data).value|
    requires AllOfLength(Assignments(data).value[..k], |TimeIndex(data).value|)
    ensures Normalise(data) == Failure(LengthMismatch(Assignments(data).value[k].name,
                                                      |Assignments(data).value[k].values|,
                                                      |TimeIndex(data).value|))
  {
    var asg := Assignments(data).value;
    forall i | 0 <= i < k ensures |asg[i].values| == |TimeIndex(data).value| {
      assert asg[..k][i] == asg[i];
    }
    ApplyAllFailsAt([], |TimeIndex(data).value|, asg, k);
  }

  /**
   * A normalised table: the index is the one `create_time_index` chose, every
   * column is as long as the index and has its own name, the names are the
   * assigned names in order of first assignment (a name assigned again keeps
   * its position), and each name holds the series last assigned to it.
   */
  lemma NormaliseFrame(data: Response)
    requires Normalise(data).Success?
    ensures Normalise(data).value.index == TimeIndex(data).value
    ensures Assignments(data).Success?
    ensures Shaped(Normalise(data).value.columns, |Normalise(data).value.index|)
    ensures Names(Normalise(data).value.columns) == Dedup(Names(Assignments(data).value))
    ensures forall name :: Find(Normalise(data).value.columns, name) == LastValue(Assignments(data).value, name)
  {
    var index := TimeIndex(data).value;
    var asg := Assignments(data).value;
    ApplyAllShaped([], |index|, asg);
    ApplyAllNames([], |index|, asg);
    assert Names([]) + Names(asg) == Names(asg);
    forall name ensures Find(Normalise(data).value.columns, name) == LastValue(asg, name) {
      ApplyAllFind([], |index|, asg, name);
    }
  }

  /** When `unix_seconds` is present, `time` is ignored. */
  lemma UnixSecondsWin(data: Response)
    requires data.unixSeconds.Some?
    ensures Normalise(data) == Normalise(data.(time := None))
  {
    CategoryOrder(data);
    CategoryOrder(data.(time := None));
    assert Assignments(data) == Assignments(data.(time := None));
  }

  /** When `forecast_values` is present, `data` is ignored. */
  lemma ForecastWinsOverData(data: Response)
    requires data.forecastValues.Some?
    ensures Normalise(data) == Normalise(data.(data := None))
  {
    CategoryOrder(data);
    CategoryOrder(data.(data := None));
    assert Assignments(data) == Assignments(data.(data := None));
  }

  /** The first element of the first-occurrence order is the first element. */
  lemma {:induction false} DedupHead(s: seq<string>)
    requires s != []
    ensures Dedup(s) != [] && Dedup(s)[0] == s[0]
  {
    if |s| > 1 {
      var p := s[..|s| - 1];
      DedupHead(p);
      assert p[0] == s[0];
    }
  }

  /**
   * The leading column: named by `production_type` when `forecast_values`
   * is present, else "frequency" when `data` is; the category entries follow.
   */
  lemma LeadingColumn(data: Response)
    requires Normalise(data).Success?
    requires data.forecastValues.Some? || data.data.Some?
    ensures Names(Normalise(data).value.columns) != []
    ensures Names(Normalise(data).value.columns)[0]
         == if data.forecastValues.Some? then data.productionType.value else "frequency"
  {
    NormaliseFrame(data);
    var asg := Assignments(data).value;
    DedupHead(Names(asg));
  }

  /** Without a leading series the columns come from the category entries alone, `production_types` first. */
  lemma CategoryColumns(data: Response)
    requires Normalise(data).Success?
    requires data.forecastValues.None? && data.data.None?
    ensures Names(Normalise(data).value.columns)
         == Dedup(Names(Entries(data.productionTypes) + Entries(data.countries)))
  {
    NormaliseFrame(data);
    var entries := Entries(data.productionTypes) + Entries(data.countries);
    assert Assignments(data).value == entries by {
      CategoryOrder(data);
      assert LeadingSeries(data) == Success([]);
      assert [] + entries == entries;
    }
  }

  /** The generation response of the test suite: two rows, columns `solar` and `wind`. */
  lemma GenerationExample(data: Response)
    requires data == Response(Some([1672531200, 1672534800]), None, None, None, None,
                              Some([Series("solar", [Number(100.0), Number(200.0)]),
                                    Series("wind", [Number(300.0), Number(400.0)])]),
                              None, {})
    ensures Normalise(data) == Success(Frame([EpochSeconds(1672531200), EpochSeconds(1672534800)],
                                             [Series("solar", [Number(100.0), Number(200.0)]),
                                              Series("wind", [Number(300.0), Number(400.0)])]))
  {
    var solar := Series("solar", [Number(100.0), Number(200.0)]);
    var wind := Series("wind", [Number(300.0), Number(400.0)]);
    TwoColumns(solar, wind, 2);
    assert LeadingSeries(data) == Success([]);
    CategoryOrder(data);
    assert [] + ([solar, wind] + []) == [solar, wind];
    assert Assignments(data) == Success([solar, wind]);
    var index := EpochIndex([1672531200, 1672534800]);
    assert index[0] == EpochSeconds(1672531200) && index[1] == EpochSeconds(1672534800);
    assert index == [EpochSeconds(1672531200), EpochSeconds(1672534800)];
  }

  /** Two series of the right length with different names become two columns, in order. */
  lemma TwoColumns(a: Series, b: Series, rows: nat)
    requires a.name != b.name && |a.values| == rows && |b.values| == rows
    ensures ApplyAll([], rows, [a, b]) == ([a, b], None)
  {
    assert [a, b][..1] == [a];
    assert [a][..0] == [];
    assert ApplyAll([], rows, [a]) == ([a], None);
    assert [a][1..] == [];
    assert Put([a], b) == [a] + Put([], b) == [a, b];
    assert ApplyAll([], rows, [a, b]) == Step([a], rows, b);
  }

  /** The installed-power response of the test suite: one row from `time`, columns `wind` and `solar`. */
  lemma InstalledPowerExample(data: Response)
    requires data == Response(None, Some(["2002"]), None, None, None,
                              Some([Series("wind", [Number(0.0)]), Series("solar", [Number(0.296)])]),
                              None, {})
    ensures Normalise(data) == Success(Frame([TimeText("2002")],
                                             [Series("wind", [Number(0.0)]), Series("solar", [Number(0.296)])]))
  {
    var wind := Series("wind", [Number(0.0)]);
    var solar := Series("solar", [Number(0.296)]);
    TwoColumns(wind, solar, 1);
    assert LeadingSeries(data) == Success([]);
    CategoryOrder(data);
    assert [] + ([wind, solar] + []) == [wind, solar];
    assert Assignments(data) == Success([wind, solar]);
    var index := TextIndex(["2002"]);
    assert index[0] == TimeText("2002");
    assert index == [TimeText("2002")];
  }
}
