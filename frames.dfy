/**
 * The table `make_dataframe` builds and `add_columns` fills in place.
 */
module Frames {
  import opened Wrappers
  import opened Errors
  import opened Responses
  import opened Columns
  import opened Normaliser

  /** A `pd.DataFrame` as far as the core uses one: a time index and named columns, in order. */
  class DataFrame {
    var index: seq<TimePoint>
    var columns: seq<Series>

    /** Column names are distinct and every column is as long as the index. */
    ghost predicate Valid()
      reads this
    {
      Shaped(columns, |index|)
    }

    /** `pd.DataFrame(index=index)`: the rows, and no column yet. */
    constructor (index: seq<TimePoint>)
      ensures Valid() && this.index == index && columns == []
    {
      this.index := index;
      columns := [];
    }

    /**
     * `df[s.name] = s.values`: overwrite the column of that name where it
     * stands, or append it; a series whose length is not the row count is
     * refused and nothing changes.
     */
    method SetColumn(s: Series) returns (err: Option<Error>)
      requires Valid()
      modifies this
      ensures Valid() && index == old(index)
      ensures (columns, err) == Step(old(columns), |index|, s)
    {
      if |s.values| != |index| {
        return Some(LengthMismatch(s.name, |s.values|, |index|));
      }
      StepShaped(columns, |index|, s);
      columns := Put(columns, s);
      err := None;
    }

    /**
     * The inner loop of `add_columns`: assign each entry of one category in
     * order, stopping at the first refused one. Continuing a run of
     * assignments that has gone through so far, it ends where the whole
     * run would.
     */
    method AddEntries(entries: seq<Series>, ghost start: seq<Series>, ghost done: seq<Series>) returns (err: Option<Error>)
      requires Valid() && (columns, None) == ApplyAll(start, |index|, done)
      modifies this
      ensures Valid() && index == old(index)
      ensures (columns, err) == ApplyAll(start, |index|, done + entries)
    {
      ghost var rows := |index|;
      assert done + entries[..0] == done;
      for j := 0 to |entries|
        invariant Valid() && index == old(index) && rows == |index|
        invariant (columns, None) == ApplyAll(start, rows, done + entries[..j])
      {
        err := SetColumn(entries[j]);
        ApplyAllSnoc(start, rows, done + entries[..j], entries[j]);
        assert done + entries[..j + 1] == (done + entries[..j]) + [entries[j]];
        if err.Some? {
          Stop(start, rows, done + entries[..j + 1], done + entries);
          return;
        }
      }
      assert entries[..|entries|] == entries;
      err := None;
    }

    /**
     * `add_columns`: the leading series, then each category's entries in
     * order, assigned one by one; the first refused assignment ends it.
     */
    method AddColumns(data: Response) returns (err: Option<Error>)
      requires Valid()
      modifies this
      ensures Valid() && index == old(index)
      ensures (columns, err) == AddColumnsOutcome(old(columns), |index|, data)
    {
      ghost var start := columns;
      ghost var rows := |index|;
      if data.forecastValues.Some? && data.productionType.None? {
        return Some(MissingProductionType);
      }
      ghost var all := Assignments(data).value;
      ghost var lead := LeadingSeries(data).value;
      if data.forecastValues.Some? {
        err := SetColumn(Series(data.productionType.value, data.forecastValues.value));
      } else if data.data.Some? {
        err := SetColumn(Series("frequency", data.data.value));
      } else {
        err := None;
      }
      assert (columns, err) == ApplyAll(start, rows, lead) by {
        if lead != [] {
          assert lead[..0] == [];
        }
      }
      if err.Some? {
        Stop(start, rows, lead, all);
        return;
      }
      ghost var done := lead;
      assert done == done + CategoryEntries(data, CategoryKeys[..0]);
      var keys := CategoryKeys;
      for k := 0 to |keys|
        invariant Valid() && index == old(index) && rows == |index|
        invariant done == lead + CategoryEntries(data, keys[..k])
        invariant done <= all
        invariant (columns, None) == ApplyAll(start, rows, done)
      {
        var category := Category(data, keys[k]);
        if category.Some? {
          err := AddEntries(category.value, start, done);
          PrefixStep(data, keys, k, lead);
          if err.Some? {
            Stop(start, rows, done + category.value, all);
            return;
          }
          done := done + category.value;
        } else {
          PrefixStep(data, keys, k, lead);
        }
      }
      assert keys[..|keys|] == keys;
      err := None;
    }
  }

  /** One more category extends the assignments made so far, and stays a prefix of all of them. */
  lemma PrefixStep(data: Response, keys: seq<string>, k: nat, lead: seq<Series>)
    requires k < |keys|
    ensures lead + CategoryEntries(data, keys[..k + 1])
      == (lead + CategoryEntries(data, keys[..k])) + Entries(Category(data, keys[k]))
    ensures lead + CategoryEntries(data, keys[..k + 1]) <= lead + CategoryEntries(data, keys)
  {
    assert keys[..k + 1][..k] == keys[..k];
    CategoryEntriesPrefix(data, keys, k + 1);
  }

  /** A refused assignment in a prefix of the run decides the outcome of the whole run. */
  lemma Stop(cols: seq<Series>, rows: nat, done: seq<Series>, all: seq<Series>)
    requires done <= all
    requires ApplyAll(cols, rows, done).1.Some?
    ensures ApplyAll(cols, rows, all) == ApplyAll(cols, rows, done)
  {
    assert all == done + all[|done|..];
    ApplyAllStops(cols, rows, done, all[|done|..]);
  }

  /** The entries of the first `k` categories followed by those of category `k` are a prefix of all of them. */
  lemma {:induction false} CategoryEntriesPrefix(data: Response, keys: seq<string>, k: nat)
    requires k <= |keys|
    ensures CategoryEntries(data, keys[..k]) <= CategoryEntries(data, keys)
  {
    if k < |keys| {
      var p := keys[..|keys| - 1];
      CategoryEntriesPrefix(data, p, k);
      assert p[..k] == keys[..k];
    } else {
      assert keys[..k] == keys;
    }
  }

  /**
   * `make_dataframe`: a ValueError for an empty object, the error of
   * `create_time_index` or of `add_columns`, or the filled table. The table
   * it returns is the normalised value of the object.
   */
  method MakeDataFrame(data: Response) returns (r: Result<DataFrame, Error>)
    ensures r.Failure? ==> Normalise(data) == Failure(r.error)
    ensures r.Success? ==> (fresh(r.value) && r.value.Valid() &&
      Normalise(data) == Success(Frame(r.value.index, r.value.columns)))
  {
    if data.IsEmpty() {
      return Failure(EmptyData);
    }
    var index := TimeIndex(data);
    if index.Failure? {
      return Failure(index.error);
    }
    var df := new DataFrame(index.value);
    var err := df.AddColumns(data);
    if err.Some? {
      return Failure(err.value);
    }
    return Success(df);
  }
}
