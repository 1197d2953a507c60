/**
 * The column list of a table, and what `df[name] = values` does to it:
 * overwrite the column of that name in place, or append a new one.
 */
module Columns {
  import opened Wrappers
  import opened Errors
  import opened Responses

  function Names(cols: seq<Series>): (r: seq<string>)
    ensures |r| == |cols|
    ensures forall i :: 0 <= i < |cols| ==> r[i] == cols[i].name
  {
    if cols == [] then [] else [cols[0].name] + Names(cols[1..])
  }

  predicate Distinct(s: seq<string>) {
    forall i, j :: 0 <= i < j < |s| ==> s[i] != s[j]
  }

  /** The table invariant: distinct column names, every column as long as the index. */
  predicate Shaped(cols: seq<Series>, rows: nat) {
    && Distinct(Names(cols))
    && forall i :: 0 <= i < |cols| ==> |cols[i].values| == rows
  }

  /** `df[name]`: the values of the column called `name`, if there is one. */
  function Find(cols: seq<Series>, name: string): (r: Option<seq<Value>>)
    ensures r.Some? <==> name in Names(cols)
  {
    if cols == [] then None
    else if cols[0].name == name then Some(cols[0].values)
    else
      assert Names(cols) == [cols[0].name] + Names(cols[1..]);
      Find(cols[1..], name)
  }

  /**
   * `df[s.name] = s.values` on a table whose lengths already agree: the column
   * of that name gets the new values where it stands, or a new column is
   * appended at the end.
   */
  function Put(cols: seq<Series>, s: Series): seq<Series> {
    if cols == [] then
      [s]
    else if cols[0].name == s.name then
      [s] + cols[1..]
    else
      [cols[0]] + Put(cols[1..], s)
  }

  /** An existing name keeps its position; a new one is appended. */
  lemma {:induction false} PutNames(cols: seq<Series>, s: Series)
    ensures Names(Put(cols, s)) == if s.name in Names(cols) then Names(cols) else Names(cols) + [s.name]
  {
    if cols != [] && cols[0].name != s.name {
      PutNames(cols[1..], s);
      assert Names(cols) == [cols[0].name] + Names(cols[1..]);
      assert Names(Put(cols, s)) == [cols[0].name] + Names(Put(cols[1..], s));
    }
  }

  /** The assigned name reads back the new values; every other name reads as before. */
  lemma {:induction false} PutFind(cols: seq<Series>, s: Series, name: string)
    ensures Find(Put(cols, s), name) == if name == s.name then Some(s.values) else Find(cols, name)
  {
    if cols != [] && cols[0].name != s.name {
      PutFind(cols[1..], s, name);
    }
  }

  /** Every column after an assignment is the new series or the old column at that position. */
  lemma {:induction false} PutColumns(cols: seq<Series>, s: Series)
    ensures |Put(cols, s)| >= |cols|
    ensures forall i :: 0 <= i < |Put(cols, s)| ==> Put(cols, s)[i] == s || (i < |cols| && Put(cols, s)[i] == cols[i])
  {
    if cols != [] && cols[0].name != s.name {
      PutColumns(cols[1..], s);
    }
  }

  /** One assignment: a series whose length is not the row count is refused, as pandas refuses it. */
  function Step(cols: seq<Series>, rows: nat, s: Series): (r: (seq<Series>, Option<Error>))
    ensures r.1.None? <==> |s.values| == rows
    ensures r.1.Some? ==> r.0 == cols && r.1.value == LengthMismatch(s.name, |s.values|, rows)
  {
    if |s.values| == rows then (Put(cols, s), None)
    else (cols, Some(LengthMismatch(s.name, |s.values|, rows)))
  }

  /**
   * A run of assignments in order, stopping at the first one refused: the
   * columns reached, and the error if there was one.
   */
  function ApplyAll(cols: seq<Series>, rows: nat, asg: seq<Series>): (r: (seq<Series>, Option<Error>))
    ensures r.1.Some? ==> r.1.value.LengthMismatch? && r.1.value.length != rows && r.1.value.rows == rows
  {
    if asg == [] then
      (cols, None)
    else
      var prev := ApplyAll(cols, rows, asg[..|asg| - 1]);
      if prev.1.Some? then prev else Step(prev.0, rows, asg[|asg| - 1])
  }

  /** The values the last assignment to `name` in `asg` gives, if any assigns it. */
  function LastValue(asg: seq<Series>, name: string): (r: Option<seq<Value>>)
    ensures r.Some? <==> name in Names(asg)
  {
    if asg == [] then None
    else if asg[|asg| - 1].name == name then Some(asg[|asg| - 1].values)
    else
      assert Names(asg) == Names(asg[..|asg| - 1]) + [asg[|asg| - 1].name];
      LastValue(asg[..|asg| - 1], name)
  }

  /** The elements of `s` in order of first occurrence, each once. */
  function Dedup(s: seq<string>): seq<string> {
    if s == [] then []
    else
      var p := s[..|s| - 1];
      if s[|s| - 1] in p then Dedup(p) else Dedup(p) + [s[|s| - 1]]
  }

  lemma {:induction false} DedupElements(s: seq<string>)
    ensures forall x :: x in Dedup(s) <==> x in s
    ensures Distinct(Dedup(s))
  {
    if s != [] {
      var p := s[..|s| - 1];
      DedupElements(p);
      assert s == p + [s[|s| - 1]];
    }
  }

  lemma NamesSnoc(a: seq<Series>, x: Series)
    ensures Names(a + [x]) == Names(a) + [x.name]
  {
  }

  /** The run succeeds exactly when every series is as long as the index. */
  lemma {:induction false} ApplyAllSucceedsIff(cols: seq<Series>, rows: nat, asg: seq<Series>)
    ensures ApplyAll(cols, rows, asg).1.None? <==> forall i :: 0 <= i < |asg| ==> |asg[i].values| == rows
  {
    if asg != [] {
      ApplyAllSucceedsIff(cols, rows, asg[..|asg| - 1]);
    }
  }

  /**
   * A run refused at position `k` (the first series of the wrong length)
   * reports that series, and the columns are those its predecessors produced.
   */
  lemma {:induction false} ApplyAllFailsAt(cols: seq<Series>, rows: nat, asg: seq<Series>, k: nat)
    requires k < |asg| && |asg[k].values| != rows
    requires forall i :: 0 <= i < k ==> |asg[i].values| == rows
    ensures ApplyAll(cols, rows, asg)
         == (ApplyAll(cols, rows, asg[..k]).0, Some(LengthMismatch(asg[k].name, |asg[k].values|, rows)))
  {
    var p := asg[..|asg| - 1];
    if k == |asg| - 1 {
      ApplyAllSucceedsIff(cols, rows, p);
    } else {
      ApplyAllFailsAt(cols, rows, p, k);
      assert p[..k] == asg[..k];
    }
  }

  /** A run keeps the table invariant, whether or not it stops early. */
  lemma {:induction false} ApplyAllShaped(cols: seq<Series>, rows: nat, asg: seq<Series>)
    requires Shaped(cols, rows)
    ensures Shaped(ApplyAll(cols, rows, asg).0, rows)
  {
    if asg != [] {
      var p := asg[..|asg| - 1];
      ApplyAllShaped(cols, rows, p);
      var (c, e) := ApplyAll(cols, rows, p);
      if e.None? {
        StepShaped(c, rows, asg[|asg| - 1]);
      }
    }
  }

  lemma ApplyAllKeepsShape(cols: seq<Series>, rows: nat, asg: seq<Series>)
    ensures Shaped(cols, rows) ==> Shaped(ApplyAll(cols, rows, asg).0, rows)
  {
    if Shaped(cols, rows) {
      ApplyAllShaped(cols, rows, asg);
    }
  }

  lemma StepShaped(cols: seq<Series>, rows: nat, s: Series)
    requires Shaped(cols, rows)
    ensures Shaped(Step(cols, rows, s).0, rows)
  {
    if |s.values| == rows {
      var r := Put(cols, s);
      PutNames(cols, s);
      PutColumns(cols, s);
      forall i, j | 0 <= i < j < |r| ensures Names(r)[i] != Names(r)[j] {
        if s.name !in Names(cols) {
          assert j < |cols| || Names(r)[j] == s.name;
        }
      }
    }
  }

  /**
   * After a successful run the column names are the old names followed by
   * the assigned ones, each in the position of its first occurrence: a name
   * assigned again keeps its place, and no other column appears.
   */
  lemma ApplyAllNames(cols: seq<Series>, rows: nat, asg: seq<Series>)
    requires Distinct(Names(cols))
    requires ApplyAll(cols, rows, asg).1.None?
    ensures Names(ApplyAll(cols, rows, asg).0) == Dedup(Names(cols) + Names(asg))
  {
    DedupOfDistinct(Names(cols));
    ApplyAllDedup(cols, rows, asg);
  }

  lemma {:induction false} ApplyAllDedup(cols: seq<Series>, rows: nat, asg: seq<Series>)
    requires Dedup(Names(cols)) == Names(cols)
    requires ApplyAll(cols, rows, asg).1.None?
    ensures Names(ApplyAll(cols, rows, asg).0) == Dedup(Names(cols) + Names(asg))
  {
    if asg == [] {
      assert Names(cols) + Names(asg) == Names(cols);
    } else {
      var p, x := asg[..|asg| - 1], asg[|asg| - 1];
      assert asg == p + [x];
      assert ApplyAll(cols, rows, p).1.None?;
      ApplyAllDedup(cols, rows, p);
      ApplyAllSnoc(cols, rows, p, x);
      DedupStep(Names(cols), p, x, ApplyAll(cols, rows, p).0);
    }
  }

  /** One more assignment adds its name to the first-occurrence list of names. */
  lemma DedupStep(names: seq<string>, p: seq<Series>, x: Series, c: seq<Series>)
    requires Names(c) == Dedup(names + Names(p))
    ensures Names(Put(c, x)) == Dedup(names + Names(p + [x]))
  {
    PutDedup(names + Names(p), c, x);
    NamesSnoc(p, x);
    ConcatSnoc(names, Names(p), x.name);
  }

  lemma ConcatSnoc(a: seq<string>, b: seq<string>, x: string)
    ensures a + (b + [x]) == (a + b) + [x]
  {
  }

  lemma PutDedup(before: seq<string>, c: seq<Series>, x: Series)
    requires Names(c) == Dedup(before)
    ensures Names(Put(c, x)) == Dedup(before + [x.name])
  {
    PutNames(c, x);
    DedupHas(before, x.name);
    DedupSnoc(before, x.name);
  }

  lemma DedupSnoc(s: seq<string>, x: string)
    ensures Dedup(s + [x]) == if x in s then Dedup(s) else Dedup(s) + [x]
  {
    assert (s + [x])[..|s|] == s;
  }

  lemma {:induction false} DedupHas(s: seq<string>, x: string)
    ensures x in Dedup(s) <==> x in s
  {
    if s != [] {
      var p := s[..|s| - 1];
      DedupHas(p, x);
      assert s == p + [s[|s| - 1]];
    }
  }

  lemma {:induction false} DedupOfDistinct(s: seq<string>)
    requires Distinct(s)
    ensures Dedup(s) == s
  {
    if s != [] {
      var p := s[..|s| - 1];
      DedupOfDistinct(p);
      assert s == p + [s[|s| - 1]];
    }
  }

  /**
   * After a successful run every name holds the series last assigned to it,
   * and a name never assigned keeps its old values.
   */
  lemma {:induction false} ApplyAllFind(cols: seq<Series>, rows: nat, asg: seq<Series>, name: string)
    requires ApplyAll(cols, rows, asg).1.None?
    ensures Find(ApplyAll(cols, rows, asg).0, name)
         == if name in Names(asg) then LastValue(asg, name) else Find(cols, name)
  {
    if asg != [] {
      var p := asg[..|asg| - 1];
      ApplyAllFind(cols, rows, p, name);
      PutFind(ApplyAll(cols, rows, p).0, asg[|asg| - 1], name);
      assert asg == p + [asg[|asg| - 1]];
      NamesSnoc(p, asg[|asg| - 1]);
    }
  }

  /** Assignments already made are not undone by the ones that follow a refusal. */
  lemma {:induction false} ApplyAllStops(cols: seq<Series>, rows: nat, done: seq<Series>, rest: seq<Series>)
    requires ApplyAll(cols, rows, done).1.Some?
    ensures ApplyAll(cols, rows, done + rest) == ApplyAll(cols, rows, done)
  {
    if rest != [] {
      var p := rest[..|rest| - 1];
      ApplyAllStops(cols, rows, done, p);
      var all := done + rest;
      assert all[..|all| - 1] == done + p;
      assert ApplyAll(cols, rows, all) == ApplyAll(cols, rows, done + p);
    } else {
      assert done + rest == done;
    }
  }

  /** Extending a run that has not failed by one more assignment. */
  lemma ApplyAllSnoc(cols: seq<Series>, rows: nat, done: seq<Series>, s: Series)
    requires ApplyAll(cols, rows, done).1.None?
    ensures ApplyAll(cols, rows, done + [s]) == Step(ApplyAll(cols, rows, done).0, rows, s)
  {
    assert (done + [s])[..|done|] == done;
  }
}
