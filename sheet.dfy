/** Reading the alert sheet (`get_google_alert_dataframe`) and building the
    list of symbols to fetch (`drop_duplicates` in `scan`). */
module Sheet {
  import opened AlertTypes

  /** The sheet once loaded: row 0 as the header, the rest as data rows. */
  datatype Frame = Frame(header: Row, data: seq<Row>)

  /** The `.str.upper()` of the symbol column: one row per row, every symbol
      upper-case. */
  function UpperSymbols(rows: seq<Row>): (r: seq<Row>)
    ensures |r| == |rows|
    ensures forall x :: x in r ==> IsUpper(x.symbol)
  {
    seq(|rows|, i requires 0 <= i < |rows| => rows[i].(symbol := Upper(rows[i].symbol)))
  }

  /** Loads the raw sheet: nothing for a sheet without rows; otherwise row 0
      is the header and every later row is a data row, unchanged except for
      its upper-cased symbol. A header-only sheet loads as an empty frame. */
  function Load(rows: seq<Row>): (f: Option<Frame>)
    ensures f.None? <==> |rows| == 0
    ensures f.Some? ==> f.value.header == rows[0] && |f.value.data| == |rows| - 1
    ensures f.Some? ==> forall i :: 0 <= i < |f.value.data| ==>
              f.value.data[i].operator == rows[i + 1].operator &&
              f.value.data[i].value == rows[i + 1].value &&
              f.value.data[i].symbol == Upper(rows[i + 1].symbol)
    ensures f.Some? ==> forall r :: r in f.value.data ==> IsUpper(r.symbol)
  {
    if |rows| == 0 then None else Some(Frame(rows[0], UpperSymbols(rows[1..])))
  }

  /** Rows whose symbols are already upper-case load back unchanged; this is
      what a committed sheet looks like on the next run. */
  lemma {:induction false} LoadUpperRows(rows: seq<Row>)
    requires forall r :: r in rows ==> IsUpper(r.symbol)
    ensures Load([Header] + rows) == Some(Frame(Header, rows))
  {
    var s := [Header] + rows;
    assert s[1..] == rows;
    forall i | 0 <= i < |rows|
      ensures UpperSymbols(rows)[i] == rows[i]
    {
      assert rows[i] in rows;
      UpperFixesUpper(rows[i].symbol);
    }
    assert UpperSymbols(rows) == rows;
  }

  /** The symbol column, in row order and with repetitions. */
  function Symbols(rows: seq<Row>): (s: seq<string>)
    ensures |s| == |rows|
    ensures forall i :: 0 <= i < |rows| ==> s[i] == rows[i].symbol
  {
    if rows == [] then [] else [rows[0].symbol] + Symbols(rows[1..])
  }

  predicate NoDuplicates<T(==)>(s: seq<T>)
  {
    forall i, j :: 0 <= i < j < |s| ==> s[i] != s[j]
  }

  /** Position of the first occurrence of `x` in `s`. */
  function FirstIndex<T(==)>(s: seq<T>, x: T): (k: nat)
    requires x in s
    ensures k < |s| && s[k] == x
  {
    if s[0] == x then 0 else 1 + FirstIndex(s[1..], x)
  }

  lemma {:induction false} FirstIndexExtend<T>(s: seq<T>, y: T, x: T)
    requires x in s
    ensures x in s + [y] && FirstIndex(s + [y], x) == FirstIndex(s, x)
  {
    assert (s + [y])[0] == s[0];
    if s[0] != x {
      assert (s + [y])[1..] == s[1..] + [y];
      FirstIndexExtend(s[1..], y, x);
    }
  }

  /** Drops repeated symbols, keeping each at its first occurrence: no
      duplicates, the same symbols as the input, taken from it in order, and
      ordered as their first occurrences are. */
  function Dedup(s: seq<string>): (r: seq<string>)
    ensures NoDuplicates(r)
    ensures forall x :: x in r <==> x in s
    ensures IsSubsequence(r, s)
    ensures forall i, j :: 0 <= i < j < |r| ==> FirstIndex(s, r[i]) < FirstIndex(s, r[j])
    decreases |s|
  {
    if s == [] then []
    else
      var init, last := s[..|s| - 1], s[|s| - 1];
      var d := Dedup(init);
      var r := if last in d then d else d + [last];
      assert s == init + [last];
      DedupStep(init, last, d, r);
      r
  }

  /** One step of Dedup: appending `last` to the input keeps the four
      properties, whether `last` is new or a repeat. */
  lemma DedupStep(init: seq<string>, last: string, d: seq<string>, r: seq<string>)
    requires NoDuplicates(d)
    requires forall x :: x in d <==> x in init
    requires IsSubsequence(d, init)
    requires forall i, j :: 0 <= i < j < |d| ==> FirstIndex(init, d[i]) < FirstIndex(init, d[j])
    requires r == if last in d then d else d + [last]
    ensures NoDuplicates(r)
    ensures forall x :: x in r <==> x in init + [last]
    ensures IsSubsequence(r, init + [last])
    ensures forall i, j :: 0 <= i < j < |r| ==> FirstIndex(init + [last], r[i]) < FirstIndex(init + [last], r[j])
  {
    DedupStepSubsequence(init, last, d, r);
    DedupStepOrder(init, last, d, r);
  }

  lemma DedupStepSubsequence(init: seq<string>, last: string, d: seq<string>, r: seq<string>)
    requires IsSubsequence(d, init)
    requires r == if last in d then d else d + [last]
    ensures IsSubsequence(r, init + [last])
  {
  }

  lemma DedupStepOrder(init: seq<string>, last: string, d: seq<string>, r: seq<string>)
    requires forall x :: x in d <==> x in init
    requires forall i, j :: 0 <= i < j < |d| ==> FirstIndex(init, d[i]) < FirstIndex(init, d[j])
    requires r == if last in d then d else d + [last]
    ensures forall x :: x in r <==> x in init + [last]
    ensures forall i, j :: 0 <= i < j < |r| ==> FirstIndex(init + [last], r[i]) < FirstIndex(init + [last], r[j])
  {
    var s := init + [last];
    forall x | x in d
      ensures FirstIndex(s, x) == FirstIndex(init, x)
    {
      FirstIndexExtend(init, last, x);
    }
    if last !in d {
      assert FirstIndex(s, last) == |s| - 1;
      forall i, j | 0 <= i < j < |r|
        ensures FirstIndex(s, r[i]) < FirstIndex(s, r[j])
      {
        assert r[i] in d;
        if j < |d| {
          assert r[j] in d;
        }
      }
    }
  }
}
