/** What one `scan` pass decides: which rules stay, what is written back and
    what is sent, as functions of the loaded frame and the fetch outcomes. */
module Reconcile {
  import opened AlertTypes
  import opened Sheet
  import opened Validation
  import opened QuoteFetch

  /** Whether a rule leaves the sheet, given the fetched quotes. */
  predicate Fired(row: Row, quotes: seq<Quote>, parse: string -> Option<real>)
  {
    Validate(Lookup(quotes, row.symbol), row, parse).fired
  }

  /** The rules that did not fire, in their original order. */
  function Survivors(rows: seq<Row>, quotes: seq<Quote>, parse: string -> Option<real>): (kept: seq<Row>)
    ensures |kept| <= |rows|
  {
    if rows == [] then []
    else
      var kept := Survivors(rows[..|rows| - 1], quotes, parse);
      var last := rows[|rows| - 1];
      if Fired(last, quotes, parse) then kept else kept + [last]
  }

  /** The messages Validate sends for the rows, in row order. */
  function Notices(rows: seq<Row>, quotes: seq<Quote>, parse: string -> Option<real>): (sent: seq<Message>)
  {
    if rows == [] then []
    else
      Notices(rows[..|rows| - 1], quotes, parse) +
      Validate(Lookup(quotes, rows[|rows| - 1].symbol), rows[|rows| - 1], parse).messages
  }

  /** The rule walk sends at most one message per rule. */
  lemma {:induction false} NoticesAtMostOnePerRule(rows: seq<Row>, quotes: seq<Quote>, parse: string -> Option<real>)
    ensures |Notices(rows, quotes, parse)| <= |rows|
  {
    if rows != [] {
      NoticesAtMostOnePerRule(rows[..|rows| - 1], quotes, parse);
    }
  }

  /** Extending the rows by one extends the survivors and the notices by
      that row's verdict. */
  lemma EvaluateStep(rows: seq<Row>, i: nat, quotes: seq<Quote>, parse: string -> Option<real>)
    requires i < |rows|
    ensures var v := Validate(Lookup(quotes, rows[i].symbol), rows[i], parse);
      Survivors(rows[..i + 1], quotes, parse) ==
        Survivors(rows[..i], quotes, parse) + (if v.fired then [] else [rows[i]]) &&
      Notices(rows[..i + 1], quotes, parse) == Notices(rows[..i], quotes, parse) + v.messages
  {
    assert rows[..i + 1][..i] == rows[..i];
  }

  /** Index of the first row whose symbol has no quote (where the pass
      raises), or the number of rows when every symbol has one. */
  function FirstUnquoted(rows: seq<Row>, quotes: seq<Quote>): (k: nat)
    ensures k <= |rows|
    ensures forall i :: 0 <= i < k ==> Lookup(quotes, rows[i].symbol).Some?
    ensures k < |rows| ==> Lookup(quotes, rows[k].symbol).None?
  {
    if rows == [] || Lookup(quotes, rows[0].symbol).None? then 0
    else 1 + FirstUnquoted(rows[1..], quotes)
  }

  /** A quoted row before the first unquoted one moves the boundary past it. */
  lemma QuotedRowPassed(rows: seq<Row>, quotes: seq<Quote>, i: nat)
    requires i < |rows| && i <= FirstUnquoted(rows, quotes)
    requires Lookup(quotes, rows[i].symbol).Some?
    ensures i + 1 <= FirstUnquoted(rows, quotes)
  {
  }

  /** The result of one pass: the sheet afterwards, the messages sent, whether
      the sheet was cleared and rewritten, the symbol list requested, and the
      fetch loop's trace (None when no fetch was made). */
  datatype Pass = Pass(sheet: seq<Row>, messages: seq<Message>, committed: bool,
                       requested: seq<string>, trace: Option<Trace>)

  /** One `scan` pass over the loaded frame: fetch the de-duplicated symbols;
      with a non-empty answer, evaluate every rule in order and rewrite the
      sheet as the header plus the rules that did not fire; a symbol without
      a quote aborts the pass with one "reading quotes" error and no rewrite;
      an empty answer, a fetch that gave up or one still looping rewrites
      nothing. */
  function ScanPass(sheet: seq<Row>, frame: Frame, attempts: seq<Attempt>,
                    parse: string -> Option<real>): (p: Pass)
    ensures p.trace == Some(Failover(attempts))
    ensures !p.committed ==> p.sheet == sheet
    ensures p.committed ==> Failover(attempts).fetch.Fetched? && |p.sheet| >= 1 && p.sheet[0] == Header
  {
    var loaded := Symbols(frame.data);
    var requested := Dedup(loaded);
    var t := Failover(attempts);
    match t.fetch
    case Fetched(q) =>
      if |q| == 0 then Pass(sheet, [], false, requested, Some(t))
      else
        var k := FirstUnquoted(frame.data, q);
        if k == |frame.data| then
          Pass([Header] + Survivors(frame.data, q, parse), Notices(frame.data, q, parse), true, requested, Some(t))
        else
          Pass(sheet, Notices(frame.data[..k], q, parse) + [ReadingQuotesFailed(loaded)], false, requested, Some(t))
    case GaveUp => Pass(sheet, [AttemptsFailed(loaded)], false, requested, Some(t))
    case Pending => Pass(sheet, [], false, requested, Some(t))
  }

  /** The three ways a pass ends, one lemma each, as the scan loop meets them. */
  lemma ScanPassNoAnswer(sheet: seq<Row>, frame: Frame, attempts: seq<Attempt>, parse: string -> Option<real>)
    requires !(Failover(attempts).fetch.Fetched? && |Failover(attempts).fetch.quotes| > 0)
    ensures var p := ScanPass(sheet, frame, attempts, parse);
      p.sheet == sheet &&
      p.messages == if Failover(attempts).fetch.GaveUp? then [AttemptsFailed(Symbols(frame.data))] else []
  {
  }

  lemma ScanPassAnswered(sheet: seq<Row>, frame: Frame, attempts: seq<Attempt>, parse: string -> Option<real>)
    requires Failover(attempts).fetch.Fetched? && |Failover(attempts).fetch.quotes| > 0
    ensures var p := ScanPass(sheet, frame, attempts, parse);
      var q := Failover(attempts).fetch.quotes;
      var k := FirstUnquoted(frame.data, q);
      if k == |frame.data| then
        p.sheet == [Header] + Survivors(frame.data, q, parse) && p.messages == Notices(frame.data, q, parse)
      else
        p.sheet == sheet &&
        p.messages == Notices(frame.data[..k], q, parse) + [ReadingQuotesFailed(Symbols(frame.data))]
  {
  }

  lemma SubsequenceExtend<T>(a: seq<T>, b: seq<T>, y: T)
    requires IsSubsequence(a, b)
    ensures IsSubsequence(a, b + [y])
  {
  }

  /** The survivors are the rows taken in order, keeping every copy of each
      rule that did not fire and no copy of one that did. */
  lemma {:induction false} SurvivorsExact(rows: seq<Row>, quotes: seq<Quote>, parse: string -> Option<real>)
    ensures IsSubsequence(Survivors(rows, quotes, parse), rows)
    ensures forall r :: multiset(Survivors(rows, quotes, parse))[r] ==
              if Fired(r, quotes, parse) then 0 else multiset(rows)[r]
  {
    if rows != [] {
      var init, last := rows[..|rows| - 1], rows[|rows| - 1];
      var kept := Survivors(init, quotes, parse);
      SurvivorsExact(init, quotes, parse);
      assert rows == init + [last];
      if Fired(last, quotes, parse) {
        SubsequenceExtend(kept, init, last);
      } else {
        assert (kept + [last])[..|kept|] == kept;
      }
    }
  }

  /** Rows none of which fire all survive. */
  lemma {:induction false} SurvivorsWhenNoneFire(rows: seq<Row>, quotes: seq<Quote>, parse: string -> Option<real>)
    requires forall r :: r in rows ==> !Fired(r, quotes, parse)
    ensures Survivors(rows, quotes, parse) == rows
  {
    if rows != [] {
      var init := rows[..|rows| - 1];
      assert forall r :: r in init ==> r in rows;
      SurvivorsWhenNoneFire(init, quotes, parse);
      assert rows == init + [rows[|rows| - 1]];
    }
  }

  /** Evaluating rules only ever sends rule-level messages. */
  lemma {:induction false} NoticesAreRuleLevel(rows: seq<Row>, quotes: seq<Quote>, parse: string -> Option<real>)
    ensures forall m :: m in Notices(rows, quotes, parse) ==>
      !m.ReadingQuotesFailed? && !m.AttemptsFailed? && !m.MissingHeader?
  {
    if rows != [] {
      var last := rows[|rows| - 1];
      NoticesAreRuleLevel(rows[..|rows| - 1], quotes, parse);
      ValidateMessagesAreRuleLevel(Lookup(quotes, last.symbol), last, parse);
    }
  }

  /** The sheet is rewritten exactly when the fetch returned a non-empty answer
      that quotes every loaded symbol; the rewrite is the header followed by the
      rules that did not fire, in order, every copy of each kept; without a
      rewrite the sheet is left as it was. */
  lemma ScanCommit(sheet: seq<Row>, frame: Frame, attempts: seq<Attempt>, parse: string -> Option<real>)
    ensures var p := ScanPass(sheet, frame, attempts, parse);
      var f := Failover(attempts).fetch;
      (p.committed <==> f.Fetched? && |f.quotes| > 0 &&
                        forall r :: r in frame.data ==> Lookup(f.quotes, r.symbol).Some?) &&
      (!p.committed ==> p.sheet == sheet) &&
      (p.committed ==> p.sheet[0] == Header && IsSubsequence(p.sheet[1..], frame.data) &&
                       (forall r :: r in p.sheet[1..] ==> r in frame.data) &&
                       forall r :: multiset(p.sheet[1..])[r] ==
                         if Fired(r, f.quotes, parse) then 0 else multiset(frame.data)[r])
  {
    var p := ScanPass(sheet, frame, attempts, parse);
    var f := Failover(attempts).fetch;
    if f.Fetched? && |f.quotes| > 0 {
      var k := FirstUnquoted(frame.data, f.quotes);
      if k < |frame.data| {
        assert frame.data[k] in frame.data;
      } else {
        assert p.sheet[1..] == Survivors(frame.data, f.quotes, parse);
        SurvivorsExact(frame.data, f.quotes, parse);
        SubsequenceMembers(p.sheet[1..], frame.data);
      }
    }
  }

  /** A loaded symbol missing from a non-empty answer aborts the pass at the
      first such row: the rules before it have sent their messages, then one
      "reading quotes" error naming every loaded symbol ends the list, and
      the sheet is not touched. */
  lemma ScanMissingQuote(sheet: seq<Row>, frame: Frame, attempts: seq<Attempt>,
                         parse: string -> Option<real>, i: nat)
    requires Failover(attempts).fetch.Fetched? && |Failover(attempts).fetch.quotes| > 0
    requires i < |frame.data| && Lookup(Failover(attempts).fetch.quotes, frame.data[i].symbol).None?
    ensures var p := ScanPass(sheet, frame, attempts, parse);
      var q := Failover(attempts).fetch.quotes;
      var k := FirstUnquoted(frame.data, q);
      !p.committed && p.sheet == sheet && k <= i &&
      p.messages == Notices(frame.data[..k], q, parse) + [ReadingQuotesFailed(Symbols(frame.data))] &&
      forall j :: 0 <= j < |p.messages| - 1 ==> !p.messages[j].ReadingQuotesFailed?
  {
    var q := Failover(attempts).fetch.quotes;
    var k := FirstUnquoted(frame.data, q);
    NoticesAreRuleLevel(frame.data[..k], q, parse);
    var p := ScanPass(sheet, frame, attempts, parse);
    assert forall j :: 0 <= j < |p.messages| - 1 ==> p.messages[j] in Notices(frame.data[..k], q, parse);
  }

  /** A fetch that gave up after three exceptions sends exactly the one
      "3 attempts have failed" message and leaves the sheet as it was. */
  lemma ScanGaveUp(sheet: seq<Row>, frame: Frame, attempts: seq<Attempt>, parse: string -> Option<real>)
    requires Failover(attempts).fetch.GaveUp?
    ensures var p := ScanPass(sheet, frame, attempts, parse);
      !p.committed && p.sheet == sheet && p.messages == [AttemptsFailed(Symbols(frame.data))]
  {
  }

  /** The request names each loaded symbol exactly once. */
  lemma ScanRequest(sheet: seq<Row>, frame: Frame, attempts: seq<Attempt>, parse: string -> Option<real>)
    ensures var p := ScanPass(sheet, frame, attempts, parse);
      NoDuplicates(p.requested) &&
      forall s :: s in p.requested <==> exists r :: r in frame.data && r.symbol == s
  {
  }

  /** When every row has a quote, the pass runs through all of them. */
  lemma AllQuoted(rows: seq<Row>, quotes: seq<Quote>)
    requires forall r :: r in rows ==> Lookup(quotes, r.symbol).Some?
    ensures FirstUnquoted(rows, quotes) == |rows|
  {
  }

  /** Every surviving rule comes from the rows, so it keeps their upper-case
      symbol and their quote, and it did not fire. */
  lemma SurvivorsInherit(rows: seq<Row>, quotes: seq<Quote>, parse: string -> Option<real>)
    requires forall r :: r in rows ==> IsUpper(r.symbol) && Lookup(quotes, r.symbol).Some?
    ensures forall r :: r in Survivors(rows, quotes, parse) ==>
      IsUpper(r.symbol) && Lookup(quotes, r.symbol).Some? && !Fired(r, quotes, parse)
  {
  }

  /** A second pass over the sheet a pass committed, with a fetch that returns
      the same answer, commits again and writes the very same sheet: every rule
      that survived once survives again. */
  lemma ScanIdempotent(sheet: seq<Row>, frame: Frame, attempts: seq<Attempt>,
                       attempts2: seq<Attempt>, parse: string -> Option<real>)
    requires Load(sheet) == Some(frame)
    requires ScanPass(sheet, frame, attempts, parse).committed
    requires Failover(attempts2).fetch == Failover(attempts).fetch
    ensures var p := ScanPass(sheet, frame, attempts, parse);
      Load(p.sheet).Some? &&
      var p2 := ScanPass(p.sheet, Load(p.sheet).value, attempts2, parse);
      p2.committed && p2.sheet == p.sheet
  {
    var p := ScanPass(sheet, frame, attempts, parse);
    var q := Failover(attempts).fetch.quotes;
    var kept := Survivors(frame.data, q, parse);
    assert p.sheet == [Header] + kept;
    ScanCommit(sheet, frame, attempts, parse);
    SurvivorsInherit(frame.data, q, parse);
    LoadUpperRows(kept);
    AllQuoted(kept, q);
    SurvivorsWhenNoneFire(kept, q, parse);
  }
}
