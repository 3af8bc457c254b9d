/** The checker object (`PriceAlertLogic`): it holds the alert sheet and the
    chat, and one `Run` loads the sheet, fetches quotes, evaluates every rule
    and rewrites the sheet. */
module PriceAlert {
  import opened AlertTypes
  import opened Sheet
  import opened Validation
  import opened QuoteFetch
  import opened Reconcile

  /** A whole run: a sheet without rows sends one "does not have header
      columns" error and fetches nothing; otherwise one scan pass. */
  function RunPass(sheet: seq<Row>, attempts: seq<Attempt>, parse: string -> Option<real>,
                   fileName: string): (p: Pass)
    ensures p.trace.None? <==> |sheet| == 0
    ensures !p.committed ==> p.sheet == sheet
  {
    match Load(sheet)
    case None => Pass(sheet, [MissingHeader(fileName)], false, [], None)
    case Some(frame) => ScanPass(sheet, frame, attempts, parse)
  }

  /** The "does not have header columns" error is sent exactly when the sheet
      has no rows, and then it is the only message, no quote is fetched and
      the sheet stays empty. */
  lemma RunMissingHeader(sheet: seq<Row>, attempts: seq<Attempt>, parse: string -> Option<real>,
                         fileName: string)
    ensures var p := RunPass(sheet, attempts, parse, fileName);
      (MissingHeader(fileName) in p.messages <==> |sheet| == 0) &&
      (|sheet| == 0 ==> p.messages == [MissingHeader(fileName)] && p.trace.None? &&
                        !p.committed && p.sheet == sheet)
  {
    var p := RunPass(sheet, attempts, parse, fileName);
    if |sheet| > 0 {
      var frame := Load(sheet).value;
      var t := Failover(attempts);
      if t.fetch.Fetched? && |t.fetch.quotes| > 0 {
        var q := t.fetch.quotes;
        var k := FirstUnquoted(frame.data, q);
        NoticesAreRuleLevel(frame.data, q, parse);
        NoticesAreRuleLevel(frame.data[..k], q, parse);
      }
    }
  }

  /** Two rules, one crossing its threshold: with AAPL at 151 the rule
      "AAPL gt 150" fires, is announced and leaves the sheet; with MSFT at 310
      the rule "MSFT lt 300" stays. */
  lemma ScenarioOneFires(parse: string -> Option<real>)
    requires parse("150") == Some(150.0) && parse("300") == Some(300.0)
    ensures var p := RunPass([Header, Row("aapl", "gt", "150"), Row("MSFT", "lt", "300")],
                             [Success([Quote("AAPL", 151.0), Quote("MSFT", 310.0)])], parse, "alerts");
      p.committed && p.sheet == [Header, Row("MSFT", "lt", "300")] &&
      p.messages == [GreaterOrEqual("AAPL", 150.0)]
  {
    var sheet := [Header, Row("aapl", "gt", "150"), Row("MSFT", "lt", "300")];
    var q := [Quote("AAPL", 151.0), Quote("MSFT", 310.0)];
    var attempts := [Success(q)];
    var rows := [Row("AAPL", "gt", "150"), Row("MSFT", "lt", "300")];
    ScenarioLoads();
    assert Failover(attempts) == Trace(Fetched(q), 1, [false]);
    ScenarioEvaluates(parse);
    ScanPassAnswered(sheet, Frame(Header, rows), attempts, parse);
  }

  lemma ScenarioLoads()
    ensures Load([Header, Row("aapl", "gt", "150"), Row("MSFT", "lt", "300")]) ==
            Some(Frame(Header, [Row("AAPL", "gt", "150"), Row("MSFT", "lt", "300")]))
  {
    var sheet := [Header, Row("aapl", "gt", "150"), Row("MSFT", "lt", "300")];
    assert Upper("aapl") == "AAPL" && Upper("MSFT") == "MSFT";
    assert sheet[1..] == [Row("aapl", "gt", "150"), Row("MSFT", "lt", "300")];
    assert UpperSymbols(sheet[1..]) == [Row("AAPL", "gt", "150"), Row("MSFT", "lt", "300")];
  }

  lemma ScenarioEvaluates(parse: string -> Option<real>)
    requires parse("150") == Some(150.0) && parse("300") == Some(300.0)
    ensures var q := [Quote("AAPL", 151.0), Quote("MSFT", 310.0)];
      var rows := [Row("AAPL", "gt", "150"), Row("MSFT", "lt", "300")];
      FirstUnquoted(rows, q) == 2 &&
      Survivors(rows, q, parse) == [Row("MSFT", "lt", "300")] &&
      Notices(rows, q, parse) == [GreaterOrEqual("AAPL", 150.0)]
  {
  }

  /** The checker: `sheet` is the spreadsheet's rows, `sent` every message
      sent to the chat so far, `df` the frame loaded by the last run. */
  class PriceAlertLogic {
    const fileName: string
    const parse: string -> Option<real>
    var sheet: seq<Row>
    var sent: seq<Message>
    var df: Option<Frame>

    constructor (fileName: string, parse: string -> Option<real>, sheet: seq<Row>)
      ensures this.fileName == fileName && this.parse == parse
      ensures this.sheet == sheet && sent == [] && df == None
    {
      this.fileName := fileName;
      this.parse := parse;
      this.sheet := sheet;
      sent := [];
      df := None;
    }

    /** Sends one message to the chat. */
    method Send(m: Message)
      modifies this`sent
      ensures sent == old(sent) + [m]
    {
      sent := sent + [m];
    }

    /** `run`: load the sheet; scan it, or report that it has no header row. */
    method Run(attempts: seq<Attempt>)
      modifies this
      ensures df == Load(old(sheet))
      ensures sheet == RunPass(old(sheet), attempts, parse, fileName).sheet
      ensures sent == old(sent) + RunPass(old(sheet), attempts, parse, fileName).messages
    {
      df := Load(sheet);
      if df.Some? {
        Scan(attempts);
      } else {
        Send(MissingHeader(fileName));
      }
    }

    /** `scan`: fetch the quotes; with a non-empty answer, walk the rules in
        order, sending what Validate sends and collecting the rules that did
        not fire; a rule without a quote ends the pass with one "reading
        quotes" error; only a pass that reaches the end clears the sheet and
        writes the header and the collected rules. */
    method Scan(attempts: seq<Attempt>)
      requires df.Some?
      modifies this`sheet, this`sent
      ensures sheet == ScanPass(old(sheet), df.value, attempts, parse).sheet
      ensures sent == old(sent) + ScanPass(old(sheet), df.value, attempts, parse).messages
    {
      var frame := df.value;
      var loaded := Symbols(frame.data);
      var fetch, consumed, slept, failed := GetQuoteWithFailover(loaded, attempts);
      sent := sent + failed;
      if fetch.Fetched? && |fetch.quotes| > 0 {
        assert failed == [] && sent == old(sent);
        ScanPassAnswered(sheet, frame, attempts, parse);
        Evaluate(frame, fetch.quotes, loaded);
      } else {
        ScanPassNoAnswer(sheet, frame, attempts, parse);
      }
    }

    /** The rest of `scan` once the answer is non-empty: walk the rules in
        order, sending what Validate sends and collecting the rules that did
        not fire. A rule without a quote ends the walk with one "reading
        quotes" error and the sheet untouched; a walk that reaches the end
        clears the sheet and writes the header and the collected rules. */
    method Evaluate(frame: Frame, quotes: seq<Quote>, loaded: seq<string>)
      modifies this`sheet, this`sent
      ensures var k := FirstUnquoted(frame.data, quotes);
        if k == |frame.data| then
          sheet == [Header] + Survivors(frame.data, quotes, parse) &&
          sent == old(sent) + Notices(frame.data, quotes, parse)
        else
          sheet == old(sheet) &&
          sent == old(sent) + Notices(frame.data[..k], quotes, parse) + [ReadingQuotesFailed(loaded)]
    {
      var newSheet := [Header];
      var i := 0;
      while i < |frame.data|
        invariant 0 <= i <= |frame.data|
        invariant i <= FirstUnquoted(frame.data, quotes)
        invariant newSheet == [Header] + Survivors(frame.data[..i], quotes, parse)
        invariant sent == old(sent) + Notices(frame.data[..i], quotes, parse)
        invariant sheet == old(sheet)
      {
        var item := frame.data[i];
        var price := Lookup(quotes, item.symbol);
        if price.None? {
          assert FirstUnquoted(frame.data, quotes) == i;
          Send(ReadingQuotesFailed(loaded));
          return;
        }
        QuotedRowPassed(frame.data, quotes, i);
        var verdict := Validate(price, item, parse);
        var kept := if verdict.fired then [] else [item];
        EvaluateStep(frame.data, i, quotes, parse);
        assert [Header] + Survivors(frame.data[..i + 1], quotes, parse) == newSheet + kept;
        assert old(sent) + Notices(frame.data[..i + 1], quotes, parse) == sent + verdict.messages;
        sent := sent + verdict.messages;
        newSheet := newSheet + kept;
        i := i + 1;
      }
      assert frame.data[..i] == frame.data;
      assert FirstUnquoted(frame.data, quotes) == |frame.data|;
      sheet := [];        // gsheet.clear()
      sheet := newSheet;  // gsheet.insert_rows(new_sheet)
    }
  }
}
