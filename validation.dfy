/** Deciding one rule against its quote (`validate`) and finding that quote
    in the service's answer (the `quotes.symbol == item.symbol` row taken by
    `.iloc[0]` in `scan`). */
module Validation {
  import opened AlertTypes

  /** Whether the rule fired (and leaves the sheet) and what was sent for it. */
  datatype Verdict = Verdict(fired: bool, messages: seq<Message>)

  /** The price of the first quote for `symbol`, or None when the answer has
      no quote for it (where `.iloc[0]` raises). */
  function Lookup(quotes: seq<Quote>, symbol: string): Option<real>
  {
    if quotes == [] then None
    else if quotes[0].symbol == symbol then Some(quotes[0].price)
    else Lookup(quotes[1..], symbol)
  }

  /** Lookup finds nothing exactly when no quote has the symbol, and otherwise
      the price of the first quote that has it. */
  lemma {:induction false} LookupFindsFirst(quotes: seq<Quote>, symbol: string)
    ensures Lookup(quotes, symbol).None? <==> forall q :: q in quotes ==> q.symbol != symbol
    ensures Lookup(quotes, symbol).Some? ==>
      exists k :: 0 <= k < |quotes| && quotes[k] == Quote(symbol, Lookup(quotes, symbol).value) &&
        forall j :: 0 <= j < k ==> quotes[j].symbol != symbol
  {
    if quotes != [] && quotes[0].symbol != symbol {
      var rest := quotes[1..];
      LookupFindsFirst(rest, symbol);
      assert forall q :: q in quotes ==> q == quotes[0] || q in rest;
      if Lookup(rest, symbol).Some? {
        var k :| 0 <= k < |rest| && rest[k] == Quote(symbol, Lookup(rest, symbol).value) &&
                 forall j :: 0 <= j < k ==> rest[j].symbol != symbol;
        assert quotes[k + 1] == rest[k];
      }
    } else if quotes != [] {
      assert quotes[0] in quotes;
    }
  }

  /** Decides one rule. The threshold text is parsed first (`parse` stands
      for Decimal's constructor); then "gt" fires at or above the threshold,
      "lt" at or below it, and any other token fires as an error. Failing to
      parse keeps the rule and reports a validation error. A rule fires only
      with a quote and a parsed threshold, sends at most one message, and a
      fired rule always sends exactly one. */
  function Validate(quote: Option<real>, item: Row, parse: string -> Option<real>): (v: Verdict)
    ensures |v.messages| <= 1
    ensures v.fired ==> |v.messages| == 1
    ensures v.fired ==> quote.Some? && parse(item.value).Some?
    ensures quote.None? ==> v.messages == []
  {
    if quote.None? then Verdict(false, [])
    else
      var price := quote.value;
      match parse(item.value)
      case None => Verdict(false, [ValidationFailed(item.symbol)])
      case Some(target) =>
        if item.operator == "gt" then
          if price >= target then Verdict(true, [GreaterOrEqual(item.symbol, target)])
          else Verdict(false, [])
        else if item.operator == "lt" then
          if price <= target then Verdict(true, [LessOrEqual(item.symbol, target)])
          else Verdict(false, [])
        else Verdict(true, [InvalidOperator(item.symbol, item.operator)])
  }

  /** "gt" fires exactly when the price is at or above the threshold (so a
      price equal to it fires), with one "greater or equal" message, and
      sends nothing otherwise. */
  lemma ValidateGreater(price: real, item: Row, parse: string -> Option<real>, target: real)
    requires item.operator == "gt" && parse(item.value) == Some(target)
    ensures var v := Validate(Some(price), item, parse);
      (v.fired <==> price >= target) &&
      v.messages == (if price >= target then [GreaterOrEqual(item.symbol, target)] else [])
  {
  }

  /** "lt" fires exactly when the price is at or below the threshold, with one
      "less or equal" message, and sends nothing otherwise. */
  lemma ValidateLess(price: real, item: Row, parse: string -> Option<real>, target: real)
    requires item.operator == "lt" && parse(item.value) == Some(target)
    ensures var v := Validate(Some(price), item, parse);
      (v.fired <==> price <= target) &&
      v.messages == (if price <= target then [LessOrEqual(item.symbol, target)] else [])
  {
  }

  /** Any other operator token fires whatever the price, with one
      "invalid operator" error naming the symbol and the token. */
  lemma ValidateInvalidOperator(price: real, item: Row, parse: string -> Option<real>)
    requires item.operator != "gt" && item.operator != "lt" && parse(item.value).Some?
    ensures Validate(Some(price), item, parse) == Verdict(true, [InvalidOperator(item.symbol, item.operator)])
  {
  }

  /** A threshold that does not parse keeps the rule with one "validating
      quote" error, whatever the operator token, since parsing comes first. */
  lemma ValidateBadThreshold(price: real, item: Row, parse: string -> Option<real>)
    requires parse(item.value).None?
    ensures Validate(Some(price), item, parse) == Verdict(false, [ValidationFailed(item.symbol)])
  {
  }

  /** A threshold equal to the price fires both "gt" and "lt". */
  lemma ValidateBoundaryFires(price: real, item: Row, parse: string -> Option<real>)
    requires parse(item.value) == Some(price)
    ensures Validate(Some(price), item, parse).fired
  {
  }

  /** Validate never sends the pass-level errors (reading quotes, failed
      attempts, missing header). */
  lemma ValidateMessagesAreRuleLevel(quote: Option<real>, item: Row, parse: string -> Option<real>)
    ensures forall m :: m in Validate(quote, item, parse).messages ==>
      !m.ReadingQuotesFailed? && !m.AttemptsFailed? && !m.MissingHeader?
  {
  }
}
