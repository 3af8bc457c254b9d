/** Values shared by the price-alert checker: sheet rows, quotes, chat messages,
    and the ASCII upper-casing applied to ticker symbols. */
module AlertTypes {

  datatype Option<+T> = None | Some(value: T)

  /** One row of the alert sheet, read by position: ticker symbol, operator
      token ("gt" or "lt"), threshold text. The header row has the same shape. */
  datatype Row = Row(symbol: string, operator: string, value: string)

  /** The header row that every committed pass writes first. */
  const Header: Row := Row("symbol", "operator", "value")

  /** One entry of the quote service's answer: a symbol and its market price. */
  datatype Quote = Quote(symbol: string, price: real)

  /** The chat messages the checker sends, one constructor per message text. */
  datatype Message =
    | GreaterOrEqual(symbol: string, threshold: real)      // "<symbol> is greater or equal than <threshold>"
    | LessOrEqual(symbol: string, threshold: real)         // "<symbol> is less or equal than <threshold>"
    | InvalidOperator(symbol: string, operator: string)    // "ERROR: quote <symbol> has invalid operator <op>"
    | ValidationFailed(symbol: string)                     // "ERROR: validating quote <symbol>"
    | ReadingQuotesFailed(symbols: seq<string>)            // "ERROR: reading quotes <symbols>"
    | AttemptsFailed(symbols: seq<string>)                 // "ERROR: 3 attempts have failed reading quotes <symbols>"
    | MissingHeader(fileName: string)                      // "ERROR: <file> spreadsheet does not have header columns"

  /** Python's str.upper restricted to ASCII letters. */
  function UpperChar(c: char): char
  {
    if 'a' <= c <= 'z' then (c as int - 'a' as int + 'A' as int) as char else c
  }

  predicate IsUpper(s: string)
  {
    forall i :: 0 <= i < |s| ==> UpperChar(s[i]) == s[i]
  }

  /** Upper-cases a symbol letter by letter: same length, every letter
      upper-cased, and nothing left for a second upper-casing to change. */
  function Upper(s: string): (u: string)
    ensures |u| == |s|
    ensures forall i :: 0 <= i < |s| ==> u[i] == UpperChar(s[i])
    ensures IsUpper(u)
  {
    if s == [] then [] else [UpperChar(s[0])] + Upper(s[1..])
  }

  /** Upper-casing an already upper-cased symbol changes nothing, so the
      second `.str.upper()` applied to the fetch list is the identity. */
  lemma UpperFixesUpper(s: string)
    requires IsUpper(s)
    ensures Upper(s) == s
  {
  }

  /** `a` is `b` with some elements deleted, the rest kept in order: the last
      element of `a` is either matched with the last of `b` or `b`'s last is
      one of the deleted elements. */
  ghost predicate IsSubsequence<T>(a: seq<T>, b: seq<T>)
    decreases |b|
  {
    if a == [] then true
    else if b == [] then false
    else (a[|a| - 1] == b[|b| - 1] && IsSubsequence(a[..|a| - 1], b[..|b| - 1]))
         || IsSubsequence(a, b[..|b| - 1])
  }

  /** Every element of a subsequence occurs in the sequence it was taken from. */
  lemma {:induction false} SubsequenceMembers<T>(a: seq<T>, b: seq<T>)
    requires IsSubsequence(a, b)
    ensures forall x :: x in a ==> x in b
    decreases |b|
  {
    if a != [] {
      var a', b' := a[..|a| - 1], b[..|b| - 1];
      assert b == b' + [b[|b| - 1]];
      if a[|a| - 1] == b[|b| - 1] && IsSubsequence(a', b') {
        SubsequenceMembers(a', b');
        assert a == a' + [a[|a| - 1]];
      } else {
        SubsequenceMembers(a, b');
      }
    }
  }
}
