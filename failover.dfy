/** The quote fetch with retries (`get_quote_with_failover`). Each request's
    outcome is taken from a given sequence, so the loop runs until a 200
    answer, until the third exception, or until the outcomes run out. */
module QuoteFetch {
  import opened AlertTypes

  /** What one request did: a 200 answer carrying its quote list, an
      exception (network or JSON), or a non-200 status without exception. */
  datatype Attempt = Success(quotes: seq<Quote>) | Raised | Non200

  /** How the loop ended: with the first 200 answer's quotes, by giving up
      after the third exception, or still looping when the outcomes ran out. */
  datatype Fetch = Fetched(quotes: seq<Quote>) | GaveUp | Pending

  /** The loop's end, how many outcomes it used, and for each request made
      whether a one-second wait came before it. */
  datatype Trace = Trace(fetch: Fetch, consumed: nat, slept: seq<bool>)

  /** The loop from outcome `i` on, with the counter at `retry` and the waits
      made so far in `slept`. */
  function Continue(attempts: seq<Attempt>, i: nat, retry: nat, slept: seq<bool>): Trace
    requires i <= |attempts|
    decreases |attempts| - i
  {
    if retry >= 3 then Trace(GaveUp, i, slept)
    else if i == |attempts| then Trace(Pending, i, slept)
    else
      var slept' := slept + [retry > 0];
      match attempts[i]
      case Success(q) => Trace(Fetched(q), i + 1, slept')
      case Non200 => Continue(attempts, i + 1, retry, slept')
      case Raised => Continue(attempts, i + 1, retry + 1, slept')
  }

  /** The whole loop: at most one request per outcome, and one wait flag per
      request made. */
  function Failover(attempts: seq<Attempt>): (t: Trace)
    ensures t.consumed <= |attempts| && |t.slept| == t.consumed
  {
    ContinueShape(attempts, 0, 0, []);
    Continue(attempts, 0, 0, [])
  }

  /** The loop from outcome `i` on uses no outcome before `i`, none past the
      end, and adds one wait flag per request it makes. */
  lemma {:induction false} ContinueShape(attempts: seq<Attempt>, i: nat, retry: nat, slept: seq<bool>)
    requires i <= |attempts|
    ensures var t := Continue(attempts, i, retry, slept);
      i <= t.consumed <= |attempts| && |t.slept| == |slept| + (t.consumed - i)
    decreases |attempts| - i
  {
    if retry < 3 && i < |attempts| {
      var slept' := slept + [retry > 0];
      match attempts[i]
      case Success(q) =>
      case Non200 => ContinueShape(attempts, i + 1, retry, slept');
      case Raised => ContinueShape(attempts, i + 1, retry + 1, slept');
    }
  }

  /** The number of exceptions among the outcomes: the retry counter. */
  function Raises(s: seq<Attempt>): nat
  {
    if s == [] then 0 else Raises(s[..|s| - 1]) + (if s[|s| - 1].Raised? then 1 else 0)
  }

  predicate NoSuccess(s: seq<Attempt>)
  {
    forall k :: 0 <= k < |s| ==> !s[k].Success?
  }

  /** The retry policy stated outright: a wait precedes a request exactly when
      an earlier request raised; the loop returns the first 200 answer if it
      comes before the third exception, gives up right at the third
      exception, and otherwise uses every outcome without ending. Non-200
      answers are not counted. */
  ghost predicate MeetsPolicy(a: seq<Attempt>, t: Trace)
  {
    t.consumed <= |a| && |t.slept| == t.consumed &&
    (forall k :: 0 <= k < t.consumed ==> (t.slept[k] <==> Raises(a[..k]) > 0)) &&
    match t.fetch
    case Fetched(q) =>
      0 < t.consumed && a[t.consumed - 1] == Success(q) &&
      NoSuccess(a[..t.consumed - 1]) && Raises(a[..t.consumed - 1]) < 3
    case GaveUp =>
      0 < t.consumed && a[t.consumed - 1] == Raised &&
      NoSuccess(a[..t.consumed]) && Raises(a[..t.consumed]) == 3
    case Pending =>
      t.consumed == |a| && NoSuccess(a) && Raises(a) < 3
  }

  lemma {:induction false} ContinueMeetsPolicy(a: seq<Attempt>, i: nat, retry: nat, slept: seq<bool>)
    requires i <= |a| && retry <= 3
    requires retry == Raises(a[..i]) && NoSuccess(a[..i])
    requires retry == 3 ==> 0 < i && a[i - 1] == Raised
    requires |slept| == i && forall k :: 0 <= k < i ==> (slept[k] <==> Raises(a[..k]) > 0)
    ensures MeetsPolicy(a, Continue(a, i, retry, slept))
    decreases |a| - i
  {
    if retry >= 3 {
    } else if i == |a| {
      assert a[..i] == a;
    } else {
      var slept' := slept + [retry > 0];
      assert a[..i + 1][..i] == a[..i];
      WaitsExtend(a, i, retry, slept);
      match a[i]
      case Success(q) =>
      case Non200 =>
        ContinueMeetsPolicy(a, i + 1, retry, slept');
      case Raised =>
        ContinueMeetsPolicy(a, i + 1, retry + 1, slept');
    }
  }

  lemma WaitsExtend(a: seq<Attempt>, i: nat, retry: nat, slept: seq<bool>)
    requires i < |a| && retry == Raises(a[..i])
    requires |slept| == i && forall k :: 0 <= k < i ==> (slept[k] <==> Raises(a[..k]) > 0)
    ensures forall k :: 0 <= k < i + 1 ==> ((slept + [retry > 0])[k] <==> Raises(a[..k]) > 0)
  {
  }

  /** The loop follows the retry policy. */
  lemma FailoverMeetsPolicy(a: seq<Attempt>)
    ensures MeetsPolicy(a, Failover(a))
  {
    assert a[..0] == [];
    ContinueMeetsPolicy(a, 0, 0, []);
  }

  /** The loop ends whenever the outcomes hold a 200 answer or three
      exceptions; it ends in no other way. */
  lemma FailoverEnds(a: seq<Attempt>)
    ensures Failover(a).fetch != Pending <==>
      (exists k :: 0 <= k < |a| && a[k].Success?) || Raises(a) >= 3
  {
    FailoverMeetsPolicy(a);
    var t := Failover(a);
    if t.fetch.Fetched? {
      assert a[t.consumed - 1].Success?;
    } else if t.fetch.GaveUp? {
      RaisesPrefix(a, t.consumed);
    }
  }

  /** Counting exceptions over a longer prefix never gives fewer. */
  lemma {:induction false} RaisesPrefix(a: seq<Attempt>, n: nat)
    requires n <= |a|
    ensures Raises(a[..n]) <= Raises(a)
    decreases |a| - n
  {
    if n < |a| {
      RaisesPrefix(a, n + 1);
      assert a[..n + 1][..n] == a[..n];
    } else {
      assert a[..n] == a;
    }
  }

  /** No wait comes before the first request. */
  lemma NoWaitBeforeFirstRequest(a: seq<Attempt>)
    requires a != []
    ensures Failover(a).slept != [] && !Failover(a).slept[0]
  {
    FailoverMeetsPolicy(a);
    assert a[..0] == [];
  }

  /** A server that only ever answers with a non-200 status keeps the loop
      running through every outcome, without a single wait: the counter never
      moves. */
  lemma {:induction false} EndlessNon200(n: nat)
    ensures Failover(seq(n, _ => Non200)) == Trace(Pending, n, seq(n, _ => false))
  {
    var a := seq(n, _ => Non200);
    var t := Failover(a);
    FailoverMeetsPolicy(a);
    NoRaises(a);
    assert t.fetch.Pending?;
    forall k | 0 <= k < n
      ensures !t.slept[k]
    {
      NoRaises(a[..k]);
    }
  }

  lemma {:induction false} NoRaises(s: seq<Attempt>)
    requires forall k :: 0 <= k < |s| ==> s[k] == Non200
    ensures Raises(s) == 0
  {
    if s != [] {
      NoRaises(s[..|s| - 1]);
    }
  }

  /** One failed request followed by a 200 answer returns that answer after two
      requests, the second one after a wait; no third request is made. */
  lemma SecondAttemptSucceeds(q: seq<Quote>, rest: seq<Attempt>)
    ensures Failover([Raised, Success(q)] + rest) == Trace(Fetched(q), 2, [false, true])
  {
    var a := [Raised, Success(q)] + rest;
    assert a[0] == Raised && a[1] == Success(q);
    assert [] + [false] == [false] && [false] + [true] == [false, true];
    assert Continue(a, 0, 0, []) == Continue(a, 1, 1, [false]);
    assert Continue(a, 1, 1, [false]) == Trace(Fetched(q), 2, [false, true]);
  }

  /** The loop of `get_quote_with_failover`. It sends one "3 attempts have
      failed" message (naming the loaded symbols) when it gives up, and
      nothing otherwise. The loop is bounded by the outcome sequence: with no
      outcome left it stops as Pending. */
  method GetQuoteWithFailover(loaded: seq<string>, attempts: seq<Attempt>)
    returns (fetch: Fetch, consumed: nat, slept: seq<bool>, sent: seq<Message>)
    ensures Trace(fetch, consumed, slept) == Failover(attempts)
    ensures sent == if fetch.GaveUp? then [AttemptsFailed(loaded)] else []
  {
    var retry := 0;
    consumed, slept, sent := 0, [], [];
    while retry < 3
      invariant consumed <= |attempts| && retry <= 3
      invariant Continue(attempts, consumed, retry, slept) == Failover(attempts)
      invariant sent == if retry == 3 then [AttemptsFailed(loaded)] else []
      decreases |attempts| - consumed
    {
      if consumed == |attempts| {
        fetch := Pending;
        return;
      }
      slept := slept + [retry > 0];
      var outcome := attempts[consumed];
      consumed := consumed + 1;
      match outcome
      case Success(q) =>
        fetch := Fetched(q);
        return;
      case Non200 =>
      case Raised =>
        retry := retry + 1;
        if retry > 2 {
          sent := [AttemptsFailed(loaded)];
        }
    }
    fetch := GaveUp;
  }
}
