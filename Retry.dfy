// callGeminiWithRetry (server.js): a bounded retry loop around one upstream
// call. The upstream call is an oracle: `script[i]` is what its (i+1)-th
// invocation does. Instead of sleeping, the loop records the delays it asks for.
module Retry {
  import opened Js

  /** What one invocation of the upstream call does: resolve, or throw an error whose `message` may be absent. */
  datatype CallOutcome<R> = Returned(value: R) | Threw(message: Option<string>)

  /** How one run of the retry loop settles. */
  datatype RelayOutcome<R> =
    | Resolved(value: R)                 // the value of the attempt that succeeded, unchanged
    | Rethrown(message: Option<string>)  // a non-overload error, rethrown as it was
    | Overloaded                         // the fixed user-facing error after the last overloaded attempt
    | NoAttempt                          // maxRetries <= 0: the loop never runs and the call resolves to undefined

  /** The outcome, the number of upstream calls made and the delays (in ms) waited, in order. */
  datatype Trace<R> = Trace(outcome: RelayOutcome<R>, calls: nat, waits: seq<nat>)

  const DefaultMaxRetries: int := 3

  const OverloadedMessage: string := "Gemini AI đang quá tải. Vui lòng thử lại sau vài giây. 🔄"

  /** `error.message && error.message.includes('overloaded')`: case-sensitive, and false for an absent message. */
  predicate IsOverloaded(message: Option<string>)
  {
    message.Some? && Includes(message.value, "overloaded")
  }

  predicate OverloadThrow<R>(o: CallOutcome<R>)
  {
    o.Threw? && IsOverloaded(o.message)
  }

  /** The delay before attempt i + 1 after attempt i was overloaded: 2000 * (i + 1) ms, growing linearly. */
  function Backoff(i: nat): (ms: nat)
    ensures ms >= 2000 && ms % 2000 == 0
    ensures ms / 2000 == i + 1
  {
    2000 * (i + 1)
  }

  /** How an attempt that ends the loop settles it. */
  function Settled<R>(o: CallOutcome<R>): RelayOutcome<R>
  {
    match o
    case Returned(v) => Resolved(v)
    case Threw(m) => if IsOverloaded(m) then Overloaded else Rethrown(m)
  }

  /** The run of the loop from attempt i on; `calls` counts every attempt since the first. */
  function Attempts<R>(script: seq<CallOutcome<R>>, maxRetries: int, i: nat): Trace<R>
    requires maxRetries <= |script|
    decreases maxRetries - i
  {
    if i >= maxRetries then Trace(NoAttempt, i, [])
    else match script[i]
      case Returned(v) => Trace(Resolved(v), i + 1, [])
      case Threw(m) =>
        if !IsOverloaded(m) then Trace(Rethrown(m), i + 1, [])
        else if i == maxRetries - 1 then Trace(Overloaded, i + 1, [])
        else
          var rest := Attempts(script, maxRetries, i + 1);
          Trace(rest.outcome, rest.calls, [Backoff(i)] + rest.waits)
  }

  /** The whole run of `callGeminiWithRetry(apiCall, maxRetries)`. */
  function Relay<R>(script: seq<CallOutcome<R>>, maxRetries: int): Trace<R>
    requires maxRetries <= |script|
  {
    Attempts(script, maxRetries, 0)
  }

  /** The loop of server.js, with `continue` after a wait and early exits on success or on a final error. */
  method CallGeminiWithRetry<R>(script: seq<CallOutcome<R>>, maxRetries: int)
      returns (outcome: RelayOutcome<R>, calls: nat, waits: seq<nat>)
    requires maxRetries <= |script|
    ensures Trace(outcome, calls, waits) == Relay(script, maxRetries)
  {
    waits := [];
    var i: nat := 0;
    while i < maxRetries
      invariant i == 0 || i < maxRetries
      invariant |waits| == i
      invariant Relay(script, maxRetries) == WithEarlierWaits(waits, Attempts(script, maxRetries, i))
    {
      match script[i] {
        case Returned(v) =>
          assert Attempts(script, maxRetries, i) == Trace(Resolved(v), i + 1, []);
          return Resolved(v), i + 1, waits;
        case Threw(m) =>
          var overloaded := IsOverloaded(m);
          var lastAttempt := i == maxRetries - 1;
          if overloaded && !lastAttempt {
            ghost var rest := Attempts(script, maxRetries, i + 1);
            assert Attempts(script, maxRetries, i) == Trace(rest.outcome, rest.calls, [Backoff(i)] + rest.waits);
            assert waits + ([Backoff(i)] + rest.waits) == (waits + [Backoff(i)]) + rest.waits;
            waits := waits + [Backoff(i)];
            i := i + 1;
            continue;
          }
          if overloaded {
            assert Attempts(script, maxRetries, i) == Trace(Overloaded, i + 1, []);
            return Overloaded, i + 1, waits;
          }
          assert Attempts(script, maxRetries, i) == Trace(Rethrown(m), i + 1, []);
          return Rethrown(m), i + 1, waits;
      }
    }
    return NoAttempt, 0, waits;
  }

  /** A trace of the later attempts, preceded by the waits already made. */
  function WithEarlierWaits<R>(earlier: seq<nat>, t: Trace<R>): Trace<R>
  {
    Trace(t.outcome, t.calls, earlier + t.waits)
  }

  // ---------------------------------------------------------------------------
  // What the loop promises

  /**
   * From attempt i on: every attempt before the last one made was an
   * overload error followed by a wait of Backoff of its index; the last
   * attempt settles the loop, and it is an overload error only when it was
   * the final allowed attempt.
   */
  lemma {:induction false} AttemptsShape<R>(script: seq<CallOutcome<R>>, maxRetries: int, i: nat)
    requires i < maxRetries <= |script|
    ensures var t := Attempts(script, maxRetries, i);
      && i < t.calls <= maxRetries
      && |t.waits| == t.calls - 1 - i
      && (forall k :: 0 <= k < |t.waits| ==> t.waits[k] == Backoff(i + k))
      && (forall j :: i <= j < t.calls - 1 ==> OverloadThrow(script[j]))
      && t.outcome == Settled(script[t.calls - 1])
      && (OverloadThrow(script[t.calls - 1]) ==> t.calls == maxRetries)
    decreases maxRetries - i
  {
    if OverloadThrow(script[i]) && i < maxRetries - 1 {
      AttemptsShape(script, maxRetries, i + 1);
      var rest := Attempts(script, maxRetries, i + 1);
      var t := Attempts(script, maxRetries, i);
      assert t.waits == [Backoff(i)] + rest.waits;
      forall k | 0 <= k < |t.waits| ensures t.waits[k] == Backoff(i + k) {
        if k > 0 {
          assert t.waits[k] == rest.waits[k - 1];
        }
      }
    }
  }

  /**
   * The whole run: with maxRetries <= 0 nothing is called and the result is
   * undefined; otherwise between 1 and maxRetries calls are made, all but the
   * last were overload errors, the waits are 2000, 4000, ... one per retry,
   * and the last call decides the outcome.
   */
  lemma RelayShape<R>(script: seq<CallOutcome<R>>, maxRetries: int)
    requires maxRetries <= |script|
    ensures var t := Relay(script, maxRetries);
      && (maxRetries <= 0 ==> t == Trace(NoAttempt, 0, []))
      && (maxRetries > 0 ==>
          && 1 <= t.calls <= maxRetries
          && |t.waits| == t.calls - 1
          && (forall k :: 0 <= k < |t.waits| ==> t.waits[k] == 2000 * (k + 1))
          && (forall j :: 0 <= j < t.calls - 1 ==> OverloadThrow(script[j]))
          && t.outcome == Settled(script[t.calls - 1])
          && (OverloadThrow(script[t.calls - 1]) ==> t.calls == maxRetries))
  {
    if maxRetries > 0 {
      AttemptsShape(script, maxRetries, 0);
    }
  }

  /** The recorded waits strictly increase. */
  lemma RelayWaitsIncrease<R>(script: seq<CallOutcome<R>>, maxRetries: int)
    requires maxRetries <= |script|
    ensures var w := Relay(script, maxRetries).waits;
      forall a, b :: 0 <= a < b < |w| ==> w[a] < w[b]
  {
    RelayShape(script, maxRetries);
  }

  /** A successful attempt's value is returned unchanged and ends the loop: nothing after it is called. */
  lemma RelaySuccessStops<R>(script: seq<CallOutcome<R>>, maxRetries: int, i: nat)
    requires i < maxRetries <= |script|
    requires script[i].Returned?
    requires forall j :: 0 <= j < i ==> OverloadThrow(script[j])
    ensures Relay(script, maxRetries).outcome == Resolved(script[i].value)
    ensures Relay(script, maxRetries).calls == i + 1
  {
    RelayShape(script, maxRetries);
    var t := Relay(script, maxRetries);
    assert !OverloadThrow(script[i]);
    assert t.calls - 1 >= i;
  }

  /** A first error that is not an overload is rethrown unchanged after one call, without waiting. */
  lemma RelayOtherErrorPropagates<R>(script: seq<CallOutcome<R>>, maxRetries: int)
    requires 1 <= maxRetries <= |script|
    requires script[0].Threw? && !IsOverloaded(script[0].message)
    ensures Relay(script, maxRetries) == Trace(Rethrown(script[0].message), 1, [])
  {
  }

  /**
   * The fixed overload error is raised exactly when all maxRetries attempts
   * were overload errors; the raw upstream message is then never surfaced.
   */
  lemma {:induction false} RelayOverloadedIff<R>(script: seq<CallOutcome<R>>, maxRetries: int)
    requires maxRetries <= |script|
    ensures Relay(script, maxRetries).outcome == Overloaded <==>
      maxRetries >= 1 && forall j :: 0 <= j < maxRetries ==> OverloadThrow(script[j])
    ensures Relay(script, maxRetries).outcome == Overloaded ==>
      Relay(script, maxRetries).calls == maxRetries && |Relay(script, maxRetries).waits| == maxRetries - 1
  {
    RelayShape(script, maxRetries);
    var t := Relay(script, maxRetries);
    if maxRetries >= 1 && forall j :: 0 <= j < maxRetries ==> OverloadThrow(script[j]) {
      assert OverloadThrow(script[t.calls - 1]);
    }
    if t.outcome == Overloaded {
      assert OverloadThrow(script[t.calls - 1]);
    }
  }

  /** Two overload errors, then a success, with the default three attempts: two waits of 2 s and 4 s. */
  lemma TwoOverloadsThenSuccess<R>(first: string, second: string, v: R)
    requires Includes(first, "overloaded") && Includes(second, "overloaded")
    ensures Relay([Threw(Some(first)), Threw(Some(second)), Returned(v)], DefaultMaxRetries)
         == Trace(Resolved(v), 3, [2000, 4000])
  {
  }
}
