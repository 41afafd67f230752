/** The overload policy of the audio pull loop: what one poll of the
    device decides, which poll of a feed ends the loop, and which device
    calls the loop makes on the way. */
module Overload {
  import opened Capture

  /** Decision taken on one poll of the device. */
  datatype Poll =
    | Overloaded  // more than two steps have piled up: clear and poll again
    | Ready       // at least one step is available: clear and return it
    | Waiting     // not enough yet: sleep and poll again

  /** The per-poll decision; the overload test comes first. A poll ends the
      loop exactly when the amount is between one and two steps. */
  function Decide(available: int, step: int): (d: Poll)
    ensures d == Ready <==> step <= available <= 2 * step
    ensures d == Overloaded <==> 2 * step < available
  {
    if available > 2 * step then Overloaded
    else if available >= step then Ready
    else Waiting
  }

  /** Index of the first poll of `feed` that ends the pull loop, or `|feed|`
      when none does. */
  function FirstReady<S>(feed: seq<seq<S>>, step: int): (k: nat)
    ensures k <= |feed|
    ensures forall i :: 0 <= i < k ==> Decide(|feed[i]|, step) != Ready
    ensures k < |feed| ==> Decide(|feed[k]|, step) == Ready
    decreases |feed|
  {
    if feed == [] then 0
    else if Decide(|feed[0]|, step) == Ready then 0
    else 1 + FirstReady(feed[1..], step)
  }

  /** The first ready poll is the one before which no poll was ready. */
  lemma FirstReadyAt<S>(feed: seq<seq<S>>, step: int, k: nat)
    requires k < |feed| && Decide(|feed[k]|, step) == Ready
    requires forall i :: 0 <= i < k ==> Decide(|feed[i]|, step) != Ready
    ensures FirstReady(feed, step) == k
  {
  }

  /** Device calls of one poll: a `get`, followed by a `clear` unless the
      poll waits. */
  function PollCalls(available: int, step: int, ms: int): seq<DeviceCall>
  {
    [GetCall(ms)] + (if Decide(available, step) == Waiting then [] else [ClearCall])
  }

  /** Device calls of the first `n` polls of `feed`, in order. */
  function PullCalls<S>(feed: seq<seq<S>>, n: nat, step: int, ms: int): seq<DeviceCall>
    requires n <= |feed|
  {
    if n == 0 then []
    else PullCalls(feed, n - 1, step, ms) + PollCalls(|feed[n - 1]|, step, ms)
  }

  /** Number of `clear` calls in a call log. */
  function Clears(calls: seq<DeviceCall>): nat
    decreases |calls|
  {
    if calls == [] then 0
    else Clears(calls[..|calls| - 1]) + (if calls[|calls| - 1] == ClearCall then 1 else 0)
  }

  /** Number of overloaded polls among the first `n` polls of `feed`. */
  function Overloads<S>(feed: seq<seq<S>>, n: nat, step: int): nat
    requires n <= |feed|
  {
    if n == 0 then 0
    else Overloads(feed, n - 1, step) + (if Decide(|feed[n - 1]|, step) == Overloaded then 1 else 0)
  }

  lemma {:induction false} ClearsAppend(a: seq<DeviceCall>, b: seq<DeviceCall>)
    ensures Clears(a + b) == Clears(a) + Clears(b)
    decreases |b|
  {
    if b == [] {
      assert a + b == a;
    } else {
      var b' := b[..|b| - 1];
      assert (a + b)[..|a + b| - 1] == a + b';
      ClearsAppend(a, b');
    }
  }

  /** Every overloaded poll costs exactly one `clear`, and so does the poll
      that ends the loop: a pull that stopped at poll `k` made one clear per
      overload before it, plus one. */
  lemma PullClears<S>(feed: seq<seq<S>>, step: int, ms: int)
    requires FirstReady(feed, step) < |feed|
    ensures var k := FirstReady(feed, step);
      Clears(PullCalls(feed, k + 1, step, ms)) == Overloads(feed, k, step) + 1
  {
    var k := FirstReady(feed, step);
    WaitsAndOverloads(feed, k, step, ms);
    ClearsAppend(PullCalls(feed, k, step, ms), PollCalls(|feed[k]|, step, ms));
    assert PollCalls(|feed[k]|, step, ms) == [GetCall(ms)] + [ClearCall];
    ClearsAppend([GetCall(ms)], [ClearCall]);
    assert Clears([GetCall(ms)]) == Clears([GetCall(ms)][..0]) + 0;
    assert Clears([ClearCall]) == Clears([ClearCall][..0]) + 1;
  }

  /** Before the loop ends, only overloaded polls issue a `clear`. */
  lemma {:induction false} WaitsAndOverloads<S>(feed: seq<seq<S>>, n: nat, step: int, ms: int)
    requires n <= |feed|
    requires forall i :: 0 <= i < n ==> Decide(|feed[i]|, step) != Ready
    ensures Clears(PullCalls(feed, n, step, ms)) == Overloads(feed, n, step)
  {
    if n > 0 {
      var c := PollCalls(|feed[n - 1]|, step, ms);
      WaitsAndOverloads(feed, n - 1, step, ms);
      ClearsAppend(PullCalls(feed, n - 1, step, ms), c);
      assert Clears([GetCall(ms)]) == Clears([GetCall(ms)][..0]) + 0;
      if Decide(|feed[n - 1]|, step) == Overloaded {
        ClearsAppend([GetCall(ms)], [ClearCall]);
        assert Clears([ClearCall]) == Clears([ClearCall][..0]) + 1;
      } else {
        assert c == [GetCall(ms)];
      }
    }
  }
}
