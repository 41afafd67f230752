/** Session configuration of the speech front end: the `app_params` record,
    its defaults, the conversion of durations to sample counts and the
    line-commit cadence derived from them. */
module Params {

  /** Sample rate (samples per second) the inference engine requires. */
  const SampleRate: int := 16000

  /** Length of the zero-filled buffers allocated when a realtime session starts. */
  const InitialBufferMs: int := 30000

  function Min(a: int, b: int): int { if a <= b then a else b }

  function Max(a: int, b: int): int { if a >= b then a else b }

  /** The `app_params` record: three durations in milliseconds, the capture
      device id, the model path and the optional input WAV path. */
  datatype AppParams = AppParams(
    stepMs: int,
    lengthMs: int,
    keepMs: int,
    captureId: int,
    model: string,
    inputWav: string)

  /** The record as default-initialised: step 3000 ms, window 10000 ms,
      keep 200 ms, default capture device, no model and no input file. */
  function DefaultParams(): (p: AppParams)
    ensures ValidTiming(p)
    ensures p.model == "" && p.inputWav == ""
    ensures p.captureId < 0
  {
    AppParams(3000, 10000, 200, -1, "", "")
  }

  /** The durations a session can run with: a positive step, and
      keep <= step <= length. */
  ghost predicate ValidTiming(p: AppParams)
  {
    0 < p.stepMs && 0 <= p.keepMs <= p.stepMs <= p.lengthMs
  }

  /** Number of samples in `ms` milliseconds at the engine's sample rate.
      The rate is a whole multiple of 1000, so the conversion is exact. */
  function SamplesFor(ms: int): (n: int)
    ensures n == ms * (SampleRate / 1000)
    ensures 0 <= ms ==> 0 <= n
  {
    ms * SampleRate / 1000
  }

  lemma SamplesForMonotone(a: int, b: int)
    requires a <= b
    ensures SamplesFor(a) <= SamplesFor(b)
  {
  }

  /** How many inference cycles make one committed output line:
      `max(1, length / step - 1)`. When at least two steps fit in the window,
      a line is committed one cycle before a whole window of fresh steps. */
  function LinesEvery(lengthMs: int, stepMs: int): (n: int)
    requires 0 < stepMs
    ensures 1 <= n
  {
    Max(1, lengthMs / stepMs - 1)
  }

  /** When at least two steps fit in the window, `n + 1` steps fit in it and
      `n + 2` do not; otherwise a line is committed every cycle. */
  lemma LinesEveryBracket(lengthMs: int, stepMs: int)
    requires 0 < stepMs
    ensures var n := LinesEvery(lengthMs, stepMs);
      && (2 * stepMs <= lengthMs ==> (n + 1) * stepMs <= lengthMs < (n + 2) * stepMs)
      && (lengthMs < 3 * stepMs ==> n == 1)
  {
  }

  /** With the default durations a line is committed every second cycle. */
  lemma DefaultCadence()
    ensures LinesEvery(DefaultParams().lengthMs, DefaultParams().stepMs) == 2
  {
  }

  /** Number of cycles among the first `n` whose count is a multiple of
      `k`: the number of lines committed after `n` cycles. */
  function LinesCommitted(n: nat, k: int): nat
    requires 0 < k
  {
    if n == 0 then 0 else LinesCommitted(n - 1, k) + (if n % k == 0 then 1 else 0)
  }

  /** Euclidean division is determined by its defining equation. */
  lemma DivUnique(n: int, k: int, q: int, r: int)
    requires 0 < k && 0 <= r < k && n == q * k + r
    ensures n / k == q
  {
    var q', r' := n / k, n % k;
    var d := q - q';
    assert d * k == r' - r by {
      assert n == q' * k + r';
    }
    if d >= 1 {
      MulAtLeast(d, k);
    } else if d <= -1 {
      MulAtLeast(-d, k);
    }
  }

  lemma MulAtLeast(d: int, k: int)
    requires 1 <= d && 0 < k
    ensures k <= d * k
  {
  }

  /** After `n` cycles with a line committed every `k`-th one, exactly
      `n / k` lines have been committed. */
  lemma {:induction false} LinesCommittedQuotient(n: nat, k: int)
    requires 0 < k
    ensures LinesCommitted(n, k) == n / k
  {
    if n > 0 {
      LinesCommittedQuotient(n - 1, k);
      var q, r := (n - 1) / k, (n - 1) % k;
      assert n - 1 == q * k + r;
      if r + 1 == k {
        DivUnique(n, k, q + 1, 0);
        assert n % k == 0;
      } else {
        DivUnique(n, k, q, r + 1);
        assert n % k == r + 1;
      }
    }
  }
}
