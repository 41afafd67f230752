/** The audio capture device as the cadence thread sees it. The device
    itself (its capture thread and internal queue) is outside the model: what
    matters is the answer each `get` returns, which is fixed in advance as a
    finite feed, and the order of the calls made on it, which is logged. */
module Capture {

  /** One call made on the device. */
  datatype DeviceCall =
    | InitCall(captureId: int, sampleRate: int)
    | ResumeCall
    | PauseCall
    | GetCall(ms: int)
    | ClearCall

  class CaptureDevice<S> {
    /** Whether opening the device succeeds. */
    const initOk: bool
    /** The answers the successive `get` calls return, in order. */
    var feed: seq<seq<S>>
    /** Every call made on the device so far, in order. */
    var calls: seq<DeviceCall>

    constructor (initOk: bool, feed: seq<seq<S>>)
      ensures this.initOk == initOk && this.feed == feed && calls == []
    {
      this.initOk := initOk;
      this.feed := feed;
      calls := [];
    }

    method Init(captureId: int, sampleRate: int) returns (ok: bool)
      modifies this`calls
      ensures ok == initOk
      ensures calls == old(calls) + [InitCall(captureId, sampleRate)]
    {
      ok := initOk;
      calls := calls + [InitCall(captureId, sampleRate)];
    }

    method Resume()
      modifies this`calls
      ensures calls == old(calls) + [ResumeCall]
    {
      calls := calls + [ResumeCall];
    }

    method Pause()
      modifies this`calls
      ensures calls == old(calls) + [PauseCall]
    {
      calls := calls + [PauseCall];
    }

    /** The next answer of the feed; `ms` is only logged with the call. */
    method Get(ms: int) returns (chunk: seq<S>)
      requires feed != []
      modifies this`feed, this`calls
      ensures chunk == old(feed)[0] && feed == old(feed)[1..]
      ensures calls == old(calls) + [GetCall(ms)]
    {
      chunk := feed[0];
      feed := feed[1..];
      calls := calls + [GetCall(ms)];
    }

    /** Logs a clear; what it discards shows only in the feed's later answers. */
    method Clear()
      modifies this`calls
      ensures calls == old(calls) + [ClearCall]
    {
      calls := calls + [ClearCall];
    }
  }
}
