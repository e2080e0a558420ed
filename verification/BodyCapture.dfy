/** The response writer that passes everything on to the client and keeps the first bytes of the body
    for the cache, up to a limit. */
module BodyCapture {
  type Bytes = seq<bv8>

  // What the upstream does to a response: any number of header and body writes, in any order.
  datatype Call = WriteHeader(code: int) | Write(chunk: Bytes)

  datatype Capture = Capture(status: int, body: Bytes, exceeded: bool, sent: Bytes) {
    predicate Cacheable() {
      !exceeded && |body| > 0
    }
  }

  const Blank := Capture(0, [], false, [])

  const OK := 200

  function Wrote(max: int, c: Capture, chunk: Bytes): Capture {
    var status := if c.status == 0 then OK else c.status;
    var sent := c.sent + chunk;
    if c.exceeded || max <= 0 then Capture(status, c.body, c.exceeded, sent)
    else if |c.body| >= max then Capture(status, c.body, true, sent)
    else if |chunk| > max - |c.body| then Capture(status, c.body + chunk[..max - |c.body|], true, sent)
    else Capture(status, c.body + chunk, false, sent)
  }

  function Step(max: int, c: Capture, call: Call): Capture {
    match call
    case WriteHeader(code) => c.(status := code)
    case Write(chunk) => Wrote(max, c, chunk)
  }

  function After(max: int, calls: seq<Call>): Capture {
    if calls == [] then Blank else Step(max, After(max, calls[..|calls| - 1]), calls[|calls| - 1])
  }

  class BodyCaptureWriter {
    var status: int
    var body: Bytes
    const maxBodyBytes: int
    var captureExceeded: bool
    var sent: Bytes  // what the wrapped writer has received

    ghost function State(): Capture
      reads this
    {
      Capture(status, body, captureExceeded, sent)
    }

    constructor (maxBodyBytes: int)
      ensures State() == Blank && this.maxBodyBytes == maxBodyBytes
    {
      this.maxBodyBytes := maxBodyBytes;
      status, body, captureExceeded, sent := 0, [], false, [];
    }

    method Cacheable() returns (eligible: bool)
      ensures eligible == State().Cacheable()
    {
      eligible := !captureExceeded && |body| > 0;
    }

    method WriteHeader(statusCode: int)
      modifies this
      ensures State() == Step(maxBodyBytes, old(State()), Call.WriteHeader(statusCode))
    {
      status := statusCode;
    }

    method Write(b: Bytes)
      modifies this
      ensures State() == Step(maxBodyBytes, old(State()), Call.Write(b))
    {
      if status == 0 {
        status := OK;
      }
      if !captureExceeded && maxBodyBytes > 0 {
        var remaining := maxBodyBytes - |body|;
        if remaining <= 0 {
          captureExceeded := true;
        } else if |b| > remaining {
          body := body + b[..remaining];
          captureExceeded := true;
        } else {
          body := body + b;
        }
      }
      sent := sent + b;
    }

    // The upstream drives the writer through a whole response.
    method Replay(calls: seq<Call>)
      requires State() == Blank
      modifies this
      ensures State() == After(maxBodyBytes, calls)
    {
      for i := 0 to |calls|
        invariant State() == After(maxBodyBytes, calls[..i])
      {
        assert calls[..i + 1][..i] == calls[..i];
        match calls[i] {
          case WriteHeader(code) => WriteHeader(code);
          case Write(chunk) => Write(chunk);
        }
      }
      assert calls[..|calls|] == calls;
    }
  }

  // ------------------------------------------------------------ what was captured

  // The body the upstream wrote.
  function Written(calls: seq<Call>): Bytes {
    if calls == [] then []
    else
      var before := Written(calls[..|calls| - 1]);
      match calls[|calls| - 1]
      case WriteHeader(_) => before
      case Write(chunk) => before + chunk
  }

  function Limited(max: nat, body: Bytes): Bytes {
    if |body| <= max then body else body[..max]
  }

  // Some write, even an empty one, began when the buffer was already full.
  ghost predicate BeganFull(max: int, calls: seq<Call>) {
    exists i :: 0 <= i < |calls| && calls[i].Write? && |Written(calls[..i])| >= max
  }

  ghost predicate Overflowed(max: int, calls: seq<Call>) {
    |Written(calls)| > max || BeganFull(max, calls)
  }

  lemma BeganFullLast(max: int, calls: seq<Call>)
    requires calls != []
    ensures var before := calls[..|calls| - 1];
      BeganFull(max, calls) <==>
        BeganFull(max, before) || (calls[|calls| - 1].Write? && |Written(before)| >= max)
  {
    var before := calls[..|calls| - 1];
    forall i | 0 <= i < |before| ensures before[..i] == calls[..i] && before[i] == calls[i] {}
    if BeganFull(max, before) {
      var i :| 0 <= i < |before| && before[i].Write? && |Written(before[..i])| >= max;
      assert calls[i].Write? && |Written(calls[..i])| >= max;
    }
  }

  lemma LimitedAppend(max: nat, body: Bytes, chunk: Bytes)
    ensures |body| >= max ==> Limited(max, body + chunk) == Limited(max, body)
    ensures |body| < max ==>
      Limited(max, body + chunk) == body + Limited(max - |body|, chunk)
  {}

  // Once a write began with the buffer full, the body has reached the limit.
  lemma {:induction false} FullOnceLonger(max: int, calls: seq<Call>)
    requires BeganFull(max, calls)
    ensures |Written(calls)| >= max
  {
    BeganFullLast(max, calls);
    if BeganFull(max, calls[..|calls| - 1]) {
      FullOnceLonger(max, calls[..|calls| - 1]);
    }
  }

  /** With a positive limit, whatever the writes, the buffer holds exactly the first bytes of the body
      up to the limit, and the overflow mark is set exactly when the body is longer than the limit or
      some write began with the buffer full. */
  lemma {:induction false} CaptureIsExact(max: nat, calls: seq<Call>)
    requires max > 0
    ensures After(max, calls).body == Limited(max, Written(calls))
    ensures After(max, calls).exceeded <==> Overflowed(max, calls)
  {
    if calls != [] {
      var before, call := calls[..|calls| - 1], calls[|calls| - 1];
      CaptureIsExact(max, before);
      BeganFullLast(max, calls);
      if BeganFull(max, before) {
        FullOnceLonger(max, before);
      }
      if call.Write? {
        LimitedAppend(max, Written(before), call.chunk);
      }
    }
  }

  /** Capturing never gets in the way of the client. */
  lemma {:induction false} ClientGetsAll(max: int, calls: seq<Call>)
    ensures After(max, calls).sent == Written(calls)
  {
    if calls != [] {
      ClientGetsAll(max, calls[..|calls| - 1]);
    }
  }

  lemma {:induction false} NoLimitNoCapture(max: int, calls: seq<Call>)
    requires max <= 0
    ensures After(max, calls).body == [] && !After(max, calls).exceeded
  {
    if calls != [] {
      NoLimitNoCapture(max, calls[..|calls| - 1]);
    }
  }

  /** A response is cacheable exactly when its body is not empty, fits the limit, and no write began
      after the limit was reached; and then the buffer is the whole body, as the client saw it. */
  lemma CacheableIsWhole(max: int, calls: seq<Call>)
    ensures After(max, calls).Cacheable() <==>
      max > 0 && 0 < |Written(calls)| <= max && !BeganFull(max, calls)
    ensures After(max, calls).Cacheable() ==>
      After(max, calls).body == Written(calls) == After(max, calls).sent
  {
    ClientGetsAll(max, calls);
    if max > 0 {
      CaptureIsExact(max, calls);
    } else {
      NoLimitNoCapture(max, calls);
    }
  }

  // A body of exactly the limit is cached, unless an empty write follows it.
  lemma EmptyWriteCounts(chunk: Bytes)
    requires |chunk| > 0
    ensures After(|chunk|, [Write(chunk)]).Cacheable()
    ensures !After(|chunk|, [Write(chunk), Write([])]).Cacheable()
  {}

  // ------------------------------------------------------------ the recorded status

  predicate IsHeader(calls: seq<Call>, i: int) {
    0 <= i < |calls| && calls[i].WriteHeader?
  }

  /** The recorded status is the code of the last header write, whatever is written after it. */
  lemma {:induction false} StatusIsLastHeader(max: int, calls: seq<Call>, i: int)
    requires IsHeader(calls, i) && (forall j :: IsHeader(calls, j) ==> j <= i) && calls[i].code != 0
    ensures After(max, calls).status == calls[i].code
  {
    if i < |calls| - 1 {
      var before := calls[..|calls| - 1];
      assert !IsHeader(calls, |calls| - 1);
      assert forall j :: IsHeader(before, j) ==> IsHeader(calls, j);
      StatusIsLastHeader(max, before, i);
    }
  }

  /** Without a header write it is 200 once anything was written, and 0 when nothing happened at all. */
  lemma {:induction false} StatusWithoutHeader(max: int, calls: seq<Call>)
    requires forall i :: !IsHeader(calls, i)
    ensures After(max, calls).status == if calls == [] then 0 else OK
  {
    if calls != [] {
      var before := calls[..|calls| - 1];
      assert !IsHeader(calls, |calls| - 1);
      forall i ensures !IsHeader(before, i) {
        assert !IsHeader(calls, i);
      }
      StatusWithoutHeader(max, before);
    }
  }
}
