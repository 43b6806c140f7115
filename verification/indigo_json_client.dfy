/**
  The INDIGO JSON line client: connection with a bounded retry counter, a
  send that writes one newline-terminated JSON frame (or nothing when not
  connected), the listener's newline framing of the receive buffer, and
  dispatch of each line to the callback registered for its kind.
*/
module IndigoClient {
  import opened Wrappers
  import opened Text
  import opened Protocol

  /** Identifies a registered callback (the Python callable). */
  type CallbackId = nat

  /** Why an exception escapes `_dispatch` (which ends the listener thread). */
  datatype FaultReason =
    | NotAnObject     // `msg.get` on a decoded list, string, number, ...: AttributeError
    | UnhashableKind  // a list or object as the kind: `kind in self.callbacks` raises TypeError
    | LogCallArity    // the parse-failure handler calls `emit_log` with two arguments: TypeError

  /** What happens to one received line. */
  datatype Dispatched =
    | Invoked(callback: CallbackId, msg: map<string, Json>)
    | Unhandled(unhandled: Json)
    | ParseFailed(line: string)
    | Fault(reason: FaultReason)

  /** The message kind: `msg.get("action") or msg.get("name")`. */
  function Kind(fields: map<string, Json>): Json {
    var action := Get(fields, "action");
    if Truthy(action) then action else Get(fields, "name")
  }

  /** Routing of a decoded object by its kind. */
  function Route(callbacks: map<string, CallbackId>, fields: map<string, Json>): (d: Dispatched)
    ensures d.Invoked? <==> Kind(fields).JStr? && Kind(fields).s in callbacks
    ensures d.Invoked? ==> d.callback == callbacks[Kind(fields).s] && d.msg == fields
    ensures d.Fault? <==> Kind(fields).JArr? || Kind(fields).JObj?
    ensures !d.Fault? && !d.Invoked? ==> d == Unhandled(JObj(fields))
  {
    match Kind(fields)
    case JStr(k) => if k in callbacks then Invoked(callbacks[k], fields) else Unhandled(JObj(fields))
    case JArr(_) => Fault(UnhashableKind)
    case JObj(_) => Fault(UnhashableKind)
    case _ => Unhandled(JObj(fields))
  }

  /**
    `_dispatch` on one (stripped) line, with a parse failure logged and the
    loop continuing: the behaviour the handler is evidently written for.
  */
  function Dispatch(codec: Codec, callbacks: map<string, CallbackId>, line: string): (d: Dispatched)
    ensures d.ParseFailed? <==> codec.decode(line).None?
    ensures d.ParseFailed? ==> d.line == line
    ensures codec.decode(line).Some? && !codec.decode(line).value.JObj? ==> d == Fault(NotAnObject)
    ensures codec.decode(line).Some? && codec.decode(line).value.JObj? ==> d == Route(callbacks, codec.decode(line).value.fields)
  {
    match codec.decode(line)
    case None => ParseFailed(line)
    case Some(JObj(fields)) => Route(callbacks, fields)
    case Some(_) => Fault(NotAnObject)
  }

  /**
    `_dispatch` as written: the parse-failure handler's two-argument call to
    `emit_log` raises TypeError, which escapes the listener loop.
  */
  function DispatchAsWritten(codec: Codec, callbacks: map<string, CallbackId>, line: string): (d: Dispatched)
    ensures codec.decode(line).None? ==> d == Fault(LogCallArity)
    ensures codec.decode(line).Some? ==> d == Dispatch(codec, callbacks, line)
  {
    match codec.decode(line)
    case None => Fault(LogCallArity)
    case Some(_) => Dispatch(codec, callbacks, line)
  }

  /**
    Which parse-failure handler `_dispatch` runs: the code's, whose log call
    raises, or the evidently intended one, which logs the line and goes on.
  */
  datatype Handler = AsWritten | Intended

  /** `_dispatch(line.strip())` for one raw line of the buffer, under the given handler. */
  function DispatchLine(codec: Codec, callbacks: map<string, CallbackId>, h: Handler, raw: string): Dispatched {
    match h
    case AsWritten => DispatchAsWritten(codec, callbacks, Strip(raw))
    case Intended => Dispatch(codec, callbacks, Strip(raw))
  }

  /** A dispatch sequence that ended the listener. */
  predicate Faulted(out: seq<Dispatched>) {
    out != [] && out[|out| - 1].Fault?
  }

  /** `f` applied to each element in turn. */
  function MapSeq<T, U>(f: T -> U, s: seq<T>): (r: seq<U>)
    ensures |r| == |s| && forall i :: 0 <= i < |s| ==> r[i] == f(s[i])
  {
    seq(|s|, i requires 0 <= i < |s| => f(s[i]))
  }

  lemma MapSeqAppend<T, U>(f: T -> U, a: seq<T>, b: seq<T>)
    ensures MapSeq(f, a + b) == MapSeq(f, a) + MapSeq(f, b)
  {
    var l, x, y := MapSeq(f, a + b), MapSeq(f, a), MapSeq(f, b);
    forall i | 0 <= i < |a| ensures l[i] == x[i] {
      assert (a + b)[i] == a[i];
    }
    forall i | 0 <= i < |b| ensures l[|a| + i] == y[i] {
      assert (a + b)[|a| + i] == b[i];
    }
    assert l[..|a|] == x && l[|a|..] == y;
    assert l == l[..|a|] + l[|a|..];
  }

  /** The listener's per-line step as a value. */
  function Dispatcher(codec: Codec, callbacks: map<string, CallbackId>, h: Handler): string -> Dispatched {
    line => DispatchLine(codec, callbacks, h, line)
  }

  /** Every line dispatched on its own, as if none of them raised. */
  function DispatchEach(codec: Codec, callbacks: map<string, CallbackId>, h: Handler, lines: seq<string>): (ds: seq<Dispatched>)
    ensures |ds| == |lines| && forall i :: 0 <= i < |lines| ==> ds[i] == DispatchLine(codec, callbacks, h, lines[i])
  {
    MapSeq(Dispatcher(codec, callbacks, h), lines)
  }

  lemma DispatchEachAppend(codec: Codec, callbacks: map<string, CallbackId>, h: Handler, a: seq<string>, b: seq<string>)
    ensures DispatchEach(codec, callbacks, h, a + b) == DispatchEach(codec, callbacks, h, a) + DispatchEach(codec, callbacks, h, b)
  {
    MapSeqAppend(Dispatcher(codec, callbacks, h), a, b);
  }

  /** No result in the series is a fault. */
  predicate Clean(ds: seq<Dispatched>) {
    forall i :: 0 <= i < |ds| ==> !ds[i].Fault?
  }

  /** No result but the last is a fault. */
  predicate OnlyLastFaults(ds: seq<Dispatched>) {
    forall i :: 0 <= i < |ds| - 1 ==> !ds[i].Fault?
  }

  /** The results of a loop that stops at the first exception: everything up to and including the first fault. */
  function UpToFault(ds: seq<Dispatched>): (out: seq<Dispatched>)
    ensures |out| <= |ds| && out == ds[..|out|]
    ensures OnlyLastFaults(out)
    ensures |out| < |ds| ==> Faulted(out)
  {
    if ds == [] then []
    else if ds[0].Fault? then [ds[0]]
    else
      var rest := UpToFault(ds[1..]);
      var out := [ds[0]] + rest;
      assert out == ds[..|out|] by {
        assert ds[..|out|] == [ds[0]] + ds[1..][..|rest|];
      }
      assert OnlyLastFaults(out) by {
        forall i | 0 < i < |out| - 1 ensures !out[i].Fault? {
          assert out[i] == rest[i - 1];
        }
      }
      out
  }

  /** Being a prefix that ends at the first fault, or at the end, determines UpToFault's result. */
  lemma {:induction false} UpToFaultUnique(ds: seq<Dispatched>, out: seq<Dispatched>)
    requires |out| <= |ds| && out == ds[..|out|]
    requires OnlyLastFaults(out)
    requires |out| < |ds| ==> Faulted(out)
    ensures out == UpToFault(ds)
    decreases |ds|
  {
    if ds != [] && !ds[0].Fault? {
      assert out[0] == ds[0];
      assert out[1..] == ds[1..][..|out| - 1];
      UpToFaultUnique(ds[1..], out[1..]);
      assert out == [ds[0]] + out[1..];
    }
  }

  /** A series without a fault runs to its end. */
  lemma UpToFaultClean(ds: seq<Dispatched>)
    requires Clean(ds)
    ensures UpToFault(ds) == ds
  {
  }

  /** Nothing after the first fault is processed. */
  lemma UpToFaultStops(ds: seq<Dispatched>, more: seq<Dispatched>)
    requires Faulted(ds) && OnlyLastFaults(ds)
    ensures UpToFault(ds + more) == ds
  {
    assert (ds + more)[..|ds|] == ds;
    UpToFaultUnique(ds + more, ds);
  }

  /** A result that is not a fault is followed by the rest of the series. */
  lemma UpToFaultCons(d: Dispatched, ds: seq<Dispatched>)
    requires !d.Fault?
    ensures UpToFault([d] + ds) == [d] + UpToFault(ds)
  {
    assert ([d] + ds)[1..] == ds;
  }

  /**
    The listener's treatment of a series of complete lines: each stripped line
    is dispatched in order, and the first fault stops the loop.
  */
  function DispatchLines(codec: Codec, callbacks: map<string, CallbackId>, h: Handler, lines: seq<string>): (out: seq<Dispatched>)
    ensures |out| <= |lines|
    ensures forall i :: 0 <= i < |out| ==> out[i] == DispatchLine(codec, callbacks, h, lines[i])
    ensures OnlyLastFaults(out)
    ensures |out| < |lines| ==> Faulted(out)
  {
    UpToFault(DispatchEach(codec, callbacks, h, lines))
  }

  /** The characterisation in DispatchLines's contract determines its result. */
  lemma DispatchLinesUnique(codec: Codec, callbacks: map<string, CallbackId>, h: Handler, lines: seq<string>, out: seq<Dispatched>)
    requires |out| <= |lines|
    requires forall i :: 0 <= i < |out| ==> out[i] == DispatchLine(codec, callbacks, h, lines[i])
    requires OnlyLastFaults(out)
    requires |out| < |lines| ==> Faulted(out)
    ensures out == DispatchLines(codec, callbacks, h, lines)
  {
    var ds := DispatchEach(codec, callbacks, h, lines);
    assert out == ds[..|out|];
    UpToFaultUnique(ds, out);
  }

  /** Under the intended handler, a line that fails to parse is logged and the lines after it are still dispatched. */
  lemma ParseFailureContained(codec: Codec, callbacks: map<string, CallbackId>, line: string, more: seq<string>)
    requires codec.decode(Strip(line)).None?
    ensures DispatchLines(codec, callbacks, Intended, [line] + more) == [ParseFailed(Strip(line))] + DispatchLines(codec, callbacks, Intended, more)
  {
    DispatchEachAppend(codec, callbacks, Intended, [line], more);
    assert DispatchEach(codec, callbacks, Intended, [line]) == [ParseFailed(Strip(line))];
    UpToFaultCons(ParseFailed(Strip(line)), DispatchEach(codec, callbacks, Intended, more));
  }

  /**
    Under the code's handler, a line that fails to parse raises: the listener
    loop stops there, none of the lines after it is dispatched, and (by
    `Absorb`'s contract) the listener ends and the client is disconnected.
  */
  lemma ParseFailureEndsListenerAsWritten(codec: Codec, callbacks: map<string, CallbackId>, line: string, more: seq<string>)
    requires codec.decode(Strip(line)).None?
    ensures DispatchLines(codec, callbacks, AsWritten, [line] + more) == [Fault(LogCallArity)]
    ensures Faulted(DispatchLines(codec, callbacks, AsWritten, [line] + more))
  {
    var d := DispatchLine(codec, callbacks, AsWritten, line);
    assert d == Fault(LogCallArity);
    DispatchEachAppend(codec, callbacks, AsWritten, [line], more);
    assert DispatchEach(codec, callbacks, AsWritten, [line]) == [d];
    UpToFaultStops([d], DispatchEach(codec, callbacks, AsWritten, more));
  }

  /** A buffer whose first line fails to parse: framing cuts that line first, so the code's listener faults on it at once. */
  lemma UnparsableFirstLineFaults(codec: Codec, callbacks: map<string, CallbackId>, line: string, rest: string)
    requires '\n' !in line && codec.decode(Strip(line)).None?
    ensures DispatchLines(codec, callbacks, AsWritten, Frames(line + "\n" + rest).0) == [Fault(LogCallArity)]
  {
    var s := line + "\n" + rest;
    assert s == line + ['\n'] + rest;
    assert IndexOf(s, '\n') == Some(|line|) by {
      IndexOfConcat(line, '\n', rest);
    }
    assert s[..|line|] == line && s[|line| + 1..] == rest;
    assert Frames(s).0 == [line] + Frames(rest).0;
    ParseFailureEndsListenerAsWritten(codec, callbacks, line, Frames(rest).0);
  }

  /** The encodings of a series of messages, one per message. */
  function Encodings(codec: Codec, msgs: seq<Json>): (es: seq<string>)
    ensures |es| == |msgs| && forall i :: 0 <= i < |msgs| ==> es[i] == codec.encode(msgs[i])
  {
    seq(|msgs|, i requires 0 <= i < |msgs| => codec.encode(msgs[i]))
  }

  /** The frames `send` writes for a series of messages. */
  function FramesOf(codec: Codec, msgs: seq<Json>): (fs: seq<string>)
    ensures |fs| == |msgs| && forall i :: 0 <= i < |msgs| ==> fs[i] == codec.encode(msgs[i]) + "\n"
  {
    seq(|msgs|, i requires 0 <= i < |msgs| => codec.encode(msgs[i]) + "\n")
  }

  lemma {:induction false} ConcatFrames(codec: Codec, msgs: seq<Json>)
    ensures Concat(FramesOf(codec, msgs)) == Terminated(Encodings(codec, msgs))
    decreases |msgs|
  {
    if msgs != [] {
      var n := |msgs| - 1;
      ConcatFrames(codec, msgs[..n]);
      assert FramesOf(codec, msgs)[..n] == FramesOf(codec, msgs[..n]);
      assert Encodings(codec, msgs) == Encodings(codec, msgs[..n]) + [codec.encode(msgs[n])];
      TerminatedSnoc(Encodings(codec, msgs[..n]), codec.encode(msgs[n]));
    }
  }

  /**
    Round trip over the wire: the bytes written for a series of messages, fed to
    the listener, frame back into one line per message with nothing left
    buffered, and each line decodes to the message that was sent.
  */
  lemma WireRoundTrip(codec: Codec, msgs: seq<Json>)
    requires forall i :: 0 <= i < |msgs| ==> RoundTrips(codec, msgs[i])
    ensures Frames(Concat(FramesOf(codec, msgs))) == (Encodings(codec, msgs), "")
    ensures forall i :: 0 <= i < |msgs| ==> codec.decode(Strip(Encodings(codec, msgs)[i])) == Some(msgs[i])
  {
    ConcatFrames(codec, msgs);
    var es := Encodings(codec, msgs);
    forall l | l in es ensures '\n' !in l {
      var i :| 0 <= i < |es| && es[i] == l;
      assert LineSafe(codec.encode(msgs[i]));
    }
    assert Terminated(es) + "" == Terminated(es);
    FramesOfTerminated(es, "");
    forall i | 0 <= i < |msgs| ensures codec.decode(Strip(es[i])) == Some(msgs[i]) {
      assert LineSafe(codec.encode(msgs[i]));
      StripTrimmed(es[i]);
    }
  }

  /** A sent object whose kind names a registered callback reaches that callback, with the same fields, under either handler. */
  lemma SendThenDispatch(codec: Codec, callbacks: map<string, CallbackId>, h: Handler, fields: map<string, Json>)
    requires RoundTrips(codec, JObj(fields))
    requires Kind(fields).JStr? && Kind(fields).s in callbacks
    ensures var framed := Frames(codec.encode(JObj(fields)) + "\n");
      framed.1 == "" && DispatchLines(codec, callbacks, h, framed.0) == [Invoked(callbacks[Kind(fields).s], fields)]
  {
    var e := codec.encode(JObj(fields));
    WireRoundTrip(codec, [JObj(fields)]);
    assert Concat(FramesOf(codec, [JObj(fields)])) == e + "\n" by {
      assert FramesOf(codec, [JObj(fields)])[..0] == [];
    }
    assert Encodings(codec, [JObj(fields)]) == [e];
    assert LineSafe(e);
    StripTrimmed(e);
    var d := Invoked(callbacks[Kind(fields).s], fields);
    assert DispatchEach(codec, callbacks, h, [e]) == [d];
    UpToFaultCons(d, []);
  }

  class IndigoJsonClient {
    const host: string
    const port: int
    const codec: Codec
    /** `self.sock is not None`. */
    var sock: bool
    var connected: bool
    /** The listener thread is running. */
    var listening: bool
    /** The listener's receive buffer (a local of its loop, kept here between received chunks). */
    var rxBuffer: string
    var callbacks: map<string, CallbackId>
    var retryCount: nat
    var stopFlag: bool
    /** The frames written to the socket, in order. */
    var wire: seq<string>

    constructor (host: string, codec: Codec)
      ensures this.host == host && port == 7624 && this.codec == codec
      ensures !sock && !connected && !listening && rxBuffer == ""
      ensures callbacks == map[] && retryCount == 0 && !stopFlag && wire == []
    {
      this.host := host;
      port := 7624;
      this.codec := codec;
      sock, connected, listening, rxBuffer := false, false, false, "";
      callbacks, retryCount, stopFlag, wire := map[], 0, false, [];
    }

    /** `is_connected()`. */
    predicate IsConnected()
      reads this
    {
      connected && sock
    }

    /**
      `connect(max_retries)`: attempt `k` of this call succeeds exactly when
      `accept(k)`. Attempts stop at the first success or once the retry count
      reaches `maxRetries`; only success resets the count.
    */
    method Connect(maxRetries: int, accept: nat -> bool) returns (attempts: nat)
      modifies this`sock, this`connected, this`listening, this`rxBuffer, this`retryCount
      ensures attempts <= (if stopFlag || old(retryCount) >= maxRetries then 0 else maxRetries - old(retryCount))
      ensures forall k :: 0 <= k < attempts - 1 ==> !accept(k)
      ensures IsConnected() == connected
      ensures connected <==> attempts > 0 && accept(attempts - 1)
      ensures connected ==> sock && listening && rxBuffer == "" && retryCount == 0
      ensures !connected ==> attempts == (if stopFlag || old(retryCount) >= maxRetries then 0 else maxRetries - old(retryCount))
      ensures !connected ==> retryCount == old(retryCount) + attempts
      ensures !connected ==> sock == old(sock) && listening == old(listening) && rxBuffer == old(rxBuffer)
    {
      attempts := 0;
      while !stopFlag && retryCount < maxRetries
        invariant retryCount == old(retryCount) + attempts
        invariant forall k :: 0 <= k < attempts ==> !accept(k)
        invariant attempts > 0 ==> !stopFlag && old(retryCount) < maxRetries && retryCount <= maxRetries
        invariant sock == old(sock) && listening == old(listening) && rxBuffer == old(rxBuffer)
        decreases maxRetries - retryCount
      {
        attempts := attempts + 1;
        if accept(attempts - 1) {
          sock, connected, retryCount := true, true, 0;
          listening, rxBuffer := true, "";
          return;
        }
        retryCount := retryCount + 1;
      }
      connected := false;
    }

    /**
      `send(message, quiet)`: nothing when not connected or without a socket;
      otherwise one frame, the encoding plus a newline. A failed write clears
      `connected` and raises unless `quiet`.
    */
    method Send(message: Json, quiet: bool, writeOk: bool) returns (raised: bool)
      modifies this`wire, this`connected
      ensures !old(IsConnected()) ==> wire == old(wire) && connected == old(connected) && !raised
      ensures old(IsConnected()) && writeOk ==> wire == old(wire) + [codec.encode(message) + "\n"] && connected && !raised
      ensures old(IsConnected()) && !writeOk ==> wire == old(wire) && !connected && raised == !quiet
      ensures IsConnected() <==> old(IsConnected()) && writeOk
    {
      raised := false;
      if !connected || !sock {
        return;
      }
      var raw := codec.encode(message) + "\n";
      if writeOk {
        wire := wire + [raw];
      } else {
        connected := false;
        raised := !quiet;
      }
    }

    /**
      One pass of `_listen_loop` over a received chunk (`""` is the peer
      closing). Every complete line is dispatched in order and the unterminated
      rest stays buffered; a fault, a close or the stop flag ends the listener.
    */
    method Receive(data: string) returns (out: seq<Dispatched>)
      modifies this`rxBuffer, this`listening, this`connected
      ensures !old(listening) ==> out == [] && rxBuffer == old(rxBuffer) && !listening && connected == old(connected)
      ensures old(listening) && (stopFlag || data == "") ==> out == [] && !listening && !connected && rxBuffer == old(rxBuffer)
      ensures old(listening) && !stopFlag && data != "" ==>
        out == DispatchLines(codec, callbacks, AsWritten, Frames(old(rxBuffer) + data).0)
        && (Faulted(out) ==> !listening && !connected)
        && (!Faulted(out) ==> listening && connected == old(connected) && rxBuffer == Frames(old(rxBuffer) + data).1)
    {
      out := [];
      if !listening {
        return;
      }
      if stopFlag || data == "" {
        listening, connected := false, false;
        return;
      }
      out := Absorb(data);
    }

    /** A received chunk while the listener runs: the buffered text plus the chunk is framed and dispatched. */
    method Absorb(data: string) returns (out: seq<Dispatched>)
      requires listening
      modifies this`rxBuffer, this`listening, this`connected
      ensures out == DispatchLines(codec, callbacks, AsWritten, Frames(old(rxBuffer) + data).0)
      ensures Faulted(out) ==> !listening && !connected
      ensures !Faulted(out) ==> listening && connected == old(connected) && rxBuffer == Frames(old(rxBuffer) + data).1
    {
      var buffer := rxBuffer + data;
      var rest;
      out, rest := DispatchBuffer(codec, callbacks, AsWritten, buffer);
      if Faulted(out) {
        listening, connected := false, false;
      } else {
        rxBuffer := rest;
      }
      assert callbacks == old(callbacks);
    }

    /** `on(kind, callback)`: the last registration for a kind wins; other kinds keep theirs. */
    method On(kind: string, callback: CallbackId)
      modifies this`callbacks
      ensures kind in callbacks && callbacks[kind] == callback
      ensures forall k :: k != kind ==> (k in callbacks <==> k in old(callbacks))
      ensures forall k :: k != kind && k in callbacks ==> callbacks[k] == old(callbacks)[k]
    {
      callbacks := callbacks[kind := callback];
    }

    /** `close()`: sets the stop flag and clears `connected`; calling it again changes nothing more. */
    method Close()
      modifies this`stopFlag, this`connected
      ensures stopFlag && !connected && !IsConnected()
    {
      stopFlag := true;
      connected := false;
    }
  }

  /**
    The code's listener given a chunk whose first line does not parse, with
    nothing buffered: that line alone is dispatched, it raises, the lines after
    it are dropped, and the listener ends with the client disconnected.
  */
  method ReceiveUnparsableLine(client: IndigoJsonClient, line: string, rest: string) returns (out: seq<Dispatched>)
    requires client.listening && !client.stopFlag && client.rxBuffer == ""
    requires '\n' !in line && client.codec.decode(Strip(line)).None?
    modifies client`rxBuffer, client`listening, client`connected
    ensures out == [Fault(LogCallArity)]
    ensures !client.listening && !client.connected
  {
    var data := line + "\n" + rest;
    UnparsableFirstLineFaults(client.codec, client.callbacks, line, rest);
    assert client.rxBuffer + data == data;
    out := client.Receive(data);
  }

  /**
    The inner loop of `_listen_loop`: cuts complete lines off the buffer and
    dispatches each stripped line until one raises; `rest` is what stays
    buffered when none did.
  */
  method DispatchBuffer(codec: Codec, callbacks: map<string, CallbackId>, h: Handler, buffer0: string) returns (out: seq<Dispatched>, rest: string)
    ensures out == DispatchLines(codec, callbacks, h, Frames(buffer0).0)
    ensures !Faulted(out) ==> rest == Frames(buffer0).1
  {
    var buffer := buffer0;
    ghost var done: seq<string> := [];
    out := [];
    while '\n' in buffer
      invariant Terminated(done) + buffer == buffer0
      invariant forall l :: l in done ==> '\n' !in l
      invariant out == DispatchEach(codec, callbacks, h, done) && Clean(out)
      decreases |buffer|
    {
      var i := IndexOf(buffer, '\n').value;
      var line := buffer[..i];
      var d := DispatchLine(codec, callbacks, h, line);
      CutStep(codec, callbacks, h, done, buffer, i, out);
      buffer := buffer[i + 1..];
      done := done + [line];
      out := out + [d];
      if d.Fault? {
        FaultSettles(codec, callbacks, h, done, buffer, out);
        return out, buffer;
      }
    }
    AllSettle(codec, callbacks, h, done, buffer, out);
    rest := buffer;
  }

  /** Cutting one more line off the buffer and dispatching it keeps the loop's invariants. */
  lemma CutStep(codec: Codec, callbacks: map<string, CallbackId>, h: Handler, done: seq<string>, buffer: string, i: nat, out: seq<Dispatched>)
    requires i < |buffer| && buffer[i] == '\n' && '\n' !in buffer[..i]
    requires forall l :: l in done ==> '\n' !in l
    requires out == DispatchEach(codec, callbacks, h, done) && Clean(out)
    ensures var line := buffer[..i];
      var d := DispatchLine(codec, callbacks, h, line);
      && Terminated(done + [line]) + buffer[i + 1..] == Terminated(done) + buffer
      && (forall l :: l in done + [line] ==> '\n' !in l)
      && out + [d] == DispatchEach(codec, callbacks, h, done + [line])
      && OnlyLastFaults(out + [d])
      && (!d.Fault? ==> Clean(out + [d]))
  {
    CutLine(done, buffer, i);
    DispatchEachAppend(codec, callbacks, h, done, [buffer[..i]]);
  }

  lemma {:induction false} TerminatedAppend(a: seq<string>, b: seq<string>, rest: string)
    ensures Terminated(a + b) + rest == Terminated(a) + (Terminated(b) + rest)
    decreases |a|
  {
    if a != [] {
      assert (a + b)[1..] == a[1..] + b;
      assert (a + b)[0] == a[0];
      TerminatedAppend(a[1..], b, rest);
      calc {
        Terminated(a + b) + rest;
        a[0] + "\n" + Terminated(a[1..] + b) + rest;
        a[0] + "\n" + (Terminated(a[1..]) + (Terminated(b) + rest));
        Terminated(a) + (Terminated(b) + rest);
      }
    } else {
      assert a + b == b;
    }
  }

  /** Cutting the first line off a buffer extends the dispatched lines by it. */
  lemma CutLine(done: seq<string>, buf: string, i: nat)
    requires i < |buf| && buf[i] == '\n'
    ensures Terminated(done + [buf[..i]]) + buf[i + 1..] == Terminated(done) + buf
  {
    TerminatedSnoc(done, buf[..i]);
    assert buf == buf[..i] + "\n" + buf[i + 1..];
  }

  /** Lines dispatched one by one up to the first fault agree with DispatchLines on the whole buffer. */
  lemma FaultSettles(codec: Codec, callbacks: map<string, CallbackId>, h: Handler, done: seq<string>, rest: string, out: seq<Dispatched>)
    requires forall l :: l in done ==> '\n' !in l
    requires out == DispatchEach(codec, callbacks, h, done)
    requires Faulted(out) && OnlyLastFaults(out)
    ensures out == DispatchLines(codec, callbacks, h, Frames(Terminated(done) + rest).0)
  {
    var f := Frames(rest);
    FramesRebuild(rest);
    FramesOfTerminated(done + f.0, f.1);
    TerminatedAppend(done, f.0, f.1);
    DispatchEachAppend(codec, callbacks, h, done, f.0);
    UpToFaultStops(out, DispatchEach(codec, callbacks, h, f.0));
  }

  /** Lines dispatched one by one without a fault are DispatchLines on the whole buffer, with the rest kept. */
  lemma AllSettle(codec: Codec, callbacks: map<string, CallbackId>, h: Handler, done: seq<string>, rest: string, out: seq<Dispatched>)
    requires forall l :: l in done ==> '\n' !in l
    requires '\n' !in rest
    requires out == DispatchEach(codec, callbacks, h, done) && Clean(out)
    ensures Frames(Terminated(done) + rest) == (done, rest)
    ensures out == DispatchLines(codec, callbacks, h, done)
  {
    FramesOfTerminated(done, rest);
    UpToFaultClean(out);
  }
}
