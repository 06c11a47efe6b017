/** The websocketproxy package: one relay direction between the client's and the browser's
    WebSocket connections. A Proxy call waits on the rate limiter, reads one message from the
    read connection and writes it to the write connection, stopping at the first error.
    Connections are named by identifiers and what each call to them meets is a parameter; the
    calls a relay makes are appended to a log. */
module WebsocketProxy {
  import opened Wrappers

  /** Which side a relay reads from. */
  datatype Types = Chrome | Client

  type Bytes = seq<bv8>

  /** The longest message body logged whole. */
  const MaxLoggedBody := 200
  const Ellipsis: Bytes := [0x2E, 0x2E, 0x2E]

  /** getTruncatedString: bodies of at most 200 bytes unchanged, longer ones cut to their first
      200 bytes followed by "...". */
  function TruncatedString(b: Bytes): (s: Bytes)
    ensures |b| <= MaxLoggedBody ==> s == b
    ensures |s| <= MaxLoggedBody + |Ellipsis|
    ensures |b| > MaxLoggedBody ==>
      |s| == MaxLoggedBody + |Ellipsis| && s[..MaxLoggedBody] == b[..MaxLoggedBody] && s[MaxLoggedBody..] == Ellipsis
  {
    if |b| > MaxLoggedBody then b[..MaxLoggedBody] + Ellipsis else b
  }

  /** Truncating a truncated body changes nothing. */
  lemma TruncatedIdempotent(b: Bytes)
    ensures TruncatedString(TruncatedString(b)) == TruncatedString(b)
  {
    if |b| > MaxLoggedBody {
      var s := TruncatedString(b);
      assert s[..MaxLoggedBody] + Ellipsis == s;
    }
  }

  /** What the read connection's Reader and io.ReadAll meet: Reader fails; ReadAll fails after
      part of the body; or the whole message of the given type is read. */
  datatype ReadOutcome =
    | ReaderFailed(err: string)
    | ReadAllFailed(msgType: int, partial: Bytes, readErr: string)
    | ReadOk(msgType: int, msg: Bytes)

  /** What the write connection's Writer, the writer's Write and its Close return. */
  datatype WriteOutcome = WriteOutcome(writerErr: Option<string>, writeErr: Option<string>, closeErr: Option<string>)

  /** A call a relay makes: the limiter wait, Reader and ReadAll on the read connection,
      Writer, Write and Close on a write connection. */
  datatype Call = Wait | Reader(conn: nat) | ReadAll(conn: nat) | Writer(conn: nat, msgType: int) | Write(msg: Bytes) | Close

  function ReadCalls(conn: nat, out: ReadOutcome): seq<Call> {
    if out.ReaderFailed? then [Reader(conn)] else [Reader(conn), ReadAll(conn)]
  }

  /** read's error: Reader's, else ReadAll's. */
  function ReadErr(out: ReadOutcome): Option<string> {
    match out
    case ReaderFailed(e) => Some(e)
    case ReadAllFailed(_, _, e) => Some(e)
    case ReadOk(_, _) => None
  }

  function WriteCalls(conn: nat, msgType: int, msg: Bytes, out: WriteOutcome): seq<Call> {
    if out.writerErr.Some? then [Writer(conn, msgType)]
    else if out.writeErr.Some? then [Writer(conn, msgType), Write(msg)]
    else [Writer(conn, msgType), Write(msg), Close]
  }

  /** write's error: Writer's, else Write's, else Close's. */
  function WriteErr(out: WriteOutcome): Option<string> {
    if out.writerErr.Some? then out.writerErr
    else if out.writeErr.Some? then out.writeErr
    else out.closeErr
  }

  /** The calls one Proxy step makes: wait, then read, then write, each only when the step
      before it succeeded. */
  function ProxyCalls(rConn: nat, wConn: nat, waitErr: Option<string>, rd: ReadOutcome, wr: WriteOutcome): seq<Call> {
    if waitErr.Some? then [Wait]
    else if rd.ReadOk? then [Wait] + ReadCalls(rConn, rd) + WriteCalls(wConn, rd.msgType, rd.msg, wr)
    else [Wait] + ReadCalls(rConn, rd)
  }

  /** The error one Proxy step returns. */
  function ProxyErr(waitErr: Option<string>, rd: ReadOutcome, wr: WriteOutcome): Option<string> {
    if waitErr.Some? then waitErr
    else if ReadErr(rd).Some? then ReadErr(rd)
    else WriteErr(wr)
  }

  /** The relay step short-circuits: a wait error reads nothing; a read error writes nothing;
      a read message is written to the write connection with its type and bytes unchanged; a
      Writer error writes nothing; a Write error is returned without closing; after a good
      Write the step returns Close's result. */
  lemma ProxyShortCircuits(rConn: nat, wConn: nat, waitErr: Option<string>, rd: ReadOutcome, wr: WriteOutcome)
    ensures waitErr.Some? ==>
      ProxyCalls(rConn, wConn, waitErr, rd, wr) == [Wait] && ProxyErr(waitErr, rd, wr) == waitErr
    ensures waitErr.None? && !rd.ReadOk? ==>
      ProxyErr(waitErr, rd, wr) == ReadErr(rd) && ReadErr(rd).Some? &&
      forall c :: c in ProxyCalls(rConn, wConn, waitErr, rd, wr) ==> !c.Writer? && !c.Write?
    ensures waitErr.None? && rd.ReadOk? ==>
      Writer(wConn, rd.msgType) in ProxyCalls(rConn, wConn, waitErr, rd, wr) &&
      (wr.writerErr.None? ==> Write(rd.msg) in ProxyCalls(rConn, wConn, waitErr, rd, wr))
    ensures waitErr.None? && rd.ReadOk? && wr.writerErr.Some? ==>
      ProxyErr(waitErr, rd, wr) == wr.writerErr &&
      forall c :: c in ProxyCalls(rConn, wConn, waitErr, rd, wr) ==> !c.Write?
    ensures waitErr.None? && rd.ReadOk? && wr.writerErr.None? && wr.writeErr.Some? ==>
      ProxyErr(waitErr, rd, wr) == wr.writeErr && Close !in ProxyCalls(rConn, wConn, waitErr, rd, wr)
    ensures waitErr.None? && rd.ReadOk? && wr.writerErr.None? && wr.writeErr.None? ==>
      ProxyErr(waitErr, rd, wr) == wr.closeErr &&
      ProxyCalls(rConn, wConn, waitErr, rd, wr)[|ProxyCalls(rConn, wConn, waitErr, rd, wr)| - 1] == Close
  {
  }

  class WebsocketProxy {
    const rConn: nat
    const rContext: nat
    const rType: Types
    const waitTimeoutInSecs: int
    /** The connection and context written to; unset until SetWriteConnection. */
    var wConn: Option<nat>
    var wContext: Option<nat>
    /** Every call this relay has made. */
    var calls: seq<Call>

    /** NewWebsocketProxy */
    constructor (rConn: nat, rContext: nat, rType: Types, waitTimeoutInSecs: int)
      ensures this.rConn == rConn && this.rContext == rContext && this.rType == rType
      ensures this.waitTimeoutInSecs == waitTimeoutInSecs
      ensures wConn == None && wContext == None && calls == []
    {
      this.rConn, this.rContext, this.rType, this.waitTimeoutInSecs := rConn, rContext, rType, waitTimeoutInSecs;
      wConn, wContext, calls := None, None, [];
    }

    /** SetWriteConnection: sets the write side and nothing else. */
    method SetWriteConnection(conn: nat, ctx: nat)
      modifies this`wConn, this`wContext
      ensures wConn == Some(conn) && wContext == Some(ctx)
    {
      wConn := Some(conn);
      wContext := Some(ctx);
    }

    /** read: a Reader failure gives type -1 and no bytes; a ReadAll failure returns what was
        read so far with the error. */
    method Read(out: ReadOutcome) returns (msgType: int, msg: Bytes, err: Option<string>)
      modifies this`calls
      ensures calls == old(calls) + ReadCalls(rConn, out)
      ensures err == ReadErr(out)
      ensures out.ReaderFailed? ==> msgType == -1 && msg == []
      ensures out.ReadAllFailed? ==> msgType == out.msgType && msg == out.partial
      ensures out.ReadOk? ==> msgType == out.msgType && msg == out.msg
    {
      calls := calls + [Reader(rConn)];
      if out.ReaderFailed? {
        return -1, [], Some(out.err);
      }
      calls := calls + [ReadAll(rConn)];
      if out.ReadAllFailed? {
        return out.msgType, out.partial, Some(out.readErr);
      }
      return out.msgType, out.msg, None;
    }

    /** write: Writer, then Write, then Close, stopping at the first error. */
    method WriteMessage(msgType: int, msg: Bytes, out: WriteOutcome) returns (err: Option<string>)
      requires wConn.Some?
      modifies this`calls
      ensures calls == old(calls) + WriteCalls(wConn.value, msgType, msg, out)
      ensures err == WriteErr(out)
    {
      calls := calls + [Writer(wConn.value, msgType)];
      if out.writerErr.Some? {
        return out.writerErr;
      }
      calls := calls + [Write(msg)];
      if out.writeErr.Some? {
        return out.writeErr;
      }
      calls := calls + [Close];
      return out.closeErr;
    }

    /** Proxy: one relay step. `waitErr` is what the limiter's Wait returns under the step's
        timeout. */
    method Proxy(waitErr: Option<string>, rd: ReadOutcome, wr: WriteOutcome) returns (err: Option<string>)
      requires wConn.Some?
      modifies this`calls
      ensures calls == old(calls) + ProxyCalls(rConn, wConn.value, waitErr, rd, wr)
      ensures err == ProxyErr(waitErr, rd, wr)
    {
      calls := calls + [Wait];
      if waitErr.Some? {
        return waitErr;
      }
      var msgType, msg, readErr := Read(rd);
      if readErr.Some? {
        return readErr;
      }
      err := WriteMessage(msgType, msg, wr);
    }
  }
}
