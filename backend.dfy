/**
 * The Python backend's side of the socket: one connection is read to end of
 * stream (at most 1 MiB), decoded as a UTF-8 JSON object, routed on its
 * "type" field to speech recognition, to the Rime handler or to a fixed
 * answer, and answered with one JSON object; every failure becomes an
 * {"error": ...} reply, and the connection is closed on every path.
 */
module Backend {
  import opened Wrappers
  import opened Json
  import opened Posix
  import opened RimeHandler

  type byte = x: int | 0 <= x < 256

  /** The largest request the backend reads: 1 MiB. */
  const MaxRequestBytes: nat := 1024 * 1024

  // ---------------------------------------------------------------------------
  // Fixed replies
  // ---------------------------------------------------------------------------

  function ErrorReply(message: string): JValue {
    JObj([("error", JStr(message))])
  }

  const TooLargeReply: JValue := ErrorReply("Request too large")
  const InvalidJsonReply: JValue := ErrorReply("Invalid JSON")
  const TimeoutReply: JValue := ErrorReply("Request timeout")
  const MissingAudioPathReply: JValue := JObj([("success", JBool(false)), ("error", JStr("缺少 audio_path 参数"))])
  const MissingKeyvalReply: JValue := JObj([("handled", JBool(false)), ("error", JStr("缺少 keyval 参数"))])
  const ResetReply: JValue := JObj([("success", JBool(true))])
  const PongReply: JValue := JObj([("pong", JBool(true))])
  const UnknownTypePrefix: string := "未知的请求类型: "

  function UnknownTypeReply(requestType: JValue): JValue {
    ErrorReply(UnknownTypePrefix + PyStr(requestType))
  }

  // ---------------------------------------------------------------------------
  // Reading the request
  // ---------------------------------------------------------------------------

  /** What one recv(8192) on the connection does: bytes (empty at end of stream), the timeout, or another error. */
  datatype ServerRecv = Data(bytes: seq<byte>) | RecvTimeout | RecvError(message: string)

  /** How reading a request ends. */
  datatype ReadOutcome = Received(data: seq<byte>) | TooLarge | TimedOut | RecvRaised(message: string)

  function PrependData(b: seq<byte>, o: ReadOutcome): ReadOutcome {
    if o.Received? then Received(b + o.data) else o
  }

  /**
   * The read loop as a function of what recv returns, when `total` bytes were
   * read before: chunks accumulate until end of stream, and the request is
   * refused as soon as the running total passes the limit. A connection that
   * sends nothing more before its timeout times out.
   */
  function ReadRequest(recvs: seq<ServerRecv>, total: nat): (o: ReadOutcome)
    requires total <= MaxRequestBytes
    ensures o.Received? ==> total + |o.data| <= MaxRequestBytes
    decreases |recvs|
  {
    if recvs == [] then TimedOut
    else match recvs[0]
      case RecvTimeout => TimedOut
      case RecvError(m) => RecvRaised(m)
      case Data(b) =>
        if b == [] then Received([])
        else if total + |b| > MaxRequestBytes then TooLarge
        else PrependData(b, ReadRequest(recvs[1..], total + |b|))
  }

  /** Reading a request returns exactly the bytes of the chunks before end of stream, in order. */
  lemma {:induction false} ReadRequestConcatenates(chunks: seq<seq<byte>>, total: nat, rest: seq<ServerRecv>)
    requires forall k :: 0 <= k < |chunks| ==> chunks[k] != []
    requires total + |Concat(chunks)| <= MaxRequestBytes
    ensures ReadRequest(DataOf(chunks) + [Data([])] + rest, total) == Received(Concat(chunks))
    decreases |chunks|
  {
    if chunks == [] {
      assert DataOf(chunks) + [Data([])] + rest == [Data([])] + rest;
    } else {
      var tail := DataOf(chunks[1..]) + [Data([])] + rest;
      assert DataOf(chunks) + [Data([])] + rest == [Data(chunks[0])] + tail;
      assert ([Data(chunks[0])] + tail)[1..] == tail;
      ReadRequestConcatenates(chunks[1..], total + |chunks[0]|, rest);
    }
  }

  function DataOf(chunks: seq<seq<byte>>): (r: seq<ServerRecv>)
    ensures |r| == |chunks| && forall k :: 0 <= k < |chunks| ==> r[k] == Data(chunks[k])
  {
    seq(|chunks|, k requires 0 <= k < |chunks| => Data(chunks[k]))
  }

  // ---------------------------------------------------------------------------
  // Decoding and routing
  // ---------------------------------------------------------------------------

  /** What `bytes.decode('utf-8')` followed by `json.loads` makes of the request bytes. */
  datatype Decoding = NotUtf8(message: string) | NotJson | Decoded(request: JValue)

  /** The decoded request's dispatch. */
  datatype Action =
    | Transcribe(audioPath: JValue)
    | KeyEvent(keyval: JValue, mask: JValue)
    | ResetEngine
    | Reply(reply: JValue)

  /**
   * The dispatch on the request's "type": speech recognition needs a truthy
   * "audio_path", a key event needs a non-null "keyval" ("mask" defaults to
   * 0), "reset" and "ping" have fixed answers, and anything else is an unknown
   * type. A decoded value that is not an object has no `get` method.
   */
  function Route(request: JValue): (a: Action)
    ensures !request.JObj? ==> a == Reply(ErrorReply(NoAttribute(request, "get")))
    ensures request.JObj? ==>
              var t := Get(request, "type", JNull);
              && (a.Transcribe? <==> t == JStr("transcribe") && Truthy(Get(request, "audio_path", JNull)))
              && (a.Transcribe? ==> a.audioPath == Get(request, "audio_path", JNull))
              && (a.KeyEvent? <==> t == JStr("key_event") && Get(request, "keyval", JNull) != JNull)
              && (a.KeyEvent? ==> a == KeyEvent(Get(request, "keyval", JNull), Get(request, "mask", JInt(0))))
              && (a.ResetEngine? <==> t == JStr("reset"))
              && (t == JStr("transcribe") && !a.Transcribe? ==> a == Reply(MissingAudioPathReply))
              && (t == JStr("key_event") && !a.KeyEvent? ==> a == Reply(MissingKeyvalReply))
              && (t == JStr("ping") ==> a == Reply(PongReply))
              && (t !in {JStr("transcribe"), JStr("key_event"), JStr("reset"), JStr("ping")} ==> a == Reply(UnknownTypeReply(t)))
  {
    if !request.JObj? then Reply(ErrorReply(NoAttribute(request, "get")))
    else
      var t := Get(request, "type", JNull);
      if t == JStr("transcribe") then
        var path := Get(request, "audio_path", JNull);
        if !Truthy(path) then Reply(MissingAudioPathReply) else Transcribe(path)
      else if t == JStr("key_event") then
        var keyval := Get(request, "keyval", JNull);
        if keyval == JNull then Reply(MissingKeyvalReply) else KeyEvent(keyval, Get(request, "mask", JInt(0)))
      else if t == JStr("reset") then ResetEngine
      else if t == JStr("ping") then Reply(PongReply)
      else Reply(UnknownTypeReply(t))
  }

  /** The request that reaches the dispatch, if reading and decoding both succeed. */
  function Request(read: ReadOutcome, decode: seq<byte> -> Decoding): (r: Option<JValue>)
    ensures r.Some? <==> read.Received? && read.data != [] && decode(read.data).Decoded?
  {
    if read.Received? && read.data != [] && decode(read.data).Decoded? then Some(decode(read.data).request)
    else None
  }

  /** The dispatch a connection reaches; a request that was never decoded reaches none (`Reply` of null). */
  function Dispatched(read: ReadOutcome, decode: seq<byte> -> Decoding): (a: Action)
    ensures Request(read, decode).None? ==> a == Reply(JNull)
    ensures Request(read, decode).Some? ==> a == Route(Request(read, decode).value)
  {
    var req := Request(read, decode);
    if req.Some? then Route(req.value) else Reply(JNull)
  }

  /**
   * The whole exchange: the reply written back (None when the client sent
   * nothing), given how reading ended, how the bytes decode, what speech
   * recognition answers (an exception becomes its message) and what the Rime
   * handler answers.
   */
  function Respond(read: ReadOutcome, decode: seq<byte> -> Decoding, asr: Result<JValue>, rime: JValue): (r: Option<JValue>)
    ensures read.TooLarge? ==> r == Some(TooLargeReply)
    ensures read.TimedOut? ==> r == Some(TimeoutReply)
    ensures read.RecvRaised? ==> r == Some(ErrorReply(read.message))
    ensures r.None? <==> read == Received([])
    ensures read.Received? && read.data != [] && decode(read.data).NotJson? ==> r == Some(InvalidJsonReply)
    ensures read.Received? && read.data != [] && decode(read.data).NotUtf8? ==> r == Some(ErrorReply(decode(read.data).message))
    ensures Request(read, decode).Some? ==> r == Some(Answer(Route(Request(read, decode).value), asr, rime))
  {
    match read
    case TooLarge => Some(TooLargeReply)
    case TimedOut => Some(TimeoutReply)
    case RecvRaised(m) => Some(ErrorReply(m))
    case Received(data) =>
      if data == [] then None
      else match decode(data)
        case NotUtf8(m) => Some(ErrorReply(m))
        case NotJson => Some(InvalidJsonReply)
        case Decoded(request) => Some(Answer(Route(request), asr, rime))
  }

  /** The reply to a routed request. */
  function Answer(a: Action, asr: Result<JValue>, rime: JValue): (r: JValue)
    ensures a.Reply? ==> r == a.reply
    ensures a.KeyEvent? ==> r == rime
    ensures a.ResetEngine? ==> r == ResetReply
    ensures a.Transcribe? && asr.Ok? ==> r == asr.value
    ensures a.Transcribe? && asr.Err? ==> r == ErrorReply(asr.what)
  {
    match a
    case Transcribe(_) => (match asr case Ok(v) => v case Err(m) => ErrorReply(m))
    case KeyEvent(_, _) => rime
    case ResetEngine => ResetReply
    case Reply(r) => r
  }

  // ---------------------------------------------------------------------------
  // The server
  // ---------------------------------------------------------------------------

  /** The backend: the process's kernel view, the Rime handler and the log of recognition requests. */
  class Server {
    const kernel: Kernel
    const rime: Handler
    var transcribed: seq<JValue>

    ghost predicate Valid()
      reads this, kernel, rime
    {
      kernel.Valid() && rime.Valid()
    }

    constructor (kernel: Kernel, rime: Handler)
      requires kernel.Valid() && rime.Valid()
      ensures Valid() && this.kernel == kernel && this.rime == rime && transcribed == []
    {
      this.kernel := kernel;
      this.rime := rime;
      transcribed := [];
    }

    /**
     * handle_client: reads the connection, answers it and closes it. `recvs`
     * is what the connection delivers, `decode` the UTF-8 and JSON decoding,
     * `asr` the recognition answer, `env` and `answer` what librime does.
     * Only a request routed to an engine reaches it.
     */
    method HandleClient(conn: int, recvs: seq<ServerRecv>, decode: seq<byte> -> Decoding,
                        asr: Result<JValue>, env: InitEnv, answer: RimeAnswer)
      returns (reply: Option<JValue>)
      requires Valid()
      modifies kernel, rime, this
      ensures Valid()
      ensures kernel.open == old(kernel.open) - {Fd(conn)} && kernel.files == old(kernel.files)
      ensures reply == Respond(ReadRequest(recvs, 0), decode, asr,
                               ProcessKeyReply(rime.available, old(rime.hasSession), env, answer))
      ensures var action := Dispatched(ReadRequest(recvs, 0), decode);
              && transcribed == old(transcribed) + (if action.Transcribe? then [action.audioPath] else [])
              && (action.KeyEvent? ==>
                    && rime.hasSession == (if rime.available then InitOutcome(old(rime.hasSession), rime.available, env).1
                                           else old(rime.hasSession))
                    && rime.calls == old(rime.calls) + (if rime.available && InitOutcome(old(rime.hasSession), rime.available, env).0
                                                         then [ProcessKeyCall(action.keyval, action.mask)] else []))
              && (action.ResetEngine? ==>
                    rime.hasSession == old(rime.hasSession)
                    && rime.calls == old(rime.calls) + (if old(rime.hasSession) then [ClearCompositionCall] else []))
              && (!action.KeyEvent? && !action.ResetEngine? ==>
                    rime.hasSession == old(rime.hasSession) && rime.calls == old(rime.calls))
    {
      var read := ReadConnection(recvs);
      var rimeReply := ProcessKeyReply(rime.available, rime.hasSession, env, answer);
      reply := Respond(read, decode, asr, rimeReply);
      match Dispatched(read, decode) {
        case Transcribe(path) =>
          transcribed := transcribed + [path];
        case KeyEvent(keyval, mask) =>
          var r := rime.ProcessKey(keyval, mask, env, answer);
        case ResetEngine =>
          rime.Reset();
        case Reply(_) =>
      }
      kernel.Close(conn);
    }
  }

  /** handle_client's read loop: recv until end of stream, refusing the request once the total passes the limit. */
  method ReadConnection(recvs: seq<ServerRecv>) returns (read: ReadOutcome)
    ensures read == ReadRequest(recvs, 0)
  {
    var chunks: seq<seq<byte>> := [];
    var total: nat := 0;
    var i := 0;
    while true
      invariant 0 <= i <= |recvs| && total <= MaxRequestBytes
      invariant total == |Concat(chunks)|
      invariant ReadRequest(recvs, 0) == PrependData(Concat(chunks), ReadRequest(recvs[i..], total))
      decreases |recvs| - i
    {
      if i == |recvs| {
        read := TimedOut;
        break;
      }
      var step := recvs[i];
      assert recvs[i..][1..] == recvs[i + 1..];
      match step {
        case RecvTimeout =>
          read := TimedOut;
          break;
        case RecvError(m) =>
          read := RecvRaised(m);
          break;
        case Data(b) =>
          if b == [] {
            read := Received(Concat(chunks));
            assert Concat(chunks) + [] == Concat(chunks);
            break;
          }
          ReadStep(recvs, i, total, Concat(chunks), b);
          ConcatAppend(chunks, b);
          chunks := chunks + [b];
          total := total + |b|;
          if total > MaxRequestBytes {
            read := TooLarge;
            break;
          }
          i := i + 1;
      }
    }
  }

  /** One non-empty chunk of the read loop: either it passes the limit, or it moves from the rest into the prefix. */
  lemma ReadStep(recvs: seq<ServerRecv>, i: nat, total: nat, prefix: seq<byte>, b: seq<byte>)
    requires i < |recvs| && recvs[i] == Data(b) && b != [] && total <= MaxRequestBytes
    ensures total + |b| > MaxRequestBytes ==> ReadRequest(recvs[i..], total) == TooLarge
    ensures total + |b| <= MaxRequestBytes ==>
              PrependData(prefix, ReadRequest(recvs[i..], total))
              == PrependData(prefix + b, ReadRequest(recvs[i + 1..], total + |b|))
  {
    assert recvs[i..][0] == Data(b);
    assert recvs[i..][1..] == recvs[i + 1..];
    if total + |b| <= MaxRequestBytes {
      var o := ReadRequest(recvs[i + 1..], total + |b|);
      if o.Received? {
        assert prefix + (b + o.data) == (prefix + b) + o.data;
      }
    }
  }

  lemma {:induction false} ConcatAppend(chunks: seq<seq<byte>>, b: seq<byte>)
    ensures Concat(chunks + [b]) == Concat(chunks) + b
    decreases |chunks|
  {
    if chunks == [] {
      assert [] + [b] == [b];
      assert Concat([b]) == b + Concat([b][1..]);
    } else {
      assert (chunks + [b])[1..] == chunks[1..] + [b];
      ConcatAppend(chunks[1..], b);
    }
  }

  // ---------------------------------------------------------------------------
  // Clearing a stale socket path before bind
  // ---------------------------------------------------------------------------

  datatype FileKind = SocketFile | Symlink | RegularFile | Directory | OtherFile

  /** What is at the path: nothing, or an entry of some kind (for a symlink, whether its target exists). */
  datatype PathEntry = Absent | Present(kind: FileKind, targetExists: bool)

  /** How the cleanup ends; a refusal raises with the message. */
  datatype Cleanup = LeftAlone | Removed | LstatWarning | RemoveWarning | Refused(message: string)

  const NotSocketPrefix: string := "socket 路径已存在且不是 socket: "

  /** os.path.exists: follows a symlink to its target. */
  predicate Exists(e: PathEntry) {
    e.Present? && (e.kind != Symlink || e.targetExists)
  }

  /**
   * _cleanup_socket_path as written: nothing is done unless the path exists
   * (following symlinks); an lstat failure or a remove failure is only a
   * warning; a socket or a symlink is removed; anything else is refused.
   */
  function CleanupAsWritten(path: string, e: PathEntry, lstatOk: bool, removeOk: bool): (c: Cleanup)
    ensures c.Refused? <==> Exists(e) && lstatOk && e.kind !in {SocketFile, Symlink}
    ensures c.Refused? ==> c.message == NotSocketPrefix + path
    ensures c.Removed? <==> Exists(e) && lstatOk && removeOk && e.kind in {SocketFile, Symlink}
  {
    if !Exists(e) then LeftAlone
    else if !lstatOk then LstatWarning
    else if e.kind in {SocketFile, Symlink} then (if removeOk then Removed else RemoveWarning)
    else Refused(NotSocketPrefix + path)
  }

  /** What is at the path once the cleanup is over. */
  function Remaining(e: PathEntry, c: Cleanup): PathEntry {
    if c.Removed? then Absent else e
  }

  /** A dangling symlink at the socket path is left in place without a warning, so the bind that follows finds the path taken. */
  lemma DanglingSymlinkSurvives(path: string)
    ensures CleanupAsWritten(path, Present(Symlink, false), true, true) == LeftAlone
    ensures Remaining(Present(Symlink, false), LeftAlone).Present?
  {
  }

  /** The cleanup with the existence test not following symlinks (os.path.lexists). */
  function CleanupSocketPath(path: string, e: PathEntry, lstatOk: bool, removeOk: bool): (c: Cleanup)
    ensures c.LeftAlone? <==> e.Absent?
    ensures c.Removed? <==> e.Present? && lstatOk && removeOk && e.kind in {SocketFile, Symlink}
    ensures c.Refused? <==> e.Present? && lstatOk && e.kind !in {SocketFile, Symlink}
    ensures c.Refused? ==> c.message == NotSocketPrefix + path
    ensures c in {LeftAlone, Removed} ==> Remaining(e, c) == Absent
  {
    if e.Absent? then LeftAlone
    else if !lstatOk then LstatWarning
    else if e.kind in {SocketFile, Symlink} then (if removeOk then Removed else RemoveWarning)
    else Refused(NotSocketPrefix + path)
  }

  /** The corrected cleanup differs from the one as written only where the path holds a dangling symlink. */
  lemma CleanupAgrees(path: string, e: PathEntry, lstatOk: bool, removeOk: bool)
    ensures Exists(e) || e.Absent? ==> CleanupSocketPath(path, e, lstatOk, removeOk) == CleanupAsWritten(path, e, lstatOk, removeOk)
  {
  }
}
