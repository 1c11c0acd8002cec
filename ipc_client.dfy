/**
 * The addon's transport client: one connection per request, the request
 * written in full, the write side half-closed, the reply read to end of
 * stream; and the decoders that turn a reply into a typed result with
 * defaults, failing closed.
 */
module IpcClient {
  import opened Wrappers
  import opened Json
  import opened Posix

  type byte = x: int | 0 <= x < 256

  // ---------------------------------------------------------------------------
  // Result structs and their defaults.
  // ---------------------------------------------------------------------------

  /** One candidate: (text, comment), in the order the reply lists them. */
  datatype Candidate = Candidate(text: string, comment: string)

  datatype RimeUIState = RimeUIState(
    handled: bool,
    commitText: string,
    preeditText: string,
    cursorPos: int,
    candidates: seq<Candidate>,
    highlightedIndex: int,
    pageSize: int)

  const DefaultPageSize: int := 5

  const DefaultUIState: RimeUIState := RimeUIState(false, "", "", 0, [], 0, DefaultPageSize)

  datatype TranscribeResult = TranscribeResult(success: bool, text: string, error: string)

  const DefaultTranscribeResult: TranscribeResult := TranscribeResult(false, "", "")

  /** What a request/reply round trip gave back when it returned: a parsed reply, or a thrown exception's text. */
  datatype Exchange = Parsed(reply: JValue) | Threw(what: string)

  // ---------------------------------------------------------------------------
  // Requests, as the client builds them.
  // ---------------------------------------------------------------------------

  function TranscribeRequest(audioPath: string): JValue {
    JObj([("type", JStr("transcribe")), ("audio_path", JStr(audioPath))])
  }

  function KeyEventRequest(keyval: int, mask: int): JValue {
    JObj([("type", JStr("key_event")), ("keyval", JInt(keyval)), ("mask", JInt(mask))])
  }

  const ResetRequest: JValue := JObj([("type", JStr("reset"))])

  const PingRequest: JValue := JObj([("type", JStr("ping"))])

  // ---------------------------------------------------------------------------
  // transcribeAudio
  // ---------------------------------------------------------------------------

  const UnknownError: string := "Unknown error"

  /**
   * transcribeAudio's reading of the reply: `success` defaults to false; `text`
   * is read only on success and `error` (default "Unknown error") only on
   * failure; any exception gives success = false with its text as the error.
   */
  function DecodeTranscribe(ex: Exchange): (r: TranscribeResult)
    ensures ex.Threw? ==> r == TranscribeResult(false, "", ex.what)
    ensures r.success <==> ex.Parsed? && Field(ex.reply, "success") == Some(JBool(true))
                           && (Contains(ex.reply, "text") ==> Field(ex.reply, "text").value.JStr?)
    ensures r.success ==> r.error == "" && r.text == Field(ex.reply, "text").GetOr(JStr("")).s
    ensures !r.success ==> r.text == ""
    ensures ex.Parsed? && !ex.reply.JObj? ==> r.error == ValueOnNonObject(ex.reply)
    ensures ex.Parsed? && Contains(ex.reply, "success") && !Field(ex.reply, "success").value.JBool?
            ==> r.error == TypeMismatch("boolean", Field(ex.reply, "success").value)
    ensures ex.Parsed? && Field(ex.reply, "success") == Some(JBool(true))
            && Contains(ex.reply, "text") && !Field(ex.reply, "text").value.JStr?
            ==> r.error == TypeMismatch("string", Field(ex.reply, "text").value)
    ensures ex.Parsed? && ex.reply.JObj? && Field(ex.reply, "success").GetOr(JBool(false)) == JBool(false)
            ==> r.error == match Field(ex.reply, "error")
                           case None => UnknownError
                           case Some(e) => if e.JStr? then e.s else TypeMismatch("string", e)
  {
    match ex
    case Threw(what) => TranscribeResult(false, "", what)
    case Parsed(j) =>
      match ValueBool(j, "success", false)
      case Err(what) => TranscribeResult(false, "", what)
      case Ok(success) =>
        if success then
          match ValueString(j, "text", "")
          case Err(what) => TranscribeResult(false, "", what)
          case Ok(text) => TranscribeResult(true, text, "")
        else
          match ValueString(j, "error", UnknownError)
          case Err(what) => TranscribeResult(false, "", what)
          case Ok(error) => TranscribeResult(false, "", error)
  }

  // ---------------------------------------------------------------------------
  // processKey
  // ---------------------------------------------------------------------------

  /** The state filled so far, and whether a step threw (which skips the rest). */
  datatype Fill = Filled(state: RimeUIState) | Aborted(state: RimeUIState)

  /** `commit`, when present, must be a string; nothing else is touched. */
  function ReadCommit(j: JValue, s: RimeUIState): (r: Fill)
    ensures r.state == s.(commitText := r.state.commitText)
    ensures !Contains(j, "commit") ==> r == Filled(s)
    ensures Contains(j, "commit") ==> (r.Filled? <==> Field(j, "commit").value.JStr?)
    ensures r.state.commitText != s.commitText ==> Field(j, "commit") == Some(JStr(r.state.commitText))
  {
    if !Contains(j, "commit") then Filled(s)
    else match AsString(Field(j, "commit").value)
      case Ok(t) => Filled(s.(commitText := t))
      case Err(_) => Aborted(s)
  }

  /** `preedit.text` is assigned before `preedit.cursor_pos` is read, so it survives a bad cursor. */
  function ReadPreedit(j: JValue, s: RimeUIState): (r: Fill)
    ensures r.state == s.(preeditText := r.state.preeditText, cursorPos := r.state.cursorPos)
    ensures !Contains(j, "preedit") ==> r == Filled(s)
    ensures r.Filled? && Contains(j, "preedit") && Field(j, "preedit").value.JObj?
            ==> Field(Field(j, "preedit").value, "text").GetOr(JStr("")) == JStr(r.state.preeditText)
    ensures Contains(j, "preedit") ==>
              var text := Field(Field(j, "preedit").value, "text");
              var cursor := Field(Field(j, "preedit").value, "cursor_pos");
              (text.None? || !text.value.JStr? ==> r == Aborted(s))
              && (text.Some? && text.value.JStr? && (cursor.None? || !AsInt(cursor.value).Ok?)
                  ==> r == Aborted(s.(preeditText := text.value.s)))
              && (r.Filled? <==> text.Some? && text.value.JStr? && cursor.Some? && AsInt(cursor.value).Ok?)
              && (r.Filled? ==> r.state == s.(preeditText := text.value.s, cursorPos := AsInt(cursor.value).value))
  {
    if !Contains(j, "preedit") then Filled(s)
    else
      var p := Field(j, "preedit").value;
      match Index(p, "text")
      case Err(_) => Aborted(s)
      case Ok(tj) =>
        match AsString(tj)
        case Err(_) => Aborted(s)
        case Ok(t) =>
          var s1 := s.(preeditText := t);
          match Index(p, "cursor_pos")
          case Err(_) => Aborted(s1)
          case Ok(cj) =>
            match AsInt(cj)
            case Err(_) => Aborted(s1)
            case Ok(c) => Filled(s1.(cursorPos := c))
  }

  /** One element of `candidates`: both keys are required and both must be strings. */
  function DecodeCandidate(c: JValue): (r: Result<Candidate>)
    ensures r.Ok? <==> Field(c, "text").Some? && Field(c, "text").value.JStr?
                       && Field(c, "comment").Some? && Field(c, "comment").value.JStr?
    ensures r.Ok? ==> r.value == Candidate(Field(c, "text").value.s, Field(c, "comment").value.s)
  {
    var text :- ConstIndex(c, "text");
    var t :- AsString(text);
    var comment :- ConstIndex(c, "comment");
    var m :- AsString(comment);
    Ok(Candidate(t, m))
  }

  /** Appends decoded candidates in order until one fails to decode. */
  function PushCandidates(s: RimeUIState, cs: seq<JValue>): (r: Fill)
    ensures |r.state.candidates| <= |s.candidates| + |cs|
    ensures r.state == s.(candidates := r.state.candidates)
    ensures s.candidates <= r.state.candidates
    decreases |cs|
  {
    if cs == [] then Filled(s)
    else match DecodeCandidate(cs[0])
      case Err(_) => Aborted(s)
      case Ok(c) => PushCandidates(s.(candidates := s.candidates + [c]), cs[1..])
  }

  /** The candidates the leading decodable elements give, up to the first that fails. */
  function DecodedCandidates(cs: seq<JValue>): (r: seq<Candidate>)
    ensures |r| <= |cs|
    decreases |cs|
  {
    if cs == [] then []
    else match DecodeCandidate(cs[0])
      case Err(_) => []
      case Ok(c) => [c] + DecodedCandidates(cs[1..])
  }

  /** Element k of the decoded prefix is what element k of the list decodes to. */
  lemma {:induction false} DecodedCandidateAt(cs: seq<JValue>, k: nat)
    requires k < |DecodedCandidates(cs)|
    ensures DecodeCandidate(cs[k]) == Ok(DecodedCandidates(cs)[k])
    decreases k
  {
    if k > 0 {
      DecodedCandidateAt(cs[1..], k - 1);
      assert cs[k] == cs[1..][k - 1];
    }
  }

  /** The decoded prefix stops only at an element that fails to decode. */
  lemma {:induction false} DecodedCandidatesStop(cs: seq<JValue>)
    ensures |DecodedCandidates(cs)| < |cs| ==> DecodeCandidate(cs[|DecodedCandidates(cs)|]).Err?
    decreases |cs|
  {
    if cs != [] && DecodeCandidate(cs[0]).Ok? {
      DecodedCandidatesStop(cs[1..]);
      assert |DecodedCandidates(cs)| == 1 + |DecodedCandidates(cs[1..])|;
      if |DecodedCandidates(cs)| < |cs| {
        assert cs[|DecodedCandidates(cs)|] == cs[1..][|DecodedCandidates(cs[1..])|];
      }
    }
  }

  /**
   * The pushing loop appends, in order, every candidate decoded before the
   * first element that fails (DecodedCandidateAt, DecodedCandidatesStop); it
   * completes exactly when every element decodes.
   */
  lemma {:induction false} PushCandidatesKeepsPrefix(s: RimeUIState, cs: seq<JValue>)
    ensures PushCandidates(s, cs).state.candidates == s.candidates + DecodedCandidates(cs)
    ensures PushCandidates(s, cs).Filled? <==> |DecodedCandidates(cs)| == |cs|
    decreases |cs|
  {
    if cs != [] && DecodeCandidate(cs[0]).Ok? {
      var c := DecodeCandidate(cs[0]).value;
      var s1 := s.(candidates := s.candidates + [c]);
      PushCandidatesKeepsPrefix(s1, cs[1..]);
      assert s1.candidates + DecodedCandidates(cs[1..]) == s.candidates + DecodedCandidates(cs);
    }
  }

  /** `highlighted_index` and `page_size` are read only after the candidate list. */
  function ReadCandidates(j: JValue, s: RimeUIState): (r: Fill)
    ensures r.state == s.(candidates := r.state.candidates, highlightedIndex := r.state.highlightedIndex,
                          pageSize := r.state.pageSize)
    ensures !Contains(j, "candidates") ==> r == Filled(s)
    ensures s.candidates <= r.state.candidates
    ensures Contains(j, "candidates") ==>
              var pushed := PushCandidates(s, Elements(Field(j, "candidates").value));
              var hi := ValueInt(j, "highlighted_index", 0);
              var ps := ValueInt(j, "page_size", DefaultPageSize);
              (pushed.Aborted? ==> r == pushed && r.state.highlightedIndex == s.highlightedIndex
                                   && r.state.pageSize == s.pageSize)
              && (pushed.Filled? ==> r.state.candidates == pushed.state.candidates)
              && (pushed.Filled? && hi.Err? ==> r == Aborted(pushed.state))
              && (pushed.Filled? && hi.Ok? && ps.Err?
                  ==> r == Aborted(pushed.state.(highlightedIndex := hi.value)))
              && (r.Filled? <==> pushed.Filled? && hi.Ok? && ps.Ok?)
              && (r.Filled? ==> r.state.highlightedIndex == hi.value && r.state.pageSize == ps.value)
  {
    if !Contains(j, "candidates") then Filled(s)
    else match PushCandidates(s, Elements(Field(j, "candidates").value))
      case Aborted(s1) => Aborted(s1)
      case Filled(s1) =>
        match ValueInt(j, "highlighted_index", 0)
        case Err(_) => Aborted(s1)
        case Ok(h) =>
          var s2 := s1.(highlightedIndex := h);
          match ValueInt(j, "page_size", DefaultPageSize)
          case Err(_) => Aborted(s2)
          case Ok(p) => Filled(s2.(pageSize := p))
  }

  /** The key-event reply read field by field; an exception clears `handled` and keeps what was filled. */
  function DecodeKeyReply(ex: Exchange): (s: RimeUIState)
  {
    match ex
    case Threw(_) => DefaultUIState
    case Parsed(j) =>
      match ValueBool(j, "handled", false)
      case Err(_) => DefaultUIState
      case Ok(h) =>
        match KeyReplyChain(j, h)
        case Filled(st) => st
        case Aborted(st) => st.(handled := false)
  }

  function Then(f: Fill, j: JValue, step: (JValue, RimeUIState) -> Fill): Fill {
    match f
    case Aborted(_) => f
    case Filled(s) => step(j, s)
  }

  /** The three reading steps of processKey in order, each skipped once one has thrown. */
  function KeyReplyChain(j: JValue, handled: bool): Fill {
    Then(Then(ReadCommit(j, DefaultUIState.(handled := handled)), j, ReadPreedit), j, ReadCandidates)
  }

  /**
   * The catch block: a step that throws leaves `handled` false and every field
   * assigned before it in place; a reply read through holds its `handled`.
   */
  lemma {:induction false} KeyReplyAbortKeepsFilled(j: JValue)
    ensures var h := ValueBool(j, "handled", false);
            h.Ok? ==> match KeyReplyChain(j, h.value)
                      case Aborted(st) => DecodeKeyReply(Parsed(j)) == st.(handled := false)
                      case Filled(st) => DecodeKeyReply(Parsed(j)) == st && st.handled == h.value
    ensures var d := DecodeKeyReply(Parsed(j));
            ValueBool(j, "handled", false).Ok? && Field(j, "commit").Some? && Field(j, "commit").value.JStr?
            ==> d.commitText == Field(j, "commit").value.s
    ensures Contains(j, "preedit") ==>
              var d := DecodeKeyReply(Parsed(j));
              var text := Field(Field(j, "preedit").value, "text");
              var cursor := Field(Field(j, "preedit").value, "cursor_pos");
              ValueBool(j, "handled", false).Ok? && (!Contains(j, "commit") || Field(j, "commit").value.JStr?)
              && text.Some? && text.value.JStr? && (cursor.None? || !AsInt(cursor.value).Ok?)
              ==> !d.handled && d.preeditText == text.value.s && d.cursorPos == 0 && d.candidates == []
  {
    var h := ValueBool(j, "handled", false);
    if h.Ok? {
      var f1 := ReadCommit(j, DefaultUIState.(handled := h.value));
      var f2 := Then(f1, j, ReadPreedit);
      assert f2.state.commitText == f1.state.commitText;
      assert KeyReplyChain(j, h.value).state.commitText == f2.state.commitText;
      assert KeyReplyChain(j, h.value).state.handled == h.value;
    }
  }

  /**
   * What the key-event decoding promises: a failed round trip gives the
   * default state; `handled` holds only if the reply said so; each part keeps
   * its default unless its key is present; a non-empty commit is the reply's.
   */
  lemma {:induction false} DecodeKeyReplyDefaults(ex: Exchange)
    ensures ex.Threw? ==> DecodeKeyReply(ex) == DefaultUIState
    ensures DecodeKeyReply(ex).handled ==> ex.Parsed? && Field(ex.reply, "handled") == Some(JBool(true))
    ensures ex.Parsed? && !Contains(ex.reply, "commit") ==> DecodeKeyReply(ex).commitText == ""
    ensures DecodeKeyReply(ex).commitText != "" ==> ex.Parsed? && Field(ex.reply, "commit") == Some(JStr(DecodeKeyReply(ex).commitText))
    ensures ex.Parsed? && !Contains(ex.reply, "preedit")
            ==> DecodeKeyReply(ex).preeditText == "" && DecodeKeyReply(ex).cursorPos == 0
    ensures ex.Parsed? && !Contains(ex.reply, "candidates")
            ==> DecodeKeyReply(ex).candidates == [] && DecodeKeyReply(ex).highlightedIndex == 0
                && DecodeKeyReply(ex).pageSize == DefaultPageSize
  {
    if ex.Parsed? {
      var j := ex.reply;
      match ValueBool(j, "handled", false)
      case Err(_) =>
      case Ok(h) =>
        var f1 := ReadCommit(j, DefaultUIState.(handled := h));
        var f2 := Then(f1, j, ReadPreedit);
        var f3 := Then(f2, j, ReadCandidates);
        assert f2.state.commitText == f1.state.commitText;
        assert f3.state.commitText == f2.state.commitText;
    }
  }

  /**
   * processKey's decoding step, with its loop over the candidate elements;
   * it computes exactly DecodeKeyReply.
   */
  method ProcessKey(ex: Exchange) returns (state: RimeUIState)
    ensures state == DecodeKeyReply(ex)
  {
    state := DefaultUIState;
    if ex.Threw? {
      return;
    }
    var j := ex.reply;
    var h := ValueBool(j, "handled", false);
    if h.Err? {
      state := state.(handled := false);
      return;
    }
    state := state.(handled := h.value);
    var f := ReadCommit(j, state);
    if f.Aborted? {
      state := f.state.(handled := false);
      return;
    }
    f := ReadPreedit(j, f.state);
    if f.Aborted? {
      state := f.state.(handled := false);
      return;
    }
    state := f.state;
    if Contains(j, "candidates") {
      var es := Elements(Field(j, "candidates").value);
      ghost var start := state;
      for i := 0 to |es|
        invariant PushCandidates(start, es) == PushCandidates(state, es[i..])
      {
        var c := DecodeCandidate(es[i]);
        if c.Err? {
          state := state.(handled := false);
          return;
        }
        assert es[i..][1..] == es[i + 1..];
        state := state.(candidates := state.candidates + [c.value]);
      }
      var hi := ValueInt(j, "highlighted_index", 0);
      if hi.Err? {
        state := state.(handled := false);
        return;
      }
      state := state.(highlightedIndex := hi.value);
      var ps := ValueInt(j, "page_size", DefaultPageSize);
      if ps.Err? {
        state := state.(handled := false);
        return;
      }
      state := state.(pageSize := ps.value);
    }
  }

  // ---------------------------------------------------------------------------
  // ping and reset
  // ---------------------------------------------------------------------------

  /** ping: the reply's `pong` (default false), and false on any exception. */
  function DecodePing(ex: Exchange): (alive: bool)
    ensures alive <==> ex.Parsed? && Field(ex.reply, "pong") == Some(JBool(true))
  {
    match ex
    case Threw(_) => false
    case Parsed(j) =>
      match ValueBool(j, "pong", false)
      case Ok(b) => b
      case Err(_) => false
  }

  // ---------------------------------------------------------------------------
  // sendRequest
  // ---------------------------------------------------------------------------

  /** What one send() call does: write some bytes, be interrupted, or fail. */
  datatype SendStep = Wrote(n: nat) | SendInterrupted | SendFailed

  /** What one recv() call does: deliver a chunk (empty at the peer's close), be interrupted, or fail. */
  datatype RecvStep = Chunk(data: seq<byte>) | RecvInterrupted | RecvFailed

  /** The system's answers to one request, in call order. */
  datatype Peer = Peer(socketOk: bool, connectOk: bool, sends: seq<SendStep>, recvs: seq<RecvStep>)

  /** How a sendRequest call ends: the reply text, a thrown exception, or no return (there is no timeout). */
  datatype Transport = Response(text: seq<byte>) | Thrown(what: string) | Blocked

  datatype Phase<T> = Done(value: T) | Failed | Stalled

  function Min(a: nat, b: nat): nat {
    if a <= b then a else b
  }

  /** The write loop: each send() writes at most what is left; EINTR retries; running out of answers blocks. */
  function SendLoop(remaining: nat, sends: seq<SendStep>): Phase<()>
    decreases |sends|
  {
    if remaining == 0 then Done(())
    else if sends == [] then Stalled
    else match sends[0]
      case Wrote(n) => SendLoop(remaining - Min(n, remaining), sends[1..])
      case SendInterrupted => SendLoop(remaining, sends[1..])
      case SendFailed => Failed
  }

  /** The read loop: chunks are appended until a recv() returns 0; EINTR retries. */
  function RecvLoop(recvs: seq<RecvStep>): Phase<seq<byte>>
    decreases |recvs|
  {
    if recvs == [] then Stalled
    else match recvs[0]
      case Chunk(d) =>
        if d == [] then Done([])
        else (match RecvLoop(recvs[1..])
              case Done(rest) => Done(d + rest)
              case Failed => Failed
              case Stalled => Stalled)
      case RecvInterrupted => RecvLoop(recvs[1..])
      case RecvFailed => Failed
  }

  function ConnectFailure(socketPath: string): string {
    "Failed to connect to backend: " + socketPath
  }

  function SendRequestSpec(size: nat, socketPath: string, peer: Peer): Transport {
    if !peer.socketOk then Thrown("Failed to create socket")
    else if !peer.connectOk then Thrown(ConnectFailure(socketPath))
    else match SendLoop(size, peer.sends)
      case Stalled => Blocked
      case Failed => Thrown("Failed to send request")
      case Done(_) =>
        match RecvLoop(peer.recvs)
        case Stalled => Blocked
        case Failed => Thrown("Failed to receive response")
        case Done(text) => Response(text)
  }

  predicate NotSendInterrupt(s: SendStep) { !s.SendInterrupted? }

  predicate NotRecvInterrupt(s: RecvStep) { !s.RecvInterrupted? }

  /** The answers with every interrupted call taken out. */
  function DropSendInterrupts(sends: seq<SendStep>): (r: seq<SendStep>)
    ensures forall k :: 0 <= k < |r| ==> NotSendInterrupt(r[k])
  {
    if sends == [] then []
    else if !NotSendInterrupt(sends[0]) then DropSendInterrupts(sends[1..])
    else [sends[0]] + DropSendInterrupts(sends[1..])
  }

  function DropRecvInterrupts(recvs: seq<RecvStep>): (r: seq<RecvStep>)
    ensures forall k :: 0 <= k < |r| ==> NotRecvInterrupt(r[k])
  {
    if recvs == [] then []
    else if !NotRecvInterrupt(recvs[0]) then DropRecvInterrupts(recvs[1..])
    else [recvs[0]] + DropRecvInterrupts(recvs[1..])
  }

  /** Interrupted send() calls change nothing: the loop retries them. */
  lemma {:induction false} SendInterruptsAreRetried(remaining: nat, sends: seq<SendStep>)
    ensures SendLoop(remaining, sends) == SendLoop(remaining, DropSendInterrupts(sends))
    decreases |sends|
  {
    if sends != [] && remaining != 0 {
      var rest := DropSendInterrupts(sends[1..]);
      if sends[0].SendInterrupted? {
        SendInterruptsAreRetried(remaining, sends[1..]);
      } else {
        var dropped := [sends[0]] + rest;
        assert DropSendInterrupts(sends) == dropped;
        assert dropped[0] == sends[0] && dropped[1..] == rest;
        if sends[0].Wrote? {
          SendInterruptsAreRetried(remaining - Min(sends[0].n, remaining), sends[1..]);
        }
      }
    }
  }

  /** Interrupted recv() calls change nothing: the loop retries them. */
  lemma {:induction false} RecvInterruptsAreRetried(recvs: seq<RecvStep>)
    ensures RecvLoop(recvs) == RecvLoop(DropRecvInterrupts(recvs))
    decreases |recvs|
  {
    if recvs != [] {
      var rest := DropRecvInterrupts(recvs[1..]);
      RecvInterruptsAreRetried(recvs[1..]);
      if !recvs[0].RecvInterrupted? {
        var dropped := [recvs[0]] + rest;
        assert DropRecvInterrupts(recvs) == dropped;
        assert dropped[0] == recvs[0] && dropped[1..] == rest;
      }
    }
  }

  /** The reply is the concatenation of the chunks read before the peer's close. */
  lemma {:induction false} ChunksConcatenate(chunks: seq<seq<byte>>)
    requires forall k :: 0 <= k < |chunks| ==> chunks[k] != []
    ensures RecvLoop(seq(|chunks|, k requires 0 <= k < |chunks| => Chunk(chunks[k])) + [Chunk([])])
            == Done(Concat(chunks))
    decreases |chunks|
  {
    var steps := seq(|chunks|, k requires 0 <= k < |chunks| => Chunk(chunks[k]));
    if chunks != [] {
      var tail := seq(|chunks| - 1, k requires 0 <= k < |chunks| - 1 => Chunk(chunks[1..][k]));
      assert (steps + [Chunk([])])[1..] == tail + [Chunk([])];
      ChunksConcatenate(chunks[1..]);
    }
  }

  /**
   * sendRequest: connect, write the whole request, half-close, read to the
   * end. Each failure after socket() closes the socket before throwing; only a
   * call that never returns still holds it.
   */
  method SendRequest(kernel: Kernel, request: seq<byte>, socketPath: string, peer: Peer) returns (t: Transport)
    requires kernel.Valid()
    modifies kernel
    ensures kernel.Valid() && kernel.files == old(kernel.files)
    ensures t == SendRequestSpec(|request|, socketPath, peer)
    ensures !t.Blocked? ==> kernel.open == old(kernel.open)
    ensures t.Blocked? ==> kernel.open == old(kernel.open) + {Fd(old(kernel.nextId))}
  {
    var sock := kernel.Socket(peer.socketOk);
    if sock < 0 {
      return Thrown("Failed to create socket");
    }
    if !peer.connectOk {
      kernel.Close(sock);
      return Thrown(ConnectFailure(socketPath));
    }
    var totalSent: nat := 0;
    var i := 0;
    while totalSent < |request|
      invariant 0 <= i <= |peer.sends| && totalSent <= |request|
      invariant SendLoop(|request| - totalSent, peer.sends[i..]) == SendLoop(|request|, peer.sends)
      invariant kernel.Valid() && kernel.open == old(kernel.open) + {Fd(sock)}
      invariant kernel.files == old(kernel.files) && sock == old(kernel.nextId)
      decreases |peer.sends| - i
    {
      if i == |peer.sends| {
        return Blocked;
      }
      assert peer.sends[i..][1..] == peer.sends[i + 1..];
      match peer.sends[i] {
        case SendInterrupted =>
        case SendFailed =>
          kernel.Close(sock);
          return Thrown("Failed to send request");
        case Wrote(n) =>
          totalSent := totalSent + Min(n, |request| - totalSent);
      }
      i := i + 1;
    }
    // shutdown(sock, SHUT_WR) half-closes; the descriptor stays open.
    var response: seq<byte> := [];
    PrependEmpty(RecvLoop(peer.recvs));
    var k := 0;
    while true
      invariant 0 <= k <= |peer.recvs|
      invariant RecvLoop(peer.recvs) == Prepend(response, RecvLoop(peer.recvs[k..]))
      invariant kernel.Valid() && kernel.open == old(kernel.open) + {Fd(sock)}
      invariant kernel.files == old(kernel.files) && sock == old(kernel.nextId)
      decreases |peer.recvs| - k
    {
      if k == |peer.recvs| {
        return Blocked;
      }
      assert peer.recvs[k..][1..] == peer.recvs[k + 1..];
      match peer.recvs[k] {
        case RecvInterrupted =>
        case RecvFailed =>
          kernel.Close(sock);
          return Thrown("Failed to receive response");
        case Chunk(d) =>
          if d == [] {
            assert RecvLoop(peer.recvs) == Done(response) by {
              assert response + [] == response;
            }
            break;
          }
          PrependAssoc(response, d, RecvLoop(peer.recvs[k + 1..]));
          response := response + d;
      }
      k := k + 1;
    }
    kernel.Close(sock);
    t := Response(response);
  }

  function Prepend(prefix: seq<byte>, p: Phase<seq<byte>>): Phase<seq<byte>> {
    match p
    case Done(rest) => Done(prefix + rest)
    case Failed => Failed
    case Stalled => Stalled
  }

  lemma PrependEmpty(p: Phase<seq<byte>>)
    ensures Prepend([], p) == p
  {
    if p.Done? {
      assert [] + p.value == p.value;
    }
  }

  lemma PrependAssoc(a: seq<byte>, b: seq<byte>, p: Phase<seq<byte>>)
    ensures Prepend(a, Prepend(b, p)) == Prepend(a + b, p)
  {
    if p.Done? {
      assert a + (b + p.value) == (a + b) + p.value;
    }
  }

  /** A round trip's outcome once the reply text is parsed; None when the call never returns. */
  function ExchangeOf(t: Transport, parse: seq<byte> -> Result<JValue>): Option<Exchange> {
    match t
    case Blocked => None
    case Thrown(what) => Some(Threw(what))
    case Response(text) =>
      match parse(text)
      case Ok(j) => Some(Parsed(j))
      case Err(what) => Some(Threw(what))
  }

  /**
   * Scenario "backend down": whatever the reason the connection cannot be made,
   * ping reports false and key events come back unhandled with every default.
   */
  lemma BackendDown(socketPath: string, peer: Peer, size: nat, parse: seq<byte> -> Result<JValue>)
    requires !peer.socketOk || !peer.connectOk
    ensures ExchangeOf(SendRequestSpec(size, socketPath, peer), parse).Some?
    ensures !DecodePing(ExchangeOf(SendRequestSpec(size, socketPath, peer), parse).value)
    ensures DecodeKeyReply(ExchangeOf(SendRequestSpec(size, socketPath, peer), parse).value) == DefaultUIState
    ensures !DecodeTranscribe(ExchangeOf(SendRequestSpec(size, socketPath, peer), parse).value).success
  {
  }
}
