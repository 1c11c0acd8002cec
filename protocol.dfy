/**
 * The two ends of the socket protocol against each other: every request the
 * addon builds is routed by the backend as intended, every reply the backend
 * writes for a key event decodes on the addon side to exactly the session's
 * state, and every error reply decodes to the failure defaults.
 */
module Protocol {
  import opened Wrappers
  import opened Json
  import opened IpcClient
  import opened RimeHandler
  import opened Backend

  /** The requests the addon sends are the ones the backend dispatches. */
  lemma ClientRequestsRoute(audioPath: string, keyval: int, mask: int)
    ensures Route(KeyEventRequest(keyval, mask)) == KeyEvent(JInt(keyval), JInt(mask))
    ensures audioPath != "" ==> Route(TranscribeRequest(audioPath)) == Transcribe(JStr(audioPath))
    ensures audioPath == "" ==> Route(TranscribeRequest(audioPath)) == Reply(MissingAudioPathReply)
    ensures Route(ResetRequest) == ResetEngine
    ensures Route(PingRequest) == Reply(PongReply)
  {
    var k := KeyEventRequest(keyval, mask).fields;
    LookupDistinct(k, 0);
    LookupDistinct(k, 1);
    LookupDistinct(k, 2);
    var t := TranscribeRequest(audioPath).fields;
    LookupDistinct(t, 0);
    LookupDistinct(t, 1);
  }

  /** The addon's view of a candidate the backend listed (a missing comment is empty). */
  function ClientCandidate(c: RimeCandidate): Candidate {
    Candidate(c.text, c.comment.GetOr(""))
  }

  function ClientCandidates(cs: seq<RimeCandidate>): (r: seq<Candidate>)
    ensures |r| == |cs| && forall k :: 0 <= k < |cs| ==> r[k] == ClientCandidate(cs[k])
  {
    seq(|cs|, k requires 0 <= k < |cs| => ClientCandidate(cs[k]))
  }

  /** What the addon should see for a session snapshot: its parts, with the client defaults where a part is absent. */
  function UIStateOf(s: Snapshot): RimeUIState {
    var menu := MenuCandidates(s) != [];
    RimeUIState(
      s.handled,
      CommitText(s),
      PreeditText(s),
      if PreeditText(s) != "" then CursorPos(s) else 0,
      ClientCandidates(MenuCandidates(s)),
      if menu then Highlighted(s) else 0,
      if menu then PageSize(s) else DefaultPageSize)
  }

  /** Candidate objects written by the backend are all decoded, in order. */
  lemma {:induction false} CandidatesRoundTrip(st: RimeUIState, cs: seq<RimeCandidate>)
    ensures PushCandidates(st, CandidateObjects(cs)) == Filled(st.(candidates := st.candidates + ClientCandidates(cs)))
    decreases |cs|
  {
    if cs == [] {
      assert st.candidates + ClientCandidates(cs) == st.candidates;
    } else {
      var next := st.(candidates := st.candidates + [ClientCandidate(cs[0])]);
      CandidatesRoundTrip(next, cs[1..]);
      CandidatesHead(st, cs, next);
    }
  }

  /** The inductive step of CandidatesRoundTrip: the first candidate decodes, and the rest was pushed onto it. */
  lemma CandidatesHead(st: RimeUIState, cs: seq<RimeCandidate>, next: RimeUIState)
    requires cs != [] && next == st.(candidates := st.candidates + [ClientCandidate(cs[0])])
    requires PushCandidates(next, CandidateObjects(cs[1..]))
             == Filled(next.(candidates := next.candidates + ClientCandidates(cs[1..])))
    ensures PushCandidates(st, CandidateObjects(cs)) == Filled(st.(candidates := st.candidates + ClientCandidates(cs)))
  {
    PushFirstCandidate(st, cs, next);
    CandidatesAppend(st.candidates, cs);
  }

  lemma PushFirstCandidate(st: RimeUIState, cs: seq<RimeCandidate>, next: RimeUIState)
    requires cs != [] && next == st.(candidates := st.candidates + [ClientCandidate(cs[0])])
    ensures PushCandidates(st, CandidateObjects(cs)) == PushCandidates(next, CandidateObjects(cs[1..]))
  {
    CandidateDecodes(cs[0]);
    CandidatesCons(cs);
    PushStep(st, CandidateObjects(cs), ClientCandidate(cs[0]));
  }

  lemma CandidatesAppend(before: seq<Candidate>, cs: seq<RimeCandidate>)
    requires cs != []
    ensures before + [ClientCandidate(cs[0])] + ClientCandidates(cs[1..]) == before + ClientCandidates(cs)
  {
    CandidatesCons(cs);
  }

  /** A first element that decodes is appended, and pushing goes on with the rest. */
  lemma PushStep(st: RimeUIState, objects: seq<JValue>, c: Candidate)
    requires objects != [] && DecodeCandidate(objects[0]) == Ok(c)
    ensures PushCandidates(st, objects) == PushCandidates(st.(candidates := st.candidates + [c]), objects[1..])
  {
  }

  /** Both candidate lists split into their first element and the rest. */
  lemma CandidatesCons(cs: seq<RimeCandidate>)
    requires cs != []
    ensures CandidateObjects(cs)[0] == CandidateObject(cs[0])
    ensures CandidateObjects(cs)[1..] == CandidateObjects(cs[1..])
    ensures ClientCandidates(cs) == [ClientCandidate(cs[0])] + ClientCandidates(cs[1..])
  {
  }

  /** One candidate object the backend writes decodes to the addon's view of that candidate. */
  lemma CandidateDecodes(c: RimeCandidate)
    ensures DecodeCandidate(CandidateObject(c)) == Ok(ClientCandidate(c))
  {
    var o := CandidateObject(c);
    LookupDistinct(o.fields, 0);
    LookupDistinct(o.fields, 1);
  }

  /** The commit step reads the snapshot's commit text. */
  lemma CommitStep(s: Snapshot, j: JValue, st: RimeUIState)
    requires j.JObj? && Field(j, "commit") == Expected(s, "commit")
    ensures ReadCommit(j, st) == Filled(st.(commitText := if CommitText(s) != "" then CommitText(s) else st.commitText))
  {
  }

  /** The preedit step reads the snapshot's preedit text and cursor, when there is a preedit. */
  lemma PreeditStep(s: Snapshot, j: JValue, st: RimeUIState)
    requires j.JObj? && Field(j, "preedit") == Expected(s, "preedit")
    ensures ReadPreedit(j, st)
            == Filled(if PreeditText(s) != "" then st.(preeditText := PreeditText(s), cursorPos := CursorPos(s)) else st)
  {
    if PreeditText(s) != "" {
      var p := Field(j, "preedit").value;
      LookupDistinct(p.fields, 0);
      LookupDistinct(p.fields, 1);
    }
  }

  /** The candidate step reads every candidate, then the highlighted index and the page size, when there is a menu. */
  lemma CandidatesStep(s: Snapshot, j: JValue, st: RimeUIState)
    requires j.JObj? && st.candidates == []
    requires Field(j, "candidates") == Expected(s, "candidates")
    requires Field(j, "highlighted_index") == Expected(s, "highlighted_index")
    requires Field(j, "page_size") == Expected(s, "page_size")
    ensures ReadCandidates(j, st)
            == Filled(if MenuCandidates(s) != []
                      then st.(candidates := ClientCandidates(MenuCandidates(s)), highlightedIndex := Highlighted(s),
                               pageSize := PageSize(s))
                      else st)
  {
    var cs := MenuCandidates(s);
    if cs != [] {
      assert Elements(Field(j, "candidates").value) == CandidateObjects(cs);
      CandidatesRoundTrip(st, cs);
      assert st.candidates + ClientCandidates(cs) == ClientCandidates(cs);
      var st1 := st.(candidates := ClientCandidates(cs));
      assert PushCandidates(st, Elements(Field(j, "candidates").value)) == Filled(st1);
      assert ValueInt(j, "highlighted_index", 0) == Ok(Highlighted(s));
      assert ValueInt(j, "page_size", DefaultPageSize) == Ok(PageSize(s));
    }
  }

  /** A key-event reply decodes on the addon side to exactly the session's state. */
  lemma KeyReplyRoundTrip(s: Snapshot)
    ensures DecodeKeyReply(Parsed(KeyResult(s))) == UIStateOf(s)
  {
    DecodeExpected(s, KeyResult(s));
  }

  /** `j` is an object whose every field is the one the snapshot's reply carries. */
  ghost predicate Carries(j: JValue, s: Snapshot) {
    j.JObj? && forall key :: Field(j, key) == Expected(s, key)
  }

  /** Any object whose fields are a snapshot's expected ones decodes to that snapshot's state. */
  lemma DecodeExpected(s: Snapshot, j: JValue)
    requires Carries(j, s)
    ensures DecodeKeyReply(Parsed(j)) == UIStateOf(s)
  {
    assert ValueBool(j, "handled", false) == Ok(s.handled);
    var st0 := DefaultUIState.(handled := s.handled);
    var st2 := ReadTextParts(s, j, st0);
    CandidatesStep(s, j, st2);
    var st3 := if MenuCandidates(s) != []
               then st2.(candidates := ClientCandidates(MenuCandidates(s)), highlightedIndex := Highlighted(s),
                         pageSize := PageSize(s))
               else st2;
    assert Then(Filled(st2), j, ReadCandidates) == Filled(st3);
    assert st3 == UIStateOf(s);
    DecodeFilled(j, s.handled, st3);
  }

  /** The commit and preedit steps in sequence, and the state they leave. */
  lemma ReadTextParts(s: Snapshot, j: JValue, st0: RimeUIState) returns (st2: RimeUIState)
    requires Carries(j, s) && st0.candidates == []
    ensures st2 == (var st1 := st0.(commitText := if CommitText(s) != "" then CommitText(s) else st0.commitText);
                    if PreeditText(s) != "" then st1.(preeditText := PreeditText(s), cursorPos := CursorPos(s)) else st1)
    ensures st2.candidates == []
    ensures Then(ReadCommit(j, st0), j, ReadPreedit) == Filled(st2)
  {
    CommitStep(s, j, st0);
    var st1 := st0.(commitText := if CommitText(s) != "" then CommitText(s) else st0.commitText);
    PreeditStep(s, j, st1);
    st2 := if PreeditText(s) != "" then st1.(preeditText := PreeditText(s), cursorPos := CursorPos(s)) else st1;
  }

  /** A reply whose steps all fill decodes to the state they leave. */
  lemma DecodeFilled(j: JValue, h: bool, st: RimeUIState)
    requires ValueBool(j, "handled", false) == Ok(h)
    requires Then(Then(ReadCommit(j, DefaultUIState.(handled := h)), j, ReadPreedit), j, ReadCandidates) == Filled(st)
    ensures DecodeKeyReply(Parsed(j)) == st
  {
  }

  /** Every {"error": ...} reply, and the handled = false replies, fail closed on the addon side. */
  lemma ErrorRepliesFailClosed(message: string)
    ensures DecodeKeyReply(Parsed(ErrorReply(message))) == DefaultUIState
    ensures DecodeTranscribe(Parsed(ErrorReply(message))) == TranscribeResult(false, "", message)
    ensures !DecodePing(Parsed(ErrorReply(message)))
    ensures DecodeKeyReply(Parsed(Unhandled)) == DefaultUIState
    ensures DecodeKeyReply(Parsed(MissingKeyvalReply)) == DefaultUIState
    ensures DecodeTranscribe(Parsed(MissingAudioPathReply)) == TranscribeResult(false, "", "缺少 audio_path 参数")
  {
    var e := ErrorReply(message);
    assert Field(e, "error") == Some(JStr(message));
    assert !Contains(e, "success") && !Contains(e, "handled") && !Contains(e, "pong");
    assert !Contains(e, "commit") && !Contains(e, "preedit") && !Contains(e, "candidates");
    assert Field(Unhandled, "handled") == Some(JBool(false));
    assert !Contains(Unhandled, "commit") && !Contains(Unhandled, "preedit") && !Contains(Unhandled, "candidates");
    var k := MissingKeyvalReply;
    assert Field(k, "handled") == Some(JBool(false));
    assert !Contains(k, "commit") && !Contains(k, "preedit") && !Contains(k, "candidates");
    var a := MissingAudioPathReply;
    assert Field(a, "success") == Some(JBool(false));
    assert Field(a, "error") == Some(JStr("缺少 audio_path 参数"));
  }

  /** The backend's answer to ping is the one the addon takes as alive. */
  lemma PingRoundTrip()
    ensures DecodePing(Parsed(Answer(Route(PingRequest), Err(""), JNull)))
  {
    ClientRequestsRoute("", 0, 0);
    assert Field(PongReply, "pong") == Some(JBool(true));
  }
}
