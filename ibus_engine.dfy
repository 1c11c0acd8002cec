/**
 * The IBus front end: one engine object per input context, which routes key
 * events (push-to-talk, the host's switch hotkeys, everything else to an
 * in-process Rime session), captures audio in process while F9 is held,
 * and hands the recording to a background transcription job whose result
 * comes back to the main loop as an idle callback.
 *
 * The host is modelled by the operations the engine issues on it, in order.
 */
module IBusEngine {
  import opened Wrappers
  import opened Json
  import opened Keys
  import opened Posix
  import opened RimeHandler
  import opened Audio
  import IpcClient
  import FcitxUi

  // ---------------------------------------------------------------------------
  // The host's preedit and lookup table
  // ---------------------------------------------------------------------------

  datatype Table = Table(labels: seq<string>, pageSize: int, cursor: int)

  /** One call into the host: set the preedit, show or hide the lookup table, or commit text. */
  datatype UiEvent =
    | PreeditSet(text: string, cursor: int, visible: bool, underlined: bool)
    | TableShown(table: Table)
    | TableHidden
    | Committed(text: string)

  /** _clear_preedit. */
  const ClearPreedit: UiEvent := PreeditSet("", 0, false, false)

  /** _update_preedit: a plain status text with the cursor at its end. */
  function Status(text: string): (e: UiEvent)
    ensures e.PreeditSet? && e.text == text && e.cursor == |text| && e.visible && !e.underlined
  {
    PreeditSet(text, |text|, true, false)
  }

  const RecordingStatus: string := "🎤 录音中..."
  const TranscribingStatus: string := "⏳ 识别中..."
  const ErrorMark: string := "❌ "
  const StartFailedPrefix: string := "❌ 录音失败: "
  const AsrNotReady: string := "ASR未就绪"
  const UnknownErrorText: string := "未知错误"

  /** What the user sees: the preedit, the lookup table, and everything committed so far. */
  datatype Screen = Screen(preedit: string, cursor: int, visible: bool, underlined: bool,
                           table: Option<Table>, committed: seq<string>)

  function Apply(sc: Screen, e: UiEvent): Screen {
    match e
    case PreeditSet(t, c, v, u) => sc.(preedit := t, cursor := c, visible := v, underlined := u)
    case TableShown(t) => sc.(table := Some(t))
    case TableHidden => sc.(table := None)
    case Committed(t) => sc.(committed := sc.committed + [t])
  }

  function ApplyAll(sc: Screen, es: seq<UiEvent>): Screen
    decreases |es|
  {
    if es == [] then sc else ApplyAll(Apply(sc, es[0]), es[1..])
  }

  lemma {:induction false} ApplyAllAppend(sc: Screen, a: seq<UiEvent>, b: seq<UiEvent>)
    ensures ApplyAll(sc, a + b) == ApplyAll(ApplyAll(sc, a), b)
    decreases |a|
  {
    if a == [] {
      assert a + b == b;
    } else {
      assert (a + b)[1..] == a[1..] + b;
      ApplyAllAppend(Apply(sc, a[0]), a[1..], b);
    }
  }

  lemma ApplyTwo(sc: Screen, a: UiEvent, b: UiEvent)
    ensures ApplyAll(sc, [a, b]) == Apply(Apply(sc, a), b)
  {
    assert [a, b][1..] == [b];
    assert [b][1..] == [];
    assert ApplyAll(Apply(Apply(sc, a), b), []) == Apply(Apply(sc, a), b);
    assert ApplyAll(Apply(sc, a), [b]) == ApplyAll(Apply(Apply(sc, a), b), []);
  }

  lemma ApplyThree(sc: Screen, a: UiEvent, b: UiEvent, c: UiEvent)
    ensures ApplyAll(sc, [a, b, c]) == Apply(Apply(Apply(sc, a), b), c)
  {
    assert [a, b, c][1..] == [b, c];
    ApplyTwo(Apply(sc, a), b, c);
  }

  // ---------------------------------------------------------------------------
  // Rime's answer on screen
  // ---------------------------------------------------------------------------

  /** A lookup-table entry: the text, then a space and the comment when the comment is non-empty. */
  function TableLabel(c: RimeCandidate): (shown: string)
    ensures c.comment.GetOr("") == "" ==> shown == c.text
    ensures c.comment.GetOr("") != "" ==> shown == c.text + " " + c.comment.value
  {
    if c.comment.GetOr("") != "" then c.text + " " + c.comment.value else c.text
  }

  /** Both front ends label a candidate the same way. */
  lemma LabelsAgree(c: RimeCandidate)
    ensures TableLabel(c) == FcitxUi.CandidateLabel(IpcClient.Candidate(c.text, c.comment.GetOr("")))
  {
  }

  function TableLabels(cs: seq<RimeCandidate>): (r: seq<string>)
    ensures |r| == |cs| && forall k :: 0 <= k < |cs| ==> r[k] == TableLabel(cs[k])
  {
    seq(|cs|, k requires 0 <= k < |cs| => TableLabel(cs[k]))
  }

  /** The preedit shown for a composition: the text underlined with Rime's cursor, or cleared. */
  function PreeditEvent(c: Composition): UiEvent {
    var text := c.preedit.GetOr("");
    if text != "" then PreeditSet(text, c.cursorPos, true, true) else ClearPreedit
  }

  /** _update_rime_ui: the preedit, then the lookup table (hidden when there are no candidates; the cursor is not clamped). */
  function ContextEvents(context: RimeContext): (es: seq<UiEvent>)
    ensures |es| == 2 && es[0] == PreeditEvent(context.composition)
    ensures context.menu.candidates == [] ==> es[1] == TableHidden
    ensures context.menu.candidates != [] ==>
              es[1] == TableShown(Table(TableLabels(context.menu.candidates), context.menu.pageSize, context.menu.highlighted))
  {
    var menu := context.menu;
    [PreeditEvent(context.composition),
     if menu.candidates == [] then TableHidden else TableShown(Table(TableLabels(menu.candidates), menu.pageSize, menu.highlighted))]
  }

  /** The text Rime commits after a key, "" for none. */
  function CommitOf(s: Snapshot): string {
    s.commit.GetOr("")
  }

  /** What a processed key puts on screen: a commit (preedit cleared and table hidden first), then the refreshed context. */
  function KeyEvents(s: Snapshot): seq<UiEvent> {
    (if CommitOf(s) != "" then [ClearPreedit, TableHidden, Committed(CommitOf(s))] else [])
    + (if s.context.Some? then ContextEvents(s.context.value) else [ClearPreedit, TableHidden])
  }

  /** The screen after a key is determined by Rime's answer alone: only the commit log remembers what came before. */
  function ExpectedScreen(before: Screen, s: Snapshot): Screen {
    var pe := if s.context.Some? then PreeditEvent(s.context.value.composition) else ClearPreedit;
    var menu := if s.context.Some? then s.context.value.menu.candidates else [];
    Screen(pe.text, pe.cursor, pe.visible, pe.underlined,
           if menu == [] then None
           else Some(Table(TableLabels(menu), s.context.value.menu.pageSize, s.context.value.menu.highlighted)),
           before.committed + (if CommitOf(s) != "" then [CommitOf(s)] else []))
  }

  lemma KeyEventsShowAnswer(before: Screen, s: Snapshot)
    ensures ApplyAll(before, KeyEvents(s)) == ExpectedScreen(before, s)
  {
    var head := if CommitOf(s) != "" then [ClearPreedit, TableHidden, Committed(CommitOf(s))] else [];
    var tail := if s.context.Some? then ContextEvents(s.context.value) else [ClearPreedit, TableHidden];
    ApplyAllAppend(before, head, tail);
    if CommitOf(s) != "" {
      ApplyThree(before, ClearPreedit, TableHidden, Committed(CommitOf(s)));
    }
    var mid := ApplyAll(before, head);
    assert mid.committed == before.committed + (if CommitOf(s) != "" then [CommitOf(s)] else []);
    ApplyTwo(mid, tail[0], tail[1]);
    assert tail == [tail[0], tail[1]];
  }

  /** The commit reaches the application before any refreshed preedit or table, and at most once. */
  lemma CommitComesFirst(s: Snapshot)
    requires CommitOf(s) != ""
    ensures KeyEvents(s)[..3] == [ClearPreedit, TableHidden, Committed(CommitOf(s))]
    ensures forall k :: 3 <= k < |KeyEvents(s)| ==> !KeyEvents(s)[k].Committed?
  {
  }

  // ---------------------------------------------------------------------------
  // Python's str.strip
  // ---------------------------------------------------------------------------

  /** Python's whitespace characters (str.isspace). */
  predicate IsPySpace(c: char) {
    var n := c as int;
    n == 0x20 || 0x09 <= n <= 0x0d || 0x1c <= n <= 0x1f || n == 0x85 || n == 0xa0 || n == 0x1680
    || 0x2000 <= n <= 0x200a || n == 0x2028 || n == 0x2029 || n == 0x202f || n == 0x205f || n == 0x3000
  }

  /** The first position at or after `i` whose character `space` does not accept, or |s|. */
  function SkipLeading(s: string, space: char -> bool, i: nat): (n: nat)
    requires i <= |s|
    ensures i <= n <= |s|
    ensures n < |s| ==> !space(s[n])
    ensures forall k :: i <= k < n ==> space(s[k])
    decreases |s| - i
  {
    if i < |s| && space(s[i]) then SkipLeading(s, space, i + 1) else i
  }

  /** The end of `s[lo..j]` once the trailing characters `space` accepts are dropped. */
  function SkipTrailing(s: string, space: char -> bool, lo: nat, j: nat): (m: nat)
    requires lo <= j <= |s|
    ensures lo <= m <= j
    ensures m > lo ==> !space(s[m - 1])
    ensures forall k :: m <= k < j ==> space(s[k])
    decreases j
  {
    if j > lo && space(s[j - 1]) then SkipTrailing(s, space, lo, j - 1) else j
  }

  /** `str.strip` with the characters `space` accepts: the text between the leading and the trailing ones. */
  function StripBy(s: string, space: char -> bool): string {
    var i := SkipLeading(s, space, 0);
    s[i..SkipTrailing(s, space, i, |s|)]
  }

  /** str.strip(): StripBy with Python's whitespace. */
  function Strip(s: string): string {
    StripBy(s, IsPySpace)
  }

  /** Strip keeps a contiguous slice of the text that neither starts nor ends with whitespace, and cuts only whitespace. */
  lemma StripSlice(s: string, space: char -> bool)
    ensures var i := SkipLeading(s, space, 0);
            var r := StripBy(s, space);
            && i + |r| <= |s| && r == s[i..i + |r|]
            && (forall k :: 0 <= k < i || i + |r| <= k < |s| ==> space(s[k]))
            && (r != [] ==> !space(r[0]) && !space(r[|r| - 1]))
  {
  }

  /** Strip empties exactly the texts made only of whitespace. */
  lemma StripEmpty(s: string, space: char -> bool)
    ensures StripBy(s, space) == [] <==> forall k :: 0 <= k < |s| ==> space(s[k])
  {
    var i := SkipLeading(s, space, 0);
    var j := SkipTrailing(s, space, i, |s|);
    if j > i {
      assert !space(s[j - 1]);
    }
  }

  /** Stripping twice changes nothing more. */
  lemma StripIdempotent(s: string, space: char -> bool)
    ensures StripBy(StripBy(s, space), space) == StripBy(s, space)
  {
    var r := StripBy(s, space);
    StripSlice(s, space);
    if r != [] {
      assert SkipLeading(r, space, 0) == 0;
      assert SkipTrailing(r, space, 0, |r|) == |r|;
      assert r[0..|r|] == r;
    }
  }

  // ---------------------------------------------------------------------------
  // The transcription job
  // ---------------------------------------------------------------------------

  /** A main-loop callback queued by a job through GLib.idle_add. */
  datatype IdleAction = ShowErrorIdle(error: string) | CommitIdle(text: string) | ClearIdle

  /** One finished recording waiting for its job thread. */
  datatype Job = Job(samples: seq<Sample>, rate: int)

  /**
   * What a job meets: whether resampling or creating the temporary file
   * raised (no file then), the file name, whether writing the WAV raised,
   * whether recognition became ready in time, and what recognition returned
   * (an exception becomes its message).
   */
  datatype JobEnv = JobEnv(prepareError: Option<string>, tempPath: string, writeError: Option<string>,
                           asrReady: bool, result: Result<JValue>)

  /** A job's effect: the callbacks it queues, whether it created the file, and whether it removed it. */
  datatype JobRun = JobRun(actions: seq<IdleAction>, created: bool, removed: bool)

  /** What the recognition answer becomes once the file is written. */
  function ResultActions(env: JobEnv): (r: seq<IdleAction>)
    ensures |r| == 1
    ensures !env.asrReady ==> r == [ShowErrorIdle(AsrNotReady)]
    ensures env.asrReady && env.result.Err? ==> r == [ShowErrorIdle(env.result.what)]
    ensures env.asrReady && env.result.Ok? && !env.result.value.JObj?
            ==> r == [ShowErrorIdle(NoAttribute(env.result.value, "get"))]
    ensures env.asrReady && env.result.Ok? ==>
              var success := Field(env.result.value, "success");
              var text := Field(env.result.value, "text");
              var error := Field(env.result.value, "error");
              (success.Some? && Truthy(success.value) && text.None? ==> r == [ClearIdle])
              && (success.Some? && Truthy(success.value) && text.Some? && text.value.JStr?
                  ==> r == if Strip(text.value.s) != "" then [CommitIdle(Strip(text.value.s))] else [ClearIdle])
              && (success.Some? && Truthy(success.value) && text.Some? && !text.value.JStr?
                  ==> r == [ShowErrorIdle(NoAttribute(text.value, "strip"))])
              && (env.result.value.JObj? && (success.None? || !Truthy(success.value))
                  ==> r == [ShowErrorIdle(if error.Some? then PyStr(error.value) else UnknownErrorText)])
  {
    if !env.asrReady then [ShowErrorIdle(AsrNotReady)]
    else match env.result
      case Err(m) => [ShowErrorIdle(m)]
      case Ok(reply) =>
        if !reply.JObj? then [ShowErrorIdle(NoAttribute(reply, "get"))]
        else if Truthy(Get(reply, "success", JNull)) then
          var text := Get(reply, "text", JStr(""));
          if !text.JStr? then [ShowErrorIdle(NoAttribute(text, "strip"))]
          else if Strip(text.s) != "" then [CommitIdle(Strip(text.s))]
          else [ClearIdle]
        else [ShowErrorIdle(PyStr(Get(reply, "error", JStr(UnknownErrorText))))]
  }

  /** Only a non-empty stripped text is committed; an empty one clears the status instead. */
  lemma CommitsAreStripped(env: JobEnv)
    ensures var a := ResultActions(env)[0];
            a.CommitIdle? ==> a.text != "" && Strip(a.text) == a.text
  {
    var a := ResultActions(env)[0];
    if a.CommitIdle? {
      var text := Get(env.result.value, "text", JStr("")).s;
      assert a.text == Strip(text);
      StripIdempotent(text, IsPySpace);
    }
  }

  /**
   * do_transcribe as written: the temporary file is created and written
   * before the try/finally that unlinks it, so a failed write leaves it on disk.
   */
  function JobAsWritten(env: JobEnv): (r: JobRun)
    ensures env.prepareError.Some? ==> r == JobRun([ShowErrorIdle(env.prepareError.value)], false, false)
    ensures env.prepareError.None? && env.writeError.None? ==> r == JobRun(ResultActions(env), true, true)
  {
    if env.prepareError.Some? then JobRun([ShowErrorIdle(env.prepareError.value)], false, false)
    else if env.writeError.Some? then JobRun([ShowErrorIdle(env.writeError.value)], true, false)
    else JobRun(ResultActions(env), true, true)
  }

  /** A write that raises leaves the temporary file behind; nothing refers to it afterwards. */
  lemma WriteFailureLeaksTempFile(path: string, message: string)
    ensures var r := JobAsWritten(JobEnv(None, path, Some(message), true, Ok(JNull)));
            r.created && !r.removed
  {
  }

  /** do_transcribe with the unlink covering the write as well: every file it creates is removed. */
  function TranscribeJob(env: JobEnv): (r: JobRun)
    ensures r.created ==> r.removed
    ensures r.removed ==> r.created
    ensures r.created <==> env.prepareError.None?
    ensures r.actions == JobAsWritten(env).actions && r.created == JobAsWritten(env).created
    ensures |r.actions| == 1
  {
    if env.prepareError.Some? then JobRun([ShowErrorIdle(env.prepareError.value)], false, false)
    else if env.writeError.Some? then JobRun([ShowErrorIdle(env.writeError.value)], true, true)
    else JobRun(ResultActions(env), true, true)
  }

  /** How the idle callbacks change the screen. */
  function IdleEvents(a: IdleAction): (es: seq<UiEvent>)
    ensures a.ShowErrorIdle? ==> es == [Status(ErrorMark + a.error)]
    ensures a.CommitIdle? ==> es == [ClearPreedit, Committed(a.text)]
    ensures a.ClearIdle? ==> es == [ClearPreedit]
  {
    match a
    case ShowErrorIdle(e) => [Status(ErrorMark + e)]
    case CommitIdle(t) => [ClearPreedit, Committed(t)]
    case ClearIdle => [ClearPreedit]
  }

  // ---------------------------------------------------------------------------
  // The engine
  // ---------------------------------------------------------------------------

  /** What lazily creating the Rime session meets: a user directory with default.yaml, a shared data directory, and whether creating the session raised. */
  datatype SessionEnv = SessionEnv(configFound: bool, sharedFound: bool, sessionOk: bool)

  /** _init_rime_session's outcome: the answer, whether a session now exists, whether Rime stays enabled. */
  datatype SessionInit = SessionInit(ok: bool, session: bool, enabled: bool)

  /**
   * An existing session is reused; a missing directory answers false and is
   * retried on the next key; an exception while creating the session also
   * disables Rime for this engine.
   */
  function InitSession(hasSession: bool, enabled: bool, env: SessionEnv): (r: SessionInit)
    ensures hasSession ==> r == SessionInit(true, true, enabled)
    ensures r.ok <==> r.session
    ensures r.ok <==> hasSession || (env.configFound && env.sharedFound && env.sessionOk)
    ensures r.enabled <==> enabled && (r.ok || !env.configFound || !env.sharedFound)
  {
    if hasSession then SessionInit(true, true, enabled)
    else if !env.configFound || !env.sharedFound then SessionInit(false, false, enabled)
    else if !env.sessionOk then SessionInit(false, false, false)
    else SessionInit(true, true, enabled)
  }

  /** Once a session exists, initialisation succeeds whatever happens and changes nothing. */
  lemma InitSessionIdempotent(enabled: bool, env1: SessionEnv, env2: SessionEnv)
    requires InitSession(false, enabled, env1).ok
    ensures var first := InitSession(false, enabled, env1);
            InitSession(first.session, first.enabled, env2) == first
  {
  }

  /** Whether a forwarded key reaches process_key: Rime enabled, the session ready, and a press. */
  predicate Reaches(enabled: bool, hasSession: bool, state: bv32, env: SessionEnv) {
    enabled && InitSession(hasSession, enabled, env).ok && !Has(state, IBusRelease)
  }

  /** _forward_key_to_rime's answer: Rime's own `handled`, and false on every other path. */
  predicate ForwardReply(enabled: bool, hasSession: bool, state: bv32, env: SessionEnv, answer: RimeAnswer) {
    Reaches(enabled, hasSession, state, env) && answer.Answered? && answer.snapshot.handled
  }

  /** What starting a recording meets: the audio library's answers and whether opening the stream raised. */
  datatype StartEnv = StartEnv(configuredInfo: Option<DeviceInfo>, listing: Option<seq<DeviceInfo>>,
                               accepted: set<int>, deviceDefault: Option<int>, streamError: Option<string>)

  class Engine {
    const kernel: Kernel
    const rimeAvailable: bool
    const audioDevice: Option<int>
    const configuredRate: int

    var rimeEnabled: bool
    var hasSession: bool
    /** The (keyval, mask) pairs handed to process_key. */
    var rimeKeys: seq<(int, int)>

    var isRecording: bool
    var streamOpen: bool
    var frames: seq<seq<Sample>>
    var nativeRate: int

    /** Host calls issued, in order. */
    var events: seq<UiEvent>
    /** Job threads started and not yet run. */
    var jobs: seq<Job>
    /** Callbacks queued with idle_add and not yet run. */
    var idle: seq<IdleAction>

    ghost predicate Valid()
      reads this, kernel
    {
      && kernel.Valid()
      && (rimeEnabled ==> rimeAvailable)
      && (hasSession ==> rimeAvailable)
      && (isRecording ==> streamOpen && nativeRate != 0)
      && (forall k :: 0 <= k < |jobs| ==> jobs[k].rate != 0)
    }

    constructor (kernel: Kernel, rimeAvailable: bool, audioDevice: Option<int>, configuredRate: int)
      requires kernel.Valid()
      ensures Valid() && this.kernel == kernel && this.rimeAvailable == rimeAvailable
      ensures this.audioDevice == audioDevice && this.configuredRate == configuredRate
      ensures rimeEnabled == rimeAvailable && !hasSession && rimeKeys == []
      ensures !isRecording && !streamOpen && frames == [] && nativeRate == configuredRate
      ensures events == [] && jobs == [] && idle == []
    {
      this.kernel := kernel;
      this.rimeAvailable := rimeAvailable;
      this.audioDevice := audioDevice;
      this.configuredRate := configuredRate;
      rimeEnabled := rimeAvailable;
      hasSession := false;
      rimeKeys := [];
      isRecording := false;
      streamOpen := false;
      frames := [];
      nativeRate := configuredRate;
      events := [];
      jobs := [];
      idle := [];
    }

    /**
     * do_process_key_event: F9 is always consumed (press starts an idle
     * recorder, release transcribes a running one); a switch hotkey goes back
     * to the host; every other key is forwarded to Rime.
     */
    method ProcessKeyEvent(keyval: int, state: bv32, session: SessionEnv, answer: RimeAnswer, start: StartEnv)
      returns (handled: bool)
      requires Valid()
      modifies this
      ensures Valid()
      ensures var r := IBusRoute(keyval, state, old(isRecording));
              && (r.Ptt? ==> handled)
              && (r == Pass ==> !handled)
              && (r == Forward ==> handled == ForwardReply(old(rimeEnabled), old(hasSession), state, session, answer))
              && (r == Ptt(Keys.StartRecording) ==> isRecording == start.streamError.None?)
              && (r == Ptt(Keys.StopAndTranscribe) ==> !isRecording && !streamOpen)
              && (!r.Ptt? ==> isRecording == old(isRecording) && frames == old(frames) && jobs == old(jobs))
              && (r.Ptt? || r == Pass ==> rimeKeys == old(rimeKeys) && hasSession == old(hasSession))
              && (r == Pass || r == Ptt(NoChange) ==> events == old(events) && isRecording == old(isRecording))
      ensures idle == old(idle)
    {
      var route := IBusRoute(keyval, state, isRecording);
      match route {
        case Pass =>
          handled := false;
        case Forward =>
          handled := ForwardKey(keyval, state, session, answer);
        case Ptt(action) =>
          if action == Keys.StartRecording {
            StartRecording(start);
          } else if action == Keys.StopAndTranscribe {
            StopAndTranscribe();
          }
          handled := true;
      }
    }

    /**
     * _forward_key_to_rime: declines when Rime is disabled, when the session
     * cannot be created, and for releases (checked after initialisation);
     * otherwise hands the key with the 4-bit mask to Rime, shows its answer,
     * and returns Rime's `handled` (false when Rime raised).
     */
    method ForwardKey(keyval: int, state: bv32, session: SessionEnv, answer: RimeAnswer) returns (handled: bool)
      requires Valid()
      modifies this
      ensures Valid()
      ensures handled == ForwardReply(old(rimeEnabled), old(hasSession), state, session, answer)
      ensures var init := InitSession(old(hasSession), old(rimeEnabled), session);
              && (old(rimeEnabled) ==> hasSession == init.session && rimeEnabled == init.enabled)
              && (!old(rimeEnabled) ==> hasSession == old(hasSession) && rimeEnabled == old(rimeEnabled))
      ensures rimeKeys == old(rimeKeys) + (if Reaches(old(rimeEnabled), old(hasSession), state, session)
                                           then [(keyval, RimeMask(state))] else [])
      ensures events == old(events) + (if Reaches(old(rimeEnabled), old(hasSession), state, session) && answer.Answered?
                                       then KeyEvents(answer.snapshot) else [])
      ensures isRecording == old(isRecording) && streamOpen == old(streamOpen) && frames == old(frames)
      ensures nativeRate == old(nativeRate) && jobs == old(jobs) && idle == old(idle)
    {
      if !rimeEnabled {
        return false;
      }
      var init := InitSession(hasSession, rimeEnabled, session);
      hasSession := init.session;
      rimeEnabled := init.enabled;
      if !init.ok {
        return false;
      }
      if Has(state, IBusRelease) {
        return false;
      }
      rimeKeys := rimeKeys + [(keyval, RimeMask(state))];
      match answer {
        case Raised =>
          handled := false;
        case Answered(snapshot) =>
          ShowAnswer(snapshot);
          handled := snapshot.handled;
      }
    }

    /** The UI half of _forward_key_to_rime: a non-empty commit first, then the refreshed context (or everything cleared). */
    method ShowAnswer(s: Snapshot)
      requires Valid()
      modifies this
      ensures Valid()
      ensures events == old(events) + KeyEvents(s)
      ensures rimeEnabled == old(rimeEnabled) && hasSession == old(hasSession) && rimeKeys == old(rimeKeys)
      ensures isRecording == old(isRecording) && streamOpen == old(streamOpen) && frames == old(frames)
      ensures nativeRate == old(nativeRate) && jobs == old(jobs) && idle == old(idle)
    {
      if CommitOf(s) != "" {
        events := events + [ClearPreedit, TableHidden, Committed(CommitOf(s))];
      }
      if s.context.Some? {
        var table := BuildTable(s.context.value.menu);
        events := events + [PreeditEvent(s.context.value.composition),
                            if s.context.value.menu.candidates == [] then TableHidden else TableShown(table)];
      } else {
        events := events + [ClearPreedit, TableHidden];
      }
    }

    /** The lookup-table loop: one label appended per candidate, the cursor passed through as Rime gave it. */
    method BuildTable(menu: Menu) returns (table: Table)
      ensures table == Table(TableLabels(menu.candidates), menu.pageSize, menu.highlighted)
    {
      var labels: seq<string> := [];
      for i := 0 to |menu.candidates|
        invariant labels == TableLabels(menu.candidates[..i])
      {
        var c := menu.candidates[i];
        var text := c.text;
        if c.comment.GetOr("") != "" {
          text := text + " " + c.comment.value;
        }
        assert menu.candidates[..i + 1] == menu.candidates[..i] + [c];
        labels := labels + [text];
      }
      assert menu.candidates[..|menu.candidates|] == menu.candidates;
      table := Table(labels, menu.pageSize, menu.highlighted);
    }

    /**
     * _start_recording: only when idle; the flag is raised first and lowered
     * again if opening the stream raises, which shows the error instead of the
     * recording status. The sample rate chosen becomes the recording's rate.
     */
    method StartRecording(env: StartEnv)
      requires Valid()
      modifies this
      ensures Valid()
      ensures old(isRecording) ==> isRecording && events == old(events) && frames == old(frames) && nativeRate == old(nativeRate)
      ensures !old(isRecording) ==>
                && isRecording == env.streamError.None?
                && frames == []
                && nativeRate == ResolveSampleRate(configuredRate, env.accepted, env.deviceDefault)
                && events == old(events) + [Status(if env.streamError.None? then RecordingStatus
                                                   else StartFailedPrefix + env.streamError.value)]
                && (env.streamError.None? ==> streamOpen)
                && (env.streamError.Some? ==> streamOpen == old(streamOpen))
      ensures rimeEnabled == old(rimeEnabled) && hasSession == old(hasSession) && rimeKeys == old(rimeKeys)
      ensures jobs == old(jobs) && idle == old(idle)
    {
      if isRecording {
        return;
      }
      isRecording := true;
      frames := [];
      var device := ResolveInputDevice(audioDevice, env.configuredInfo, env.listing);
      var rate := ResolveSampleRate(configuredRate, env.accepted, env.deviceDefault);
      nativeRate := rate;
      if env.streamError.Some? {
        isRecording := false;
        events := events + [Status(StartFailedPrefix + env.streamError.value)];
        return;
      }
      streamOpen := true;
      events := events + [Status(RecordingStatus)];
    }

    /** The capture thread while recording: each frame from the queue is appended in order. */
    method Capture(queued: seq<QueueEvent>)
      requires Valid() && isRecording
      modifies this
      ensures Valid()
      ensures frames == old(frames) + FramesOf(queued)
      ensures isRecording && streamOpen == old(streamOpen) && nativeRate == old(nativeRate)
      ensures events == old(events) && jobs == old(jobs) && idle == old(idle)
      ensures rimeEnabled == old(rimeEnabled) && hasSession == old(hasSession) && rimeKeys == old(rimeKeys)
    {
      var i := 0;
      while i < |queued|
        invariant 0 <= i <= |queued|
        invariant frames == old(frames) + FramesOf(queued[..i])
        invariant isRecording && streamOpen == old(streamOpen) && nativeRate == old(nativeRate)
        invariant events == old(events) && jobs == old(jobs) && idle == old(idle)
        invariant rimeEnabled == old(rimeEnabled) && hasSession == old(hasSession) && rimeKeys == old(rimeKeys)
      {
        var e := queued[i];
        FramesOfAppend(queued[..i], e);
        assert queued[..i + 1] == queued[..i] + [e];
        match e {
          case Frame(samples) =>
            frames := frames + [samples];
          case QueueEmpty =>
        }
        i := i + 1;
      }
      assert queued[..|queued|] == queued;
    }

    /** _stop_recording: closes the stream and clears the preedit without transcribing; nothing when idle. */
    method StopRecording()
      requires Valid()
      modifies this
      ensures Valid()
      ensures !old(isRecording) ==> events == old(events) && streamOpen == old(streamOpen)
      ensures old(isRecording) ==> !streamOpen && events == old(events) + [ClearPreedit]
      ensures !isRecording && frames == old(frames) && jobs == old(jobs) && idle == old(idle)
      ensures rimeEnabled == old(rimeEnabled) && hasSession == old(hasSession) && rimeKeys == old(rimeKeys)
    {
      if !isRecording {
        return;
      }
      streamOpen := false;
      isRecording := false;
      events := events + [ClearPreedit];
    }

    /**
     * _stop_and_transcribe: nothing when idle; otherwise stops, and clears the
     * preedit without transcribing when nothing was captured or the recording
     * is under 0.3 s; else shows the transcribing status and starts a job on
     * the concatenated samples.
     */
    method StopAndTranscribe()
      requires Valid()
      modifies this
      ensures Valid()
      ensures !old(isRecording) ==> events == old(events) && streamOpen == old(streamOpen)
                                    && frames == old(frames) && jobs == old(jobs)
      ensures old(isRecording) && old(frames) == [] ==>
                !streamOpen && frames == [] && events == old(events) + [ClearPreedit] && jobs == old(jobs)
      ensures old(isRecording) && old(frames) != [] ==>
                var samples := Concat(old(frames));
                && !streamOpen && frames == []
                && (IsShort(|samples|, old(nativeRate)) ==> events == old(events) + [ClearPreedit] && jobs == old(jobs))
                && (!IsShort(|samples|, old(nativeRate)) ==>
                      events == old(events) + [Status(TranscribingStatus)] && jobs == old(jobs) + [Job(samples, old(nativeRate))])
      ensures !isRecording && idle == old(idle)
      ensures rimeEnabled == old(rimeEnabled) && hasSession == old(hasSession) && rimeKeys == old(rimeKeys)
    {
      if !isRecording {
        return;
      }
      streamOpen := false;
      isRecording := false;
      if frames == [] {
        events := events + [ClearPreedit];
        return;
      }
      var samples := Concat(frames);
      frames := [];
      if IsShort(|samples|, nativeRate) {
        events := events + [ClearPreedit];
        return;
      }
      events := events + [Status(TranscribingStatus)];
      jobs := jobs + [Job(samples, nativeRate)];
    }

    /** One job thread runs to its end: it queues its callback and leaves no file behind. */
    method RunJob(i: nat, env: JobEnv)
      requires Valid() && i < |jobs| && env.tempPath !in kernel.files
      modifies this, kernel
      ensures Valid()
      ensures jobs == old(jobs[..i] + jobs[i + 1..])
      ensures idle == old(idle) + TranscribeJob(env).actions
      ensures kernel.files == old(kernel.files) && kernel.open == old(kernel.open)
      ensures events == old(events) && isRecording == old(isRecording) && frames == old(frames)
      ensures rimeEnabled == old(rimeEnabled) && hasSession == old(hasSession) && rimeKeys == old(rimeKeys)
    {
      var run := TranscribeJob(env);
      if run.created {
        kernel.CreateFile(env.tempPath);
      }
      if run.removed {
        kernel.Remove(env.tempPath);
      }
      jobs := jobs[..i] + jobs[i + 1..];
      idle := idle + run.actions;
    }

    /** The main loop runs the oldest queued callback. */
    method RunIdle()
      requires Valid() && idle != []
      modifies this
      ensures Valid()
      ensures idle == old(idle[1..]) && events == old(events) + IdleEvents(old(idle[0]))
      ensures isRecording == old(isRecording) && frames == old(frames) && jobs == old(jobs)
      ensures rimeEnabled == old(rimeEnabled) && hasSession == old(hasSession) && rimeKeys == old(rimeKeys)
    {
      var a := idle[0];
      idle := idle[1..];
      match a {
        case ShowErrorIdle(e) =>
          events := events + [Status(ErrorMark + e)];
        case CommitIdle(t) =>
          events := events + [ClearPreedit, Committed(t)];
        case ClearIdle =>
          events := events + [ClearPreedit];
      }
    }
  }
}
