/**
 * The Fcitx addon: push-to-talk recording through a recorder child process,
 * key forwarding to the composition backend, and the detached transcription
 * worker whose result is posted back to the input context.
 *
 * The recorder's pipes, stream and child are handles in the process's
 * Kernel. The addon owns the handles of the running recording session and,
 * after a stop, each pending worker owns the handles it was given; the
 * invariant says these are disjoint, all still open, and that no addon
 * operation ever opens or closes a handle it does not own.
 */
module Addon {
  import opened Wrappers
  import opened Json
  import opened Keys
  import opened Posix
  import opened IpcClient
  import opened FcitxUi

  const SocketPath: string := "/tmp/vocotype-fcitx5.sock"
  const VenvSuffix: string := "/.local/share/vocotype-fcitx5/.venv/bin/python"
  const ScriptSuffix: string := "/.local/share/vocotype-fcitx5/backend/audio_recorder.py"

  const RecordingStatus: string := "🎤 录音中..."
  const TranscribingStatus: string := "⏳ 识别中..."
  const BadConfigError: string := "录音配置无效"
  const SpawnError: string := "启动录音失败"
  const NoRecordingError: string := "录音失败"
  const TranscribeError: string := "转录失败"

  // ---------------------------------------------------------------------------
  // The host side of an input context.
  // ---------------------------------------------------------------------------

  /** One refresh of the host's view: the panel as shown, or a string committed to the application. */
  datatype HostEvent = Shown(panel: Panel) | Committed(text: string)

  /** The texts committed, in order. */
  function Commits(log: seq<HostEvent>): (r: seq<string>)
    ensures |r| <= |log|
  {
    if log == [] then []
    else (if log[0].Committed? then [log[0].text] else []) + Commits(log[1..])
  }

  /** Commits of a log that grows only at its end: the old commits stay, the new ones follow. */
  lemma {:induction false} CommitsAppend(a: seq<HostEvent>, b: seq<HostEvent>)
    ensures Commits(a + b) == Commits(a) + Commits(b)
    decreases |a|
  {
    if a == [] {
      assert a + b == b;
    } else {
      var head := if a[0].Committed? then [a[0].text] else [];
      assert (a + b)[0] == a[0] && (a + b)[1..] == a[1..] + b;
      assert Commits(a + b) == head + Commits(a[1..] + b);
      CommitsAppend(a[1..], b);
      assert head + (Commits(a[1..]) + Commits(b)) == (head + Commits(a[1..])) + Commits(b);
    }
  }

  /** clearUI then commitString. */
  function CommitEvents(text: string): seq<HostEvent> {
    [Shown(EmptyPanel), Committed(text)]
  }

  class InputContext {
    /** The input panel as last written. */
    var panel: Panel
    /** Everything shown and committed, append-only. */
    var log: seq<HostEvent>
    /** False once the host has destroyed the context. */
    var alive: bool

    constructor ()
      ensures panel == EmptyPanel && log == [] && alive
    {
      panel := EmptyPanel;
      log := [];
      alive := true;
    }

    /** The host destroys the context; references to it now resolve to nothing. */
    method Destroy()
      modifies this
      ensures !alive && panel == old(panel) && log == old(log)
    {
      alive := false;
    }
  }

  // ---------------------------------------------------------------------------
  // Recorder handles and the worker.
  // ---------------------------------------------------------------------------

  /** The handles stopRecorderProcess releases for (pid, stdin fd, stdout stream): each one only when set. */
  function Held(pid: int, stdinFd: int, stdout: FilePtr): set<Handle> {
    (if pid > 0 then {Child(pid)} else {})
    + (if stdinFd >= 0 then {Fd(stdinFd)} else {})
    + (if stdout.File? then {Stream(stdout.fd)} else {})
  }

  /** A detached worker: the recorder handles it took over, whether to transcribe, and the context to answer. */
  datatype Worker = Worker(pid: int, stdinFd: int, stdout: FilePtr, transcribe: bool, ic: InputContext?)

  function WorkerHeld(w: Worker): set<Handle> {
    Held(w.pid, w.stdinFd, w.stdout)
  }

  ghost function WorkersHeld(ws: seq<Worker>): set<Handle>
    decreases |ws|
  {
    if ws == [] then {} else WorkerHeld(ws[0]) + WorkersHeld(ws[1..])
  }

  ghost predicate PairwiseDisjoint(ws: seq<Worker>) {
    forall i, j :: 0 <= i < |ws| && 0 <= j < |ws| && i != j ==> WorkerHeld(ws[i]) !! WorkerHeld(ws[j])
  }

  lemma {:induction false} WorkersHeldConcat(a: seq<Worker>, b: seq<Worker>)
    ensures WorkersHeld(a + b) == WorkersHeld(a) + WorkersHeld(b)
    decreases |a|
  {
    if a == [] {
      assert a + b == b;
    } else {
      assert (a + b)[1..] == a[1..] + b;
      WorkersHeldConcat(a[1..], b);
    }
  }

  lemma {:induction false} WorkersHeldBound(ws: seq<Worker>, s: set<Handle>)
    requires forall k :: 0 <= k < |ws| ==> WorkerHeld(ws[k]) <= s
    ensures WorkersHeld(ws) <= s
    decreases |ws|
  {
    if ws != [] {
      assert forall k :: 0 <= k < |ws[1..]| ==> ws[1..][k] == ws[k + 1];
      WorkersHeldBound(ws[1..], s);
    }
  }

  lemma {:induction false} WorkersHeldApart(ws: seq<Worker>, s: set<Handle>)
    requires forall k :: 0 <= k < |ws| ==> WorkerHeld(ws[k]) !! s
    ensures WorkersHeld(ws) !! s
    decreases |ws|
  {
    if ws != [] {
      assert forall k :: 0 <= k < |ws[1..]| ==> ws[1..][k] == ws[k + 1];
      WorkersHeldApart(ws[1..], s);
    }
  }

  lemma WorkersHeldAppend(ws: seq<Worker>, w: Worker)
    ensures WorkersHeld(ws + [w]) == WorkersHeld(ws) + WorkerHeld(w)
  {
    WorkersHeldConcat(ws, [w]);
    assert [w][1..] == [];
  }

  /** Taking one worker out of pairwise disjoint workers removes exactly its handles. */
  lemma WorkersHeldRemove(ws: seq<Worker>, i: nat)
    requires i < |ws| && PairwiseDisjoint(ws)
    ensures WorkerHeld(ws[i]) <= WorkersHeld(ws)
    ensures WorkersHeld(ws[..i] + ws[i + 1..]) == WorkersHeld(ws) - WorkerHeld(ws[i])
  {
    var front, back := ws[..i], ws[i + 1..];
    assert ws == front + [ws[i]] + back;
    WorkersHeldConcat(front + [ws[i]], back);
    WorkersHeldAppend(front, ws[i]);
    WorkersHeldConcat(front, back);
    assert forall k :: 0 <= k < |front| ==> front[k] == ws[k];
    assert forall k :: 0 <= k < |back| ==> back[k] == ws[i + 1 + k];
    WorkersHeldApart(front, WorkerHeld(ws[i]));
    WorkersHeldApart(back, WorkerHeld(ws[i]));
  }

  lemma PairwiseAppend(ws: seq<Worker>, w: Worker)
    requires PairwiseDisjoint(ws)
    requires forall k :: 0 <= k < |ws| ==> WorkerHeld(ws[k]) !! WorkerHeld(w)
    ensures PairwiseDisjoint(ws + [w])
  {
    var ws' := ws + [w];
    forall i, j | 0 <= i < |ws'| && 0 <= j < |ws'| && i != j
      ensures WorkerHeld(ws'[i]) !! WorkerHeld(ws'[j])
    {
      if i < |ws| && j < |ws| {
        assert ws'[i] == ws[i] && ws'[j] == ws[j];
      } else if i < |ws| {
        assert ws'[i] == ws[i] && ws'[j] == w;
      } else {
        assert ws'[i] == w && ws'[j] == ws[j];
      }
    }
  }

  lemma PairwiseRemove(ws: seq<Worker>, i: nat)
    requires i < |ws| && PairwiseDisjoint(ws)
    ensures PairwiseDisjoint(ws[..i] + ws[i + 1..])
  {
    var rest := ws[..i] + ws[i + 1..];
    forall a, b | 0 <= a < |rest| && 0 <= b < |rest| && a != b
      ensures WorkerHeld(rest[a]) !! WorkerHeld(rest[b])
    {
      assert rest[a] == ws[if a < i then a else a + 1];
      assert rest[b] == ws[if b < i then b else b + 1];
    }
  }

  /**
   * The session's handles and each worker's are open, and no handle has two
   * owners.
   */
  ghost predicate Owns(open: set<Handle>, session: set<Handle>, ws: seq<Worker>) {
    && session <= open
    && (forall i :: 0 <= i < |ws| ==> WorkerHeld(ws[i]) <= open)
    && (forall i :: 0 <= i < |ws| ==> WorkerHeld(ws[i]) !! session)
    && PairwiseDisjoint(ws)
  }

  /** Stopping a recording: its handles pass to a new worker, and the owned set stays the same. */
  lemma OwnsHandOver(open: set<Handle>, session: set<Handle>, ws: seq<Worker>, w: Worker)
    requires Owns(open, session, ws) && WorkerHeld(w) == session
    ensures Owns(open, {}, ws + [w])
    ensures {} + WorkersHeld(ws + [w]) == session + WorkersHeld(ws)
  {
    WorkersHeldAppend(ws, w);
    PairwiseAppend(ws, w);
    var ws' := ws + [w];
    assert forall k :: 0 <= k < |ws| ==> ws'[k] == ws[k];
    assert ws'[|ws|] == w;
  }

  /** A worker finishing: its handles are closed and no longer owned; nothing else changes hands. */
  lemma OwnsRelease(open: set<Handle>, session: set<Handle>, ws: seq<Worker>, i: nat)
    requires Owns(open, session, ws) && i < |ws|
    ensures Owns(open - WorkerHeld(ws[i]), session, ws[..i] + ws[i + 1..])
    ensures (open - WorkerHeld(ws[i])) - (session + WorkersHeld(ws[..i] + ws[i + 1..]))
            == open - (session + WorkersHeld(ws))
  {
    var rest := ws[..i] + ws[i + 1..];
    WorkersHeldRemove(ws, i);
    PairwiseRemove(ws, i);
    forall k | 0 <= k < |rest|
      ensures WorkerHeld(rest[k]) <= open - WorkerHeld(ws[i])
    {
      var m := if k < i then k else k + 1;
      assert rest[k] == ws[m] && m != i;
    }
    forall k | 0 <= k < |rest|
      ensures WorkerHeld(rest[k]) !! session
    {
      assert rest[k] == ws[if k < i then k else k + 1];
    }
  }

  /** Starting a recording: fresh handles become the session's. */
  lemma OwnsAcquire(open: set<Handle>, ws: seq<Worker>, acquired: set<Handle>, bound: int)
    requires Owns(open, {}, ws)
    requires forall h :: h in open ==> Id(h) < bound
    requires forall h :: h in acquired ==> Id(h) >= bound
    ensures Owns(open + acquired, acquired, ws)
    ensures (open + acquired) - (acquired + WorkersHeld(ws)) == open - ({} + WorkersHeld(ws))
  {
    forall i | 0 <= i < |ws|
      ensures WorkerHeld(ws[i]) !! acquired
    {
      forall h | h in WorkerHeld(ws[i])
        ensures h !in acquired
      {
        assert h in open;
      }
    }
    WorkersHeldApart(ws, acquired);
    assert open !! acquired by {
      forall h | h in open
        ensures h !in acquired
      {
      }
    }
  }

  /** Dropping the session's handles (the destructor). */
  lemma OwnsDropSession(open: set<Handle>, session: set<Handle>, ws: seq<Worker>)
    requires Owns(open, session, ws)
    ensures Owns(open - session, {}, ws)
    ensures (open - session) - ({} + WorkersHeld(ws)) == open - (session + WorkersHeld(ws))
  {
    WorkersHeldApart(ws, session);
  }

  /** What a worker posts back for the recorder path it read and the transcription reply it got. */
  datatype UiAction = ShowErrorAction(error: string) | CommitAction(text: string) | ClearAction

  /** An action posted to the event loop for a context: dropped there if the context is gone. */
  datatype Deferred = Deferred(ic: InputContext?, action: UiAction)

  /**
   * The worker's decision: no path means an error only when transcribing; a
   * stop without transcription posts nothing; otherwise a non-empty
   * transcript is committed, a failure shows its error ("转录失败" when the
   * error is empty), and an empty success clears the panel.
   */
  function WorkerActions(path: string, transcribe: bool, result: TranscribeResult): (r: seq<UiAction>)
    ensures |r| <= 1
    ensures !transcribe ==> r == []
    ensures transcribe && path == "" ==> r == [ShowErrorAction(NoRecordingError)]
    ensures transcribe && path != "" ==> |r| == 1
    ensures (|r| == 1 && r[0].CommitAction?) <==> transcribe && path != "" && result.success && result.text != ""
    ensures transcribe && path != "" && result.success && result.text != "" ==> r == [CommitAction(result.text)]
    ensures r == [ClearAction] <==> transcribe && path != "" && result.success && result.text == ""
    ensures transcribe && path != "" && !result.success
            ==> r == [ShowErrorAction(if result.error == "" then TranscribeError else result.error)]
  {
    if path == "" then (if transcribe then [ShowErrorAction(NoRecordingError)] else [])
    else if !transcribe then []
    else if result.success && result.text != "" then [CommitAction(result.text)]
    else if !result.success then [ShowErrorAction(if result.error == "" then TranscribeError else result.error)]
    else [ClearAction]
  }

  function Post(ic: InputContext?, actions: seq<UiAction>): (r: seq<Deferred>)
    ensures |r| == |actions| && forall k :: 0 <= k < |r| ==> r[k] == Deferred(ic, actions[k])
  {
    seq(|actions|, k requires 0 <= k < |actions| => Deferred(ic, actions[k]))
  }

  /** What an action does to a live context's panel, and the refreshes it logs. */
  function Apply(p: Panel, a: UiAction): (r: (Panel, seq<HostEvent>))
    ensures !a.CommitAction? ==> r.1 == [Shown(r.0)]
    ensures Commits(r.1) == if a.CommitAction? then [a.text] else []
  {
    match a
    case ShowErrorAction(e) => (ErrorPanel(p, e), [Shown(ErrorPanel(p, e))])
    case CommitAction(t) => (EmptyPanel, CommitEvents(t))
    case ClearAction => (EmptyPanel, [Shown(EmptyPanel)])
  }

  // ---------------------------------------------------------------------------
  // Reading the recorder's answer.
  // ---------------------------------------------------------------------------

  /** fgets into a 1024-byte buffer reads at most this many bytes. */
  const LineCapacity: nat := 1023

  /** The number of bytes a character takes in UTF-8, the encoding the recorder prints in. */
  function Utf8Length(c: char): (n: nat)
    ensures 1 <= n <= 4
  {
    if c as int < 0x80 then 1
    else if c as int < 0x800 then 2
    else if c as int < 0x10000 then 3
    else 4
  }

  /** The UTF-8 size of a text; never less than its number of characters. */
  function Utf8Size(s: string): (n: nat)
    ensures |s| <= n <= 4 * |s|
    decreases |s|
  {
    if s == [] then 0 else Utf8Length(s[0]) + Utf8Size(s[1..])
  }

  /**
   * How many characters fgets takes: as many as fit in `room` bytes, stopping
   * after the first newline.
   */
  function ReadLength(out: string, room: nat): (n: nat)
    ensures n <= |out|
    ensures Utf8Size(out[..n]) <= room
    ensures out != [] && Utf8Length(out[0]) <= room ==> n > 0
    ensures n < |out| && (n == 0 || out[n - 1] != '\n') ==> Utf8Size(out[..n]) + Utf8Length(out[n]) > room
    ensures forall k :: 0 <= k < n - 1 ==> out[k] != '\n'
    decreases room
  {
    if out == [] || Utf8Length(out[0]) > room then 0
    else if out[0] == '\n' then
      assert out[..1][1..] == [];
      1
    else
      var n := 1 + ReadLength(out[1..], room - Utf8Length(out[0]));
      assert out[..n][1..] == out[1..][..n - 1];
      assert n < |out| ==> out[n] == out[1..][n - 1];
      n
  }

  /** The first line as fgets returns it, newline included; None at immediate end of stream. */
  function FirstLine(out: string): (r: Option<string>)
    ensures r.None? <==> out == []
    ensures r.Some? ==> 0 < |r.value| && Utf8Size(r.value) <= LineCapacity && r.value <= out
  {
    if out == [] then None else Some(out[..ReadLength(out, LineCapacity)])
  }

  predicate LineEnd(c: char) {
    c == '\n' || c == '\r'
  }

  /** The line with every trailing '\n' and '\r' removed. */
  function StripLineEnds(s: string): (r: string)
    ensures r <= s
    ensures r == [] || !LineEnd(r[|r| - 1])
    ensures forall k :: |r| <= k < |s| ==> LineEnd(s[k])
    decreases |s|
  {
    if s != [] && LineEnd(s[|s| - 1]) then StripLineEnds(s[..|s| - 1]) else s
  }

  /** The audio path the recorder reported: its first stdout line without line ends, or "". */
  function RecorderPath(out: string): string {
    match FirstLine(out)
    case None => ""
    case Some(line) => StripLineEnds(line)
  }

  lemma {:induction false} ReadLengthAtNewline(p: string, rest: string, room: nat)
    requires Utf8Size(p) < room
    requires forall k :: 0 <= k < |p| ==> p[k] != '\n'
    ensures ReadLength(p + "\n" + rest, room) == |p| + 1
    decreases |p|
  {
    if p != [] {
      assert (p + "\n" + rest)[0] == p[0];
      assert (p + "\n" + rest)[1..] == p[1..] + "\n" + rest;
      ReadLengthAtNewline(p[1..], rest, room - Utf8Length(p[0]));
    }
  }

  /**
   * The recorder prints its path as one line; whatever follows it, the addon
   * reads back exactly that path, as long as its UTF-8 bytes and the newline
   * fit in the buffer and it does not itself end in a line-end character.
   */
  lemma PathLineRoundTrip(p: string, rest: string)
    requires 0 < |p| && Utf8Size(p) < LineCapacity
    requires forall k :: 0 <= k < |p| ==> p[k] != '\n'
    requires !LineEnd(p[|p| - 1])
    ensures RecorderPath(p + "\n" + rest) == p
  {
    ReadLengthAtNewline(p, rest, LineCapacity);
    var line := (p + "\n" + rest)[..|p| + 1];
    assert line == p + "\n";
    assert line[..|line| - 1] == p;
  }

  /**
   * stopRecorderProcess: close the recorder's stdin, read its first output
   * line and strip it, close the stream, and reap the child, retrying the
   * wait for every interruption. Exactly the handles given are released.
   */
  method StopRecorderProcess(kernel: Kernel, pid: int, stdinFd: int, stdout: FilePtr, out: string, interruptions: nat)
    returns (path: string)
    requires kernel.Valid()
    modifies kernel
    ensures kernel.Valid() && kernel.files == old(kernel.files) && kernel.nextId == old(kernel.nextId)
    ensures kernel.open == old(kernel.open) - Held(pid, stdinFd, stdout)
    ensures path == if stdout.File? then RecorderPath(out) else ""
  {
    if stdinFd >= 0 {
      kernel.Close(stdinFd);
    }
    path := "";
    if stdout.File? {
      var line := FirstLine(out);
      if line.Some? {
        path := line.value;
        while path != [] && LineEnd(path[|path| - 1])
          invariant StripLineEnds(path) == StripLineEnds(line.value)
          decreases |path|
        {
          path := path[..|path| - 1];
        }
      }
      kernel.Fclose(stdout);
    }
    if pid > 0 {
      var left := interruptions;
      while left > 0
        decreases left
      {
        // waitpid returned -1 with EINTR: call it again.
        left := left - 1;
      }
      kernel.Reap(pid);
    }
  }

  /**
   * The system calls of startRecording, in order: the recorder's stdin pipe,
   * its stdout pipe, fork, closing the child's ends in the parent, and
   * fdopen on the stdout read end. Each failure closes what the earlier calls
   * opened; a failed fdopen also kills and reaps the child. On success the
   * parent holds the child, the stdin write end and the stdout stream, all
   * fresh.
   */
  method SpawnRecorder(kernel: Kernel, env: SpawnEnv) returns (r: Option<(int, int, FilePtr)>)
    requires kernel.Valid()
    modifies kernel
    ensures kernel.Valid() && kernel.files == old(kernel.files) && kernel.nextId >= old(kernel.nextId)
    ensures r.Some? <==> SpawnSucceeds(env)
    ensures r.None? ==> kernel.open == old(kernel.open)
    ensures r.Some? ==>
              && r.value.0 > 0 && r.value.1 >= 0 && r.value.2.File?
              && kernel.open == old(kernel.open) + Held(r.value.0, r.value.1, r.value.2)
              && forall h :: h in Held(r.value.0, r.value.1, r.value.2) ==> Id(h) >= old(kernel.nextId)
  {
    ghost var before := kernel.open;
    ghost var first := kernel.nextId;
    assert forall h :: h in before ==> Id(h) < first;
    var stdinPipe := kernel.Pipe(env.stdinPipeOk);
    if stdinPipe.None? {
      return None;
    }
    var stdinRead, stdinWrite := stdinPipe.value.0, stdinPipe.value.1;
    assert Fd(stdinRead) !in before && Fd(stdinWrite) !in before;
    var stdoutPipe := kernel.Pipe(env.stdoutPipeOk);
    if stdoutPipe.None? {
      kernel.Close(stdinRead);
      kernel.Close(stdinWrite);
      return None;
    }
    var stdoutRead, stdoutWrite := stdoutPipe.value.0, stdoutPipe.value.1;
    assert Fd(stdoutRead) !in before && Fd(stdoutWrite) !in before;
    var pid := kernel.Fork(env.forkOk);
    if pid < 0 {
      kernel.Close(stdinRead);
      kernel.Close(stdinWrite);
      kernel.Close(stdoutRead);
      kernel.Close(stdoutWrite);
      return None;
    }
    assert Child(pid) !in before;
    // The child side (dup2 onto stdin/stdout, exec of the recorder) runs in the new process.
    kernel.Close(stdinRead);
    kernel.Close(stdoutWrite);
    var stdoutFile := kernel.Fdopen(stdoutRead, env.fdopenOk);
    if stdoutFile.Null? {
      kernel.Close(stdoutRead);
      kernel.Close(stdinWrite);
      kernel.Kill(pid);
      kernel.Reap(pid);
      return None;
    }
    assert Stream(stdoutRead) !in before;
    r := Some((pid, stdinWrite, stdoutFile));
  }

  /** What each system call of startRecording answers. */
  datatype SpawnEnv = SpawnEnv(stdinPipeOk: bool, stdoutPipeOk: bool, forkOk: bool, fdopenOk: bool)

  predicate SpawnSucceeds(env: SpawnEnv) {
    env.stdinPipeOk && env.stdoutPipeOk && env.forkOk && env.fdopenOk
  }

  // ---------------------------------------------------------------------------
  // The addon.
  // ---------------------------------------------------------------------------

  class VoCoTypeAddon {
    var isRecording: bool
    var recorderPid: int
    var recorderStdinFd: int
    var recorderStdout: FilePtr
    const pythonVenvPath: string
    const recorderScriptPath: string

    /** The process the addon runs in. */
    const kernel: Kernel
    /** Detached workers that have not run yet. */
    var workers: seq<Worker>
    /** Actions posted to the event loop that have not run yet. */
    var scheduled: seq<Deferred>
    /** Requests handed to the IPC client, in order. */
    var sent: seq<JValue>

    ghost function SessionHeld(): set<Handle>
      reads this
    {
      Held(recorderPid, recorderStdinFd, recorderStdout)
    }

    /** Everything the addon is responsible for releasing. */
    ghost function Owned(): set<Handle>
      reads this
    {
      SessionHeld() + WorkersHeld(workers)
    }

    /** The recording fields are all set together or all unset; owned handles are open and owned once. */
    ghost predicate Valid()
      reads this, kernel
    {
      && kernel.Valid()
      && (if isRecording then recorderPid > 0 && recorderStdinFd >= 0 && recorderStdout.File?
          else recorderPid == -1 && recorderStdinFd == -1 && recorderStdout == Null)
      && Owns(kernel.open, SessionHeld(), workers)
    }

    /** The constructor: paths from HOME when it is set, an idle recorder, and a ping to the backend. */
    constructor (home: Option<string>, kernel: Kernel)
      requires kernel.Valid()
      ensures Valid() && this.kernel == kernel
      ensures !isRecording && recorderPid == -1 && recorderStdinFd == -1 && recorderStdout == Null
      ensures home.Some? ==> pythonVenvPath == home.value + VenvSuffix && recorderScriptPath == home.value + ScriptSuffix
      ensures home.None? ==> pythonVenvPath == "" && recorderScriptPath == ""
      ensures workers == [] && scheduled == [] && sent == [PingRequest]
    {
      isRecording := false;
      recorderPid := -1;
      recorderStdinFd := -1;
      recorderStdout := Null;
      if home.Some? {
        pythonVenvPath := home.value + VenvSuffix;
        recorderScriptPath := home.value + ScriptSuffix;
      } else {
        pythonVenvPath := "";
        recorderScriptPath := "";
      }
      this.kernel := kernel;
      workers := [];
      scheduled := [];
      sent := [PingRequest];
    }

    /** The recorder can be started only with both install paths known, which is exactly when HOME was set. */
    predicate Configured()
      reads this
    {
      pythonVenvPath != "" && recorderScriptPath != ""
    }

    // ----- panel updates -----------------------------------------------------

    method ClearUI(ic: InputContext)
      modifies ic
      ensures ic.panel == EmptyPanel && ic.log == old(ic.log) + [Shown(EmptyPanel)] && ic.alive == old(ic.alive)
    {
      ic.panel := EmptyPanel;
      ic.log := ic.log + [Shown(EmptyPanel)];
    }

    method CommitText(ic: InputContext, text: string)
      modifies ic
      ensures ic.panel == EmptyPanel && ic.log == old(ic.log) + CommitEvents(text) && ic.alive == old(ic.alive)
    {
      ClearUI(ic);
      ic.log := ic.log + [Committed(text)];
    }

    method ShowError(ic: InputContext, error: string)
      modifies ic
      ensures ic.panel == ErrorPanel(old(ic.panel), error)
      ensures ic.log == old(ic.log) + [Shown(ic.panel)] && ic.alive == old(ic.alive)
    {
      ic.panel := ErrorPanel(ic.panel, error);
      ic.log := ic.log + [Shown(ic.panel)];
    }

    method ShowStatus(ic: InputContext, text: string)
      modifies ic
      ensures ic.panel == WithStatus(old(ic.panel), text)
      ensures ic.log == old(ic.log) + [Shown(ic.panel)] && ic.alive == old(ic.alive)
    {
      ic.panel := WithStatus(ic.panel, text);
      ic.log := ic.log + [Shown(ic.panel)];
    }

    method UpdateUI(ic: InputContext, state: RimeUIState)
      modifies ic
      ensures ic.panel == Project(state)
      ensures ic.log == old(ic.log) + [Shown(ic.panel)] && ic.alive == old(ic.alive)
    {
      var list := BuildCandidateList(state);
      ic.panel := Panel(state.preeditText, state.preeditText != "", list);
      ic.log := ic.log + [Shown(ic.panel)];
    }

    // ----- recording ---------------------------------------------------------

    /**
     * startRecording: the recording fields are set only when the recorder was
     * spawned; every failure shows the spawn error with the open handles as
     * before.
     */
    method StartRecording(ic: InputContext, env: SpawnEnv)
      requires Valid()
      modifies this, kernel, ic
      ensures Valid() && kernel.files == old(kernel.files)
      ensures workers == old(workers) && scheduled == old(scheduled) && sent == old(sent)
      ensures ic.alive == old(ic.alive)
      ensures kernel.open - Owned() == old(kernel.open - Owned())
      ensures old(isRecording) ==>
                && isRecording && recorderPid == old(recorderPid) && recorderStdinFd == old(recorderStdinFd)
                && recorderStdout == old(recorderStdout) && kernel.open == old(kernel.open)
                && ic.panel == old(ic.panel) && ic.log == old(ic.log)
      ensures !old(isRecording) && !Configured() ==>
                && !isRecording && kernel.open == old(kernel.open)
                && ic.panel == ErrorPanel(old(ic.panel), BadConfigError) && ic.log == old(ic.log) + [Shown(ic.panel)]
      ensures !old(isRecording) && Configured() && !SpawnSucceeds(env) ==>
                && !isRecording && kernel.open == old(kernel.open)
                && ic.panel == ErrorPanel(old(ic.panel), SpawnError) && ic.log == old(ic.log) + [Shown(ic.panel)]
      ensures !old(isRecording) && Configured() && SpawnSucceeds(env) ==>
                && isRecording && recorderPid >= old(kernel.nextId)
                && kernel.open == old(kernel.open) + SessionHeld()
                && ic.panel == WithStatus(old(ic.panel), RecordingStatus) && ic.log == old(ic.log) + [Shown(ic.panel)]
    {
      if isRecording {
        return;
      }
      if pythonVenvPath == "" || recorderScriptPath == "" {
        ShowError(ic, BadConfigError);
        return;
      }
      var spawned := SpawnRecorder(kernel, env);
      if spawned.None? {
        ShowError(ic, SpawnError);
        return;
      }
      OwnsAcquire(old(kernel.open), workers, Held(spawned.value.0, spawned.value.1, spawned.value.2), old(kernel.nextId));
      recorderPid := spawned.value.0;
      recorderStdinFd := spawned.value.1;
      recorderStdout := spawned.value.2;
      isRecording := true;
      ShowStatus(ic, RecordingStatus);
    }

    /**
     * stopRecording: clears the flag first, shows the transcribing status (or
     * clears the panel), then hands the recorder handles to a new worker and
     * resets the fields, so a second stop finds nothing to do.
     */
    method StopRecording(ic: InputContext?, transcribe: bool)
      requires Valid()
      modifies this, ic
      ensures Valid()
      ensures scheduled == old(scheduled) && sent == old(sent)
      ensures kernel.open == old(kernel.open) && Owned() == old(Owned())
      ensures ic != null ==> ic.alive == old(ic.alive)
      ensures !old(isRecording) ==>
                && !isRecording && workers == old(workers) && recorderPid == -1
                && (ic != null ==> ic.panel == old(ic.panel) && ic.log == old(ic.log))
      ensures old(isRecording) ==>
                && !isRecording && recorderPid == -1 && recorderStdinFd == -1 && recorderStdout == Null
                && workers == old(workers) + [Worker(old(recorderPid), old(recorderStdinFd), old(recorderStdout), transcribe, ic)]
      ensures old(isRecording) && ic != null && transcribe ==>
                ic.panel == WithStatus(old(ic.panel), TranscribingStatus) && ic.log == old(ic.log) + [Shown(ic.panel)]
      ensures old(isRecording) && ic != null && !transcribe ==>
                ic.panel == EmptyPanel && ic.log == old(ic.log) + [Shown(EmptyPanel)]
    {
      if !isRecording {
        return;
      }
      isRecording := false;
      if ic != null {
        if transcribe {
          ShowStatus(ic, TranscribingStatus);
        } else {
          ClearUI(ic);
        }
      }
      var pid, stdinFd, stdoutFile := recorderPid, recorderStdinFd, recorderStdout;
      recorderPid := -1;
      recorderStdinFd := -1;
      recorderStdout := Null;
      var w := Worker(pid, stdinFd, stdoutFile, transcribe, ic);
      assert Held(-1, -1, Null) == {};
      OwnsHandOver(kernel.open, Held(pid, stdinFd, stdoutFile), workers, w);
      workers := workers + [w];
    }

    /**
     * The worker body: stop the recorder, releasing every handle the worker
     * took over, and read its path; then deliver the outcome.
     */
    method RunWorker(i: nat, out: string, interruptions: nat, reply: Exchange)
      requires Valid() && i < |workers|
      modifies this, kernel
      ensures Valid()
      ensures isRecording == old(isRecording) && recorderPid == old(recorderPid)
      ensures recorderStdinFd == old(recorderStdinFd) && recorderStdout == old(recorderStdout)
      ensures workers == old(workers[..i] + workers[i + 1..])
      ensures kernel.open == old(kernel.open) - old(WorkerHeld(workers[i]))
      ensures kernel.open - Owned() == old(kernel.open - Owned())
      ensures var w := old(workers[i]);
              var path := if w.stdout.File? then RecorderPath(out) else "";
              && kernel.files == (if path == "" then old(kernel.files) else old(kernel.files) - {path})
              && sent == old(sent) + (if path != "" && w.transcribe then [TranscribeRequest(path)] else [])
              && scheduled == old(scheduled) + Post(w.ic, WorkerActions(path, w.transcribe, DecodeTranscribe(reply)))
    {
      var w := workers[i];
      OwnsRelease(kernel.open, SessionHeld(), workers, i);
      workers := workers[..i] + workers[i + 1..];
      var path := StopRecorderProcess(kernel, w.pid, w.stdinFd, w.stdout, out, interruptions);
      Deliver(w.ic, w.transcribe, path, reply);
    }

    /**
     * The rest of the worker: no path posts an error only when transcribing;
     * without transcription the file is just removed; otherwise the file is
     * transcribed, then removed, and the outcome posted.
     */
    method Deliver(ic: InputContext?, transcribe: bool, path: string, reply: Exchange)
      requires Valid()
      modifies this, kernel
      ensures Valid()
      ensures isRecording == old(isRecording) && recorderPid == old(recorderPid)
      ensures recorderStdinFd == old(recorderStdinFd) && recorderStdout == old(recorderStdout)
      ensures workers == old(workers) && kernel.open == old(kernel.open)
      ensures kernel.files == (if path == "" then old(kernel.files) else old(kernel.files) - {path})
      ensures sent == old(sent) + (if path != "" && transcribe then [TranscribeRequest(path)] else [])
      ensures scheduled == old(scheduled) + Post(ic, WorkerActions(path, transcribe, DecodeTranscribe(reply)))
    {
      if path == "" {
        if transcribe {
          scheduled := scheduled + [Deferred(ic, ShowErrorAction(NoRecordingError))];
        }
        return;
      }
      if !transcribe {
        kernel.Remove(path);
        return;
      }
      sent := sent + [TranscribeRequest(path)];
      var result := DecodeTranscribe(reply);
      kernel.Remove(path);
      var action;
      if result.success && result.text != "" {
        action := CommitAction(result.text);
      } else if !result.success {
        action := ShowErrorAction(if result.error == "" then TranscribeError else result.error);
      } else {
        action := ClearAction;
      }
      scheduled := scheduled + [Deferred(ic, action)];
    }

    /** The event loop runs the oldest posted action, on its context only if that context still exists. */
    method RunScheduled()
      requires Valid() && scheduled != []
      modifies this, scheduled[0].ic
      ensures Valid()
      ensures scheduled == old(scheduled[1..])
      ensures isRecording == old(isRecording) && workers == old(workers) && sent == old(sent)
      ensures recorderPid == old(recorderPid) && recorderStdinFd == old(recorderStdinFd)
      ensures recorderStdout == old(recorderStdout)
      ensures var d := old(scheduled[0]);
              d.ic != null ==>
                && d.ic.alive == old(d.ic.alive)
                && (old(d.ic.alive) ==> (d.ic.panel, d.ic.log)
                                         == (Apply(old(d.ic.panel), d.action).0, old(d.ic.log) + Apply(old(d.ic.panel), d.action).1))
                && (!old(d.ic.alive) ==> d.ic.panel == old(d.ic.panel) && d.ic.log == old(d.ic.log))
    {
      var d := scheduled[0];
      scheduled := scheduled[1..];
      if d.ic == null || !d.ic.alive {
        return;
      }
      match d.action {
        case ShowErrorAction(e) =>
          ShowError(d.ic, e);
        case CommitAction(t) =>
          CommitText(d.ic, t);
        case ClearAction =>
          ClearUI(d.ic);
      }
    }

    // ----- host entry points -------------------------------------------------

    /**
     * keyEvent. F9 is always accepted: its press starts a recording when idle
     * and its release stops one and transcribes. Other releases and the
     * switching hotkeys go untouched to the host. Everything else is sent with
     * its 4-bit mask; a non-empty commit is committed before the panel is
     * refreshed, and the key is accepted exactly when the backend handled it.
     */
    method KeyEvent(ic: InputContext, sym: int, states: bv32, release: bool, env: SpawnEnv, reply: Exchange)
      returns (accepted: bool)
      requires Valid()
      modifies this, kernel, ic
      ensures Valid() && kernel.files == old(kernel.files) && scheduled == old(scheduled)
      ensures ic.alive == old(ic.alive)
      ensures kernel.open - Owned() == old(kernel.open - Owned())
      ensures var route := FcitxRoute(sym, states, release, old(isRecording));
              && (accepted <==> route.Ptt? || (route == Forward && DecodeKeyReply(reply).handled))
              && sent == old(sent) + (if route == Forward then [KeyEventRequest(sym, RimeMask(states))] else [])
              && (route.Ptt? && route.action.StartRecording? ==> isRecording == (Configured() && SpawnSucceeds(env)))
              && (route.Ptt? && route.action.StopAndTranscribe? ==>
                    && !isRecording
                    && workers == old(workers) + [Worker(old(recorderPid), old(recorderStdinFd), old(recorderStdout), true, ic)])
              && (!(route.Ptt? && route.action.StartRecording?) ==> kernel.open == old(kernel.open))
              && (!(route.Ptt? && route.action.StopAndTranscribe?) ==> workers == old(workers))
              && (!route.Ptt? || route.action.NoChange? ==>
                    && isRecording == old(isRecording) && recorderPid == old(recorderPid)
                    && recorderStdinFd == old(recorderStdinFd) && recorderStdout == old(recorderStdout))
              && (route == Pass || route == Ptt(NoChange) ==> ic.panel == old(ic.panel) && ic.log == old(ic.log))
              && (route == Forward ==>
                    var state := DecodeKeyReply(reply);
                    && ic.panel == Project(state)
                    && ic.log == old(ic.log) + (if state.commitText != "" then CommitEvents(state.commitText) else [])
                                 + [Shown(Project(state))])
    {
      var route := FcitxRoute(sym, states, release, isRecording);
      if sym == PttKey {
        if release {
          if isRecording {
            StopRecording(ic, true);
          }
        } else {
          if !isRecording {
            StartRecording(ic, env);
          }
        }
        return true;
      }
      if release {
        return false;
      }
      if FcitxSwitchHotkey(sym, states) {
        return false;
      }
      var mask := RimeMask(states);
      sent := sent + [KeyEventRequest(sym, mask)];
      var state := ProcessKey(reply);
      if state.commitText != "" {
        CommitText(ic, state.commitText);
      }
      UpdateUI(ic, state);
      accepted := state.handled;
    }

    /** reset: clear the panel and ask the backend to reset, ignoring any failure. */
    method Reset(ic: InputContext)
      requires Valid()
      modifies this, ic
      ensures Valid()
      ensures sent == old(sent) + [ResetRequest]
      ensures isRecording == old(isRecording) && workers == old(workers) && scheduled == old(scheduled)
      ensures recorderPid == old(recorderPid) && recorderStdinFd == old(recorderStdinFd)
      ensures recorderStdout == old(recorderStdout)
      ensures ic.panel == EmptyPanel && ic.log == old(ic.log) + [Shown(EmptyPanel)] && ic.alive == old(ic.alive)
    {
      ClearUI(ic);
      sent := sent + [ResetRequest];
    }

    /** deactivate: clear the panel and stop a running recording without transcribing it. */
    method Deactivate(ic: InputContext)
      requires Valid()
      modifies this, ic
      ensures Valid()
      ensures !isRecording && sent == old(sent) && scheduled == old(scheduled)
      ensures kernel.open == old(kernel.open) && Owned() == old(Owned())
      ensures old(isRecording) ==> workers == old(workers) + [Worker(old(recorderPid), old(recorderStdinFd), old(recorderStdout), false, ic)]
      ensures !old(isRecording) ==> workers == old(workers)
      ensures ic.panel == EmptyPanel && ic.alive == old(ic.alive)
      ensures ic.log == old(ic.log) + (if old(isRecording) then [Shown(EmptyPanel), Shown(EmptyPanel)] else [Shown(EmptyPanel)])
    {
      ClearUI(ic);
      if isRecording {
        StopRecording(ic, false);
      }
    }

    /**
     * The destructor: when any recorder field is still set (which under the
     * invariant is exactly when recording), the recorder is stopped and reaped,
     * the file it produced is removed, and every field is reset.
     */
    method Destroy(out: string, interruptions: nat)
      requires Valid()
      modifies this, kernel
      ensures Valid()
      ensures old(recorderPid > 0 || recorderStdout.File? || recorderStdinFd >= 0) <==> old(isRecording)
      ensures !isRecording && recorderPid == -1 && recorderStdinFd == -1 && recorderStdout == Null
      ensures workers == old(workers) && scheduled == old(scheduled) && sent == old(sent)
      ensures kernel.open == old(kernel.open) - old(SessionHeld())
      ensures kernel.open - Owned() == old(kernel.open - Owned())
      ensures old(isRecording) && RecorderPath(out) != "" ==> kernel.files == old(kernel.files) - {RecorderPath(out)}
      ensures !(old(isRecording) && RecorderPath(out) != "") ==> kernel.files == old(kernel.files)
    {
      if recorderPid > 0 || recorderStdout.File? || recorderStdinFd >= 0 {
        var path := StopRecorderProcess(kernel, recorderPid, recorderStdinFd, recorderStdout, out, interruptions);
        if path != "" {
          kernel.Remove(path);
        }
        recorderPid := -1;
        recorderStdinFd := -1;
        recorderStdout := Null;
        isRecording := false;
        assert Held(-1, -1, Null) == {};
        OwnsDropSession(old(kernel.open), old(SessionHeld()), workers);
      }
    }
  }
}
