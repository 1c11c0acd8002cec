# VoCoType keystroke and speech bridge, modelled in Dafny

VoCoType is a Chinese input method. Push-to-talk on F9 records speech for offline recognition. Every other key goes to the Rime engine. It ships two front ends, and this project models the part of each that turns a keystroke into an action, a request or a host UI call.

- **The Fcitx 5 front end.**
  - A C++ addon (`fcitx5/addon/vocotype.cpp`, `fcitx5/addon/ipc_client.cpp`) routes each key.
    - F9 spawns and stops a recorder child process.
    - Other keys travel over a Unix socket to a Python backend as one JSON request per connection.
    - The replies are decoded into a `RimeUIState` and drawn into the input panel.
  - The backend (`fcitx5/backend/fcitx5_server.py`, `rime_handler.py`, `audio_recorder.py`) does three jobs:
    - reads the request, with a 1 MiB limit;
    - dispatches it to speech recognition or to an in-process Rime session;
    - in the `audio_recorder.py` child, records audio until stdin closes and prints the WAV path on one line.
- **The IBus front end** (`ibus/engine.py`) does the same in a single process.
  - It routes keys through the same push-to-talk rule, with the host's switch hotkeys passed through.
  - It drives an in-process Rime session and redraws the preedit and the lookup table.
  - It captures audio frames in process.
  - It hands a finished recording to a job thread, whose result comes back as a main-loop idle callback.

## How the model is organised

- **Modules and their forms.**
  - Pure decision logic is written as functions with lemmas: key routing (`Keys`), JSON access in the two libraries' own semantics (`Json`), reply decoding (`IpcClient`, `RimeHandler`, `Backend.Route`), labels and panels (`FcitxUi`), and device and rate choice (`Audio`).
  - Objects whose fields the source updates are classes with `modifies` frames: `Addon.VoCoTypeAddon`, `Addon.InputContext`, `RimeHandler.Handler`, `Backend.Server`, `Audio.AudioRecorder` and `IBusEngine.Engine`.
  - Loops in the source are methods with loop invariants. Each one is proved equal to a specification function: `IpcClient.SendRequest`, `IpcClient.ProcessKey`, `FcitxUi.BuildCandidateList`, `Backend.ReadConnection`, `Audio.ResolveInputDevice`, `Audio.AudioRecorder.Capture`, `IBusEngine.Engine.BuildTable` and `IBusEngine.Engine.Capture`.
- **System calls.**
  - The process's open handles and files are a `Posix.Kernel` object. `pipe`, `fork`, `fdopen`, `close`, `kill`, `waitpid`, `socket`, creating a temporary file and `unlink` each change its `open` or `files` set exactly.
  - What each call answers is a parameter (for example `Addon.SpawnEnv`).
  - The addon proves an ownership invariant `Owns`: every handle held by the recording session or by a detached worker is open, and held by exactly one.
  - Every start, stop and worker run keeps `open - Owned()` unchanged.
- **Everything outside the core** is a parameter: the peer's answers, the speech recogniser's reply, Rime's snapshot, the audio device queries and the queued audio frames.
- **Across the two ends**, `Protocol` proves three things:
  - every request the addon builds is routed by the backend as intended;
  - the reply written for a Rime snapshot decodes on the addon side to exactly that snapshot's state;
  - every error reply decodes to the failure defaults.

## Model

| member | source | states |
|---|---|---|
| Keys.RimeMask | fcitx5/addon/vocotype.cpp:149-162 | The mask is 0..15, and each of its four bits is set exactly when Shift, CapsLock, Ctrl or Alt is held. |
| Keys.RimeMaskIsLowNibble | fcitx5/addon/vocotype.cpp:149-162 | The mask equals the low four bits of the modifier word, so no other modifier leaks into it. |
| Keys.FcitxRoute | fcitx5/addon/vocotype.cpp:112-186 | F9 is always consumed. Its press starts a recording exactly when idle, and its release stops exactly a running one. A non-F9 key is forwarded exactly when it is a press and not a switch hotkey. |
| Keys.IBusRoute | ibus/engine.py:430-454 | F9 is always consumed, with the same start and stop conditions. A non-F9 key is passed back exactly when it is a switch hotkey, and otherwise forwarded, releases included. |
| Keys.SwitchHotkeysAgree | fcitx5/addon/vocotype.cpp:441-463 | The IBus hotkey test (ibus/engine.py:567-577) accepts exactly the Fcitx hotkeys plus Space with the separate Super bit. |
| Keys.RoutesAgreeOnPress | ibus/engine.py:430-454 | For a press using only the bits both hosts share, both front ends route every key identically. |
| Json.Lookup | fcitx5/backend/fcitx5_server.py:182-183 | A key's value is its last occurrence in the object, and None exactly when the key is absent. |
| Json.LookupDistinct | fcitx5/addon/ipc_client.cpp:118-122 | In an object literal with distinct keys, every listed key finds its listed value. |
| Json.AsBool | fcitx5/addon/ipc_client.cpp:130 | Only a boolean converts to bool. Anything else fails with the library's type error. |
| Json.AsInt | fcitx5/addon/ipc_client.cpp:140 | Numbers convert, and booleans convert as 0 or 1. Anything else fails. |
| Json.AsString | fcitx5/addon/ipc_client.cpp:134 | Only a string converts to std::string. |
| Json.ValueBool | fcitx5/addon/ipc_client.cpp:98 | `value(key, default)` fails on a non-object, gives the default for an absent key, and otherwise converts the value. |
| Json.ValueInt | fcitx5/addon/ipc_client.cpp:150-151 | The same rule as `ValueBool`, for integers. |
| Json.ValueString | fcitx5/addon/ipc_client.cpp:100-102 | The same rule as `ValueBool`, for strings. |
| Json.Index | fcitx5/addon/ipc_client.cpp:139-140 | Non-const `operator[]`: an object gives the key's value or null, null gives null, and any other value fails. |
| Json.ConstIndex | fcitx5/addon/ipc_client.cpp:146-147 | Const `operator[]`: a missing key or a non-object is a failure, never a default. |
| Json.Elements | fcitx5/addon/ipc_client.cpp:145 | A range-for visits an array's elements in order, nothing for null, and a scalar once. An object gives at most one value per listed field. |
| Json.SortedKeysAscending | fcitx5/addon/ipc_client.cpp:128 | A parsed object holds its keys as a sorted map: strictly ascending in `std::string` order, each once, exactly the keys the text carried. |
| Json.ObjectElementsInKeyOrder | fcitx5/addon/ipc_client.cpp:145 | Iterating an object visits one value per distinct key, in ascending key order, each the value that key reads as (its last occurrence). |
| Json.ObjectIterationExamples | fcitx5/addon/ipc_client.cpp:145 | `{"b": x, "a": y}` is visited as y then x, and `{"a": x, "b": y, "a": y}` as y, y. |
| Json.Get | fcitx5/backend/fcitx5_server.py:183-201 | `dict.get` gives the key's value when present and the default otherwise. |
| Json.DecimalRoundTrip | fcitx5/backend/fcitx5_server.py:220 | The decimal text that `str()` gives a number reads back as that number. |
| IpcClient.DecodeTranscribe | fcitx5/addon/ipc_client.cpp:82-111 | Success holds exactly when the reply says `success: true` with a string text (or no text), and then the text is the reply's. An exception gives failure with its message. A non-object reply, a non-boolean `success` and a non-string `text` each give the library's error text. A false or absent `success` gives the reply's string `error`, "Unknown error" without one, or the type error for a non-string one. |
| IpcClient.ReadCommit | fcitx5/addon/ipc_client.cpp:133-135 | Only the commit text changes. An absent key changes nothing. A present one must be a string. |
| IpcClient.ReadPreedit | fcitx5/addon/ipc_client.cpp:138-141 | Only the preedit text and cursor change. A missing or non-string text aborts with nothing changed. A string text followed by a missing or non-numeric cursor aborts with the text already stored. The step completes exactly when both convert, and then holds both. |
| IpcClient.DecodeCandidate | fcitx5/addon/ipc_client.cpp:146-148 | A candidate decodes exactly when `text` and `comment` are both present strings, and it keeps both. |
| IpcClient.PushCandidates | fcitx5/addon/ipc_client.cpp:145-149 | Candidates are appended in order, and the earlier ones are never lost. |
| IpcClient.DecodedCandidateAt | fcitx5/addon/ipc_client.cpp:145-148 | Each candidate of the decoded prefix is what the element at its position decodes to. |
| IpcClient.DecodedCandidatesStop | fcitx5/addon/ipc_client.cpp:145-148 | The decoded prefix ends early only at an element that does not decode. |
| IpcClient.PushCandidatesKeepsPrefix | fcitx5/addon/ipc_client.cpp:145-149 | The loop appends exactly the decoded prefix, so candidates before a bad element are kept. It completes exactly when every element decodes. |
| IpcClient.ReadCandidates | fcitx5/addon/ipc_client.cpp:144-152 | Only the candidates, highlighted index and page size change. A list that aborts leaves both indices unchanged. After a full list, a bad `highlighted_index` aborts with neither index set, and a bad `page_size` aborts with only the highlighted index set. The step completes exactly when the list and both values convert, and then holds their values. |
| IpcClient.DecodeKeyReplyDefaults | fcitx5/addon/ipc_client.cpp:113-160 | An exception gives the default state. `handled` holds only if the reply says so. Each absent part keeps its default. A non-empty commit is the reply's own. |
| IpcClient.KeyReplyAbortKeepsFilled | fcitx5/addon/ipc_client.cpp:113-160 | A step that throws gives the state filled so far with `handled` false. A reply read through keeps its `handled`. A string commit survives any later failure. A preedit text survives a bad cursor, which leaves the reply unhandled with no candidates. |
| IpcClient.ProcessKey | fcitx5/addon/ipc_client.cpp:113-160 | The decoding loop computes exactly `DecodeKeyReply`. |
| IpcClient.DecodePing | fcitx5/addon/ipc_client.cpp:171-180 | Alive exactly when the reply parsed and holds `pong: true`. |
| IpcClient.SendRequest | fcitx5/addon/ipc_client.cpp:25-80 | The loops compute `SendRequestSpec`. Every throwing path closes the socket first. Only a call that never returns still holds it. |
| IpcClient.SendInterruptsAreRetried | fcitx5/addon/ipc_client.cpp:45-56 | Interrupted send() calls change nothing. |
| IpcClient.RecvInterruptsAreRetried | fcitx5/addon/ipc_client.cpp:63-76 | Interrupted recv() calls change nothing. |
| IpcClient.ChunksConcatenate | fcitx5/addon/ipc_client.cpp:63-79 | The response is the concatenation of the chunks received before the peer closed. |
| IpcClient.BackendDown | fcitx5/addon/ipc_client.cpp:27-41 | If the socket or the connection fails, ping is false, key replies are the unhandled defaults, and transcription fails. |
| FcitxUi.WithStatus | fcitx5/addon/vocotype.cpp:280-286 | A status sets a plain preedit and keeps the candidate list. |
| FcitxUi.ErrorPanel | fcitx5/addon/vocotype.cpp:429-439 | The error mark precedes the message, and the candidate list is kept. |
| FcitxUi.CandidateLabel | fcitx5/addon/vocotype.cpp:392-399 | A label is the text, plus a space and the comment when the comment is non-empty. |
| FcitxUi.LabelKeepsBoth | fcitx5/addon/vocotype.cpp:392-399 | Given the text, a label gives back the comment, so neither is lost. |
| FcitxUi.ClampIndex | fcitx5/addon/vocotype.cpp:402-407 | The highlighted index is kept when it names a candidate, and is 0 otherwise. With candidates present, the cursor is always in range. |
| FcitxUi.Project | fcitx5/addon/vocotype.cpp:368-414 | The panel shows the preedit (underlined when non-empty), and candidates only when there are some, with labels in order, the page size and an in-range cursor. |
| FcitxUi.ProjectDefaultClears | fcitx5/addon/vocotype.cpp:368-421 | Drawing a reply that filled nothing leaves the panel as `clearUI` does. |
| FcitxUi.ProjectKeepsValidHighlight | fcitx5/addon/vocotype.cpp:402-407 | An in-range highlighted index is shown unchanged. |
| FcitxUi.BuildCandidateList | fcitx5/addon/vocotype.cpp:385-411 | The candidate loop builds exactly the candidate list of `Project`. |
| Addon.CommitsAppend | fcitx5/addon/vocotype.cpp:423-427 | The commits of an appended log are the old commits followed by the new ones. |
| Addon.InputContext.Destroy | fcitx5/addon/vocotype.cpp:329-353 | A destroyed context is dead, and its panel and log stay as they were. |
| Addon.WorkersHeldRemove | fcitx5/addon/vocotype.cpp:325-363 | Removing one of several disjoint workers releases exactly its handles. |
| Addon.OwnsHandOver | fcitx5/addon/vocotype.cpp:315-325 | Stopping hands the session's handles to a new worker, and the owned set stays the same. |
| Addon.OwnsRelease | fcitx5/addon/vocotype.cpp:325-326 | A finishing worker's handles are closed and disowned, and nothing else changes. |
| Addon.OwnsAcquire | fcitx5/addon/vocotype.cpp:275-278 | Fresh handles become the session's. |
| Addon.OwnsDropSession | fcitx5/addon/vocotype.cpp:85-96 | The destructor drops the session's handles and keeps the invariant. |
| Addon.WorkerActions | fcitx5/addon/vocotype.cpp:326-362 | No path posts "录音失败" only when transcribing. A stop without transcribing posts nothing. Otherwise: a commit happens exactly for a non-empty success, and commits that text. An empty success clears, and exactly then. A failure shows the error ("转录失败" when it is empty). |
| Addon.Post | fcitx5/addon/vocotype.cpp:329-349 | Every action is posted for the worker's own context, in order. |
| Addon.Apply | fcitx5/addon/vocotype.cpp:350-361 | Only a commit action commits text, and each of the others logs one panel refresh. |
| Addon.ReadLength | fcitx5/addon/vocotype.cpp:35-36 | `fgets` takes characters whose UTF-8 bytes fit in the room left. It takes at least one unless at end of stream, and stops after the first newline. It stops short of that only where the next character would not fit. |
| Addon.FirstLine | fcitx5/addon/vocotype.cpp:36-37 | No line is read exactly at end of stream. A line read is a non-empty prefix of the output, at most 1023 bytes in UTF-8. |
| Addon.StripLineEnds | fcitx5/addon/vocotype.cpp:38-41 | Trailing '\n' and '\r' are removed: the result is a prefix that ends in neither, and everything cut was a line end. |
| Addon.PathLineRoundTrip | fcitx5/addon/vocotype.cpp:28-53 | A path the recorder prints as one line (fcitx5/backend/audio_recorder.py:232) is read back exactly, whatever follows it, when its UTF-8 bytes and the newline fit in the 1024-byte buffer. |
| Addon.StopRecorderProcess | fcitx5/addon/vocotype.cpp:28-53 | Exactly the given handles (pid, stdin, stdout) are released, each only when set. The returned path is the stripped first line, or "" without a stream. |
| Addon.SpawnRecorder | fcitx5/addon/vocotype.cpp:223-273 | It succeeds exactly when pipe, pipe, fork and fdopen all succeed. Every failure releases what the earlier calls opened. Success holds a fresh child, the stdin write end and the stdout stream. |
| Addon.VoCoTypeAddon.constructor | fcitx5/addon/vocotype.cpp:62-83 | The install paths come from HOME, or are empty without it. The recorder starts idle, and one ping is sent. |
| Addon.VoCoTypeAddon.ClearUI | fcitx5/addon/vocotype.cpp:416-421 | The panel is reset, and one refresh is logged. |
| Addon.VoCoTypeAddon.CommitText | fcitx5/addon/vocotype.cpp:423-427 | The panel is cleared first, then the text is committed. |
| Addon.VoCoTypeAddon.ShowError | fcitx5/addon/vocotype.cpp:429-439 | The error panel is shown and stays until the next refresh. |
| Addon.VoCoTypeAddon.ShowStatus | fcitx5/addon/vocotype.cpp:280-286 | The status preedit is shown. |
| Addon.VoCoTypeAddon.UpdateUI | fcitx5/addon/vocotype.cpp:368-414 | The panel becomes `Project(state)`. |
| Addon.VoCoTypeAddon.StartRecording | fcitx5/addon/vocotype.cpp:213-289 | It does nothing when already recording. Without HOME it shows "录音配置无效". Any spawn failure shows "启动录音失败" with the open handles unchanged. Success records with fresh handles and shows the recording status. |
| Addon.VoCoTypeAddon.StopRecording | fcitx5/addon/vocotype.cpp:295-366 | It clears the flag, shows the transcribing status or clears the panel, hands the handles to a new worker, and resets the fields. |
| Addon.VoCoTypeAddon.RunWorker | fcitx5/addon/vocotype.cpp:325-363 | The worker releases its handles and removes the recorded file. It sends a transcribe request only for a path it will transcribe, and posts the decided actions. |
| Addon.VoCoTypeAddon.Deliver | fcitx5/addon/vocotype.cpp:327-362 | Without a path it removes nothing. With one, it transcribes first when asked, then removes the file and posts the outcome. |
| Addon.VoCoTypeAddon.RunScheduled | fcitx5/addon/vocotype.cpp:329-353 | A posted action runs on its context only while that context is alive. A dead context is untouched. |
| Addon.VoCoTypeAddon.KeyEvent | fcitx5/addon/vocotype.cpp:112-186 | F9 is accepted. A forwarded key is accepted exactly when the backend handled it. It sends the key with the 4-bit mask, commits a non-empty commit before redrawing, and leaves the host's keys untouched. |
| Addon.VoCoTypeAddon.Reset | fcitx5/addon/vocotype.cpp:188-193 | It clears the panel and sends one reset request. |
| Addon.VoCoTypeAddon.Deactivate | fcitx5/addon/vocotype.cpp:200-211 | It clears the panel and stops a running recording without transcribing. |
| Addon.VoCoTypeAddon.Destroy | fcitx5/addon/vocotype.cpp:85-98 | It stops a live recorder, removes the file it reported, and releases the session's handles. |
| RimeHandler.KeyResult | fcitx5/backend/rime_handler.py:156-192 | `handled` is always present. `commit`, `preedit` and the candidate group are present exactly when non-empty, each with the session's values. No other key appears. |
| RimeHandler.InitOutcome | fcitx5/backend/rime_handler.py:48-119 | An existing session succeeds. An unavailable engine fails. A failure of the directories, the shared data or the session's creation fails with no session. Once the session is stored, the answer is whether schema selection succeeded, and the session stays. |
| RimeHandler.ProcessKeyReply | fcitx5/backend/rime_handler.py:121-198 | The reply is `{"handled": False}` unless the engine is available, initialised and answering. Then it is `KeyResult`. |
| RimeHandler.Handler.constructor | fcitx5/backend/rime_handler.py:26-34 | A new handler has no session and has made no calls. |
| RimeHandler.Handler.Initialize | fcitx5/backend/rime_handler.py:48-119 | The answer and the session follow `InitOutcome`. |
| RimeHandler.Handler.ProcessKey | fcitx5/backend/rime_handler.py:121-198 | The reply is `ProcessKeyReply`. The session call is made only when initialisation succeeded. |
| RimeHandler.Handler.Reset | fcitx5/backend/rime_handler.py:200-210 | The composition is cleared only when a session exists. |
| RimeHandler.Handler.Cleanup | fcitx5/backend/rime_handler.py:212-220 | The session is dropped. |
| RimeHandler.InitializeIsIdempotent | fcitx5/backend/rime_handler.py:56-57 | Once a session exists, initialisation always succeeds. |
| Backend.ReadRequest | fcitx5/backend/fcitx5_server.py:166-180 | The data received never exceeds 1 MiB in total. Passing the limit refuses the request. A timeout or a receive error ends the read. |
| Backend.ReadRequestConcatenates | fcitx5/backend/fcitx5_server.py:166-180 | The request is exactly the concatenation of the chunks before end of stream. |
| Backend.ReadConnection | fcitx5/backend/fcitx5_server.py:166-177 | The receive loop computes exactly `ReadRequest`. |
| Backend.Route | fcitx5/backend/fcitx5_server.py:182-220 | The dispatch on `type`, both ways. Transcription needs a truthy `audio_path`. A key event needs a non-null `keyval`, with `mask` defaulting to 0. Reset and ping have fixed replies. Any other type is unknown. A non-object answers the AttributeError message. |
| Backend.Request | fcitx5/backend/fcitx5_server.py:178-182 | A request reaches dispatch exactly when data was read and it decodes. |
| Backend.Dispatched | fcitx5/backend/fcitx5_server.py:182-220 | The action taken is the routed request, or none. |
| Backend.Respond | fcitx5/backend/fcitx5_server.py:163-255 | Too large, timeout, receive error, bad UTF-8 and bad JSON each give their own error reply. Only an empty request gives no reply. Otherwise the reply is the routed answer. |
| Backend.Answer | fcitx5/backend/fcitx5_server.py:188-220 | Fixed replies are returned as they are. A key event returns the handler's reply. Reset gives success. An ASR exception becomes an error reply. |
| Backend.Server.HandleClient | fcitx5/backend/fcitx5_server.py:139-255 | The reply is `Respond`. The connection is closed on every path. Only a routed transcription is logged, and only a routed key event or reset reaches the handler. |
| Backend.CleanupAsWritten | fcitx5/backend/fcitx5_server.py:76-94 | As written: it acts only when the path exists (following symlinks). It removes a socket or symlink, refuses anything else, and only warns on lstat or remove failures. |
| Backend.DanglingSymlinkSurvives | fcitx5/backend/fcitx5_server.py:78 | A dangling symlink at the socket path is left in place. |
| Backend.CleanupSocketPath | fcitx5/backend/fcitx5_server.py:76-94 | Corrected (lexists): it leaves the path alone exactly when nothing is there, and whenever it reports success the path is free. |
| Backend.CleanupAgrees | fcitx5/backend/fcitx5_server.py:76-94 | The two versions differ only for a dangling symlink. |
| Protocol.ClientRequestsRoute | fcitx5/addon/ipc_client.cpp:87-173 | Each request the addon builds is routed as intended by fcitx5/backend/fcitx5_server.py:182-220. |
| Protocol.CandidatesRoundTrip | fcitx5/backend/rime_handler.py:181-188 | The candidate objects the backend writes are all decoded by the addon (fcitx5/addon/ipc_client.cpp:145-149), in order. |
| Protocol.KeyReplyRoundTrip | fcitx5/backend/rime_handler.py:156-192 | The key reply decodes on the addon side (fcitx5/addon/ipc_client.cpp:130-152) to exactly the session's state. |
| Protocol.DecodeExpected | fcitx5/addon/ipc_client.cpp:130-152 | Any object carrying a snapshot's fields decodes to that snapshot's state. |
| Protocol.ErrorRepliesFailClosed | fcitx5/backend/fcitx5_server.py:192-255 | Every error reply decodes to the failure defaults: unhandled, failed transcription, no pong. |
| Protocol.PingRoundTrip | fcitx5/backend/fcitx5_server.py:215-217 | The backend's ping reply is one the addon (fcitx5/addon/ipc_client.cpp:171-180) takes as alive. |
| Audio.ResolveInputDevice | fcitx5/backend/audio_recorder.py:52-75 | A configured device with input channels is kept. Otherwise the first device with input channels is chosen, and a device is found exactly when one exists. The same rule is at ibus/engine.py:94-114. |
| Audio.ResolveSampleRate | fcitx5/backend/audio_recorder.py:77-108 | The rate is never 0. An accepted non-zero preference wins. Otherwise a non-zero device default that is accepted wins. Otherwise the result is the non-zero preference, or 16000 without one. The same rule is at ibus/engine.py:116-144. |
| Audio.ResolveSampleRateStable | fcitx5/backend/audio_recorder.py:77-108 | Choosing again with an accepted chosen rate as the preference keeps it. |
| Audio.FramesOf | fcitx5/backend/audio_recorder.py:147-153 | The frames captured are the queue's frames in order, and there are none exactly when the queue only timed out. |
| Audio.MergeConfig | fcitx5/backend/audio_recorder.py:223-225 | A given device wins. The configured rate is used unless the option's rate differs from 44100. |
| Audio.ExplicitDefaultRateIsOverridden | fcitx5/backend/audio_recorder.py:225 | An explicit `--sample-rate 44100` is replaced by the configured rate. |
| Audio.AudioRecorder.constructor | fcitx5/backend/audio_recorder.py:44-50 | A new recorder has no frames. |
| Audio.AudioRecorder.Capture | fcitx5/backend/audio_recorder.py:147-153 | Exactly the queued frames are appended, in order. |
| Audio.AudioRecorder.Record | fcitx5/backend/audio_recorder.py:110-199 | A stream error raises. No frames exits. A file is returned exactly when the stream, the frames, the temporary file and the write all succeed. A short recording is only a warning: the returned `short` flag is the 0.3-second rule at the chosen rate. |
| Audio.RecorderMain | fcitx5/backend/audio_recorder.py:202-240 | Exit status 0 exactly when the path line was printed, which is exactly when recording succeeded. The line is the path and a newline. |
| IBusEngine.Status | ibus/engine.py:755-758 | A status is a visible, plain preedit with the cursor at its end. |
| IBusEngine.TableLabel | ibus/engine.py:552-555 | A label is the text, plus a space and the comment when the comment is non-empty. |
| IBusEngine.LabelsAgree | ibus/engine.py:552-555 | The IBus label equals the Fcitx label (fcitx5/addon/vocotype.cpp:392-399) of the same candidate. |
| IBusEngine.ContextEvents | ibus/engine.py:515-565 | First the underlined preedit at Rime's cursor, or a clear. Then the lookup table, hidden without candidates, with the highlighted index unclamped. |
| IBusEngine.KeyEventsShowAnswer | ibus/engine.py:491-505 | After a key, the screen is determined by Rime's answer alone. Only the commit log keeps what came before. |
| IBusEngine.CommitComesFirst | ibus/engine.py:493-497 | A commit is issued after a clear and a hide, before any refresh, and only once. |
| IBusEngine.StripSlice | ibus/engine.py:733 | `str.strip` keeps a contiguous slice that neither starts nor ends with whitespace, and everything it cuts is whitespace. This holds for any set of whitespace characters, Python's included. |
| IBusEngine.StripEmpty | ibus/engine.py:733-737 | The stripped text is empty exactly when the text is all whitespace. |
| IBusEngine.StripIdempotent | ibus/engine.py:733 | Stripping twice changes nothing more. |
| IBusEngine.ResultActions | ibus/engine.py:724-741 | Exactly one callback is queued. ASR not ready shows "ASR未就绪". A recognition exception shows its message. With a truthy `success`: a string text whose strip is non-empty commits the stripped text, an empty one or no text clears, and a non-string text shows the AttributeError. Otherwise the reply's `error`, or "未知错误" without one, is shown. A non-dict reply shows the AttributeError of `get`. |
| IBusEngine.CommitsAreStripped | ibus/engine.py:733-737 | Only a non-empty stripped text is committed. |
| IBusEngine.JobAsWritten | ibus/engine.py:713-751 | As written: a failed resample or temp file creation makes no file. When the write succeeds, the file is removed. |
| IBusEngine.WriteFailureLeaksTempFile | ibus/engine.py:719-722 | A write that raises leaves the temporary file behind. |
| IBusEngine.TranscribeJob | ibus/engine.py:713-751 | Corrected: a file is created exactly when preparation succeeds, and every created file is removed. The callbacks are those of the code as written. |
| IBusEngine.IdleEvents | ibus/engine.py:760-776 | An error callback shows the error mark and the message. A commit callback clears, then commits. A clear callback clears. |
| IBusEngine.InitSession | ibus/engine.py:183-312 | An existing session is reused. A missing config or shared directory fails and keeps Rime enabled. A failed creation also disables it. |
| IBusEngine.InitSessionIdempotent | ibus/engine.py:185-190 | Once a session exists, initialisation succeeds and changes nothing. |
| IBusEngine.Engine.constructor | ibus/engine.py:54-83 | Rime is enabled exactly when available. The engine starts idle with no session and no pending work. |
| IBusEngine.Engine.ProcessKeyEvent | ibus/engine.py:430-454 | F9 is consumed and starts or stops recording by the routing rule. A switch hotkey returns false with nothing changed. Any other key gets `ForwardKey`'s answer. |
| IBusEngine.Engine.ForwardKey | ibus/engine.py:456-513 | It returns true exactly when Rime is enabled, initialised, the key is a press, Rime answered and handled it. Only then is the key sent with the 4-bit mask, and the answer's events are issued. |
| IBusEngine.Engine.ShowAnswer | ibus/engine.py:491-505 | It issues exactly `KeyEvents` of the answer. |
| IBusEngine.Engine.BuildTable | ibus/engine.py:544-557 | The candidate loop builds the table of `ContextEvents`. |
| IBusEngine.Engine.StartRecording | ibus/engine.py:579-645 | It does nothing when already recording. A stream error clears the flag and shows "❌ 录音失败: " with the message. Success opens the stream at the resolved rate and shows the recording status. |
| IBusEngine.Engine.Capture | ibus/engine.py:623-629 | Exactly the queued frames are appended, in order. |
| IBusEngine.Engine.StopRecording | ibus/engine.py:647-668 | It does nothing when idle. Otherwise it closes the stream, clears the flag and the preedit, and keeps the frames. |
| IBusEngine.Engine.StopAndTranscribe | ibus/engine.py:670-753 | It does nothing when idle. No frames, or under 0.3 s, just clears. Otherwise it shows the transcribing status and starts a job on the concatenated samples at the recording's rate. |
| IBusEngine.Engine.RunJob | ibus/engine.py:713-753 | A job queues the corrected job's callbacks and leaves the set of files unchanged. |
| IBusEngine.Engine.RunIdle | ibus/engine.py:755-776 | The oldest callback runs and issues exactly its `IdleEvents`. |

## Left out

- Concurrency: threads, locks, the event loop and the order in which detached workers and job threads run are one interleaving at a time. `RunWorker`, `RunJob` and `RunScheduled` may be called in any order.
- Floating point: durations are compared exactly, as `10 * samples < 3 * rate`, and C `int` and Python integers are unbounded.
- JSON text: `json.dumps`, `json::parse` and `dump()` are not modelled. A parse is a parameter that gives a value or an error message.
- Python `repr` escaping inside `str()` of containers is simplified.
- The 2-second automatic clear after an IBus error or a failed start (GLib timeouts) is not modelled.
- The IBus engine's `_ensure_asr_ready` (ibus/engine.py:397-428) is replaced by the job's `asrReady` parameter, because it starts a thread and loads a model.
- Resampling and the WAV writer (`app.audio_utils`, `app.wave_writer`) are not part of this model. Recordings are sequences of 16-bit samples, and writing one either succeeds or raises.
- The audio queue's 500-frame bound, which silently drops frames, is not modelled: every queued frame is captured.
- `fcitx5/backend/audio_recorder.py:31` imports `_load_audio_config` from `ibus/engine.py`, which does not define it. The recorder's configured device and rate are parameters instead.
- The backend's accept loop, signal handling and `main` (fcitx5/backend/fcitx5_server.py:96-137, 257-302) are not modelled. Neither is FunASR's initialisation at startup.
- `sendall` failures while answering are not modelled: the reply is computed, and the connection is closed.
- `do_enable`, `do_disable`, `do_destroy`, `do_focus_in` and `do_focus_out` of the IBus engine are not modelled. Neither are the addon's `activate` and `listInputMethods`.
- The IBus session set-up details are not modelled: symlink creation, schema choice, `user.yaml` reading. Only the outcome is (found, missing, raised).
- Exceptions from Rime's `get_commit`/`get_context`, after part of the UI was already updated, are folded into "Rime raised" before any update.
- Addon.StopRecorderProcess: the wait loop's retry on EINTR is a count of interruptions. The plain `waitpid` after a failed `fdopen` (fcitx5/addon/vocotype.cpp:270) is treated as always reaping the child.
- Addon.PathLineRoundTrip: paths whose UTF-8 bytes and newline do not fit in 1023 bytes, and paths ending in '\r', are outside its requires. For those, the addon reads a truncated or stripped path, and `RecorderPath` models what it then does.
- Addon.ReadLength: the recorder's output is a string of characters, so a character whose UTF-8 bytes would straddle the 1023-byte boundary is left out whole. `fgets` would keep its leading bytes. The byte count is otherwise exact.
- Addon.VoCoTypeAddon.RunWorker: a worker that outlives the addon (the `this` pointer its lambda holds) is not modelled.
- IBusEngine.Engine.RunJob: runs the corrected job (`TranscribeJob`), as the rest of the model does for each finding. The leak of the code as written is stated by `JobAsWritten` and `WriteFailureLeaksTempFile`, not by `RunJob`.
- Json.ConstIndex: a missing key under const `operator[]` is undefined behaviour in the library. It is modelled as a thrown error.
- Audio.AudioRecorder.Record: the temporary file stays on disk when the WAV write raises (fcitx5/backend/audio_recorder.py:192-196). The contract states this as behaviour: the file set grows whenever the file was created.

## Findings

| source | as written | input that shows it | evidently intended | confidence | as-written member | corrected member |
|---|---|---|---|---|---|---|
| fcitx5/backend/fcitx5_server.py:78 | The stale-socket cleanup first tests `os.path.exists`, which follows symlinks, so a symlink whose target is gone is never considered. The later `S_ISLNK` branch cannot see it. | A dangling symlink at `/tmp/vocotype-fcitx5.sock`: the cleanup returns without removing it, and the `bind` at line 109 then fails with the address in use. | Test with `os.path.lexists`, so every symlink reaches the branch that removes it. | medium, not executed | Backend.DanglingSymlinkSurvives | Backend.CleanupSocketPath |
| ibus/engine.py:719-722 | The temporary WAV file is created and written before the `try`/`finally` that unlinks it. | `write_wav` raising (for example, a full disk): the file exists, the `finally` is never entered, and nothing refers to the path again. | Unlink the file on every path after it is created, including a failed write. | medium, not executed | IBusEngine.WriteFailureLeaksTempFile | IBusEngine.TranscribeJob |
