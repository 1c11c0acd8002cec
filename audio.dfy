/**
 * Audio capture decisions shared by the recorder process and the IBus engine:
 * which input device and sample rate to open (first match with fallbacks,
 * over what the audio library reports), the frame capture loop, the
 * "too short" test, and the recorder process's exit protocol (one path line
 * on stdout on success, status 1 otherwise).
 */
module Audio {
  import opened Wrappers
  import opened Posix

  /** The rate recognition expects (16 kHz); recordings are resampled to it. */
  const TargetRate: int := 16000

  /** The recorder's command-line default sample rate. */
  const CliDefaultRate: int := 44100

  /** One 16-bit sample. */
  type Sample = x: int | -32768 <= x < 32768

  /** What the audio library reports about a device; a missing channel count reads as 0. */
  datatype DeviceInfo = DeviceInfo(maxInputChannels: int)

  predicate HasInput(d: DeviceInfo) {
    d.maxInputChannels > 0
  }

  /**
   * _resolve_input_device, over what querying reports: `configuredInfo` is the
   * answer for the configured device (None: the query raised) and `listing`
   * the device list (None: listing raised). The configured device is kept
   * when it has input channels; otherwise the first device with input
   * channels is chosen, and None when there is none.
   */
  method ResolveInputDevice(configured: Option<int>, configuredInfo: Option<DeviceInfo>, listing: Option<seq<DeviceInfo>>)
    returns (device: Option<int>)
    ensures configured.Some? && configuredInfo.Some? && HasInput(configuredInfo.value) ==> device == configured
    ensures !(configured.Some? && configuredInfo.Some? && HasInput(configuredInfo.value)) ==>
              && (device.Some? <==> listing.Some? && exists k :: 0 <= k < |listing.value| && HasInput(listing.value[k]))
              && (device.Some? ==>
                    && 0 <= device.value < |listing.value|
                    && HasInput(listing.value[device.value])
                    && forall k :: 0 <= k < device.value ==> !HasInput(listing.value[k]))
  {
    if configured.Some? && configuredInfo.Some? && HasInput(configuredInfo.value) {
      return configured;
    }
    if listing.None? {
      return None;
    }
    var devices := listing.value;
    for i := 0 to |devices|
      invariant forall k :: 0 <= k < i ==> !HasInput(devices[k])
    {
      if HasInput(devices[i]) {
        return Some(i);
      }
    }
    return None;
  }

  /**
   * _resolve_sample_rate: the preferred rate if it is non-zero and the device
   * accepts it; else the device's non-zero default rate if accepted
   * (`deviceDefault` None: querying it raised); else the preferred rate, or
   * the target rate when none was preferred.
   */
  function ResolveSampleRate(preferred: int, accepted: set<int>, deviceDefault: Option<int>): (rate: int)
    ensures rate != 0
    ensures rate in accepted || rate == preferred || rate == TargetRate
    ensures preferred != 0 && preferred in accepted ==> rate == preferred
    ensures rate == TargetRate && TargetRate != preferred ==> preferred == 0 || TargetRate in accepted
    ensures !(preferred != 0 && preferred in accepted)
            && deviceDefault.Some? && deviceDefault.value != 0 && deviceDefault.value in accepted
            ==> rate == deviceDefault.value
    ensures !(preferred != 0 && preferred in accepted)
            && !(deviceDefault.Some? && deviceDefault.value != 0 && deviceDefault.value in accepted)
            ==> rate == if preferred != 0 then preferred else TargetRate
  {
    if preferred != 0 && preferred in accepted then preferred
    else if deviceDefault.Some? && deviceDefault.value != 0 && deviceDefault.value in accepted then deviceDefault.value
    else if preferred != 0 then preferred
    else TargetRate
  }

  /** Choosing again with the chosen rate as the preference keeps it, whenever the device accepted it. */
  lemma ResolveSampleRateStable(preferred: int, accepted: set<int>, deviceDefault: Option<int>)
    requires ResolveSampleRate(preferred, accepted, deviceDefault) in accepted
    ensures var rate := ResolveSampleRate(preferred, accepted, deviceDefault);
            ResolveSampleRate(rate, accepted, deviceDefault) == rate
  {
  }

  /**
   * `samples / rate < 0.3` in exact arithmetic: for a positive rate this is
   * 10 * samples < 3 * rate; for a negative rate the quotient is never positive.
   */
  predicate IsShort(samples: nat, rate: int)
    requires rate != 0
  {
    if rate > 0 then 10 * samples < 3 * rate else true
  }

  /** What the capture thread's queue gives on one wait: a frame, or nothing within the timeout. */
  datatype QueueEvent = Frame(samples: seq<Sample>) | QueueEmpty

  /** The frames among the queue events, in order. */
  function FramesOf(events: seq<QueueEvent>): (frames: seq<seq<Sample>>)
    ensures |frames| <= |events|
    ensures (frames == []) <==> forall k :: 0 <= k < |events| ==> events[k] == QueueEmpty
    decreases |events|
  {
    if events == [] then []
    else (if events[0].Frame? then [events[0].samples] else []) + FramesOf(events[1..])
  }

  lemma {:induction false} FramesOfAppend(events: seq<QueueEvent>, e: QueueEvent)
    ensures FramesOf(events + [e]) == FramesOf(events) + (if e.Frame? then [e.samples] else [])
    decreases |events|
  {
    if events == [] {
      assert [] + [e] == [e];
      assert FramesOf([e]) == (if e.Frame? then [e.samples] else []) + FramesOf([]);
    } else {
      var head := if events[0].Frame? then [events[0].samples] else [];
      var last := if e.Frame? then [e.samples] else [];
      assert (events + [e])[0] == events[0] && (events + [e])[1..] == events[1..] + [e];
      assert FramesOf(events + [e]) == head + FramesOf(events[1..] + [e]);
      FramesOfAppend(events[1..], e);
      assert head + (FramesOf(events[1..]) + last) == (head + FramesOf(events[1..])) + last;
    }
  }

  /** The number of samples in the concatenated recording. */
  function SampleCount(frames: seq<seq<Sample>>): nat {
    |Concat(frames)|
  }

  /** What the recorder process is handed by its environment for one run. */
  datatype RecordEnv = RecordEnv(
    configuredInfo: Option<DeviceInfo>,
    listing: Option<seq<DeviceInfo>>,
    accepted: set<int>,
    deviceDefault: Option<int>,
    streamError: Option<string>,
    events: seq<QueueEvent>,
    tempOk: bool,
    tempPath: string,
    writeOk: bool)

  /** How record() ends: a written file, the process's own exit for an empty recording, or an exception. */
  datatype Recording = Recorded(path: string, short: bool) | NoFrames | Raised(message: string)

  /** How the recorder process ends: its exit status and what it printed on stdout. */
  datatype RecorderExit = RecorderExit(status: int, stdout: string)

  /** The recorder's options: `--device`, and `--sample-rate` (44100 when not given). */
  datatype RecorderArgs = RecorderArgs(device: Option<int>, sampleRate: int)

  /**
   * main's merge of options with the saved configuration: a given device wins;
   * the configured rate is used unless the option's rate differs from 44100.
   */
  function MergeConfig(args: RecorderArgs, configuredDevice: Option<int>, configuredRate: int): (r: (Option<int>, int))
    ensures r.0 == if args.device.Some? then args.device else configuredDevice
    ensures r.1 == if args.sampleRate != CliDefaultRate then args.sampleRate else configuredRate
  {
    (if args.device.Some? then args.device else configuredDevice,
     if args.sampleRate != CliDefaultRate then args.sampleRate else configuredRate)
  }

  /** A rate of 44100 given explicitly cannot be told from the default: the configured rate replaces it. */
  lemma ExplicitDefaultRateIsOverridden(device: Option<int>, configuredDevice: Option<int>, configuredRate: int)
    ensures MergeConfig(RecorderArgs(device, 44100), configuredDevice, configuredRate).1 == configuredRate
  {
  }

  /** The recorder: the device and rate it was started with and the frames captured so far. */
  class AudioRecorder {
    const deviceId: Option<int>
    const sampleRate: int
    var frames: seq<seq<Sample>>

    constructor (deviceId: Option<int>, sampleRate: int)
      ensures this.deviceId == deviceId && this.sampleRate == sampleRate && frames == []
    {
      this.deviceId := deviceId;
      this.sampleRate := sampleRate;
      frames := [];
    }

    /** The capture loop: until the stop event, each frame taken from the queue is appended; a timeout just waits again. */
    method Capture(events: seq<QueueEvent>)
      modifies this
      ensures frames == old(frames) + FramesOf(events)
    {
      var i := 0;
      while i < |events|
        invariant 0 <= i <= |events|
        invariant frames == old(frames) + FramesOf(events[..i])
      {
        var e := events[i];
        FramesOfAppend(events[..i], e);
        assert events[..i + 1] == events[..i] + [e];
        match e {
          case Frame(samples) =>
            frames := frames + [samples];
          case QueueEmpty =>
        }
        i := i + 1;
      }
      assert events[..|events|] == events;
    }

    /**
     * record(): opens the chosen device at the chosen rate, captures until
     * stdin closes, exits when nothing was captured, warns (only) when the
     * recording is short, and writes a fresh temporary WAV file whose path it
     * returns. A failure to open the stream, create the file or write it raises.
     */
    method Record(kernel: Kernel, env: RecordEnv) returns (r: Recording)
      requires kernel.Valid() && frames == []
      modifies this, kernel
      ensures kernel.Valid() && kernel.open == old(kernel.open)
      ensures env.streamError.Some? ==> r == Raised(env.streamError.value)
      ensures env.streamError.None? ==> frames == FramesOf(env.events)
      ensures env.streamError.None? && frames == [] ==> r == NoFrames
      ensures r.Recorded? <==> env.streamError.None? && frames != [] && env.tempOk && env.writeOk
      ensures r.Recorded? ==> r.path == env.tempPath && r.path in kernel.files
      ensures r.Recorded? ==> r.short == IsShort(SampleCount(frames), ResolveSampleRate(sampleRate, env.accepted, env.deviceDefault))
      ensures kernel.files == old(kernel.files)
                              + (if env.streamError.None? && frames != [] && env.tempOk then {env.tempPath} else {})
    {
      var device := ResolveInputDevice(deviceId, env.configuredInfo, env.listing);
      var rate := ResolveSampleRate(sampleRate, env.accepted, env.deviceDefault);
      if env.streamError.Some? {
        return Raised(env.streamError.value);
      }
      Capture(env.events);
      if frames == [] {
        return NoFrames;
      }
      var short := IsShort(SampleCount(frames), rate);
      if !env.tempOk {
        return Raised(TempFailed);
      }
      kernel.CreateFile(env.tempPath);
      if !env.writeOk {
        return Raised(WriteFailed);
      }
      return Recorded(env.tempPath, short);
    }
  }

  const TempFailed: string := "cannot create temporary file"
  const WriteFailed: string := "cannot write WAV file"

  /**
   * The recorder process: merges options and configuration, records, and on
   * success prints the path as one line; an empty recording or any exception
   * ends it with status 1 and nothing on stdout. A short recording is only
   * warned about, so shortness plays no part in the outcome.
   */
  method RecorderMain(kernel: Kernel, args: RecorderArgs, configuredDevice: Option<int>, configuredRate: int, env: RecordEnv)
    returns (exit: RecorderExit)
    requires kernel.Valid()
    modifies kernel
    ensures kernel.Valid() && kernel.open == old(kernel.open)
    ensures exit.status == 0 || exit.status == 1
    ensures exit.status == 0 <==> exit.stdout != ""
    ensures exit.status == 0 <==> env.streamError.None? && FramesOf(env.events) != [] && env.tempOk && env.writeOk
    ensures exit.status == 0 ==> exit.stdout == env.tempPath + "\n" && env.tempPath in kernel.files
  {
    var merged := MergeConfig(args, configuredDevice, configuredRate);
    var recorder := new AudioRecorder(merged.0, merged.1);
    var r := recorder.Record(kernel, env);
    match r {
      case Recorded(path, _) =>
        exit := RecorderExit(0, path + "\n");
      case NoFrames =>
        exit := RecorderExit(1, "");
      case Raised(_) =>
        exit := RecorderExit(1, "");
    }
  }
}
