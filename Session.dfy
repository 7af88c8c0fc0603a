/** The DirectMusic session of the player: the global interface pointers,
    the device lists and the external-synth flag become the fields of one
    object, and the functions of midi.cpp that fill and empty them become
    its methods. Every platform call is appended to `calls`; its result
    comes from the `Host`. */
module Session {
  import opened Com
  import opened Devices
  import opened PortSetup
  import opened Lifecycle

  /** What pPort points to: a port created on `guid` with `params`. */
  datatype PortHandle = PortHandle(guid: Guid, params: PortParams)

  class Session {
    var performance: bool     // pPerformance != NULL
    var musicObject: bool     // pDirectMusic != NULL
    var musicAlias: bool      // pDirectMusicG != NULL
    var audioObject: bool     // pDirectSound != NULL
    var audioAlias: bool      // pDirectSoundG != NULL
    var loader: bool          // pLoader != NULL
    var collection: bool      // pDLSCollection != NULL
    var segment: bool         // pSegment != NULL
    var port: Option<PortHandle>
    var primaryBuffer: bool   // pDSBuffer != NULL
    var isExternalSynth: bool
    var audioDevices: seq<AudioDevice>  // dsDeviceData
    var midiDevices: seq<string>        // midiDeviceData
    var calls: seq<Call>

    /** Whether slot `r` is non-NULL. */
    predicate Holds(r: Resource)
      reads this`performance, this`musicObject, this`musicAlias, this`audioObject, this`audioAlias
      reads this`loader, this`collection, this`segment, this`port, this`primaryBuffer
    {
      match r
      case Performance => performance
      case MusicObject => musicObject
      case MusicAlias => musicAlias
      case AudioObject => audioObject
      case AudioAlias => audioAlias
      case Loader => loader
      case Collection => collection
      case Segment => segment
      case Port => port.Some?
      case PrimaryBuffer => primaryBuffer
    }

    /** The non-NULL slots. */
    function Held(): (h: set<Resource>)
      reads this`performance, this`musicObject, this`musicAlias, this`audioObject, this`audioAlias
      reads this`loader, this`collection, this`segment, this`port, this`primaryBuffer
      ensures forall r :: r in h <==> Holds(r)
    {
      set r | r in AllResources && Holds(r)
    }

    /** The state at program start: every pointer NULL, no device listed. */
    constructor ()
      ensures Held() == {} && port == None && !isExternalSynth
      ensures audioDevices == [] && midiDevices == [] && calls == []
    {
      performance, musicObject, musicAlias, audioObject, audioAlias := false, false, false, false, false;
      loader, collection, segment, port, primaryBuffer := false, false, false, None, false;
      isExternalSynth := false;
      audioDevices, midiDevices, calls := [], [], [];
    }

    /** Write slot `r` as an acquiring call leaves it: the object when the
        call succeeded (`handle` for the port), NULL when it failed. */
    method SetSlot(r: Resource, ok: bool, handle: PortHandle)
      modifies this`performance, this`musicObject, this`musicAlias, this`audioObject, this`audioAlias,
              this`loader, this`collection, this`segment, this`port, this`primaryBuffer
      ensures Held() == if ok then old(Held()) + {r} else old(Held()) - {r}
      ensures r == Port ==> port == if ok then Some(handle) else None
      ensures r != Port ==> port == old(port)
    {
      match r {
        case Performance => performance := ok;
        case MusicObject => musicObject := ok;
        case MusicAlias => musicAlias := ok;
        case AudioObject => audioObject := ok;
        case AudioAlias => audioAlias := ok;
        case Loader => loader := ok;
        case Collection => collection := ok;
        case Segment => segment := ok;
        case Port => port := if ok then Some(handle) else None;
        case PrimaryBuffer => primaryBuffer := ok;
      }
      forall q ensures q in Held() <==> q in (if ok then old(Held()) + {r} else old(Held()) - {r}) {
        assert q in old(Held()) <==> old(Holds(q));
      }
    }

    /** Issue call `c`: log it, take its result from the host, and write the
        slot it acquires. */
    method Issue(c: Call, host: Host) returns (hr: HResult)
      modifies this
      ensures hr == Verdict(host, c)
      ensures calls == old(calls) + [c]
      ensures Held() == Effect(old(Held()), c, host)
      ensures c.CreatePort? ==> port == if Succeeds(host, c) then Some(PortHandle(c.guid, c.params)) else None
      ensures !c.CreatePort? ==> port == old(port)
      ensures isExternalSynth == old(isExternalSynth)
      ensures audioDevices == old(audioDevices) && midiDevices == old(midiDevices)
    {
      hr := Verdict(host, c);
      calls := calls + [c];
      AcquiresPort(c);
      var slot := Acquires(c);
      if slot.Some? {
        var handle := if c.CreatePort? then PortHandle(c.guid, c.params) else PortHandle(0, BuildPortParams(host.portCaps));
        SetSlot(slot.value, !Failed(hr), handle);
      }
    }

    /** The first k calls of `plan` have been issued after `base` and have
        all succeeded; the slots are those the calls left, starting from
        `h0`. */
    ghost predicate At(plan: seq<Call>, k: nat, base: seq<Call>, h0: set<Resource>, host: Host)
      reads this`calls, this`performance, this`musicObject, this`musicAlias, this`audioObject, this`audioAlias
      reads this`loader, this`collection, this`segment, this`port, this`primaryBuffer
    {
      && k <= |plan| && calls == base + plan[..k]
      && Held() == Replay(h0, plan[..k], host)
      && forall i | 0 <= i < k :: Succeeds(host, plan[i])
    }

    /** The run of `plan` after `base` has stopped after n calls, returning
        `hr`; the slots are those the calls issued left. */
    ghost predicate Halted(plan: seq<Call>, n: nat, base: seq<Call>, h0: set<Resource>, host: Host, hr: HResult)
      reads this`calls, this`performance, this`musicObject, this`musicAlias, this`audioObject, this`audioAlias
      reads this`loader, this`collection, this`segment, this`port, this`primaryBuffer
    {
      && |calls| == |base| + n && calls[..|base|] == base
      && Stopped(plan, calls[|base|..], hr, host)
      && Held() == Replay(h0, calls[|base|..], host)
    }

    /** Issue call `c` as the k-th of `plan`. */
    method Step(c: Call, host: Host, ghost plan: seq<Call>, ghost k: nat,
                ghost base: seq<Call>, ghost h0: set<Resource>) returns (hr: HResult)
      requires k < |plan| && plan[k] == c && At(plan, k, base, h0, host)
      modifies this
      ensures hr == Verdict(host, c)
      ensures Failed(hr) ==> Halted(plan, k + 1, base, h0, host, hr)
      ensures !Failed(hr) ==> At(plan, k + 1, base, h0, host)
      ensures c.CreatePort? ==> port == if Succeeds(host, c) then Some(PortHandle(c.guid, c.params)) else None
      ensures !c.CreatePort? ==> port == old(port)
      ensures isExternalSynth == old(isExternalSynth)
      ensures audioDevices == old(audioDevices) && midiDevices == old(midiDevices)
    {
      hr := Issue(c, host);
      ReplayNext(h0, plan, k, host);
      assert plan[..k + 1] == plan[..k] + [c];
      assert calls[|base|..] == plan[..k + 1];
      if Failed(hr) {
        StopAtFailure(plan, k, hr, host);
      }
    }

    /** EnumeratePorts: ask the provider for ordinals 0, 1, ... and append
        the description of every port it lists, until it reports exhaustion
        or an error; the names already appended stay. */
    method EnumeratePorts(ports: seq<PortResult>)
      modifies this`midiDevices
      ensures midiDevices == old(midiDevices) + PortNames(ports)
    {
      var dwIndex: nat := 0;
      while true
        invariant dwIndex <= OkRun(ports)
        invariant midiDevices == old(midiDevices) + PortNames(ports)[..dwIndex]
        decreases |ports| - dwIndex
      {
        var r := EnumPort(ports, dwIndex);
        if r.Ok? {
          midiDevices := midiDevices + [r.caps.description];
          dwIndex := dwIndex + 1;
        } else if r.Exhausted? {
          break;
        } else {
          break;
        }
      }
    }

    /** The opening calls of Initialise, entries k to k + 4 of `plan`. */
    method OpenSession(host: Host, ghost plan: seq<Call>, ghost k: nat,
                       ghost base: seq<Call>, ghost h0: set<Resource>) returns (hr: HResult)
      requires k + 5 <= |plan| && plan[k..k + 5] == OpenCalls && At(plan, k, base, h0, host)
      modifies this
      ensures Failed(hr) ==> k < |calls| - |base| <= k + 5 && Halted(plan, |calls| - |base|, base, h0, host, hr)
      ensures !Failed(hr) ==> At(plan, k + 5, base, h0, host)
      ensures port == old(port) && isExternalSynth == old(isExternalSynth)
      ensures audioDevices == old(audioDevices) && midiDevices == old(midiDevices)
    {
      assert plan[k] == GetConsoleWindow && plan[k + 1] == CoInitialize && plan[k + 2] == CreateLoader
        && plan[k + 3] == CreatePerformance && plan[k + 4] == CreateMusic by {
        assert plan[k..k + 5][0] == plan[k] && plan[k..k + 5][1] == plan[k + 1] && plan[k..k + 5][2] == plan[k + 2];
        assert plan[k..k + 5][3] == plan[k + 3] && plan[k..k + 5][4] == plan[k + 4];
      }
      hr := Step(GetConsoleWindow, host, plan, k, base, h0);
      if Failed(hr) { return; }
      hr := Step(CoInitialize, host, plan, k + 1, base, h0);
      if Failed(hr) { return; }
      hr := Step(CreateLoader, host, plan, k + 2, base, h0);
      if Failed(hr) { return; }
      hr := Step(CreatePerformance, host, plan, k + 3, base, h0);
      if Failed(hr) { return; }
      hr := Step(CreateMusic, host, plan, k + 4, base, h0);
    }

    /** The DirectSound calls of Initialise, entries k to k + 4 of `plan`. */
    method OpenAudio(device: DeviceId, host: Host, ghost plan: seq<Call>, ghost k: nat,
                     ghost base: seq<Call>, ghost h0: set<Resource>) returns (hr: HResult)
      requires k + 5 <= |plan| && plan[k..k + 5] == AudioCalls(device) && At(plan, k, base, h0, host)
      modifies this
      ensures Failed(hr) ==> k < |calls| - |base| <= k + 5 && Halted(plan, |calls| - |base|, base, h0, host, hr)
      ensures !Failed(hr) ==> At(plan, k + 5, base, h0, host)
      ensures port == old(port) && isExternalSynth == old(isExternalSynth)
      ensures audioDevices == old(audioDevices) && midiDevices == old(midiDevices)
    {
      var bufferFlags := DSBCAPS_PRIMARYBUFFER | DSBCAPS_CTRLVOLUME | DSBCAPS_CTRLPAN;
      assert plan[k] == CreateAudio(device) && plan[k + 1] == SetCooperativeLevel(DSSCL_PRIORITY)
        && plan[k + 2] == CreatePrimaryBuffer(bufferFlags)
        && plan[k + 3] == SetFormat(PrimaryBufferFormat()) && plan[k + 4] == SetDirectSound by {
        assert plan[k..k + 5][0] == plan[k] && plan[k..k + 5][1] == plan[k + 1] && plan[k..k + 5][2] == plan[k + 2];
        assert plan[k..k + 5][3] == plan[k + 3] && plan[k..k + 5][4] == plan[k + 4];
      }
      hr := Step(CreateAudio(device), host, plan, k, base, h0);
      if Failed(hr) { return; }
      hr := Step(SetCooperativeLevel(DSSCL_PRIORITY), host, plan, k + 1, base, h0);
      if Failed(hr) { return; }
      hr := Step(CreatePrimaryBuffer(bufferFlags), host, plan, k + 2, base, h0);
      if Failed(hr) { return; }
      hr := Step(SetFormat(PrimaryBufferFormat()), host, plan, k + 3, base, h0);
      if Failed(hr) { return; }
      hr := Step(SetDirectSound, host, plan, k + 4, base, h0);
    }

    /** The optional DLS collection and the two QueryInterface calls of
        Initialise, from entry k of `plan` on. */
    method LoadInstruments(dlsPath: string, host: Host, ghost plan: seq<Call>, ghost k: nat,
                           ghost base: seq<Call>, ghost h0: set<Resource>) returns (hr: HResult)
      requires var part := InstrumentCalls(dlsPath);
        k + |part| <= |plan| && plan[k..k + |part|] == part && At(plan, k, base, h0, host)
      modifies this
      ensures Failed(hr) ==>
        k < |calls| - |base| <= k + |InstrumentCalls(dlsPath)| && Halted(plan, |calls| - |base|, base, h0, host, hr)
      ensures !Failed(hr) ==> At(plan, k + |InstrumentCalls(dlsPath)|, base, h0, host)
      ensures port == old(port) && isExternalSynth == old(isExternalSynth)
      ensures audioDevices == old(audioDevices) && midiDevices == old(midiDevices)
    {
      ghost var part := InstrumentCalls(dlsPath);
      ghost var j := k;
      if dlsPath != DLS_FILE_NONE {
        assert plan[k] == part[0];
        hr := Step(LoadCollection(dlsPath), host, plan, k, base, h0);
        if Failed(hr) { return; }
        j := k + 1;
      }
      assert j + 2 == k + |part| && plan[j] == QueryMusic && plan[j + 1] == QuerySound by {
        assert plan[j] == part[j - k] && plan[j + 1] == part[j - k + 1];
      }
      hr := Step(QueryMusic, host, plan, j, base, h0);
      if Failed(hr) { return; }
      hr := Step(QuerySound, host, plan, j + 1, base, h0);
    }

    /** CreateMusicPort: create the port `caps` describes with parameters
        built from it, query the created port's capabilities, and record
        whether it is an external module. Its two calls are entries k and
        k + 1 of `plan`. */
    method CreateMusicPort(caps: PortCaps, host: Host, ghost plan: seq<Call>, ghost k: nat,
                           ghost base: seq<Call>, ghost h0: set<Resource>) returns (hr: HResult)
      requires k + 1 < |plan| && plan[k] == CreatePort(caps.guidPort, BuildPortParams(caps)) && plan[k + 1] == GetCaps
      requires At(plan, k, base, h0, host)
      modifies this
      ensures Failed(hr) ==> k < |calls| - |base| <= k + 2 && Halted(plan, |calls| - |base|, base, h0, host, hr)
      ensures !Failed(hr) ==> hr == S_OK && At(plan, k + 2, base, h0, host)
      ensures port == if Succeeds(host, plan[k]) then Some(PortHandle(caps.guidPort, BuildPortParams(caps))) else None
      ensures isExternalSynth ==
        if |calls| - |base| == k + 2 && Succeeds(host, GetCaps) then ExternalAfter(old(isExternalSynth), host.portCaps)
        else old(isExternalSynth)
      ensures audioDevices == old(audioDevices) && midiDevices == old(midiDevices)
    {
      var params := BuildPortParams(caps);
      hr := Step(CreatePort(caps.guidPort, params), host, plan, k, base, h0);
      if Failed(hr) { return; }
      hr := Step(GetCaps, host, plan, k + 1, base, h0);
      if Failed(hr) { return; }
      isExternalSynth := ExternalAfter(isExternalSynth, host.portCaps);
      hr := S_OK;
    }

    /** The last three calls of the explicit-port mode of Initialise:
        initialise the performance, add the port and activate it. */
    method StartPort(host: Host, ghost plan: seq<Call>, ghost k: nat,
                     ghost base: seq<Call>, ghost h0: set<Resource>) returns (hr: HResult)
      requires k + 3 <= |plan| && plan[k] == PerformanceInit && plan[k + 1] == AddPort && plan[k + 2] == Activate(true)
      requires At(plan, k, base, h0, host)
      modifies this
      ensures Failed(hr) ==> k < |calls| - |base| <= k + 3 && Halted(plan, |calls| - |base|, base, h0, host, hr)
      ensures !Failed(hr) ==> At(plan, k + 3, base, h0, host)
      ensures port == old(port) && isExternalSynth == old(isExternalSynth)
      ensures audioDevices == old(audioDevices) && midiDevices == old(midiDevices)
    {
      hr := Step(PerformanceInit, host, plan, k, base, h0);
      if Failed(hr) { return; }
      hr := Step(AddPort, host, plan, k + 1, base, h0);
      if Failed(hr) { return; }
      hr := Step(Activate(true), host, plan, k + 2, base, h0);
    }

    /** The two enumerations, entries k and k + 1 of `plan`: the
        DirectSound devices the host reports are appended to the device
        list, then EnumeratePorts appends the port names. Neither result is
        checked. */
    method Enumerate(host: Host, ghost plan: seq<Call>, ghost k: nat, ghost base: seq<Call>, ghost h0: set<Resource>)
      requires k + 2 <= |plan| && plan[k] == ListAudioDevices && plan[k + 1] == ListPorts
      requires At(plan, k, base, h0, host)
      modifies this
      ensures At(plan, k + 2, base, h0, host)
      ensures audioDevices == old(audioDevices) + host.audioDevices
      ensures midiDevices == old(midiDevices) + PortNames(host.ports)
      ensures port == old(port) && isExternalSynth == old(isExternalSynth)
    {
      var hr := Step(ListAudioDevices, host, plan, k, base, h0);
      audioDevices := audioDevices + host.audioDevices;
      hr := Step(ListPorts, host, plan, k + 1, base, h0);
      EnumeratePorts(host.ports);
    }

    /** The opening calls and the two enumerations of Initialise, entries
        0 to 6 of `plan`; the enumerations fill the device lists. */
    method Discover(host: Host, ghost plan: seq<Call>, ghost base: seq<Call>, ghost h0: set<Resource>)
      returns (hr: HResult)
      requires 7 <= |plan| && plan[..7] == OpenCalls + ListCalls && At(plan, 0, base, h0, host)
      modifies this
      ensures Failed(hr) ==> 0 < |calls| - |base| <= 5 && Halted(plan, |calls| - |base|, base, h0, host, hr)
      ensures !Failed(hr) ==> At(plan, 7, base, h0, host)
      ensures audioDevices == old(audioDevices) + (if Failed(hr) then [] else host.audioDevices)
      ensures midiDevices == old(midiDevices) + (if Failed(hr) then [] else PortNames(host.ports))
      ensures port == old(port) && isExternalSynth == old(isExternalSynth)
    {
      assert plan[0..5] == OpenCalls by {
        assert plan[0..5] == plan[..7][0..5];
      }
      assert plan[5] == plan[..7][5];
      assert plan[6] == plan[..7][6];
      hr := OpenSession(host, plan, 0, base, h0);
      if Failed(hr) { return; }
      Enumerate(host, plan, 5, base, h0);
    }

    /** The set-up part of Initialise, up to the choice of mode: entries 0
        to |SetupPlan| - 1 of `plan`, where the device is the one the index
        selects from the list after enumeration. */
    method SetUp(dsIdx: int, dlsPath: string, host: Host, ghost plan: seq<Call>,
                 ghost base: seq<Call>, ghost h0: set<Resource>) returns (hr: HResult)
      requires var setup := SetupPlan(GetDeviceGuidByIndex(audioDevices + host.audioDevices, dsIdx), dlsPath);
        |setup| <= |plan| && plan[..|setup|] == setup && At(plan, 0, base, h0, host)
      requires dsIdx >= 0 ==> dsIdx < |audioDevices| + |host.audioDevices|
      modifies this
      ensures var n := |calls| - |base|;
        Failed(hr) ==> 0 < n <= 12 + |InstrumentCalls(dlsPath)| && Halted(plan, n, base, h0, host, hr)
      ensures !Failed(hr) ==> At(plan, 12 + |InstrumentCalls(dlsPath)|, base, h0, host)
      ensures audioDevices == old(audioDevices) + (if |calls| - |base| > 5 then host.audioDevices else [])
      ensures midiDevices == old(midiDevices) + (if |calls| - |base| > 5 then PortNames(host.ports) else [])
      ensures port == old(port) && isExternalSynth == old(isExternalSynth)
    {
      ghost var device0 := GetDeviceGuidByIndex(audioDevices + host.audioDevices, dsIdx);
      ghost var instruments := InstrumentCalls(dlsPath);
      SetupParts(plan, device0, dlsPath);

      hr := Discover(host, plan, base, h0);
      if Failed(hr) { return; }
      var device := GetDeviceGuidByIndex(audioDevices, dsIdx);
      hr := OpenAudio(device, host, plan, 7, base, h0);
      if Failed(hr) { return; }
      // The device name announced here is read without a bounds check.
      assert dsIdx >= 0 ==> dsIdx < |audioDevices|;
      hr := LoadInstruments(dlsPath, host, plan, 12, base, h0);
    }

    /** The explicit-port mode of Initialise, entries k to k + 4 of
        `plan`: search the port's capabilities by ordinal, CreateMusicPort,
        then initialise the performance, add the port and activate it. */
    method OpenPort(midiIdx: int, host: Host, ghost plan: seq<Call>, ghost k: nat,
                    ghost base: seq<Call>, ghost h0: set<Resource>) returns (hr: HResult)
      requires var caps := LookupCaps(host.rescan, ToDword(midiIdx), host.uninitialisedCaps);
        |plan| == k + 5 && plan[k] == CreatePort(caps.guidPort, BuildPortParams(caps)) && plan[k + 1] == GetCaps
        && plan[k + 2] == PerformanceInit && plan[k + 3] == AddPort && plan[k + 4] == Activate(true)
      requires At(plan, k, base, h0, host)
      requires 0 <= midiIdx < |midiDevices|
      modifies this
      ensures |calls| > |base| + k && Halted(plan, |calls| - |base|, base, h0, host, hr)
      ensures var caps := LookupCaps(host.rescan, ToDword(midiIdx), host.uninitialisedCaps);
        port == if Succeeds(host, CreatePort(caps.guidPort, BuildPortParams(caps)))
                then Some(PortHandle(caps.guidPort, BuildPortParams(caps))) else None
      ensures isExternalSynth ==
        if |calls| - |base| > k + 1 && Succeeds(host, GetCaps)
        then ExternalAfter(old(isExternalSynth), host.portCaps)
        else old(isExternalSynth)
      ensures audioDevices == old(audioDevices) && midiDevices == old(midiDevices)
    {
      var caps, _ := GetPortCapsByIndex(host.rescan, midiIdx, host.uninitialisedCaps);
      // The port name announced here is read without a bounds check.
      assert midiIdx < |midiDevices|;
      hr := CreateMusicPort(caps, host, plan, k, base, h0);
      if Failed(hr) { return; }
      hr := StartPort(host, plan, k + 2, base, h0);
      if Failed(hr) { return; }
      assert plan[..|plan|] == plan;
      StopAtEnd(plan, host);
      hr := S_OK;
    }

    /** The mode part of Initialise, entries k on of `plan`: the default
        audio path for a negative MIDI index, an explicit port otherwise. */
    method ChooseMode(midiIdx: int, host: Host, ghost plan: seq<Call>, ghost k: nat,
                      ghost base: seq<Call>, ghost h0: set<Resource>) returns (hr: HResult)
      requires var caps := LookupCaps(host.rescan, ToDword(midiIdx), host.uninitialisedCaps);
        k <= |plan| && plan == plan[..k] + ModePlan(midiIdx, caps) && At(plan, k, base, h0, host)
      requires midiIdx >= 0 ==> midiIdx < |midiDevices|
      modifies this
      ensures |calls| > |base| + k && Halted(plan, |calls| - |base|, base, h0, host, hr)
      ensures var caps := LookupCaps(host.rescan, ToDword(midiIdx), host.uninitialisedCaps);
        port == if midiIdx < 0 then old(port)
                else if Succeeds(host, CreatePort(caps.guidPort, BuildPortParams(caps)))
                then Some(PortHandle(caps.guidPort, BuildPortParams(caps))) else None
      ensures isExternalSynth ==
        if midiIdx >= 0 && |calls| - |base| > k + 1 && Succeeds(host, GetCaps)
        then ExternalAfter(old(isExternalSynth), host.portCaps)
        else old(isExternalSynth)
      ensures audioDevices == old(audioDevices) && midiDevices == old(midiDevices)
    {
      if midiIdx < 0 {
        assert |plan| == k + 1 && plan[k] == InitAudio(APATH_SHARED_STEREOPLUSREVERB, 16);
        hr := Step(InitAudio(APATH_SHARED_STEREOPLUSREVERB, 16), host, plan, k, base, h0);
        if Failed(hr) { return; }
        assert plan[..|plan|] == plan;
        StopAtEnd(plan, host);
        hr := S_OK;
      } else {
        ghost var caps := LookupCaps(host.rescan, ToDword(midiIdx), host.uninitialisedCaps);
        assert |plan| == k + 5 && plan[k] == CreatePort(caps.guidPort, BuildPortParams(caps)) && plan[k + 1] == GetCaps
          && plan[k + 2] == PerformanceInit && plan[k + 3] == AddPort && plan[k + 4] == Activate(true);
        hr := OpenPort(midiIdx, host, plan, k, base, h0);
      }
    }

    /** Initialise: the steps of the session set-up in source order, stopping
        at the first failing one; a negative MIDI index selects the default
        audio path, any other index an explicit port. The two requires are
        the unchecked name lookups of the source (the device list at
        midi.cpp:363, the port list at midi.cpp:430). */
    method Initialise(dsIdx: int, midiIdx: int, dlsPath: string, host: Host) returns (hr: HResult)
      requires dsIdx >= 0 ==> dsIdx < |audioDevices| + |host.audioDevices|
      requires midiIdx >= 0 ==> midiIdx < |midiDevices| + |PortNames(host.ports)|
      modifies this
      ensures |old(calls)| <= |calls| && calls[..|old(calls)|] == old(calls)
      ensures var ran := calls[|old(calls)|..];
        var plan := InitPlan(dsIdx, midiIdx, dlsPath, old(audioDevices) + host.audioDevices,
                             LookupCaps(host.rescan, ToDword(midiIdx), host.uninitialisedCaps));
        Stopped(plan, ran, hr, host) && Held() == Replay(old(Held()), ran, host)
      ensures audioDevices == old(audioDevices) + (if |calls| - |old(calls)| > 5 then host.audioDevices else [])
      ensures midiDevices == old(midiDevices) + (if |calls| - |old(calls)| > 5 then PortNames(host.ports) else [])
      ensures var setup := SetupPlan(GetDeviceGuidByIndex(old(audioDevices) + host.audioDevices, dsIdx), dlsPath);
        isExternalSynth ==
          if midiIdx >= 0 && |calls| - |old(calls)| > |setup| + 1 && Succeeds(host, GetCaps)
          then ExternalAfter(old(isExternalSynth), host.portCaps)
          else old(isExternalSynth)
      ensures var setup := SetupPlan(GetDeviceGuidByIndex(old(audioDevices) + host.audioDevices, dsIdx), dlsPath);
        var caps := LookupCaps(host.rescan, ToDword(midiIdx), host.uninitialisedCaps);
        port == if midiIdx < 0 || |calls| - |old(calls)| <= |setup| then old(port)
                else if Succeeds(host, CreatePort(caps.guidPort, BuildPortParams(caps)))
                then Some(PortHandle(caps.guidPort, BuildPortParams(caps))) else None
    {
      ghost var base := calls;
      ghost var h0 := Held();
      ghost var caps0 := LookupCaps(host.rescan, ToDword(midiIdx), host.uninitialisedCaps);
      ghost var setup := SetupPlan(GetDeviceGuidByIndex(audioDevices + host.audioDevices, dsIdx), dlsPath);
      ghost var plan := InitPlan(dsIdx, midiIdx, dlsPath, audioDevices + host.audioDevices, caps0);
      assert plan[..|setup|] == setup;
      assert plan[..0] == [];

      hr := SetUp(dsIdx, dlsPath, host, plan, base, h0);
      if Failed(hr) { return; }
      assert |setup| == 12 + |InstrumentCalls(dlsPath)|;
      assert plan == plan[..|setup|] + ModePlan(midiIdx, caps0);
      hr := ChooseMode(midiIdx, host, plan, |setup|, base, h0);
    }

    /** The three opening calls of ListDevices, entries 0 to 2 of its plan. */
    method OpenListing(host: Host, ghost plan: seq<Call>, ghost base: seq<Call>, ghost h0: set<Resource>)
      returns (hr: HResult)
      requires plan == ListPlan() && At(plan, 0, base, h0, host)
      modifies this
      ensures Failed(hr) ==> 0 < |calls| - |base| <= 3 && Halted(plan, |calls| - |base|, base, h0, host, hr)
      ensures !Failed(hr) ==> At(plan, 3, base, h0, host)
      ensures port == old(port) && isExternalSynth == old(isExternalSynth)
      ensures audioDevices == old(audioDevices) && midiDevices == old(midiDevices)
    {
      hr := Step(CoInitialize, host, plan, 0, base, h0);
      if Failed(hr) { return; }
      hr := Step(CreatePerformance, host, plan, 1, base, h0);
      if Failed(hr) { return; }
      hr := Step(CreateMusic, host, plan, 2, base, h0);
    }

    /** ListDevices: COM, the performance and DirectMusic objects, then the
        two enumerations; stops at the first failing call. */
    method ListDevices(host: Host) returns (hr: HResult)
      modifies this
      ensures |old(calls)| <= |calls| && calls[..|old(calls)|] == old(calls)
      ensures var ran := calls[|old(calls)|..];
        Stopped(ListPlan(), ran, hr, host) && Held() == Replay(old(Held()), ran, host)
      ensures audioDevices == old(audioDevices) + (if |calls| - |old(calls)| > 3 then host.audioDevices else [])
      ensures midiDevices == old(midiDevices) + (if |calls| - |old(calls)| > 3 then PortNames(host.ports) else [])
      ensures port == old(port) && isExternalSynth == old(isExternalSynth)
    {
      ghost var base := calls;
      ghost var h0 := Held();
      ghost var plan := ListPlan();
      assert plan[..0] == [];
      hr := OpenListing(host, plan, base, h0);
      if Failed(hr) { return; }
      Enumerate(host, plan, 3, base, h0);
      assert plan[..|plan|] == plan;
      StopAtEnd(plan, host);
      hr := S_OK;
    }

    /** The load and download calls of PlayMidi, entries 0 and 1 of its
        plan; after both succeeded the segment is held as well. */
    method FetchSegment(path: string, host: Host, ghost plan: seq<Call>, ghost base: seq<Call>, ghost h0: set<Resource>)
      returns (hr: HResult)
      requires 2 <= |plan| && plan[0] == LoadSegment(path) && plan[1] == Download && At(plan, 0, base, h0, host)
      modifies this
      ensures Failed(hr) ==> 0 < |calls| - |base| <= 2 && Halted(plan, |calls| - |base|, base, h0, host, hr)
      ensures !Failed(hr) ==> At(plan, 2, base, h0, host) && Held() == h0 + {Segment}
      ensures port == old(port) && isExternalSynth == old(isExternalSynth)
      ensures audioDevices == old(audioDevices) && midiDevices == old(midiDevices)
    {
      hr := Step(LoadSegment(path), host, plan, 0, base, h0);
      if Failed(hr) { return; }
      hr := Step(Download, host, plan, 1, base, h0);
      if Failed(hr) { return; }
      assert plan[..2] == [LoadSegment(path), Download];
      ReplayTwo(h0, LoadSegment(path), Download, host);
    }

    /** The non-external branch of PlayMidi: load the file as a segment,
        download its instruments, and play the segment after the prepare
        time when a performance exists. */
    method LoadAndPlay(path: string, host: Host) returns (hr: HResult)
      requires loader
      modifies this
      ensures |old(calls)| <= |calls| && calls[..|old(calls)|] == old(calls)
      ensures var ran := calls[|old(calls)|..];
        Stopped(PlayPlan(path, old(performance)), ran, hr, host) && Held() == Replay(old(Held()), ran, host)
      ensures port == old(port) && isExternalSynth == old(isExternalSynth)
      ensures audioDevices == old(audioDevices) && midiDevices == old(midiDevices)
    {
      ghost var base := calls;
      ghost var h0 := Held();
      ghost var plan := PlayPlan(path, performance);
      assert plan[..0] == [];
      hr := FetchSegment(path, host, plan, base, h0);
      if Failed(hr) { return; }
      assert Holds(Performance) == (Performance in h0) && Holds(Segment);
      if performance && segment {
        hr := Step(PlaySegment(SEGF_AFTERPREPARETIME), host, plan, 2, base, h0);
        if Failed(hr) { return; }
      }
      assert plan[..|plan|] == plan;
      StopAtEnd(plan, host);
      hr := S_OK;
    }

    /** PlayMidi: an external port is refused with E_FAIL before anything
        is loaded; otherwise the file is played. The loader is dereferenced
        unconditionally on that path, so it must exist. */
    method PlayMidi(path: string, external: bool, host: Host) returns (hr: HResult)
      requires !external ==> loader
      modifies this
      ensures external ==> hr == E_FAIL && calls == old(calls) && Held() == old(Held())
      ensures !external ==>
        |old(calls)| <= |calls| && calls[..|old(calls)|] == old(calls) &&
        var ran := calls[|old(calls)|..];
        Stopped(PlayPlan(path, old(performance)), ran, hr, host) && Held() == Replay(old(Held()), ran, host)
      ensures port == old(port) && isExternalSynth == old(isExternalSynth)
      ensures audioDevices == old(audioDevices) && midiDevices == old(midiDevices)
    {
      if external {
        return E_FAIL;
      }
      hr := LoadAndPlay(path, host);
    }

    /** The first i blocks of ShutdownDirectMusic have run, starting from
        log `c0` and slots `h0`. */
    ghost predicate TornDown(i: nat, c0: seq<Call>, h0: set<Resource>)
      requires i <= |TeardownOrder|
      reads this`calls, this`performance, this`musicObject, this`musicAlias, this`audioObject, this`audioAlias
      reads this`loader, this`collection, this`segment, this`port, this`primaryBuffer
    {
      calls == c0 + TeardownSteps(TeardownOrder[..i], h0) && Held() == h0 - Released(i)
    }

    /** Block i of ShutdownDirectMusic, for slot `r`: when the slot is
        non-NULL, unload the segment from the performance (for the segment)
        or close the performance down (for the performance), release the
        object, and set the slot to NULL. `c0` and `h0` are the log and the
        slots before the first block. */
    method ReleaseSlot(r: Resource, ghost i: nat, ghost c0: seq<Call>, ghost h0: set<Resource>)
      requires i < |TeardownOrder| && r == TeardownOrder[i]
      requires TornDown(i, c0, h0)
      modifies this`calls, this`performance, this`musicObject, this`musicAlias, this`audioObject, this`audioAlias,
              this`loader, this`collection, this`segment, this`port, this`primaryBuffer
      ensures TornDown(i + 1, c0, h0)
      ensures r == Port ==> port == None
      ensures r != Port ==> port == old(port)
    {
      ReleasedNext(i);
      TeardownAdvance(h0, i);
      assert Holds(r) <==> r in h0;
      LogRelease(r, h0);
      assert calls == c0 + TeardownSteps(TeardownOrder[..i + 1], h0);
      // Setting an already NULL slot to NULL changes nothing, so the guard
      // on the slot matters only for the calls.
      SetSlot(r, false, PortHandle(0, BuildPortParams(PortCaps(0, 0, 0, 0, 0, 0, ""))));
      assert Held() == h0 - Released(i + 1);
    }

    /** The calls of one teardown block: none for a NULL slot; Unload before
        releasing the segment, CloseDown before releasing the performance. */
    method LogRelease(r: Resource, ghost h0: set<Resource>)
      requires Holds(r) <==> r in h0
      modifies this`calls
      ensures calls == old(calls) + TeardownStep(r, h0)
    {
      if Holds(r) {
        if r == Segment {
          calls := calls + [Unload];
        } else if r == Performance {
          calls := calls + [CloseDown];
        }
        calls := calls + [Release(r)];
      }
    }

    /** CoUninitialize: logged; no slot changes. */
    method Uninitialise()
      modifies this`calls
      ensures calls == old(calls) + [CoUninitialize]
      ensures Held() == old(Held())
    {
      calls := calls + [CoUninitialize];
    }

    /** The first four blocks of ShutdownDirectMusic: segment, primary
        buffer, port, collection. */
    method ReleaseMedia(ghost c0: seq<Call>, ghost h0: set<Resource>)
      requires TornDown(0, c0, h0)
      modifies this`calls, this`performance, this`musicObject, this`musicAlias, this`audioObject, this`audioAlias,
              this`loader, this`collection, this`segment, this`port, this`primaryBuffer
      ensures TornDown(4, c0, h0) && port == None
    {
      ReleaseSlot(Segment, 0, c0, h0);
      ReleaseSlot(PrimaryBuffer, 1, c0, h0);
      ReleaseSlot(Port, 2, c0, h0);
      ReleaseSlot(Collection, 3, c0, h0);
    }

    /** The last four blocks of ShutdownDirectMusic: loader, DirectSound
        object, DirectMusic object, performance. */
    method ReleaseObjects(ghost c0: seq<Call>, ghost h0: set<Resource>)
      requires TornDown(4, c0, h0)
      modifies this`calls, this`performance, this`musicObject, this`musicAlias, this`audioObject, this`audioAlias,
              this`loader, this`collection, this`segment, this`port, this`primaryBuffer
      ensures TornDown(8, c0, h0) && port == old(port)
    {
      ReleaseSlot(Loader, 4, c0, h0);
      ReleaseSlot(AudioObject, 5, c0, h0);
      ReleaseSlot(MusicObject, 6, c0, h0);
      ReleaseSlot(Performance, 7, c0, h0);
    }

    /** ShutdownDirectMusic: the blocks in source order, then COM is
        uninitialised. */
    method ShutdownDirectMusic()
      modifies this`calls, this`performance, this`musicObject, this`musicAlias, this`audioObject, this`audioAlias,
              this`loader, this`collection, this`segment, this`port, this`primaryBuffer
      ensures calls == old(calls) + TeardownCalls(old(Held()))
      ensures Held() == old(Held()) * Unreleased
      ensures port == None
    {
      ghost var h0 := Held();
      ghost var c0 := calls;
      ReleasedAll();
      assert TeardownOrder[..0] == [];
      assert TornDown(0, c0, h0);
      ReleaseMedia(c0, h0);
      ReleaseObjects(c0, h0);
      TeardownComplete(c0, h0);
      Uninitialise();
    }
  }
}
