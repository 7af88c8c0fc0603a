/** The calls the player makes into COM, DirectSound and DirectMusic, the
    host that answers them, the order in which the player issues them, and
    the short-circuit rule it follows: run the planned calls in order and
    stop at the first one that fails. */
module Lifecycle {
  import opened Com
  import opened Devices
  import opened PortSetup

  /** The interface slots of the player (the global pointers). */
  datatype Resource =
    | Performance    // pPerformance
    | MusicObject    // pDirectMusic
    | MusicAlias     // pDirectMusicG, obtained by QueryInterface
    | AudioObject    // pDirectSound
    | AudioAlias     // pDirectSoundG, obtained by QueryInterface
    | Loader         // pLoader
    | Collection     // pDLSCollection
    | Segment        // pSegment
    | Port           // pPort
    | PrimaryBuffer  // pDSBuffer

  const AllResources: set<Resource> :=
    {Performance, MusicObject, MusicAlias, AudioObject, AudioAlias, Loader, Collection, Segment, Port, PrimaryBuffer}

  /** One call into the platform, with the arguments the player computes. */
  datatype Call =
    | GetConsoleWindow
    | CoInitialize
    | CreateLoader
    | CreatePerformance
    | CreateMusic
    | ListAudioDevices
    | ListPorts
    | CreateAudio(device: DeviceId)
    | SetCooperativeLevel(level: int)
    | CreatePrimaryBuffer(flags: bv32)
    | SetFormat(format: WaveFormat)
    | SetDirectSound
    | LoadCollection(path: string)
    | QueryMusic
    | QuerySound
    | InitAudio(pathType: int, channelCount: nat)
    | CreatePort(guid: Guid, params: PortParams)
    | GetCaps
    | PerformanceInit
    | AddPort
    | Activate(enable: bool)
    | LoadSegment(path: string)
    | Download
    | PlaySegment(flags: bv32)
    | Unload
    | Release(what: Resource)
    | CloseDown
    | CoUninitialize

  /** Everything the platform decides: whether a console window exists,
      the HRESULT of every call, the devices the DirectSound enumeration
      reports, the answers of the port enumeration (once for listing, once
      for the re-scan by ordinal), the indeterminate contents of the
      uninitialised capability record, and what IDirectMusicPort8::GetCaps
      reports for the created port. */
  datatype Host = Host(
    console: bool,
    answer: Call -> HResult,
    audioDevices: seq<AudioDevice>,
    ports: seq<PortResult>,
    rescan: seq<PortResult>,
    uninitialisedCaps: PortCaps,
    portCaps: PortCaps)

  /** The result the player acts on for a call. A missing console window
      reads as E_FAIL; the result of the DirectSound enumeration is ignored
      and the port enumeration returns nothing, so both count as success. */
  function Verdict(host: Host, c: Call): (hr: HResult)
    ensures c == GetConsoleWindow ==> (Failed(hr) <==> !host.console)
    ensures c == GetConsoleWindow && !host.console ==> hr == E_FAIL
    ensures c == ListAudioDevices || c == ListPorts ==> !Failed(hr)
  {
    match c
    case GetConsoleWindow => if host.console then S_OK else E_FAIL
    case ListAudioDevices => S_OK
    case ListPorts => S_OK
    case _ => host.answer(c)
  }

  predicate Succeeds(host: Host, c: Call)
  {
    !Failed(Verdict(host, c))
  }

  /** The slot an acquiring call writes: the object on success, NULL on
      failure (the COM out-pointer convention). */
  function Acquires(c: Call): (slot: Option<Resource>)
  {
    match c
    case CreateLoader => Some(Loader)
    case CreatePerformance => Some(Performance)
    case CreateMusic => Some(MusicObject)
    case CreateAudio(_) => Some(AudioObject)
    case CreatePrimaryBuffer(_) => Some(PrimaryBuffer)
    case LoadCollection(_) => Some(Collection)
    case QueryMusic => Some(MusicAlias)
    case QuerySound => Some(AudioAlias)
    case CreatePort(_, _) => Some(Port)
    case LoadSegment(_) => Some(Segment)
    case _ => None
  }

  /** Only CreatePort writes the port slot. */
  lemma AcquiresPort(c: Call)
    ensures Acquires(c) == Some(Port) <==> c.CreatePort?
  {
  }

  /** The held slots after one call of an initialisation or playback run. */
  function Effect(held: set<Resource>, c: Call, host: Host): (after: set<Resource>)
    ensures Acquires(c).None? ==> after == held
    ensures Acquires(c).Some? && Succeeds(host, c) ==> after == held + {Acquires(c).value}
    ensures Acquires(c).Some? && !Succeeds(host, c) ==> after == held - {Acquires(c).value}
  {
    match Acquires(c)
    case None => held
    case Some(r) => if Succeeds(host, c) then held + {r} else held - {r}
  }

  /** The held slots after a sequence of calls. */
  function Replay(held: set<Resource>, cs: seq<Call>, host: Host): (after: set<Resource>)
  {
    if cs == [] then held
    else Effect(Replay(held, cs[..|cs| - 1], host), cs[|cs| - 1], host)
  }

  /** Replaying one more call of a plan applies its effect. */
  lemma ReplayNext(held: set<Resource>, plan: seq<Call>, k: nat, host: Host)
    requires k < |plan|
    ensures Replay(held, plan[..k + 1], host) == Effect(Replay(held, plan[..k], host), plan[k], host)
  {
    assert plan[..k + 1][..k] == plan[..k];
  }

  /** Replaying two calls applies their effects in order. */
  lemma ReplayTwo(held: set<Resource>, a: Call, b: Call, host: Host)
    ensures Replay(held, [a, b], host) == Effect(Effect(held, a, host), b, host)
  {
    assert [a][..0] == [];
    assert Replay(held, [a], host) == Effect(held, a, host);
    assert [a, b][..1] == [a];
  }

  /** The slots a sequence of calls acquires. */
  function Kinds(cs: seq<Call>): (kinds: set<Resource>)
  {
    set c | c in cs && Acquires(c).Some? :: Acquires(c).value
  }

  predicate AllSucceed(host: Host, cs: seq<Call>)
  {
    forall i | 0 <= i < |cs| :: Succeeds(host, cs[i])
  }

  /** A run in which every call succeeds adds exactly the slots its calls
      acquire and removes none. */
  lemma {:induction false} ReplaySucceeded(held: set<Resource>, cs: seq<Call>, host: Host)
    requires AllSucceed(host, cs)
    ensures Replay(held, cs, host) == held + Kinds(cs)
    decreases |cs|
  {
    if cs != [] {
      var init := cs[..|cs| - 1];
      var last := cs[|cs| - 1];
      assert AllSucceed(host, init) by {
        forall i | 0 <= i < |init| ensures Succeeds(host, init[i]) {
          assert init[i] == cs[i];
        }
      }
      ReplaySucceeded(held, init, host);
      assert cs == init + [last];
      assert Kinds(cs) == Kinds(init) + (if Acquires(last).Some? then {Acquires(last).value} else {}) by {
        forall r ensures r in Kinds(cs) <==> r in Kinds(init) + (if Acquires(last).Some? then {Acquires(last).value} else {}) {
          if r in Kinds(cs) {
            var c :| c in cs && Acquires(c).Some? && Acquires(c).value == r;
            if c != last {
              assert c in init;
            }
          }
        }
      }
    }
  }

  /** `ran` is what the player executes of `plan` and `hr` what it returns:
      a prefix of the plan in which every call but the last succeeded; the
      whole plan ending in S_OK when every call succeeded, and otherwise the
      failing result of the last call executed. */
  predicate Stopped(plan: seq<Call>, ran: seq<Call>, hr: HResult, host: Host)
  {
    && |ran| <= |plan| && ran == plan[..|ran|]
    && (forall i | 0 <= i < |ran| - 1 :: Succeeds(host, ran[i]))
    && if ran == plan && (ran == [] || Succeeds(host, ran[|ran| - 1])) then hr == S_OK
       else |ran| > 0 && Failed(hr) && hr == Verdict(host, ran[|ran| - 1])
  }

  /** A run that fails at call k of its plan, all calls before it having
      succeeded, is stopped there. */
  lemma StopAtFailure(plan: seq<Call>, k: nat, hr: HResult, host: Host)
    requires k < |plan| && forall i | 0 <= i < k :: Succeeds(host, plan[i])
    requires !Succeeds(host, plan[k]) && hr == Verdict(host, plan[k])
    ensures Stopped(plan, plan[..k + 1], hr, host)
  {
    assert plan[..k + 1][k] == plan[k];
  }

  /** A run in which every call of its plan succeeds is stopped at the end
      with S_OK. */
  lemma StopAtEnd(plan: seq<Call>, host: Host)
    requires forall i | 0 <= i < |plan| :: Succeeds(host, plan[i])
    ensures Stopped(plan, plan, S_OK, host)
  {
    assert plan[..|plan|] == plan;
  }

  datatype Outcome = Outcome(ran: seq<Call>, hr: HResult)

  /** Reference definition of the short-circuit rule, one call at a time. */
  function Run(plan: seq<Call>, host: Host): (outcome: Outcome)
    decreases |plan|
  {
    if plan == [] then Outcome([], S_OK)
    else if !Succeeds(host, plan[0]) then Outcome([plan[0]], Verdict(host, plan[0]))
    else
      var rest := Run(plan[1..], host);
      Outcome([plan[0]] + rest.ran, rest.hr)
  }

  /** The first step of a stopped run that succeeded leaves a stopped run of
      the rest of the plan, and conversely. */
  lemma StoppedStep(plan: seq<Call>, ran: seq<Call>, hr: HResult, host: Host)
    requires plan != [] && Succeeds(host, plan[0])
    ensures Stopped(plan, ran, hr, host) <==>
      (ran != [] && ran[0] == plan[0] && Stopped(plan[1..], ran[1..], hr, host))
  {
    if Stopped(plan, ran, hr, host) {
      assert ran != [];
      assert ran[1..] == plan[1..][..|ran| - 1];
      forall i | 0 <= i < |ran[1..]| - 1 ensures Succeeds(host, ran[1..][i]) {
        assert ran[1..][i] == ran[i + 1];
      }
      if ran[1..] == plan[1..] && (ran[1..] == [] || Succeeds(host, ran[1..][|ran[1..]| - 1])) {
        assert ran == plan;
      }
    }
    if ran != [] && ran[0] == plan[0] && Stopped(plan[1..], ran[1..], hr, host) {
      assert ran == [plan[0]] + ran[1..];
      assert ran == plan[..|ran|];
      forall i | 0 <= i < |ran| - 1 ensures Succeeds(host, ran[i]) {
        if i > 0 { assert ran[i] == ran[1..][i - 1]; }
      }
      if ran == plan && (ran == [] || Succeeds(host, ran[|ran| - 1])) {
        assert ran[1..] == plan[1..];
      }
    }
  }

  /** The short-circuit predicate and the step-by-step reference agree:
      a run is stopped exactly when it is the reference outcome. */
  lemma {:induction false} StoppedIsRun(plan: seq<Call>, ran: seq<Call>, hr: HResult, host: Host)
    ensures Stopped(plan, ran, hr, host) <==> Run(plan, host) == Outcome(ran, hr)
    decreases |plan|
  {
    if plan == [] {
    } else if !Succeeds(host, plan[0]) {
      if Stopped(plan, ran, hr, host) {
        assert ran != [];
        assert ran[0] == plan[0];
        assert |ran| == 1;
      }
      if Run(plan, host) == Outcome(ran, hr) {
        assert ran == plan[..1];
      }
    } else {
      StoppedStep(plan, ran, hr, host);
      if ran != [] {
        StoppedIsRun(plan[1..], ran[1..], hr, host);
        assert ran == [ran[0]] + ran[1..];
      }
    }
  }

  /** The outcome of a plan is determined by the plan and the host. */
  lemma StoppedDeterministic(plan: seq<Call>, ran1: seq<Call>, hr1: HResult,
                             ran2: seq<Call>, hr2: HResult, host: Host)
    requires Stopped(plan, ran1, hr1, host) && Stopped(plan, ran2, hr2, host)
    ensures ran1 == ran2 && hr1 == hr2
  {
    StoppedIsRun(plan, ran1, hr1, host);
    StoppedIsRun(plan, ran2, hr2, host);
  }

  /** A call runs only if every call before it in the plan succeeded, and a
      failing run executes nothing after its failing call. */
  lemma StoppedPrefixSucceeded(plan: seq<Call>, ran: seq<Call>, hr: HResult, host: Host, i: nat)
    requires Stopped(plan, ran, hr, host) && i < |ran|
    ensures forall j | 0 <= j < i :: Succeeds(host, plan[j])
    ensures Failed(hr) ==> hr == Verdict(host, plan[|ran| - 1]) && !Succeeds(host, plan[|ran| - 1])
    ensures !Failed(hr) ==> ran == plan && AllSucceed(host, plan)
  {
    forall j | 0 <= j < i ensures Succeeds(host, plan[j]) {
      assert plan[j] == ran[j];
    }
    assert ran[|ran| - 1] == plan[|ran| - 1];
  }

  // ---------------------------------------------------------------- plans

  /** The sentinel DLS path that disables loading a collection. */
  const DLS_FILE_NONE: string := "-"

  /** The first calls of Initialise: the console window, COM, and the
      loader, performance and DirectMusic objects. */
  const OpenCalls: seq<Call> := [GetConsoleWindow, CoInitialize, CreateLoader, CreatePerformance, CreateMusic]

  /** The two enumerations, whose results Initialise does not check. */
  const ListCalls: seq<Call> := [ListAudioDevices, ListPorts]

  /** The DirectSound part: the device object, its cooperative level, the
      primary buffer and its format, and the binding to DirectMusic. */
  function AudioCalls(device: DeviceId): (cs: seq<Call>)
  {
    [CreateAudio(device), SetCooperativeLevel(DSSCL_PRIORITY),
     CreatePrimaryBuffer(DSBCAPS_PRIMARYBUFFER | DSBCAPS_CTRLVOLUME | DSBCAPS_CTRLPAN),
     SetFormat(PrimaryBufferFormat()), SetDirectSound]
  }

  /** The optional DLS collection and the two QueryInterface calls. */
  function InstrumentCalls(dlsPath: string): (cs: seq<Call>)
  {
    (if dlsPath != DLS_FILE_NONE then [LoadCollection(dlsPath)] else []) + [QueryMusic, QuerySound]
  }

  /** The calls of Initialise up to the mode choice. */
  function SetupPlan(device: DeviceId, dlsPath: string): (plan: seq<Call>)
  {
    OpenCalls + ListCalls + AudioCalls(device) + InstrumentCalls(dlsPath)
  }

  /** The parts of a plan that starts with the set-up calls. */
  lemma SetupParts(plan: seq<Call>, device: DeviceId, dlsPath: string)
    requires var setup := SetupPlan(device, dlsPath); |setup| <= |plan| && plan[..|setup|] == setup
    ensures |SetupPlan(device, dlsPath)| == 12 + |InstrumentCalls(dlsPath)|
    ensures 7 <= |plan| && plan[..7] == OpenCalls + ListCalls
    ensures 12 <= |plan| && plan[7..12] == AudioCalls(device)
    ensures var part := InstrumentCalls(dlsPath); 12 + |part| <= |plan| && plan[12..12 + |part|] == part
  {
    var setup := SetupPlan(device, dlsPath);
    assert setup == OpenCalls + ListCalls + AudioCalls(device) + InstrumentCalls(dlsPath);
    assert plan[..7] == setup[..7];
    assert plan[7..12] == setup[7..12];
    assert plan[12..|setup|] == setup[12..];
  }

  /** The calls of the chosen performance mode: the default audio path for
      a negative MIDI index, an explicit port otherwise. */
  function ModePlan(midiIdx: int, caps: PortCaps): (plan: seq<Call>)
  {
    if midiIdx < 0 then [InitAudio(APATH_SHARED_STEREOPLUSREVERB, 16)]
    else [CreatePort(caps.guidPort, BuildPortParams(caps)), GetCaps, PerformanceInit, AddPort, Activate(true)]
  }

  /** Everything Initialise calls, in order, when nothing fails. `devices`
      is the device list after enumeration; `caps` is what the ordinal
      search returned. */
  function InitPlan(dsIdx: int, midiIdx: int, dlsPath: string,
                    devices: seq<AudioDevice>, caps: PortCaps): (plan: seq<Call>)
  {
    SetupPlan(GetDeviceGuidByIndex(devices, dsIdx), dlsPath) + ModePlan(midiIdx, caps)
  }

  /** A negative MIDI index initialises the performance once through
      InitAudio on the shared stereo-plus-reverb path with 16 channels, and
      no port is created, added or activated. */
  lemma DefaultPathMode(dsIdx: int, midiIdx: int, dlsPath: string, devices: seq<AudioDevice>, caps: PortCaps)
    requires midiIdx < 0
    ensures var plan := InitPlan(dsIdx, midiIdx, dlsPath, devices, caps);
      plan[|plan| - 1] == InitAudio(APATH_SHARED_STEREOPLUSREVERB, 16) &&
      forall c | c in plan :: !c.CreatePort? && !c.AddPort? && !c.Activate? && !c.PerformanceInit?
  {
  }

  /** A non-negative MIDI index ends Initialise with CreatePort (on the
      searched port's GUID, with parameters built from its capabilities),
      then GetCaps, Init, AddPort and Activate, in that order; InitAudio is
      never called. */
  lemma ExplicitPortMode(dsIdx: int, midiIdx: int, dlsPath: string, devices: seq<AudioDevice>, caps: PortCaps)
    requires midiIdx >= 0
    ensures var plan := InitPlan(dsIdx, midiIdx, dlsPath, devices, caps);
      |plan| >= 5 &&
      plan[|plan| - 5..] == [CreatePort(caps.guidPort, BuildPortParams(caps)), GetCaps, PerformanceInit, AddPort, Activate(true)] &&
      forall c | c in plan :: !c.InitAudio?
  {
  }

  /** The primary-buffer format is set, and the audio object bound to the
      music object, before any call that initialises the performance. */
  lemma FormatBeforePerformance(dsIdx: int, midiIdx: int, dlsPath: string, devices: seq<AudioDevice>,
                                caps: PortCaps, i: nat)
    requires var plan := InitPlan(dsIdx, midiIdx, dlsPath, devices, caps);
      i < |plan| && (plan[i].InitAudio? || plan[i].PerformanceInit?)
    ensures var plan := InitPlan(dsIdx, midiIdx, dlsPath, devices, caps);
      plan[10] == SetFormat(PrimaryBufferFormat()) && plan[11] == SetDirectSound && 11 < i
  {
    var setup := SetupPlan(GetDeviceGuidByIndex(devices, dsIdx), dlsPath);
    var plan := InitPlan(dsIdx, midiIdx, dlsPath, devices, caps);
    if i < |setup| {
      assert plan[i] == setup[i];
    }
  }

  lemma KindsConcat(a: seq<Call>, b: seq<Call>)
    ensures Kinds(a + b) == Kinds(a) + Kinds(b)
  {
    forall r ensures r in Kinds(a + b) <==> r in Kinds(a) + Kinds(b) {
      if r in Kinds(a + b) {
        var c :| c in a + b && Acquires(c).Some? && Acquires(c).value == r;
        assert c in a || c in b;
      }
      if r in Kinds(a) {
        var c :| c in a && Acquires(c).Some? && Acquires(c).value == r;
        assert c in a + b;
      }
      if r in Kinds(b) {
        var c :| c in b && Acquires(c).Some? && Acquires(c).value == r;
        assert c in a + b;
      }
    }
  }

  lemma KindsOfOpen()
    ensures Kinds(OpenCalls) == {Loader, Performance, MusicObject}
  {
    assert CreateLoader in OpenCalls && CreatePerformance in OpenCalls && CreateMusic in OpenCalls;
  }

  lemma KindsOfAudio(device: DeviceId)
    ensures Kinds(AudioCalls(device)) == {AudioObject, PrimaryBuffer}
  {
    var part := AudioCalls(device);
    assert part[0] in part && part[2] in part;
  }

  lemma KindsOfSetup(device: DeviceId, dlsPath: string)
    ensures Kinds(SetupPlan(device, dlsPath)) ==
      {Loader, Performance, MusicObject, AudioObject, PrimaryBuffer, MusicAlias, AudioAlias}
      + (if dlsPath != DLS_FILE_NONE then {Collection} else {})
  {
    var dls: seq<Call> := if dlsPath != DLS_FILE_NONE then [LoadCollection(dlsPath)] else [];
    KindsOfOpen();
    assert Kinds(ListCalls) == {};
    KindsOfAudio(device);
    KindsOfCollection(dlsPath);
    KindsOfQueries();
    KindsConcat(dls, [QueryMusic, QuerySound]);
    KindsConcat(OpenCalls, ListCalls);
    KindsConcat(OpenCalls + ListCalls, AudioCalls(device));
    KindsConcat(OpenCalls + ListCalls + AudioCalls(device), InstrumentCalls(dlsPath));
  }

  lemma KindsOfQueries()
    ensures Kinds([QueryMusic, QuerySound]) == {MusicAlias, AudioAlias}
  {
    assert QueryMusic in [QueryMusic, QuerySound] && QuerySound in [QueryMusic, QuerySound];
  }

  lemma KindsOfCollection(dlsPath: string)
    ensures Kinds(if dlsPath != DLS_FILE_NONE then [LoadCollection(dlsPath)] else [])
      == if dlsPath != DLS_FILE_NONE then {Collection} else {}
  {
    if dlsPath != DLS_FILE_NONE {
      assert LoadCollection(dlsPath) in [LoadCollection(dlsPath)];
    }
  }

  lemma KindsOfMode(midiIdx: int, caps: PortCaps)
    ensures Kinds(ModePlan(midiIdx, caps)) == if midiIdx >= 0 then {Port} else {}
  {
    if midiIdx >= 0 {
      assert CreatePort(caps.guidPort, BuildPortParams(caps)) in ModePlan(midiIdx, caps);
    }
  }

  /** The resources a fully successful Initialise holds afterwards: every
      slot it acquires, the collection only when a DLS path was given, and
      the port only in explicit-port mode. */
  lemma InitAcquires(held: set<Resource>, dsIdx: int, midiIdx: int, dlsPath: string,
                     devices: seq<AudioDevice>, caps: PortCaps, host: Host)
    requires AllSucceed(host, InitPlan(dsIdx, midiIdx, dlsPath, devices, caps))
    ensures Replay(held, InitPlan(dsIdx, midiIdx, dlsPath, devices, caps), host) ==
      held + {Loader, Performance, MusicObject, AudioObject, PrimaryBuffer, MusicAlias, AudioAlias}
      + (if dlsPath != DLS_FILE_NONE then {Collection} else {})
      + (if midiIdx >= 0 then {Port} else {})
  {
    var device := GetDeviceGuidByIndex(devices, dsIdx);
    ReplaySucceeded(held, InitPlan(dsIdx, midiIdx, dlsPath, devices, caps), host);
    KindsConcat(SetupPlan(device, dlsPath), ModePlan(midiIdx, caps));
    KindsOfSetup(device, dlsPath);
    KindsOfMode(midiIdx, caps);
  }

  /** The calls of PlayMidi when the port is not external: load the MIDI
      file as a segment, download its instruments, and play it after the
      prepare time when a performance exists. */
  function PlayPlan(path: string, havePerformance: bool): (plan: seq<Call>)
  {
    [LoadSegment(path), Download] + (if havePerformance then [PlaySegment(SEGF_AFTERPREPARETIME)] else [])
  }

  /** The calls of ListDevices. */
  function ListPlan(): (plan: seq<Call>)
  {
    [CoInitialize, CreatePerformance, CreateMusic, ListAudioDevices, ListPorts]
  }

  // ------------------------------------------------------------- teardown

  /** The slots ShutdownDirectMusic releases, in its order. */
  const TeardownOrder: seq<Resource> :=
    [Segment, PrimaryBuffer, Port, Collection, Loader, AudioObject, MusicObject, Performance]

  /** The two QueryInterface results, which ShutdownDirectMusic never releases. */
  const Unreleased: set<Resource> := {MusicAlias, AudioAlias}

  /** The calls of one block of ShutdownDirectMusic: nothing for a NULL
      slot; the segment is unloaded from the performance before its release,
      and the performance is closed down before its release. */
  function TeardownStep(r: Resource, held: set<Resource>): (cs: seq<Call>)
  {
    if r !in held then []
    else if r == Segment then [Unload, Release(Segment)]
    else if r == Performance then [CloseDown, Release(Performance)]
    else [Release(r)]
  }

  /** The blocks for the slots of `order`, one after the other. */
  function TeardownSteps(order: seq<Resource>, held: set<Resource>): (cs: seq<Call>)
  {
    if order == [] then []
    else TeardownSteps(order[..|order| - 1], held) + TeardownStep(order[|order| - 1], held)
  }

  /** The calls ShutdownDirectMusic makes when `held` are the non-null slots. */
  function TeardownCalls(held: set<Resource>): (cs: seq<Call>)
  {
    TeardownSteps(TeardownOrder, held) + [CoUninitialize]
  }

  /** One more block of the teardown. */
  lemma TeardownAdvance(held: set<Resource>, i: nat)
    requires i < |TeardownOrder|
    ensures TeardownSteps(TeardownOrder[..i + 1], held) ==
      TeardownSteps(TeardownOrder[..i], held) + TeardownStep(TeardownOrder[i], held)
  {
    assert TeardownOrder[..i + 1][..i] == TeardownOrder[..i];
  }

  /** The slots of the first i blocks of the teardown. */
  function Released(i: nat): (rs: set<Resource>)
    requires i <= |TeardownOrder|
    ensures forall j | 0 <= j < i :: TeardownOrder[j] in rs
  {
    set j | 0 <= j < i :: TeardownOrder[j]
  }

  /** Block i adds one slot, not among the earlier ones. */
  lemma ReleasedNext(i: nat)
    requires i < |TeardownOrder|
    ensures Released(i + 1) == Released(i) + {TeardownOrder[i]}
    ensures TeardownOrder[i] !in Released(i)
  {
    TeardownOrderDistinct();
  }

  /** The blocks cover every slot but the two aliases. */
  lemma ReleasedAll()
    ensures Released(0) == {}
    ensures Released(|TeardownOrder|) == AllResources - Unreleased
  {
    assert forall r | r in AllResources - Unreleased ::
      r == TeardownOrder[0] || r == TeardownOrder[1] || r == TeardownOrder[2] || r == TeardownOrder[3] ||
      r == TeardownOrder[4] || r == TeardownOrder[5] || r == TeardownOrder[6] || r == TeardownOrder[7];
  }

  /** After the last block: the log ends with the teardown calls and the
      slots left are the held aliases. */
  lemma TeardownComplete(c0: seq<Call>, h0: set<Resource>)
    ensures c0 + TeardownSteps(TeardownOrder[..|TeardownOrder|], h0) + [CoUninitialize] == c0 + TeardownCalls(h0)
    ensures h0 - Released(|TeardownOrder|) == h0 * Unreleased
  {
    assert TeardownOrder[..|TeardownOrder|] == TeardownOrder;
    ReleasedAll();
    forall r | r in h0 ensures r in AllResources {
      match r
      case Performance =>
      case MusicObject =>
      case MusicAlias =>
      case AudioObject =>
      case AudioAlias =>
      case Loader =>
      case Collection =>
      case Segment =>
      case Port =>
      case PrimaryBuffer =>
    }
  }

  lemma {:induction false} TeardownStepsConcat(a: seq<Resource>, b: seq<Resource>, held: set<Resource>)
    ensures TeardownSteps(a + b, held) == TeardownSteps(a, held) + TeardownSteps(b, held)
    decreases |b|
  {
    if b != [] {
      var b' := b[..|b| - 1];
      assert (a + b)[..|a + b| - 1] == a + b';
      TeardownStepsConcat(a, b', held);
    } else {
      assert a + b == a;
    }
  }

  /** The resources released by a sequence of calls, in call order. */
  function Releases(cs: seq<Call>): (rs: seq<Resource>)
  {
    if cs == [] then []
    else Releases(cs[..|cs| - 1]) + (if cs[|cs| - 1].Release? then [cs[|cs| - 1].what] else [])
  }

  lemma {:induction false} ReleasesConcat(a: seq<Call>, b: seq<Call>)
    ensures Releases(a + b) == Releases(a) + Releases(b)
    decreases |b|
  {
    if b != [] {
      var b' := b[..|b| - 1];
      assert (a + b)[..|a + b| - 1] == a + b';
      assert (a + b)[|a + b| - 1] == b[|b| - 1];
      ReleasesConcat(a, b');
    } else {
      assert a + b == a;
    }
  }

  /** No call of `cs` is a Release. */
  predicate ReleaseFree(cs: seq<Call>)
  {
    forall i | 0 <= i < |cs| :: !cs[i].Release?
  }

  /** A sequence of calls without a Release releases nothing. */
  lemma {:induction false} ReleasesOfReleaseFree(cs: seq<Call>)
    requires ReleaseFree(cs)
    ensures Releases(cs) == []
    decreases |cs|
  {
    if cs != [] {
      ReleasesOfReleaseFree(cs[..|cs| - 1]);
    }
  }

  /** What a run of a plan without a Release executes has no Release. */
  lemma RunReleaseFree(plan: seq<Call>, host: Host)
    requires ReleaseFree(plan)
    ensures ReleaseFree(Run(plan, host).ran)
  {
    var out := Run(plan, host);
    StoppedIsRun(plan, out.ran, out.hr, host);
    forall i | 0 <= i < |out.ran| ensures !out.ran[i].Release? {
      assert out.ran[i] == plan[i];
    }
  }

  /** Initialise releases nothing: its plan holds no Release. */
  lemma InitPlanReleaseFree(dsIdx: int, midiIdx: int, dlsPath: string, devices: seq<AudioDevice>, caps: PortCaps)
    ensures ReleaseFree(InitPlan(dsIdx, midiIdx, dlsPath, devices, caps))
  {
    var plan := InitPlan(dsIdx, midiIdx, dlsPath, devices, caps);
    var setup := SetupPlan(GetDeviceGuidByIndex(devices, dsIdx), dlsPath);
    forall i | 0 <= i < |plan| ensures !plan[i].Release? {
      if i < |setup| {
        assert plan[i] == setup[i];
        SetupParts(plan, GetDeviceGuidByIndex(devices, dsIdx), dlsPath);
        if i >= 12 {
          assert plan[i] == InstrumentCalls(dlsPath)[i - 12];
        }
      } else {
        assert plan[i] == ModePlan(midiIdx, caps)[i - |setup|];
      }
    }
  }

  /** PlayMidi releases nothing: its plan holds no Release. */
  lemma PlayPlanReleaseFree(path: string, havePerformance: bool)
    ensures ReleaseFree(PlayPlan(path, havePerformance))
  {
  }

  /** The elements of `order` that are in `held`, in order. */
  function Keep(order: seq<Resource>, held: set<Resource>): (kept: seq<Resource>)
    ensures forall r :: r in kept <==> r in order && r in held
  {
    if order == [] then []
    else
      var init := order[..|order| - 1];
      assert forall r :: r in order <==> r in init || r == order[|order| - 1] by {
        assert order == init + [order[|order| - 1]];
      }
      Keep(init, held) + (if order[|order| - 1] in held then [order[|order| - 1]] else [])
  }

  lemma ReleasesOfStep(r: Resource, held: set<Resource>)
    ensures Releases(TeardownStep(r, held)) == if r in held then [r] else []
  {
    var step := TeardownStep(r, held);
    if r in held && (r == Segment || r == Performance) {
      assert step[..1][..0] == [];
      assert step[..1] == [step[0]];
      assert !step[0].Release?;
      assert Releases(step[..1]) == [];
    } else if r in held {
      assert step[..0] == [];
    }
  }

  lemma {:induction false} ReleasesOfSteps(order: seq<Resource>, held: set<Resource>)
    ensures Releases(TeardownSteps(order, held)) == Keep(order, held)
    decreases |order|
  {
    if order != [] {
      var init := order[..|order| - 1];
      var last := order[|order| - 1];
      ReleasesOfSteps(init, held);
      ReleasesConcat(TeardownSteps(init, held), TeardownStep(last, held));
      ReleasesOfStep(last, held);
    }
  }

  /** ShutdownDirectMusic releases exactly the held slots of the teardown
      order, in that order: segment, buffer, port, collection, loader, audio
      object, music object, performance. */
  lemma TeardownReleaseOrder(held: set<Resource>)
    ensures Releases(TeardownCalls(held)) == Keep(TeardownOrder, held)
  {
    ReleasesConcat(TeardownSteps(TeardownOrder, held), [CoUninitialize]);
    ReleasesOfSteps(TeardownOrder, held);
    assert [CoUninitialize][..0] == [];
  }

  lemma {:induction false} KeepDistinct(order: seq<Resource>, held: set<Resource>, r: Resource)
    requires forall i, j | 0 <= i < j < |order| :: order[i] != order[j]
    ensures multiset(Keep(order, held))[r] == if r in order && r in held then 1 else 0
    decreases |order|
  {
    if order != [] {
      var init := order[..|order| - 1];
      var last := order[|order| - 1];
      KeepDistinct(init, held, r);
      assert order == init + [last];
      assert last !in init;
    }
  }

  lemma TeardownOrderDistinct()
    ensures forall i, j | 0 <= i < j < |TeardownOrder| :: TeardownOrder[i] != TeardownOrder[j]
  {
  }

  /** Each held slot of the teardown order is released exactly once; the
      other slots, the two aliases among them, are not released at all. */
  lemma TeardownReleasesOnce(held: set<Resource>, r: Resource)
    ensures multiset(Releases(TeardownCalls(held)))[r] ==
      if r in held && r !in Unreleased then 1 else 0
  {
    KeptOnce(held, r);
    TeardownReleaseOrder(held);
  }

  lemma KeptOnce(held: set<Resource>, r: Resource)
    ensures multiset(Keep(TeardownOrder, held))[r] == if r in held && r !in Unreleased then 1 else 0
  {
    TeardownOrderDistinct();
    KeepDistinct(TeardownOrder, held, r);
  }

  const MiddleOrder: seq<Resource> := [PrimaryBuffer, Port, Collection, Loader, AudioObject, MusicObject]

  lemma TeardownShape(held: set<Resource>)
    ensures TeardownCalls(held) ==
      TeardownStep(Segment, held) + TeardownSteps(MiddleOrder, held) + TeardownStep(Performance, held) + [CoUninitialize]
  {
    assert TeardownOrder == [Segment] + MiddleOrder + [Performance];
    TeardownStepsConcat([Segment] + MiddleOrder, [Performance], held);
    TeardownStepsConcat([Segment], MiddleOrder, held);
    assert [Segment][..0] == [] && [Performance][..0] == [];
  }

  /** Before anything else, a held segment is unloaded from the performance
      and then released; at the end, a held performance is closed down and
      then released, and only then is COM uninitialised. */
  lemma TeardownBrackets(held: set<Resource>)
    ensures Segment in held ==> |TeardownCalls(held)| >= 2 && TeardownCalls(held)[..2] == [Unload, Release(Segment)]
    ensures var cs := TeardownCalls(held);
      Performance in held ==> |cs| >= 3 && cs[|cs| - 3..] == [CloseDown, Release(Performance), CoUninitialize]
  {
    TeardownShape(held);
    var head := TeardownStep(Segment, held);
    var rest := TeardownSteps(MiddleOrder, held) + TeardownStep(Performance, held) + [CoUninitialize];
    var cs := TeardownCalls(held);
    assert cs == head + rest;
    if Segment in held {
      assert cs[..2] == head;
    }
    var front := head + TeardownSteps(MiddleOrder, held);
    var tail := TeardownStep(Performance, held) + [CoUninitialize];
    assert cs == front + tail;
    if Performance in held {
      assert cs[|cs| - 3..] == tail;
    }
  }

  lemma {:induction false} NothingHeldNothingCalled(order: seq<Resource>, held: set<Resource>)
    requires forall i | 0 <= i < |order| :: order[i] !in held
    ensures TeardownSteps(order, held) == []
    decreases |order|
  {
    if order != [] {
      NothingHeldNothingCalled(order[..|order| - 1], held);
    }
  }

  /** After a teardown only the unreleased aliases can be held, so a second
      teardown releases nothing and only uninitialises COM. */
  lemma SecondTeardownReleasesNothing(held: set<Resource>)
    ensures TeardownCalls(held * Unreleased) == [CoUninitialize]
    ensures Releases(TeardownCalls(held * Unreleased)) == []
  {
    var kept := held * Unreleased;
    forall i | 0 <= i < |TeardownOrder| ensures TeardownOrder[i] !in kept {
      assert TeardownOrder[i] in TeardownOrder;
    }
    NothingHeldNothingCalled(TeardownOrder, kept);
    assert TeardownCalls(kept) == [] + [CoUninitialize];
    assert [CoUninitialize][..0] == [];
  }
}
