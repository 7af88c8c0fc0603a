/** The command-line dispatch of the player: with no argument it lists the
    devices, mode "DS" initialises DirectMusic and plays a file, mode "MM"
    hands over to the WinMM back end, and any other mode is refused. */
module Program {
  import opened Com
  import opened Devices
  import opened PortSetup
  import opened Lifecycle
  import opened Session

  /** The device and port indices name entries of the lists the
      enumerations produce (the two unchecked name reads of Initialise). */
  predicate IndicesListed(dsIdx: int, midiIdx: int, host: Host)
  {
    && (dsIdx >= 0 ==> dsIdx < |host.audioDevices|)
    && (midiIdx >= 0 ==> midiIdx < |PortNames(host.ports)|)
  }

  /** The calls Initialise plans for a fresh session. */
  function FreshInitPlan(dsIdx: int, midiIdx: int, dlsPath: string, host: Host): (plan: seq<Call>)
  {
    InitPlan(dsIdx, midiIdx, dlsPath, host.audioDevices,
             LookupCaps(host.rescan, ToDword(midiIdx), host.uninitialisedCaps))
  }

  /** The no-argument branch: list the devices, tear down, and exit with 1
      when listing failed and 0 otherwise. */
  method ListMode(s: Session, host: Host) returns (exit: int)
    requires s.Held() == {} && s.calls == []
    modifies s
    ensures var list := Run(ListPlan(), host);
      && exit == (if Failed(list.hr) then 1 else 0)
      && s.calls == list.ran + TeardownCalls(Replay({}, list.ran, host))
      && s.Held() == Replay({}, list.ran, host) * Unreleased
    ensures var list := Run(ListPlan(), host);
      && s.audioDevices == old(s.audioDevices) + (if Failed(list.hr) then [] else host.audioDevices)
      && s.midiDevices == old(s.midiDevices) + (if Failed(list.hr) then [] else PortNames(host.ports))
    ensures s.isExternalSynth == old(s.isExternalSynth)
    ensures s.port == None
  {
    var hr := StartListing(s, host);
    if Failed(hr) {
      s.ShutdownDirectMusic();
      exit := 1;
      return;
    }
    s.ShutdownDirectMusic();
    exit := 0;
  }

  /** ListDevices on a session with an empty log: the outcome is the
      reference run of the listing plan, and the device lists grow by what
      the enumerations report exactly when that run reached them. */
  method StartListing(s: Session, host: Host) returns (hr: HResult)
    requires s.Held() == {} && s.calls == []
    modifies s
    ensures var list := Run(ListPlan(), host);
      && hr == list.hr && s.calls == list.ran && s.Held() == Replay({}, list.ran, host)
      && s.audioDevices == old(s.audioDevices) + (if Failed(list.hr) then [] else host.audioDevices)
      && s.midiDevices == old(s.midiDevices) + (if Failed(list.hr) then [] else PortNames(host.ports))
    ensures s.isExternalSynth == old(s.isExternalSynth) && s.port == old(s.port)
  {
    hr := s.ListDevices(host);
    assert s.calls[0..] == s.calls;
    StoppedIsRun(ListPlan(), s.calls, hr, host);
    ListingReachesEnumeration(s.calls, hr, host);
  }

  /** The listing reaches the enumerations exactly when it succeeds: they
      are its last two calls and never fail. */
  lemma ListingReachesEnumeration(ran: seq<Call>, hr: HResult, host: Host)
    requires Stopped(ListPlan(), ran, hr, host)
    ensures |ran| > 3 <==> !Failed(hr)
  {
    if |ran| > 3 {
      assert ran[|ran| - 1] in {ListAudioDevices, ListPorts};
    }
  }

  /** Initialise on a fresh session: the outcome is the reference run of
      its plan, and after success the loader and the performance are held
      and the external flag is the GetCaps test of an explicit port. */
  method StartSession(s: Session, dsIdx: int, midiIdx: int, dlsPath: string, host: Host)
    returns (hr: HResult)
    requires s.Held() == {} && s.calls == [] && s.audioDevices == [] && s.midiDevices == [] && !s.isExternalSynth
    requires IndicesListed(dsIdx, midiIdx, host)
    modifies s
    ensures var init := Run(FreshInitPlan(dsIdx, midiIdx, dlsPath, host), host);
      hr == init.hr && s.calls == init.ran && s.Held() == Replay({}, init.ran, host)
    ensures !Failed(hr) ==> s.loader && s.performance
    ensures !Failed(hr) ==> (s.isExternalSynth <==> midiIdx >= 0 && IsExternal(host.portCaps))
  {
    ghost var plan := FreshInitPlan(dsIdx, midiIdx, dlsPath, host);
    assert [] + host.audioDevices == host.audioDevices;
    hr := s.Initialise(dsIdx, midiIdx, dlsPath, host);
    assert s.calls[0..] == s.calls;
    StoppedIsRun(plan, s.calls, hr, host);
    if !Failed(hr) {
      InitialisedSession(plan, s.calls, hr, host, dsIdx, midiIdx, dlsPath);
      assert s.Holds(Loader) && s.Holds(Performance);
    }
  }

  /** The calls PlayMidi makes with the performance held: none when the
      port is external, otherwise the run of the play plan. */
  function PlayCalls(external: bool, midiPath: string, host: Host): (cs: seq<Call>)
    ensures ReleaseFree(cs)
  {
    PlayPlanReleaseFree(midiPath, true);
    RunReleaseFree(PlayPlan(midiPath, true), host);
    if external then [] else Run(PlayPlan(midiPath, true), host).ran
  }

  /** The calls PlayMidi makes after a successful Initialise, where the
      port is external exactly when an explicit port reports
      DMUS_PC_EXTERNAL. */
  function DsPlay(midiIdx: int, midiPath: string, host: Host): (cs: seq<Call>)
    ensures ReleaseFree(cs)
  {
    PlayCalls(midiIdx >= 0 && IsExternal(host.portCaps), midiPath, host)
  }

  /** The calls of the "DS" branch before its teardown: the Initialise run,
      then, when it succeeded, the PlayMidi calls. */
  function DsActive(dsIdx: int, midiIdx: int, dlsPath: string, midiPath: string, host: Host): (cs: seq<Call>)
    ensures ReleaseFree(cs)
  {
    var plan := FreshInitPlan(dsIdx, midiIdx, dlsPath, host);
    var init := Run(plan, host);
    InitPlanReleaseFree(dsIdx, midiIdx, dlsPath, host.audioDevices,
                        LookupCaps(host.rescan, ToDword(midiIdx), host.uninitialisedCaps));
    RunReleaseFree(plan, host);
    var play := if Failed(init.hr) then [] else DsPlay(midiIdx, midiPath, host);
    assert forall i | |init.ran| <= i < |init.ran + play| :: (init.ran + play)[i] == play[i - |init.ran|];
    init.ran + play
  }

  /** The slots held when the "DS" branch reaches its teardown. */
  function DsHeld(dsIdx: int, midiIdx: int, dlsPath: string, midiPath: string, host: Host): (held: set<Resource>)
  {
    var init := Run(FreshInitPlan(dsIdx, midiIdx, dlsPath, host), host);
    var h := Replay({}, init.ran, host);
    if Failed(init.hr) then h else Replay(h, DsPlay(midiIdx, midiPath, host), host)
  }

  /** Every call of the "DS" branch: its active calls, then the teardown of
      what they left held. */
  function DsLog(dsIdx: int, midiIdx: int, dlsPath: string, midiPath: string, host: Host): (cs: seq<Call>)
  {
    DsActive(dsIdx, midiIdx, dlsPath, midiPath, host) + TeardownCalls(DsHeld(dsIdx, midiIdx, dlsPath, midiPath, host))
  }

  /** Over the whole "DS" branch, the Release calls are exactly the held
      slots in teardown order, so each slot held at the teardown is
      released exactly once, except the two aliases, which never are. */
  lemma DsRunReleasesOnce(dsIdx: int, midiIdx: int, dlsPath: string, midiPath: string, host: Host)
    ensures var held := DsHeld(dsIdx, midiIdx, dlsPath, midiPath, host);
      Releases(DsLog(dsIdx, midiIdx, dlsPath, midiPath, host)) == Keep(TeardownOrder, held)
    ensures var held := DsHeld(dsIdx, midiIdx, dlsPath, midiPath, host);
      forall r :: multiset(Releases(DsLog(dsIdx, midiIdx, dlsPath, midiPath, host)))[r] ==
        if r in held && r !in Unreleased then 1 else 0
  {
    var active := DsActive(dsIdx, midiIdx, dlsPath, midiPath, host);
    var held := DsHeld(dsIdx, midiIdx, dlsPath, midiPath, host);
    ReleasesConcat(active, TeardownCalls(held));
    ReleasesOfReleaseFree(active);
    TeardownReleaseOrder(held);
    forall r ensures multiset(Keep(TeardownOrder, held))[r] == if r in held && r !in Unreleased then 1 else 0 {
      KeptOnce(held, r);
    }
  }

  /** The "DS" branch once its four arguments are present: Initialise; on
      failure tear down and exit with 1. Otherwise play the file, refusing
      an external port; on failure tear down and exit with 2. Otherwise tear
      down and exit with 0. */
  method DirectSoundMode(s: Session, dsIdx: int, midiIdx: int, dlsPath: string, midiPath: string, host: Host)
    returns (exit: int)
    requires s.Held() == {} && s.calls == [] && s.audioDevices == [] && s.midiDevices == [] && !s.isExternalSynth
    requires IndicesListed(dsIdx, midiIdx, host)
    modifies s
    ensures exit == 0 || exit == 1 || exit == 2
    ensures exit == 1 <==> Failed(Run(FreshInitPlan(dsIdx, midiIdx, dlsPath, host), host).hr)
    ensures exit != 1 ==> (s.isExternalSynth <==> midiIdx >= 0 && IsExternal(host.portCaps))
    ensures exit == 0 ==> !s.isExternalSynth && !Failed(Run(PlayPlan(midiPath, true), host).hr)
    ensures exit == 2 ==> s.isExternalSynth || Failed(Run(PlayPlan(midiPath, true), host).hr)
    ensures s.calls == DsLog(dsIdx, midiIdx, dlsPath, midiPath, host)
    ensures s.Held() == DsHeld(dsIdx, midiIdx, dlsPath, midiPath, host) * Unreleased && s.port == None
  {
    var hr := StartSession(s, dsIdx, midiIdx, dlsPath, host);
    DsParts(dsIdx, midiIdx, dlsPath, midiPath, host);
    if Failed(hr) {
      Close(s);
      exit := 1;
      return;
    }
    exit := PlayAndClose(s, midiPath, host);
  }

  /** The log and the final slots of the "DS" branch, split at the outcome
      of Initialise. */
  lemma DsParts(dsIdx: int, midiIdx: int, dlsPath: string, midiPath: string, host: Host)
    ensures var init := Run(FreshInitPlan(dsIdx, midiIdx, dlsPath, host), host);
      var h := Replay({}, init.ran, host);
      if Failed(init.hr) then
        && DsHeld(dsIdx, midiIdx, dlsPath, midiPath, host) == h
        && DsLog(dsIdx, midiIdx, dlsPath, midiPath, host) == init.ran + TeardownCalls(h)
      else
        var play := PlayCalls(midiIdx >= 0 && IsExternal(host.portCaps), midiPath, host);
        && DsHeld(dsIdx, midiIdx, dlsPath, midiPath, host) == Replay(h, play, host)
        && DsLog(dsIdx, midiIdx, dlsPath, midiPath, host) == init.ran + play + TeardownCalls(Replay(h, play, host))
  {
    var init := Run(FreshInitPlan(dsIdx, midiIdx, dlsPath, host), host);
    if Failed(init.hr) {
      assert init.ran + [] == init.ran;
    }
  }

  /** The rest of the "DS" branch: play the file unless the port is
      external, then tear down; 2 when playing failed, 0 otherwise. */
  method PlayAndClose(s: Session, midiPath: string, host: Host) returns (exit: int)
    requires s.loader && s.performance
    modifies s
    ensures exit == 0 || exit == 2
    ensures s.isExternalSynth == old(s.isExternalSynth)
    ensures exit == 0 <==> !s.isExternalSynth && !Failed(Run(PlayPlan(midiPath, true), host).hr)
    ensures var ran := PlayCalls(old(s.isExternalSynth), midiPath, host);
      && s.calls == old(s.calls) + ran + TeardownCalls(Replay(old(s.Held()), ran, host))
      && s.Held() == Replay(old(s.Held()), ran, host) * Unreleased
    ensures s.port == None
  {
    var hr := Play(s, midiPath, host);
    Close(s);
    exit := if Failed(hr) then 2 else 0;
  }

  /** PlayMidi with the session's own external flag: nothing is called for
      an external port, otherwise the reference run of the play plan; it
      fails exactly when the port is external or that run fails. */
  method Play(s: Session, midiPath: string, host: Host) returns (hr: HResult)
    requires s.loader && s.performance
    modifies s
    ensures s.isExternalSynth == old(s.isExternalSynth)
    ensures s.audioDevices == old(s.audioDevices) && s.midiDevices == old(s.midiDevices)
    ensures s.port == old(s.port)
    ensures var ran := PlayCalls(s.isExternalSynth, midiPath, host);
      s.calls == old(s.calls) + ran && s.Held() == Replay(old(s.Held()), ran, host)
    ensures Failed(hr) <==> s.isExternalSynth || Failed(Run(PlayPlan(midiPath, true), host).hr)
  {
    ghost var c0, h0 := s.calls, s.Held();
    var external := s.isExternalSynth;
    hr := s.PlayMidi(midiPath, external, host);
    PlayOutcome(external, midiPath, host, c0, s.calls, h0, s.Held(), hr);
  }

  /** What PlayMidi leaves behind, in terms of the reference run: nothing
      for an external port, else the stopped run of the play plan, which
      is the reference run with the same verdict. */
  lemma PlayOutcome(external: bool, midiPath: string, host: Host, c0: seq<Call>, calls: seq<Call>,
                    h0: set<Resource>, held: set<Resource>, hr: HResult)
    requires external ==> hr == E_FAIL && calls == c0 && held == h0
    requires !external ==>
      |c0| <= |calls| && calls[..|c0|] == c0 &&
      Stopped(PlayPlan(midiPath, true), calls[|c0|..], hr, host) && held == Replay(h0, calls[|c0|..], host)
    ensures calls == c0 + PlayCalls(external, midiPath, host)
    ensures held == Replay(h0, PlayCalls(external, midiPath, host), host)
    ensures Failed(hr) <==> external || Failed(Run(PlayPlan(midiPath, true), host).hr)
  {
    if external {
      assert calls == c0 + [];
    } else {
      var ran := calls[|c0|..];
      StoppedIsRun(PlayPlan(midiPath, true), ran, hr, host);
      assert calls == c0 + ran;
    }
  }

  /** ShutdownDirectMusic at the end of a run: the log grows by the
      teardown calls of the held slots, only the aliases it never releases
      may stay set, the port is closed, and COM is uninitialised last. */
  method Close(s: Session)
    modifies s`calls, s`performance, s`musicObject, s`musicAlias, s`audioObject, s`audioAlias,
             s`loader, s`collection, s`segment, s`port, s`primaryBuffer
    ensures s.calls == old(s.calls) + TeardownCalls(old(s.Held()))
    ensures s.Held() == old(s.Held()) * Unreleased && s.port == None
    ensures |s.calls| > 0 && s.calls[|s.calls| - 1] == CoUninitialize
  {
    s.ShutdownDirectMusic();
    assert s.calls == old(s.calls) + TeardownSteps(TeardownOrder, old(s.Held())) + [CoUninitialize];
  }

  /** A successful Initialise of a fresh session ran its whole plan: the
      loader and the performance are held, and the GetCaps of an explicit
      port succeeded. */
  lemma InitialisedSession(plan: seq<Call>, ran: seq<Call>, hr: HResult, host: Host,
                           dsIdx: int, midiIdx: int, dlsPath: string)
    requires plan == FreshInitPlan(dsIdx, midiIdx, dlsPath, host)
    requires Stopped(plan, ran, hr, host) && !Failed(hr)
    ensures ran == plan && AllSucceed(host, plan)
    ensures Loader in Replay({}, ran, host) && Performance in Replay({}, ran, host)
    ensures midiIdx >= 0 ==>
      |ran| > |SetupPlan(GetDeviceGuidByIndex(host.audioDevices, dsIdx), dlsPath)| + 1 && Succeeds(host, GetCaps)
  {
    var caps := LookupCaps(host.rescan, ToDword(midiIdx), host.uninitialisedCaps);
    var setup := SetupPlan(GetDeviceGuidByIndex(host.audioDevices, dsIdx), dlsPath);
    assert plan == setup + ModePlan(midiIdx, caps);
    assert |ran| > 0;
    StoppedPrefixSucceeded(plan, ran, hr, host, 0);
    InitAcquires({}, dsIdx, midiIdx, dlsPath, host.audioDevices, caps, host);
    if midiIdx >= 0 {
      assert plan[|setup| + 1] == GetCaps;
    }
  }

  /** The entry point: `args` is argv with the program name first, `atoi`
      the string-to-int conversion of the C library, and `winmm` the result
      of the WinMM back end. */
  method RunCommandLine(args: seq<string>, host: Host, atoi: string -> int, winmm: int)
    returns (exit: int, s: Session)
    requires |args| > 5 && args[1] == "DS" ==> IndicesListed(atoi(args[2]), atoi(args[3]), host)
    ensures |args| <= 1 ==>
      var list := Run(ListPlan(), host);
      && exit == (if Failed(list.hr) then 1 else 0)
      && s.calls == list.ran + TeardownCalls(Replay({}, list.ran, host))
      && s.Held() == Replay({}, list.ran, host) * Unreleased
      && s.audioDevices == (if Failed(list.hr) then [] else host.audioDevices)
      && s.midiDevices == (if Failed(list.hr) then [] else PortNames(host.ports))
      && !s.isExternalSynth
    ensures |args| > 1 && args[1] == "DS" && |args| <= 5 ==> exit == 1 && s.calls == []
    ensures |args| > 5 && args[1] == "DS" ==>
      var init := Run(FreshInitPlan(atoi(args[2]), atoi(args[3]), args[4], host), host);
      && (exit == 1 <==> Failed(init.hr))
      && (exit == 0 ==> !s.isExternalSynth && !Failed(Run(PlayPlan(args[5], true), host).hr))
      && (exit == 2 ==> s.isExternalSynth || Failed(Run(PlayPlan(args[5], true), host).hr))
      && (exit == 0 || exit == 1 || exit == 2)
      && s.calls == DsLog(atoi(args[2]), atoi(args[3]), args[4], args[5], host)
      && s.Held() == DsHeld(atoi(args[2]), atoi(args[3]), args[4], args[5], host) * Unreleased
    ensures |args| > 1 && args[1] == "MM" ==> exit == (if |args| <= 3 then 1 else winmm) && s.calls == []
    ensures |args| > 1 && args[1] != "DS" && args[1] != "MM" ==> exit == 1 && s.calls == []
    ensures |args| <= 1 || (|args| > 5 && args[1] == "DS") ==> s.port == None
  {
    s := new Session();
    if |args| <= 1 {
      exit := ListMode(s, host);
      return;
    }
    var workMode := args[1];
    if workMode == "DS" {
      if |args| <= 1 + 4 {
        exit := 1;
        return;
      }
      exit := DirectSoundMode(s, atoi(args[2]), atoi(args[3]), args[4], args[5], host);
      return;
    } else if workMode == "MM" {
      if |args| <= 1 + 2 {
        exit := 1;
        return;
      }
      var err := winmm;
      if err != 0 {
        exit := err;
        return;
      }
      exit := 0;
      return;
    }
    exit := 1;
  }
}
