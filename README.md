# DirectMusic session of the MIDI player, modelled in Dafny

The player (`midi.cpp`) opens a DirectMusic session, plays a MIDI file
through DirectSound or through an explicit DirectMusic port, and then tears
the session down. This project models that session logic:

- the global interface pointers and the `isExternalSynth` flag (lines 28-38);
- the two device lists;
- device and port selection by index;
- the port parameters and the primary-buffer format;
- the step order of `Initialise`, `ListDevices` and `PlayMidi`, each of which stops at the first failing result;
- the release order of `ShutdownDirectMusic`;
- the argument dispatch of `main` and its exit codes.

The COM, DirectSound and DirectMusic calls that `Initialise`, `ListDevices`,
`PlayMidi` and `ShutdownDirectMusic` make are values of the `Call` datatype,
and the session appends each to its `calls` log. Each enumeration is one
entry: `ListAudioDevices` stands for `DirectSoundEnumerate` (`midi.cpp:170`),
and `ListPorts` for the whole `EnumPort` loop of `EnumeratePorts`
(`midi.cpp:122`). The `EnumPort` calls of the ordinal search in
`GetPortCapsByIndex` (`midi.cpp:297`) are not logged; the model counts them
instead. Its result comes
from a `Host` value that stands for the platform:

- `answer` gives the result of each call;
- `console` says whether a console window exists;
- `audioDevices` is what the DirectSound enumeration reports;
- `ports` and `rescan` are the EnumPort answers the listing sees and the ones the search sees;
- `uninitialisedCaps` is the stack garbage `GetPortCapsByIndex` returns when the port is not found;
- `portCaps` is what `GetCaps` reports.

Modules:

- `Com`: the COM result codes and the SDK flag constants.
- `Devices`: device records, the port enumeration, the by-index lookups and the DWORD conversion of the ordinal comparison.
- `PortSetup`: `DMUS_PORTPARAMS8` as `CreateMusicPort` fills it, the flag tests on the queried caps, and the `WAVEFORMATEX` of the primary buffer.
- `Lifecycle`: the resource slots and calls; `Effect`/`Replay`, the slots a run of calls leaves set; `Stopped`, the short-circuit rule, proved equal to the step-by-step reference `Run`; the call plans of each operation; and the teardown sequence.
- `Session`: the class whose fields are the global slots, whose methods are the functions of `midi.cpp`, and whose contracts tie each method's log and slots to the plans of `Lifecycle`.
- `Version`: the `HIWORD`/`LOWORD` split of a file version.
- `Program`: `main`.

## Model

| member | source | states |
|---|---|---|
| Devices.EnumPort | midi.cpp:122 | an EnumPort ordinal past the provider's answers is reported as exhausted (S_FALSE) |
| Devices.OkRun | midi.cpp:117-141 | the number of consecutive S_OK answers from ordinal 0: all of them are Ok and the next one, if any, is not |
| Devices.PortNames | midi.cpp:117-141 | one name per consecutive Ok answer, the i-th being the description of ordinal i; so a run stops at the first exhaustion or error |
| Devices.ToDword | midi.cpp:292-311 | `dwIndex != idx` compares in DWORD: the int is taken modulo 2^32, so it is unchanged when non-negative and `idx + 2^32` when negative |
| Devices.LookupCaps | midi.cpp:289-321 | reference search: ordinal `target` inside the Ok run gives that port's caps, any other ordinal gives the uninitialised record |
| Devices.GetDeviceGuidByIndex | midi.cpp:277-287 | a negative index gives NULL, an index in range gives that entry's GUID (which may be NULL), an index at or past the end gives NULL; the list is never read out of range |
| Devices.GetPortCapsByIndex | midi.cpp:289-321 | the loop returns `LookupCaps` of the DWORD index; it issues exactly `idx + 1` EnumPort calls when found and one past the Ok run otherwise, never more than `idx + 1` |
| Devices.LookupAgreesWithNames | midi.cpp:122-130 | when the re-scan sees the same answers as the listing (`host.rescan == host.ports`), the caps the search returns for an ordinal are those whose description the listing showed at that ordinal; an ordinal past the list yields the uninitialised record |
| PortSetup.BuildPortParams | midi.cpp:182-233 | voices, channel groups, audio channels and effect flags are copied from the caps; the sample rate is 44100, share is TRUE, the features are AUDIOPATH, and the valid mask is the OR of the seven groups |
| PortSetup.ValidParamsExact | midi.cpp:185-232 | the valid mask sets each of the seven group bits and no other (it is 0xEF) |
| PortSetup.ParamsIgnoreIdentity | midi.cpp:214-233 | the parameters depend only on the voice, channel-group, audio-channel and effect fields of the caps |
| PortSetup.ExternalAfter | midi.cpp:259-262 | `isExternalSynth` after the GetCaps test is set exactly when it was set or the queried flags carry DMUS_PC_EXTERNAL; it is never cleared |
| PortSetup.IsExternal | midi.cpp:259 | the queried caps carry DMUS_PC_EXTERNAL |
| PortSetup.PrimaryBufferFormat | midi.cpp:376-383 | PCM, 2 channels, 44100 Hz, 16 bits; block align 4 and 176400 bytes per second, and these agree with the PCM rules |
| Lifecycle.Verdict | midi.cpp:325-354 | a missing console window is E_FAIL; the ignored DirectSound enumeration result and the port enumeration never stop the run |
| Com.Failed | midi.cpp:171 | the `FAILED` test: a result fails exactly when it is negative |
| Lifecycle.AcquiresPort | midi.cpp:235 | only CreatePort writes the port slot |
| Lifecycle.Acquires | midi.cpp:235-487 | the slot each call writes: the loader, performance, DirectMusic, DirectSound, buffer, collection, segment and port creators and the two QueryInterface aliases; every other call writes none |
| Lifecycle.Effect | midi.cpp:338-487 | an acquiring call sets its slot when it succeeds and leaves it NULL when it fails; other calls leave the slots alone |
| Lifecycle.ReplaySucceeded | midi.cpp:323-447 | a run in which every call succeeds adds exactly the slots its calls acquire |
| Lifecycle.Replay | midi.cpp:323-447 | the slots a sequence of calls leaves set, applying `Effect` call by call from a given set |
| Lifecycle.StoppedIsRun | midi.cpp:335-443 | the short-circuit predicate (the prefix run, every call but the last succeeded, S_OK or the failing call's result) is equivalent to the step-by-step reference run, in both directions |
| Lifecycle.Stopped | midi.cpp:335-443 | the `if (FAILED(hr)) return hr;` rule of every run: the calls made are a prefix of the plan, every call but the last succeeded, and the result is S_OK after a full successful run, otherwise the failing code of the last call |
| Lifecycle.Run | midi.cpp:335-443 | the step-by-step reference run: call the first step, return its code if it fails, otherwise go on with the rest |
| Lifecycle.StoppedDeterministic | midi.cpp:335-443 | the calls made and the result returned are determined by the plan and the platform's answers |
| Lifecycle.StoppedPrefixSucceeded | midi.cpp:335-443 | a call runs only after every earlier one succeeded; a failure returns the failing call's code; a success ran the whole plan |
| Lifecycle.StopAtFailure | midi.cpp:335-443 | a run stops at the first failing call with that call's code |
| Lifecycle.StopAtEnd | midi.cpp:446 | a run whose every call succeeds runs the whole plan and returns S_OK |
| Lifecycle.SetupParts | midi.cpp:325-400 | the set-up plan has 12 calls plus the instrument part, laid out as opening, listing, audio and instrument calls |
| Lifecycle.AudioCalls | midi.cpp:357-389 | DirectSoundCreate8 on the selected device, SetCooperativeLevel(DSSCL_PRIORITY), the primary buffer with PRIMARYBUFFER, CTRLVOLUME and CTRLPAN, SetFormat with the primary-buffer format, then SetDirectSound |
| Lifecycle.InstrumentCalls | midi.cpp:391-400 | LoadObjectFromFile of the DLS collection unless the path is "-", then the DirectMusic and DirectSound QueryInterface calls |
| Lifecycle.SetupPlan | midi.cpp:325-400 | the set-up order of Initialise: `OpenCalls` (console window, CoInitializeEx, loader, performance, DirectMusic), `ListCalls` (the two enumerations), the audio calls, then the instrument calls |
| Lifecycle.ModePlan | midi.cpp:402-444 | a negative MIDI index gives InitAudio(SHARED_STEREOPLUSREVERB, 16); any other gives CreatePort on the searched caps, GetCaps, Init, AddPort and Activate(TRUE) |
| Lifecycle.InitPlan | midi.cpp:325-444 | the whole plan of Initialise: the set-up on the device the index selects, then the calls of the mode |
| Lifecycle.DefaultPathMode | midi.cpp:402-425 | a negative MIDI index ends with InitAudio on the shared stereo-plus-reverb path with 16 channels; no port is created, added, initialised or activated |
| Lifecycle.ExplicitPortMode | midi.cpp:426-444 | a non-negative MIDI index ends with CreatePort on the searched GUID and parameters, then GetCaps, Init, AddPort, Activate(TRUE); InitAudio is never called |
| Lifecycle.FormatBeforePerformance | midi.cpp:385-436 | the buffer format is set and DirectSound is bound to DirectMusic before the performance is initialised in either mode |
| Lifecycle.InitAcquires | midi.cpp:323-447 | a fully successful Initialise holds loader, performance, music and sound objects, buffer and both aliases; the collection exactly when a DLS path other than "-" was given; the port exactly in explicit-port mode |
| Lifecycle.InitPlanReleaseFree | midi.cpp:323-447 | no call that Initialise can make is a Release |
| Lifecycle.ListPlan | midi.cpp:449-474 | the plan of ListDevices: CoInitializeEx, performance, DirectMusic, then the two enumerations |
| Lifecycle.PlayPlan | midi.cpp:486-517 | the plan of PlayMidi: LoadObjectFromFile of the segment, Download, then PlaySegment(AFTERPREPARETIME) only when the performance is held |
| Lifecycle.Released | midi.cpp:66-105 | the slots released by the first i blocks of the teardown include each slot of those blocks |
| Lifecycle.TeardownStep | midi.cpp:68-105 | one block of ShutdownDirectMusic: nothing for a NULL slot; Unload then Release for the segment, CloseDown then Release for the performance, Release alone for any other slot |
| Lifecycle.TeardownSteps | midi.cpp:66-105 | the blocks of an order of slots, one after another |
| Lifecycle.TeardownCalls | midi.cpp:66-107 | ShutdownDirectMusic: the blocks in `TeardownOrder` (segment, buffer, port, collection, loader, sound object, music object, performance), then CoUninitialize; the aliases in `Unreleased` have no block |
| Lifecycle.ReleasedNext | midi.cpp:66-105 | each teardown block releases one slot, which no earlier block released |
| Lifecycle.ReleasedAll | midi.cpp:66-105 | the whole teardown releases every slot except the two QueryInterface aliases |
| Lifecycle.TeardownComplete | midi.cpp:66-106 | the eight blocks followed by CoUninitialize are the calls of ShutdownDirectMusic, and they leave only the aliases held |
| Lifecycle.TeardownStepsConcat | midi.cpp:66-105 | the teardown calls of two consecutive parts of the order are the concatenation of their calls |
| Lifecycle.Keep | midi.cpp:66-105 | the held slots of an order, in that order |
| Lifecycle.ReleasesOfSteps | midi.cpp:66-105 | the teardown blocks release the held slots of the order, in order |
| Lifecycle.TeardownReleaseOrder | midi.cpp:66-107 | ShutdownDirectMusic releases exactly the held slots in the order segment, buffer, port, collection, loader, sound object, music object, performance |
| Lifecycle.TeardownReleasesOnce | midi.cpp:66-107 | each held slot is released exactly once; unheld slots and the aliases are never released |
| Lifecycle.TeardownBrackets | midi.cpp:68-106 | a held segment is first unloaded from the performance, then released; a held performance is closed down, then released, and CoUninitialize comes last |
| Lifecycle.SecondTeardownReleasesNothing | midi.cpp:66-107 | a second ShutdownDirectMusic releases nothing and only calls CoUninitialize |
| Session.Session.Held | midi.cpp:28-37 | the held slots are exactly the non-NULL pointers |
| Session.Session.constructor | midi.cpp:28-38 | every pointer is NULL, no device is listed, and the external flag is FALSE |
| Session.Session.SetSlot | midi.cpp:338-400 | a COM out-pointer holds the object on success and NULL on failure |
| Session.Session.Issue | midi.cpp:335-443 | one platform call is logged, its result returned, and its slot written as `Effect` says |
| Session.Session.Step | midi.cpp:335-443 | one call of a plan: on failure the run has halted at it; on success the log and slots are those of one more call |
| Session.Session.EnumeratePorts | midi.cpp:109-142 | appends exactly `PortNames(ports)` to the port list and keeps what was there |
| Session.Session.Enumerate | midi.cpp:349-355 | the two enumerations append the reported devices and port names and never stop the run |
| Session.Session.OpenSession | midi.cpp:325-347 | console window, CoInitializeEx, loader, performance and DirectMusic, stopping at the first failure |
| Session.Session.Discover | midi.cpp:325-355 | the opening calls then the enumerations; the device lists grow exactly when the opening calls succeeded |
| Session.Session.OpenAudio | midi.cpp:357-389 | DirectSoundCreate8 on the selected device, cooperative level, primary buffer, its format, and SetDirectSound, stopping at the first failure |
| Session.Session.LoadInstruments | midi.cpp:391-400 | the DLS collection unless the path is "-", then the two QueryInterface calls, stopping at the first failure |
| Session.Session.SetUp | midi.cpp:325-400 | the set-up part of Initialise, in order, halting at the first failure |
| Session.Session.CreateMusicPort | midi.cpp:235-274 | CreatePort with the built parameters and GetCaps; a failure of either returns its code; on success the flag follows `ExternalAfter` of the queried caps |
| Session.Session.StartPort | midi.cpp:436-443 | Init, AddPort and Activate(TRUE), stopping at the first failure |
| Session.Session.OpenPort | midi.cpp:426-444 | the searched caps, CreateMusicPort, then the start of the port; the port slot holds the created port exactly when CreatePort succeeded |
| Session.Session.ChooseMode | midi.cpp:402-446 | a negative MIDI index runs InitAudio, any other index opens the searched port |
| Session.Session.Initialise | midi.cpp:323-447 | the log grows by the short-circuit run of the plan of the chosen mode and the slots are the replay of that run; the device lists grow exactly when the enumerations ran; the port and external flag are set only in explicit-port mode |
| Session.Session.OpenListing | midi.cpp:454-464 | CoInitializeEx, performance and DirectMusic, halting at the first failure; the port, flag and device lists are unchanged |
| Session.Session.ListDevices | midi.cpp:449-474 | CoInitializeEx, performance and DirectMusic, stopping at the first failure, then both enumerations and S_OK |
| Session.Session.FetchSegment | midi.cpp:487-493 | LoadObjectFromFile then Download, halting at the first failure; on success the segment is held in addition to what was held |
| Session.Session.LoadAndPlay | midi.cpp:486-517 | load the segment, download it, and play it when the performance is held, stopping at the first failure |
| Session.Session.PlayMidi | midi.cpp:476-518 | an external port gives E_FAIL with no call made and no slot changed (the segment is not loaded); otherwise the playback plan runs |
| Session.Session.ReleaseSlot | midi.cpp:68-105 | one teardown block: a held slot is released (after Unload for the segment, after CloseDown for the performance) and set to NULL |
| Session.Session.LogRelease | midi.cpp:68-105 | the calls of one teardown block are logged: Unload before the segment's Release, CloseDown before the performance's, and nothing when the slot is NULL |
| Session.Session.ReleaseMedia | midi.cpp:68-86 | the segment, buffer, port and collection blocks; the port is NULL afterwards |
| Session.Session.ReleaseObjects | midi.cpp:87-105 | the loader, sound object, music object and performance blocks |
| Session.Session.Uninitialise | midi.cpp:106 | CoUninitialize changes no slot |
| Session.Session.ShutdownDirectMusic | midi.cpp:66-107 | the log grows by exactly the teardown calls of the held slots, and afterwards only the aliases can be held, the port being NULL |
| Version.SplitVersion | midi.cpp:592-599 | the four words recombine into the two version DWORDs |
| Version.SplitMakeLong | midi.cpp:596-599 | each part placed in its word comes back unchanged |
| Version.WordsOfMakeLong | midi.cpp:596-599 | HIWORD and LOWORD recover the high and low words of a DWORD |
| Program.ListMode | midi.cpp:745-797 | no argument: the log is the reference run of the listing plan followed by the teardown of the slots it left; the audio devices and port names reported are appended exactly when the listing succeeded; the external flag is unchanged; only the aliases stay held and the port is NULL; the exit code is 1 when listing failed and 0 otherwise |
| Program.StartListing | midi.cpp:787 | on an empty log ListDevices makes the reference run of the listing plan and returns its result; the slots are its replay, and the device lists grow by what the enumerations report exactly when it succeeded |
| Program.ListingReachesEnumeration | midi.cpp:449-474 | the listing reaches the two enumerations exactly when it succeeds, since they come last and never fail |
| Program.FreshInitPlan | midi.cpp:825 | the plan Initialise runs on a fresh session: the device lists are those the host reports, and the caps are those the ordinal search finds |
| Program.StartSession | midi.cpp:825 | on a fresh session Initialise gives the reference run of its plan; after success loader and performance are held and the flag is set exactly for an external explicit port |
| Program.InitialisedSession | midi.cpp:323-447 | a successful Initialise ran its whole plan, holds loader and performance, and ran GetCaps in explicit-port mode |
| Program.PlayCalls | midi.cpp:476-518 | none of the calls PlayMidi makes is a Release, whether the port is external (no call) or not (the reference run of the playback plan) |
| Program.DsPlay | midi.cpp:836 | the playback calls of a "DS" run, the flag being set exactly for an external explicit port |
| Program.PlayOutcome | midi.cpp:476-518 | what PlayMidi leaves in the log and the slots is `PlayCalls` and its replay, and it fails exactly when the port is external or the reference run fails |
| Program.Play | midi.cpp:836 | the log grows by exactly `PlayCalls` of the session's flag, the slots become the replay of those calls, the flag, the port and the device lists are unchanged, and playback fails exactly when the port is external or the reference run of the playback plan fails |
| Program.Close | midi.cpp:66-107 | the log grows by exactly the teardown calls of the slots held before, only the aliases held before stay held, the port is NULL, and CoUninitialize was the last call |
| Program.PlayAndClose | midi.cpp:830-842 | the log grows by the playback calls then the teardown calls of the slots they leave; the slots end as those less everything but the aliases; 0 exactly when the port is not external and playback succeeds, 2 otherwise |
| Program.DsActive | midi.cpp:825-836 | none of the calls of a "DS" run before its teardown (the Initialise run, then the playback calls when it succeeded) is a Release |
| Program.DsHeld | midi.cpp:825-836 | the slots held before the teardown of a "DS" run: the replay of the Initialise run, then of the playback calls when Initialise succeeded |
| Program.DsLog | midi.cpp:805-842 | the whole log of a "DS" run: the calls before teardown, then the teardown of the slots they leave |
| Program.DirectSoundMode | midi.cpp:805-842 | exit 1 exactly when Initialise fails, otherwise 2 when the port is external or playback fails and 0 when it succeeds; the whole log is the Initialise run, the playback calls if any, and the teardown of the slots they leave, after which only aliases are held and the port is NULL |
| Program.DsRunReleasesOnce | midi.cpp:805-842 | in the whole log of a "DS" run the releases are the held slots in teardown order, each released exactly once, and an alias never |
| Program.RunCommandLine | midi.cpp:733-874 | argument dispatch: no argument gives the listing log and exit code, lists the reported devices and port names exactly when the listing succeeded, and leaves the flag FALSE; "DS" with fewer than four arguments, "MM" and an unknown mode make no DirectMusic call and exit 1 (or the WinMM result for "MM"); "DS" gives the whole log, slots and exit code of the DirectSound mode |

## Left out

- The platform calls themselves are not modelled. The host supplies their results and their reported data (device lists, port answers, queried caps).
- Asynchronous playback and the blocking `std::cin.get()` wait are not modelled.
- Console output is not modelled: `print_result`, `PrintWin32Error`, and the DLS, audio-path and software-synth messages of `CreateMusicPort`.
- `ListMidiOutDevicesWithWinmm`, `testDefaultMidiOut` and `playMidiWithWinmm` are not modelled; in `main` the WinMM result is the parameter `winmm`. `playMidiWithWinmm` can also end without a return statement.
- `GetLibraryVersion` is not modelled apart from its word split; its file-version APIs and `swprintf_s` are left out. `main` prints the versions only.
- `convertWCharToStdStringWinAPI` (`midi.cpp:54-63`, used at `midi.cpp:125`) is not modelled: a port name is the raw `description` of its caps, without the wide-to-UTF-8 conversion or the `std::invalid_argument` thrown when `WideCharToMultiByte` returns 0.
- The argument conversion is not modelled: `atoi` is a parameter, and `MultiByteToWideChar` into `MAX_PATH` buffers is treated as the identity on the path strings.
- The `DSEnumProc` callback keeps the enumerator's GUID pointer rather than its copy. The model treats each device's identifier as a plain value.
- The apartment semantics of `CoInitializeEx`/`CoUninitialize` are not modelled. `CoInitializeEx` is one call with a host-given result.
- `InitAudio` receives `&pDirectMusicG` and `&pDirectSoundG` (`midi.cpp:423`), and `Init` receives `&pDirectMusicG` (`midi.cpp:436`); either may overwrite the aliases it receives. The model keeps both alias slots as the QueryInterface calls left them.
- The log does not record every platform call one by one. `DirectSoundEnumerate` (`midi.cpp:170`) is the single entry `ListAudioDevices`, and the per-ordinal `EnumPort` calls of `EnumeratePorts` (`midi.cpp:122`) are the single entry `ListPorts`. The `EnumPort` calls of the ordinal search (`midi.cpp:297`) are not logged: `GetPortCapsByIndex` returns their number, and `OpenPort` drops it. None of these calls can stop a run or set a slot.
- That a failing call leaves its out-pointer NULL (`Effect`, `SetSlot`) is the COM out-pointer convention of `CoCreateInstance`, `DirectSoundCreate8`, `CreateSoundBuffer`, `LoadObjectFromFile`, `QueryInterface` and `CreatePort`. The model assumes it; `midi.cpp` does not enforce it.
- The aliases `pDirectMusicG` and `pDirectSoundG` that the QueryInterface calls at `midi.cpp:397-400` set are never released by `ShutdownDirectMusic` (`midi.cpp:66-107`). The model keeps this as written: `TeardownReleasesOnce` and `DsRunReleasesOnce` state that an alias is never released.
- Session.Session.Initialise: requires the two indices to fall inside the device lists when they are non-negative. `midi.cpp:363` and `midi.cpp:430` read those names without a bounds check, and a larger index reads outside the vectors; the model does not say what that read does. The device selection itself (`GetDeviceGuidByIndex`) turns an out-of-range index into the default device rather than an error.
- Program.DirectSoundMode: requires the same index bounds, stated over the host's lists (`IndicesListed`).
- Program.RunCommandLine: does not tear down on the argument-count error, on an unknown mode or in "MM" mode, because `main` does not either. Those paths return 1 (or the WinMM result) without a DirectMusic call.
- Session.Session.ReleaseSlot: the port handle it passes when clearing a slot is a placeholder. Clearing ignores it.
- Devices.GetPortCapsByIndex: `dwIndex` is unbounded. The DWORD counter could only wrap after 2^32 Ok answers, which the model does not consider.
