# Audio HAL and camera wrapper: a Dafny model

This project models the two stateful parts of the device tree that carry the most logic, and proves what
they promise.

The **audio HAL** (`audio/audio_hw.c`) moves use cases between sound devices, counts the users of each
device, applies and resets mixer paths, keeps the PCM handles of voice calls and Bluetooth SCO legs, locks
its streams in a documented order, turns whole kernel periods into reads of any length, and sleeps when a
device fails so that a failing stream keeps real time.

The **camera wrapper** (`camera/CameraParameters.cpp`, `camera/Camera2Wrapper.cpp`) passes every parameter
string through an unflatten and a flatten, reads and writes numbers, sizes and lists of sizes as text, and
defers a preview that is started before it has a window.

## How the model is laid out

| file | what it holds |
|---|---|
| `SndDevices`, `PcmProfiles` | the route selectors, the PCM profiles and the capture buffer size: the parts that only compute |
| `DeviceChoice` | which device the selectors pick, by the bits of the masks |
| `Board`, `BoardProperties` | reference counts, listed use cases and mixer log; what enabling, disabling, routing and selecting keep |
| `CallSession` | the PCM handles of a call and of its SCO leg |
| `Hal`, `HalProperties` | one step for each entry point that changes routing, and what every run keeps |
| `HalSelection`, `HalOutcomes` | where select_devices puts a use case and what it moves along, and what each entry point leaves behind |
| `MixerPaths` | exactly when a stop or a selection leaves a mixer path out of step, one device at a time |
| `MixerOrder` | in which order paths change when playback switches devices |
| `HalCards`, `HalMixer`, `HalCallRouting` | PCM devices that match stream devices, mixer agreement over steps and runs, and routing during a call |
| `HalScenarios` | runs from the opened device that end where the code falls short |
| `AudioDevice` | the same code in its own form: a class whose methods update the fields in place, each proved equal to its function in `Board`, `CallSession` or `Hal`; the entry points keep the invariant |
| `Locks` | every lock path, any number of threads and streams, no deadlock |
| `CaptureBuffer`, `Pacing` | the capture buffer and the sleeps, as functions and as classes with arrays and fields |
| `CStrings`, `Numerals`, `SizeList` | strings, `%d` and `strtol`, pairs and size lists |
| `ParamMap`, `CameraParameters` | the parameter vector, its text form, and the class |
| `Camera2Wrapper` | the preview state machine |

A mutable object of the source is a class here; its methods are tied by `ensures` to specification
functions, and the theorems are about those functions. A *run* is any sequence of entry points with any
outcomes of the kernel calls: whether a PCM device becomes ready, whether a read or write fails, which audio
mode comes next, and what is read through a stream pointer of the wrong type (`junk`, see below).

## What is proved

* In every reachable state the reference counts are exact, the playback use cases that are on a device
  share one, a stream runs exactly when its use case is listed (then once), a running playback stream was
  started on the devices it is set to now, a running capture stream shares a device with its profile, the
  call flags tell exactly which handles are open, and in normal mode no call is up.
* For every mode, source and mask the selectors pick the device of the mode's or the source's family at the
  first place in its order that the masks have (`DeviceChoice.OutputIs`, `DeviceChoice.InputIs`), and
  `select_devices` puts every use case there, with what it takes along (`HalSelection`). What each entry point
  leaves in streams, mode, call and SCO leg is told by the state before and the kernel's answers
  (`HalOutcomes`).
* The mixer paths applied and not since reset are those of the devices in use at every boundary of a run
  exactly when no step of it misses one (`HalMixer.RunAgreesIff`), and which steps miss one is stated by a
  guard on the state before them, whatever cards the use cases have (`HalMixer.StepAgreesIff`). A run in
  which every listed use case has the card misses none (`HalMixer.PathsShowUse`).
* In every run in which no start of a call fails, a call is listed exactly when it is up, and from a start on
  everything active is on the devices of the call while the mode stays IN_CALL
  (`HalCallRouting.CallRunRoutes`). The exact condition under which the start of a call misses a stream is
  stated (`HalCallRouting.CallStartRoutesIff`).
* Any number of threads on any streams never deadlock, and all calls finish; every entry point holds the locks
  that guard what it changes when it takes the device lock.
* Reads deliver exactly what the kernel gave, in order, and fail exactly when a kernel read they need fails;
  failing streams keep real time.
* The parameter codec gives back every map that can be made, the wrapper's fixups keep the meaning of every
  string, and numbers, sizes and lists of sizes read back as they were written.
* What reaches the camera vendor is told by the calls of the session, call by call.

## Where the code falls short of what it is for

Each of these is proved of the model; the model follows the code.

* **A failed call start leaves its entry listed** (`audio/audio_hw.c:1719-1730`). The counts survive it. The
  next start routes through that stale entry, and `select_devices` returns early when the entry already has
  the pair it wants (`audio/audio_hw.c:939-942`); streams that were elsewhere then stay there.
  `CallStartRoutesIff` gives the exact condition and `StaleCallMissesStream` a run from the opened device.
* **A stream on devices that no profile serves has no mixer card** (`audio/audio_hw.c:1363-1392`). When it is
  the first on a sound device, the device is in use and its path is not applied; when it is the last to
  leave one, the path stays applied. `StepAgreesIff` says of every step exactly when that happens, also
  when a selection or the start of a call moves such streams along; `UnservedStartIsSilent` and
  `BareLastStopLeavesPath` are runs.
* **Two paths of the shared backend are live at once while streams switch** unless the old one is reset first,
  although the comment at `audio/audio_hw.c:823-837` rules that out: `SwitchOverlapsIff` gives the exact
  condition, `ThreeStreamsOverlap` three streams that meet it.
* **A switch to no device leaves the others alone** (`audio/audio_hw.c:961-970`): playback use cases may
  differ in that one of them is on NONE. `BackendIsShared` is about those that are not.
* **The receive handle is closed while it is NULL** when the transmit device of a call does not open
  (`audio/audio_hw.c:1719-1730`): exactly then, by `StartVoiceClosesNullIff`.
* **A read that fails drops the frames it took before the error** (`audio/audio_hw.c:1104-1150`):
  `ReadFailsIff` says when a read fails, `FailedReadLosesIff` when it loses anything, `ReadStopsAt` how many
  frames, and `FailedReadCanLose` is such a read.
* **The type of a playback use case is 0** (`audio/audio_hw.h:185-189`), so the lookup at
  `audio/audio_hw.c:710` finds nothing and the rx device is never cycled: `PlaybackLookupFindsNothing`.
* **`stop_preview` does not take a deferred start back** (`camera/Camera2Wrapper.cpp:223-231`):
  `StopsDoNotCancel`.
* **A pair may lack its numbers**: "x" is accepted as 0 by 0 and "1x" as 1 by 0
  (`camera/CameraParameters.cpp:445-468`). `WholePairIff` says which pieces are pairs.
* **Joining flattened maps with ';' merges them only if the first is not empty or the second is**:
  `JoinMergesIff`.

## Model

| member | source | states |
|---|---|---|
| SndDevices.CallEndsAgree | audio/audio_hw.c:422-665 | in IN_CALL mode, whenever the output selector finds a device for a mask, both selectors find in-call devices, of the same band and with Bluetooth on both ends or on neither; the band is the one of the network or of the headset |
| DeviceChoice.OutputIs | audio/audio_hw.c:422-518 | for every mask and mode, device d is picked exactly when d is of the group of the mode, on the right band, and its place is the first that the mask has in the order of the mode: Bluetooth, wired, speaker, earpiece in a call; wired, Bluetooth, speaker, earpiece in communication mode; otherwise the one bit, or the speaker with a wired device |
| DeviceChoice.InputIs | audio/audio_hw.c:520-665 | for every mode, source and pair of masks, device d is picked exactly when a microphone is wanted, d is of the family of the mode or the source and at the first place of its order that the masks have; or, when they have none of it, d is plain and at the first place of the default order of the capture mask or of the output mask |
| DeviceChoice.TagsAreDistinct | audio/audio_hw.h:53-111 | a group, a place and a band name one device |
| SndDevices.OutputChosenIff | audio/audio_hw.c:422-518 | a mask has a sound device exactly when it is no input mask and, in a call or in communication mode, has a known bit, or otherwise is one known bit or the speaker with a headset or headphones |
| SndDevices.InputMissingIff | audio/audio_hw.c:520-665 | there is no microphone exactly in a call without output devices, and outside calls and communication mode for the default source or no stream |
| SndDevices.CallInputIs | audio/audio_hw.c:520-570 | the in device of a call that has an out device depends on the devices and the bands alone, not on what is read through the active input |
| PcmProfiles.FirstServing | audio/audio_hw.c:376-392 | the first profile of the kind that has all the devices, and none only if none has |
| PcmProfiles.ServedIff | audio/audio_hw.c:92-160 | which masks have a profile, by their bits, for playback and for capture |
| PcmProfiles.InputBufferSize | audio/audio_hw.c:1733-1786 | the frame count is the least multiple of 16 not below period * rate / profile rate, no 32-bit product wraps, the byte size is frames times frame size and positive, and a rejected request, and only one, gives 0 |
| Board.FromId | audio/audio_hw.c:394-406 | the first entry with the id, and none only if there is none |
| Board.FromType | audio/audio_hw.c:408-420 | the first entry whose type bit is in the mask, and none only if there is none |
| BoardProperties.MarkedExactly | audio/audio_hw.c:837-853 | marking by id marks exactly the entries to move: an entry's id is marked if and only if that entry is another of the kind on another device |
| BoardProperties.PlaybackLookupFindsNothing | audio/audio_hw.c:704-740 | the lookup for PCM_PLAYBACK fails in every list, so the rx-cycling branch never runs |
| BoardProperties.EnableKeepsExact | audio/audio_hw.c:675-702 | enabling a device for an entry that was on none keeps every count equal to the number of users |
| BoardProperties.DisableKeepsExact | audio/audio_hw.c:704-740 | disabling the device of an entry keeps every count equal to the number of users |
| BoardProperties.CheckAndRouteList | audio/audio_hw.c:812-871 | the two passes together move every other entry of the kind that is elsewhere to the device, and change nothing else in the list |
| BoardProperties.CheckAndRouteKeepsExact | audio/audio_hw.c:812-871 | the passes keep the counts exact while the entry being served has already given up its devices |
| BoardProperties.AssignList | audio/audio_hw.c:939-983 | unless it returns early, select_devices leaves the entry on the new pair, every other playback on the new out device and every other capture on the new in device (where these are not NONE), and everything else as it was |
| BoardProperties.AssignKeepsSound | audio/audio_hw.c:939-983 | select_devices keeps exact counts, unique streams, devices of the right direction and the shared playback device |
| BoardProperties.DropKeepsSound | audio/audio_hw.c:1168-1198 | stopping a use case unlists it, gives back exactly its devices and keeps the board sound |
| BoardProperties.AppendKeepsSound | audio/audio_hw.c:1465-1488 | listing a use case on no device keeps the board sound |
| BoardProperties.EnableAgreesIff | audio/audio_hw.c:686-699 | a path is applied on 0 to 1 only, and live paths stay the devices in use exactly when the entry has the mixer card or the device was in use |
| BoardProperties.DisableAgreesIff | audio/audio_hw.c:717-738 | a path is reset on 1 to 0 only, and live paths stay the devices in use exactly when the entry has the mixer card or is not the last user |
| BoardProperties.AssignAgrees | audio/audio_hw.c:939-983 | when every listed use case has the mixer card, select_devices keeps live paths equal to devices in use |
| MixerPaths.MoveMarkedSpot | audio/audio_hw.c:854-869 | the second pass is, for each device, one fall for each marked entry that leaves it or one rise for each that comes, in list order, with the card of that entry |
| MixerPaths.AssignAgreesIff | audio/audio_hw.c:939-983 | select_devices keeps paths equal to devices in use exactly when it returns early or misses no path: the first to come to an empty device has the card, and so has the last to leave one |
| MixerPaths.DropAgreesIff | audio/audio_hw.c:1446-1463 | a stop keeps paths equal to devices in use exactly when the entry has the card or somebody stays on its device |
| MixerPaths.AssignMends | audio/audio_hw.c:939-983 | a path left applied without users comes back in step exactly when the selection brings a first user without the card to its device |
| MixerOrder.SwitchOrder | audio/audio_hw.c:854-869 | when a playback stream switches between two devices that no call is on, exactly two paths change, and the old one is reset before the new one is applied exactly when nobody else is on it, or one stream is and comes first |
| MixerOrder.SwitchOverlapsIff | audio/audio_hw.c:823-837 | the paths of both devices are live at some point of such a switch exactly when the old one is not reset first |
| MixerOrder.ThreeStreamsOverlap | audio/audio_hw.c:823-869 | with three streams on the speaker the headphones path is applied before the speaker path is reset |
| CallSession.StartScoMatched | audio/audio_hw.c:1589-1649 | from matched flags and handles the SCO start gives matched ones, and the flag holds afterwards exactly when it held before or both devices opened |
| CallSession.StopScoMatched | audio/audio_hw.c:1526-1541 | the SCO stop closes its handles and clears its flag, and keeps flags and handles matched |
| CallSession.StartVoiceMatched | audio/audio_hw.c:1683-1731 | a call is up after a start exactly when both voice devices opened; flags and handles match, nothing leaks, is overwritten or closed twice, and a failure leaves nothing open, the SCO leg included |
| CallSession.StartVoiceLeg | audio/audio_hw.c:1683-1731 | a call that starts has its SCO leg exactly when both voice devices opened and the leg was up before, or is wanted and opened too |
| CallSession.StartVoiceClosesNullIff | audio/audio_hw.c:1719-1730 | the start closes a NULL handle exactly when the transmit device did not open |
| CallSession.StopVoiceMatchedIff | audio/audio_hw.c:1543-1587 | the stop closes every handle, and leaves flags and handles matched exactly when the use case is listed or no call was up |
| HalProperties.SelectSound | audio/audio_hw.c:873-983 | whatever use case is selected in whatever state, recursive selection of the capture stream included, the board stays sound and the list keeps its ids |
| HalProperties.StartSound | audio/audio_hw.c:1200-1330 | a start lists the stream exactly when it succeeds, across every failure, touches no other entry's listing and keeps the board sound |
| HalProperties.StopCallInvariant | audio/audio_hw.c:1543-1587 | a stop while in_call finds its use case, and the call is down afterwards with the invariant kept |
| HalProperties.StepInvariant | audio/audio_hw.c:1831-2473 | every entry point keeps sound boards, matched handles, standby matching the list, and a listed use case for a call that is up |
| HalProperties.CountsAreExact | audio/audio_hw.c:675-983 | in every reachable state snd_dev_ref_cnt[d] is the number of listed use cases on d, and 0 for NONE |
| HalProperties.BackendIsShared | audio/audio_hw.c:812-983 | in every reachable state any two listed playback use cases that are on a device at all are on the same one |
| HalProperties.StandbyIsListing | audio/audio_hw.c:1831-1839 | in every reachable state a stream is out of standby exactly when its use case is listed, and then it is listed exactly once |
| HalProperties.QuietCountsNothing | audio/audio_hw.c:1168-1198 | with every stream in standby and no call entry listed, every count is 0 |
| HalProperties.HandlesMatchFlags | audio/audio_hw.c:1526-1731 | in every reachable state in_call holds exactly when both voice handles are open, in_call_sco exactly when both SCO handles are, every open gave a new handle, no handle was closed twice or lost, and a call that is up has its use case |
| HalProperties.NormalModeHasNoCall | audio/audio_hw.c:2772-2798 | in every reachable state in normal mode no call is up and both voice handles are closed |
| HalProperties.PlaybackGoesWhereAsked | audio/audio_hw.c:910-970 | outside a call a selected playback stream ends on the device of its own mask; if that is a new device every other playback goes there too, and if it is NONE the others stay |
| HalProperties.CaptureLeavesPlayback | audio/audio_hw.c:925-937 | selecting the capture stream changes no playback entry |
| HalSelection.ActiveInputIsFirst | audio/audio_hw.c:885-888 | the lookup for captures and calls finds the first listed use case that is not playback |
| HalSelection.PlaybackIsRouted | audio/audio_hw.c:897-983 | entry by entry: a selected playback stream goes to the leading call's device or to its own; the capture stream goes to its target exactly when the primary output takes it along, and otherwise stays; calls stay; other playback follows to a new device |
| HalSelection.CaptureIsRouted | audio/audio_hw.c:925-937 | a selected capture stream goes to the leading call's in device or to its own microphone, chosen beside the primary output exactly when that runs and the source is a voice communication; no other entry moves |
| HalSelection.CallIsRouted | audio/audio_hw.c:893-897 | the first call listed goes to the two devices the selectors pick for the primary output |
| HalOutcomes.WriteOutcome | audio/audio_hw.c:1995-2104 | after a write the stream runs and is listed exactly when the write succeeded and the stream had been running, or its device opened, or no profile serves it; no other stream, mode or session changes |
| HalOutcomes.ReadOutcome | audio/audio_hw.c:2386-2473 | after a read the capture stream runs exactly when the read succeeded and it had been running, or a profile serves it and its device opened: a failed read ends in standby; nothing else changes |
| HalOutcomes.StandbyOutcome | audio/audio_hw.c:1831-1858 | the stream is in standby and unlisted, and nothing else changes |
| HalOutcomes.InStandbyOutcome | audio/audio_hw.c:2246-2295 | likewise for the capture stream |
| HalOutcomes.OutParametersOutcome | audio/audio_hw.c:1868-1904 | a routing value that is not empty is stored and stops a running stream exactly when it differs; no other stream or mode changes; an empty one changes nothing |
| HalOutcomes.OutParametersRoute | audio/audio_hw.c:1896-1904 | outside a call mode a running stream that keeps its devices is put on its target again |
| HalOutcomes.ScoOutcome | audio/audio_hw.c:1905-1913 | outside IN_CALL, in_call_sco holds afterwards exactly when the devices have a Bluetooth bit and it held before, or the mode is communication, no leg was asked for and both SCO devices opened; in_comm_sco and the handles follow, and the call is untouched |
| HalOutcomes.CallOutcome | audio/audio_hw.c:1915-1922 | in IN_CALL, routing the primary output starts a call that is down, or one that is up when the devices change: it is up exactly when both voice devices opened, with its SCO leg exactly when Bluetooth is among the devices and the leg was left up or opened; any other routing leaves the call |
| HalOutcomes.ModeOutcome | audio/audio_hw.c:2772-2798 | normal mode brings a call down with every handle closed and its first use case dropped; any other mode changes nothing but itself |
| HalOutcomes.InParametersOutcome | audio/audio_hw.c:2305-2367 | source and devices are stored unless default or empty, and a running stream stops exactly when its devices change to ones that share no microphone with the profile |
| HalOutcomes.InParametersRoute | audio/audio_hw.c:2305-2367 | a running stream whose new devices share one goes to the target of its new source and devices |
| HalOutcomes.StartedPlaybackIsRouted | audio/audio_hw.c:1465-1524 | a playback stream that starts is listed last, on its target |
| HalOutcomes.StartedCaptureIsRouted | audio/audio_hw.c:1200-1330 | a capture stream that starts is listed last, on its target |
| HalMixer.PathsShowUse | audio/audio_hw.c:686-738 | after any run in which every listed use case has the mixer card at every boundary, a path is applied exactly when a listed use case is on its device, and all along it was applied only when not live and reset only when live |
| HalMixer.StepAgreesIff | audio/audio_hw.c:1831-2473 | from any state in which paths agree with devices in use, whatever cards the use cases have, one entry point keeps the agreement exactly when its guard on that state says it misses no path: starts, stops, reroutes and starts of a call, each with its own guard |
| HalMixer.RunAgreesIff | audio/audio_hw.c:686-738 | paths agree with devices in use at every boundary of a run from the opened device exactly when no step of the run misses |
| HalScenarios.UnservedStartIsSilent | audio/audio_hw.c:1363-1392 | in communication mode the first stream, on the earpiece and a device no profile has, counts its sound device in use while its path is not applied |
| HalScenarios.BareLastStopLeavesPath | audio/audio_hw.c:1446-1463 | two streams play on the speaker, the one with the card stops first and everything still agrees, and the stop of the other leaves a path applied that nobody uses |
| HalCards.CardsAreCurrent | audio/audio_hw.c:1868-1932 | in every reachable state a listed playback stream has the mixer card exactly when a profile serves the devices it is set to now, since a change of devices always stops it first; calls and capture streams always have it |
| HalCards.CaptureIsOnProfile | audio/audio_hw.c:2305-2367 | in every reachable state a running capture stream shares a device with its profile: a change that leaves none in common stops it |
| HalCallRouting.CallStartRoutes | audio/audio_hw.c:1653-1681 | a successful start that finds no call listed puts every active playback on the call's out device and every active capture on its in device |
| HalCallRouting.CallIsListedOnce | audio/audio_hw.c:1653-1731 | in every run from the opened device in which no start of a call has failed, in whatever modes, a call is listed exactly when it is up, and then once |
| HalCallRouting.CallRunRoutes | audio/audio_hw.c:897-970 | in every such run, from a step that starts a call on and as long as the mode stays IN_CALL, every active stream is on the devices of the call whenever a call with an out device is up, through later starts, stops, reroutes and restarts |
| HalCallRouting.SelectFollows | audio/audio_hw.c:897-937 | while a call is up, the stream that is selected joins the call's devices and no other leaves them |
| HalScenarios.CallCanStart | audio/audio_hw.c:1905-1922 | such runs exist: set the mode to IN_CALL, route the primary output, and a call starts |
| HalCallRouting.CallStartRoutesIff | audio/audio_hw.c:939-942 | after a start that may find a stale entry of a failed one, the streams follow the call exactly when the stale entry is not already on the pair the primary devices select, or they were on it already |
| HalScenarios.StaleCallMissesStream | audio/audio_hw.c:1719-1730 | a run from the opened device: a call start fails, a stream starts on the speaker, the call starts on the earpiece and is up, and the stream is still on the speaker |
| AudioDevice.AudioDevice.EnableSndDevice | audio/audio_hw.c:675-702 | fails exactly for a device without a name, and updates counts and mixer log as Board.Enable |
| AudioDevice.AudioDevice.DisableSndDevice | audio/audio_hw.c:704-740 | fails exactly for a device without a name or a count that is not positive, and updates counts and mixer log as Board.Disable |
| AudioDevice.AudioDevice.MarkMisplaced | audio/audio_hw.c:837-853 | the array of marks is true exactly at the ids of the other entries of the kind that are elsewhere, and the flag says whether there are any |
| AudioDevice.AudioDevice.CheckAndRouteUsecases | audio/audio_hw.c:812-871 | the two loops over the list of objects, with their array of marks, do what Board.CheckAndRoute does on values |
| AudioDevice.AudioDevice.AssignDevices | audio/audio_hw.c:939-983 | disabling, routing and enabling in place is Board.Assign on values |
| AudioDevice.AudioDevice.SelectDevices | audio/audio_hw.c:873-983 | fails exactly when the use case is not listed, and is Hal.SelectDevices on values, recursion included |
| AudioDevice.AudioDevice.DropUsecase | audio/audio_hw.c:1446-1463 | fails exactly when the use case is not listed; otherwise its first entry leaves the list and its devices are disabled |
| AudioDevice.AudioDevice.StartOutputStream | audio/audio_hw.c:1465-1524 | listing, routing, opening and the undoing of the first two when the open fails are Hal.StartOutput on values |
| AudioDevice.AudioDevice.StartInputStream | audio/audio_hw.c:1200-1330 | the same for capture, where devices no profile serves refuse the start before anything changed |
| AudioDevice.AudioDevice.OutStandby | audio/audio_hw.c:1831-1858 | the whole state of the object afterwards is Hal.OutStandby on values, and the invariant of the reachable states is kept |
| AudioDevice.AudioDevice.InStandby | audio/audio_hw.c:2246-2295 | the whole state of the object afterwards is Hal.InStandby on values, and the invariant of the reachable states is kept |
| AudioDevice.AudioDevice.OutWrite | audio/audio_hw.c:1995-2104 | the whole state of the object afterwards starting before a write and standing by after a failed one is Hal.OutWrite on values, and the invariant of the reachable states is kept |
| AudioDevice.AudioDevice.InRead | audio/audio_hw.c:2386-2473 | the whole state of the object afterwards starting before a read and standing by after a failed one is Hal.InRead on values, and the invariant of the reachable states is kept |
| AudioDevice.AudioDevice.OutSetParameters | audio/audio_hw.c:1868-1932 | the whole state of the object afterwards rerouting, the SCO leg outside a call, and the start or restart of a call are Hal.OutSetParameters on values, and the invariant of the reachable states is kept |
| AudioDevice.AudioDevice.InSetParameters | audio/audio_hw.c:2305-2367 | the whole state of the object afterwards is Hal.InSetParameters on values, and the invariant of the reachable states is kept |
| AudioDevice.AudioDevice.StartVoiceCall | audio/audio_hw.c:1653-1731 | listing, routing and opening the handles, with every failure, is Hal.StartCall on values |
| AudioDevice.AudioDevice.StopVoiceCall | audio/audio_hw.c:1543-1587 | fails exactly when the use case is not listed, and is Hal.StopCall on values |
| AudioDevice.AudioDevice.StartVoiceSessionBtSco | audio/audio_hw.c:1589-1649 | is CallSession.StartSco on values |
| AudioDevice.AudioDevice.StopVoiceSessionBtSco | audio/audio_hw.c:1526-1541 | is CallSession.StopSco on values |
| AudioDevice.AudioDevice.SetMode | audio/audio_hw.c:2772-2798 | the whole state of the object afterwards is Hal.SetMode on values: the mode is stored and a call that is up stops when it becomes normal; the invariant is kept |
| Locks.EveryPathIsDisciplined | audio/audio_hw.c:1332-1344 | every path of every entry point takes its locks in strictly increasing rank, releases only what it holds and ends holding nothing |
| Locks.EveryPathIsGuarded | audio/audio_hw.c:1332-1344 | every entry point takes the device lock once for each piece of work on the device, holding exactly the stream lock and, for capture and rerouting, lock_inputs; it takes its stream's lock through pre_lock, but for get_capture_position, and lock_inputs first |
| Locks.StepIsOrderly | audio/audio_hw.h:321-326 | no lock has two holders and every thread can still finish by the documented order, after a new thread, a new call or one action of any thread |
| Locks.DeadlockFree | audio/audio_hw.h:321-326 | in every state that any number of threads on any streams can reach, an unfinished thread means that some thread can take its next step |
| Locks.SchedulesFinish | audio/audio_hw.h:321-326 | once no new call begins every schedule does one unit of work a turn, and one that can go no further has finished every call and freed every lock |
| CaptureBuffer.ServiceIsFaithful | audio/audio_hw.c:1039-1100 | for any provider client that releases no more than it was granted, the frames consumed followed by the unread tail are exactly the periods read, in order |
| CaptureBuffer.ReadDelivers | audio/audio_hw.c:1104-1150 | a read of n frames delivers exactly the next n frames; one that fails leaves an empty buffer and has dropped fewer than n frames |
| CaptureBuffer.ReadFailsIff | audio/audio_hw.c:1104-1150 | a read fails exactly when one of the kernel reads it needs fails, their number being the least that covers what the buffer lacks |
| CaptureBuffer.PeriodsIsLeast | audio/audio_hw.c:1104-1150 | that number of periods is the least that holds so many frames |
| CaptureBuffer.ReadStopsAt | audio/audio_hw.c:1104-1150 | a read makes its kernel reads in order up to the first that fails, number k, and then has dropped the rest of the buffer and k periods |
| CaptureBuffer.FailedReadLosesIff | audio/audio_hw.c:1104-1150 | a read that fails loses no frame exactly when the buffer was empty and its first kernel read failed |
| CaptureBuffer.FailedReadCanLose | audio/audio_hw.c:1104-1150 | asked for one frame more than a period, with the second kernel read failing, a read loses a period |
| CaptureBuffer.CaptureFidelity | audio/audio_hw.c:1104-1150 | until the first error, the frames handed out by any reads of any lengths followed by the unread tail are the concatenation of all periods read |
| CaptureBuffer.StreamIn.GetNextBuffer | audio/audio_hw.c:1039-1086 | the granted slice of read_buf holds the next frames; a closed device gives ENODEV and a failed read its code, both with an empty grant |
| CaptureBuffer.StreamIn.ReleaseBuffer | audio/audio_hw.c:1088-1100 | the released frames leave the front of the tail and everything else stays |
| CaptureBuffer.StreamIn.Read | audio/audio_hw.c:1104-1150 | the front of the caller's buffer holds the frames taken out of the stream, after a failure too, and the rest of it is untouched; the result is the count or the error |
| Pacing.StreamOut.PaceFailedWrite | audio/audio_hw.c:2078-2091 | the stored time becomes the later of now and the stored time plus the duration, which is the time the call returns |
| Pacing.StreamIn.PaceFailedRead | audio/audio_hw.c:2440-2458 | the same for reads, where a stream that ran or has no stored time sleeps a full buffer |
| Pacing.WritesKeepPace | audio/audio_hw.c:2078-2091 | after any failed writes the stored time is the maximum of the first stored time plus all durations and, over k, of now_k plus the durations after it |
| Pacing.ReadsKeepPace | audio/audio_hw.c:2440-2458 | consecutive failed reads take at least their durations from the first one on, and its own too when it sleeps a full buffer |
| Pacing.ReadsPaceAsWrites | audio/audio_hw.c:2440-2458 | after the first, which sleeps a full buffer when the stream ran or no time is stored, consecutive failed reads store exactly the times of failed writes |
| Pacing.DurationIsFloor | audio/audio_hw.c:2078-2091 | the duration is the time of the bytes at the stream's rate, rounded down |
| Numerals.StrtolReadsPrint | camera/CameraParameters.cpp:402-430 | every printed int reads back as itself, in base 10 and in base 0, at any place of any string where no digit (nor, in base 0, an x) follows |
| Numerals.StrtolBaseZero | camera/CameraParameters.cpp:424-430 | in base 0 a text of blanks, a sign or none, and decimal, 0x-hexadecimal or 0-octal digits reads as its value, clamped to long |
| Numerals.ToIntIsLowBits | camera/CameraParameters.cpp:424-430 | the cut to int keeps the value up to a multiple of 2 to the 32 |
| SizeList.ParsePrintedPair | camera/CameraParameters.cpp:445-468 | every printed pair of ints reads back as itself, and the parser stops at its end |
| SizeList.SizesRoundTrip | camera/CameraParameters.cpp:470-493 | every printed list of sizes reads back as itself |
| SizeList.ParsesUpToFirstBad | camera/CameraParameters.cpp:470-493 | on every string the parser keeps exactly the pairs before the first comma-separated piece that is not a pair from end to end |
| SizeList.WholePairIff | camera/CameraParameters.cpp:445-468 | a piece is a pair exactly when it is two numbers with an 'x' between them, where a number is blanks, a sign or none and digits, or is missing and counts as 0; values are clamped to long and cut to int |
| SizeList.MissingNumbersAreZero | camera/CameraParameters.cpp:445-468 | "x" reads as 0 by 0 and "1x" as 1 by 0 |
| SizeList.ParseSizesList | camera/CameraParameters.cpp:470-493 | the loop that pushes into a vector ends and computes ParseSizes; a NULL string gives no sizes |
| ParamMap.RoundTrip | camera/CameraParameters.cpp:330-380 | unflatten after flatten is the identity on maps whose keys have no '=' and whose values have no ';', empty maps, keys and values included |
| ParamMap.LessIsFirstDifference | camera/CameraParameters.cpp:330-348 | the order of the keys is that of strcmp: the first difference decides and a prefix comes first |
| ParamMap.FlattenJoins | camera/CameraParameters.cpp:330-348 | the text is key=value for each entry with ';' between them |
| ParamMap.SortedIsCanonical | camera/CameraParameters.cpp:330-348 | two vectors in key order with the same bindings are the same, so equal meaning is equal text |
| ParamMap.UnflattenIsWellFormed | camera/CameraParameters.cpp:350-380 | whatever text is unflattened, keys have no '=', values no ';', and the vector is in key order without duplicates |
| ParamMap.UnflattenIgnoresTrailingSeparator | camera/CameraParameters.cpp:350-380 | a trailing ';' changes nothing, for every string |
| ParamMap.LastWins | camera/CameraParameters.cpp:350-380 | any text after a flattened non-empty map and a ';' overrides it binding by binding |
| ParamMap.JoinMergesIff | camera/CameraParameters.cpp:350-380 | two flattened maps joined by ';' unflatten to the first overridden by the second exactly when the first is not empty or the second is |
| ParamMap.FixupKeepsMeaning | camera/Camera2Wrapper.cpp:74-101 | the fixed-up string unflattens to the same map as the string, and fixing it again gives the identical string |
| CameraParameters.ReachableRoundTrip | camera/CameraParameters.cpp:330-442 | every map that set, remove and unflatten can make is given back by flatten and unflatten |
| CameraParameters.SetThenGet | camera/CameraParameters.cpp:383-422 | what set stores, get returns (NULL for the empty value), and no other key changes |
| CameraParameters.SetMeans | camera/CameraParameters.cpp:383-400 | set binds the key exactly when neither argument is NULL and neither has '=' or ';', and otherwise leaves every binding |
| CameraParameters.MissingReadsAsNothing | camera/CameraParameters.cpp:416-430 | a key that is missing or bound to the empty text gives NULL, -1, -1 by -1, and no sizes |
| CameraParameters.RemovedReadsAsNothing | camera/CameraParameters.cpp:439-442 | so does a key that was removed, and no other key changes |
| CameraParameters.SizeNeedsAnX | camera/CameraParameters.cpp:445-509 | a text without an 'x' gives -1 by -1 |
| CameraParameters.IntTextReads | camera/CameraParameters.cpp:424-430 | getInt reads decimal, hexadecimal and octal texts, clamped to long and cut to int |
| CameraParameters.IntRoundTrip | camera/CameraParameters.cpp:402-430 | an int set under a key is read back, in spite of base 0, exactly when the key is legal or had that value; no other key changes |
| CameraParameters.SizeRoundTrip | camera/CameraParameters.cpp:445-588 | any two ints set as a size are read back, "0x10" included; no other key changes |
| CameraParameters.SizeSettersAreIndependent | camera/CameraParameters.cpp:495-588 | preview, picture and video sizes set one after the other are all read back |
| CameraParameters.SizesSetRoundTrip | camera/CameraParameters.cpp:470-594 | any list of sizes set as text is read back, the empty one included |
| CameraParameters.CameraParameters.FlattenMap | camera/CameraParameters.cpp:330-348 | the appending loop computes Flatten |
| CameraParameters.CameraParameters.UnflattenText | camera/CameraParameters.cpp:350-380 | the pointer-advancing loop ends on every string and computes Unflatten |
| CameraParameters.CameraParameters.SetText | camera/CameraParameters.cpp:383-400 | a NULL argument, or one with '=' or ';', changes nothing; otherwise the key is bound to the value |
| CameraParameters.CameraParameters.GetText | camera/CameraParameters.cpp:416-422 | the value of the key, or NULL when it is missing or empty |
| CameraParameters.CameraParameters.GetNumber | camera/CameraParameters.cpp:424-430 | strtol in base 0 of the value cut to an int, or -1 |
| CameraParameters.CameraParameters.GetDimensions | camera/CameraParameters.cpp:502-509 | the parsed pair, or -1 and -1 |
| CameraParameters.FixupParameters | camera/Camera2Wrapper.cpp:74-101 | through the class: the fixed-up string means the same and is a fixed point |
| Camera2Wrapper.PreviewDeferral | camera/Camera2Wrapper.cpp:108-221 | in every run a deferred start means no window, the vendor is started only after a window was forwarded in the session, and in no session more often than the client asked in that session |
| Camera2Wrapper.StepInvariant | camera/Camera2Wrapper.cpp:108-453 | every entry point keeps these facts and the null window of a closed device |
| Camera2Wrapper.StopsDoNotCancel | camera/Camera2Wrapper.cpp:223-231 | after any number of stops the window that comes starts the vendor exactly when a start was deferred before them |
| Camera2Wrapper.LogIsTrace | camera/Camera2Wrapper.cpp:108-453 | in every legal run the log is the one the calls tell: a start reaches the vendor exactly when the last window of the session is not null, and otherwise waits for the next one, which is forwarded with one start; stops and releases are forwarded, and a close releases exactly a device the client has not |
| Camera2Wrapper.NothingIsOwed | camera/Camera2Wrapper.cpp:205-221 | in a session in which no start came without a window the vendor was started as often as the client asked |
| Camera2Wrapper.Camera.SetWindow | camera/Camera2Wrapper.cpp:108-130 | stores the window, forwards one that is not null, and then makes up for a deferred start once |
| Camera2Wrapper.Camera.Start | camera/Camera2Wrapper.cpp:205-221 | forwards the start when there is a window and defers it otherwise |
| Camera2Wrapper.Camera.DeviceClose | camera/Camera2Wrapper.cpp:417-453 | releases a device that was not released, closes it and clears window and deferral |

## Left out

- HalProperties.PlaybackGoesWhereAsked: for one select_devices outside a call; HalSelection.PlaybackIsRouted says what every one does.
- HalMixer.RunAgreesIff: about the boundaries of a run; after a step that missed a path, whether a later step mends it is stated for one board operation only (AssignMends).
- Streams are opened before a run begins and closed after it, with at most one open stream for each use-case id. Closing leaves primary_output dangling in the source; module open and close, and callback wiring, are not part of this model.
- A pcm_open never returns NULL (failure shows as a handle that is not ready), allocation and create_resampler succeed.
- The resampler, adjust_channels and audio_route are foreign libraries. read_frames is modelled without a resampler; any client of the buffer provider is covered by ServiceIsFaithful.
- A voice call's stream is an output stream that select_devices also reads as an input stream. What is read through it is an arbitrary value; the recursive selection happens only for a real capture stream.
- RIL calls, modem routing, the noise suppressor, volumes and mutes send values on and read none back.
- An entry point's work under the device lock is one step. The stretches of in_read and out_write outside the lock are in Locks and CaptureBuffer, not in Hal.
- Intrusive list nodes: lists are sequences, so the mixer card node that a second voice-call entry links again is not modelled.
- The devices field of a use case, written and never read after creation, and the use-case type, which follows from the id.
- PCM handles of streams; handles are followed for calls and SCO legs only.
- Nothing is claimed about in_comm_sco after an SCO start that failed.
- Frames are elements, not bytes and channels; the 64-bit unsigned wrap of the pacing arithmetic is not modelled, times are integers.
- Bit numbers of audio_devices_t come from Android's system/audio.h, which is not part of this repository.
- The binary search inside the sorted vector of the parameter class is modelled by the order it keeps. Strings have no NUL. Float settings, formats, frame-rate ranges and dump are left out.
- The copy that the wrapper keeps of the last fixed-up string, its other forwarding calls, and more than one open camera at a time.
- The mutexes of a stream are not destroyed here, and error returns of pthread calls are not modelled.
- init, power, lineagehw, shims, doze, Camera3Wrapper, CameraWrapper and the headers forward values or hold tables.
