# sdr-rx control plane in Dafny

A model of the control plane of sdr-rx, a Qt software radio receiver built on
libsdr. The control plane keeps one session (`Receiver`) with two
controllers:

- the **source controller** (`DataSourceCtrl`) owns exactly one source object
  (line input, stereo I/Q input, WAV file or RTL2832 tuner) and forwards that
  object's output;
- the **channel controller** (`Demodulator`, called `DemodulatorCtrl` in
  `src/receiver.hh:46`; the two names denote the same component) runs a gain
  stage, a channel filter with resampler, one of three demodulators and an
  audio proxy, and keeps the centre frequency and the absolute filter edges.

Once the session is built, every change to the processing graph, and the
resampler change, runs inside a bracket: note whether the scheduler runs, stop
it and wait if it does, make the change, and restart it only if it had been
running. The connections the constructors make themselves
(`src/demodulator.cc:25-26`, `src/receiver.cc:14-19`) run without the bracket,
on a scheduler that has never been started; the constructors' own calls to
`setDemod` and `setSource` do bracket, but find the scheduler stopped. The
bracket does not cover the destruction of a retired source object:
`setSource` only schedules it (`deleteLater`, `src/source.cc:76`) and restarts
the scheduler (`src/source.cc:88`) before the event loop runs it.

Modules, one per file:

- `wrappers.dfy` — `Wrappers`: `Option`.
- `pipeline.dfy` — `Pipeline`: stages (`Node`), connections (`Edge`),
  `connect`/`disconnect`/stage destruction as functions on a set of edges
  (`Link`, `Unlink`, `Detach`), and the classes `Scheduler`, `Graph`,
  `IQBaseBand` and `Agc`, which hold the state the controllers push to.
- `channel.dfy` — `Channel`: demodulator kinds, the rewiring `setDemod`
  performs (`Rewire`), the frequency bookkeeping (`Recenter`, `FilterCentre`,
  `OutputRate`) and the mode presets of the channel's control view.
- `sources.dfy` — `Sources`: source kinds, the selector index mapping, and the
  four source classes with the stages they own and wire.
- `session.dfy` — `Session`: the classes `Receiver`, `Demodulator`,
  `DemodulatorCtrlView`, `DataSourceCtrl` and `DataSourceCtrlView`. They share
  one module because the session holds both controllers and each controller
  holds the session.

Modelling choices:

- **Graph.** A set of `Edge(src, dst, overwrite)`. Connecting a pair that is
  already connected, with either flag, changes nothing. Disconnecting removes
  the pair whatever its flag, and disconnecting an absent pair changes nothing.
  The channel controller's constructor relies on this: its first `setDemod`
  disconnects SSB edges that were never made.
- **Scheduler.** `running` is what `isRunning()` reports. `busy` means the
  processing side may still be inside a stage callback. `stop()` clears
  `running`, `wait()` clears `busy`, and `Receiver.Stop` does both.
  `Graph.Connect`, `Graph.Disconnect` and `IQBaseBand.SetOutputSampleRate`
  require a quiescent scheduler; `Graph.Destroy` does not. This states
  the rule the code follows, that structural changes happen only while
  stopped; the code does not check it itself.
- **Source objects.** Each object gets a fresh instance number, and its stages
  carry that number (`PortProxy(id)`, `RtlCast(id)`, …). Two objects of the
  same kind therefore never share a stage.
- **Replacing the source object.** `src/source.cc:74` calls
  `_src_obj->disconnect(this)`. This is `QObject::disconnect`, which drops Qt
  signal connections; `DataSource` derives only from `QObject`. The graph
  connection from the old object's output into the controller disappears when
  `deleteLater` runs the object's destructor, which frees its stages. The model
  performs that destruction at once, inside `setSource`:
  `Graph.Destroy(StagesOf(old))`. In the code it happens later, once the event
  loop runs, and possibly after the scheduler has been restarted.
- **Numbers.** Frequencies are exact reals. The source's doubles meet the
  stated equalities only up to rounding.
- **Filter edges are not ordered.** Nothing enforces `Fl <= Fu`. `setFilter`
  stores any pair, and the edge editors can cross the edges. The model proves
  no ordering invariant; `FilterCentre` gives its betweenness only under
  `fl <= fu`.
- **I/O outcomes are parameters.** The RTL device constructor's outcome is
  `rtlDeviceAvailable`, and the WAV reader's outcome is an `OpenOutcome`. A
  line edit's parse result is `Option<real>`, with `None` when `toDouble`
  fails.
- **Read-only accessors.** `centerFreq`, `filterLower`, `filterUpper`, `demod`,
  `isAGCEnabled`, `gain`, `agcTime`, `isRunning`, `source()` and `filepath()`
  are Dafny functions (`CenterFreq`, `FilterLower`, `FilterUpper`,
  `SelectedDemod`, `IsAgcEnabled`, `Gain`, `AgcTime`, `IsRunning`,
  `DataSourceCtrl.Source`, `FileSource.Filepath`). Being functions, they read
  and change nothing.

Facts about the code that the model follows closely:

- Mode presets are applied only by the control view's `onModSelected`
  (`src/demodulator.cc:343-385`); CW, for example, is `[fc+600, fc+900]`.
- `setFilter` stores any pair of edges, a width `<= 0` included.
- The channel controller keeps the absolute edges `_Fl` and `_Fu`, not an
  offset and a width.
- The output rate `max(width, 16000)` holds only after the first `setFilter`.
  The constructor builds the filter stage with an 8000 Hz output rate
  (`src/demodulator.cc:19`).

## Model

| member | source | states |
|---|---|---|
| Pipeline.Link | src/demodulator.cc:125-136 | after `connect(src,dst)` the pair is connected; at most that one connection is added, and none if the pair was already connected with either flag |
| Pipeline.Unlink | src/demodulator.cc:108-120 | after `disconnect(src,dst)` the pair is not connected; no other connection is removed; disconnecting an absent pair changes nothing |
| Pipeline.Detach | src/source.cc:75-76 | destroying a set of stages removes exactly the connections out of or into those stages |
| Pipeline.LinkIdempotent | src/demodulator.cc:125-136 | connecting twice is connecting once |
| Pipeline.UnlinkUndoesLink | src/demodulator.cc:108-136 | disconnecting a pair just connected restores the graph it was connected in |
| Pipeline.DetachFeeder | src/source.cc:74-76 | destroying the stages of the object that alone fed the controller leaves the controller unfed |
| Pipeline.Scheduler.Start | src/receiver.cc:66 | the scheduler runs afterwards |
| Pipeline.Scheduler.Stop | src/receiver.cc:71 | the scheduler no longer runs, but its processing side may still be busy |
| Pipeline.Scheduler.Wait | src/receiver.cc:72 | once stopped, waiting leaves the scheduler quiescent |
| Pipeline.Graph.Connect | src/demodulator.cc:25-26 | a connection is made only while the scheduler is quiescent, and the graph becomes `Link` of the old one |
| Pipeline.Graph.Destroy | src/source.cc:76 | destroying a set of stages (by `deleteLater` and the variant's destructor) removes exactly their connections: the graph becomes `Detach` of the old one; no scheduler state is required, since the destruction is deferred |
| Pipeline.Graph.Disconnect | src/demodulator.cc:108-120 | a connection is removed only while the scheduler is quiescent, and the graph becomes `Unlink` of the old one |
| Pipeline.IQBaseBand.SetOutputSampleRate | src/demodulator.cc:95-96 | the resampler is re-initialised only while the scheduler is quiescent; no other filter parameter changes |
| Channel.DemodStage | src/demodulator.hh:74-78 | every kind is implemented by a demodulator stage |
| Channel.Rewire | src/demodulator.cc:107-138 | after `setDemod(next)` the requested demodulator is fed by the filter and feeds the audio proxy; a different previous kind is connected neither way; every connection it adds is one of `next`'s two |
| Channel.RewireSwaps | src/demodulator.cc:107-138 | from a graph with exactly the current kind wired, `setDemod(d)` removes that kind's two connections, adds d's two, touches nothing else, and leaves exactly d wired |
| Channel.RewireSameKind | src/demodulator.cc:107-138 | selecting the kind already selected yields the same connection set |
| Channel.RewireFromNothing | src/demodulator.cc:30 | the constructor's first `setDemod`, with no demodulator wired, only adds the requested kind's two connections |
| Channel.RewireAllKeepsOneWired | src/demodulator.cc:103-140 | after any series of `setDemod` calls exactly one demodulator, the last selected, is wired |
| Channel.RewireKeepsOthers | src/demodulator.cc:107-138 | rewiring never touches a connection between non-demodulator stages |
| Channel.KeepsDemodWired | src/receiver.cc:14-19 | connections that touch no demodulator keep exactly the selected one wired |
| Channel.Recenter | src/demodulator.cc:76-83 | the centre becomes f and both edges shift by f minus the old centre, so their offsets from the centre and the width are unchanged |
| Channel.RecenterTwice | src/demodulator.cc:76-83 | re-centring twice is re-centring once to the last frequency |
| Channel.FilterCentre | src/demodulator.cc:87-88 | the filter centre pushed to the filter stage is equidistant from both edges, and between them when they are ordered |
| Channel.OutputRate | src/demodulator.cc:93-95 | the resampler output rate is the larger of the width and 16000 |
| Channel.ModePreset | src/demodulator.cc:343-385 | indices 0..6 and only those select a preset; every preset has lower < upper; AM only for index 0, FM exactly for 1 and 2, SSB otherwise |
| Channel.PresetFollowsCentre | src/demodulator.cc:344-378 | moving the centre by d moves both edges of every preset by d |
| Channel.PresetPlacement | src/demodulator.cc:344-378 | AM, WFM, NFM and DSB are centred on fc; LSB lies below fc and mirrors USB; CW lies above fc |
| Channel.PresetRates | src/demodulator.cc:343-378 | applying a preset sets the output rate to 200000 for WFM and to 16000 for every other mode |
| Sources.IndexOfSource | src/source.cc:127-132 | each kind is shown at an entry 0..3 that maps back to that kind |
| Sources.SourceOfIndex | src/source.cc:149-157 | entries 0..3 name a kind; every other index names none |
| Sources.IndexRoundTrip | src/source.cc:127-157 | entry to kind to entry is the identity on 0..3 |
| Sources.StagesOf | src/portaudiosource.cc:11-24 | the stages a variant's constructor allocates and its destructor frees (here the line input's; `src/portaudiosource.cc:56-66`, `src/filesource.cc:12-25` and `src/rtldatasource.cc:13-30` for the others) all carry the object's instance number |
| Sources.WiringOf | src/filesource.cc:12-20 | the connections a variant's constructor makes (here the WAV source's; `src/portaudiosource.cc:11-19`, `src/portaudiosource.cc:56-62` and `src/rtldatasource.cc:21-24` for the others) join only that object's own stages |
| Sources.OutputOf | src/source.hh:24 | every object exposes exactly one output stage, one of its own |
| Sources.PortAudioSource.constructor | src/portaudiosource.cc:11-19 | builds input → real-to-complex → itself, both with overwrite |
| Sources.PortAudioSource.TriggerNext | src/portaudiosource.cc:46-49 | pulls exactly one buffer |
| Sources.PortAudioIQSource.constructor | src/portaudiosource.cc:56-62 | builds input → itself with overwrite |
| Sources.PortAudioIQSource.TriggerNext | src/portaudiosource.cc:88-91 | pulls exactly one buffer |
| Sources.FileSource.constructor | src/filesource.cc:12-20 | builds WAV reader → AutoCast → itself, both with overwrite; no file open, empty path |
| Sources.FileSource.Open | src/filesource.cc:32-46 | an open error is absorbed; the path is recorded exactly when the reader is open afterwards, otherwise `filepath()` keeps its previous value |
| Sources.FileSource.TriggerNext | src/filesource.cc:79-82 | pulls exactly one buffer from the reader and changes nothing else |
| Sources.RTLDataSource.constructor | src/rtldatasource.cc:13-25 | a device error is caught and leaves no device; the device → cast connection is made exactly when a device exists |
| Sources.RTLDataSource.Wiring | src/rtldatasource.cc:22-24 | the device → cast connection exists if and only if a device exists |
| Sources.RTLDataSource.Stages | src/rtldatasource.cc:27-30 | the destructor frees the device only when present and the cast stage always |
| Sources.RTLDataSource.IsActive | src/rtldatasource.cc:47-50 | `isActive()` holds exactly when the object wired its device into its cast stage, i.e. when the device constructor succeeded |
| Sources.RTLDataSource.Source | src/rtldatasource.cc:37-40 | the output is the cast stage, with or without a device |
| Session.Receiver.constructor | src/receiver.cc:6-25 | builds both controllers and connects them: the graph is exactly the line input's chain and its output into the source controller, the channel's four connections and the session's three; the channel starts at centre 0 with edges -2000 and 2000, SSB selected, the filter stage holding that centre and band; the session is valid and the scheduler is stopped |
| Session.Receiver.BuildChannel | src/receiver.cc:11 | the channel controller is built beside the source controller: exactly its four connections are added, it starts at centre 0 with edges -2000 and 2000, SSB, its filter stage holding that, and the source controller keeps its single feeder |
| Session.Receiver.ConnectControllers | src/receiver.cc:14-19 | adds exactly source controller → spectrum, source controller → `demod.in()` and `demod.audioSource()` → audio post-processor, all with overwrite, keeping both controllers valid |
| Session.SessionLinks | src/receiver.cc:14-19 | the three session connections are all new, so the graph grows by exactly them |
| Session.KeepsSoleFeeder | src/receiver.cc:14-19 | connections that neither feed the source controller nor touch a source object keep its single feeder |
| Session.Receiver.IsRunning | src/receiver.cc:32-35 | between control calls, `isRunning()` reports true exactly when the graph may not be rewired |
| Session.Receiver.Start | src/receiver.cc:64-67 | the scheduler runs afterwards |
| Session.Receiver.Stop | src/receiver.cc:69-73 | on return the scheduler is stopped and quiescent |
| Session.Demodulator.constructor | src/demodulator.cc:13-31 | centre 0, edges -2000 and 2000, SSB wired; AGC → filter with overwrite and AGC → spectrum without; AGC disabled at unit gain; filter built with width 4000 and output rate 8000, already holding the centre and band the controller keeps |
| Session.Demodulator.ConnectAgc | src/demodulator.cc:25-26 | the constructor adds exactly AGC → filter with overwrite and AGC → spectrum without, wiring no demodulator |
| Session.ChannelBuilt | src/demodulator.cc:25-30 | in a graph that does not touch the channel's stages, the two AGC connections and the first `setDemod(SSB)` add exactly the channel's four connections |
| Session.Demodulator.In | src/demodulator.hh:41 | in a valid channel, the entry point `in()` feeds the filter stage, in place |
| Session.Demodulator.AudioSource | src/demodulator.hh:42 | in a valid channel, the selected demodulator feeds the audio output `audioSource()`, in place |
| Session.Demodulator.CenterFreq | src/demodulator.hh:35 | reports the centre the filter stage translates to, whenever the stage holds what the controller pushed |
| Session.Demodulator.FilterLower | src/demodulator.hh:36 | reports where the filter stage's band starts: its centre minus half its width |
| Session.Demodulator.FilterUpper | src/demodulator.hh:37 | reports where the filter stage's band ends: its centre plus half its width |
| Session.Demodulator.SelectedDemod | src/demodulator.hh:39 | reports the kind that is wired between the filter and the audio proxy |
| Session.Demodulator.EnableAgc | src/demodulator.cc:70-73 | afterwards `isAGCEnabled()` reports the new flag; `gain()` and `agcTime()` report what they did before |
| Session.Demodulator.SetGain | src/demodulator.cc:53-56 | afterwards `gain()` reports the new gain; `isAGCEnabled()` and `agcTime()` report what they did before |
| Session.Demodulator.SetAgcTime | src/demodulator.cc:64-67 | afterwards `agcTime()` reports the new time constant; `isAGCEnabled()` and `gain()` report what they did before |
| Session.Demodulator.SetCenterFreq | src/demodulator.cc:75-83 | the tuning becomes `Recenter(old, f)`; the filter stage gets centre f, the midpoint of the new edges, their width and the rate `OutputRate(width)`, so the stage holds the controller's centre and band; the running state is restored |
| Session.Demodulator.SetFilter | src/demodulator.cc:85-100 | both edges stored verbatim; filter centre and width pushed; output rate `max(width, 16000)` set while quiescent; running state restored; one `filterChanged` notification; a stage that held the controller's centre and band still does |
| Session.Demodulator.SetDemod | src/demodulator.cc:103-140 | afterwards exactly d is wired, with the previous kind's connections gone; the same kind gives the same graph; tuning unchanged; running state restored |
| Session.Relink | src/demodulator.cc:107-138 | the two switches of `setDemod` compute `Rewire` of the graph |
| Session.DemodulatorCtrlView.constructor | src/demodulator.cc:263-274 | building the view selects AM: edges fc ± 5000, the previous kind's two connections swapped for AM's, filter centred on fc with width 10000, output rate `OutputRate(10000) = 16000`, running state restored |
| Session.DemodulatorCtrlView.OnModSelected | src/demodulator.cc:342-385 | a valid index applies the preset's edges and kind: the old kind's connections are swapped for the new kind's, the filter stage gets the preset's centre, width and `OutputRate(width)`, one `filterChanged`, running state restored; any other index changes no state |
| Session.DemodulatorCtrlView.OnCenterFreqChanged | src/demodulator.cc:429-439 | a parsed value re-centres with edge offsets kept, the kind kept; the filter stage translates to the new centre and gets the edges' midpoint, width and `OutputRate(width)`; two `filterChanged`; an unparsable value changes nothing |
| Session.DemodulatorCtrlView.OnLowerFreqChanged | src/demodulator.cc:441-446 | a parsed value becomes the lower edge, with the upper edge, the centre and the kind kept; the filter stage gets the new midpoint, width and `OutputRate(width)`; an unparsable value changes nothing |
| Session.DemodulatorCtrlView.OnUpperFreqChanged | src/demodulator.cc:448-453 | a parsed value becomes the upper edge, with the lower edge, the centre and the kind kept; the filter stage gets the new midpoint, width and `OutputRate(width)`; an unparsable value changes nothing |
| Session.DataSourceCtrl.constructor | src/source.cc:48-60 | starts on the line input, whose output is the controller's only feeder; its first `setSource` runs while there is no current object, the case `TeardownAsWritten` faults on |
| Session.DataSourceCtrl.SetSource | src/source.cc:68-89 | afterwards `source() == k` and a fresh object of kind k, with a new instance number even for the same kind, is the sole feeder; the old object's stages and connections are gone (at once here, once the event loop has run in the code); the running state is restored |
| Session.DataSourceCtrl.Replace | src/source.cc:73-86 | retire, then install, leaving the controller valid |
| Session.DataSourceCtrl.Retire | src/source.cc:73-76 | the current object, if there is one, is retired with its stages; with none, nothing changes |
| Session.Retirement | src/source.cc:73-76 | after retirement nothing feeds the controller |
| Session.DataSourceCtrl.Install | src/source.cc:78-86 | builds the object for k and connects its output into the controller with overwrite |
| Session.NewSourceObj | src/source.cc:80-85 | PORT gives `PortAudioSource`, PORT_IQ gives `PortAudioIQSource`, FILE gives `FileSource`, RTL gives `RTLDataSource(100e6, 225001)`; the new object has pulled no buffer yet |
| Session.Attach | src/source.cc:86 | the new output becomes the controller's only feeder |
| Session.DataSourceCtrl.OnQueueIdle | src/source.cc:97-100 | the idle notification pulls one buffer from the current object, and none for the self-clocked tuner; a file source stays open or closed as it was and keeps its `filepath()` |
| Session.DataSourceCtrlView.constructor | src/source.cc:126-132 | the selector opens on the entry of the current kind |
| Session.DataSourceCtrlView.OnSourceSelected | src/source.cc:148-157 | entries 0..3 become the entry shown and switch the controller to that kind, with `setSource`'s outcome: a fresh object under a new instance number as sole feeder, the old object's stages detached and its number retired; any other index leaves everything unchanged |
| Session.TeardownAsWritten | src/source.cc:73-76 | as written, the teardown dereferences the pointer exactly when there is no current object |
| Session.ConstructionDereferencesNull | src/source.cc:49-76 | the constructor's first `setSource` runs the teardown on the null pointer |

## Left out

- Qt widgets, layouts, validators, timers and the signal/slot plumbing. `emit filterChanged()` is only counted (`filterChanges`). `onUpdateFilter`, `onUpdateGain`, `onAGCToggled`, `onAGCTauChanged` and `onGainChanged` only refresh widgets or forward to the setters modelled here.
- Session.Demodulator.SetGain: the gain is kept in dB. The conversions `pow(10, g/20)` and `20*log10` (`src/demodulator.cc:48-56`) are floating-point transcendentals. The constructor's linear gain 1 is modelled as 0 dB.
- DSP internals of the libsdr nodes (AGC, `IQBaseBand`, the demodulators, `Cast`, `AutoCast`, `ToComplex`, the PortAudio/WAV/RTL sources). Each is an opaque stage identity plus the parameters the controllers push. The spectrum sink that `Demodulator` inherits from `gui::Spectrum` is one stage, `Spectrum`.
- Scheduler internals and threads. `sdr::Queue` is reduced to `running`/`busy`. Registering the idle, start and stop callbacks (`src/source.cc:57-59`, `src/receiver.cc:21-24`) is not modelled; `OnQueueIdle` is simply callable.
- `_onQueueStart`/`_onQueueStop` (`src/source.cc:102-110`): they forward to `queueStarted`/`queueStopped`. Those are no-ops in `DataSource` (`src/source.cc:36-42`), no variant overrides them, and `src/source.hh` declares none of the four.
- Device and file I/O (PortAudio, the RTL2832 driver, WAV parsing, `PortAudio::init`). Their outcomes are parameters. The RTL pass-throughs `agcEnabled`, `enableAGC`, `gain` and `setGain` (`src/rtldatasource.cc:52-70`) forward reads and writes to the tuner and are left out as device I/O; none of them checks `_device`, so on an object whose device constructor failed (`isActive()` false, `src/rtldatasource.cc:47-50`) each is a null dereference, which only the control view's `isActive()` checks avoid. `numDevices`/`deviceName` (`src/rtldatasource.cc:72-80`) and `FileSource::isReal`/`format` only query the driver or reader.
- Deferred deletion: `deleteLater` is modelled as immediate destruction of the retired object's stages, inside the stop/restart bracket. In the code the destructor runs later from the event loop, after `setSource` has restarted a scheduler that was running; until then the old object's output stays connected into the controller beside the new one. `retired` records the retired instances.
- Session.DataSourceCtrl.SetSource: the new object's defaults (no buffer pulled, a WAV reader closed with an empty path) are stated by the source classes' constructors and, for the pull count, by `Session.NewSourceObj`, but not passed on by `SetSource` or `DataSourceCtrlView.OnSourceSelected`, to keep those proofs within the solver's resource limit.
- Session.DataSourceCtrl.SetSource: its sole-feeder post-state holds in the code only once the deferred deletion has run, for the reason above; the model does not represent the interval with two feeders.
- `createCtrlView`, `createSpectrumView` and the replacement of the per-source control widget (`src/source.cc:92-95`, `src/source.cc:159-162`): UI.
- `Receiver::tunerFrequency` (`src/receiver.cc:58-61`): it calls `DataSourceCtrl::tunerFrequency`, which `src/source.hh` does not declare.
- Destructors: `~Receiver` calls `stop()`, and the `Demodulator` destructor never deletes `_fm_demod`. Memory release is not modelled.
- `src/audiopostproc.cc`, `src/mainwindow.cc`, `src/main.cc` and `src/configuration.cc` are not part of this model. The audio post-processor is the single stage `AudioPostProc`.
- AGC defaults other than enable and gain (the time constant) come from libsdr, which is not visible. `Agc.tau` starts unconstrained.

## Findings

| source | as written | input that shows it | evidently intended | confidence | as-written member | corrected member |
|---|---|---|---|---|---|---|
| src/source.cc:74-76 | `setSource` calls `disconnect` and `deleteLater` through `_src_obj` without a check, and the constructor calls `setSource` while `_src_obj` is still 0 (`src/source.cc:49`, `src/source.cc:55`) | constructing any `DataSourceCtrl`: its first `setSource(SOURCE_PORT)` runs with `_src_obj == 0` | retire the current object only when there is one | not executed; a member call through a null pointer is undefined behaviour in C++, and Qt's implementations of these two calls may only log a warning | Session.TeardownAsWritten, Session.ConstructionDereferencesNull | Session.DataSourceCtrl.Retire |
