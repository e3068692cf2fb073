/**
 * The controllers of the receiver: the session (`Receiver`), the channel
 * controller (`Demodulator`, which the session's header calls
 * `DemodulatorCtrl`), the source controller (`DataSourceCtrl`) and the two
 * control views that drive them. They live in one module because the
 * session holds the two controllers and each controller holds the session.
 *
 * Once the session is built, every change of topology, and the resampler
 * change, runs inside a bracket: note whether the scheduler runs, stop it
 * and wait if it does, change, and restart it only if it had been running.
 * The constructors connect their own stages directly, on a scheduler that
 * has never been started. A retired source object's stages are destroyed
 * here at once, inside the bracket; the code defers that to the event loop.
 */
module Session {
  import opened Wrappers
  import opened Pipeline
  import opened Channel
  import opened Sources

  /** The three connections the session itself makes. */
  ghost predicate SessionWired(es: set<Edge>)
  {
    && Edge(SourceProxy, Spectrum, true) in es
    && Edge(SourceProxy, Agc, true) in es
    && Edge(AudioProxy, AudioPostProc, true) in es
  }

  /** The connections the channel controller makes when it is built. */
  function ChannelEdges(): set<Edge>
  {
    {Edge(Agc, BaseBand, true), Edge(Agc, Spectrum, false)} + DemodEdges(SSB)
  }

  /** The connections the session makes between its controllers. */
  function SessionEdges(): set<Edge>
  {
    {Edge(SourceProxy, Spectrum, true), Edge(SourceProxy, Agc, true), Edge(AudioProxy, AudioPostProc, true)}
  }

  /** A connection between stages that live as long as the session and that
      does not feed the source controller. */
  ghost predicate LifetimeEdge(e: Edge)
  {
    e.dst != SourceProxy && InstanceOf(e.src) == -1 && InstanceOf(e.dst) == -1
  }

  lemma ReceiverLifetimeEdges()
    ensures forall e :: e in ChannelEdges() + SessionEdges() ==> LifetimeEdge(e)
    ensures forall e :: e in SessionEdges() ==> !IsDemodStage(e.src) && !IsDemodStage(e.dst)
  {
  }

  /** No connection leaves `n`. */
  ghost predicate NothingLeaves(es: set<Edge>, n: Node)
  {
    forall e :: e in es ==> e.src != n
  }

  /** The session's three connections are all new when nothing leaves
      either proxy. */
  lemma SessionLinks(es: set<Edge>)
    requires NothingLeaves(es, SourceProxy) && NothingLeaves(es, AudioProxy)
    ensures Link(Link(Link(es, SourceProxy, Spectrum, true), SourceProxy, Agc, true), AudioProxy, AudioPostProc, true)
      == es + SessionEdges()
  {
    var r1 := Link(es, SourceProxy, Spectrum, true);
    assert !Linked(r1, SourceProxy, Agc);
    var r2 := Link(r1, SourceProxy, Agc, true);
    assert !Linked(r2, AudioProxy, AudioPostProc);
  }

  /** The connections of a new source controller: the object's own ones and
      its output into the controller. */
  function SourceSide(o: SourceObj): set<Edge>
  {
    WiringOf(o) + {Edge(OutputOf(o), SourceProxy, true)}
  }

  /** A new source controller touches no channel stage, and every one of its
      connections starts at a stage of the source object. */
  lemma SourceSideApart(o: SourceObj)
    ensures ChannelUnused(SourceSide(o))
    ensures forall e :: e in SourceSide(o) ==> InstanceOf(e.src) >= 0
  {
    forall e | e in SourceSide(o)
      ensures InstanceOf(e.src) >= 0 && (InstanceOf(e.dst) >= 0 || e.dst == SourceProxy)
    {
      if e in WiringOf(o) {
        assert e.src in StagesOf(o) && e.dst in StagesOf(o);
      } else {
        assert e.src == OutputOf(o) && e.dst == SourceProxy;
      }
    }
  }

  /** Once the channel is built, nothing leaves the source controller's
      proxy or the channel's audio proxy yet. */
  lemma ProxyIdle(o: SourceObj, n: Node)
    requires n == SourceProxy || n == AudioProxy
    ensures NothingLeaves(SourceSide(o) + ChannelEdges(), n)
  {
    SourceSideApart(o);
    forall e | e in SourceSide(o) + ChannelEdges()
      ensures e.src != n
    {
      if e in SourceSide(o) {
        assert InstanceOf(e.src) >= 0;
      } else {
        assert e.src == Agc || e.src == BaseBand || e.src == SsbDemod;
      }
    }
  }

  /** Building the channel in a graph that does not touch its stages: the two
      gain-stage connections are new, no demodulator is wired yet, and the
      first `setDemod(SSB)` completes the channel's connections. */
  lemma ChannelBuilt(es: set<Edge>)
    requires ChannelUnused(es)
    ensures var wired := Link(Link(es, Agc, BaseBand, true), Agc, Spectrum, false);
      && wired == es + {Edge(Agc, BaseBand, true), Edge(Agc, Spectrum, false)}
      && NoDemodWired(wired)
      && Rewire(wired, SSB, SSB) == es + ChannelEdges()
  {
    assert !Linked(es, Agc, BaseBand);
    var once := es + {Edge(Agc, BaseBand, true)};
    assert !Linked(once, Agc, Spectrum);
    var wired := once + {Edge(Agc, Spectrum, false)};
    assert NoDemodWired(wired);
    RewireFromNothing(wired, SSB, SSB);
  }

  /** Connections that neither feed the source controller nor touch a source
      object keep the source controller's one feeder and instance bound. */
  lemma KeepsSoleFeeder(es: set<Edge>, r: set<Edge>, added: set<Edge>, feeder: Node, bound: nat)
    requires es <= r <= es + added
    requires SoleFeeder(es, feeder, SourceProxy) && InstancesBelow(es, bound)
    requires forall e :: e in added ==> LifetimeEdge(e)
    ensures SoleFeeder(r, feeder, SourceProxy) && InstancesBelow(r, bound)
  {
  }

  /** The session: one scheduler, one graph, the source controller feeding
      the channel controller, and the channel's audio feeding the audio
      post-processor. */
  class Receiver {
    const queue: Scheduler
    const graph: Graph
    var src: DataSourceCtrl?
    var demod: Demodulator?

    ghost predicate Valid()
      reads this, queue, graph, src, demod
    {
      && graph.queue == queue
      && queue.Settled()
      && src != null && demod != null
      && src.receiver == this && demod.receiver == this
      && src.Valid() && demod.Valid()
      && SessionWired(graph.edges)
    }

    constructor ()
      ensures Valid() && !queue.running
      ensures src.source == Port && demod.kind == SSB
      ensures demod.Tuning() == Channel.Tuning(0.0, -2000.0, 2000.0) && demod.Pushed()
      ensures graph.edges == SourceSide(src.obj.value) + ChannelEdges() + SessionEdges()
      ensures fresh(queue) && fresh(graph)
    {
      var q := new Scheduler();
      queue := q;
      graph := new Graph(q);
      new;
      src := new DataSourceCtrl(this);
      BuildChannel();
      ghost var channelSide := graph.edges;
      ConnectControllers();
      assert graph.edges == channelSide + SessionEdges();
    }

    /** The constructor's middle step: the channel controller is built next
        to the source controller, whose single feeder it leaves alone. */
    method BuildChannel()
      requires src != null && src.receiver == this && src.Valid()
      requires graph.queue == queue && queue.Quiescent()
      requires graph.edges == SourceSide(src.obj.value)
      modifies this`demod, graph, queue
      ensures demod != null && demod.receiver == this && fresh(demod) && demod.Valid() && src.Valid()
      ensures demod.kind == SSB && demod.Tuning() == Channel.Tuning(0.0, -2000.0, 2000.0) && demod.Pushed()
      ensures graph.edges == SourceSide(src.obj.value) + ChannelEdges()
      ensures NothingLeaves(graph.edges, SourceProxy) && NothingLeaves(graph.edges, AudioProxy)
      ensures queue.Quiescent()
    {
      ghost var o := src.obj.value;
      SourceSideApart(o);
      ProxyIdle(o, SourceProxy);
      ProxyIdle(o, AudioProxy);
      ghost var feeder, bound := OutputOf(o), src.nextId;
      demod := new Demodulator(this);
      ReceiverLifetimeEdges();
      KeepsSoleFeeder(SourceSide(o), graph.edges, ChannelEdges(), feeder, bound);
    }

    /** The constructor's last step: the source controller feeds the spectrum
        display and the gain stage, the channel's audio feeds the audio
        post-processor. */
    method ConnectControllers()
      requires src != null && demod != null && src.receiver == this && demod.receiver == this
      requires graph.queue == queue && queue.Quiescent()
      requires src.Valid() && demod.Valid()
      requires NothingLeaves(graph.edges, SourceProxy) && NothingLeaves(graph.edges, AudioProxy)
      modifies graph
      ensures Valid()
      ensures graph.edges == old(graph.edges) + SessionEdges()
    {
      ghost var before := graph.edges;
      ghost var feeder, bound := OutputOf(src.obj.value), src.nextId;
      SessionLinks(before);
      graph.Connect(SourceProxy, Spectrum, true);
      graph.Connect(SourceProxy, demod.In(), true);
      graph.Connect(demod.AudioSource(), AudioPostProc, true);
      ReceiverLifetimeEdges();
      KeepsDemodWired(before, graph.edges, SessionEdges(), demod.kind);
      KeepsSoleFeeder(before, graph.edges, SessionEdges(), feeder, bound);
    }

    /** `isRunning()`: the scheduler's state, read without changing anything.
        Between control calls it reports running exactly when the graph may
        not be rewired. */
    function IsRunning(): (r: bool)
      reads queue
      ensures queue.Settled() ==> (r <==> !queue.Quiescent())
    {
      queue.running
    }

    /** `start()`: delegates to the scheduler. */
    method Start()
      modifies queue
      ensures queue.running && queue.Settled()
    {
      queue.Start();
    }

    /** `stop()`: stop, then wait until the processing side is quiescent, so
        that the caller may rewire the graph on return. */
    method Stop()
      modifies queue
      ensures queue.Quiescent() && queue.Settled()
    {
      queue.Stop();
      queue.Wait();
    }
  }

  /**
   * The channel controller: gain stage -> channel filter -> one of three
   * demodulators -> audio proxy, with the centre frequency and the absolute
   * filter edges it keeps.
   */
  class Demodulator {
    const receiver: Receiver
    const agc: Agc
    const filter: IQBaseBand
    var fc: real
    var fl: real
    var fu: real
    var kind: Demod
    /** How often `filterChanged()` has been emitted. */
    var filterChanges: nat

    /** The stages this controller pushes to act on the session's scheduler. */
    ghost predicate SharesQueue()
    {
      receiver.graph.queue == receiver.queue && filter.queue == receiver.queue
    }

    /** The gain stage feeds the filter (in place) and the spectrum display. */
    ghost predicate AgcWired(es: set<Edge>)
    {
      Edge(Agc, BaseBand, true) in es && Edge(Agc, Spectrum, false) in es
    }

    ghost predicate Valid()
      reads this, receiver.graph
    {
      SharesQueue() && AgcWired(receiver.graph.edges) && DemodWired(receiver.graph.edges, kind)
    }

    function Tuning(): Channel.Tuning
      reads this
    {
      Channel.Tuning(fc, fl, fu)
    }

    /** The filter stage holds what this controller last pushed to it: it
        translates to the centre and passes the band between the two edges. */
    ghost predicate Pushed()
      reads this, filter
    {
      filter.centerFreq == fc && filter.filterFreq == FilterCentre(fl, fu) && filter.width == fu - fl
    }

    /** Starts at centre 0 with edges -2000 and +2000, SSB wired in, the gain
        stage disabled with linear gain 1; the resampler starts at 8000 Hz,
        the rate the filter stage is built with. */
    constructor (receiver: Receiver)
      requires receiver.graph.queue == receiver.queue && receiver.queue.Quiescent()
      requires ChannelUnused(receiver.graph.edges)
      modifies receiver.graph, receiver.queue
      ensures this.receiver == receiver && Valid()
      ensures Tuning() == Channel.Tuning(0.0, -2000.0, 2000.0) && kind == SSB
      ensures receiver.graph.edges == old(receiver.graph.edges) + ChannelEdges()
      ensures !agc.enabled && agc.gainDb == 0.0
      ensures filter.centerFreq == 0.0 && filter.width == 4000.0 && filter.outRate == 8000.0
      ensures Pushed()
      ensures receiver.queue.Quiescent()
      ensures fresh(agc) && fresh(filter)
    {
      this.receiver := receiver;
      fc, fl, fu, kind := 0.0, -2000.0, 2000.0, SSB;
      filterChanges := 0;
      agc := new Agc();
      filter := new IQBaseBand(receiver.queue, 0.0, 2000.0 - -2000.0, 8000.0);
      new;
      ConnectAgc();
      agc.Enable(false);
      agc.SetGain(0.0);
      SetDemod(kind);
    }

    /** The constructor's first connections: the gain stage feeds the filter
        (in place) and the spectrum display. */
    method ConnectAgc()
      requires receiver.graph.queue == receiver.queue && receiver.queue.Quiescent()
      requires ChannelUnused(receiver.graph.edges)
      modifies receiver.graph
      ensures receiver.graph.edges == old(receiver.graph.edges) + {Edge(Agc, BaseBand, true), Edge(Agc, Spectrum, false)}
      ensures AgcWired(receiver.graph.edges) && NoDemodWired(receiver.graph.edges)
      ensures Rewire(receiver.graph.edges, SSB, SSB) == old(receiver.graph.edges) + ChannelEdges()
    {
      ChannelBuilt(receiver.graph.edges);
      receiver.graph.Connect(Agc, BaseBand, true);
      receiver.graph.Connect(Agc, Spectrum, false);
    }

    /** `in()`: the gain stage, whichever demodulator is selected. */
    function In(): (n: Node)
      reads this, receiver.graph
      ensures Valid() ==> Edge(n, BaseBand, true) in receiver.graph.edges
      ensures !IsDemodStage(n)
    {
      Agc
    }

    /** `audioSource()`: the audio proxy, whichever demodulator feeds it. */
    function AudioSource(): (n: Node)
      reads this, receiver.graph
      ensures Valid() ==> Edge(DemodStage(kind), n, true) in receiver.graph.edges
      ensures !IsDemodStage(n)
    {
      AudioProxy
    }

    /** `centerFreq()`: the centre the filter stage translates to. */
    function CenterFreq(): (f: real)
      reads this, filter
      ensures Pushed() ==> f == filter.centerFreq
    {
      fc
    }

    /** `filterLower()`: where the filter stage's band starts. */
    function FilterLower(): (f: real)
      reads this, filter
      ensures Pushed() ==> f == filter.filterFreq - filter.width / 2.0
    {
      fl
    }

    /** `filterUpper()`: where the filter stage's band ends. */
    function FilterUpper(): (f: real)
      reads this, filter
      ensures Pushed() ==> f == filter.filterFreq + filter.width / 2.0
    {
      fu
    }

    /** `demod()`: the selected kind, which is the one wired into the chain. */
    function SelectedDemod(): (k: Demod)
      reads this, receiver.graph
      ensures Valid() ==> DemodWired(receiver.graph.edges, k)
    {
      kind
    }

    function IsAgcEnabled(): (on: bool)
      reads agc
    {
      agc.enabled
    }

    /** `gain()`, in dB. */
    function Gain(): (db: real)
      reads agc
    {
      agc.gainDb
    }

    function AgcTime(): (tau: real)
      reads agc
    {
      agc.tau
    }

    /** `enableAGC`, `setGain`, `setAGCTime`: parameter pushes, safe while
        the scheduler runs; nothing else changes. */
    method EnableAgc(on: bool)
      modifies agc
      ensures IsAgcEnabled() == on && Gain() == old(Gain()) && AgcTime() == old(AgcTime())
    {
      agc.Enable(on);
    }

    method SetGain(db: real)
      modifies agc
      ensures Gain() == db && IsAgcEnabled() == old(IsAgcEnabled()) && AgcTime() == old(AgcTime())
    {
      agc.SetGain(db);
    }

    method SetAgcTime(tau: real)
      modifies agc
      ensures AgcTime() == tau && IsAgcEnabled() == old(IsAgcEnabled()) && Gain() == old(Gain())
    {
      agc.SetTau(tau);
    }

    /** `setCenterFreq(f)`: re-centre, keeping both edges where they were
        relative to the centre, then apply them through `setFilter`. */
    method SetCenterFreq(f: real)
      requires Valid() && receiver.queue.Settled()
      modifies this, filter, receiver.queue
      ensures Valid() && receiver.queue.Settled()
      ensures receiver.queue.running == old(receiver.queue.running)
      ensures Tuning() == Recenter(old(Tuning()), f) && kind == old(kind)
      ensures filter.centerFreq == f
      ensures filter.filterFreq == FilterCentre(fl, fu) && filter.width == fu - fl
      ensures filter.outRate == OutputRate(fu - fl)
      ensures Pushed()
      ensures filterChanges == old(filterChanges) + 1
    {
      var lower := fl - fc + f;
      var upper := fu - fc + f;
      fc := f;
      filter.SetCenterFrequency(fc);
      SetFilter(lower, upper);
    }

    /** `setFilter(lower, upper)`: store both edges as given (nothing orders
        them), push the filter's centre and width, and re-initialise the
        resampler to max(width, 16000) with the scheduler stopped. */
    method SetFilter(lower: real, upper: real)
      requires Valid() && receiver.queue.Settled()
      modifies this, filter, receiver.queue
      ensures Valid() && receiver.queue.Settled()
      ensures receiver.queue.running == old(receiver.queue.running)
      ensures fl == lower && fu == upper && fc == old(fc) && kind == old(kind)
      ensures filter.centerFreq == old(filter.centerFreq)
      ensures filter.filterFreq == FilterCentre(lower, upper) && filter.width == upper - lower
      ensures filter.outRate == OutputRate(upper - lower)
      ensures old(Pushed()) ==> Pushed()
      ensures filterChanges == old(filterChanges) + 1
    {
      fl, fu := lower, upper;
      var width := fu - fl;
      filter.SetFilterFrequency(fl + width / 2.0);
      filter.SetFilterWidth(width);

      var wasRunning := receiver.IsRunning();
      if wasRunning { receiver.Stop(); }
      filter.SetOutputSampleRate(if width >= RateFloor then width else RateFloor);
      if wasRunning { receiver.Start(); }

      filterChanges := filterChanges + 1;
    }

    /** `setDemod(d)`: with the scheduler stopped, unlink the current
        demodulator and link the requested one; afterwards exactly `d` is
        wired, and asking for the current kind changes no connection. */
    method SetDemod(d: Demod)
      requires SharesQueue() && receiver.queue.Settled()
      requires AgcWired(receiver.graph.edges)
      requires DemodWired(receiver.graph.edges, kind) || NoDemodWired(receiver.graph.edges)
      modifies this, receiver.graph, receiver.queue
      ensures Valid() && receiver.queue.Settled()
      ensures receiver.queue.running == old(receiver.queue.running)
      ensures kind == d && Tuning() == old(Tuning()) && filterChanges == old(filterChanges)
      ensures old(Pushed()) ==> Pushed()
      ensures receiver.graph.edges == Rewire(old(receiver.graph.edges), old(kind), d)
      ensures old(DemodWired(receiver.graph.edges, kind)) ==>
        receiver.graph.edges == old(receiver.graph.edges) - DemodEdges(old(kind)) + DemodEdges(d)
      ensures old(DemodWired(receiver.graph.edges, kind)) && d == old(kind) ==>
        receiver.graph.edges == old(receiver.graph.edges)
    {
      ghost var before := receiver.graph.edges;
      if DemodWired(before, kind) {
        RewireSwaps(before, kind, d);
        RewireSameKind(before, kind);
      } else {
        RewireFromNothing(before, kind, d);
      }

      RewireKeepsOthers(before, kind, d, Edge(Agc, BaseBand, true));
      RewireKeepsOthers(before, kind, d, Edge(Agc, Spectrum, false));

      var wasRunning := receiver.IsRunning();
      if wasRunning { receiver.Stop(); }
      Relink(receiver.graph, kind, d);
      kind := d;
      if wasRunning { receiver.Start(); }
    }
  }

  /** The body of `setDemod` between stop and restart: unlink the current
      demodulator's two connections, link the requested one's. */
  method Relink(graph: Graph, current: Demod, next: Demod)
    requires graph.queue.Quiescent()
    modifies graph
    ensures graph.edges == Rewire(old(graph.edges), current, next)
  {
    match current {
      case SSB =>
        graph.Disconnect(BaseBand, SsbDemod);
        graph.Disconnect(SsbDemod, AudioProxy);
      case AM =>
        graph.Disconnect(BaseBand, AmDemod);
        graph.Disconnect(AmDemod, AudioProxy);
      case FM =>
        graph.Disconnect(BaseBand, FmDemod);
        graph.Disconnect(FmDemod, AudioProxy);
    }
    match next {
      case SSB =>
        graph.Connect(BaseBand, SsbDemod, true);
        graph.Connect(SsbDemod, AudioProxy, true);
      case AM =>
        graph.Connect(BaseBand, AmDemod, true);
        graph.Connect(AmDemod, AudioProxy, true);
      case FM =>
        graph.Connect(BaseBand, FmDemod, true);
        graph.Connect(FmDemod, AudioProxy, true);
    }
  }

  /** The channel controller's control view, reduced to the handlers that
      change the controller. Edits arrive as parsed numbers: None when the
      text did not parse. */
  class DemodulatorCtrlView {
    const demodulator: Demodulator

    /** Building the view selects the first mode, AM: edges fc -/+ 5000,
        AM wired in place of the previous kind, a 16 kHz resampler. */
    constructor (demodulator: Demodulator)
      requires demodulator.Valid() && demodulator.receiver.queue.Settled()
      modifies demodulator, demodulator.filter, demodulator.receiver.graph, demodulator.receiver.queue
      ensures this.demodulator == demodulator
      ensures demodulator.Valid() && demodulator.receiver.queue.Settled()
      ensures demodulator.receiver.queue.running == old(demodulator.receiver.queue.running)
      ensures demodulator.kind == AM && demodulator.fc == old(demodulator.fc)
      ensures demodulator.fl == demodulator.fc - 5000.0 && demodulator.fu == demodulator.fc + 5000.0
      ensures demodulator.receiver.graph.edges
        == old(demodulator.receiver.graph.edges) - DemodEdges(old(demodulator.kind)) + DemodEdges(AM)
      ensures demodulator.filter.filterFreq == demodulator.fc && demodulator.filter.width == 10000.0
      ensures demodulator.filter.outRate == OutputRate(10000.0) == RateFloor
      ensures old(demodulator.Pushed()) ==> demodulator.Pushed()
    {
      this.demodulator := demodulator;
      new;
      OnModSelected(0);
    }

    /** `onModSelected(idx)`: apply the preset's edges, then its kind; an
        index outside 0..6 is only logged. */
    method OnModSelected(idx: int)
      requires demodulator.Valid() && demodulator.receiver.queue.Settled()
      modifies demodulator, demodulator.filter, demodulator.receiver.graph, demodulator.receiver.queue
      ensures demodulator.Valid() && demodulator.receiver.queue.Settled()
      ensures demodulator.receiver.queue.running == old(demodulator.receiver.queue.running)
      ensures match ModePreset(idx, old(demodulator.fc))
        case Some(p) =>
          && demodulator.Tuning() == Tuning(old(demodulator.fc), p.lower, p.upper)
          && demodulator.kind == p.kind
          && demodulator.receiver.graph.edges
             == old(demodulator.receiver.graph.edges) - DemodEdges(old(demodulator.kind)) + DemodEdges(p.kind)
          && demodulator.filter.centerFreq == old(demodulator.filter.centerFreq)
          && demodulator.filter.filterFreq == FilterCentre(p.lower, p.upper)
          && demodulator.filter.width == p.upper - p.lower
          && demodulator.filter.outRate == OutputRate(p.upper - p.lower)
          && demodulator.filterChanges == old(demodulator.filterChanges) + 1
          && (old(demodulator.Pushed()) ==> demodulator.Pushed())
        case None =>
          && unchanged(demodulator, demodulator.filter, demodulator.receiver.queue)
          && unchanged(demodulator.receiver.graph)
    {
      var fc := demodulator.CenterFreq();
      if 0 <= idx <= 6 {
        var preset := ModePreset(idx, fc).value;
        demodulator.SetFilter(preset.lower, preset.upper);
        demodulator.SetDemod(preset.kind);
      } else {
        // "Unknown demodulator index": logged, nothing else
      }
    }

    /** `onCenterFreqChanged`: re-centre, then set the edges once more from the
        values read before, which are the edges just set. */
    method OnCenterFreqChanged(value: Option<real>)
      requires demodulator.Valid() && demodulator.receiver.queue.Settled()
      modifies demodulator, demodulator.filter, demodulator.receiver.queue
      ensures demodulator.Valid() && demodulator.receiver.queue.Settled()
      ensures demodulator.receiver.queue.running == old(demodulator.receiver.queue.running)
      ensures value.Some? ==>
        && demodulator.Tuning() == Recenter(old(demodulator.Tuning()), value.value)
        && demodulator.kind == old(demodulator.kind)
        && demodulator.filter.centerFreq == value.value
        && demodulator.filter.filterFreq == FilterCentre(demodulator.fl, demodulator.fu)
        && demodulator.filter.width == demodulator.fu - demodulator.fl
        && demodulator.filter.outRate == OutputRate(demodulator.fu - demodulator.fl)
        && demodulator.Pushed()
        && demodulator.filterChanges == old(demodulator.filterChanges) + 2
      ensures value.None? ==> unchanged(demodulator, demodulator.filter, demodulator.receiver.queue)
    {
      var fc := demodulator.CenterFreq();
      var fmin := demodulator.FilterLower();
      var fmax := demodulator.FilterUpper();
      if value.Some? {
        var f := value.value;
        demodulator.SetCenterFreq(f);
        CenterEditorIdempotent(Tuning(fc, fmin, fmax), f);
        demodulator.SetFilter(fmin - fc + f, fmax - fc + f);
      }
    }

    /** `onLowerFreqChanged`: new lower edge, upper edge kept. */
    method OnLowerFreqChanged(value: Option<real>)
      requires demodulator.Valid() && demodulator.receiver.queue.Settled()
      modifies demodulator, demodulator.filter, demodulator.receiver.queue
      ensures demodulator.Valid() && demodulator.receiver.queue.Settled()
      ensures demodulator.receiver.queue.running == old(demodulator.receiver.queue.running)
      ensures value.Some? ==>
        && demodulator.Tuning() == Tuning(old(demodulator.fc), value.value, old(demodulator.fu))
        && demodulator.kind == old(demodulator.kind)
        && demodulator.filter.centerFreq == old(demodulator.filter.centerFreq)
        && demodulator.filter.filterFreq == FilterCentre(value.value, old(demodulator.fu))
        && demodulator.filter.width == old(demodulator.fu) - value.value
        && demodulator.filter.outRate == OutputRate(old(demodulator.fu) - value.value)
        && (old(demodulator.Pushed()) ==> demodulator.Pushed())
        && demodulator.filterChanges == old(demodulator.filterChanges) + 1
      ensures value.None? ==> unchanged(demodulator, demodulator.filter, demodulator.receiver.queue)
    {
      var fmax := demodulator.FilterUpper();
      if value.Some? {
        demodulator.SetFilter(value.value, fmax);
      }
    }

    /** `onUpperFreqChanged`: new upper edge, lower edge kept. */
    method OnUpperFreqChanged(value: Option<real>)
      requires demodulator.Valid() && demodulator.receiver.queue.Settled()
      modifies demodulator, demodulator.filter, demodulator.receiver.queue
      ensures demodulator.Valid() && demodulator.receiver.queue.Settled()
      ensures demodulator.receiver.queue.running == old(demodulator.receiver.queue.running)
      ensures value.Some? ==>
        && demodulator.Tuning() == Tuning(old(demodulator.fc), old(demodulator.fl), value.value)
        && demodulator.kind == old(demodulator.kind)
        && demodulator.filter.centerFreq == old(demodulator.filter.centerFreq)
        && demodulator.filter.filterFreq == FilterCentre(old(demodulator.fl), value.value)
        && demodulator.filter.width == value.value - old(demodulator.fl)
        && demodulator.filter.outRate == OutputRate(value.value - old(demodulator.fl))
        && (old(demodulator.Pushed()) ==> demodulator.Pushed())
        && demodulator.filterChanges == old(demodulator.filterChanges) + 1
      ensures value.None? ==> unchanged(demodulator, demodulator.filter, demodulator.receiver.queue)
    {
      var fmin := demodulator.FilterLower();
      if value.Some? {
        demodulator.SetFilter(fmin, value.value);
      }
    }
  }

  /**
   * The source controller: a proxy stage fed by exactly one source object,
   * which it replaces on request.
   */
  class DataSourceCtrl {
    const receiver: Receiver
    var source: Src
    /** `_src_obj`; None is the null pointer it is constructed with. */
    var obj: Option<SourceObj>
    /** The instance number the next source object gets. */
    var nextId: nat
    /** Instance numbers of the objects handed to deferred deletion. */
    var retired: set<nat>

    ghost predicate Consistent()
      reads this, receiver.graph
    {
      && receiver.graph.queue == receiver.queue
      && InstancesBelow(receiver.graph.edges, nextId)
      && (forall i :: i in retired ==> i < nextId)
      && (obj.Some? ==>
            && KindOf(obj.value) == source
            && IdOf(obj.value) < nextId && IdOf(obj.value) !in retired
            && SoleFeeder(receiver.graph.edges, OutputOf(obj.value), SourceProxy)
            && WiringOf(obj.value) <= receiver.graph.edges)
      && (obj.None? ==> Unfed(receiver.graph.edges, SourceProxy))
    }

    ghost predicate Valid()
      reads this, receiver.graph
    {
      Consistent() && obj.Some?
    }

    /** Starts on the line input. */
    constructor (receiver: Receiver)
      requires receiver.graph.queue == receiver.queue && receiver.queue.Quiescent()
      requires InstancesBelow(receiver.graph.edges, 0) && Unfed(receiver.graph.edges, SourceProxy)
      modifies receiver.graph, receiver.queue
      ensures this.receiver == receiver && Valid()
      ensures source == Port && obj.value.PortAudioObj? && retired == {}
      ensures receiver.graph.edges
        == old(receiver.graph.edges) + SourceSide(obj.value)
      ensures receiver.queue.Quiescent()
    {
      this.receiver := receiver;
      source, obj, nextId, retired := Port, None, 0, {};
      new;
      // as written, the teardown inside this first setSource runs on null
      assert TeardownAsWritten(obj).NullDereference?;
      SetSource(Port, false);
    }

    /** `source()`: the selected kind. */
    function Source(): (k: Src)
      reads this
    {
      source
    }

    /** `setSource(k)`: with the scheduler stopped, replace the current
        object by a new one of kind k, even when k is the current kind.
        `rtlDeviceAvailable` is whether the tuner can be opened. */
    method SetSource(k: Src, rtlDeviceAvailable: bool)
      requires Consistent() && receiver.queue.Settled()
      modifies this, receiver.graph, receiver.queue
      ensures Valid() && receiver.queue.Settled()
      ensures receiver.queue.running == old(receiver.queue.running)
      ensures source == k && KindOf(obj.value) == k
      ensures IdOf(obj.value) == old(nextId) && fresh(ObjectsOf(obj.value))
      ensures old(obj).Some? ==> IdOf(obj.value) != IdOf(old(obj).value)
      ensures retired == old(retired) + if old(obj).Some? then {IdOf(old(obj).value)} else {}
      ensures k == Rtl ==> obj.value.r.device == if rtlDeviceAvailable then Some(Tuner(100000000.0, 225001.0)) else None
      ensures receiver.graph.edges
        == Detach(old(receiver.graph.edges), if old(obj).Some? then StagesOf(old(obj).value) else {})
           + WiringOf(obj.value) + {Edge(OutputOf(obj.value), SourceProxy, true)}
    {
      var wasRunning := receiver.IsRunning();
      if wasRunning { receiver.Stop(); }
      Replace(k, rtlDeviceAvailable);
      if wasRunning { receiver.Start(); }
    }

    /** The body of `setSource` between stop and restart: retire the current
        object, then install a new one. */
    method Replace(k: Src, rtlDeviceAvailable: bool)
      requires Consistent() && receiver.queue.Quiescent()
      modifies this, receiver.graph
      ensures Valid()
      ensures source == k && KindOf(obj.value) == k
      ensures IdOf(obj.value) == old(nextId) && fresh(ObjectsOf(obj.value))
      ensures old(obj).Some? ==> IdOf(obj.value) != IdOf(old(obj).value)
      ensures retired == old(retired) + if old(obj).Some? then {IdOf(old(obj).value)} else {}
      ensures k == Rtl ==> obj.value.r.device == if rtlDeviceAvailable then Some(Tuner(100000000.0, 225001.0)) else None
      ensures receiver.graph.edges
        == Detach(old(receiver.graph.edges), if old(obj).Some? then StagesOf(old(obj).value) else {})
           + WiringOf(obj.value) + {Edge(OutputOf(obj.value), SourceProxy, true)}
    {
      Retire();
      Install(k, rtlDeviceAvailable);
    }

    /** The old object, if any, is disconnected from this controller's
        signals and handed to deferred deletion, which frees its stages and
        with them their connections, the one into this proxy included. */
    method Retire()
      requires Consistent() && receiver.queue.Quiescent()
      modifies this`retired, receiver.graph
      ensures receiver.graph.edges
        == Detach(old(receiver.graph.edges), if obj.Some? then StagesOf(obj.value) else {})
      ensures retired == old(retired) + if obj.Some? then {IdOf(obj.value)} else {}
      ensures obj.None? ==> receiver.graph.edges == old(receiver.graph.edges)
      ensures Unfed(receiver.graph.edges, SourceProxy) && InstancesBelow(receiver.graph.edges, nextId)
      ensures forall i :: i in retired ==> i < nextId
    {
      Retirement(receiver.graph.edges, obj, nextId);
      if obj.Some? {
        receiver.graph.Destroy(StagesOf(obj.value));
        retired := retired + {IdOf(obj.value)};
      }
    }

    /** Build an object of kind k under the next instance number and make its
        output the one stage feeding the controller. */
    method Install(k: Src, rtlDeviceAvailable: bool)
      requires receiver.graph.queue == receiver.queue && receiver.queue.Quiescent()
      requires Unfed(receiver.graph.edges, SourceProxy) && InstancesBelow(receiver.graph.edges, nextId)
      requires forall i :: i in retired ==> i < nextId
      modifies this`source, this`obj, this`nextId, receiver.graph
      ensures Valid()
      ensures source == k && KindOf(obj.value) == k
      ensures IdOf(obj.value) == old(nextId) && fresh(ObjectsOf(obj.value))
      ensures k == Rtl ==> obj.value.r.device == if rtlDeviceAvailable then Some(Tuner(100000000.0, 225001.0)) else None
      ensures receiver.graph.edges
        == old(receiver.graph.edges) + WiringOf(obj.value) + {Edge(OutputOf(obj.value), SourceProxy, true)}
    {
      var graph := receiver.graph;
      ghost var cleared := graph.edges;
      source := k;
      var id := nextId;
      nextId := nextId + 1;
      var o := NewSourceObj(k, rtlDeviceAvailable, id, graph);
      obj := Some(o);
      Attach(cleared, o);
      graph.Connect(OutputOf(o), SourceProxy, true);
    }

    /** The scheduler's idle notification: pull the next buffer from the
        current object, and from no other. */
    method OnQueueIdle()
      requires Valid()
      modifies ObjectsOf(obj.value)
      ensures PullsOf(obj.value) == old(PullsOf(obj.value)) + if source == Rtl then 0 else 1
      ensures obj.value.FileObj? ==>
        obj.value.f.readerOpen == old(obj.value.f.readerOpen) && obj.value.f.Filepath() == old(obj.value.f.Filepath())
    {
      match obj.value
      case PortAudioObj(p) => p.TriggerNext();
      case PortAudioIQObj(q) => q.TriggerNext();
      case FileObj(f) => f.TriggerNext();
      case RtlObj(_) =>
        // the tuner is self-clocked: its triggerNext does nothing
    }
  }

  /** The `switch` of `setSource` that builds the new object of kind k. */
  method NewSourceObj(k: Src, rtlDeviceAvailable: bool, id: nat, graph: Graph) returns (o: SourceObj)
    requires graph.queue.Quiescent() && Unused(graph.edges, id)
    modifies graph
    ensures KindOf(o) == k && IdOf(o) == id && fresh(ObjectsOf(o))
    ensures (o.PortAudioObj? ==> o.p.pulls == 0) && (o.PortAudioIQObj? ==> o.q.pulls == 0) && (o.FileObj? ==> o.f.pulls == 0)
    ensures k == Rtl ==> o.r.device == if rtlDeviceAvailable then Some(Tuner(100000000.0, 225001.0)) else None
    ensures graph.edges == old(graph.edges) + WiringOf(o)
  {
    match k {
      case Port =>
        var p := new PortAudioSource(id, graph);
        o := PortAudioObj(p);
      case PortIQ =>
        var q := new PortAudioIQSource(id, graph);
        o := PortAudioIQObj(q);
      case File =>
        var f := new FileSource(id, graph);
        o := FileObj(f);
      case Rtl =>
        var r := new RTLDataSource(100000000.0, 225001.0, rtlDeviceAvailable, id, graph);
        o := RtlObj(r);
    }
  }

  /** Destroying the stages of the current object (if any) leaves nothing
      feeding the controller and no stage of a later instance. */
  lemma Retirement(es: set<Edge>, current: Option<SourceObj>, bound: nat)
    requires InstancesBelow(es, bound)
    requires current.Some? ==> SoleFeeder(es, OutputOf(current.value), SourceProxy)
    requires current.None? ==> Unfed(es, SourceProxy)
    ensures current.None? ==> Detach(es, {}) == es
    ensures Unfed(Detach(es, if current.Some? then StagesOf(current.value) else {}), SourceProxy)
    ensures InstancesBelow(Detach(es, if current.Some? then StagesOf(current.value) else {}), bound)
  {
    if current.Some? {
      DetachFeeder(es, OutputOf(current.value), SourceProxy, StagesOf(current.value));
    }
  }

  /** Adding a new object's internal connections and then its output as the
      controller's feed, into a graph where nothing feeds the controller and
      no stage of that object exists yet, makes the output the sole feeder. */
  lemma Attach(es: set<Edge>, o: SourceObj)
    requires Unfed(es, SourceProxy) && InstancesBelow(es, IdOf(o))
    ensures Link(es + WiringOf(o), OutputOf(o), SourceProxy, true)
      == es + WiringOf(o) + {Edge(OutputOf(o), SourceProxy, true)}
    ensures SoleFeeder(Link(es + WiringOf(o), OutputOf(o), SourceProxy, true), OutputOf(o), SourceProxy)
    ensures InstancesBelow(Link(es + WiringOf(o), OutputOf(o), SourceProxy, true), IdOf(o) + 1)
  {
  }

  /** What the first two statements of `setSource` do to the current object
      as the code stands: they call through the pointer without checking it. */
  datatype Teardown = Disposed(stages: set<Node>) | NullDereference

  function TeardownAsWritten(current: Option<SourceObj>): (r: Teardown)
    ensures r.NullDereference? <==> current.None?
    ensures r.Disposed? ==> r.stages == StagesOf(current.value) && OutputOf(current.value) in r.stages
  {
    match current
    case None => NullDereference
    case Some(o) => Disposed(StagesOf(o))
  }

  /** The controller's constructor sets the pointer to null and then calls
      `setSource`, so the unguarded teardown runs on null on every start-up. */
  lemma ConstructionDereferencesNull()
    ensures TeardownAsWritten(None).NullDereference?
  {
  }

  /** The source controller's control view: a selector of four entries. */
  class DataSourceCtrlView {
    const ctrl: DataSourceCtrl
    /** The last valid selector entry chosen; an out-of-range index (such as
        the -1 a cleared selector reports) leaves it as it was. */
    var selected: int

    /** The selector opens on the entry of the controller's current kind. */
    constructor (ctrl: DataSourceCtrl)
      ensures this.ctrl == ctrl
      ensures selected == IndexOfSource(ctrl.source) && SourceOfIndex(selected) == Some(ctrl.source)
    {
      this.ctrl := ctrl;
      selected := IndexOfSource(ctrl.source);
    }

    /** `_onSourceSelected(index)`: the selector now shows entry `index`;
        entries 0..3 switch the controller to that kind, which then shows at
        the same entry; any other index returns without touching the
        controller. */
    method OnSourceSelected(index: int, rtlDeviceAvailable: bool)
      requires ctrl.Consistent() && ctrl.receiver.queue.Settled()
      modifies this, ctrl, ctrl.receiver.graph, ctrl.receiver.queue
      ensures ctrl.Consistent() && ctrl.receiver.queue.Settled()
      ensures ctrl.receiver.queue.running == old(ctrl.receiver.queue.running)
      ensures 0 <= index < 4 ==>
        && selected == index
        && ctrl.Valid()
        && SourceOfIndex(index) == Some(ctrl.source) && IndexOfSource(ctrl.source) == index
        && KindOf(ctrl.obj.value) == ctrl.source
        && IdOf(ctrl.obj.value) == old(ctrl.nextId) && fresh(ObjectsOf(ctrl.obj.value))
        && (old(ctrl.obj).Some? ==> IdOf(ctrl.obj.value) != IdOf(old(ctrl.obj).value))
        && ctrl.retired == old(ctrl.retired) + (if old(ctrl.obj).Some? then {IdOf(old(ctrl.obj).value)} else {})
        && ctrl.receiver.graph.edges
           == Detach(old(ctrl.receiver.graph.edges), if old(ctrl.obj).Some? then StagesOf(old(ctrl.obj).value) else {})
              + WiringOf(ctrl.obj.value) + {Edge(OutputOf(ctrl.obj.value), SourceProxy, true)}
      ensures index == 3 ==> ctrl.obj.value.r.device == if rtlDeviceAvailable then Some(Tuner(100000000.0, 225001.0)) else None
      ensures !(0 <= index < 4) ==> unchanged(this, ctrl, ctrl.receiver.graph, ctrl.receiver.queue)
    {
      match SourceOfIndex(index)
      case Some(k) =>
        selected := index;
        ctrl.SetSource(k, rtlDeviceAvailable);
        IndexRoundTrip(index);
      case None =>
        return;
    }
  }
}
