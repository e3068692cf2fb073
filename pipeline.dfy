/**
 * The processing graph and the scheduler that drives it, as the receiver's
 * control plane sees them. Stages are opaque identities; a connection is a
 * directed edge that remembers whether the sink may overwrite the buffer it is
 * handed. The scheduler is a run state with a blocking stop.
 */
module Pipeline {

  /** Every stage the control plane creates or wires. Stages owned by a source
      object carry that object's instance number, so that two instances of the
      same source kind never share a stage. */
  datatype Node =
    // stages owned by the channel controller (Demodulator)
    | Agc | BaseBand | SsbDemod | AmDemod | FmDemod | AudioProxy | Spectrum
    // the source controller itself, a proxy every source feeds
    | SourceProxy
    // the entry stage of the audio post-processor
    | AudioPostProc
    // stages owned by one source object, numbered by instance
    | PortInput(id: nat) | PortToComplex(id: nat) | PortProxy(id: nat)
    | PortIQInput(id: nat) | PortIQProxy(id: nat)
    | WavReader(id: nat) | WavCast(id: nat) | FileProxy(id: nat)
    | RtlDevice(id: nat) | RtlCast(id: nat)

  /** The instance number of a stage owned by a source object, -1 for the
      stages that live as long as the receiver. */
  function InstanceOf(n: Node): (i: int)
    ensures i >= -1
  {
    match n
    case PortInput(id) => id
    case PortToComplex(id) => id
    case PortProxy(id) => id
    case PortIQInput(id) => id
    case PortIQProxy(id) => id
    case WavReader(id) => id
    case WavCast(id) => id
    case FileProxy(id) => id
    case RtlDevice(id) => id
    case RtlCast(id) => id
    case _ => -1
  }

  /** A connection src -> dst; `overwrite` allows dst to work on the buffer in place. */
  datatype Edge = Edge(src: Node, dst: Node, overwrite: bool)

  /** True when some connection src -> dst exists, whatever its overwrite flag. */
  predicate Linked(es: set<Edge>, src: Node, dst: Node)
  {
    Edge(src, dst, true) in es || Edge(src, dst, false) in es
  }

  /** `connect`: a no-op when src is already connected to dst. */
  function Link(es: set<Edge>, src: Node, dst: Node, overwrite: bool): (r: set<Edge>)
    ensures Linked(r, src, dst)
    ensures es <= r && r - es <= {Edge(src, dst, overwrite)}
    ensures Linked(es, src, dst) ==> r == es
  {
    if Linked(es, src, dst) then es else es + {Edge(src, dst, overwrite)}
  }

  /** `disconnect`: a no-op when src is not connected to dst. */
  function Unlink(es: set<Edge>, src: Node, dst: Node): (r: set<Edge>)
    ensures !Linked(r, src, dst)
    ensures r <= es
    ensures forall e :: e in es && (e.src != src || e.dst != dst) ==> e in r
    ensures !Linked(es, src, dst) ==> r == es
  {
    es - {Edge(src, dst, true), Edge(src, dst, false)}
  }

  /** What remains of the graph once the given stages are destroyed: every
      connection out of or into one of them is gone. */
  function Detach(es: set<Edge>, stages: set<Node>): (r: set<Edge>)
    ensures r <= es
    ensures forall e :: e in r ==> e.src !in stages && e.dst !in stages
    ensures forall e :: e in es && e.src !in stages && e.dst !in stages ==> e in r
  {
    set e | e in es && e.src !in stages && e.dst !in stages
  }

  /** `src` is the one and only stage feeding `dst`, with overwrite allowed. */
  ghost predicate SoleFeeder(es: set<Edge>, src: Node, dst: Node)
  {
    Edge(src, dst, true) in es && forall e :: e in es && e.dst == dst ==> e == Edge(src, dst, true)
  }

  /** Nothing feeds `dst`. */
  ghost predicate Unfed(es: set<Edge>, dst: Node)
  {
    forall e :: e in es ==> e.dst != dst
  }

  /** No connection touches a stage of instance `id`: its stages are new. */
  ghost predicate Unused(es: set<Edge>, id: nat)
  {
    forall e :: e in es ==> InstanceOf(e.src) != id && InstanceOf(e.dst) != id
  }

  /** Every source-object stage in the graph belongs to an instance numbered below `bound`. */
  ghost predicate InstancesBelow(es: set<Edge>, bound: nat)
  {
    forall e :: e in es ==> InstanceOf(e.src) < bound && InstanceOf(e.dst) < bound
  }

  /** Connecting twice is connecting once. */
  lemma LinkIdempotent(es: set<Edge>, src: Node, dst: Node, overwrite: bool)
    ensures Link(Link(es, src, dst, overwrite), src, dst, overwrite) == Link(es, src, dst, overwrite)
  {
  }

  /** Disconnecting a pair that was just connected restores the graph, when the
      pair was not connected before. */
  lemma UnlinkUndoesLink(es: set<Edge>, src: Node, dst: Node, overwrite: bool)
    requires !Linked(es, src, dst)
    ensures Unlink(Link(es, src, dst, overwrite), src, dst) == es
  {
  }

  /** Removing the stages of an owner that fed `dst` leaves `dst` unfed. */
  lemma DetachFeeder(es: set<Edge>, src: Node, dst: Node, stages: set<Node>)
    requires SoleFeeder(es, src, dst) && src in stages
    ensures Unfed(Detach(es, stages), dst)
  {
  }

  /**
   * The buffer-passing scheduler (`sdr::Queue`), reduced to its run state.
   * `running` is what `isRunning()` reports; `busy` is true while the
   * processing context may still be inside a stage callback. `stop()` only
   * asks the processing context to finish; `wait()` blocks until it has.
   */
  class Scheduler {
    var running: bool
    var busy: bool

    constructor ()
      ensures !running && !busy
    {
      running, busy := false, false;
    }

    /** No stage callback is or will be executing: the graph may be rewired. */
    predicate Quiescent()
      reads this
    {
      !running && !busy
    }

    /** Between control calls the processing context is active exactly when
        the scheduler reports running. */
    predicate Settled()
      reads this
    {
      busy == running
    }

    method Start()
      modifies this
      ensures running && busy
    {
      running, busy := true, true;
    }

    method Stop()
      modifies this
      ensures !running && busy == old(busy)
    {
      running := false;
    }

    method Wait()
      requires !running
      modifies this
      ensures Quiescent()
    {
      busy := false;
    }
  }

  /**
   * The connections between all stages. In the library each stage keeps its
   * own list of sinks; the union of those lists is `edges`. Connections may
   * only change while the scheduler is quiescent.
   */
  class Graph {
    const queue: Scheduler
    var edges: set<Edge>

    constructor (queue: Scheduler)
      ensures this.queue == queue && edges == {}
    {
      this.queue := queue;
      edges := {};
    }

    method Connect(src: Node, dst: Node, overwrite: bool)
      requires queue.Quiescent()
      modifies this
      ensures edges == Link(old(edges), src, dst, overwrite)
    {
      edges := Link(edges, src, dst, overwrite);
    }

    method Disconnect(src: Node, dst: Node)
      requires queue.Quiescent()
      modifies this
      ensures edges == Unlink(old(edges), src, dst)
    {
      edges := Unlink(edges, src, dst);
    }

    /** The given stages are destroyed, and their connections with them.
        Destruction is deferred to the event loop, so nothing orders it
        with respect to the scheduler's run state. */
    method Destroy(stages: set<Node>)
      modifies this
      ensures edges == Detach(old(edges), stages)
    {
      edges := Detach(edges, stages);
    }
  }

  /**
   * The channel filter stage (`IQBaseBand`): frequency translation to the
   * centre, a band-pass around the filter frequency, and resampling to the
   * output rate. Re-initialising the resampler is only valid while the
   * scheduler is quiescent; the other parameters may be pushed at any time.
   */
  class IQBaseBand {
    const queue: Scheduler
    var centerFreq: real
    var filterFreq: real
    var width: real
    var outRate: real

    /** The filter frequency starts at the translation frequency. */
    constructor (queue: Scheduler, tf: real, width: real, oFs: real)
      ensures this.queue == queue
      ensures centerFreq == tf && filterFreq == tf && this.width == width && outRate == oFs
    {
      this.queue := queue;
      centerFreq, filterFreq, this.width, outRate := tf, tf, width, oFs;
    }

    method SetCenterFrequency(f: real)
      modifies this
      ensures centerFreq == f
      ensures filterFreq == old(filterFreq) && width == old(width) && outRate == old(outRate)
    {
      centerFreq := f;
    }

    method SetFilterFrequency(f: real)
      modifies this
      ensures filterFreq == f
      ensures centerFreq == old(centerFreq) && width == old(width) && outRate == old(outRate)
    {
      filterFreq := f;
    }

    method SetFilterWidth(w: real)
      modifies this
      ensures width == w
      ensures centerFreq == old(centerFreq) && filterFreq == old(filterFreq) && outRate == old(outRate)
    {
      width := w;
    }

    method SetOutputSampleRate(r: real)
      requires queue.Quiescent()
      modifies this
      ensures outRate == r
      ensures centerFreq == old(centerFreq) && filterFreq == old(filterFreq) && width == old(width)
    {
      outRate := r;
    }
  }

  /**
   * The automatic gain control stage, reduced to the parameters the control
   * plane pushes to it. The gain is kept in dB here (a linear gain of 1 is
   * 0 dB). Its defaults belong to the library and are left unspecified.
   */
  class Agc {
    var enabled: bool
    var gainDb: real
    var tau: real

    constructor ()
    {
    }

    method Enable(on: bool)
      modifies this
      ensures enabled == on && gainDb == old(gainDb) && tau == old(tau)
    {
      enabled := on;
    }

    method SetGain(db: real)
      modifies this
      ensures gainDb == db && enabled == old(enabled) && tau == old(tau)
    {
      gainDb := db;
    }

    method SetTau(t: real)
      modifies this
      ensures tau == t && enabled == old(enabled) && gainDb == old(gainDb)
    {
      tau := t;
    }
  }
}
