/**
 * The input side: the four kinds of data source, the mapping between the
 * kinds and the entries of the source selector, and the source objects
 * themselves. Each source object owns a small chain of stages and exposes
 * exactly one of them as its output.
 */
module Sources {
  import opened Wrappers
  import opened Pipeline

  /** `DataSourceCtrl::Src`: line input, stereo I/Q input, WAV file, RTL2832 tuner. */
  datatype Src = Port | PortIQ | File | Rtl

  /** The selector entry shown for a kind (the control view's constructor). */
  function IndexOfSource(k: Src): (i: int)
    ensures 0 <= i < 4
    ensures SourceOfIndex(i) == Some(k)
  {
    match k
    case Port => 0
    case PortIQ => 1
    case File => 2
    case Rtl => 3
  }

  /** The kind a selector entry stands for; None for any other index, on which
      the view returns without touching the controller. */
  function SourceOfIndex(i: int): (r: Option<Src>)
    ensures r.Some? <==> 0 <= i < 4
  {
    if i == 0 then Some(Port)
    else if i == 1 then Some(PortIQ)
    else if i == 2 then Some(File)
    else if i == 3 then Some(Rtl)
    else None
  }

  /** Every valid selector entry maps to a kind that is shown at that entry. */
  lemma IndexRoundTrip(i: int)
    requires 0 <= i < 4
    ensures IndexOfSource(SourceOfIndex(i).value) == i
  {
  }

  /** Line-input audio source: PortAudio input -> real-to-complex -> itself. */
  class PortAudioSource {
    const id: nat
    /** Buffers requested from the audio input with `next()`. */
    var pulls: nat

    static function Wiring(id: nat): set<Edge>
    {
      {Edge(PortInput(id), PortToComplex(id), true), Edge(PortToComplex(id), PortProxy(id), true)}
    }

    constructor (id: nat, graph: Graph)
      requires graph.queue.Quiescent() && Unused(graph.edges, id)
      modifies graph
      ensures this.id == id && pulls == 0
      ensures graph.edges == old(graph.edges) + Wiring(id)
    {
      this.id := id;
      pulls := 0;
      new;
      graph.Connect(PortInput(id), PortToComplex(id), true);
      graph.Connect(PortToComplex(id), PortProxy(id), true);
    }

    method TriggerNext()
      modifies this
      ensures pulls == old(pulls) + 1
    {
      pulls := pulls + 1;
    }
  }

  /** Stereo I/Q audio source: PortAudio input -> itself. */
  class PortAudioIQSource {
    const id: nat
    var pulls: nat

    static function Wiring(id: nat): set<Edge>
    {
      {Edge(PortIQInput(id), PortIQProxy(id), true)}
    }

    constructor (id: nat, graph: Graph)
      requires graph.queue.Quiescent() && Unused(graph.edges, id)
      modifies graph
      ensures this.id == id && pulls == 0
      ensures graph.edges == old(graph.edges) + Wiring(id)
    {
      this.id := id;
      pulls := 0;
      new;
      graph.Connect(PortIQInput(id), PortIQProxy(id), true);
    }

    method TriggerNext()
      modifies this
      ensures pulls == old(pulls) + 1
    {
      pulls := pulls + 1;
    }
  }

  /** How an attempt to open a WAV file ended, as the reader reports it: it
      opened, or it raised an error and the reader is or is not left open. */
  datatype OpenOutcome = Opened | Raised(stillOpen: bool)
  {
    predicate OpenAfter()
    {
      Opened? || stillOpen
    }
  }

  /** WAV file replay: WAV reader -> AutoCast -> itself. */
  class FileSource {
    const id: nat
    /** Whether the WAV reader has a file open (`isOpen()`). */
    var readerOpen: bool
    /** The path recorded by the last open after which the reader was open. */
    var filename: string
    /** Buffers requested from the reader with `next()`. */
    var pulls: nat

    static function Wiring(id: nat): set<Edge>
    {
      {Edge(WavReader(id), WavCast(id), true), Edge(WavCast(id), FileProxy(id), true)}
    }

    constructor (id: nat, graph: Graph)
      requires graph.queue.Quiescent() && Unused(graph.edges, id)
      modifies graph
      ensures this.id == id && !readerOpen && filename == "" && pulls == 0
      ensures graph.edges == old(graph.edges) + Wiring(id)
    {
      this.id := id;
      readerOpen, filename, pulls := false, "", 0;
      new;
      graph.Connect(WavReader(id), WavCast(id), true);
      graph.Connect(WavCast(id), FileProxy(id), true);
    }

    /** `open(path)`: an error from the reader is caught, never passed on; the
        path is recorded exactly when the reader is open after the attempt. */
    method Open(path: string, outcome: OpenOutcome)
      modifies this
      ensures readerOpen == outcome.OpenAfter()
      ensures Filepath() == if readerOpen then path else old(Filepath())
      ensures pulls == old(pulls)
    {
      readerOpen := outcome.OpenAfter();
      if !readerOpen {
        return;
      }
      filename := path;
    }

    /** `filepath()`. */
    function Filepath(): (p: string)
      reads this
    {
      filename
    }

    /** `triggerNext()`: exactly one `next()` on the reader. */
    method TriggerNext()
      modifies this
      ensures pulls == old(pulls) + 1
      ensures readerOpen == old(readerOpen) && filename == old(filename)
    {
      pulls := pulls + 1;
    }
  }

  /** What the tuner was asked for: centre frequency and sample rate. */
  datatype Tuner = Tuner(frequency: real, sampleRate: real)

  /** RTL2832 tuner: device -> int8-to-int16 cast. The cast stage always
      exists; the device only when it could be opened. */
  class RTLDataSource {
    const id: nat
    /** `_device`; None when the device constructor raised an error. */
    const device: Option<Tuner>

    /** The error of the device constructor is caught: the object then exists
        without a device, its cast stage unconnected. */
    constructor (frequency: real, sampleRate: real, deviceAvailable: bool, id: nat, graph: Graph)
      requires graph.queue.Quiescent() && Unused(graph.edges, id)
      modifies graph
      ensures this.id == id
      ensures device == if deviceAvailable then Some(Tuner(frequency, sampleRate)) else None
      ensures graph.edges == old(graph.edges) + Wiring()
    {
      this.id := id;
      device := if deviceAvailable then Some(Tuner(frequency, sampleRate)) else None;
      new;
      if device.Some? {
        graph.Connect(RtlDevice(id), RtlCast(id), true);
      }
    }

    /** The device -> cast connection exists exactly when a device exists. */
    function Wiring(): (w: set<Edge>)
      ensures Edge(RtlDevice(id), RtlCast(id), true) in w <==> device.Some?
      ensures |w| <= 1
    {
      if device.Some? then {Edge(RtlDevice(id), RtlCast(id), true)} else {}
    }

    /** The stages the destructor frees: the device when there is one, the
        cast stage always. */
    function Stages(): (s: set<Node>)
      ensures RtlCast(id) in s
      ensures RtlDevice(id) in s <==> device.Some?
      ensures forall n :: n in s ==> InstanceOf(n) == id
    {
      if device.Some? then {RtlDevice(id), RtlCast(id)} else {RtlCast(id)}
    }

    function IsActive(): (active: bool)
      ensures active <==> Edge(RtlDevice(id), RtlCast(id), true) in Wiring()
    {
      device.Some?
    }

    /** `source()` is the cast stage, with or without a device. */
    function Source(): (n: Node)
      ensures n in Stages() && n.RtlCast?
    {
      RtlCast(id)
    }
  }

  /** The current source object of the controller, one of the four variants. */
  datatype SourceObj =
    | PortAudioObj(p: PortAudioSource)
    | PortAudioIQObj(q: PortAudioIQSource)
    | FileObj(f: FileSource)
    | RtlObj(r: RTLDataSource)

  /** The kind an object was created for. */
  function KindOf(o: SourceObj): Src
  {
    match o
    case PortAudioObj(_) => Port
    case PortAudioIQObj(_) => PortIQ
    case FileObj(_) => File
    case RtlObj(_) => Rtl
  }

  function IdOf(o: SourceObj): nat
  {
    match o
    case PortAudioObj(p) => p.id
    case PortAudioIQObj(q) => q.id
    case FileObj(f) => f.id
    case RtlObj(r) => r.id
  }

  /** The stages an object owns, freed with it. */
  function StagesOf(o: SourceObj): (s: set<Node>)
    ensures forall n :: n in s ==> InstanceOf(n) == IdOf(o)
  {
    match o
    case PortAudioObj(p) => {PortInput(p.id), PortToComplex(p.id), PortProxy(p.id)}
    case PortAudioIQObj(q) => {PortIQInput(q.id), PortIQProxy(q.id)}
    case FileObj(f) => {WavReader(f.id), WavCast(f.id), FileProxy(f.id)}
    case RtlObj(r) => r.Stages()
  }

  /** The connections an object makes among its own stages. */
  function WiringOf(o: SourceObj): (w: set<Edge>)
    ensures forall e :: e in w ==> e.src in StagesOf(o) && e.dst in StagesOf(o)
  {
    match o
    case PortAudioObj(p) => PortAudioSource.Wiring(p.id)
    case PortAudioIQObj(q) => PortAudioIQSource.Wiring(q.id)
    case FileObj(f) => FileSource.Wiring(f.id)
    case RtlObj(r) => r.Wiring()
  }

  /** `source()`: every variant exposes exactly one output stage, one of its own. */
  function OutputOf(o: SourceObj): (n: Node)
    ensures n in StagesOf(o)
    ensures n.PortProxy? || n.PortIQProxy? || n.FileProxy? || n.RtlCast?
  {
    match o
    case PortAudioObj(p) => PortProxy(p.id)
    case PortAudioIQObj(q) => PortIQProxy(q.id)
    case FileObj(f) => FileProxy(f.id)
    case RtlObj(r) => r.Source()
  }

  /** The heap objects a source object consists of. */
  function ObjectsOf(o: SourceObj): set<object>
  {
    match o
    case PortAudioObj(p) => {p}
    case PortAudioIQObj(q) => {q}
    case FileObj(f) => {f}
    case RtlObj(r) => {r}
  }

  /** Buffers pulled from the object so far; the self-clocked tuner is never pulled. */
  function PullsOf(o: SourceObj): nat
    reads ObjectsOf(o)
  {
    match o
    case PortAudioObj(p) => p.pulls
    case PortAudioIQObj(q) => q.pulls
    case FileObj(f) => f.pulls
    case RtlObj(_) => 0
  }
}
