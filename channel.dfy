/**
 * The value-level part of the channel controller (`Demodulator`): its
 * demodulator kinds, the bookkeeping of centre frequency and filter edges,
 * the derived filter parameters, the mode presets of its control view, and
 * the rewiring that swaps one demodulator for another.
 *
 * Frequencies are exact reals; the source's doubles satisfy the equalities
 * stated here up to rounding.
 */
module Channel {
  import opened Wrappers
  import opened Pipeline

  /** The three demodulators a channel can select. */
  datatype Demod = SSB | AM | FM

  /** The stage implementing each kind. */
  function DemodStage(k: Demod): (n: Node)
    ensures IsDemodStage(n)
  {
    match k
    case SSB => SsbDemod
    case AM => AmDemod
    case FM => FmDemod
  }

  predicate IsDemodStage(n: Node)
  {
    n.SsbDemod? || n.AmDemod? || n.FmDemod?
  }

  /** The stages a channel controller owns for its whole life. */
  predicate IsChannelStage(n: Node)
  {
    n.Agc? || n.BaseBand? || IsDemodStage(n) || n.AudioProxy? || n.Spectrum?
  }

  /** No connection touches a channel stage: the stages are new. */
  ghost predicate ChannelUnused(es: set<Edge>)
  {
    forall e :: e in es ==> !IsChannelStage(e.src) && !IsChannelStage(e.dst)
  }

  /** The two connections that put kind k into the chain. */
  function DemodEdges(k: Demod): set<Edge>
  {
    {Edge(BaseBand, DemodStage(k), true), Edge(DemodStage(k), AudioProxy, true)}
  }

  /** Exactly one demodulator, kind k, is in the chain: it is fed by the
      channel filter and feeds the audio proxy, and no other connection
      touches any demodulator stage. */
  ghost predicate DemodWired(es: set<Edge>, k: Demod)
  {
    && DemodEdges(k) <= es
    && forall e :: e in es && (IsDemodStage(e.src) || IsDemodStage(e.dst)) ==> e in DemodEdges(k)
  }

  /** No connection touches a demodulator stage. */
  ghost predicate NoDemodWired(es: set<Edge>)
  {
    forall e :: e in es ==> !IsDemodStage(e.src) && !IsDemodStage(e.dst)
  }

  /** What `setDemod` does to the graph: unlink the two connections of the
      current kind, then link the two of the requested kind. */
  function Rewire(es: set<Edge>, current: Demod, next: Demod): (r: set<Edge>)
    ensures Linked(r, BaseBand, DemodStage(next)) && Linked(r, DemodStage(next), AudioProxy)
    ensures current != next ==> !Linked(r, BaseBand, DemodStage(current)) && !Linked(r, DemodStage(current), AudioProxy)
    ensures r - DemodEdges(next) <= es
  {
    var unlinked := Unlink(Unlink(es, BaseBand, DemodStage(current)), DemodStage(current), AudioProxy);
    Link(Link(unlinked, BaseBand, DemodStage(next), true), DemodStage(next), AudioProxy, true)
  }

  /** Connections that touch no demodulator keep exactly `k` wired. */
  lemma KeepsDemodWired(es: set<Edge>, r: set<Edge>, added: set<Edge>, k: Demod)
    requires es <= r <= es + added
    requires DemodWired(es, k)
    requires forall e :: e in added ==> !IsDemodStage(e.src) && !IsDemodStage(e.dst)
    ensures DemodWired(r, k)
  {
  }

  /** Rewiring from a graph with exactly `current` wired replaces its two
      connections by those of `next` and touches nothing else. */
  lemma {:induction false} RewireSwaps(es: set<Edge>, current: Demod, next: Demod)
    requires DemodWired(es, current)
    ensures Rewire(es, current, next) == es - DemodEdges(current) + DemodEdges(next)
    ensures DemodWired(Rewire(es, current, next), next)
  {
    var s, a := DemodStage(current), DemodStage(next);
    var u := Unlink(Unlink(es, BaseBand, s), s, AudioProxy);
    assert u == es - DemodEdges(current);
    assert !Linked(u, BaseBand, a);
    assert !Linked(Link(u, BaseBand, a, true), a, AudioProxy);
  }

  /** Selecting the kind that is already selected yields the same graph. */
  lemma RewireSameKind(es: set<Edge>, k: Demod)
    requires DemodWired(es, k)
    ensures Rewire(es, k, k) == es
  {
    RewireSwaps(es, k, k);
  }

  /** The first `setDemod`, from a graph where no demodulator is wired: the
      unlinking is a no-op and exactly `next` ends up wired. */
  lemma {:induction false} RewireFromNothing(es: set<Edge>, current: Demod, next: Demod)
    requires NoDemodWired(es)
    ensures Rewire(es, current, next) == es + DemodEdges(next)
    ensures DemodWired(Rewire(es, current, next), next)
  {
    var s, a := DemodStage(current), DemodStage(next);
    assert !Linked(es, BaseBand, s);
    assert !Linked(es, s, AudioProxy);
    assert !Linked(es, BaseBand, a);
    assert !Linked(es + {Edge(BaseBand, a, true)}, a, AudioProxy);
  }

  /** The graph after a series of `setDemod` calls, starting with `current` selected. */
  function RewireAll(es: set<Edge>, current: Demod, kinds: seq<Demod>): set<Edge>
    decreases |kinds|
  {
    if kinds == [] then es
    else RewireAll(Rewire(es, current, kinds[0]), kinds[0], kinds[1..])
  }

  /** The kind selected after a series of `setDemod` calls. */
  function LastKind(current: Demod, kinds: seq<Demod>): (k: Demod)
    ensures kinds == [] ==> k == current
    ensures kinds != [] ==> k == kinds[|kinds| - 1]
    decreases |kinds|
  {
    if kinds == [] then current else LastKind(kinds[0], kinds[1..])
  }

  /** Whatever series of kinds is selected, exactly one demodulator, the last
      one selected, is wired afterwards. */
  lemma {:induction false} RewireAllKeepsOneWired(es: set<Edge>, current: Demod, kinds: seq<Demod>)
    requires DemodWired(es, current)
    ensures DemodWired(RewireAll(es, current, kinds), LastKind(current, kinds))
    decreases |kinds|
  {
    if kinds != [] {
      RewireSwaps(es, current, kinds[0]);
      RewireAllKeepsOneWired(Rewire(es, current, kinds[0]), kinds[0], kinds[1..]);
    }
  }

  /** Rewiring never touches a connection between non-demodulator stages. */
  lemma RewireKeepsOthers(es: set<Edge>, current: Demod, next: Demod, e: Edge)
    requires !IsDemodStage(e.src) && !IsDemodStage(e.dst)
    ensures e in Rewire(es, current, next) <==> e in es
  {
  }

  // ---------------------------------------------------------------------
  // Frequency bookkeeping

  /** Centre frequency and absolute lower and upper filter edges (`_Fc`, `_Fl`, `_Fu`). */
  datatype Tuning = Tuning(fc: real, fl: real, fu: real)

  /** `setCenterFreq(f)`: move the centre to f, keeping both edges where they
      were relative to the centre. */
  function Recenter(t: Tuning, f: real): (r: Tuning)
    ensures r.fc == f
    ensures r.fl - r.fc == t.fl - t.fc && r.fu - r.fc == t.fu - t.fc
    ensures r.fl - t.fl == f - t.fc && r.fu - t.fu == f - t.fc
    ensures r.fu - r.fl == t.fu - t.fl
  {
    Tuning(f, t.fl - t.fc + f, t.fu - t.fc + f)
  }

  /** The control view's centre editor follows `setCenterFreq(f)` with
      `setFilter(fl - fc + f, fu - fc + f)` computed from the edges it read
      before: those are exactly the edges already set, so the second call
      changes no edge. */
  lemma CenterEditorIdempotent(t: Tuning, f: real)
    ensures var r := Recenter(t, f); r.fl == t.fl - t.fc + f && r.fu == t.fu - t.fc + f
  {
  }

  /** Re-centring twice is re-centring once to the last frequency. */
  lemma RecenterTwice(t: Tuning, f: real, g: real)
    ensures Recenter(Recenter(t, f), g) == Recenter(t, g)
  {
  }

  /** The filter centre pushed to the filter stage: the midpoint of the edges. */
  function FilterCentre(fl: real, fu: real): (c: real)
    ensures c - fl == fu - c
    ensures fl <= fu ==> fl <= c <= fu
  {
    fl + (fu - fl) / 2.0
  }

  /** The lowest output sample rate the channel filter may resample to. */
  const RateFloor: real := 16000.0

  /** The resampler's output rate for a filter of the given width. */
  function OutputRate(width: real): (r: real)
    ensures r >= width && r >= RateFloor
    ensures r == width || r == RateFloor
  {
    if width >= RateFloor then width else RateFloor
  }

  // ---------------------------------------------------------------------
  // Mode presets of the control view

  /** A preset: absolute filter edges and the demodulator to select. */
  datatype Preset = Preset(lower: real, upper: real, kind: Demod)

  /** `onModSelected(idx)` for the current centre fc: 0 AM, 1 WFM, 2 NFM,
      3 DSB, 4 LSB, 5 USB, 6 CW; any other index selects nothing. */
  function ModePreset(idx: int, fc: real): (r: Option<Preset>)
    ensures r.Some? <==> 0 <= idx <= 6
    ensures r.Some? ==> r.value.lower < r.value.upper
    ensures r.Some? ==> (r.value.kind == AM <==> idx == 0)
    ensures r.Some? ==> (r.value.kind == FM <==> idx == 1 || idx == 2)
  {
    if idx == 0 then Some(Preset(fc - 5000.0, fc + 5000.0, AM))
    else if idx == 1 then Some(Preset(fc - 100000.0, fc + 100000.0, FM))
    else if idx == 2 then Some(Preset(fc - 6000.0, fc + 6000.0, FM))
    else if idx == 3 then Some(Preset(fc - 2000.0, fc + 2000.0, SSB))
    else if idx == 4 then Some(Preset(fc - 2000.0, fc - 100.0, SSB))
    else if idx == 5 then Some(Preset(fc + 100.0, fc + 2000.0, SSB))
    else if idx == 6 then Some(Preset(fc + 600.0, fc + 900.0, SSB))
    else None
  }

  /** Presets are relative to the centre: moving the centre moves both edges
      of every preset by the same amount, and changes nothing else. */
  lemma PresetFollowsCentre(idx: int, fc: real, d: real)
    requires 0 <= idx <= 6
    ensures var p, q := ModePreset(idx, fc).value, ModePreset(idx, fc + d).value;
      q.lower == p.lower + d && q.upper == p.upper + d && q.kind == p.kind
  {
  }

  /** AM, WFM, NFM and DSB are centred on fc; LSB lies wholly below fc and is
      the mirror image of USB; CW lies wholly above fc. */
  lemma PresetPlacement(fc: real)
    ensures forall idx :: 0 <= idx <= 3 ==>
      FilterCentre(ModePreset(idx, fc).value.lower, ModePreset(idx, fc).value.upper) == fc
    ensures ModePreset(4, fc).value.upper < fc < ModePreset(5, fc).value.lower
    ensures fc - ModePreset(4, fc).value.lower == ModePreset(5, fc).value.upper - fc
    ensures fc - ModePreset(4, fc).value.upper == ModePreset(5, fc).value.lower - fc
    ensures fc < ModePreset(6, fc).value.lower
  {
  }

  /** Applying a preset re-initialises the resampler to the preset's width
      for WFM, and to the 16 kHz floor for every other mode. */
  lemma PresetRates(fc: real)
    ensures forall idx :: 0 <= idx <= 6 ==>
      var p := ModePreset(idx, fc).value;
      OutputRate(p.upper - p.lower) == if idx == 1 then 200000.0 else RateFloor
  {
  }
}
