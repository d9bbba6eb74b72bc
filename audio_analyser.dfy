/** The per-player audio analyser: the level computed from a frame of
    frequency bins, the gain the output is set to, and the audio graph that
    is built once per media element and torn down with the player. */
module AudioAnalyser {
  import opened Types
  import Player

  /** One frequency bin as `getByteFrequencyData` fills it. */
  type Byte = b: int | 0 <= b < 256

  /** The normalising divisor of the level. */
  const Reference: real := 128.0

  function Square(b: Byte): nat
  {
    (b as int) * (b as int)
  }

  /** The sum of the squared bins, first to last. */
  function SumOfSquares(data: seq<Byte>): nat
  {
    if data == [] then 0 else SumOfSquares(data[..|data| - 1]) + Square(data[|data| - 1])
  }

  /** The square of `calculateRms`: `sqrt(sum / n) / 128`, squared. */
  function LevelSquared(data: seq<Byte>): real
    requires |data| > 0
  {
    SumOfSquares(data) as real / (|data| as real * Reference * Reference)
  }

  /** `calculateRms` over the analyser's buffer: the loop accumulating the
      squares, then the normalisation. The square root is left to the
      reader: the result is the square of the level. */
  method CalculateRmsSquared(data: array<Byte>) returns (levelSquared: real)
    requires data.Length > 0
    ensures levelSquared == LevelSquared(data[..])
  {
    var sum: nat := 0;
    var i := 0;
    while i < data.Length
      invariant 0 <= i <= data.Length
      invariant sum == SumOfSquares(data[..i])
    {
      assert data[..i + 1][..i] == data[..i];
      sum := sum + Square(data[i]);
      i := i + 1;
    }
    assert data[..data.Length] == data[..];
    levelSquared := sum as real / (data.Length as real * Reference * Reference);
  }

  /** Each bin contributes at most 255 squared. */
  lemma {:induction false} SumOfSquaresBound(data: seq<Byte>)
    ensures SumOfSquares(data) <= |data| * 255 * 255
  {
    if data != [] {
      SumOfSquaresBound(data[..|data| - 1]);
      var b := data[|data| - 1];
      assert Square(b) <= 255 * 255;
    }
  }

  /** A silent frame sums to zero. */
  lemma {:induction false} SumOfSquaresSilent(data: seq<Byte>)
    requires forall i :: 0 <= i < |data| ==> data[i] == 0
    ensures SumOfSquares(data) == 0
  {
    if data != [] {
      SumOfSquaresSilent(data[..|data| - 1]);
    }
  }

  /** A full-scale frame sums to 255 squared per bin. */
  lemma {:induction false} SumOfSquaresFull(data: seq<Byte>)
    requires forall i :: 0 <= i < |data| ==> data[i] == 255
    ensures SumOfSquares(data) == |data| * 255 * 255
  {
    if data != [] {
      SumOfSquaresFull(data[..|data| - 1]);
    }
  }

  /** The level is never negative, is zero for a silent frame, and its square
      is at most (255/128)^2, so the raw level can exceed 1 and reaches that
      bound on a full-scale frame. */
  lemma LevelRange(data: seq<Byte>)
    requires |data| > 0
    ensures 0.0 <= LevelSquared(data) <= (255.0 / Reference) * (255.0 / Reference)
    ensures (forall i :: 0 <= i < |data| ==> data[i] == 0) ==> LevelSquared(data) == 0.0
    ensures (forall i :: 0 <= i < |data| ==> data[i] == 255) ==>
              LevelSquared(data) == (255.0 / Reference) * (255.0 / Reference) > 1.0
  {
    SumOfSquaresBound(data);
    var n := |data| as real;
    assert SumOfSquares(data) as real <= n * 255.0 * 255.0;
    assert (n * 255.0 * 255.0) / (n * Reference * Reference) == (255.0 / Reference) * (255.0 / Reference);
    if forall i :: 0 <= i < |data| ==> data[i] == 0 {
      SumOfSquaresSilent(data);
    }
    if forall i :: 0 <= i < |data| ==> data[i] == 255 {
      SumOfSquaresFull(data);
    }
  }

  /** `isMuted ? 0 : volume`. */
  function EffectiveVolume(isMuted: bool, volume: real): (v: real)
    ensures isMuted ==> v == 0.0
    ensures !isMuted ==> v == volume
  {
    if isMuted then 0.0 else volume
  }

  /** With the player's arguments the output gain is 0 exactly when the
      player or the whole wall is muted, and 1 otherwise. */
  lemma PlayerGain(isMuted: bool, masterMute: bool)
    ensures var args := Player.AnalyserArguments(isMuted, masterMute);
            EffectiveVolume(args.0, args.1) == if isMuted || masterMute then 0.0 else 1.0
  {
    Player.AnalyserArgumentsRule(isMuted, masterMute);
  }

  /** The audio nodes and the connections between them. */
  datatype Node = Source | Splitter | AnalyserLeft | AnalyserRight | Gain | Destination
  datatype Edge = Edge(from: Node, to: Node)

  /** The graph a successful build wires: the source feeds the splitter, whose
      two channels feed the analysers, and separately the gain node, which
      feeds the output. */
  const FullGraph: set<Edge> :=
    {Edge(Source, Splitter), Edge(Source, Gain), Edge(Splitter, AnalyserLeft),
     Edge(Splitter, AnalyserRight), Edge(Gain, Destination)}

  /** The analysis path does not run through the gain node: no edge into the
      splitter or an analyser leaves the gain node, and the source reaches the
      output only through it. */
  lemma AnalysisBypassesGain()
    ensures forall e :: e in FullGraph && e.to in {Splitter, AnalyserLeft, AnalyserRight} ==> e.from != Gain
    ensures forall e :: e in FullGraph && e.to == Destination ==> e.from == Gain
    ensures Edge(Source, Splitter) in FullGraph && Edge(Source, Gain) in FullGraph
  {
  }

  /** How far a build gets on a media element no source was ever attached
      to: the context constructor can throw (no Web Audio), and so can
      attaching the source; the node creations and connections after that are
      taken to succeed. An element that already had a source attached always
      throws at the attachment (the Web Audio API allows one source node per
      media element, and disconnecting does not release it). */
  datatype BuildOutcome = ContextFails | SourceFails | Succeeds

  /** The refs of one player's analyser and the graph they hold. */
  class AudioGraph {
    const hasMedia: bool
    var context: bool
    var source: bool
    var splitter: bool
    var analysers: bool
    var gain: bool
    var edges: set<Edge>
    var drawing: bool
    var playListener: bool
    var gainTarget: Option<real>
    /** The browser's side: a source node has been attached to this media
        element at some point; nothing ever clears it. */
    var elementAttached: bool

    /** Connections only exist among the nodes a build wired, and only while
        the source that feeds them is held. */
    predicate Valid()
      reads this
    {
      && edges <= FullGraph
      && (edges != {} ==> source && splitter && analysers && gain)
      && (source ==> context)
      && (source ==> elementAttached)
    }

    constructor (hasMedia: bool)
      ensures this.hasMedia == hasMedia && Valid()
      ensures !context && !source && !splitter && !analysers && !gain
      ensures edges == {} && !drawing && !playListener && gainTarget == None
      ensures !elementAttached
    {
      this.hasMedia := hasMedia;
      context := false;
      source := false;
      splitter := false;
      analysers := false;
      gain := false;
      edges := {};
      drawing := false;
      playListener := false;
      gainTarget := None;
      elementAttached := false;
    }

    /** The build effect. Without a media element, or with a source already
        held, it does nothing. Otherwise it creates the nodes in order, stops
        at the first failure, and registers the play listener either way; only
        a complete build wires the graph and starts drawing. */
    method Build(outcome: BuildOutcome) returns (ran: bool)
      requires Valid()
      modifies this
      ensures Valid()
      ensures ran <==> hasMedia && !old(source)
      ensures !ran ==> unchanged(this)
      ensures ran ==> playListener
      ensures ran && outcome == ContextFails ==>
                && context == old(context) && !source && edges == old(edges) && drawing == old(drawing)
                && splitter == old(splitter) && analysers == old(analysers) && gain == old(gain)
                && elementAttached == old(elementAttached)
      ensures ran && (outcome == SourceFails || (outcome == Succeeds && old(elementAttached))) ==>
                && context && !source && edges == old(edges) && drawing == old(drawing)
                && splitter == old(splitter) && analysers == old(analysers) && gain == old(gain)
                && elementAttached == old(elementAttached)
      ensures ran && outcome == Succeeds && !old(elementAttached) ==>
                && context && source && splitter && analysers && gain && edges == FullGraph && drawing
                && elementAttached
      ensures gainTarget == old(gainTarget)
    {
      ran := hasMedia && !source;
      if !ran {
        return;
      }
      if outcome != ContextFails {
        context := true;
        if outcome == Succeeds && !elementAttached {
          elementAttached := true;
          source := true;
          splitter := true;
          analysers := true;
          gain := true;
          edges := FullGraph;
          drawing := true;
        }
      }
      playListener := true;
    }

    /** The build's cleanup: stop drawing, disconnect the source, splitter and
        gain nodes, drop the source, close and drop the context, remove the
        play listener. The splitter, analyser and gain refs are kept. */
    method Teardown()
      requires Valid() && playListener
      modifies this
      ensures Valid()
      ensures edges == {} && !source && !context && !drawing && !playListener
      ensures splitter == old(splitter) && analysers == old(analysers) && gain == old(gain)
      ensures gainTarget == old(gainTarget) && elementAttached == old(elementAttached)
    {
      drawing := false;
      edges := set e | e in edges && e.from !in {Source, Splitter, Gain};
      assert edges == {} by {
        forall e | e in FullGraph ensures e.from in {Source, Splitter, Gain} {
        }
      }
      source := false;
      context := false;
      playListener := false;
    }

    /** The volume effect: with a gain node and an open context, the gain is
        aimed at the effective volume; the connections are never touched. */
    method SetVolume(isMuted: bool, volume: real)
      modifies this`gainTarget
      ensures gainTarget == if gain && context then Some(EffectiveVolume(isMuted, volume)) else old(gainTarget)
    {
      if gain && context {
        gainTarget := Some(EffectiveVolume(isMuted, volume));
      }
    }
  }

  /** Build, tear down, build again on the same media element, as a second
      run of the effect does: the second build runs, but attaching the source
      again throws, so it ends with a new context and nothing wired. A volume
      change between the builds does nothing, because the context is gone; one
      after the rebuild is aimed at the gain ref kept from the first build,
      which no longer feeds the output. */
  method RebuildScenario() returns (first: bool, second: bool, stale: Option<real>, edges: set<Edge>,
                                    aimed: Option<real>)
    ensures first && second && stale == None && edges == {} && aimed == Some(0.0)
  {
    var g := new AudioGraph(true);
    first := g.Build(Succeeds);
    g.Teardown();
    g.SetVolume(false, 1.0);
    stale := g.gainTarget;
    second := g.Build(Succeeds);
    edges := g.edges;
    g.SetVolume(true, 1.0);
    aimed := g.gainTarget;
  }
}
