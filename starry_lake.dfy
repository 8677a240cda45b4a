/**
 * scenes/StarryLake.js: a mountain ridge drawn from a scrolling history of the last 128
 * bass values, mirrored in a lake, under stars that flash on treble attacks.
 *
 * The mountain mesh has 256 vertices (128 on the ridge, then 128 on the horizon) in one
 * Float32Array; its reflection has its own copy. Math.sin is a parameter.
 */
module StarryLake {
  import opened Utils
  import opened Envelopes
  import opened Histories

  const NumMountainPoints: nat := 128
  const MountainVertices: nat := 256
  const MountainBufferLength: nat := 768
  const MountainWidth: real := 300.0
  const MaxHeight: real := 25.0
  const TrebleAttackThreshold: real := 0.15

  /** x of ridge (and horizon) vertex i: (i / 127 - 0.5) * 300. */
  function RidgeX(i: nat): real {
    (i as real / (NumMountainPoints - 1) as real - 0.5) * MountainWidth
  }

  /** The mesh as `init` leaves it: both rows at y = 0, z = 0, x spread over 300 units. */
  function InitialVertex(k: nat): real {
    if k % 3 == 0 then RidgeX((k / 3) % NumMountainPoints) else 0.0
  }

  /** Ridge vertex i at the left edge is at -150 and at the right edge at 150. */
  lemma RidgeSpansWidth()
    ensures RidgeX(0) == -150.0 && RidgeX(NumMountainPoints - 1) == 150.0
  {
  }

  /** Entry j (0..5) of the two triangles of quad i: (tl, bl, tr) and (tr, bl, br). */
  function QuadIndex(i: nat, j: nat): nat {
    var topLeft := i;
    var topRight := i + 1;
    var bottomLeft := i + NumMountainPoints;
    var bottomRight := i + 1 + NumMountainPoints;
    [topLeft, bottomLeft, topRight, topRight, bottomLeft, bottomRight][j % 6]
  }

  /**
   * The index buffer `init` builds holds 127 * 2 triangles, 762 entries, and every entry names
   * one of the 256 vertices; each quad joins ridge points i and i + 1 to the horizon below them.
   */
  lemma IndicesInRange(indices: seq<nat>)
    requires |indices| == 6 * (NumMountainPoints - 1)
    requires forall k :: 0 <= k < |indices| ==> indices[k] == QuadIndex(k / 6, k % 6)
    ensures |indices| == 762
    ensures forall k :: 0 <= k < |indices| ==> indices[k] < MountainVertices
    ensures forall k :: 0 <= k < |indices| ==>
      (indices[k] < NumMountainPoints ==> indices[k] == k / 6 || indices[k] == k / 6 + 1)
  {
  }

  /** Height of a ridge point for a bass value: map(bass, 0, 1, 0, 25). */
  function RidgeY(bass: real): real {
    Map(bass, 0.0, 1.0, 0.0, MaxHeight)
  }

  /** A bass level in [0, 1] raises its ridge point to a height in [0, 25], louder meaning higher. */
  lemma RidgeYBounds(bass: real, louder: real)
    requires 0.0 <= bass <= louder <= 1.0
    ensures 0.0 <= RidgeY(bass) <= RidgeY(louder) <= MaxHeight
  {
    MapWithinRange(bass, 0.0, 1.0, 0.0, MaxHeight);
    MapWithinRange(louder, 0.0, 1.0, 0.0, MaxHeight);
    MapMonotone(bass, louder, 0.0, 1.0, 0.0, MaxHeight);
  }

  /** The star size on a frame: 0.15 + 0.3 * effect; for an effect in [0, 1] it lies in [0.15, 0.45]. */
  function StarSize(effect: real): real {
    0.15 + effect * 0.3
  }

  lemma StarSizeBounds(effect: real)
    requires 0.0 <= effect <= 1.0
    ensures 0.15 <= StarSize(effect) <= 0.45
  {
    MulNonneg(effect, 0.3);
    MulNonneg(1.0 - effect, 0.3);
  }

  class StarryLakeScene {
    const mountain: array<real>
    const reflection: array<real>
    /** The index buffer built once by `init`: two triangles per quad of the ridge. */
    const indices: seq<nat>
    var bassHistory: seq<real>
    var trebleAttackEffect: real
    var time: real
    var groupY: real
    var starSize: real
    var reflectionSize: real
    var starOpacity: real
    var reflectionOpacity: real
    var visible: bool

    ghost predicate Valid()
      reads this
    {
      && mountain.Length == MountainBufferLength && reflection.Length == MountainBufferLength
      && mountain != reflection
      && |bassHistory| == NumMountainPoints
      && 0.0 <= trebleAttackEffect <= 1.0
    }

    /** One pass of the mesh-filling loop: ridge vertex i and the horizon vertex below it. */
    static method SetColumn(vertices: array<real>, i: nat)
      requires vertices.Length == MountainBufferLength && i < NumMountainPoints
      modifies vertices
      ensures forall k :: 0 <= k < MountainBufferLength ==>
                vertices[k] == if (k / 3) % NumMountainPoints == i then InitialVertex(k) else old(vertices[k])
    {
      var x := (i as real / (NumMountainPoints - 1) as real - 0.5) * MountainWidth;
      vertices[i * 3] := x;
      vertices[i * 3 + 1] := 0.0;
      vertices[i * 3 + 2] := 0.0;
      var baseVertexIndex := i + NumMountainPoints;
      vertices[baseVertexIndex * 3] := x;
      vertices[baseVertexIndex * 3 + 1] := 0.0;
      vertices[baseVertexIndex * 3 + 2] := 0.0;
      assert forall k :: 0 <= k < MountainBufferLength && (k / 3) % NumMountainPoints == i ==>
        k == 3 * i || k == 3 * i + 1 || k == 3 * i + 2 ||
        k == 3 * (i + NumMountainPoints) || k == 3 * (i + NumMountainPoints) + 1 || k == 3 * (i + NumMountainPoints) + 2;
    }

    /** The mesh-filling loop of `init` for one buffer. */
    static method FillMountain(vertices: array<real>)
      requires vertices.Length == MountainBufferLength
      modifies vertices
      ensures forall k :: 0 <= k < MountainBufferLength ==> vertices[k] == InitialVertex(k)
    {
      var i := 0;
      while i < NumMountainPoints
        invariant 0 <= i <= NumMountainPoints
        invariant forall k :: 0 <= k < MountainBufferLength && (k / 3) % NumMountainPoints < i ==>
                    vertices[k] == InitialVertex(k)
      {
        SetColumn(vertices, i);
        i := i + 1;
      }
    }

    /** The index-building loop of `init`: two triangles per pair of neighbouring ridge points. */
    static method BuildIndices() returns (indices: seq<nat>)
      ensures |indices| == 6 * (NumMountainPoints - 1)
      ensures forall k :: 0 <= k < |indices| ==> indices[k] == QuadIndex(k / 6, k % 6)
    {
      indices := [];
      var i := 0;
      while i < NumMountainPoints - 1
        invariant 0 <= i <= NumMountainPoints - 1
        invariant |indices| == 6 * i
        invariant forall k :: 0 <= k < |indices| ==> indices[k] == QuadIndex(k / 6, k % 6)
      {
        var topLeft := i;
        var topRight := i + 1;
        var bottomLeft := i + NumMountainPoints;
        var bottomRight := i + 1 + NumMountainPoints;
        indices := indices + [topLeft, bottomLeft, topRight];
        indices := indices + [topRight, bottomLeft, bottomRight];
        i := i + 1;
      }
    }

    /** constructor and init: a flat mountain and its reflection, a zero history, no flash. */
    constructor ()
      ensures Valid() && fresh(mountain) && fresh(reflection)
      ensures bassHistory == seq(NumMountainPoints, _ => 0.0) && trebleAttackEffect == 0.0 && visible
      ensures forall k :: 0 <= k < MountainBufferLength ==>
                mountain[k] == InitialVertex(k) && reflection[k] == InitialVertex(k)
      ensures |indices| == 6 * (NumMountainPoints - 1)
      ensures forall k :: 0 <= k < |indices| ==> indices[k] == QuadIndex(k / 6, k % 6)
    {
      trebleAttackEffect := 0.0;
      time := 0.0;
      bassHistory := seq(NumMountainPoints, _ => 0.0);
      var m := new real[MountainBufferLength];
      var r := new real[MountainBufferLength];
      FillMountain(m);
      FillMountain(r);
      mountain := m;
      reflection := r;
      var ix := BuildIndices();
      indices := ix;
      groupY := 0.0;
      starSize := 0.15;
      reflectionSize := 0.15;
      starOpacity := 0.8;
      reflectionOpacity := 0.2;
      visible := true;
    }

    /** The ridge loop of `update`: y of ridge point i in both buffers from history entry i. */
    method DrawRidge()
      requires Valid()
      modifies mountain, reflection
      ensures forall k :: 0 <= k < MountainBufferLength ==>
                mountain[k] == if k < 3 * NumMountainPoints && k % 3 == 1 then RidgeY(bassHistory[k / 3])
                               else old(mountain[k])
      ensures forall k :: 0 <= k < MountainBufferLength ==>
                reflection[k] == if k < 3 * NumMountainPoints && k % 3 == 1 then RidgeY(bassHistory[k / 3])
                                 else old(reflection[k])
    {
      var i := 0;
      while i < NumMountainPoints
        invariant 0 <= i <= NumMountainPoints
        invariant forall k :: 0 <= k < MountainBufferLength ==>
                    mountain[k] == if k < 3 * i && k % 3 == 1 then RidgeY(bassHistory[k / 3]) else old(mountain[k])
        invariant forall k :: 0 <= k < MountainBufferLength ==>
                    reflection[k] == if k < 3 * i && k % 3 == 1 then RidgeY(bassHistory[k / 3]) else old(reflection[k])
      {
        var y := Map(bassHistory[i], 0.0, 1.0, 0.0, MaxHeight);
        mountain[i * 3 + 1] := y;
        reflection[i * 3 + 1] := y;
        i := i + 1;
      }
    }

    /**
     * update: pan the group, flash the stars on a treble attack and let the flash decay, then
     * scroll the bass history and redraw the ridge and its reflection.
     */
    method Update(bass: real, treble: real, trebleAttack: real, t: real, sin: real -> real)
      requires Valid()
      modifies this, mountain, reflection
      ensures Valid() && visible == old(visible)
      ensures time == t && groupY == sin(t * 0.1) * 4.0
      ensures var e := Triggered(old(trebleAttackEffect), trebleAttack, TrebleAttackThreshold, 1.0);
        && starSize == StarSize(e) && reflectionSize == starSize
        && starOpacity == Map(treble, 0.0, 1.0, 0.4, 0.9) + e
        && reflectionOpacity == starOpacity * 0.25
        && trebleAttackEffect == Decayed(e, 0.9)
      ensures bassHistory == Scroll(old(bassHistory), bass)
      ensures forall k :: 0 <= k < MountainBufferLength ==>
                mountain[k] == if k < 3 * NumMountainPoints && k % 3 == 1 then RidgeY(bassHistory[k / 3])
                               else old(mountain[k])
      ensures forall k :: 0 <= k < MountainBufferLength ==>
                reflection[k] == if k < 3 * NumMountainPoints && k % 3 == 1 then RidgeY(bassHistory[k / 3])
                                 else old(reflection[k])
    {
      time := t;
      groupY := sin(t * 0.1) * 4.0;
      if trebleAttack > TrebleAttackThreshold {
        trebleAttackEffect := 1.0;
      }
      starSize := 0.15 + trebleAttackEffect * 0.3;
      reflectionSize := starSize;
      starOpacity := Map(treble, 0.0, 1.0, 0.4, 0.9) + trebleAttackEffect;
      reflectionOpacity := starOpacity * 0.25;
      EnvelopeBounds(old(trebleAttackEffect), trebleAttack, TrebleAttackThreshold, 1.0, 0.9);
      trebleAttackEffect := trebleAttackEffect * 0.9;
      bassHistory := bassHistory[1..];
      bassHistory := bassHistory + [bass];
      DrawRidge();
    }

    method Show()
      modifies this`visible
      ensures visible
      ensures old(Valid()) ==> Valid()
    {
      visible := true;
    }

    method Hide()
      modifies this`visible
      ensures !visible
      ensures old(Valid()) ==> Valid()
    {
      visible := false;
    }
  }
}
