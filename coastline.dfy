/**
 * Which particles the coastline interaction deactivates.
 *
 * The land-flagged particles are taken in ascending index order; in
 * `Stranding` mode all of them strand, in `PartialStranding` mode the k-th
 * of them strands when the k-th random draw is below one half, and with
 * `NoInteraction` none do.
 */
module Coastline {
  import opened Config

  /** Fixed chance that a land-flagged particle strands in partial-stranding mode. */
  const StrandingProbability: real := 0.5

  /** Deactivation reason recorded for a stranded particle. */
  const StrandedReason: string := "stranded"

  /** A particle is on land when the sampled land mask equals 1. */
  predicate OnLand(mask: real) {
    mask == 1.0
  }

  predicate Increasing(s: seq<nat>) {
    forall k, l :: 0 <= k < l < |s| ==> s[k] < s[l]
  }

  /** The indices of the land-flagged particles, in ascending order. */
  function LandIndices(mask: seq<real>): (r: seq<nat>)
    ensures forall k :: 0 <= k < |r| ==> r[k] < |mask| && OnLand(mask[r[k]])
    ensures forall i :: 0 <= i < |mask| && OnLand(mask[i]) ==> i in r
    ensures Increasing(r)
    ensures |r| <= |mask|
    decreases |mask|
  {
    if |mask| == 0 then []
    else
      var last := |mask| - 1;
      var front := LandIndices(mask[..last]);
      assert forall i :: 0 <= i < last ==> mask[..last][i] == mask[i];
      front + (if OnLand(mask[last]) then [last] else [])
  }

  /**
   * The position of particle `i` among the land-flagged particles: how many
   * come before it. It starts at 0 and goes up by one past each land-flagged
   * particle.
   */
  function LandRank(mask: seq<real>, i: nat): (r: nat)
    requires i <= |mask|
    ensures r <= i
    ensures i == 0 ==> r == 0
    ensures i < |mask| ==> |LandIndices(mask[..i + 1])| == r + (if OnLand(mask[i]) then 1 else 0)
  {
    assert i < |mask| ==> mask[..i + 1][..i] == mask[..i];
    |LandIndices(mask[..i])|
  }

  lemma {:induction false} LandIndicesOfPrefix(mask: seq<real>, j: nat)
    requires j <= |mask|
    ensures LandIndices(mask[..j]) <= LandIndices(mask)
    decreases |mask|
  {
    if j < |mask| {
      var last := |mask| - 1;
      assert mask[..last][..j] == mask[..j];
      LandIndicesOfPrefix(mask[..last], j);
    } else {
      assert mask[..j] == mask;
    }
  }

  /** A land-flagged particle sits at its rank in the list of land indices. */
  lemma LandRankIndex(mask: seq<real>, i: nat)
    requires i < |mask| && OnLand(mask[i])
    ensures LandRank(mask, i) < |LandIndices(mask)|
    ensures LandIndices(mask)[LandRank(mask, i)] == i
  {
    var upTo := mask[..i + 1];
    assert upTo[..i] == mask[..i];
    assert LandIndices(upTo) == LandIndices(mask[..i]) + [i];
    LandIndicesOfPrefix(mask, i + 1);
  }

  /**
   * The particles whose draw falls below `probability`, in the order given:
   * the `k`-th index is kept when the `k`-th draw is below it.
   */
  function SelectByDraw(indices: seq<nat>, draws: seq<real>, probability: real): (r: seq<nat>)
    requires |draws| == |indices|
    ensures forall x :: x in r ==> x in indices
    ensures forall k :: 0 <= k < |indices| && draws[k] < probability ==> indices[k] in r
    decreases |indices|
  {
    if |indices| == 0 then []
    else
      var rest := SelectByDraw(indices[1..], draws[1..], probability);
      assert forall k :: 1 <= k < |indices| ==> indices[1..][k - 1] == indices[k] && draws[1..][k - 1] == draws[k];
      (if draws[0] < probability then [indices[0]] else []) + rest
  }

  /** In a list without repeats, an index is selected exactly when its own draw is below the probability. */
  lemma {:induction false} SelectedExactly(indices: seq<nat>, draws: seq<real>, probability: real, k: nat)
    requires |draws| == |indices| && Increasing(indices)
    requires k < |indices|
    ensures indices[k] in SelectByDraw(indices, draws, probability) <==> draws[k] < probability
    decreases |indices|
  {
    var rest := SelectByDraw(indices[1..], draws[1..], probability);
    assert Increasing(indices[1..]) by {
      forall a, b | 0 <= a < b < |indices[1..]| ensures indices[1..][a] < indices[1..][b] {
        assert indices[1..][a] == indices[a + 1] && indices[1..][b] == indices[b + 1];
      }
    }
    if k == 0 {
      assert indices[0] !in indices[1..] by {
        forall a | 0 <= a < |indices[1..]| ensures indices[1..][a] != indices[0] {
          assert indices[1..][a] == indices[a + 1];
        }
      }
      assert indices[0] !in rest;
    } else {
      assert indices[k] != indices[0];
      assert indices[1..][k - 1] == indices[k] && draws[1..][k - 1] == draws[k];
      SelectedExactly(indices[1..], draws[1..], probability, k - 1);
    }
  }

  /**
   * Whether the coastline interaction deactivates particle `i`. In partial
   * stranding the particle is decided by the draw at its rank among the
   * land-flagged particles.
   */
  function Strands(mode: CoastlineInteraction, mask: seq<real>, draws: seq<real>, i: nat): (r: bool)
    requires i < |mask|
    requires mode == PartialStranding ==> |draws| == |LandIndices(mask)|
    ensures r ==> OnLand(mask[i])
    ensures mode == NoInteraction ==> !r
    ensures mode == Stranding ==> (r <==> OnLand(mask[i]))
  {
    match mode
    case NoInteraction => false
    case Stranding => OnLand(mask[i])
    case PartialStranding =>
      OnLand(mask[i]) && (LandRankIndex(mask, i); draws[LandRank(mask, i)] < StrandingProbability)
  }

  /** The k-th land-flagged particle strands in partial mode exactly when the k-th draw is below one half. */
  lemma PartialStrandingByRank(mask: seq<real>, draws: seq<real>, k: nat)
    requires |draws| == |LandIndices(mask)| && k < |draws|
    ensures Strands(PartialStranding, mask, draws, LandIndices(mask)[k]) <==> draws[k] < StrandingProbability
  {
    var land := LandIndices(mask);
    var i := land[k];
    LandRankIndex(mask, i);
  }

  /**
   * Selecting from the land indices by the draws, as the handler does, picks
   * exactly the particles `Strands` names in partial mode.
   */
  lemma PartialStrandingIsSelection(mask: seq<real>, draws: seq<real>, i: nat)
    requires |draws| == |LandIndices(mask)| && i < |mask|
    ensures i in SelectByDraw(LandIndices(mask), draws, StrandingProbability)
        <==> Strands(PartialStranding, mask, draws, i)
  {
    var land := LandIndices(mask);
    if OnLand(mask[i]) {
      LandRankIndex(mask, i);
      SelectedExactly(land, draws, StrandingProbability, LandRank(mask, i));
    } else {
      assert i !in land;
    }
  }
}
