/**
 * What a rule detector reports, and the first-match scan over a fixed
 * sequence of voice pairs that most detectors perform.
 */
module RuleCore {
  import opened Wrappers
  import opened VoiceLeading
  import opened Voicing

  /**
   * A detector's finding: which chord of the pair it is shown on (0 or 1),
   * the voices involved and, for the detectors that tell parallel from
   * contrary motion, the motion they saw.
   */
  datatype Detection = Detection(chordIndex: int, voices: seq<Voice>, motion: Option<Motion>)

  /** An ordered pair of voices, as the detectors' `voice_pairs` lists hold them. */
  type VoicePair = (Voice, Voice)

  /** S-A, S-T, S-B, A-T, A-B, T-B: the pairs the fifth and octave rules scan. */
  const UpperFirstPairs: seq<VoicePair> := [(S, A), (S, T), (S, B), (A, T), (A, B), (T, B)]

  /** B-S, B-A, B-T: the pairs the unequal-fifths rule scans. */
  const BassPairs: seq<VoicePair> := [(B, S), (B, A), (B, T)]

  /** B-T, T-A, A-S: adjacent voices, lower voice first. */
  const AdjacentPairs: seq<VoicePair> := [(B, T), (T, A), (A, S)]

  /** A-S, T-A: the adjacent upper voices whose spacing is limited. */
  const SpacedPairs: seq<VoicePair> := [(A, S), (T, A)]

  /** The index of the first element of `ps` satisfying `hit`, scanning from `from`. */
  function FirstHitFrom<P>(ps: seq<P>, hit: P -> bool, from: nat): (r: Option<nat>)
    requires from <= |ps|
    ensures r.Some? ==> from <= r.value < |ps| && hit(ps[r.value])
    ensures r.Some? ==> forall j | from <= j < r.value :: !hit(ps[j])
    ensures r.None? <==> forall j | from <= j < |ps| :: !hit(ps[j])
    decreases |ps| - from
  {
    if from == |ps| then None
    else if hit(ps[from]) then Some(from)
    else FirstHitFrom(ps, hit, from + 1)
  }

  /** A loop over `ps` that returns at the first element satisfying `hit`. */
  function FirstHit<P>(ps: seq<P>, hit: P -> bool): (r: Option<nat>)
    ensures r.Some? ==> r.value < |ps| && hit(ps[r.value])
    ensures r.Some? ==> forall j | 0 <= j < r.value :: !hit(ps[j])
    ensures r.None? <==> forall j | 0 <= j < |ps| :: !hit(ps[j])
  {
    FirstHitFrom(ps, hit, 0)
  }

  /** An index that satisfies `hit` with none before it is the one `FirstHit` finds. */
  lemma FirstHitIsFirst<P>(ps: seq<P>, hit: P -> bool)
    ensures forall i | 0 <= i < |ps| && hit(ps[i]) && (forall j | 0 <= j < i :: !hit(ps[j])) :: FirstHit(ps, hit) == Some(i)
  {
  }

  /**
   * The elements of `ps` satisfying `keep`, in their order: a loop that
   * appends every hit to a list.
   */
  function Filter<P(!new)>(ps: seq<P>, keep: P -> bool): (r: seq<P>)
    ensures forall x :: x in r <==> x in ps && keep(x)
    ensures |r| <= |ps|
  {
    if |ps| == 0 then []
    else Filter(ps[..|ps| - 1], keep) + (if keep(ps[|ps| - 1]) then [ps[|ps| - 1]] else [])
  }

  /** A voice list in strictly increasing B, T, A, S rank stays so when filtered. */
  lemma {:induction false} FilterKeepsOrder(vs: seq<Voice>, keep: Voice -> bool, rank: Voice -> int)
    requires forall i, j | 0 <= i < j < |vs| :: rank(vs[i]) < rank(vs[j])
    ensures forall i, j | 0 <= i < j < |Filter(vs, keep)| :: rank(Filter(vs, keep)[i]) < rank(Filter(vs, keep)[j])
  {
    if |vs| > 0 {
      var init := vs[..|vs| - 1];
      FilterKeepsOrder(init, keep, rank);
      var p := Filter(init, keep);
      var r := Filter(vs, keep);
      forall i, j | 0 <= i < j < |r|
        ensures rank(r[i]) < rank(r[j])
      {
        if j < |p| {
          assert r[i] == p[i] && r[j] == p[j];
        } else {
          assert r[j] == vs[|vs| - 1];
          assert r[i] == p[i];
          assert r[i] in init;
          var k :| 0 <= k < |init| && init[k] == r[i];
          assert vs[k] == r[i];
          assert rank(vs[k]) < rank(vs[|vs| - 1]);
        }
      }
    }
  }

  /**
   * The confidence the direct fifths and octaves rules give a reported
   * pair: outer voices 100, a pair with the bass 90, an inner voice with
   * the soprano 80, two inner voices 70.
   */
  function PairConfidence(voices: seq<Voice>): (r: int)
    ensures r in {70, 80, 90, 100}
    ensures r == 100 <==> B in voices && S in voices
  {
    if B in voices && S in voices then 100
    else if B in voices then 90
    else if (T in voices || A in voices) && S in voices then 80
    else 70
  }

  /** The four bands are told apart by which of B and S the pair contains. */
  lemma PairConfidenceBands(v1: Voice, v2: Voice)
    requires IsPart(v1) && IsPart(v2) && v1 != v2
    ensures PairConfidence([v1, v2]) == 90 <==> B in [v1, v2] && S !in [v1, v2]
    ensures PairConfidence([v1, v2]) == 80 <==> S in [v1, v2] && B !in [v1, v2]
    ensures PairConfidence([v1, v2]) == 70 <==> S !in [v1, v2] && B !in [v1, v2]
  {
  }
}
