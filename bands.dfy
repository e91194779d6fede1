/** The three-band score rule that every colour classifier of the dashboard uses:
    70 and above, 40 up to 69, below 40. Each call site keeps its own if-chain and
    its own colour names; each is proved to agree with this one definition. */
module Bands {

  datatype Band = Low | Medium | High

  /** The order of the bands: Low < Medium < High. */
  function Rank(b: Band): (r: nat)
    ensures r <= 2
  {
    match b
    case Low => 0
    case Medium => 1
    case High => 2
  }

  /** The band of a score, with cut points 70 and 40. */
  function BandOf(score: int): (b: Band)
    ensures b == High <==> 70 <= score
    ensures b == Medium <==> 40 <= score < 70
    ensures b == Low <==> score < 40
  {
    if score >= 70 then High
    else if score >= 40 then Medium
    else Low
  }

  /** A higher score never falls in a lower band. */
  lemma BandMonotone(a: int, b: int)
    requires a <= b
    ensures Rank(BandOf(a)) <= Rank(BandOf(b))
  {
  }

  /** The boundary values: 39/40 and 69/70 sit on different sides. */
  lemma BandBoundaries()
    ensures BandOf(39) == Low && BandOf(40) == Medium
    ensures BandOf(69) == Medium && BandOf(70) == High
  {
  }
}
