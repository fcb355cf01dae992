/** The three risk bands that the patient table and the risk gauge both cut
    a 0-100 risk score into: below 30, below 60, and the rest. */
module RiskBands {

  datatype Band = Low | Moderate | High

  function BandOf(score: int): Band
  {
    if score < 30 then Low else if score < 60 then Moderate else High
  }

  function Rank(b: Band): nat
  {
    match b
    case Low => 0
    case Moderate => 1
    case High => 2
  }

  /** A higher score never falls into a lower band. */
  lemma BandMonotone(s1: int, s2: int)
    requires s1 <= s2
    ensures Rank(BandOf(s1)) <= Rank(BandOf(s2))
  {
  }
}
