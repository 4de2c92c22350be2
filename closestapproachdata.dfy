/** The status names of the closest-approach solver
    (KinKal/ClosestApproachData.cc): a fixed table with one name per
    solver outcome, and the lookup by status. */
module ClosestApproachStatus {

  /** The solver outcomes, in the order of the source's enumeration. */
  datatype TPStat = Converged | Unconverged | Oscillating | Diverged | PocaFailed | Invalid

  /** The enumerator's underlying value, its position in the table. */
  function Index(s: TPStat): (i: nat)
    ensures i < 6
  {
    match s
    case Converged => 0
    case Unconverged => 1
    case Oscillating => 2
    case Diverged => 3
    case PocaFailed => 4
    case Invalid => 5
  }

  /** `statusNames_`. */
  const StatusNames: seq<string> := ["converged", "unconverged", "oscillating", "diverged", "pocafailed", "invalid"]

  /** `statusName(status)`: the table entry at the status's position. */
  function StatusName(s: TPStat): string
  {
    StatusNames[Index(s)]
  }

  /** The table has one entry per status, so every lookup is in bounds. */
  lemma TableCoversStatuses()
    ensures |StatusNames| == 6
    ensures forall s: TPStat :: Index(s) < |StatusNames|
  {
  }

  /** Distinct statuses sit at distinct positions. */
  lemma IndexInjective(a: TPStat, b: TPStat)
    requires Index(a) == Index(b)
    ensures a == b
  {
  }

  /** The names are pairwise distinct, so `statusName` tells the statuses
      apart: equal names mean equal statuses. */
  lemma {:induction false} StatusNameInjective(a: TPStat, b: TPStat)
    requires StatusName(a) == StatusName(b)
    ensures a == b
  {
    NamesDistinct();
    IndexInjective(a, b);
  }

  /** No name appears twice in the table. */
  lemma NamesDistinct()
    ensures forall i, j :: 0 <= i < j < |StatusNames| ==> StatusNames[i] != StatusNames[j]
  {
    assert StatusNames[0][0] == 'c' && StatusNames[1][0] == 'u' && StatusNames[2][0] == 'o';
    assert StatusNames[3][0] == 'd' && StatusNames[4][0] == 'p' && StatusNames[5][0] == 'i';
  }

  /** The names, status by status. */
  lemma StatusNamesInOrder()
    ensures StatusName(Converged) == "converged" && StatusName(Unconverged) == "unconverged"
    ensures StatusName(Oscillating) == "oscillating" && StatusName(Diverged) == "diverged"
    ensures StatusName(PocaFailed) == "pocafailed" && StatusName(Invalid) == "invalid"
  {
  }
}
