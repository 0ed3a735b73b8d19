/** The nine severity methods every transport exposes, in the order their objects declare them. */
module Levels {

  datatype Severity = Emerg | Alert | Crit | Error | Warn | Notice | Info | Log | Debug

  /** Declaration order of the methods, which is the order `for…in` visits them. */
  const Severities: seq<Severity> := [Emerg, Alert, Crit, Error, Warn, Notice, Info, Log, Debug]

  const AllSeverities: set<Severity> := {Emerg, Alert, Crit, Error, Warn, Notice, Info, Log, Debug}

  /** The declaration order lists every method exactly once. */
  lemma SeveritiesEnumerateAll()
    ensures |Severities| == 9
    ensures forall m: Severity :: m in Severities
    ensures forall i, j :: 0 <= i < j < |Severities| ==> Severities[i] != Severities[j]
    ensures (set m | m in Severities) == AllSeverities
  {
    forall m: Severity ensures m in Severities {
      match m
      case Emerg => assert Severities[0] == m;
      case Alert => assert Severities[1] == m;
      case Crit => assert Severities[2] == m;
      case Error => assert Severities[3] == m;
      case Warn => assert Severities[4] == m;
      case Notice => assert Severities[5] == m;
      case Info => assert Severities[6] == m;
      case Log => assert Severities[7] == m;
      case Debug => assert Severities[8] == m;
    }
  }

  /** The position of a method in the declaration order. */
  function Index(m: Severity): (i: nat)
    ensures i < |Severities| && Severities[i] == m
  {
    match m
    case Emerg => 0
    case Alert => 1
    case Crit => 2
    case Error => 3
    case Warn => 4
    case Notice => 5
    case Info => 6
    case Log => 7
    case Debug => 8
  }

  /** Every severity is one of the nine. */
  lemma AllSeveritiesComplete(m: Severity)
    ensures m in AllSeverities
  {
  }
}
