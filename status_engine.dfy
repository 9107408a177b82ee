/**
 * The sensor status state machine. A sensor escalates CALM -> WARNING -> ALERT,
 * one step per triggered record; ALERT absorbs further triggers and only an
 * explicit reset brings a sensor back to CALM. A record that is not triggered
 * never moves the status.
 */
module StatusEngine {

  datatype Status = CALM | WARNING | ALERT

  /** Escalation level of a status: the partner order the transitions climb. */
  function Severity(s: Status): (n: nat)
    ensures n <= 2
    ensures n == 0 <==> s == CALM
    ensures n == 2 <==> s == ALERT
  {
    match s
    case CALM => 0
    case WARNING => 1
    case ALERT => 2
  }

  /**
   * Whether the ingestion handler writes the sensor document: only a triggered
   * record on a CALM or a WARNING sensor does (there is no branch for ALERT).
   */
  predicate Writes(s: Status, triggered: bool)
  {
    triggered && (s == CALM || s == WARNING)
  }

  /** The status a sensor has after one record with the given trigger flag. */
  function Next(s: Status, triggered: bool): (t: Status)
    ensures Severity(t) == if triggered && Severity(s) < 2 then Severity(s) + 1 else Severity(s)
    ensures t != s <==> Writes(s, triggered)
  {
    if !triggered then s
    else match s
      case CALM => WARNING
      case WARNING => ALERT
      case ALERT => ALERT
  }

  /** Number of triggered records in a sequence of trigger flags. */
  function Triggers(flags: seq<bool>): (n: nat)
    ensures n <= |flags|
  {
    if flags == [] then 0
    else Triggers(flags[..|flags| - 1]) + (if flags[|flags| - 1] then 1 else 0)
  }

  /** The status after a sequence of records, applied in order. */
  function Run(s: Status, flags: seq<bool>): Status
  {
    if flags == [] then s
    else Next(Run(s, flags[..|flags| - 1]), flags[|flags| - 1])
  }

  /** After any sequence of records the severity is the old one plus the number of triggers, capped at ALERT. */
  lemma {:induction false} RunSeverity(s: Status, flags: seq<bool>)
    ensures Severity(Run(s, flags)) == Min(Severity(s) + Triggers(flags), 2)
  {
    if flags != [] {
      RunSeverity(s, flags[..|flags| - 1]);
    }
  }

  function Min(a: int, b: int): int
  {
    if a <= b then a else b
  }

  /** A status is determined by its severity, so the severity equation fixes the status. */
  lemma SeverityInjective(s: Status, t: Status)
    requires Severity(s) == Severity(t)
    ensures s == t
  {
  }

  /** Two triggered records take a CALM sensor to ALERT; three records end there whatever the third says. */
  lemma {:induction false} TwoTriggersFromCalm(third: bool)
    ensures Run(CALM, [true, true]) == ALERT
    ensures Run(CALM, [true, true, third]) == ALERT
  {
    RunSeverity(CALM, [true, true]);
    assert [true, true][..1] == [true];
    assert [true][..0] == [];
    SeverityInjective(Run(CALM, [true, true]), ALERT);
    assert [true, true, third][..2] == [true, true];
  }

  /** ALERT absorbs every further record until a reset. */
  lemma {:induction false} AlertAbsorbs(flags: seq<bool>)
    ensures Run(ALERT, flags) == ALERT
  {
    RunSeverity(ALERT, flags);
    SeverityInjective(Run(ALERT, flags), ALERT);
  }

  /** Records that are not triggered never move the status. */
  lemma {:induction false} UntriggeredKeepsStatus(s: Status, flags: seq<bool>)
    requires forall i :: 0 <= i < |flags| ==> !flags[i]
    ensures Run(s, flags) == s
  {
    if flags != [] {
      UntriggeredKeepsStatus(s, flags[..|flags| - 1]);
    }
  }
}
