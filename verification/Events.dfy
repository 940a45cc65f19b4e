/** Severities and event types, as all consumers of the event stream read them. */
module Events {

  datatype Severity = Critical | High | Medium | Low | Info | Unknown(name: string)
  {
    /** Position in SEVERITY_ORDER of the anomaly registry; looking an unknown severity up raises. */
    function Rank(): nat {
      match this
      case Critical => 0
      case High => 1
      case Medium => 2
      case Low => 3
      case Info => 4
      case Unknown(_) => 5
    }

    /** SEVERITY_SCORE of the entity registry and the monitor, 1 where the severity is unknown. */
    function Score(): nat {
      match this
      case Critical => 5
      case High => 4
      case Medium => 3
      case Low => 2
      case Info => 1
      case Unknown(_) => 1
    }
  }

  /** The order of the severities: critical, high, medium, low, info, and unknown ones last. */
  lemma RankOrder(a: Severity, b: Severity)
    ensures a.Rank() < b.Rank() <==>
      || (a.Critical? && !b.Critical?) || (a.High? && !b.Critical? && !b.High?)
      || (a.Medium? && (b.Low? || b.Info? || b.Unknown?)) || (a.Low? && (b.Info? || b.Unknown?))
      || (a.Info? && b.Unknown?)
  {
  }

  /** Scores order them the other way round, by one a step, with unknown severities level with info. */
  lemma ScoreOrder(a: Severity, b: Severity)
    ensures Critical.Score() == 5 && High.Score() == 4 && Medium.Score() == 3 && Low.Score() == 2 && Info.Score() == 1
    ensures a.Score() > b.Score() <==>
      || (a.Critical? && !b.Critical?) || (a.High? && !b.Critical? && !b.High?)
      || (a.Medium? && (b.Low? || b.Info? || b.Unknown?)) || (a.Low? && (b.Info? || b.Unknown?))
  {
  }

  predicate EndsWith(s: string, suffix: string) {
    |suffix| <= |s| && s[|s| - |suffix|..] == suffix
  }

  predicate IsResolution(eventType: string) {
    EndsWith(eventType, "_resolved") || EndsWith(eventType, "_restored")
  }

  /** A resolution is something "_resolved" or something "_restored". */
  lemma ResolutionIff(eventType: string)
    ensures IsResolution(eventType) <==>
      exists base :: eventType == base + "_resolved" || eventType == base + "_restored"
  {
    if IsResolution(eventType) {
      var n := |eventType| - 9;
      assert eventType == eventType[..n] + eventType[n..];
    }
    if base :| eventType == base + "_resolved" || eventType == base + "_restored" {
      assert eventType[|eventType| - 9..] == eventType[|base|..];
    }
  }
}
