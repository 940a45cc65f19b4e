/** The ranking of open anomalies by `assess` (world_model/situation_assessor.py:19-69).  The
    exponential is a parameter that turns sums into products and is never zero or below; blast
    radius counts are a parameter too. */
module SituationAssessor {
  import opened Events
  import opened AnomalyRegistry
  import opened Sorting

  function Plus(x: real, y: real): real {
    x + y
  }

  ghost predicate Exponential(exp: real -> real) {
    && (forall x :: exp(x) > 0.0)
    && (forall x, y {:trigger Plus(x, y)} :: exp(Plus(x, y)) == exp(x) * exp(y))
  }

  /** The weight of an observation of this age in seconds; it halves about every 300. */
  function Recency(exp: real -> real, age: real): real {
    exp(-0.693 * age / 300.0)
  }

  function Weight(s: Severity): real {
    match s
    case Critical => 10.0
    case High => 5.0
    case Medium => 2.0
    case Low => 0.5
    case Info => 0.1
    case Unknown(_) => 1.0
  }

  /** The part of the score that does not depend on time. */
  function Base(blast: string -> nat): Anomaly -> real {
    (a: Anomaly) => Weight(a.severity) * a.confidence * (1.0 + 0.2 * blast(a.entityId) as real)
  }

  function Score(exp: real -> real, base: Anomaly -> real, now: real): Anomaly -> real {
    (a: Anomaly) => base(a) * Recency(exp, now - a.openedAt as real)
  }

  /** Items with the negated score as key, so that an ascending sort lists the best first. */
  function Scored(open: seq<Anomaly>, score: Anomaly -> real): seq<(real, Anomaly)> {
    seq(|open|, i requires 0 <= i < |open| => (-score(open[i]), open[i]))
  }

  /** The anomalies, best score first; equal scores keep the registry's order. */
  function Ranked(open: seq<Anomaly>, score: Anomaly -> real): seq<Anomaly> {
    Items(Sort(Scored(open, score)))
  }

  /** Python's `xs[:n]`; a negative n counts from the end. */
  function Prefix<T>(xs: seq<T>, n: int): seq<T> {
    if n >= |xs| then xs else if n >= 0 then xs[..n] else if |xs| + n >= 0 then xs[..|xs| + n] else []
  }

  /** Cutting at n keeps the first n, or all if there are fewer; a negative n drops that many at the end. */
  lemma PrefixIs<T>(xs: seq<T>, n: int)
    ensures Prefix(xs, n) <= xs
    ensures n >= 0 ==> |Prefix(xs, n)| == if n <= |xs| then n else |xs|
    ensures n < 0 ==> |Prefix(xs, n)| == if -n <= |xs| then |xs| + n else 0
  {
  }

  /** The scoring loop, the sort and the cut of `assess`. */
  method Assess(exp: real -> real, blast: string -> nat, open: seq<Anomaly>, now: real, topN: int)
    returns (top: seq<Anomaly>)
    ensures top == Prefix(Ranked(open, Score(exp, Base(blast), now)), topN)
  {
    ghost var score := Score(exp, Base(blast), now);
    var scored := [];
    var i := 0;
    while i < |open|
      invariant 0 <= i <= |open| && scored == Scored(open[..i], score)
    {
      var a := open[i];
      var recency := exp(-0.693 * (now - a.openedAt as real) / 300.0);
      var s := Weight(a.severity) * a.confidence * (1.0 + 0.2 * blast(a.entityId) as real) * recency;
      assert s == score(a);
      ScoredPush(open[..i], a, score);
      assert open[..i + 1] == open[..i] + [a];
      scored := scored + [(-s, a)];
      i := i + 1;
    }
    assert open[..i] == open;
    top := Prefix(Items(Sort(scored)), topN);
  }

  lemma ScoredPush(open: seq<Anomaly>, a: Anomaly, score: Anomaly -> real)
    ensures Scored(open + [a], score) == Scored(open, score) + [(-score(a), a)]
  {
  }

  // ----- what counts how much ---------------------------------------------------------------

  /** All else equal, a critical anomaly scores twice a high one, five times a medium one, twenty times a
      low one, a hundred times an info one, and ten times one of unknown severity. */
  lemma SeverityCounts(blast: string -> nat, a: Anomaly, name: string)
    ensures BaseAt(blast, a, Critical) == 2.0 * BaseAt(blast, a, High)
    ensures BaseAt(blast, a, Critical) == 5.0 * BaseAt(blast, a, Medium)
    ensures BaseAt(blast, a, Critical) == 20.0 * BaseAt(blast, a, Low)
    ensures BaseAt(blast, a, Critical) == 100.0 * BaseAt(blast, a, Info)
    ensures BaseAt(blast, a, Critical) == 10.0 * BaseAt(blast, a, Unknown(name))
  {
    BaseIs(blast, a, Critical);
    BaseIs(blast, a, High);
    BaseIs(blast, a, Medium);
    BaseIs(blast, a, Low);
    BaseIs(blast, a, Info);
    BaseIs(blast, a, Unknown(name));
  }

  function BaseAt(blast: string -> nat, a: Anomaly, s: Severity): real {
    Base(blast)(a.(severity := s))
  }

  /** Confidence and dependants, the part of the base that severities share. */
  function Rest(blast: string -> nat, a: Anomaly): real {
    a.confidence * (1.0 + 0.2 * blast(a.entityId) as real)
  }

  lemma BaseIs(blast: string -> nat, a: Anomaly, s: Severity)
    ensures BaseAt(blast, a, s) == Weight(s) * Rest(blast, a)
  {
    Regrouped(Weight(s), a.confidence, 1.0 + 0.2 * blast(a.entityId) as real);
  }

  lemma Regrouped(x: real, y: real, z: real)
    ensures x * y * z == x * (y * z)
  {
  }

  /** The score of a fresh critical anomaly without dependants is ten times its confidence; each entity
      that depends on it adds a fifth of that. */
  lemma DependantsCount(exp: real -> real, blast: string -> nat, a: Anomaly)
    requires Exponential(exp) && a.severity == Critical
    ensures Score(exp, Base(blast), a.openedAt as real)(a)
         == 10.0 * a.confidence + 2.0 * a.confidence * blast(a.entityId) as real
  {
    FreshIsOne(exp);
    var c, b := a.confidence, blast(a.entityId) as real;
    assert a.openedAt as real - a.openedAt as real == 0.0;
    assert -0.693 * 0.0 / 300.0 == 0.0;
    assert Base(blast)(a) == 10.0 * c * (1.0 + 0.2 * b);
    assert 10.0 * c * (1.0 + 0.2 * b) == 10.0 * c + 2.0 * c * b;
  }

  lemma FreshIsOne(exp: real -> real)
    requires Exponential(exp)
    ensures exp(0.0) == 1.0
  {
    assert exp(Plus(0.0, 0.0)) == exp(0.0) * exp(0.0) && Plus(0.0, 0.0) == 0.0;
    var x := exp(0.0);
    assert x * x == x && x > 0.0;
    assert x * (x - 1.0) == 0.0;
  }

  /** Five minutes of age multiply the score by exp(-0.693), about one half. */
  lemma AgeCounts(exp: real -> real, blast: string -> nat, a: Anomaly, now: real)
    requires Exponential(exp)
    ensures Score(exp, Base(blast), now + 300.0)(a) == Score(exp, Base(blast), now)(a) * exp(-0.693)
  {
    ScoreShifts(exp, Base(blast), a, now, 300.0);
    assert -0.693 * 300.0 / 300.0 == -0.693;
    var x, k := Score(exp, Base(blast), now)(a), Recency(exp, 300.0);
    assert k == exp(-0.693);
    assert -x * k == -(x * k);
  }

  // ----- time does not matter -------------------------------------------------------------

  function Times(k: real): real -> real {
    x => x * k
  }

  lemma ScalingKeepsOrder(k: real)
    requires k > 0.0
    ensures KeepsOrder(Times(k))
  {
    forall a, b ensures a <= b <==> Times(k)(a) <= Times(k)(b) {
      ScaleIff(a, b, k);
    }
  }

  lemma ScaleIff(a: real, b: real, k: real)
    requires k > 0.0
    ensures a <= b <==> a * k <= b * k
  {
    assert b * k - a * k == (b - a) * k;
    if a <= b { assert (b - a) * k >= 0.0; } else { assert (a - b) * k > 0.0; }
  }

  lemma RecencyShifts(exp: real -> real, age: real, later: real)
    requires Exponential(exp)
    ensures Recency(exp, age + later) == Recency(exp, age) * Recency(exp, later)
  {
    var x, y := -0.693 * age / 300.0, -0.693 * later / 300.0;
    assert exp(Plus(x, y)) == exp(x) * exp(y);
    assert Plus(x, y) == -0.693 * (age + later) / 300.0;
  }

  lemma Rearranged(base: real, recency: real, k: real)
    ensures -(base * (recency * k)) == -(base * recency) * k
  {
    var x := base * recency;
    assert base * (recency * k) == x * k;
    assert -(x * k) == -x * k;
  }

  /** Waiting multiplies every score by one positive factor. */
  lemma ScoreShifts(exp: real -> real, base: Anomaly -> real, a: Anomaly, now: real, later: real)
    requires Exponential(exp)
    ensures -Score(exp, base, now + later)(a) == Times(Recency(exp, later))(-Score(exp, base, now)(a))
  {
    var age, from := now - a.openedAt as real, a.openedAt as real;
    assert now + later - from == age + later;
    var x, r, k := base(a), Recency(exp, age), Recency(exp, later);
    assert Recency(exp, now + later - from) == r * k by { RecencyShifts(exp, age, later); }
    Rearranged(x, r, k);
  }

  lemma RankedRescaled(open: seq<Anomaly>, f: Anomaly -> real, g: Anomaly -> real, m: real -> real)
    requires KeepsOrder(m) && forall a :: -g(a) == m(-f(a))
    ensures Ranked(open, g) == Ranked(open, f)
  {
    assert Scored(open, g) == Rekey(Scored(open, f), m);
    SortRekey(Scored(open, f), m);
  }

  /** For the same open anomalies and blast counts, hence the same base, the ranking and every
      top-n cut are the same whenever they are computed. */
  lemma RankingIgnoresTime(exp: real -> real, base: Anomaly -> real, open: seq<Anomaly>, now: real, other: real,
      topN: int)
    requires Exponential(exp)
    ensures Ranked(open, Score(exp, base, now)) == Ranked(open, Score(exp, base, other))
    ensures Prefix(Ranked(open, Score(exp, base, now)), topN) == Prefix(Ranked(open, Score(exp, base, other)), topN)
  {
    var k := Recency(exp, other - now);
    ScalingKeepsOrder(k);
    assert now + (other - now) == other;
    forall a ensures -Score(exp, base, other)(a) == Times(k)(-Score(exp, base, now)(a)) {
      ScoreShifts(exp, base, a, now, other - now);
    }
    RankedRescaled(open, Score(exp, base, now), Score(exp, base, other), Times(k));
  }

  /** What the order is: one anomaly scores at least as much as another exactly when its base,
      discounted by how much earlier it was opened, does; the time of the assessment drops out. */
  lemma ScoresAtLeastIff(exp: real -> real, base: Anomaly -> real, a: Anomaly, b: Anomaly, now: real)
    requires Exponential(exp)
    ensures Score(exp, base, now)(b) <= Score(exp, base, now)(a)
       <==> base(b) <= base(a) * Recency(exp, b.openedAt as real - a.openedAt as real)
  {
    var x, y := base(a), base(b);
    TimeDropsOut(exp, x, y, a.openedAt as real, b.openedAt as real, now);
  }

  lemma TimeDropsOut(exp: real -> real, x: real, y: real, from: real, to: real, now: real)
    requires Exponential(exp)
    ensures y * Recency(exp, now - to) <= x * Recency(exp, now - from) <==> y <= x * Recency(exp, to - from)
  {
    RecencyShifts(exp, now - to, to - from);
    assert now - to + (to - from) == now - from;
    Discounted(x, y, Recency(exp, now - to), Recency(exp, to - from));
  }

  lemma Discounted(x: real, y: real, k: real, d: real)
    requires k > 0.0
    ensures y * k <= x * (k * d) <==> y <= x * d
  {
    assert x * (k * d) == (x * d) * k;
    ScaleIff(y, x * d, k);
  }

  /** The ranking is a rearrangement of the open anomalies, best score first, and those with equal
      scores stay in the registry's order. */
  lemma RankedSpec(open: seq<Anomaly>, score: Anomaly -> real, key: real)
    ensures var sorted := Sort(Scored(open, score));
      && multiset(sorted) == multiset(Scored(open, score))
      && WithKey(sorted, key) == WithKey(Scored(open, score), key)
      && |Ranked(open, score)| == |open|
    ensures forall i, j :: 0 <= i < j < |open| ==> score(Ranked(open, score)[i]) >= score(Ranked(open, score)[j])
  {
    var scored := Scored(open, score);
    SortSpec(scored, key);
    forall i | 0 <= i < |open| ensures Sort(scored)[i].0 == -score(Ranked(open, score)[i]) {
      SortMembers(scored, Sort(scored)[i]);
    }
  }
}
