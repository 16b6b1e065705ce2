/** The page score shown on each analyzer's card (`calcScore` and the
    class chosen in `renderScoreCard`, main.js). */
module Score {
  import opened Wrappers

  /** An analyzer finding; only its severity enters the score. */
  datatype Issue = Issue(severity: string, message: string)

  /** The penalty of one issue: 30 for "HIGH", 20 for "MEDIUM", 10 for "LOW"
      and 5 for any other severity. */
  function Penalty(severity: string): (p: nat)
    ensures 5 <= p <= 30
  {
    if severity == "HIGH" then 30
    else if severity == "MEDIUM" then 20
    else if severity == "LOW" then 10
    else 5
  }

  /** The sum of the penalties of `issues`. */
  function TotalPenalty(issues: seq<Issue>): (t: nat)
    ensures 5 * |issues| <= t <= 30 * |issues|
    decreases |issues|
  {
    if issues == [] then 0
    else TotalPenalty(issues[..|issues| - 1]) + Penalty(issues[|issues| - 1].severity)
  }

  /** The score of an issue list: 100 minus the total penalty, never below 0. */
  function ScoreOf(issues: seq<Issue>): (score: int)
    ensures 0 <= score <= 100
    ensures TotalPenalty(issues) <= 100 ==> score == 100 - TotalPenalty(issues)
    ensures TotalPenalty(issues) >= 100 ==> score == 0
  {
    if TotalPenalty(issues) >= 100 then 0 else 100 - TotalPenalty(issues)
  }

  /** `calcScore(issues)`; `issues` is `None` when the list is missing. */
  method CalcScore(issues: Option<seq<Issue>>) returns (score: int)
    ensures 0 <= score <= 100
    ensures issues.None? || issues.value == [] ==> score == 100
    ensures issues.Some? ==> score == ScoreOf(issues.value)
  {
    if issues.None? || |issues.value| == 0 {
      return 100;
    }
    var list := issues.value;
    var penalty := 0;
    var i := 0;
    while i < |list|
      invariant 0 <= i <= |list|
      invariant penalty == TotalPenalty(list[..i])
    {
      assert list[..i + 1][..i] == list[..i];
      penalty := penalty + Penalty(list[i].severity);
      i := i + 1;
    }
    assert list[..i] == list;
    score := if 0 > 100 - penalty then 0 else 100 - penalty;
  }

  /** The number of issues of a severity. */
  function Count(issues: seq<Issue>, severity: string): (n: nat)
    ensures n <= |issues|
    decreases |issues|
  {
    if issues == [] then 0
    else Count(issues[..|issues| - 1], severity) + if issues[|issues| - 1].severity == severity then 1 else 0
  }

  /** The issues whose severity is none of the three named ones. */
  function CountOther(issues: seq<Issue>): (n: nat)
    ensures n <= |issues|
    decreases |issues|
  {
    if issues == [] then 0
    else
      var s := issues[|issues| - 1].severity;
      CountOther(issues[..|issues| - 1]) + if s != "HIGH" && s != "MEDIUM" && s != "LOW" then 1 else 0
  }

  /** The total penalty by severity counts: 30 per HIGH, 20 per MEDIUM, 10
      per LOW, 5 per other issue. */
  lemma {:induction false} TotalPenaltyByCounts(issues: seq<Issue>)
    ensures TotalPenalty(issues) ==
      30 * Count(issues, "HIGH") + 20 * Count(issues, "MEDIUM") + 10 * Count(issues, "LOW") + 5 * CountOther(issues)
    decreases |issues|
  {
    if issues != [] {
      TotalPenaltyByCounts(issues[..|issues| - 1]);
    }
  }

  /** Penalties add up over a concatenation. */
  lemma {:induction false} TotalPenaltyAppend(a: seq<Issue>, b: seq<Issue>)
    ensures TotalPenalty(a + b) == TotalPenalty(a) + TotalPenalty(b)
    decreases |b|
  {
    if b != [] {
      var b' := b[..|b| - 1];
      var last := b[|b| - 1].severity;
      assert (a + b)[..|a + b| - 1] == a + b';
      assert (a + b)[|a + b| - 1] == b[|b| - 1];
      TotalPenaltyAppend(a, b');
      assert TotalPenalty(a + b) == TotalPenalty(a + b') + Penalty(last);
      assert TotalPenalty(b) == TotalPenalty(b') + Penalty(last);
    } else {
      assert a + b == a;
    }
  }

  /** More issues never raise the score; each issue added while the total
      penalty is below 100 lowers it by at least 5. */
  lemma ScoreNeverIncreases(a: seq<Issue>, b: seq<Issue>)
    ensures ScoreOf(a + b) <= ScoreOf(a)
    ensures TotalPenalty(a + b) <= 100 ==> ScoreOf(a + b) <= ScoreOf(a) - 5 * |b|
  {
    TotalPenaltyAppend(a, b);
  }

  /** The score class of a card. */
  datatype ScoreClass = Bad | Medium | Good

  /** `scoreClass` in `renderScoreCard`. */
  function ClassOf(score: int): (c: ScoreClass)
    ensures c == Bad <==> score < 40
    ensures c == Medium <==> 40 <= score < 70
    ensures c == Good <==> 70 <= score
  {
    if score < 40 then Bad else if score < 70 then Medium else Good
  }

  function Rank(c: ScoreClass): nat
  {
    match c
    case Bad => 0
    case Medium => 1
    case Good => 2
  }

  /** A card never gets a better class by having more issues. */
  lemma ClassNeverImproves(a: seq<Issue>, b: seq<Issue>)
    ensures Rank(ClassOf(ScoreOf(a + b))) <= Rank(ClassOf(ScoreOf(a)))
  {
    ScoreNeverIncreases(a, b);
  }
}
