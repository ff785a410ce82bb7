/**
 * Scoring, ranking, quadrant classification and validation of ideas
 * (src/lib/ranking-engine.ts).
 *
 * The score is computed in exact rational arithmetic from the default
 * weights and proved equal to an integer formula; ranking sorts a fresh
 * array with a stable insertion sort, proved equal to a functional
 * insertion sort whose order, permutation and stability are proved below.
 */
module RankingEngine {
  import opened Types
  import opened Text

  // ---------------------------------------------------------------------------
  // Scoring

  datatype RankingWeights = RankingWeights(impact: real, effort: real, risk: real, dataReadiness: real)

  /** Effort and risk are penalised, impact and data readiness rewarded. */
  const DefaultWeights: RankingWeights := RankingWeights(0.4, -0.3, -0.2, 0.1)

  /** `Math.round`: the nearest integer, halves rounded up. */
  function MathRound(x: real): int
  {
    (x + 0.5).Floor
  }

  /** Ten times the default weighted sum shifted by 4.5: 4i - 3e - 2r + d + 45. */
  function ScorePoints(idea: Idea): int
  {
    4 * idea.impact - 3 * idea.effort - 2 * idea.risk + idea.dataReadiness + 45
  }

  /** Integer reference for the score in tenths: round(100 * points / 9). */
  function ScoreTenths(idea: Idea): int
  {
    (200 * ScorePoints(idea) + 9) / 18
  }

  lemma FloorOfQuotient(m: int)
    ensures (m as real / 18.0).Floor == m / 18
  {
    var q, r := m / 18, m % 18;
    assert m == 18 * q + r && 0 <= r < 18;
    assert m as real / 18.0 == q as real + r as real / 18.0;
  }

  /** `calculateScore` with the default weights: the weighted sum normalised
      from [-4.5, 4.5] onto [0, 100] and rounded to one decimal place. Its
      value is the integer reference ScoreTenths, in tenths. */
  function CalculateScore(idea: Idea): (r: real)
    ensures r == ScoreTenths(idea) as real / 10.0
  {
    var w := DefaultWeights;
    var raw := idea.impact as real * w.impact + idea.effort as real * w.effort
             + idea.risk as real * w.risk + idea.dataReadiness as real * w.dataReadiness;
    var normalized := ((raw + 4.5) / 9.0) * 100.0;
    var p := ScorePoints(idea);
    assert normalized * 10.0 + 0.5 == (200 * p + 9) as real / 18.0;
    FloorOfQuotient(200 * p + 9);
    MathRound(normalized * 10.0) as real / 10.0
  }

  /** With every dimension in [1, 10], the score lies in [0, 100]. */
  lemma ScoreInRange(idea: Idea)
    requires InRange(idea)
    ensures 0.0 <= CalculateScore(idea) <= 100.0
  {
    assert 0 <= ScorePoints(idea) <= 90;
  }

  /** The normalisation bounds are attained: the worst idea scores 0 and the best 100. */
  lemma ScoreExtremes(worst: Idea, best: Idea)
    requires worst.impact == 1 && worst.effort == 10 && worst.risk == 10 && worst.dataReadiness == 1
    requires best.impact == 10 && best.effort == 1 && best.risk == 1 && best.dataReadiness == 10
    ensures CalculateScore(worst) == 0.0 && CalculateScore(best) == 100.0
  {
  }

  /** More impact or data readiness never lowers the score; more effort or risk never raises it. */
  lemma ScoreMonotone(a: Idea, b: Idea)
    requires a.impact <= b.impact && a.dataReadiness <= b.dataReadiness
    requires a.effort >= b.effort && a.risk >= b.risk
    ensures CalculateScore(a) <= CalculateScore(b)
  {
    assert ScorePoints(a) <= ScorePoints(b);
    assert ScoreTenths(a) <= ScoreTenths(b);
  }

  // ---------------------------------------------------------------------------
  // Ranking

  datatype RankingResult = RankingResult(ideas: seq<Idea>, topPicks: seq<Idea>)

  /** The sort key `score ?? 0`. */
  function ScoreKey(x: Idea): real
  {
    if x.score.Some? then x.score.value else 0.0
  }

  /** Every idea of the batch with its score attached (`{...idea, score}`). */
  function ScoredIdeas(ideas: seq<Idea>): (r: seq<Idea>)
    ensures |r| == |ideas|
    ensures forall k :: 0 <= k < |ideas| ==>
      r[k].score == Some(CalculateScore(ideas[k])) && r[k].(score := ideas[k].score) == ideas[k]
  {
    seq(|ideas|, k requires 0 <= k < |ideas| => ideas[k].(score := Some(CalculateScore(ideas[k]))))
  }

  /** Non-increasing by score. */
  predicate Sorted(s: seq<Idea>)
  {
    forall i, j :: 0 <= i < j < |s| ==> ScoreKey(s[i]) >= ScoreKey(s[j])
  }

  /** The ideas of `s` whose score is `v`, in their order in `s`. */
  function WithScore(s: seq<Idea>, v: real): seq<Idea>
  {
    if s == [] then []
    else WithScore(s[..|s| - 1], v) + (if ScoreKey(s[|s| - 1]) == v then [s[|s| - 1]] else [])
  }

  /** Stable insertion of `x`: it goes after every element whose score is at least its own. */
  function Insert(s: seq<Idea>, x: Idea): seq<Idea>
  {
    if s == [] || ScoreKey(s[|s| - 1]) >= ScoreKey(x) then s + [x]
    else Insert(s[..|s| - 1], x) + [s[|s| - 1]]
  }

  /** Insertion sort by descending score, inserting the elements left to right. */
  function SortByScore(s: seq<Idea>): seq<Idea>
  {
    if s == [] then [] else Insert(SortByScore(s[..|s| - 1]), s[|s| - 1])
  }

  lemma {:induction false} InsertPermutes(s: seq<Idea>, x: Idea)
    ensures multiset(Insert(s, x)) == multiset(s) + multiset{x}
  {
    if s == [] || ScoreKey(s[|s| - 1]) >= ScoreKey(x) {
    } else {
      InsertPermutes(s[..|s| - 1], x);
      assert s == s[..|s| - 1] + [s[|s| - 1]];
    }
  }

  /** The sorted sequence is a permutation of its input. */
  lemma {:induction false} SortByScorePermutes(s: seq<Idea>)
    ensures multiset(SortByScore(s)) == multiset(s)
    ensures |SortByScore(s)| == |s|
  {
    if s != [] {
      SortByScorePermutes(s[..|s| - 1]);
      InsertPermutes(SortByScore(s[..|s| - 1]), s[|s| - 1]);
      assert s == s[..|s| - 1] + [s[|s| - 1]];
    }
    assert |multiset(SortByScore(s))| == |multiset(s)|;
  }

  /** Appending an element that scores no more than anything before it keeps the order. */
  lemma AppendSorted(t: seq<Idea>, z: Idea)
    requires Sorted(t)
    requires forall k :: 0 <= k < |t| ==> ScoreKey(t[k]) >= ScoreKey(z)
    ensures Sorted(t + [z])
  {
  }

  lemma {:induction false} InsertSorted(s: seq<Idea>, x: Idea)
    requires Sorted(s)
    ensures Sorted(Insert(s, x))
  {
    if s == [] || ScoreKey(s[|s| - 1]) >= ScoreKey(x) {
      AppendSorted(s, x);
    } else {
      var init, last := s[..|s| - 1], s[|s| - 1];
      InsertSorted(init, x);
      InsertPermutes(init, x);
      var ins := Insert(init, x);
      forall k | 0 <= k < |ins| ensures ScoreKey(ins[k]) >= ScoreKey(last) {
        var y := ins[k];
        assert y in multiset(ins);
        if y != x {
          assert y in init;
        }
      }
      AppendSorted(ins, last);
    }
  }

  /** The sorted sequence is non-increasing by score. */
  lemma {:induction false} SortByScoreSorted(s: seq<Idea>)
    ensures Sorted(SortByScore(s))
  {
    if s != [] {
      SortByScoreSorted(s[..|s| - 1]);
      InsertSorted(SortByScore(s[..|s| - 1]), s[|s| - 1]);
    }
  }

  lemma {:induction false} WithScoreAppend(a: seq<Idea>, b: seq<Idea>, v: real)
    ensures WithScore(a + b, v) == WithScore(a, v) + WithScore(b, v)
    decreases |b|
  {
    if b != [] {
      assert (a + b)[..|a + b| - 1] == a + b[..|b| - 1];
      WithScoreAppend(a, b[..|b| - 1], v);
    } else {
      assert a + b == a;
    }
  }

  lemma {:induction false} InsertStable(s: seq<Idea>, x: Idea, v: real)
    ensures WithScore(Insert(s, x), v) == WithScore(s, v) + WithScore([x], v)
  {
    if s == [] || ScoreKey(s[|s| - 1]) >= ScoreKey(x) {
      WithScoreAppend(s, [x], v);
    } else {
      var init, last := s[..|s| - 1], s[|s| - 1];
      var ins := Insert(init, x);
      InsertStable(init, x, v);
      assert (ins + [last])[..|ins|] == ins;
      assert WithScore([x], v) == if ScoreKey(x) == v then [x] else [];
    }
  }

  /** Stability: the ideas that share any one score keep their input order. */
  lemma {:induction false} SortByScoreStable(s: seq<Idea>, v: real)
    ensures WithScore(SortByScore(s), v) == WithScore(s, v)
  {
    if s != [] {
      var init, last := s[..|s| - 1], s[|s| - 1];
      SortByScoreStable(init, v);
      InsertStable(SortByScore(init), last, v);
      assert WithScore([last], v) == WithScore([], v) + (if ScoreKey(last) == v then [last] else []);
    }
  }

  /** Where insertion puts `x`: after the last element scoring at least as much,
      with every later element scoring less. */
  lemma {:induction false} InsertAt(s: seq<Idea>, j: nat, x: Idea)
    requires j <= |s|
    requires j > 0 ==> ScoreKey(s[j - 1]) >= ScoreKey(x)
    requires forall k :: j <= k < |s| ==> ScoreKey(s[k]) < ScoreKey(x)
    ensures Insert(s, x) == s[..j] + [x] + s[j..]
    decreases |s|
  {
    if j < |s| {
      var init := s[..|s| - 1];
      InsertAt(init, j, x);
      assert init[..j] == s[..j];
      assert init[j..] + [s[|s| - 1]] == s[j..];
    }
  }

  /** Moves `a[i]` left past every element of the prefix `a[..i]` that scores lower. */
  method InsertInPlace(a: array<Idea>, i: nat)
    requires i < a.Length
    modifies a
    ensures a[..i + 1] == Insert(old(a[..i]), old(a[i]))
    ensures forall k :: i < k < a.Length ==> a[k] == old(a[k])
  {
    var x := a[i];
    ghost var sorted := a[..i];
    var j := i;
    while j > 0 && ScoreKey(a[j - 1]) < ScoreKey(x)
      invariant 0 <= j <= i
      invariant forall k :: 0 <= k < j ==> a[k] == sorted[k]
      invariant forall k :: j < k <= i ==> a[k] == sorted[k - 1]
      invariant forall k :: j <= k < i ==> ScoreKey(sorted[k]) < ScoreKey(x)
      invariant forall k :: i < k < a.Length ==> a[k] == old(a[k])
    {
      a[j] := a[j - 1];
      j := j - 1;
    }
    a[j] := x;
    InsertAt(sorted, j, x);
    Assemble(sorted, j, x, a[..i + 1]);
  }

  /** The array after the shifting loop, read as a sequence. */
  lemma Assemble(s: seq<Idea>, j: nat, x: Idea, t: seq<Idea>)
    requires j <= |s| && |t| == |s| + 1
    requires forall k :: 0 <= k < j ==> t[k] == s[k]
    requires t[j] == x
    requires forall k :: j < k <= |s| ==> t[k] == s[k - 1]
    ensures t == s[..j] + [x] + s[j..]
  {
  }

  /** The in-place insertion sort `Array.prototype.sort` stands for: stable, by descending score. */
  method SortInPlace(a: array<Idea>)
    modifies a
    ensures a[..] == SortByScore(old(a[..]))
  {
    ghost var input := a[..];
    var i := 0;
    while i < a.Length
      invariant 0 <= i <= a.Length
      invariant a[..i] == SortByScore(input[..i])
      invariant forall k :: i <= k < a.Length ==> a[k] == input[k]
    {
      assert input[..i + 1][..i] == input[..i];
      InsertInPlace(a, i);
      i := i + 1;
    }
    assert input[..a.Length] == input;
  }

  /** `Math.ceil`. */
  function Ceil(x: real): int
  {
    -((-x).Floor)
  }

  /** `Math.max(3, Math.ceil(n * 0.2))`: three picks, or a fifth of the batch when that is more. */
  function TopPicksCount(n: nat): int
  {
    Max(3, Ceil(n as real * 0.2))
  }

  /** A fifth of `n` rounded up is (n + 4) / 5 in integer division. */
  lemma CeilFifth(n: nat)
    ensures Ceil(n as real * 0.2) == (n + 4) / 5
  {
    var q, r := (n + 4) / 5, (n + 4) % 5;
    assert n + 4 == 5 * q + r && 0 <= r < 5;
    var x := -(n as real * 0.2);
    assert x == (-q) as real + (4 - r) as real / 5.0;
    assert x.Floor == -q;
  }

  /** Ranks are 1-based positions: `{...idea, rank: index + 1}`. */
  function WithRanks(s: seq<Idea>): (r: seq<Idea>)
    ensures |r| == |s|
    ensures forall k :: 0 <= k < |s| ==> r[k] == s[k].(rank := Some(k + 1))
  {
    seq(|s|, k requires 0 <= k < |s| => s[k].(rank := Some(k + 1)))
  }

  /** Numbering the ideas leaves their order by score intact. */
  lemma WithRanksSorted(s: seq<Idea>)
    requires Sorted(s)
    ensures Sorted(WithRanks(s))
  {
    var r := WithRanks(s);
    forall i, j | 0 <= i < j < |r| ensures ScoreKey(r[i]) >= ScoreKey(r[j]) {
      assert ScoreKey(r[i]) == ScoreKey(s[i]) && ScoreKey(r[j]) == ScoreKey(s[j]);
    }
  }

  /** `scoredIdeas.sort(...)`: the freshly mapped list, held in an array and sorted in place. */
  method SortedCopy(s: seq<Idea>) returns (sorted: seq<Idea>)
    ensures sorted == SortByScore(s)
  {
    var a := new Idea[|s|](k requires 0 <= k < |s| => s[k]);
    assert a[..] == s;
    SortInPlace(a);
    sorted := a[..];
  }

  /** The ranked list `rankIdeas` returns. */
  function Ranked(ideas: seq<Idea>): seq<Idea>
  {
    WithRanks(SortByScore(ScoredIdeas(ideas)))
  }

  /** Every ranked entry is an input idea, scored, with its position as rank. */
  lemma RankedFromInput(ideas: seq<Idea>, k: nat)
    requires k < |ideas|
    ensures |Ranked(ideas)| == |ideas|
    ensures exists j :: (0 <= j < |ideas|
      && Ranked(ideas)[k] == ideas[j].(score := Some(CalculateScore(ideas[j])), rank := Some(k + 1)))
  {
    var scored := ScoredIdeas(ideas);
    var sorted := SortByScore(scored);
    SortByScorePermutes(scored);
    assert sorted[k] in multiset(sorted);
    var j :| 0 <= j < |scored| && scored[j] == sorted[k];
    assert Ranked(ideas)[k] == ideas[j].(score := Some(CalculateScore(ideas[j])), rank := Some(k + 1));
  }

  /** Every input idea appears in the ranked list, scored, at the position its rank names. */
  lemma InputRanked(ideas: seq<Idea>, j: nat)
    requires j < |ideas|
    ensures |Ranked(ideas)| == |ideas|
    ensures exists k :: (0 <= k < |ideas|
      && Ranked(ideas)[k] == ideas[j].(score := Some(CalculateScore(ideas[j])), rank := Some(k + 1)))
  {
    var scored := ScoredIdeas(ideas);
    var sorted := SortByScore(scored);
    SortByScorePermutes(scored);
    assert scored[j] in multiset(sorted);
    var k :| 0 <= k < |sorted| && sorted[k] == scored[j];
    assert Ranked(ideas)[k] == ideas[j].(score := Some(CalculateScore(ideas[j])), rank := Some(k + 1));
  }

  /** `rankIdeas` with the default weights: scores every idea, sorts a fresh array
      stably by descending score, numbers the result 1..N and takes the top picks. */
  method RankIdeas(ideas: seq<Idea>) returns (result: RankingResult)
    ensures result.ideas == Ranked(ideas)
    ensures |result.ideas| == |ideas|
    ensures Sorted(result.ideas)
    ensures forall k :: 0 <= k < |ideas| ==> result.ideas[k].rank == Some(k + 1)
    ensures |result.topPicks| == Min(|ideas|, Max(3, (|ideas| + 4) / 5))
    ensures result.topPicks == result.ideas[..|result.topPicks|]
  {
    var scored := ScoredIdeas(ideas);
    var sorted := SortedCopy(scored);
    SortByScorePermutes(scored);
    SortByScoreSorted(scored);
    var ranked := WithRanks(sorted);
    WithRanksSorted(sorted);
    var count := TopPicksCount(|ideas|);
    CeilFifth(|ideas|);
    result := RankingResult(ranked, ranked[..Min(|ranked|, count)]);
  }

  /** The worked examples: one idea gives one pick, fifteen give three, twenty give four. */
  lemma TopPicksExamples()
    ensures Min(1, TopPicksCount(1)) == 1
    ensures Min(15, TopPicksCount(15)) == 3
    ensures Min(20, TopPicksCount(20)) == 4
  {
    CeilFifth(1);
    CeilFifth(15);
    CeilFifth(20);
  }

  // ---------------------------------------------------------------------------
  // Impact/effort quadrant

  datatype Quadrant = QuickWins | MajorProjects | FillIns | TimeSinks
  {
    function Label(): string
    {
      match this
      case QuickWins => "Quick Wins"
      case MajorProjects => "Major Projects"
      case FillIns => "Fill-Ins"
      case TimeSinks => "Time Sinks"
    }
  }

  /** `getQuadrant`: high impact is 6 or more, low effort is 5 or less. */
  function GetQuadrant(idea: Idea): (q: Quadrant)
    ensures q == QuickWins <==> idea.impact >= 6 && idea.effort <= 5
    ensures q == MajorProjects <==> idea.impact >= 6 && idea.effort > 5
    ensures q == FillIns <==> idea.impact < 6 && idea.effort <= 5
    ensures q == TimeSinks <==> idea.impact < 6 && idea.effort > 5
  {
    var highImpact := idea.impact >= 6;
    var lowEffort := idea.effort <= 5;
    if highImpact && lowEffort then QuickWins
    else if highImpact && !lowEffort then MajorProjects
    else if !highImpact && lowEffort then FillIns
    else TimeSinks
  }

  // ---------------------------------------------------------------------------
  // Validation

  /** A partially filled idea record as it arrives from a caller; absent fields are None. */
  datatype IdeaInput = IdeaInput(
    title: Option<string>,
    description: Option<string>,
    impact: Option<int>,
    effort: Option<int>,
    risk: Option<int>,
    dataReadiness: Option<int>
  )

  /** The four range-checked dimensions, with the names the messages use. */
  datatype Metric = Impact | Effort | Risk | DataReadiness
  {
    function Name(): string
    {
      match this
      case Impact => "Impact"
      case Effort => "Effort"
      case Risk => "Risk"
      case DataReadiness => "Data Readiness"
    }
  }

  /** One validation message; `Text` is the string the source reports. */
  datatype ValidationError = TitleRequired | DescriptionRequired | MetricOutOfRange(metric: Metric)
  {
    function Text(): string
    {
      match this
      case TitleRequired => "Title is required"
      case DescriptionRequired => "Description is required"
      case MetricOutOfRange(m) => m.Name() + " must be between 1 and 10"
    }
  }

  /** `!text?.trim()`: absent, or nothing but whitespace. */
  predicate Blank(text: Option<string>)
  {
    text.None? || Trim(text.value) == ""
  }

  /** `value === undefined || value < 1 || value > 10`. */
  predicate OutOfRange(value: Option<int>)
  {
    value.None? || value.value < 1 || value.value > 10
  }

  function MetricValue(input: IdeaInput, m: Metric): Option<int>
  {
    match m
    case Impact => input.impact
    case Effort => input.effort
    case Risk => input.risk
    case DataReadiness => input.dataReadiness
  }

  /** The rule behind each message, stated on its own. */
  predicate Violates(input: IdeaInput, e: ValidationError)
  {
    match e
    case TitleRequired => Blank(input.title)
    case DescriptionRequired => Blank(input.description)
    case MetricOutOfRange(m) => OutOfRange(MetricValue(input, m))
  }

  /** The message as a singleton when `input` violates its rule, nothing otherwise. */
  function Flag(input: IdeaInput, e: ValidationError): seq<ValidationError>
  {
    if Violates(input, e) then [e] else []
  }

  /** The rules in the order `validateIdea` checks them. */
  const RuleOrder: seq<ValidationError> :=
    [TitleRequired, DescriptionRequired, MetricOutOfRange(Impact),
     MetricOutOfRange(Effort), MetricOutOfRange(Risk), MetricOutOfRange(DataReadiness)]

  /** The rules of `rules` that `violated` holds of, in order. */
  function Select(rules: seq<ValidationError>, violated: ValidationError -> bool): (r: seq<ValidationError>)
    ensures forall e :: e in r ==> e in rules && violated(e)
  {
    if rules == [] then []
    else
      var last := rules[|rules| - 1];
      Select(rules[..|rules| - 1], violated) + (if violated(last) then [last] else [])
  }

  /** The rules of `rules` that `input` violates, in order. */
  function Failing(input: IdeaInput, rules: seq<ValidationError>): seq<ValidationError>
  {
    Select(rules, e => Violates(input, e))
  }

  /** Reference list of messages: the violated rules, in the order they are checked. */
  function Violations(input: IdeaInput): seq<ValidationError>
  {
    Failing(input, RuleOrder)
  }

  /** Selecting from a list extended by one rule selects that rule last, if at all. */
  lemma SelectSnoc(rules: seq<ValidationError>, x: ValidationError, violated: ValidationError -> bool)
    ensures Select(rules + [x], violated) == Select(rules, violated) + (if violated(x) then [x] else [])
  {
    assert (rules + [x])[..|rules|] == rules;
  }

  /** The messages, written out rule by rule. */
  lemma ViolationsUnrolled(input: IdeaInput)
    ensures Violations(input)
      == Flag(input, TitleRequired) + Flag(input, DescriptionRequired)
      + Flag(input, MetricOutOfRange(Impact)) + Flag(input, MetricOutOfRange(Effort))
      + Flag(input, MetricOutOfRange(Risk)) + Flag(input, MetricOutOfRange(DataReadiness))
  {
    var v := e => Violates(input, e);
    var r := RuleOrder;
    var p1 := [r[0]];
    var p2 := p1 + [r[1]];
    var p3 := p2 + [r[2]];
    var p4 := p3 + [r[3]];
    var p5 := p4 + [r[4]];
    assert p5 + [r[5]] == r;
    assert [] + [r[0]] == p1;
    SelectSnoc([], r[0], v);
    SelectSnoc(p1, r[1], v);
    SelectSnoc(p2, r[2], v);
    SelectSnoc(p3, r[3], v);
    SelectSnoc(p4, r[4], v);
    SelectSnoc(p5, r[5], v);
  }

  predicate Distinct(rules: seq<ValidationError>)
  {
    forall j, k :: 0 <= j < k < |rules| ==> rules[j] != rules[k]
  }

  /** Over distinct rules, a rule is selected once if it is among them and holds, else never. */
  lemma {:induction false} SelectCount(rules: seq<ValidationError>, violated: ValidationError -> bool, e: ValidationError)
    requires Distinct(rules)
    ensures multiset(Select(rules, violated))[e] == if e in rules && violated(e) then 1 else 0
  {
    if rules != [] {
      var init, last := rules[..|rules| - 1], rules[|rules| - 1];
      assert Distinct(init) by {
        forall j, k | 0 <= j < k < |init|
          ensures init[j] != init[k]
        {
          assert init[j] == rules[j] && init[k] == rules[k];
        }
      }
      assert forall j :: 0 <= j < |init| ==> init[j] == rules[j];
      SelectCount(init, violated, e);
      assert rules == init + [last];
    }
  }

  /** Over distinct rules, a rule is listed once if it is among them and violated, else never. */
  lemma FailingCount(input: IdeaInput, rules: seq<ValidationError>, e: ValidationError)
    requires Distinct(rules)
    ensures multiset(Failing(input, rules))[e] == if e in rules && Violates(input, e) then 1 else 0
  {
    SelectCount(rules, e => Violates(input, e), e);
  }

  /** Every message the validator can produce is in the rule order. */
  lemma AllRulesChecked(e: ValidationError)
    ensures e in RuleOrder
  {
    match e
    case TitleRequired => assert RuleOrder[0] == e;
    case DescriptionRequired => assert RuleOrder[1] == e;
    case MetricOutOfRange(m) =>
      match m
      case Impact => assert RuleOrder[2] == e;
      case Effort => assert RuleOrder[3] == e;
      case Risk => assert RuleOrder[4] == e;
      case DataReadiness => assert RuleOrder[5] == e;
  }

  lemma RuleOrderDistinct()
    ensures Distinct(RuleOrder)
  {
  }

  /** Each rule is reported exactly once when violated and never otherwise. */
  lemma ViolationsExact(input: IdeaInput, e: ValidationError)
    ensures multiset(Violations(input))[e] == if Violates(input, e) then 1 else 0
  {
    AllRulesChecked(e);
    RuleOrderDistinct();
    FailingCount(input, RuleOrder, e);
  }

  /** No messages exactly when no rule is violated. */
  lemma ViolationsEmpty(input: IdeaInput)
    ensures Violations(input) == [] <==> forall e :: !Violates(input, e)
  {
    if Violations(input) != [] {
      assert Violations(input)[0] in Violations(input);
    } else {
      forall e ensures !Violates(input, e) {
        ViolationsExact(input, e);
      }
    }
  }

  /** The `validateMetric` closure: one message when the value is missing or out of range. */
  method ValidateMetric(errors: seq<ValidationError>, value: Option<int>, m: Metric)
    returns (errors': seq<ValidationError>)
    ensures errors' == errors + if OutOfRange(value) then [MetricOutOfRange(m)] else []
  {
    errors' := errors;
    if OutOfRange(value) {
      errors' := errors' + [MetricOutOfRange(m)];
    }
  }

  /** `validateIdea`: every rule is checked and the messages are exactly the
      violated rules, in rule order; the record is valid iff no rule is violated. */
  method ValidateIdea(input: IdeaInput) returns (valid: bool, errors: seq<ValidationError>)
    ensures errors == Violations(input)
    ensures valid <==> errors == []
    ensures valid <==> forall e :: !Violates(input, e)
  {
    errors := [];
    if Blank(input.title) {
      errors := errors + [TitleRequired];
    }
    assert errors == Flag(input, TitleRequired);
    if Blank(input.description) {
      errors := errors + [DescriptionRequired];
    }
    ghost var e2 := errors;
    assert e2 == Flag(input, TitleRequired) + Flag(input, DescriptionRequired);
    errors := ValidateMetric(errors, input.impact, Impact);
    assert errors == e2 + Flag(input, MetricOutOfRange(Impact));
    ghost var e3 := errors;
    errors := ValidateMetric(errors, input.effort, Effort);
    assert errors == e3 + Flag(input, MetricOutOfRange(Effort));
    ghost var e4 := errors;
    errors := ValidateMetric(errors, input.risk, Risk);
    assert errors == e4 + Flag(input, MetricOutOfRange(Risk));
    ghost var e5 := errors;
    errors := ValidateMetric(errors, input.dataReadiness, DataReadiness);
    assert errors == e5 + Flag(input, MetricOutOfRange(DataReadiness));
    valid := |errors| == 0;
    ViolationsUnrolled(input);
    ViolationsEmpty(input);
  }

  /** A missing title together with impact 11 yields exactly the title and impact messages. */
  lemma MissingTitleAndImpactTooHigh(input: IdeaInput)
    requires input.title.None?
    requires input.impact == Some(11)
    requires !Blank(input.description)
    requires !OutOfRange(input.effort) && !OutOfRange(input.risk) && !OutOfRange(input.dataReadiness)
    ensures Violations(input) == [TitleRequired, MetricOutOfRange(Impact)]
  {
    ViolationsUnrolled(input);
  }
}
