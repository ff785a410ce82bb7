/**
 * The experiment-card generator (src/lib/experiment-card-generator.ts).
 *
 * A card is assembled from five sub-generators: problem statement, hypothesis,
 * dataset description, success metrics and go/no-go criteria, plus the first
 * five tips the playbook matcher returns for the idea. The metric and
 * criterion lists are built by conditional appends. Metrics, criteria, the
 * hypothesis, the dataset tier and the decision narrative are values whose
 * `Text` is the sentence the card shows; the problem statement is a string.
 */
module ExperimentCardGenerator {
  import opened Types
  import opened Text
  import PlaybookParser

  // Problem statement

  const ProblemLead: string := "\n\nThis initiative aims to address the challenge through an AI-powered approach, with an estimated impact level of "
  const ProblemTail: string := "/10 on business outcomes."

  /** The description, a blank line, and the impact level out of ten. */
  function ProblemStatement(idea: Idea): string
  {
    idea.description + ProblemLead + IntToString(idea.impact) + ProblemTail
  }

  /** The problem statement opens with the idea's own description and quotes its impact. */
  lemma ProblemStatementShape(idea: Idea)
    ensures StartsWith(ProblemStatement(idea), idea.description)
    ensures Contains(ProblemStatement(idea), IntToString(idea.impact))
  {
    var p := ProblemStatement(idea);
    assert p == idea.description + (ProblemLead + IntToString(idea.impact) + ProblemTail);
    ContainsInfix(idea.description + ProblemLead, IntToString(idea.impact), ProblemTail);
  }

  // Hypothesis

  /** How large an improvement the hypothesis promises. */
  datatype ImpactQualifier = Significant | Moderate | Measurable
  {
    function Word(): string
    {
      match this
      case Significant => "significant"
      case Moderate => "moderate"
      case Measurable => "measurable"
    }
  }

  /** How confident the hypothesis claims to be. */
  datatype ConfidenceQualifier = High | ModerateConfidence | Cautious
  {
    function Word(): string
    {
      match this
      case High => "high"
      case ModerateConfidence => "moderate"
      case Cautious => "cautious"
    }
  }

  function ImpactLevel(impact: int): ImpactQualifier
  {
    if impact >= 7 then Significant else if impact >= 4 then Moderate else Measurable
  }

  function ConfidenceLevel(risk: int): ConfidenceQualifier
  {
    if risk <= 3 then High else if risk <= 6 then ModerateConfidence else Cautious
  }

  /** The hypothesis: the idea's title, the two qualifiers, and the risk and data
      readiness it quotes out of ten. */
  datatype Hypothesis = Hypothesis(
    title: string,
    impact: ImpactQualifier,
    confidence: ConfidenceQualifier,
    risk: int,
    dataReadiness: int
  )
  {
    /** The sentence the card shows. */
    function Text(): string
    {
      "We believe that implementing " + title + " will deliver " + impact.Word()
      + " improvements in the target area. Our " + confidence.Word()
      + " confidence is based on the current risk assessment (" + IntToString(risk)
      + "/10) and available data readiness (" + IntToString(dataReadiness) + "/10)."
    }
  }

  function HypothesisOf(idea: Idea): Hypothesis
  {
    Hypothesis(idea.title, ImpactLevel(idea.impact), ConfidenceLevel(idea.risk), idea.risk, idea.dataReadiness)
  }

  /** The hypothesis names the idea, quotes its risk and data readiness, and picks
      its qualifiers by impact (7 and 4) and by risk (3 and 6). */
  lemma HypothesisBands(idea: Idea)
    ensures var h := HypothesisOf(idea);
      && h.title == idea.title && h.risk == idea.risk && h.dataReadiness == idea.dataReadiness
      && (h.impact == Significant <==> idea.impact >= 7)
      && (h.impact == Moderate <==> 4 <= idea.impact < 7)
      && (h.impact == Measurable <==> idea.impact < 4)
      && (h.confidence == High <==> idea.risk <= 3)
      && (h.confidence == ModerateConfidence <==> 3 < idea.risk <= 6)
      && (h.confidence == Cautious <==> idea.risk > 6)
  {
  }

  // Dataset

  /** The three dataset descriptions, from best to worst data readiness. */
  datatype DatasetTier = Ready | Partial | Limited
  {
    function Text(): string
    {
      match this
      case Ready => "High-quality datasets are available and validated. Data pipeline is established with proper versioning and quality controls. Ready for immediate use in model development."
      case Partial => "Datasets are partially available but require cleaning and validation. Estimated 20-30% of project time will be allocated to data preparation. Data quality monitoring will be implemented."
      case Limited => "Limited data availability. Significant effort required for data collection, labeling, and preparation (40-50% of timeline). Consider synthetic data generation or partnership with data teams. Data acquisition strategy must be prioritized."
    }
  }

  function DatasetLevel(dataReadiness: int): DatasetTier
  {
    if dataReadiness >= 7 then Ready else if dataReadiness >= 4 then Partial else Limited
  }

  /** One of three fixed texts, chosen by data readiness 7 and above, 4 to 6, or below 4. */
  lemma DatasetBands(dataReadiness: int)
    ensures DatasetLevel(dataReadiness) == Ready <==> dataReadiness >= 7
    ensures DatasetLevel(dataReadiness) == Partial <==> 4 <= dataReadiness < 7
    ensures DatasetLevel(dataReadiness) == Limited <==> dataReadiness < 4
  {
  }

  // Metrics

  /** The success metrics a card can list. */
  datatype SuccessMetric =
    | ModelAccuracy | ResponseTime | ErrorRate
    | UserAdoption | CostSavings | TimeSavings
    | UserSatisfaction | ProcessEfficiency
    | UserEngagement | FeatureUtilization
    | ResourceUtilization
  {
    function Text(): string
    {
      match this
      case ModelAccuracy => "Model accuracy/performance vs baseline (target: +20%)"
      case ResponseTime => "System response time and latency (target: <2s)"
      case ErrorRate => "Error rate and failure handling (target: <5%)"
      case UserAdoption => "User adoption rate (target: >60%)"
      case CostSavings => "Cost savings or revenue impact (target: $XX,XXX)"
      case TimeSavings => "Time savings for end users (target: 30%+ reduction)"
      case UserSatisfaction => "User satisfaction score (target: >7/10)"
      case ProcessEfficiency => "Process efficiency improvement (target: 15%+)"
      case UserEngagement => "User engagement metrics (target: baseline +10%)"
      case FeatureUtilization => "Feature utilization rate (target: >40%)"
      case ResourceUtilization => "Resource utilization (target: <80% of allocated)"
    }

    predicate IsBusiness()
    {
      !(this in TechnicalMetrics) && this != ResourceUtilization
    }
  }

  const TechnicalMetrics: seq<SuccessMetric> := [ModelAccuracy, ResponseTime, ErrorRate]

  /** The business metrics for an impact level. */
  function BusinessMetrics(impact: int): seq<SuccessMetric>
  {
    if impact >= 7 then [UserAdoption, CostSavings, TimeSavings]
    else if impact >= 4 then [UserSatisfaction, ProcessEfficiency]
    else [UserEngagement, FeatureUtilization]
  }

  /** The metrics of a card: technical, then business by impact, then resource utilisation. */
  function Metrics(idea: Idea): seq<SuccessMetric>
  {
    TechnicalMetrics + BusinessMetrics(idea.impact) + [ResourceUtilization]
  }

  /** `generateMetrics`: the list built by appends. */
  method GenerateMetrics(idea: Idea) returns (metrics: seq<SuccessMetric>)
    ensures metrics == Metrics(idea)
  {
    metrics := [];
    metrics := metrics + [ModelAccuracy];
    metrics := metrics + [ResponseTime];
    metrics := metrics + [ErrorRate];
    if idea.impact >= 7 {
      metrics := metrics + [UserAdoption];
      metrics := metrics + [CostSavings];
      metrics := metrics + [TimeSavings];
    } else if idea.impact >= 4 {
      metrics := metrics + [UserSatisfaction];
      metrics := metrics + [ProcessEfficiency];
    } else {
      metrics := metrics + [UserEngagement];
      metrics := metrics + [FeatureUtilization];
    }
    metrics := metrics + [ResourceUtilization];
  }

  /** Three technical metrics first, resource utilisation last, business metrics in between;
      seven metrics for high impact and six otherwise, none repeated. */
  lemma MetricsShape(idea: Idea)
    ensures var m := Metrics(idea);
      && |m| == (if idea.impact >= 7 then 7 else 6)
      && m[..3] == TechnicalMetrics
      && m[|m| - 1] == ResourceUtilization
      && (forall k :: 3 <= k < |m| - 1 ==> m[k].IsBusiness())
      && (forall j, k :: 0 <= j < k < |m| ==> m[j] != m[k])
  {
    var m := Metrics(idea);
    assert m[..3] == TechnicalMetrics;
  }

  // Go/no-go criteria

  /** 80, 70 or 60 percent of the targets, by impact. */
  function SuccessThreshold(impact: int): int
  {
    if impact >= 7 then 80 else if impact >= 4 then 70 else 60
  }

  /** The threshold is one of the three levels and never falls as impact rises. */
  lemma SuccessThresholdMonotone(a: int, b: int)
    requires a <= b
    ensures SuccessThreshold(a) in {60, 70, 80}
    ensures SuccessThreshold(a) <= SuccessThreshold(b)
  {
  }

  /** The criteria a card can list; the first carries the success threshold. */
  datatype Criterion =
    | CoreMetrics(threshold: int)
    | NoBlockers | PositiveRoi | StakeholderAlignment
    | RisksMitigated | DataPipelineValidated
  {
    function Text(): string
    {
      match this
      case CoreMetrics(t) => "Core metrics achieve " + IntToString(t) + "%+ of targets"
      case NoBlockers => "No critical technical blockers identified"
      case PositiveRoi => "Positive ROI projection with clear path to value"
      case StakeholderAlignment => "Stakeholder alignment and support confirmed"
      case RisksMitigated => "All high-risk items successfully mitigated or resolved"
      case DataPipelineValidated => "Data pipeline established and quality validated"
    }
  }

  const GoLead: string := "**GO Decision:** Achieve "
  const GoTail: string := "%+ of target metrics, demonstrate clear scalability path, positive cost-benefit analysis.\n\n"
  const PivotLead: string := "**PIVOT Decision:** Achieve "
  const PivotTail: string := "% of targets, issues identified but addressable with scope adjustments.\n\n"
  const NoGoLine: string := "**NO-GO Decision:** <50% of targets met, fundamental technical or business blockers, negative ROI projection."

  /** The decision narrative, fixed by the success threshold alone. */
  datatype Narrative = Narrative(threshold: int)
  {
    /** The three decision bands: GO at the threshold and above, PIVOT from 50 up to it,
        NO-GO below 50, with the template's surrounding blank lines trimmed. */
    function Text(): string
    {
      GoLead + IntToString(threshold) + GoTail + PivotLead + ("50-" + IntToString(threshold)) + PivotTail + NoGoLine
    }
  }

  datatype GoNoGo = GoNoGo(criteria: seq<Criterion>, threshold: Narrative)

  function Criteria(idea: Idea): seq<Criterion>
  {
    [CoreMetrics(SuccessThreshold(idea.impact)), NoBlockers, PositiveRoi, StakeholderAlignment]
    + (if idea.risk >= 7 then [RisksMitigated] else [])
    + (if idea.dataReadiness < 4 then [DataPipelineValidated] else [])
  }

  function GoNoGoOf(idea: Idea): GoNoGo
  {
    GoNoGo(Criteria(idea), Narrative(SuccessThreshold(idea.impact)))
  }

  /** `generateGoNoGoCriteria`: four fixed criteria, then the conditional ones, and the narrative. */
  method GenerateGoNoGoCriteria(idea: Idea) returns (goNoGo: GoNoGo)
    ensures goNoGo == GoNoGoOf(idea)
  {
    var criteria: seq<Criterion> := [];
    var successThreshold := SuccessThreshold(idea.impact);
    criteria := criteria + [CoreMetrics(successThreshold), NoBlockers, PositiveRoi, StakeholderAlignment];
    if idea.risk >= 7 {
      criteria := criteria + [RisksMitigated];
    }
    if idea.dataReadiness < 4 {
      criteria := criteria + [DataPipelineValidated];
    }
    goNoGo := GoNoGo(criteria, Narrative(successThreshold));
  }

  /** Four fixed criteria first, the first naming the threshold; the mitigation criterion
      exactly for risky ideas and the pipeline criterion exactly for poor data, in that
      order; four to six criteria in all. */
  lemma CriteriaShape(idea: Idea)
    ensures var c := Criteria(idea);
      && 4 <= |c| <= 6
      && |c| == 4 + (if idea.risk >= 7 then 1 else 0) + (if idea.dataReadiness < 4 then 1 else 0)
      && c[..4] == [CoreMetrics(SuccessThreshold(idea.impact)), NoBlockers, PositiveRoi, StakeholderAlignment]
      && (RisksMitigated in c <==> idea.risk >= 7)
      && (DataPipelineValidated in c <==> idea.dataReadiness < 4)
      && (idea.risk >= 7 ==> c[4] == RisksMitigated)
      && (idea.dataReadiness < 4 ==> c[|c| - 1] == DataPipelineValidated)
  {
    var c := Criteria(idea);
    assert c[..4] == [CoreMetrics(SuccessThreshold(idea.impact)), NoBlockers, PositiveRoi, StakeholderAlignment];
  }

  /** The first criterion and the narrative's PIVOT band both quote the threshold. */
  lemma ThresholdQuoted(threshold: int)
    ensures Contains(CoreMetrics(threshold).Text(), IntToString(threshold))
    ensures Contains(Narrative(threshold).Text(), "50-" + IntToString(threshold))
  {
    var ts := IntToString(threshold);
    ContainsInfix("Core metrics achieve ", ts, "%+ of targets");
    var a := GoLead + ts + GoTail + PivotLead;
    var b := PivotTail + NoGoLine;
    assert Narrative(threshold).Text() == a + ("50-" + ts) + b;
    ContainsInfix(a, "50-" + ts, b);
  }

  /** Effort, title and description play no part in the go/no-go section. */
  lemma GoNoGoIgnoresEffort(x: Idea, y: Idea)
    requires x.impact == y.impact && x.risk == y.risk && x.dataReadiness == y.dataReadiness
    ensures GoNoGoOf(x) == GoNoGoOf(y)
  {
  }

  /** The narrative depends on the success threshold alone: ideas in the same impact
      band get the same narrative, whatever their risk, data readiness or effort. */
  lemma NarrativeByThreshold(x: Idea, y: Idea)
    requires SuccessThreshold(x.impact) == SuccessThreshold(y.impact)
    ensures GoNoGoOf(x).threshold == GoNoGoOf(y).threshold
  {
  }

  // Agreement with the playbook matcher

  /** The card's qualifiers use the same bands as the tags the playbook matcher picks:
      the impact qualifier, the threshold and the metric count move together, the
      confidence qualifier follows the risk tag, and the dataset text the data tag. */
  lemma BandsAgree(idea: Idea)
    ensures ImpactLevel(idea.impact) == Significant
      <==> SuccessThreshold(idea.impact) == 80 && |Metrics(idea)| == 7
    ensures ImpactLevel(idea.impact) == Significant <==> PlaybookParser.HighImpact in PlaybookParser.RelevantTags(idea)
    ensures ImpactLevel(idea.impact) == Moderate <==> PlaybookParser.MediumImpact in PlaybookParser.RelevantTags(idea)
    ensures ConfidenceLevel(idea.risk) == High <==> PlaybookParser.RiskTag(idea.risk) == PlaybookParser.LowRisk
    ensures ConfidenceLevel(idea.risk) == ModerateConfidence <==> PlaybookParser.RiskTag(idea.risk) == PlaybookParser.MediumRisk
    ensures ConfidenceLevel(idea.risk) == Cautious <==> RisksMitigated in Criteria(idea)
    ensures DatasetLevel(idea.dataReadiness) == Ready <==> PlaybookParser.DataTag(idea.dataReadiness) == PlaybookParser.HighDataReadiness
    ensures DatasetLevel(idea.dataReadiness) == Limited <==> DataPipelineValidated in Criteria(idea)
  {
    PlaybookParser.RelevantTagsChoice(idea);
    MetricsShape(idea);
    CriteriaShape(idea);
  }

  // Cards

  /** The first five tips the playbook matcher returns for the idea. */
  function BestPractices(sections: seq<PlaybookSection>, idea: Idea): (bp: seq<string>)
    ensures var tips := PlaybookParser.RelevantPractices(sections, idea);
      && |bp| == (if |tips| <= 5 then |tips| else 5)
      && bp == tips[..|bp|]
  {
    var tips := PlaybookParser.RelevantPractices(sections, idea);
    if |tips| <= 5 then tips else tips[..5]
  }

  datatype ExperimentCard = ExperimentCard(
    ideaId: string,
    ideaTitle: string,
    problem: string,
    hypothesis: Hypothesis,
    dataset: DatasetTier,
    metrics: seq<SuccessMetric>,
    goNoGo: GoNoGo,
    bestPractices: seq<string>
  )

  /** The card `generateExperimentCard` returns, the playbook being given as its sections. */
  function CardOf(sections: seq<PlaybookSection>, idea: Idea): ExperimentCard
  {
    ExperimentCard(idea.id, idea.title, ProblemStatement(idea), HypothesisOf(idea),
                   DatasetLevel(idea.dataReadiness), Metrics(idea), GoNoGoOf(idea), BestPractices(sections, idea))
  }

  /** `generateExperimentCard`: the five sub-generators and the first five matched tips. */
  method GenerateExperimentCard(sections: seq<PlaybookSection>, idea: Idea) returns (card: ExperimentCard)
    ensures card == CardOf(sections, idea)
  {
    var problem := ProblemStatement(idea);
    var hypothesis := HypothesisOf(idea);
    var dataset := DatasetLevel(idea.dataReadiness);
    var metrics := GenerateMetrics(idea);
    var goNoGo := GenerateGoNoGoCriteria(idea);
    var practices := PlaybookParser.GetRelevantPractices(sections, idea);
    var bestPractices := if |practices| <= 5 then practices else practices[..5];
    card := ExperimentCard(idea.id, idea.title, problem, hypothesis, dataset, metrics, goNoGo, bestPractices);
  }

  /** A card names its idea, opens its problem with the description, and lists at most
      five best practices, all taken in order from the front of the matched tips. */
  lemma CardFields(sections: seq<PlaybookSection>, idea: Idea)
    ensures var card := CardOf(sections, idea);
      && card.ideaId == idea.id && card.ideaTitle == idea.title
      && StartsWith(card.problem, idea.description)
      && |card.bestPractices| <= 5
      && card.bestPractices <= PlaybookParser.RelevantPractices(sections, idea)
  {
    ProblemStatementShape(idea);
  }

  /** `generateExperimentCards`: one card per idea, in order. */
  function GenerateExperimentCards(sections: seq<PlaybookSection>, ideas: seq<Idea>): (cards: seq<ExperimentCard>)
    ensures |cards| == |ideas|
    ensures forall i :: 0 <= i < |ideas| ==> cards[i] == CardOf(sections, ideas[i])
    ensures forall i :: 0 <= i < |ideas| ==>
      cards[i].ideaId == ideas[i].id && cards[i].ideaTitle == ideas[i].title
  {
    seq(|ideas|, i requires 0 <= i < |ideas| => CardOf(sections, ideas[i]))
  }

  /** Generating cards for a concatenation generates each part's cards. */
  lemma GenerateExperimentCardsAppend(sections: seq<PlaybookSection>, a: seq<Idea>, b: seq<Idea>)
    ensures GenerateExperimentCards(sections, a + b)
         == GenerateExperimentCards(sections, a) + GenerateExperimentCards(sections, b)
  {
    var whole := GenerateExperimentCards(sections, a + b);
    var parts := GenerateExperimentCards(sections, a) + GenerateExperimentCards(sections, b);
    forall i | 0 <= i < |whole|
      ensures whole[i] == parts[i]
    {
      if i < |a| {
        assert (a + b)[i] == a[i];
      } else {
        assert (a + b)[i] == b[i - |a|];
      }
    }
  }
}
