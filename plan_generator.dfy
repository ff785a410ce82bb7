/**
 * The 30/60/90-day plan generator (src/lib/plan-generator.ts).
 *
 * Each task list is built by conditional appends; the tasks are tags whose
 * `Text` is the sentence the plan shows. The resource estimate is the
 * source's quotient evaluated exactly and rounded as `Math.round` rounds,
 * and is bounded by the budget.
 */
module PlanGenerator {
  import opened Types

  /** The tasks a plan can list. */
  datatype Task =
    // days 1-30
    | SetUpEnvironment | ValidateRequirements
    | InitiateDataCollection | EstablishDataQualityMetrics | BeginDataCleaning
    | AnalyzeExistingData | SetUpDataPipeline
    | FeasibilityStudy | PrototypeRiskiestParts | DocumentAssumptions
    | DesignArchitecture | DevelopPrototype | SetUpMonitoring | FirstCheckpoint
    // days 31-60
    | RefineCoreFeatures | ErrorHandling
    | LabelData | ValidateDataPipeline
    | Integrate | AutomateTests | OptimizePerformance | InternalTesting
    | BreakDownFeatures | AdvancedFeatures | FinishAndPolish
    | DocumentApi | MidProjectReview
    // days 61-90
    | FinalizeFeatures | FixCriticalBugs | WriteDocumentation | DeploymentPipeline
    | ScalingStrategy | BusinessDashboard
    | AcceptanceTesting | FinalPresentation | LessonsLearned
    | GoNoGoDecision | IfGoRoadmap | IfNoGoFindings
  {
    function Text(): string
    {
      match this
      case SetUpEnvironment => "Set up development environment and required tools"
      case ValidateRequirements => "Review and validate project requirements with stakeholders"
      case InitiateDataCollection => "Initiate data collection and acquisition process"
      case EstablishDataQualityMetrics => "Establish data quality metrics and validation criteria"
      case BeginDataCleaning => "Begin data cleaning and preparation pipeline"
      case AnalyzeExistingData => "Analyze existing datasets and validate data quality"
      case SetUpDataPipeline => "Set up data pipeline and preprocessing workflows"
      case FeasibilityStudy => "Conduct technical feasibility study and risk assessment"
      case PrototypeRiskiestParts => "Create proof-of-concept for highest-risk components"
      case DocumentAssumptions => "Document all technical assumptions and constraints"
      case DesignArchitecture => "Design system architecture and component structure"
      case DevelopPrototype => "Develop initial prototype/MVP with core functionality"
      case SetUpMonitoring => "Set up monitoring and logging infrastructure"
      case FirstCheckpoint => "Conduct first checkpoint review with stakeholders"
      case RefineCoreFeatures => "Refine and enhance core features based on initial feedback"
      case ErrorHandling => "Implement comprehensive error handling and validation"
      case LabelData => "Complete data labeling and annotation (if required)"
      case ValidateDataPipeline => "Validate data pipeline performance and accuracy"
      case Integrate => "Develop integration points with existing systems"
      case AutomateTests => "Create automated testing suite for core functionality"
      case OptimizePerformance => "Optimize performance and resource utilization"
      case InternalTesting => "Conduct internal testing and gather feedback"
      case BreakDownFeatures => "Break down remaining complex features into manageable tasks"
      case AdvancedFeatures => "Implement advanced features with proper documentation"
      case FinishAndPolish => "Implement remaining features and polish UI/UX"
      case DocumentApi => "Document API endpoints and integration guidelines"
      case MidProjectReview => "Conduct mid-project review and adjust timeline if needed"
      case FinalizeFeatures => "Finalize all features and conduct comprehensive testing"
      case FixCriticalBugs => "Address all critical bugs and performance issues"
      case WriteDocumentation => "Complete technical documentation and user guides"
      case DeploymentPipeline => "Set up production-ready deployment pipeline"
      case ScalingStrategy => "Develop scaling strategy and infrastructure plan"
      case BusinessDashboard => "Create monitoring dashboard for key business metrics"
      case AcceptanceTesting => "Conduct user acceptance testing with stakeholders"
      case FinalPresentation => "Prepare final presentation with results and metrics"
      case LessonsLearned => "Document lessons learned and best practices"
      case GoNoGoDecision => "Make Go/No-Go decision based on success criteria"
      case IfGoRoadmap => "If Go: Create detailed roadmap for production rollout"
      case IfNoGoFindings => "If No-Go: Document findings and recommendations for future initiatives"
    }
  }

  datatype Milestone = Milestone(day: int, title: string, description: string)

  /** The staffing and cost estimate; the cost is absent where the source computes NaN. */
  datatype Resources = Resources(team: int, estimatedCost: Option<int>)

  datatype Plan = Plan(
    ideaId: string,
    ideaTitle: string,
    days30: seq<Task>,
    days60: seq<Task>,
    days90: seq<Task>,
    resources: Resources,
    milestones: seq<Milestone>
  )

  // Task lists

  const Days30Closing: seq<Task> := [DesignArchitecture, DevelopPrototype, SetUpMonitoring, FirstCheckpoint]
  const Days90Closing: seq<Task> :=
    [AcceptanceTesting, FinalPresentation, LessonsLearned, GoNoGoDecision, IfGoRoadmap, IfNoGoFindings]

  /** Days 1-30: setup, data work chosen by data readiness, risk work for risky ideas, prototype. */
  function Days30(idea: Idea): seq<Task>
  {
    [SetUpEnvironment, ValidateRequirements]
    + (if idea.dataReadiness < 4 then [InitiateDataCollection, EstablishDataQualityMetrics, BeginDataCleaning]
       else [AnalyzeExistingData, SetUpDataPipeline])
    + (if idea.risk >= 7 then [FeasibilityStudy, PrototypeRiskiestParts, DocumentAssumptions] else [])
    + Days30Closing
  }

  /** Days 31-60: refinement, pipeline work for poor data, integration, and the
      feature work split in two for high-effort ideas. */
  function Days60(idea: Idea): seq<Task>
  {
    [RefineCoreFeatures, ErrorHandling]
    + (if idea.dataReadiness < 4 then [LabelData, ValidateDataPipeline] else [])
    + [Integrate, AutomateTests, OptimizePerformance, InternalTesting]
    + (if idea.effort >= 7 then [BreakDownFeatures, AdvancedFeatures] else [FinishAndPolish])
    + [DocumentApi, MidProjectReview]
  }

  /** Days 61-90: hardening, scaling work for high-impact ideas, and the decision. */
  function Days90(idea: Idea): seq<Task>
  {
    [FinalizeFeatures, FixCriticalBugs, WriteDocumentation, DeploymentPipeline]
    + (if idea.impact >= 7 then [ScalingStrategy, BusinessDashboard] else [])
    + Days90Closing
  }

  /** The first month opens with setup, closes with the prototype checkpoint, has
      8, 9, 11 or 12 tasks, and holds the data-acquisition tasks exactly for poor
      data and the feasibility tasks exactly for risky ideas. */
  lemma Days30Shape(idea: Idea)
    ensures var d := Days30(idea);
      && |d| == 2 + (if idea.dataReadiness < 4 then 3 else 2) + (if idea.risk >= 7 then 3 else 0) + 4
      && |d| in {8, 9, 11, 12}
      && d[..2] == [SetUpEnvironment, ValidateRequirements]
      && d[|d| - 4..] == Days30Closing
      && (InitiateDataCollection in d <==> idea.dataReadiness < 4)
      && (AnalyzeExistingData in d <==> idea.dataReadiness >= 4)
      && (FeasibilityStudy in d <==> idea.risk >= 7)
  {
    var d := Days30(idea);
    assert d[|d| - 4..] == Days30Closing;
  }

  /** The second month gains the two pipeline tasks exactly for poor data, has the
      two-task breakdown in place of the polish task exactly for high effort, and
      has between 9 and 12 tasks. */
  lemma Days60Shape(idea: Idea)
    ensures var d := Days60(idea);
      && |d| == 8 + (if idea.dataReadiness < 4 then 2 else 0) + (if idea.effort >= 7 then 2 else 1)
      && 9 <= |d| <= 12
      && (LabelData in d <==> idea.dataReadiness < 4)
      && (ValidateDataPipeline in d <==> idea.dataReadiness < 4)
      && (BreakDownFeatures in d <==> idea.effort >= 7)
      && (AdvancedFeatures in d <==> idea.effort >= 7)
      && (FinishAndPolish in d <==> idea.effort < 7)
  {
  }

  /** The third month has the scaling tasks exactly for high impact and always ends
      with the Go/No-Go decision and its two outcomes. */
  lemma Days90Shape(idea: Idea)
    ensures var d := Days90(idea);
      && |d| == (if idea.impact >= 7 then 12 else 10)
      && d[|d| - 3..] == [GoNoGoDecision, IfGoRoadmap, IfNoGoFindings]
      && (ScalingStrategy in d <==> idea.impact >= 7)
      && (BusinessDashboard in d <==> idea.impact >= 7)
  {
    var d := Days90(idea);
    assert d[|d| - 6..] == Days90Closing;
  }

  // Resources

  /** `Math.min(teamSize, effort >= 7 ? 5 : 3)`. */
  function Team(teamSize: int, effort: int): (team: int)
    ensures team <= teamSize && team <= 5
    ensures effort < 7 ==> team <= 3
    ensures team == teamSize || team == (if effort >= 7 then 5 else 3)
  {
    Min(teamSize, if effort >= 7 then 5 else 3)
  }

  /** `Math.round(n / d)` for the exact quotient: the integer nearest to n / d, halves rounded up. */
  function RoundDiv(n: int, d: int): (r: int)
    requires d != 0
    ensures d > 0 ==> 2 * d * r <= 2 * n + d < 2 * d * (r + 1)
    ensures d < 0 ==> 2 * d * (r + 1) < 2 * n + d <= 2 * d * r
    decreases if d > 0 then 0 else 1
  {
    if d > 0 then
      DivisionBounds(2 * n + d, 2 * d);
      (2 * n + d) / (2 * d)
    else
      var r := RoundDiv(-n, -d);
      Negate(d, r);
      Negate(d, r + 1);
      r
  }

  lemma DivisionBounds(m: int, k: int)
    requires k > 0
    ensures k * (m / k) <= m < k * (m / k + 1)
  {
    assert m == k * (m / k) + m % k;
    assert k * (m / k + 1) == k * (m / k) + k;
  }

  lemma Negate(d: int, r: int)
    ensures 2 * (-d) * r == -(2 * d * r)
  {
  }

  lemma MulMonotone(a: int, b: int, c: int)
    requires 0 <= c && a <= b
    ensures a * c <= b * c
  {
  }

  lemma MulCancel(k: int, a: int, b: int)
    requires k > 0 && k * a < k * b
    ensures a < b
  {
  }

  /** `Math.round(budget * (effort / 10) * team / teamSize)`, evaluated exactly:
      the nearest integer to budget * effort * team / (10 * teamSize). With no
      team members the source divides zero by zero and gets NaN, here None. */
  function EstimatedCost(c: Constraints, effort: int): Option<int>
  {
    if c.teamSize == 0 then None
    else Some(RoundDiv(c.budget * effort * Team(c.teamSize, effort), 10 * c.teamSize))
  }

  /** With a team, a non-negative budget and effort at most 10, the estimate lies within the budget. */
  lemma CostWithinBudget(c: Constraints, effort: int)
    requires c.teamSize >= 1 && c.budget >= 0 && 0 <= effort <= 10
    ensures EstimatedCost(c, effort).Some?
    ensures 0 <= EstimatedCost(c, effort).value <= c.budget
  {
    var t := Team(c.teamSize, effort);
    ProductBound(c.budget, effort, t, c.teamSize);
    RoundWithin(c.budget * effort * t, 10 * c.teamSize, c.budget);
  }

  lemma ProductBound(b: int, e: int, t: int, size: int)
    requires b >= 0 && 0 <= e <= 10 && 0 <= t <= size
    ensures 0 <= b * e * t <= b * (10 * size)
  {
    MulMonotone(0, e, b);
    MulMonotone(e, 10, b);
    MulMonotone(0, b * e, t);
    MulMonotone(b * e, b * 10, t);
    MulMonotone(t, size, b * 10);
    assert b * 10 * size == b * (10 * size);
  }

  lemma RoundWithin(n: int, d: int, b: int)
    requires d > 0 && 0 <= n <= b * d
    ensures 0 <= RoundDiv(n, d) <= b
  {
    var r := RoundDiv(n, d);
    assert 2 * n + d <= 2 * d * b + d < 2 * d * (b + 1);
    MulCancel(2 * d, r, b + 1);
    MulCancel(2 * d, 0, r + 1);
  }

  /** A budget of 50000, three people and effort 8 staff all three and cost 40000. */
  lemma CostExample()
    ensures Team(3, 8) == 3
    ensures EstimatedCost(Constraints(50000, 3), 8) == Some(40000)
  {
  }

  // Milestones

  const Milestones: seq<Milestone> := [
    Milestone(10, "Environment & Data Setup", "Development environment ready, initial data pipeline established"),
    Milestone(30, "MVP Checkpoint", "Core prototype completed, technical feasibility validated"),
    Milestone(60, "Feature Complete", "All planned features implemented, integration testing done"),
    Milestone(90, "Go/No-Go Decision", "Final review completed, decision made on production rollout")
  ]

  /** Four milestones, at days 10, 30, 60 and 90, in increasing order. */
  lemma MilestonesShape()
    ensures |Milestones| == 4
    ensures Milestones[0].day == 10 && Milestones[1].day == 30
    ensures Milestones[2].day == 60 && Milestones[3].day == 90
    ensures forall j, k :: 0 <= j < k < |Milestones| ==> Milestones[j].day < Milestones[k].day
  {
  }

  // Plans

  /** The plan `generatePlan` returns for an idea under the given constraints. */
  function PlanOf(idea: Idea, c: Constraints): Plan
  {
    Plan(idea.id, idea.title, Days30(idea), Days60(idea), Days90(idea),
         Resources(Team(c.teamSize, idea.effort), EstimatedCost(c, idea.effort)), Milestones)
  }

  /** `generatePlan`: the three lists built by appends, the estimate and the milestones. */
  method GeneratePlan(idea: Idea, c: Constraints) returns (plan: Plan)
    ensures plan == PlanOf(idea, c)
  {
    var isHighEffort := idea.effort >= 7;
    var isHighRisk := idea.risk >= 7;
    var lowDataReadiness := idea.dataReadiness < 4;

    var days30 := [SetUpEnvironment, ValidateRequirements];
    if lowDataReadiness {
      days30 := days30 + [InitiateDataCollection, EstablishDataQualityMetrics, BeginDataCleaning];
    } else {
      days30 := days30 + [AnalyzeExistingData, SetUpDataPipeline];
    }
    if isHighRisk {
      days30 := days30 + [FeasibilityStudy, PrototypeRiskiestParts, DocumentAssumptions];
    }
    days30 := days30 + [DesignArchitecture, DevelopPrototype, SetUpMonitoring, FirstCheckpoint];
    assert days30 == Days30(idea);

    var days60 := [RefineCoreFeatures, ErrorHandling];
    if lowDataReadiness {
      days60 := days60 + [LabelData, ValidateDataPipeline];
    }
    days60 := days60 + [Integrate, AutomateTests, OptimizePerformance, InternalTesting];
    if isHighEffort {
      days60 := days60 + [BreakDownFeatures, AdvancedFeatures];
    } else {
      days60 := days60 + [FinishAndPolish];
    }
    days60 := days60 + [DocumentApi, MidProjectReview];
    assert days60 == Days60(idea);

    var days90 := [FinalizeFeatures, FixCriticalBugs, WriteDocumentation, DeploymentPipeline];
    if idea.impact >= 7 {
      days90 := days90 + [ScalingStrategy, BusinessDashboard];
    }
    days90 := days90 + [AcceptanceTesting, FinalPresentation, LessonsLearned,
                        GoNoGoDecision, IfGoRoadmap, IfNoGoFindings];
    assert days90 == Days90(idea);

    var baseTeamSize := Min(c.teamSize, if idea.effort >= 7 then 5 else 3);
    var estimatedCost: Option<int>;
    if c.teamSize == 0 {
      estimatedCost := None;
    } else {
      estimatedCost := Some(RoundDiv(c.budget * idea.effort * baseTeamSize, 10 * c.teamSize));
    }

    plan := Plan(idea.id, idea.title, days30, days60, days90,
                 Resources(baseTeamSize, estimatedCost), Milestones);
  }

  /** `generatePlans`: one plan per idea, in order, each naming its idea. */
  function GeneratePlans(ideas: seq<Idea>, c: Constraints): (plans: seq<Plan>)
    ensures |plans| == |ideas|
    ensures forall i :: 0 <= i < |ideas| ==> plans[i] == PlanOf(ideas[i], c)
    ensures forall i :: 0 <= i < |ideas| ==>
      plans[i].ideaId == ideas[i].id && plans[i].ideaTitle == ideas[i].title
  {
    seq(|ideas|, i requires 0 <= i < |ideas| => PlanOf(ideas[i], c))
  }

  /** Planning a concatenation plans each part. */
  lemma GeneratePlansAppend(a: seq<Idea>, b: seq<Idea>, c: Constraints)
    ensures GeneratePlans(a + b, c) == GeneratePlans(a, c) + GeneratePlans(b, c)
  {
    assert forall i :: 0 <= i < |a + b| ==>
      GeneratePlans(a + b, c)[i] == (GeneratePlans(a, c) + GeneratePlans(b, c))[i];
  }
}
