# Idea ranking, playbook and planning engine

A Dafny model of the deterministic engine behind a tool that triages
proof-of-concept ideas. Each idea has four whole-number dimensions: impact,
effort, risk and data readiness.

- **Ranking engine.** It scores every idea with fixed weights on a 0–100 scale
  and sorts the batch stably by descending score. It numbers the ideas 1..N and
  takes the top picks: ⌈N/5⌉ of the N ideas, at least three, and never more than N. It also
  places an idea in an impact/effort quadrant and validates a partially filled
  idea record, reporting every broken rule.
- **Playbook parser and tip matcher.** The parser reads a markdown playbook line
  by line. `## ` lines open a category, `### ` lines open a section, and `- ` or
  `* ` bullets add tips. The matcher maps an idea's thresholds to section-title
  tags and gathers the tips of the matching sections. It then adds up to three
  tips from the "Common Pitfalls to Avoid" category. A lookup filters sections
  by case-insensitive category and title infixes.
- **Plan generator.** It builds the 30/60/90-day task lists by appends that
  depend on thresholds. It adds a team size and cost estimate and four fixed
  milestones.
- **Experiment-card generator.** It assembles a problem statement, a hypothesis,
  a dataset description, success metrics and go/no-go criteria with a decision
  narrative. The card also lists the first five matched tips.

Modules:

| module | file | models |
|---|---|---|
| `Types` | `types.dfy` | the shared records (`src/types/index.ts`) , the helpers `Min` and `Max`, and the dimension-range predicate `InRange` |
| `Text` | `text.dfy` | the JavaScript built-ins the engine uses: `trim`, `toLowerCase`, `includes`, `startsWith`, `replace`, and decimal rendering of integers |
| `RankingEngine` | `ranking_engine.dfy` | `src/lib/ranking-engine.ts` |
| `PlaybookParser` | `playbook_parser.dfy` | `src/lib/playbook-parser.ts` |
| `PlanGenerator` | `plan_generator.dfy` | `src/lib/plan-generator.ts` |
| `ExperimentCardGenerator` | `experiment_card_generator.dfy` | `src/lib/experiment-card-generator.ts` |

Where the source builds something step by step, the model is a method proved
equal to a specification function:

- `rankIdeas` is an in-place insertion sort on an array.
- `parsePlaybook` is a loop over the lines.
- The matcher is a loop over the sections.
- The plan, metric, criterion and error lists are built by appends.

The properties are then proved about those specification functions.

## Model

| member | source | states |
|---|---|---|
| RankingEngine.CalculateScore | src/lib/ranking-engine.ts:26-37 | The default-weight score, normalised and rounded to one decimal in exact arithmetic, is exactly round((4·impact − 3·effort − 2·risk + dataReadiness + 45)·100/9) tenths. |
| RankingEngine.ScoreInRange | src/lib/ranking-engine.ts:26-37 | With every dimension in [1, 10], the score lies in [0, 100]. |
| RankingEngine.ScoreExtremes | src/lib/ranking-engine.ts:33-35 | (impact 1, effort 10, risk 10, data readiness 1) scores 0.0. (10, 1, 1, 10) scores 100.0. |
| RankingEngine.ScoreMonotone | src/lib/ranking-engine.ts:26-30 | Raising impact or data readiness never lowers the score. Raising effort or risk never raises it. |
| RankingEngine.ScoredIdeas | src/lib/ranking-engine.ts:52-55 | One entry per idea, in order. Each entry carries the idea's score and is otherwise the idea unchanged. |
| RankingEngine.SortByScorePermutes | src/lib/ranking-engine.ts:58 | The sorted list is a permutation (same multiset) of its input. |
| RankingEngine.SortByScoreSorted | src/lib/ranking-engine.ts:58 | The sorted list is non-increasing by `score ?? 0`. |
| RankingEngine.SortByScoreStable | src/lib/ranking-engine.ts:58 | For every score value, the ideas with that score appear in the sorted list in their input order (a stable sort). |
| RankingEngine.InsertInPlace | src/lib/ranking-engine.ts:58 | One insertion pass over the array: the prefix up to `i` becomes the stable insertion of `a[i]` into the sorted prefix, and the rest of the array is unchanged. |
| RankingEngine.SortInPlace | src/lib/ranking-engine.ts:58 | The in-place array sort leaves exactly the functional stable descending sort of the old contents. |
| RankingEngine.SortedCopy | src/lib/ranking-engine.ts:58 | Sorting the scored list in a fresh array yields the functional sort of it. |
| RankingEngine.WithRanks | src/lib/ranking-engine.ts:61-64 | Same length. Entry k is the k-th idea with rank k + 1, so the ranks are exactly 1..N with no gaps or duplicates. |
| RankingEngine.WithRanksSorted | src/lib/ranking-engine.ts:61-64 | Numbering keeps the list ordered by score. |
| RankingEngine.RankedFromInput | src/lib/ranking-engine.ts:52-64 | Every ranked entry is some input idea, with its score added and its position as rank. Id, title, description and the dimensions are unchanged. |
| RankingEngine.InputRanked | src/lib/ranking-engine.ts:52-64 | Every input idea appears in the ranked list, scored, at the position its rank names. |
| RankingEngine.CeilFifth | src/lib/ranking-engine.ts:67 | ceil(N·0.2) equals (N + 4) div 5 for every N ≥ 0. |
| RankingEngine.RankIdeas | src/lib/ranking-engine.ts:47-75 | The ideas are the ranked list: N entries, non-increasing by score, entry k ranked k + 1. The top picks are its first min(N, max(3, ⌈N/5⌉)) entries. |
| RankingEngine.TopPicksExamples | src/lib/ranking-engine.ts:67-68 | One idea gives one pick, fifteen give three, twenty give four. |
| RankingEngine.GetQuadrant | src/lib/ranking-engine.ts:83-91 | Quick Wins iff impact ≥ 6 and effort ≤ 5. Major Projects iff impact ≥ 6 and effort > 5. Fill-Ins iff impact < 6 and effort ≤ 5. Time Sinks iff impact < 6 and effort > 5. |
| RankingEngine.ViolationsUnrolled | src/lib/ranking-engine.ts:102-119 | The messages are the violated rules in the order title, description, Impact, Effort, Risk, Data Readiness. |
| RankingEngine.ViolationsExact | src/lib/ranking-engine.ts:99-125 | Each rule is reported exactly once when violated and never otherwise. |
| RankingEngine.ViolationsEmpty | src/lib/ranking-engine.ts:121-124 | There are no messages exactly when no rule is violated. |
| RankingEngine.ValidateMetric | src/lib/ranking-engine.ts:110-114 | Appends the metric's message iff the value is missing, below 1 or above 10. |
| RankingEngine.ValidateIdea | src/lib/ranking-engine.ts:99-125 | The errors are exactly the violated rules, in rule order. `valid` holds iff there are no errors, iff no rule is violated. |
| RankingEngine.MissingTitleAndImpactTooHigh | src/lib/ranking-engine.ts:102-116 | A missing title with impact 11, everything else valid, yields exactly the title and Impact messages. |
| Text.TrimSpec | src/lib/ranking-engine.ts:102 | `trim` yields the infix of the string that neither starts nor ends with whitespace. Everything dropped before and after that infix is whitespace. The result is empty iff the string is all whitespace. |
| Text.TrimIdempotent | src/lib/playbook-parser.ts:53 | Trimming a trimmed string changes nothing. |
| Text.ReplaceAtStart | src/lib/playbook-parser.ts:33 | `replace` with a string pattern the line starts with removes exactly that leading occurrence. |
| Text.ToLowerSpec | src/lib/playbook-parser.ts:144 | Each character is lower-cased on its own. |
| Text.ToLowerIdempotent | src/lib/playbook-parser.ts:144-145 | Lower-casing twice is lower-casing once. |
| PlaybookParser.Emit | src/lib/playbook-parser.ts:25-31 | A section is saved iff it has a title and at least one tip. What is saved is that title, category and tips. |
| PlaybookParser.SaveSection | src/lib/playbook-parser.ts:25-31 | The save appends exactly the section `Emit` keeps. |
| PlaybookParser.ClassifyLine | src/lib/playbook-parser.ts:23-53 | The loop's tests and `replace` calls classify a line as the reference definition does. `replace` removes the first occurrence of the `## ` or `### ` marker, or the `^[-*] ` pattern, and the rest is trimmed; the reference slices the marker off at the start. |
| PlaybookParser.StartAccounts | src/lib/playbook-parser.ts:14-19 | The initial empty state accounts for the whole document. |
| PlaybookParser.CategoryStep | src/lib/playbook-parser.ts:23-36 | A `## ` line saves the open section, sets the category and clears the section and tips; the account of the document is preserved. |
| PlaybookParser.SectionStep | src/lib/playbook-parser.ts:38-50 | A `### ` line saves the open section and opens a new one with no tips; the account of the document is preserved. |
| PlaybookParser.PlainStep | src/lib/playbook-parser.ts:52-57 | A bullet adds its non-empty trimmed tip and any other line changes nothing; the account of the document is preserved. |
| PlaybookParser.FinishAccounts | src/lib/playbook-parser.ts:60-69 | After the last line, the final save completes the document's sections. |
| PlaybookParser.ParsePlaybook | src/lib/playbook-parser.ts:14-69 | The loop returns the reference sections: each `### ` line with the category in effect and the tips up to the next heading. |
| PlaybookParser.ClassifyTrimmed | src/lib/playbook-parser.ts:33-53 | Category names, section titles and tips are trimmed. |
| PlaybookParser.ClassifiedTrimmed | src/lib/playbook-parser.ts:21-57 | Every classified line of a document carries trimmed text. |
| PlaybookParser.BulletTipsMembers | src/lib/playbook-parser.ts:52-56 | A tip is collected iff some bullet line in the range carries it and it is non-empty after trimming. |
| PlaybookParser.BulletTipsTrimmed | src/lib/playbook-parser.ts:52-56 | Collected tips are non-empty and trimmed. |
| PlaybookParser.SectionsWellFormed | src/lib/playbook-parser.ts:25-67 | Every section produced has a non-empty trimmed title and at least one tip, each non-empty and trimmed. |
| PlaybookParser.ParsedWellFormed | src/lib/playbook-parser.ts:10-70 | Every section of a parsed document is well formed in that sense. |
| PlaybookParser.SectionsFromLines | src/lib/playbook-parser.ts:21-67 | The block-based definition equals the line-by-line account. In that account a section's category is the name of the latest `## ` line before it. |
| PlaybookParser.ParsedSections | src/lib/playbook-parser.ts:10-70 | The parsed sections are the `### ` lines' sections in document order. Each has the latest preceding category (or "") and the tips up to the next heading. Bullets not under a `### ` line yield nothing. |
| PlaybookParser.RelevantTagsChoice | src/lib/playbook-parser.ts:86-115 | Exactly one risk tag (≥ 7 / ≥ 4 / else) and one data tag (< 4 / ≥ 7 / else). An impact tag iff impact ≥ 4, with High iff ≥ 7. One effort tag (≥ 7 / else). Four tags, or three below impact 4. |
| PlaybookParser.MatchedTipsMembers | src/lib/playbook-parser.ts:118-122 | A tip is gathered iff some section whose title equals a selected tag's title exactly lists it. |
| PlaybookParser.MatchedTipsAppend | src/lib/playbook-parser.ts:118-122 | Gathering follows section order and keeps duplicates: each section contributes all its tips in place, or nothing. |
| PlaybookParser.FirstWithCategory | src/lib/playbook-parser.ts:125 | `find` returns the first section with exactly that category, or none when there is no such section. |
| PlaybookParser.Pitfalls | src/lib/playbook-parser.ts:125-128 | The first min(3, \|tips\|) tips of the first "Common Pitfalls to Avoid" section, or nothing if there is none. |
| PlaybookParser.GetRelevantPractices | src/lib/playbook-parser.ts:78-131 | The pushes build the tags and the section loop gathers the matched tips. The result is the matched tips followed by the pitfalls. |
| PlaybookParser.GetPlaybookSectionMembers | src/lib/playbook-parser.ts:140-147 | A section is returned iff it is in the input and contains the category, and the title if one is given, as lower-cased infixes. No section is returned more often than it occurs in the input. |
| PlaybookParser.GetPlaybookSectionAppend | src/lib/playbook-parser.ts:143-147 | The filter keeps input order: it distributes over concatenation. |
| PlaybookParser.CategoryCaseInsensitive | src/lib/playbook-parser.ts:144 | The lookup gives the same answer for a category and its lower-cased form. |
| PlanGenerator.Days30Shape | src/lib/plan-generator.ts:9-40 | 2 setup tasks. Then 3 acquisition tasks if data readiness < 4, else 2 analysis tasks. Then 3 feasibility tasks iff risk ≥ 7. Then 4 closing tasks. Length 8, 9, 11 or 12. |
| PlanGenerator.Days60Shape | src/lib/plan-generator.ts:43-74 | Gains the two pipeline tasks iff data readiness < 4. Has the two breakdown tasks in place of the polish task iff effort ≥ 7. Length 9 to 12. |
| PlanGenerator.Days90Shape | src/lib/plan-generator.ts:77-98 | 10 tasks, or 12 with the scaling and dashboard tasks iff impact ≥ 7. Ends with Go/No-Go, If Go, If No-Go. |
| PlanGenerator.Team | src/lib/plan-generator.ts:101 | The team is at most the team size and at most 5, at most 3 below effort 7, and one of the two candidates. |
| PlanGenerator.RoundDiv | src/lib/plan-generator.ts:103 | `Math.round` of an exact quotient: the integer nearest to n/d, halves rounded up, for either sign of d. |
| PlanGenerator.CostWithinBudget | src/lib/plan-generator.ts:101-103 | With team size ≥ 1, budget ≥ 0 and effort ≤ 10, the estimate exists and lies in [0, budget]. |
| PlanGenerator.CostExample | src/lib/plan-generator.ts:101-103 | Budget 50000, team size 3 and effort 8 give team 3 and cost 40000. |
| PlanGenerator.MilestonesShape | src/lib/plan-generator.ts:106-127 | Exactly four milestones, at days 10, 30, 60 and 90, strictly increasing. |
| PlanGenerator.GeneratePlan | src/lib/plan-generator.ts:3-141 | The three lists built by appends, the team, the estimate and the milestones are the reference plan for the idea. |
| PlanGenerator.GeneratePlans | src/lib/plan-generator.ts:143-145 | One plan per idea, in order. Plan i is the plan of idea i and copies its id and title. |
| PlanGenerator.GeneratePlansAppend | src/lib/plan-generator.ts:143-145 | Planning a concatenation plans each part, so order is kept. |
| ExperimentCardGenerator.ProblemStatementShape | src/lib/experiment-card-generator.ts:44-46 | The problem statement begins with the description and quotes the impact level. |
| ExperimentCardGenerator.HypothesisBands | src/lib/experiment-card-generator.ts:51-56 | The hypothesis quotes the idea's title, risk and data readiness. Its impact qualifier is significant iff impact ≥ 7, moderate iff 4 ≤ impact < 7, measurable iff impact < 4. Its confidence is high iff risk ≤ 3, moderate iff 3 < risk ≤ 6, cautious iff risk > 6. |
| ExperimentCardGenerator.DatasetBands | src/lib/experiment-card-generator.ts:61-69 | The dataset text is the ready one iff data readiness ≥ 7, the partial one iff 4 ≤ data readiness < 7, and the limited one iff data readiness < 4. |
| ExperimentCardGenerator.GenerateMetrics | src/lib/experiment-card-generator.ts:74-99 | The appends build the reference metric list. |
| ExperimentCardGenerator.MetricsShape | src/lib/experiment-card-generator.ts:74-99 | The 3 technical metrics come first and resource utilisation last, with business metrics between. 7 metrics iff impact ≥ 7, else 6. No metric is repeated. |
| ExperimentCardGenerator.SuccessThresholdMonotone | src/lib/experiment-card-generator.ts:111 | The threshold is 60, 70 or 80 and never falls as impact rises. |
| ExperimentCardGenerator.GenerateGoNoGoCriteria | src/lib/experiment-card-generator.ts:104-140 | The appends build the reference criteria and the narrative for the idea's threshold. |
| ExperimentCardGenerator.CriteriaShape | src/lib/experiment-card-generator.ts:113-126 | Four fixed criteria first, the first with the threshold. Then the mitigation criterion iff risk ≥ 7 and the pipeline criterion iff data readiness < 4, in that order. 4 to 6 in all. |
| ExperimentCardGenerator.ThresholdQuoted | src/lib/experiment-card-generator.ts:113-134 | The first criterion quotes the threshold, and the narrative's PIVOT band reads `50-` followed by the threshold. |
| ExperimentCardGenerator.GoNoGoIgnoresEffort | src/lib/experiment-card-generator.ts:104-140 | Ideas agreeing on impact, risk and data readiness get the same criteria and narrative, whatever their effort, title and description. |
| ExperimentCardGenerator.NarrativeByThreshold | src/lib/experiment-card-generator.ts:128-134 | Ideas with the same success threshold get the same narrative, whatever their other dimensions. |
| ExperimentCardGenerator.BandsAgree | src/lib/experiment-card-generator.ts:52-126 | Significant impact goes with threshold 80, with seven metrics and with the High Impact tag. Moderate impact goes with Medium Impact. The confidence qualifier follows the risk tag and the mitigation criterion. The dataset text follows the data tag and the pipeline criterion. |
| ExperimentCardGenerator.BestPractices | src/lib/experiment-card-generator.ts:27 | The prefix of min(5, \|tips\|) entries of the matched tips. |
| ExperimentCardGenerator.GenerateExperimentCard | src/lib/experiment-card-generator.ts:10-39 | The card built from the five sub-generators and the first five tips is the reference card. |
| ExperimentCardGenerator.CardFields | src/lib/experiment-card-generator.ts:27-46 | A card copies the idea's id and title, and its problem begins with the description. It lists at most five best practices, taken from the front of the matched tips. |
| ExperimentCardGenerator.GenerateExperimentCards | src/lib/experiment-card-generator.ts:148-150 | One card per idea, in order. Card i is idea i's card and copies its id and title. |
| ExperimentCardGenerator.GenerateExperimentCardsAppend | src/lib/experiment-card-generator.ts:148-150 | Generating cards for a concatenation generates each part's cards. |

## Left out

- The playbook file read (`src/lib/playbook-parser.ts:11-12`) is not modelled. `ParsePlaybook` takes the document as a sequence of lines, that is, the result of `content.split('\n')`. `GetRelevantPractices`, `GetPlaybookSection` and the card generator take the parsed sections as a parameter.
- The `timestamp` of a ranking result (`src/lib/ranking-engine.ts:73`) is a wall-clock reading and is not modelled.
- Custom ranking weights are not modelled; only the defaults are. The normalisation bounds are written for the defaults, so the range property would not hold for other weights.
- Floating point is not modelled. Dimensions, budgets and team sizes are integers, and the score and cost are computed exactly. For integer dimensions the default-weight score is never near a rounding boundary, so the exact value is what the source rounds to. Non-integer dimensions, NaN and infinities are out of scope.
- PlanGenerator.EstimatedCost: the cost is `Math.round` of the exact quotient budget·effort·team / (10·team size). The source multiplies by the double `effort / 10`, so it could round differently when the exact quotient is a half-integer and the floating-point product lands just below it. With team size 0 the source divides 0 by 0 and gets NaN, which is modelled as no estimate (`None`).
- Text.ToLowerSpec: `toLowerCase` is modelled on the ASCII letters only. Other characters, including non-ASCII capitals, are kept as they are.
- Text.IntToString: only renders the integers the templates interpolate. Number formatting of non-integers is not modelled.
- Task, metric, criterion, hypothesis, dataset and narrative texts are datatypes. So are the validation messages (`ValidationError`), the quadrant labels (`Quadrant`) and the section-title tags (`Tag`). Each has a `Text` function returning the source's wording. The properties are stated on the datatypes, not on the sentences.
- The go/no-go narrative is modelled as the template after `.trim()` (`src/lib/experiment-card-generator.ts:128-134`). The surrounding blank lines and indentation are already removed.
- Behaviours of the code a reader might not expect, which the model follows as written:
  - Tips are matched by exact title equality (`relevantSections.includes(section.title)`).
  - Tips are returned as the playbook's text, with nothing prepended.
  - The go/no-go criteria are the four fixed criteria, plus one for risk ≥ 7 and one for data readiness < 4; none depends on effort.
  - The PIVOT band reads `50-` followed by the threshold.
- The React components, HTTP route handlers, fetch client and error-handling utilities are not part of this model.
