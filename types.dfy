/**
 * The records shared by the ranking engine, the playbook parser and the
 * plan and experiment-card generators (src/types/index.ts).
 *
 * Dimensions are whole numbers; a score is an exact rational number of
 * tenths, which is what the ranking engine produces for whole dimensions.
 */
module Types {

  datatype Option<+T> = None | Some(value: T)

  /** A candidate proof-of-concept project. `score` and `rank` are absent until ranked. */
  datatype Idea = Idea(
    id: string,
    title: string,
    description: string,
    impact: int,         // 1-10, higher is better
    effort: int,         // 1-10, higher is worse
    risk: int,           // 1-10, higher is worse
    dataReadiness: int,  // 1-10, higher is better
    score: Option<real>,
    rank: Option<int>
  )

  /** The four dimensions all lie in [1, 10], as the validator demands before ranking. */
  predicate InRange(idea: Idea)
  {
    && 1 <= idea.impact <= 10
    && 1 <= idea.effort <= 10
    && 1 <= idea.risk <= 10
    && 1 <= idea.dataReadiness <= 10
  }

  /** `Math.max` and `Math.min` on integers. */
  function Max(a: int, b: int): int { if a >= b then a else b }
  function Min(a: int, b: int): int { if a <= b then a else b }

  /** Budget in whole currency units and the number of team members available. */
  datatype Constraints = Constraints(budget: int, teamSize: int)

  /** One sub-heading of the playbook with the tips listed under it. */
  datatype PlaybookSection = PlaybookSection(title: string, category: string, tips: seq<string>)
}
