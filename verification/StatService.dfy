/** Aggregate user statistics: stat.service.ts. */
module StatService {
  import opened Basics

  datatype Scores = Scores(
    mutualRespect: real,
    conflictManagement: real,
    logicalProblem: real,
    reviewGuiding: real,
    documentation: real,
    knowledgeSharing: real,
    technicalInfluence: real,
    codeStability: real)

  datatype UserStat = UserStat(scores: Scores, analysisCount: nat)

  const WEIGHT_OLD := 0.7
  const WEIGHT_NEW := 0.3

  function Blend(existing: real, latest: real): real {
    existing * WEIGHT_OLD + latest * WEIGHT_NEW
  }

  function BlendScores(existing: Scores, latest: Scores): Scores {
    Scores(
      Blend(existing.mutualRespect, latest.mutualRespect),
      Blend(existing.conflictManagement, latest.conflictManagement),
      Blend(existing.logicalProblem, latest.logicalProblem),
      Blend(existing.reviewGuiding, latest.reviewGuiding),
      Blend(existing.documentation, latest.documentation),
      Blend(existing.knowledgeSharing, latest.knowledgeSharing),
      Blend(existing.technicalInfluence, latest.technicalInfluence),
      Blend(existing.codeStability, latest.codeStability))
  }

  function UpdatedStat(existing: Option<UserStat>, latest: Scores): UserStat {
    match existing
    case None => UserStat(latest, 1)
    case Some(stat) => UserStat(BlendScores(stat.scores, latest), stat.analysisCount + 1)
  }

  function CountOf(stat: Option<UserStat>): nat {
    match stat
    case None => 0
    case Some(s) => s.analysisCount
  }

  predicate Between(low: Scores, s: Scores, high: Scores) {
    && low.mutualRespect <= s.mutualRespect <= high.mutualRespect
    && low.conflictManagement <= s.conflictManagement <= high.conflictManagement
    && low.logicalProblem <= s.logicalProblem <= high.logicalProblem
    && low.reviewGuiding <= s.reviewGuiding <= high.reviewGuiding
    && low.documentation <= s.documentation <= high.documentation
    && low.knowledgeSharing <= s.knowledgeSharing <= high.knowledgeSharing
    && low.technicalInfluence <= s.technicalInfluence <= high.technicalInfluence
    && low.codeStability <= s.codeStability <= high.codeStability
  }

  /** Seven parts of the old score and three of the latest, for every score. */
  predicate IsBlend(existing: Scores, latest: Scores, blended: Scores) {
    && 10.0 * blended.mutualRespect == 7.0 * existing.mutualRespect + 3.0 * latest.mutualRespect
    && 10.0 * blended.conflictManagement == 7.0 * existing.conflictManagement + 3.0 * latest.conflictManagement
    && 10.0 * blended.logicalProblem == 7.0 * existing.logicalProblem + 3.0 * latest.logicalProblem
    && 10.0 * blended.reviewGuiding == 7.0 * existing.reviewGuiding + 3.0 * latest.reviewGuiding
    && 10.0 * blended.documentation == 7.0 * existing.documentation + 3.0 * latest.documentation
    && 10.0 * blended.knowledgeSharing == 7.0 * existing.knowledgeSharing + 3.0 * latest.knowledgeSharing
    && 10.0 * blended.technicalInfluence == 7.0 * existing.technicalInfluence + 3.0 * latest.technicalInfluence
    && 10.0 * blended.codeStability == 7.0 * existing.codeStability + 3.0 * latest.codeStability
  }

  /** The first analysis is taken as it is; every later one is blended in. Each counts. */
  lemma StatisticsFollow(existing: Option<UserStat>, latest: Scores)
    ensures var updated := UpdatedStat(existing, latest);
            && (existing.None? ==> updated == UserStat(latest, 1))
            && (existing.Some? ==>
                  && updated.analysisCount == existing.value.analysisCount + 1
                  && IsBlend(existing.value.scores, latest, updated.scores))
  {
    if existing.Some? {
      BlendWeighs(existing.value.scores.mutualRespect, latest.mutualRespect);
      BlendWeighs(existing.value.scores.conflictManagement, latest.conflictManagement);
      BlendWeighs(existing.value.scores.logicalProblem, latest.logicalProblem);
      BlendWeighs(existing.value.scores.reviewGuiding, latest.reviewGuiding);
      BlendWeighs(existing.value.scores.documentation, latest.documentation);
      BlendWeighs(existing.value.scores.knowledgeSharing, latest.knowledgeSharing);
      BlendWeighs(existing.value.scores.technicalInfluence, latest.technicalInfluence);
      BlendWeighs(existing.value.scores.codeStability, latest.codeStability);
      hide Blend;
    }
  }

  lemma BlendWeighs(existing: real, latest: real)
    ensures 10.0 * Blend(existing, latest) == 7.0 * existing + 3.0 * latest
  {
  }

  lemma BlendWithin(low: real, high: real, existing: real, latest: real)
    requires low <= existing <= high && low <= latest <= high
    ensures low <= Blend(existing, latest) <= high
  {
    assert low * WEIGHT_OLD + low * WEIGHT_NEW == low && high * WEIGHT_OLD + high * WEIGHT_NEW == high;
  }

  /** A weighted average: scores that agree stay put, and bounds that hold of both hold of the blend, score by score. */
  lemma BlendIsAnAverage(low: Scores, high: Scores, existing: Scores, latest: Scores)
    requires Between(low, existing, high) && Between(low, latest, high)
    ensures Between(low, BlendScores(existing, latest), high)
    ensures existing == latest ==> BlendScores(existing, latest) == existing
  {
    BlendWithin(low.mutualRespect, high.mutualRespect, existing.mutualRespect, latest.mutualRespect);
    BlendWithin(low.conflictManagement, high.conflictManagement, existing.conflictManagement,
                latest.conflictManagement);
    BlendWithin(low.logicalProblem, high.logicalProblem, existing.logicalProblem, latest.logicalProblem);
    BlendWithin(low.reviewGuiding, high.reviewGuiding, existing.reviewGuiding, latest.reviewGuiding);
    BlendWithin(low.documentation, high.documentation, existing.documentation, latest.documentation);
    BlendWithin(low.knowledgeSharing, high.knowledgeSharing, existing.knowledgeSharing, latest.knowledgeSharing);
    BlendWithin(low.technicalInfluence, high.technicalInfluence, existing.technicalInfluence,
                latest.technicalInfluence);
    BlendWithin(low.codeStability, high.codeStability, existing.codeStability, latest.codeStability);
  }
}
