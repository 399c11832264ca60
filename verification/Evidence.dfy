/** Evidence validation: evidence-validator.ts. */
module Evidence {
  import opened Basics
  import opened Text

  const MIN_ANALYSIS_EVIDENCE_QUOTE_LENGTH: nat := 20

  datatype SourceType = PullRequestSource | ReviewSource | ReviewCommentSource
  datatype Relation = TargetAuthoredPr | TargetAuthoredReview | TargetAuthoredReviewComment

  datatype Comment = Comment(author: Text, body: Text)
  datatype Review = Review(author: Text, body: Text, comments: seq<Comment>)
  datatype PullRequest = PullRequest(number: int, title: Text, body: Text, author: Text, permalink: Text,
                                     reviews: seq<Review>)
  datatype CollectedData = CollectedData(targetUser: Text, pullRequests: seq<PullRequest>)

  datatype Evidence = Evidence(
    prNumber: int, permalink: Text, author: Text, sourceType: SourceType, targetRelation: Relation, quote: Text,
    scoreRationale: Text)

  /** Scores are counted in halves, as the schema grants them. */
  datatype Evaluation = Evaluation(halfPoints: nat, reason: Text, improvement: Text, example: Text,
                                   evidence: seq<Evidence>)

  /** One evaluation per metric, in the order of the metric keys. */
  datatype Payload = Payload(evaluations: seq<Evaluation>, summary: Text)

  datatype IssueCode =
    | UnknownPr | PermalinkMismatch | AuthorMismatch | SourceRelationMismatch | QuoteTooShort | QuoteNotOwned
    | UnsupportedScoreWithoutEvidence | UnstructuredReference

  /** `metric` is None for the summary. */
  datatype Issue = Issue(code: IssueCode, metric: Option<nat>, evidenceIndex: Option<nat>)

  datatype OwnedActivity = OwnedActivity(sourceType: SourceType, targetRelation: Relation, text: Text)

  /** Case folding and the reference pattern stay uninterpreted. */
  datatype Language = Language(lower: Text -> Text, isReference: Text -> bool)

  function RelationOf(source: SourceType): Relation {
    match source
    case PullRequestSource => TargetAuthoredPr
    case ReviewSource => TargetAuthoredReview
    case ReviewCommentSource => TargetAuthoredReviewComment
  }

  // ----- what validity means -----

  /** What the target is said to have written is what the source is. */
  predicate FitsSource(relation: Relation, source: SourceType) {
    || (source == PullRequestSource && relation == TargetAuthoredPr)
    || (source == ReviewSource && relation == TargetAuthoredReview)
    || (source == ReviewCommentSource && relation == TargetAuthoredReviewComment)
  }

  /** The pull request that a number stands for: the last one collected under it. */
  ghost predicate Stands(data: CollectedData, number: int, i: int) {
    && 0 <= i < |data.pullRequests| && data.pullRequests[i].number == number
    && forall k | i < k < |data.pullRequests| :: data.pullRequests[k].number != number
  }

  /** The target user wrote `text` in `pr`, as an activity of this source type. */
  ghost predicate Wrote(pr: PullRequest, source: SourceType, text: Text, target: Text, l: Language) {
    match source
    case PullRequestSource => l.lower(pr.author) == target && (text == pr.title || text == pr.body)
    case ReviewSource => exists r | r in pr.reviews :: l.lower(r.author) == target && text == r.body
    case ReviewCommentSource => exists r | r in pr.reviews :: exists c | c in r.comments ::
      l.lower(c.author) == target && text == c.body
  }

  predicate OccursAt(text: Text, part: Text, i: int) {
    0 <= i <= |text| - |part| && text[i..i + |part|] == part
  }

  /** String.prototype.includes. */
  predicate Contains(text: Text, part: Text) {
    exists i | 0 <= i <= |text| - |part| :: OccursAt(text, part, i)
  }

  /** The quote is long enough and occurs, whitespace aside, in one text that the target wrote there. */
  ghost predicate QuoteIsOwned(pr: PullRequest, e: Evidence, target: Text, l: Language) {
    exists text :: Wrote(pr, e.sourceType, text, target, l) && Contains(Normalize(text), Normalize(e.quote))
  }

  /**
   When each code is due for evidence whose pull request is `pr`: later checks presuppose the author, then the relation.
   */
  ghost predicate IsDue(code: IssueCode, e: Evidence, pr: PullRequest, target: Text, l: Language) {
    var authored := l.lower(e.author) == target;
    var related := authored && FitsSource(e.targetRelation, e.sourceType);
    match code
    case UnstructuredReference => l.isReference(e.scoreRationale)
    case PermalinkMismatch => e.permalink != pr.permalink
    case AuthorMismatch => !authored
    case SourceRelationMismatch => authored && !related
    case QuoteTooShort => related && |Normalize(e.quote)| < 20
    case QuoteNotOwned => related && !QuoteIsOwned(pr, e, target, l)
    case UnknownPr => false
    case UnsupportedScoreWithoutEvidence => false
  }

  /** When a code is reported for evidence: the reference first, then only what can be said without a pull request. */
  ghost predicate IsReported(code: IssueCode, e: Evidence, data: CollectedData, l: Language) {
    if exists i :: Stands(data, e.prNumber, i)
    then exists i :: Stands(data, e.prNumber, i) && IsDue(code, e, data.pullRequests[i], l.lower(data.targetUser), l)
    else code == UnknownPr || (code == UnstructuredReference && l.isReference(e.scoreRationale))
  }

  /** When an issue is reported for the evaluation of a metric, evidence from number `count` on left aside. */
  ghost predicate IsIssue(issue: Issue, v: Evaluation, metric: nat, count: nat, data: CollectedData, l: Language) {
    && issue.metric == Some(metric)
    && match issue.evidenceIndex
       case None =>
         || (issue.code == UnsupportedScoreWithoutEvidence && v.evidence == [] &&
             !(v.halfPoints == 6 || v.halfPoints == 7))
         || (issue.code == UnstructuredReference &&
             (l.isReference(v.reason) || l.isReference(v.improvement) || l.isReference(v.example)))
       case Some(k) => k < count && k < |v.evidence| && IsReported(issue.code, v.evidence[k], data, l)
  }

  /** When an issue is reported for the payload: for one of its evaluations, or for its summary. */
  ghost predicate IsPayloadIssue(issue: Issue, result: Payload, data: CollectedData, l: Language) {
    match issue.metric
    case None => issue == Issue(UnstructuredReference, None, None) && l.isReference(result.summary)
    case Some(m) =>
      m < |result.evaluations| &&
      IsIssue(issue, result.evaluations[m], m, |result.evaluations[m].evidence|, data, l)
  }

  ghost predicate EvidenceIsSound(e: Evidence, data: CollectedData, l: Language) {
    && !l.isReference(e.scoreRationale)
    && (exists i :: Stands(data, e.prNumber, i) &&
          var pr := data.pullRequests[i];
          && e.permalink == pr.permalink
          && l.lower(e.author) == l.lower(data.targetUser)
          && FitsSource(e.targetRelation, e.sourceType)
          && |Normalize(e.quote)| >= 20
          && QuoteIsOwned(pr, e, l.lower(data.targetUser), l))
  }

  ghost predicate EvaluationIsSound(v: Evaluation, data: CollectedData, l: Language) {
    && (v.evidence == [] ==> v.halfPoints == 6 || v.halfPoints == 7)
    && !l.isReference(v.reason) && !l.isReference(v.improvement) && !l.isReference(v.example)
    && forall e | e in v.evidence :: EvidenceIsSound(e, data, l)
  }

  ghost predicate PayloadIsSound(result: Payload, data: CollectedData, l: Language) {
    (forall v | v in result.evaluations :: EvaluationIsSound(v, data, l)) && !l.isReference(result.summary)
  }

  // ----- the validator -----

  /** collectOwnedActivities. */
  method CollectOwnedActivities(pr: PullRequest, target: Text, l: Language) returns (activities: seq<OwnedActivity>)
    ensures forall a | a in activities :: a.targetRelation == RelationOf(a.sourceType)
    ensures forall source, text ::
              OwnedActivity(source, RelationOf(source), text) in activities <==> Wrote(pr, source, text, target, l)
  {
    activities := [];
    if l.lower(pr.author) == target {
      activities :=
        [OwnedActivity(PullRequestSource, TargetAuthoredPr, pr.title),
         OwnedActivity(PullRequestSource, TargetAuthoredPr, pr.body)];
    }
    var i := 0;
    while i < |pr.reviews|
      invariant 0 <= i <= |pr.reviews|
      invariant forall a | a in activities :: a.targetRelation == RelationOf(a.sourceType)
      invariant forall source, text ::
                  OwnedActivity(source, RelationOf(source), text) in activities <==>
                  Wrote(pr.(reviews := pr.reviews[..i]), source, text, target, l)
    {
      var review := pr.reviews[i];
      var before := activities;
      if l.lower(review.author) == target {
        activities := activities + [OwnedActivity(ReviewSource, TargetAuthoredReview, review.body)];
      }
      var commented := CommentsBy(review.comments, target, l);
      activities := activities + commented;
      OneMoreReview(pr, i, target, l, before, activities, commented);
      i := i + 1;
    }
    assert pr.(reviews := pr.reviews[..i]) == pr;
  }

  method CommentsBy(comments: seq<Comment>, target: Text, l: Language) returns (activities: seq<OwnedActivity>)
    ensures forall a :: a in activities <==>
              exists c | c in comments ::
                l.lower(c.author) == target &&
                  a == OwnedActivity(ReviewCommentSource, TargetAuthoredReviewComment, c.body)
  {
    activities := [];
    for k := 0 to |comments|
      invariant forall a :: a in activities <==>
                  exists c | c in comments[..k] ::
                    l.lower(c.author) == target &&
                      a == OwnedActivity(ReviewCommentSource, TargetAuthoredReviewComment, c.body)
    {
      assert comments[..k + 1] == comments[..k] + [comments[k]];
      if l.lower(comments[k].author) == target {
        activities := activities + [OwnedActivity(ReviewCommentSource, TargetAuthoredReviewComment, comments[k].body)];
      }
    }
    assert comments[..|comments|] == comments;
  }

  lemma OneMoreReview(pr: PullRequest, i: nat, target: Text, l: Language, before: seq<OwnedActivity>,
                      after: seq<OwnedActivity>, commented: seq<OwnedActivity>)
    requires i < |pr.reviews|
    requires forall source, text ::
               OwnedActivity(source, RelationOf(source), text) in before <==>
                 Wrote(pr.(reviews := pr.reviews[..i]), source, text, target, l)
    requires after == before + (if l.lower(pr.reviews[i].author) == target
                                then [OwnedActivity(ReviewSource, TargetAuthoredReview, pr.reviews[i].body)]
                                  else []) + commented
    requires forall a :: a in commented <==>
               exists c | c in pr.reviews[i].comments ::
                 l.lower(c.author) == target &&
                   a == OwnedActivity(ReviewCommentSource, TargetAuthoredReviewComment, c.body)
    ensures forall source, text ::
              OwnedActivity(source, RelationOf(source), text) in after <==>
                Wrote(pr.(reviews := pr.reviews[..i + 1]), source, text, target, l)
  {
    assert pr.reviews[..i + 1] == pr.reviews[..i] + [pr.reviews[i]];
    forall source, text
      ensures OwnedActivity(source, RelationOf(source), text) in after <==>
                Wrote(pr.(reviews := pr.reviews[..i + 1]), source, text, target, l)
    {
    }
  }

  /** The index finds exactly the pull requests that numbers stand for. */
  ghost predicate IndexOk(index: map<int, int>, data: CollectedData) {
    && (forall number | number in index :: Stands(data, number, index[number]))
    && (forall number, i | Stands(data, number, i) :: number in index && index[number] == i)
  }

  lemma StandsAfterOneMore(data: CollectedData, k: nat, number: int, i: int)
    requires k < |data.pullRequests|
    ensures Stands(data.(pullRequests := data.pullRequests[..k + 1]), number, i) <==>
            if number == data.pullRequests[k].number then i == k
              else Stands(data.(pullRequests := data.pullRequests[..k]), number, i)
  {
    var before, after :=
      data.(pullRequests := data.pullRequests[..k]), data.(pullRequests := data.pullRequests[..k + 1]);
    assert after.pullRequests[k] == data.pullRequests[k];
    assert forall n | 0 <= n < k :: after.pullRequests[n] == before.pullRequests[n];
  }

  lemma OneMorePullRequest(index: map<int, int>, data: CollectedData, k: nat)
    requires k < |data.pullRequests| && IndexOk(index, data.(pullRequests := data.pullRequests[..k]))
    ensures IndexOk(index[data.pullRequests[k].number := k], data.(pullRequests := data.pullRequests[..k + 1]))
  {
    var before, after :=
      data.(pullRequests := data.pullRequests[..k]), data.(pullRequests := data.pullRequests[..k + 1]);
    var index' := index[data.pullRequests[k].number := k];
    forall number | number in index' ensures Stands(after, number, index'[number]) {
      StandsAfterOneMore(data, k, number, index'[number]);
    }
    forall number, i | Stands(after, number, i) ensures number in index' && index'[number] == i {
      StandsAfterOneMore(data, k, number, i);
    }
  }

  /** The Map of pull requests by number. */
  method IndexPullRequests(data: CollectedData) returns (index: map<int, int>)
    ensures IndexOk(index, data)
  {
    index := map[];
    for k := 0 to |data.pullRequests|
      invariant IndexOk(index, data.(pullRequests := data.pullRequests[..k]))
    {
      OneMorePullRequest(index, data, k);
      index := index[data.pullRequests[k].number := k];
    }
    assert data.(pullRequests := data.pullRequests[..|data.pullRequests|]) == data;
  }

  /** The checks of one piece of evidence, with the returns that skip later ones. */
  method CheckEvidence(e: Evidence, data: CollectedData, index: map<int, int>, l: Language)
    returns (codes: seq<IssueCode>)
    requires IndexOk(index, data)
    ensures codes == [] <==> EvidenceIsSound(e, data, l)
    ensures forall code :: code in codes <==> IsReported(code, e, data, l)
  {
    hide Normalize, Contains, Wrote, QuoteIsOwned;
    codes := [];
    var target := l.lower(data.targetUser);
    if l.isReference(e.scoreRationale) {
      codes := codes + [UnstructuredReference];
    }
    if e.prNumber !in index {
      assert !exists i :: Stands(data, e.prNumber, i);
      return codes + [UnknownPr];
    }
    var at := index[e.prNumber];
    assert Stands(data, e.prNumber, at);
    var pr := data.pullRequests[at];
    assert forall i :: Stands(data, e.prNumber, i) ==> i == at;
    if e.permalink != pr.permalink {
      codes := codes + [PermalinkMismatch];
    }
    if l.lower(e.author) != target {
      return codes + [AuthorMismatch];
    }
    if e.targetRelation != RelationOf(e.sourceType) {
      return codes + [SourceRelationMismatch];
    }
    var activities := CollectOwnedActivities(pr, target, l);
    var quote := Normalize(e.quote);
    if |quote| < MIN_ANALYSIS_EVIDENCE_QUOTE_LENGTH {
      codes := codes + [QuoteTooShort];
    }
    var owned := SomeActivityContains(activities, e, quote);
    OwnedMeansQuoted(pr, e, target, l, activities);
    if !owned {
      codes := codes + [QuoteNotOwned];
    }
  }

  predicate Supports(a: OwnedActivity, e: Evidence, quote: Text) {
    a.sourceType == e.sourceType && a.targetRelation == e.targetRelation && Contains(Normalize(a.text), quote)
  }

  method SomeActivityContains(activities: seq<OwnedActivity>, e: Evidence, quote: Text) returns (found: bool)
    ensures found <==> exists a | a in activities :: Supports(a, e, quote)
  {
    found := false;
    for k := 0 to |activities|
      invariant found <==> exists a | a in activities[..k] :: Supports(a, e, quote)
    {
      assert activities[..k + 1] == activities[..k] + [activities[k]];
      if Supports(activities[k], e, quote) {
        found := true;
      }
    }
    assert activities[..|activities|] == activities;
  }

  lemma OwnedMeansQuoted(pr: PullRequest, e: Evidence, target: Text, l: Language, activities: seq<OwnedActivity>)
    requires e.targetRelation == RelationOf(e.sourceType)
    requires forall a | a in activities :: a.targetRelation == RelationOf(a.sourceType)
    requires forall source, text :: OwnedActivity(source, RelationOf(source), text) in activities <==>
               Wrote(pr, source, text, target, l)
    ensures (exists a | a in activities :: Supports(a, e, Normalize(e.quote))) <==> QuoteIsOwned(pr, e, target, l)
  {
    hide Wrote, Normalize, Contains;
    if exists a | a in activities :: Supports(a, e, Normalize(e.quote)) {
      var a :| a in activities && Supports(a, e, Normalize(e.quote));
      assert a == OwnedActivity(a.sourceType, RelationOf(a.sourceType), a.text);
      assert Wrote(pr, e.sourceType, a.text, target, l);
    }
    if QuoteIsOwned(pr, e, target, l) {
      var text :| Wrote(pr, e.sourceType, text, target, l) && Contains(Normalize(text), Normalize(e.quote));
      assert Supports(OwnedActivity(e.sourceType, RelationOf(e.sourceType), text), e, Normalize(e.quote));
    }
  }

  method CheckEvaluation(v: Evaluation, metric: nat, data: CollectedData, index: map<int, int>, l: Language)
    returns (issues: seq<Issue>)
    requires IndexOk(index, data)
    ensures issues == [] <==> EvaluationIsSound(v, data, l)
    ensures forall issue :: issue in issues <==> IsIssue(issue, v, metric, |v.evidence|, data, l)
    ensures forall issue | issue in issues :: issue.metric == Some(metric)
  {
    hide EvidenceIsSound, IsReported;
    issues := [];
    if v.evidence == [] && v.halfPoints != 6 && v.halfPoints != 7 {
      issues := issues + [Issue(UnsupportedScoreWithoutEvidence, Some(metric), None)];
    }
    if l.isReference(v.reason) || l.isReference(v.improvement) || l.isReference(v.example) {
      issues := issues + [Issue(UnstructuredReference, Some(metric), None)];
    }
    for k := 0 to |v.evidence|
      invariant issues == [] <==>
                  EvaluationHeadIsSound(v, l) && forall e | e in v.evidence[..k] :: EvidenceIsSound(e, data, l)
      invariant forall issue :: issue in issues <==> IsIssue(issue, v, metric, k, data, l)
    {
      var codes := CheckEvidence(v.evidence[k], data, index, l);
      assert v.evidence[..k + 1] == v.evidence[..k] + [v.evidence[k]];
      var found := seq(|codes|, n requires 0 <= n < |codes| => Issue(codes[n], Some(metric), Some(k)));
      IssuesOf(codes, metric, k, found);
      OneMoreEvidence(v, metric, k, data, l, codes, issues, found);
      issues := issues + found;
    }
    assert v.evidence[..|v.evidence|] == v.evidence;
  }

  lemma IssuesOf(codes: seq<IssueCode>, metric: nat, k: nat, found: seq<Issue>)
    requires |found| == |codes| && forall n | 0 <= n < |codes| :: found[n] == Issue(codes[n], Some(metric), Some(k))
    ensures forall issue :: issue in found <==>
              issue.metric == Some(metric) && issue.evidenceIndex == Some(k) && issue.code in codes
  {
    forall issue: Issue | issue.metric == Some(metric) && issue.evidenceIndex == Some(k) && issue.code in codes
      ensures issue in found
    {
      var n :| 0 <= n < |codes| && codes[n] == issue.code;
      assert found[n] == issue;
    }
  }

  lemma OneMoreEvidence(v: Evaluation, metric: nat, k: nat, data: CollectedData, l: Language, codes: seq<IssueCode>,
                        before: seq<Issue>, found: seq<Issue>)
    requires k < |v.evidence| && forall code :: code in codes <==> IsReported(code, v.evidence[k], data, l)
    requires forall issue :: issue in before <==> IsIssue(issue, v, metric, k, data, l)
    requires forall issue :: issue in found <==>
               issue.metric == Some(metric) && issue.evidenceIndex == Some(k) && issue.code in codes
    ensures forall issue :: issue in before + found <==> IsIssue(issue, v, metric, k + 1, data, l)
  {
    hide IsReported;
  }

  predicate EvaluationHeadIsSound(v: Evaluation, l: Language) {
    && (v.evidence == [] ==> v.halfPoints == 6 || v.halfPoints == 7)
    && !l.isReference(v.reason) && !l.isReference(v.improvement) && !l.isReference(v.example)
  }

  /**
   The validator is sound and complete: no issue exactly if every claim of the payload holds of the collected data, and
   each issue exactly where it is due.
   */
  method ValidateAnalysisEvidence(result: Payload, data: CollectedData, l: Language) returns (issues: seq<Issue>)
    ensures issues == [] <==> PayloadIsSound(result, data, l)
    ensures forall issue :: issue in issues <==> IsPayloadIssue(issue, result, data, l)
  {
    hide EvaluationIsSound, IsIssue;
    issues := [];
    var index := IndexPullRequests(data);
    for m := 0 to |result.evaluations|
      invariant issues == [] <==> forall v | v in result.evaluations[..m] :: EvaluationIsSound(v, data, l)
      invariant forall issue :: issue in issues <==>
                  issue.metric.Some? && issue.metric.value < m && IsPayloadIssue(issue, result, data, l)
    {
      var found := CheckEvaluation(result.evaluations[m], m, data, index, l);
      assert result.evaluations[..m + 1] == result.evaluations[..m] + [result.evaluations[m]];
      issues := issues + found;
    }
    assert result.evaluations[..|result.evaluations|] == result.evaluations;
    if l.isReference(result.summary) {
      issues := issues + [Issue(UnstructuredReference, None, None)];
    }
  }
}
