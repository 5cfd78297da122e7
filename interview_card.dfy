/**
 * The interview card (components/InterviewCard.tsx): a total decision table
 * over the display mode, the interview id and the feedback record that the
 * feedback service returned, if any. The JavaScript truthiness of `||` is
 * kept: an empty final assessment and a total score of 0 are both falsy and
 * fall back to the default text.
 */
module InterviewCard {
  import opened Wrappers
  import Decimal

  /** The `mode` prop; any value other than "feedback" or "take" takes the view branch. */
  datatype Mode = FeedbackMode | TakeMode | ViewMode

  /** The parts of a feedback record the card reads. */
  datatype Feedback = Feedback(finalAssessment: string, totalScore: int)

  /** The link the card's button leads to, and the button's text. */
  datatype CardButton = CardButton(href: string, caption: string)

  /** Everything on the card that depends on its inputs, except the date and the cover image. */
  datatype Card = Card(
    typeBadge: string,
    modeBadge: Option<string>,
    score: string,
    message: string,
    button: CardButton)

  const CheckFeedback := "Check Feedback"
  const TakeInterview := "Take Interview"
  const ViewInterview := "View Interview"
  const FeedbackUnavailable := "Interview completed but feedback is not available"
  const PracticePrompt := "Practice with our AI interviewer to improve your interview skills"
  const NotTakenPrompt := "You haven't taken the interview yet. Take it now to get feedback"
  const ScorePlaceholder := "---"
  const ScoreSuffix := "/100"
  const MixedLabel := "Mixed"

  function InterviewPath(id: string): string {
    "/interview/" + id
  }

  function FeedbackPath(id: string): string {
    "/interview/" + id + "/feedback"
  }

  /** JavaScript `text || fallback` on a string: only the empty string is falsy. */
  function OrText(text: string, fallback: string): (r: string)
    ensures r == text || r == fallback
    ensures r == "" ==> text == "" && fallback == ""
    ensures text != "" ==> r == text
  {
    if text != "" then text else fallback
  }

  /**
   * The feedback the card works with: the service is consulted only when
   * both the user id and the interview id are non-empty strings; `stored`
   * stands for the service's answer.
   */
  function FetchFeedback(userId: string, id: string, stored: Option<Feedback>): (r: Option<Feedback>)
    ensures r.Some? ==> userId != "" && id != ""
    ensures userId != "" && id != "" ==> r == stored
  {
    if userId != "" && id != "" then stored else None
  }

  /** The button: where it links and what it says. */
  function RenderButton(mode: Mode, id: string, feedback: Option<Feedback>): (r: CardButton)
    ensures r.href == FeedbackPath(id) || r.href == InterviewPath(id)
    ensures r.caption == CheckFeedback <==> mode == FeedbackMode || (mode == ViewMode && feedback.Some?)
    ensures r.href == FeedbackPath(id) <==> r.caption == CheckFeedback
    ensures mode == TakeMode ==> r.caption == TakeInterview
    ensures mode == ViewMode && feedback.None? ==> r.caption == ViewInterview
  {
    assert |InterviewPath(id)| < |FeedbackPath(id)|;
    match mode
    case FeedbackMode => CardButton(FeedbackPath(id), CheckFeedback)
    case TakeMode => CardButton(InterviewPath(id), TakeInterview)
    case ViewMode =>
      CardButton(
        if feedback.Some? then FeedbackPath(id) else InterviewPath(id),
        if feedback.Some? then CheckFeedback else ViewInterview)
  }

  /** The summary text under the score. */
  function CardMessage(mode: Mode, feedback: Option<Feedback>): (r: string)
    ensures mode == TakeMode ==> r == PracticePrompt
    ensures mode != TakeMode && feedback.Some? && feedback.value.finalAssessment != "" ==>
              r == feedback.value.finalAssessment
    ensures mode == FeedbackMode ==>
              r == (if feedback.Some? then feedback.value.finalAssessment else FeedbackUnavailable)
    ensures mode == ViewMode && (feedback.None? || feedback.value.finalAssessment == "") ==> r == NotTakenPrompt
    ensures r == "" <==> mode == FeedbackMode && feedback.Some? && feedback.value.finalAssessment == ""
  {
    if mode == FeedbackMode && feedback.Some? then feedback.value.finalAssessment
    else if mode == FeedbackMode && feedback.None? then FeedbackUnavailable
    else if mode == TakeMode then PracticePrompt
    else OrText(if feedback.Some? then feedback.value.finalAssessment else "", NotTakenPrompt)
  }

  /** The score line: the total score out of 100, or a placeholder. */
  function ScoreText(mode: Mode, feedback: Option<Feedback>): (r: string)
    ensures 4 <= |r| && r[|r| - 4..] == ScoreSuffix
    ensures r == ScorePlaceholder + ScoreSuffix <==>
              mode == TakeMode || feedback.None? || feedback.value.totalScore == 0
    ensures mode != TakeMode && feedback.Some? && feedback.value.totalScore != 0 ==>
              Decimal.ParseInt(r[..|r| - 4]) == Some(feedback.value.totalScore)
    ensures mode != TakeMode && feedback.Some? && feedback.value.totalScore != 0 ==>
              r == Decimal.IntToText(feedback.value.totalScore) + ScoreSuffix
  {
    var shown :=
      if mode == TakeMode || feedback.None? || feedback.value.totalScore == 0 then ScorePlaceholder
      else Decimal.IntToText(feedback.value.totalScore);
    var r := shown + ScoreSuffix;
    assert r[..|r| - 4] == shown;
    assert shown != ScorePlaceholder ==> r != ScorePlaceholder + ScoreSuffix by {
      if r == ScorePlaceholder + ScoreSuffix {
        assert shown == r[..|r| - 4] == ScorePlaceholder;
      }
    }
    if shown != ScorePlaceholder then Decimal.ParseIntToText(feedback.value.totalScore); r else r
  }

  /** The badge in the top-left corner, shown only in take and feedback modes. */
  function ModeBadge(mode: Mode): (r: Option<string>)
    ensures r.Some? <==> mode != ViewMode
    ensures r == Some("Completed") <==> mode == FeedbackMode
    ensures r == Some("Available") <==> mode == TakeMode
  {
    match mode
    case FeedbackMode => Some("Completed")
    case TakeMode => Some("Available")
    case ViewMode => None
  }

  /**
   * The case folding a non-Unicode JavaScript regular expression with the
   * `i` flag applies to the letters of "mix": only ASCII letters fold onto
   * them, so ASCII folding is exact here.
   */
  function FoldCase(c: char): char {
    if 'A' <= c <= 'Z' then (c as int + 32) as char else c
  }

  /** "mix", ignoring case, starts at index `i` of `s`. */
  predicate MixAt(s: string, i: nat)
    requires i + 3 <= |s|
  {
    FoldCase(s[i]) == 'm' && FoldCase(s[i + 1]) == 'i' && FoldCase(s[i + 2]) == 'x'
  }

  /** The scan `/mix/gi.test(s)` performs, from index `from` on. */
  function SearchMix(s: string, from: nat): (found: bool)
    requires from <= |s|
    ensures found <==> exists i :: from <= i && i + 3 <= |s| && MixAt(s, i)
    decreases |s| - from
  {
    if |s| < from + 3 then false
    else MixAt(s, from) || SearchMix(s, from + 1)
  }

  /** The type badge: "Mixed" when the type mentions "mix" in any case, the type itself otherwise. */
  function NormalizedType(interviewType: string): (r: string)
    ensures (exists i :: 0 <= i && i + 3 <= |interviewType| && MixAt(interviewType, i)) ==> r == MixedLabel
    ensures !(exists i :: 0 <= i && i + 3 <= |interviewType| && MixAt(interviewType, i)) ==> r == interviewType
  {
    if SearchMix(interviewType, 0) then MixedLabel else interviewType
  }

  /** The whole card for one interview; `stored` is what the feedback service would return. */
  function RenderCard(id: string, userId: string, interviewType: string, mode: Mode, stored: Option<Feedback>): (c: Card)
    ensures userId == "" || id == "" ==>
              c.score == ScorePlaceholder + ScoreSuffix && (mode == ViewMode ==> c.message == NotTakenPrompt)
    ensures c.button.caption == CheckFeedback <==> mode == FeedbackMode || (mode == ViewMode && userId != "" && id != "" && stored.Some?)
  {
    var feedback := FetchFeedback(userId, id, stored);
    Card(NormalizedType(interviewType), ModeBadge(mode), ScoreText(mode, feedback),
         CardMessage(mode, feedback), RenderButton(mode, id, feedback))
  }

  /**
   * Feedback mode and view mode show the same message exactly when a
   * feedback record with a non-empty assessment is present: `||` in view
   * mode treats an empty assessment as missing, feedback mode does not.
   */
  lemma FeedbackAndViewMessagesAgree(feedback: Option<Feedback>)
    ensures CardMessage(FeedbackMode, feedback) == CardMessage(ViewMode, feedback) <==>
              feedback.Some? && feedback.value.finalAssessment != ""
  {
    if feedback.None? {
      assert |FeedbackUnavailable| != |NotTakenPrompt|;
    }
  }

  /** A recorded score of 0 is falsy, so it shows as the placeholder, like a missing record. */
  lemma ZeroScoreShowsPlaceholder(mode: Mode, assessment: string)
    ensures ScoreText(mode, Some(Feedback(assessment, 0))) == ScoreText(mode, None)
  {
  }

  /** A view-mode card whose feedback scored 87 shows "87/100" and links to the feedback page. */
  lemma ViewCardWithScore(id: string, userId: string, interviewType: string, assessment: string)
    requires id != "" && userId != ""
    ensures RenderCard(id, userId, interviewType, ViewMode, Some(Feedback(assessment, 87))).score == "87/100"
    ensures RenderCard(id, userId, interviewType, ViewMode, Some(Feedback(assessment, 87))).button
              == CardButton(FeedbackPath(id), CheckFeedback)
  {
    assert Decimal.NatToDecimal(87) == "87";
  }

  /** A feedback-mode card without a feedback record says the feedback is not available. */
  lemma FeedbackCardWithoutRecord(id: string, userId: string, interviewType: string)
    ensures RenderCard(id, userId, interviewType, FeedbackMode, None).message == FeedbackUnavailable
    ensures RenderCard(id, userId, interviewType, FeedbackMode, None).button == CardButton(FeedbackPath(id), CheckFeedback)
  {
  }
}
