/** EscapeRunService: recording a finished trivia run after checking it, and finding a user's
    latest run of a difficulty. The question and run repositories are in-memory collections. */
module EscapeRunService {
  import opened Wrappers
  import opened Collections
  import opened GameSessionModel

  datatype Difficulty = Easy | Medium | Hard

  datatype Question = Question(id: int, difficulty: Difficulty)

  datatype EscapeRun = EscapeRun(
    id: int,
    userId: UserId,
    difficulty: Difficulty,
    totalTimeMillis: int,
    finishedAt: nat,
    questionIds: seq<int>)

  /** The `IllegalArgumentException`s, one per message. */
  datatype RunError =
    | MissingUserId
    | UnknownDifficulty
    | MissingQuestionIds
    | WrongQuestionCount
    | DuplicateQuestionIds
    | NonPositiveTime
    | UserNotFound
    | InvalidQuestionIds
    | DifficultyMismatch
    | MissingDifficulty

  const EXPECTED_QUESTION_COUNT := 6

  /** `validateParameters`, checks in the source's order; None when all pass. Uniqueness is
      checked as the source does, by comparing the count of distinct ids with the list size. */
  function ValidateParameters(difficulty: Option<Difficulty>, questionIds: Option<seq<int>>, totalTimeMillis: int): (r: Option<RunError>)
    ensures difficulty.None? ==> r == Some(UnknownDifficulty)
    ensures difficulty.Some? && (questionIds.None? || |questionIds.value| == 0) ==> r == Some(MissingQuestionIds)
    ensures difficulty.Some? && questionIds.Some? && 0 < |questionIds.value| != EXPECTED_QUESTION_COUNT ==> r == Some(WrongQuestionCount)
    ensures difficulty.Some? && questionIds.Some? && |questionIds.value| == EXPECTED_QUESTION_COUNT && !NoDuplicates(questionIds.value) ==>
              r == Some(DuplicateQuestionIds)
    ensures (&& difficulty.Some? && questionIds.Some? && |questionIds.value| == EXPECTED_QUESTION_COUNT
             && NoDuplicates(questionIds.value) && totalTimeMillis <= 0) ==>
              r == Some(NonPositiveTime)
    ensures r.None? <==> && difficulty.Some? && questionIds.Some?
                         && |questionIds.value| == EXPECTED_QUESTION_COUNT && NoDuplicates(questionIds.value)
                         && totalTimeMillis > 0
  {
    if difficulty.None? then Some(UnknownDifficulty)
    else if questionIds.None? || |questionIds.value| == 0 then Some(MissingQuestionIds)
    else if |questionIds.value| != EXPECTED_QUESTION_COUNT then Some(WrongQuestionCount)
    else
      DistinctCountIsSize(questionIds.value);
      if |Distinct(questionIds.value)| != |questionIds.value| then Some(DuplicateQuestionIds)
      else if totalTimeMillis <= 0 then Some(NonPositiveTime)
      else None
  }

  /** `findAllById` collected into a map by question id: the ids that resolve. */
  function QuestionById(ids: seq<int>, questions: map<int, Question>): (byId: map<int, Question>)
    ensures byId.Keys == Resolved(ids, questions)
    ensures forall id | id in byId :: byId[id] == questions[id]
    ensures forall id | id in ids && id in questions :: id in byId
  {
    map id | id in ids && id in questions :: questions[id]
  }

  /** For unique ids, the resolved map has one entry per id exactly when every id resolves. */
  lemma AllResolvedIffFullSize(ids: seq<int>, questions: map<int, Question>)
    requires NoDuplicates(ids)
    ensures |QuestionById(ids, questions)| == |ids| <==> forall id | id in ids :: id in questions
  {
    var byId := QuestionById(ids, questions);
    ResolvedCount(ids, questions);
    assert |byId| == |byId.Keys| == |Resolved(ids, questions)|;
    assert |byId| == |ids| ==> forall id | id in ids :: id in questions;
    assert (forall id | id in ids :: id in questions) ==> |byId| == |ids|;
  }

  /** Every check of `recordRun`, in order; None when the run is recorded. Whether every id
      resolves is checked as the source does, by comparing the size of the resolved map with
      the list size (sound because the ids were checked unique first). */
  function CheckRun(userId: Option<UserId>, difficulty: Option<Difficulty>, questionIds: Option<seq<int>>, totalTimeMillis: int,
                    users: set<UserId>, questions: map<int, Question>): (r: Option<RunError>)
    ensures userId.None? ==> r == Some(MissingUserId)
    ensures userId.Some? ==> (ValidateParameters(difficulty, questionIds, totalTimeMillis).Some? ==>
                                r == ValidateParameters(difficulty, questionIds, totalTimeMillis))
    ensures userId.Some? && ValidateParameters(difficulty, questionIds, totalTimeMillis).None? && userId.value !in users ==>
              r == Some(UserNotFound)
    ensures r.None? <==>
              && userId.Some? && userId.value in users
              && ValidateParameters(difficulty, questionIds, totalTimeMillis).None?
              && (forall id | id in questionIds.value :: id in questions && questions[id].difficulty == difficulty.value)
    ensures r == Some(InvalidQuestionIds) ==> exists id | id in questionIds.value :: id !in questions
    ensures (&& userId.Some? && userId.value in users && ValidateParameters(difficulty, questionIds, totalTimeMillis).None?
             && (exists id | id in questionIds.value :: id !in questions)) ==>
              r == Some(InvalidQuestionIds)
    ensures (&& userId.Some? && userId.value in users && ValidateParameters(difficulty, questionIds, totalTimeMillis).None?
             && (forall id | id in questionIds.value :: id in questions)
             && (exists id | id in questionIds.value && id in questions :: questions[id].difficulty != difficulty.value)) ==>
              r == Some(DifficultyMismatch)
    ensures r == Some(DifficultyMismatch) ==>
              forall id | id in questionIds.value :: id in questions
  {
    if userId.None? then Some(MissingUserId)
    else match ValidateParameters(difficulty, questionIds, totalTimeMillis)
      case Some(e) => Some(e)
      case None =>
        if userId.value !in users then Some(UserNotFound)
        else
          var ids := questionIds.value;
          var byId := QuestionById(ids, questions);
          AllResolvedIffFullSize(ids, questions);
          if |byId| != |ids| then Some(InvalidQuestionIds)
          else if !(forall id | id in ids :: byId[id].difficulty == difficulty.value) then Some(DifficultyMismatch)
          else None
  }

  /** The user, question and run repositories. `nextRunId` is the identity generator. */
  class EscapeRunStore {
    var users: set<UserId>
    var questions: map<int, Question>
    var runs: seq<EscapeRun>
    var nextRunId: int

    ghost predicate Valid()
      reads this
    {
      && (forall id | id in questions :: questions[id].id == id)
      && (forall i | 0 <= i < |runs| :: runs[i].id < nextRunId)
    }

    constructor (users: set<UserId>, questions: map<int, Question>)
      requires forall id | id in questions :: questions[id].id == id
      ensures Valid() && this.users == users && this.questions == questions && runs == []
    {
      this.users := users;
      this.questions := questions;
      runs := [];
      nextRunId := 1;
    }

    /** `recordRun`: a run that passes every check is stored with the ids in the submitted
        order and `finishedAt` the current clock value; a rejected run stores nothing. */
    method RecordRun(userId: Option<UserId>, difficulty: Option<Difficulty>, questionIds: Option<seq<int>>,
                     totalTimeMillis: int, now: nat) returns (r: Result<EscapeRun, RunError>)
      requires Valid()
      modifies this
      ensures Valid()
      ensures users == old(users) && questions == old(questions)
      ensures var check := CheckRun(userId, difficulty, questionIds, totalTimeMillis, users, questions);
              && (check.Some? ==> r == Failure(check.value) && runs == old(runs) && nextRunId == old(nextRunId))
              && (check.None? ==> && r == Success(EscapeRun(old(nextRunId), userId.value, difficulty.value, totalTimeMillis, now, questionIds.value))
                                  && runs == old(runs) + [r.value] && nextRunId == old(nextRunId) + 1)
    {
      var check := CheckRun(userId, difficulty, questionIds, totalTimeMillis, users, questions);
      if check.Some? {
        return Failure(check.value);
      }
      var run := EscapeRun(nextRunId, userId.value, difficulty.value, totalTimeMillis, now, questionIds.value);
      runs := runs + [run];
      nextRunId := nextRunId + 1;
      return Success(run);
    }

    /** `latestRun`: a null difficulty is an error; otherwise the user's run of that difficulty
        with the greatest `finishedAt`, or nothing. */
    method LatestRun(userId: UserId, difficulty: Option<Difficulty>) returns (r: Result<Option<EscapeRun>, RunError>)
      ensures difficulty.None? <==> r == Failure(MissingDifficulty)
      ensures r.Success? && r.value.Some? ==>
                && r.value.value in runs && r.value.value.userId == userId && r.value.value.difficulty == difficulty.value
                && forall i | 0 <= i < |runs| && runs[i].userId == userId && runs[i].difficulty == difficulty.value ::
                     runs[i].finishedAt <= r.value.value.finishedAt
      ensures r == Success(None) <==>
                difficulty.Some? && forall i | 0 <= i < |runs| :: !(runs[i].userId == userId && runs[i].difficulty == difficulty.value)
    {
      if difficulty.None? {
        return Failure(MissingDifficulty);
      }
      var stamps := map i | 0 <= i < |runs| && runs[i].userId == userId && runs[i].difficulty == difficulty.value :: runs[i].finishedAt as int;
      assert forall i | 0 <= i < |runs| && runs[i].userId == userId && runs[i].difficulty == difficulty.value :: i in stamps;
      if |stamps| == 0 {
        assert stamps.Keys == {};
        return Success(None);
      }
      ghost var best := MaxKey(stamps);
      var k :| k in stamps && forall j | j in stamps :: stamps[j] <= stamps[k];
      return Success(Some(runs[k]));
    }
  }

  /** A recorded run always has exactly six distinct ids, a positive time, and only questions
      of its own difficulty. */
  lemma RecordedRunIsWellFormed(userId: Option<UserId>, difficulty: Option<Difficulty>, questionIds: Option<seq<int>>,
                                totalTimeMillis: int, users: set<UserId>, questions: map<int, Question>)
    requires CheckRun(userId, difficulty, questionIds, totalTimeMillis, users, questions).None?
    ensures questionIds.Some? && |questionIds.value| == EXPECTED_QUESTION_COUNT && NoDuplicates(questionIds.value)
    ensures totalTimeMillis > 0
    ensures forall i | 0 <= i < |questionIds.value| :: questionIds.value[i] in questions
    ensures forall i | 0 <= i < |questionIds.value| :: questions[questionIds.value[i]].difficulty == difficulty.value
  {
    var ids := questionIds.value;
    assert forall id | id in ids :: id in questions && questions[id].difficulty == difficulty.value;
    forall i | 0 <= i < |ids|
      ensures ids[i] in questions && questions[ids[i]].difficulty == difficulty.value
    {
      assert ids[i] in ids;
    }
  }
}
