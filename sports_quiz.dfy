/** The five-question sports quiz (src/components/SportsQuiz.jsx): answer each
    question once, count the correct answers, advance or finish. */
module SportsQuiz {
  import opened Common

  datatype Question = Question(id: nat, question: string, options: seq<string>, correctAnswer: string)

  const Questions: seq<Question> := [
    Question(1, "Which sport is known as 'The Beautiful Game'?",
             ["Cricket", "Football", "Basketball", "Tennis"], "Football"),
    Question(2, "How many players are there in a standard cricket team?",
             ["9", "10", "11", "12"], "11"),
    Question(3, "Which swimming stroke is typically the fastest?",
             ["Butterfly", "Freestyle", "Backstroke", "Breaststroke"], "Freestyle"),
    Question(4, "In which sport would you perform a slam dunk?",
             ["Volleyball", "Basketball", "Tennis", "Football"], "Basketball"),
    Question(5, "How many gold medals did India win in the 2020 Tokyo Olympics?",
             ["0", "1", "2", "3"], "1")
  ]

  /** How many of the given answers, the k-th answering question k, are right. */
  function CorrectCount(answers: seq<string>): (n: nat)
    requires |answers| <= |Questions|
    ensures n <= |answers|
  {
    if answers == [] then 0
    else
      var k := |answers| - 1;
      CorrectCount(answers[..k]) + (if answers[k] == Questions[k].correctAnswer then 1 else 0)
  }

  datatype Verdict = Perfect | GoodJob | KeepLearning

  /** The closing line: `score === 5`, else `score >= 5 / 2` (2.5 in
      JavaScript), else the rest; so a score of 3 or 4 is a good job. */
  function ResultMessage(score: nat): (v: Verdict)
    requires score <= |Questions|
    ensures v == Perfect <==> score == 5
    ensures v == GoodJob <==> 3 <= score <= 4
    ensures v == KeepLearning <==> score <= 2
  {
    if score == |Questions| then Perfect
    else if 2 * score >= |Questions| then GoodJob
    else KeepLearning
  }

  function VerdictText(v: Verdict): string
  {
    match v
    case Perfect => "Perfect score! You're a sports expert!"
    case GoodJob => "Good job! You know your sports well."
    case KeepLearning => "Keep learning about sports and try again!"
  }

  class Quiz {
    var showQuiz: bool
    var currentQuestion: nat
    var selectedAnswer: Option<string>
    var score: nat
    var quizCompleted: bool
    var showAnswer: bool
    /** The answers given since the last start or reset, one per question. */
    ghost var answers: seq<string>

    ghost predicate Valid()
      reads this
    {
      && currentQuestion < |Questions|
      && |answers| == currentQuestion + (if selectedAnswer.Some? then 1 else 0)
      && score == CorrectCount(answers)
      && (selectedAnswer.Some? ==> showAnswer && answers[currentQuestion] == selectedAnswer.value)
      && (selectedAnswer.None? ==> !showAnswer && !quizCompleted)
      && (quizCompleted ==> currentQuestion == |Questions| - 1 && selectedAnswer.Some?)
    }

    constructor ()
      ensures Valid() && !showQuiz && currentQuestion == 0 && score == 0
      ensures selectedAnswer == None && !quizCompleted && !showAnswer
    {
      showQuiz, currentQuestion, selectedAnswer := false, 0, None;
      score, quizCompleted, showAnswer := 0, false, false;
      answers := [];
    }

    /** `handleStartQuiz`. */
    method StartQuiz()
      modifies this
      ensures Valid() && showQuiz && currentQuestion == 0 && score == 0
      ensures selectedAnswer == None && !quizCompleted && !showAnswer
    {
      showQuiz, currentQuestion, selectedAnswer := true, 0, None;
      score, quizCompleted, showAnswer := 0, false, false;
      answers := [];
    }

    /** `resetQuiz`: as start, but the quiz panel is closed. */
    method ResetQuiz()
      modifies this
      ensures Valid() && !showQuiz && currentQuestion == 0 && score == 0
      ensures selectedAnswer == None && !quizCompleted && !showAnswer
    {
      showQuiz, currentQuestion, selectedAnswer := false, 0, None;
      score, quizCompleted, showAnswer := 0, false, false;
      answers := [];
    }

    /** `handleAnswerSelect(answer)` followed by its delayed advance, taken as
        one step: ignored once an answer is selected; otherwise the score
        grows by one exactly for the right answer, and the quiz moves to the
        next question or, after the last one, is completed. */
    method AnswerSelect(answer: string)
      requires Valid()
      modifies this
      ensures Valid() && showQuiz == old(showQuiz)
      ensures old(selectedAnswer).Some? ==>
        && currentQuestion == old(currentQuestion) && score == old(score)
        && selectedAnswer == old(selectedAnswer) && quizCompleted == old(quizCompleted)
        && showAnswer == old(showAnswer)
      ensures old(selectedAnswer).None? ==>
        && score == old(score) + (if answer == Questions[old(currentQuestion)].correctAnswer then 1 else 0)
        && answers == old(answers) + [answer]
      ensures old(selectedAnswer).None? && old(currentQuestion) < |Questions| - 1 ==>
        currentQuestion == old(currentQuestion) + 1 && selectedAnswer == None && !showAnswer && !quizCompleted
      ensures old(selectedAnswer).None? && old(currentQuestion) == |Questions| - 1 ==>
        currentQuestion == old(currentQuestion) && selectedAnswer == Some(answer) && showAnswer && quizCompleted
    {
      if selectedAnswer.Some? {
        return;
      }
      selectedAnswer := Some(answer);
      showAnswer := true;
      answers := answers + [answer];
      assert answers[..currentQuestion] == old(answers);
      if answer == Questions[currentQuestion].correctAnswer {
        score := score + 1;
      }
      if currentQuestion < |Questions| - 1 {
        currentQuestion := currentQuestion + 1;
        selectedAnswer := None;
        showAnswer := false;
      } else {
        quizCompleted := true;
      }
    }
  }

  /** Answering every question correctly, and only then, scores 5. */
  lemma {:induction false} PerfectIffAllCorrect(answers: seq<string>)
    requires |answers| <= |Questions|
    ensures CorrectCount(answers) == |answers| <==>
      forall k :: 0 <= k < |answers| ==> answers[k] == Questions[k].correctAnswer
  {
    if answers != [] {
      var k := |answers| - 1;
      PerfectIffAllCorrect(answers[..k]);
      assert forall i :: 0 <= i < k ==> answers[..k][i] == answers[i];
    }
  }
}
