/** The survey loop of `ask_questions` (emotion.py, lines 65-93): five
    questions, each scored by its answer and the emotion observed when it
    is answered, then the total classified. */
module Survey {
  import opened Wrappers
  import opened Weights
  import opened Risk
  import opened Console

  /** The survey has five questions, each with options `a`..`e`; their text
      is display-only. */
  const QuestionCount: nat := 5

  /** The answers given, whether the user quit, and the next unread line. */
  datatype Transcript = Transcript(choices: seq<string>, quit: bool, next: nat)

  /** Puts answers given earlier in front of those of a later stretch. */
  function Prepend(earlier: seq<string>, rest: Option<Transcript>): Option<Transcript>
  {
    match rest
    case None => None
    case Some(t) => Some(t.(choices := earlier + t.choices))
  }

  /** The answers to `n` questions read from `pos` on: stops early, with
      nothing more read, at a quit; `None` when the input runs out. */
  function Collect(input: seq<string>, pos: nat, n: nat): (r: Option<Transcript>)
    requires pos <= |input|
    decreases n
    ensures r.Some? ==>
              && pos <= r.value.next <= |input|
              && |r.value.choices| <= n
              && (!r.value.quit ==> |r.value.choices| == n)
              && (forall c :: c in r.value.choices ==> c in ValidChoices)
  {
    if n == 0 then Some(Transcript([], false, pos))
    else match Ask(input, pos)
      case EndOfInput => None
      case Quit(next) => Some(Transcript([], true, next))
      case Chosen(c, next) => Prepend([c], Collect(input, next, n - 1))
  }

  /** `total_score` after the given answers, question `i` scored with the
      emotion sampled when it was answered. */
  function Total(choices: seq<string>, samples: seq<Option<string>>): (t: int)
    requires |choices| <= |samples|
    ensures -5 * |choices| <= t <= 3 * |choices|
  {
    if choices == [] then 0
    else
      var k := |choices| - 1;
      Total(choices[..k], samples) + QuestionScore(choices[k], samples[k])
  }

  /** What the survey reports: the total, how many questions were answered,
      whether the user quit, and the profile the total is classified as. */
  datatype Report = Report(total: int, answered: nat, quit: bool, kind: InvestmentType)

  /** Python's `input()` raises at the end of the input, before any
      classification. */
  datatype SurveyError = InputExhausted

  /** The whole survey over the typed lines and the per-question emotion samples. */
  function Run(input: seq<string>, samples: seq<Option<string>>): (r: Result<Report, SurveyError>)
    requires |samples| == QuestionCount
    ensures r.Success? ==>
              && r.value.answered <= QuestionCount
              && -5 * r.value.answered <= r.value.total <= 3 * r.value.answered
              && (!r.value.quit ==> r.value.answered == QuestionCount && -25 <= r.value.total <= 15)
              && r.value.kind == ClassifyInvestmentType(r.value.total)
  {
    match Collect(input, 0, QuestionCount)
    case None => Failure(InputExhausted)
    case Some(t) =>
      var total := Total(t.choices, samples);
      Success(Report(total, |t.choices|, t.quit, ClassifyInvestmentType(total)))
  }

  lemma PrependAssociates(a: seq<string>, b: seq<string>, rest: Option<Transcript>)
    ensures Prepend(a, Prepend(b, rest)) == Prepend(a + b, rest)
  {
    if rest.Some? {
      assert a + (b + rest.value.choices) == (a + b) + rest.value.choices;
    }
  }

  lemma PrependNothing(rest: Option<Transcript>)
    ensures Prepend([], rest) == rest
  {
    if rest.Some? {
      assert [] + rest.value.choices == rest.value.choices;
    }
  }

  /** One more question answered: its letter joins the earlier answers and
      the remaining questions are read from the next line. */
  lemma CollectChosenStep(input: seq<string>, pos: nat, n: nat, earlier: seq<string>)
    requires pos <= |input| && 0 < n && Ask(input, pos).Chosen?
    ensures Prepend(earlier, Collect(input, pos, n))
         == Prepend(earlier + [Ask(input, pos).choice], Collect(input, Ask(input, pos).next, n - 1))
  {
    PrependAssociates(earlier, [Ask(input, pos).choice], Collect(input, Ask(input, pos).next, n - 1));
  }

  /** A quit at a question's first prompt ends the survey with the answers
      given so far. */
  lemma CollectQuitStep(input: seq<string>, pos: nat, n: nat, earlier: seq<string>)
    requires pos <= |input| && 0 < n && Ask(input, pos).Quit?
    ensures Prepend(earlier, Collect(input, pos, n)) == Some(Transcript(earlier, true, pos + 1))
  {
    assert earlier + [] == earlier;
  }

  /** Running out of input fails the whole survey. */
  lemma CollectEndStep(input: seq<string>, pos: nat, n: nat, earlier: seq<string>)
    requires pos <= |input| && 0 < n && Ask(input, pos).EndOfInput?
    ensures Prepend(earlier, Collect(input, pos, n)) == None
  {
  }

  /** With every question answered, nothing is left to read. */
  lemma CollectDoneStep(input: seq<string>, pos: nat, earlier: seq<string>)
    requires pos <= |input|
    ensures Prepend(earlier, Collect(input, pos, 0)) == Some(Transcript(earlier, false, pos))
  {
    assert earlier + [] == earlier;
  }

  /** The survey's outcome is determined by the answers it collected. */
  lemma RunOfTranscript(input: seq<string>, samples: seq<Option<string>>, t: Transcript)
    requires |samples| == QuestionCount
    requires Collect(input, 0, QuestionCount) == Some(t)
    ensures |t.choices| <= QuestionCount
    ensures Run(input, samples)
         == Success(Report(Total(t.choices, samples), |t.choices|, t.quit,
                           ClassifyInvestmentType(Total(t.choices, samples))))
  {
  }

  /** Answering one more question adds exactly its combined score. */
  lemma TotalStep(choices: seq<string>, c: string, samples: seq<Option<string>>)
    requires |choices| < |samples|
    ensures Total(choices + [c], samples) == Total(choices, samples) + QuestionScore(c, samples[|choices|])
  {
    assert (choices + [c])[..|choices|] == choices;
  }

  /** One question's prompting (lines 74-80): the first line quits on `q`;
      otherwise lines are read until one is a letter `a`..`e`. */
  method ReadAnswer(input: seq<string>, pos: nat) returns (reply: Reply)
    requires pos <= |input|
    ensures reply == Ask(input, pos)
  {
    if pos == |input| {
      return EndOfInput;
    }
    var select := Lower(input[pos]);
    var next := pos + 1;
    if select == "q" {
      return Quit(next);
    }
    while select !in ValidChoices
      invariant pos < next <= |input|
      invariant select == Lower(input[next - 1])
      invariant Reprompt(input, next - 1) == Ask(input, pos)
      decreases |input| - next
    {
      if next == |input| {
        return EndOfInput;
      }
      select := Lower(input[next]);
      next := next + 1;
    }
    reply := Chosen(select, next);
  }

  /** The question loop: for each question one answer is read (a `q` at the
      first prompt ends the loop); the emotion sample of that question and
      the answer are scored and added to the running total, which is
      finally classified, after a quit as well. */
  method AskQuestions(input: seq<string>, samples: seq<Option<string>>)
    returns (r: Result<Report, SurveyError>)
    requires |samples| == QuestionCount
    ensures r == Run(input, samples)
  {
    var totalScore := 0;
    var pos: nat := 0;
    var answered := 0;
    var quit := false;
    ghost var choices: seq<string> := [];
    PrependNothing(Collect(input, 0, QuestionCount));
    for idx := 0 to QuestionCount
      invariant pos <= |input|
      invariant answered == idx == |choices|
      invariant totalScore == Total(choices, samples)
      invariant Collect(input, 0, QuestionCount) == Prepend(choices, Collect(input, pos, QuestionCount - idx))
    {
      var reply := ReadAnswer(input, pos);
      if reply.EndOfInput? {
        CollectEndStep(input, pos, QuestionCount - idx, choices);
        return Failure(InputExhausted);
      }
      if reply.Quit? {
        CollectQuitStep(input, pos, QuestionCount - idx, choices);
        pos := reply.next;
        quit := true;
        break;
      }
      CollectChosenStep(input, pos, QuestionCount - idx, choices);
      var select := reply.choice;
      pos := reply.next;

      var currentEmotion := CurrentEmotion(samples[idx]);
      var emotionScore := EmotionScore(currentEmotion);
      var answerScore := AnswerScore(select);
      var combinedScore := emotionScore + answerScore;
      TotalStep(choices, select, samples);
      totalScore := totalScore + combinedScore;
      choices := choices + [select];
      answered := answered + 1;
    }
    if !quit {
      CollectDoneStep(input, pos, choices);
    }
    RunOfTranscript(input, samples, Transcript(choices, quit, pos));
    r := Success(Report(totalScore, answered, quit, ClassifyInvestmentType(totalScore)));
  }
}
