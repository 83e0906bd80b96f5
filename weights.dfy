/** The two fixed weight tables of the survey and the per-question score
    built from them (emotion.py, lines 28-32 and 82-88). */
module Weights {
  import opened Wrappers

  /** The letters the re-prompt loop accepts, in the order the options are listed. */
  const ValidChoices: seq<string> := ["a", "b", "c", "d", "e"]

  /** `answer_weights`: the score of each answer letter. */
  const AnswerWeights: map<string, int> :=
    map["a" := -2, "b" := -1, "c" := 0, "d" := 1, "e" := 2]

  /** `emotion_weights`: the score of each emotion name the detector reports. */
  const EmotionWeights: map<string, int> :=
    map["happy" := 1, "neutral" := 0, "sad" := -1, "angry" := -2,
        "fear" := -3, "surprise" := 0, "disgust" := -2]

  /** The name scored when no emotion has been observed yet. */
  const DefaultEmotion: string := "neutral"

  /** Python's `d.get(key, default)` on a string-keyed table. */
  function Get(m: map<string, int>, key: string, default: int): int
  {
    if key in m then m[key] else default
  }

  /** `answer_weights.get(select, 0)` */
  function AnswerScore(select: string): (r: int)
    ensures -2 <= r <= 2
    ensures select in AnswerWeights ==> r == AnswerWeights[select]
    ensures select !in AnswerWeights ==> r == 0
  {
    Get(AnswerWeights, select, 0)
  }

  /** `emotion_weights.get(current_emotion, 0)` */
  function EmotionScore(name: string): (r: int)
    ensures -3 <= r <= 1
    ensures name in EmotionWeights ==> r == EmotionWeights[name]
    ensures name !in EmotionWeights ==> r == 0
  {
    Get(EmotionWeights, name, 0)
  }

  /** `emotion or 'neutral'`: Python treats both a missing value and the
      empty string as false, so both fall back to the default name. */
  function CurrentEmotion(sample: Option<string>): (name: string)
    ensures name != ""
    ensures sample.Some? && sample.value != "" ==> name == sample.value
    ensures sample.None? || sample.value == "" ==> name == DefaultEmotion
  {
    match sample
    case None => DefaultEmotion
    case Some(e) => if e == "" then DefaultEmotion else e
  }

  /** `combined_score`: what one answered question adds to the total. */
  function QuestionScore(select: string, sample: Option<string>): (r: int)
    ensures -5 <= r <= 3
    ensures select in ValidChoices ==>
              r == EmotionScore(CurrentEmotion(sample)) + AnswerWeights[select]
  {
    ChoicesAreWeighted();
    EmotionScore(CurrentEmotion(sample)) + AnswerScore(select)
  }

  /** The answer weights rise strictly with the letter, from -2 for `a` to
      2 for `e`, and the table has exactly the accepted letters as keys. */
  lemma AnswerWeightsAscending()
    ensures AnswerWeights.Keys == set c | c in ValidChoices
    ensures forall i :: 0 <= i < |ValidChoices| ==>
              ValidChoices[i] in AnswerWeights && AnswerWeights[ValidChoices[i]] == i - 2
    ensures forall i, j :: 0 <= i < j < |ValidChoices| ==>
              AnswerWeights[ValidChoices[i]] < AnswerWeights[ValidChoices[j]]
  {
    ChoicesAreWeighted();
  }

  /** Every letter the validation loop lets through is a key of the answer
      table, so the `0` default of `.get` is never used for an accepted answer. */
  lemma ChoicesAreWeighted()
    ensures forall c :: c in ValidChoices ==> c in AnswerWeights
    ensures forall c :: c in ValidChoices ==> AnswerScore(c) == AnswerWeights[c]
  {
  }

  /** A question asked before any emotion is observed, or with the empty
      label, is scored as `neutral`, weight 0. */
  lemma NoEmotionScoresZero()
    ensures CurrentEmotion(None) == "neutral" && CurrentEmotion(Some("")) == "neutral"
    ensures EmotionScore(CurrentEmotion(None)) == 0
    ensures EmotionScore(CurrentEmotion(Some(""))) == 0
  {
  }

  /** Any name outside the table also scores 0, as do the cases of
      `NoEmotionScoresZero`. */
  lemma MissingEmotionScoresZero(name: string)
    requires name !in EmotionWeights
    ensures CurrentEmotion(None) == "neutral"
    ensures EmotionScore(CurrentEmotion(None)) == 0
    ensures EmotionScore(CurrentEmotion(Some(""))) == 0
    ensures EmotionScore(CurrentEmotion(Some(name))) == 0
  {
    NoEmotionScoresZero();
  }

  /** The emotion weights span [-3, 1]: `fear` is the lowest, `happy` the highest. */
  lemma EmotionWeightsRange()
    ensures forall l :: l in EmotionWeights ==> EmotionWeights["fear"] <= EmotionWeights[l] <= EmotionWeights["happy"]
    ensures EmotionWeights["fear"] == -3 && EmotionWeights["happy"] == 1
  {
  }
}
