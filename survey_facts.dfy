/** Properties of the survey as a whole: what a quit does, what input is
    read, case-insensitivity, and which totals and profiles can come out. */
module SurveyFacts {
  import opened Wrappers
  import opened Weights
  import opened Risk
  import opened Console
  import opened Survey

  /** Reading `k + m` questions is reading `k` and then, unless the user
      quit, `m` more from where the first `k` stopped. */
  lemma {:induction false} CollectSplit(input: seq<string>, pos: nat, k: nat, m: nat)
    requires pos <= |input|
    requires Collect(input, pos, k).Some? && !Collect(input, pos, k).value.quit
    decreases k
    ensures Collect(input, pos, k + m)
         == Prepend(Collect(input, pos, k).value.choices, Collect(input, Collect(input, pos, k).value.next, m))
  {
    if k == 0 {
      PrependNothing(Collect(input, pos, m));
    } else {
      var reply := Ask(input, pos);
      assert reply.Chosen?;
      var c, next := reply.choice, reply.next;
      var first, whole := Collect(input, pos, k), Collect(input, pos, k + m);
      CollectChosenNext(input, pos, k);
      assert first == Prepend([c], Collect(input, next, k - 1));
      CollectChosenNext(input, pos, k + m);
      var rest := Collect(input, next, k - 1 + m);
      assert whole == Prepend([c], rest);
      CollectSplit(input, next, k - 1, m);
      var inner := Collect(input, next, k - 1);
      var tail := Collect(input, inner.value.next, m);
      assert rest == Prepend(inner.value.choices, tail);
      PrependChain(c, first, inner, whole, rest, tail);
    }
  }

  /** The bookkeeping step of `CollectSplit`, on transcripts alone. */
  lemma PrependChain(c: string, first: Option<Transcript>, inner: Option<Transcript>,
                     whole: Option<Transcript>, rest: Option<Transcript>, tail: Option<Transcript>)
    requires inner.Some? && first == Prepend([c], inner)
    requires whole == Prepend([c], rest) && rest == Prepend(inner.value.choices, tail)
    ensures first.Some? && whole == Prepend(first.value.choices, tail)
  {
    PrependAssociates([c], inner.value.choices, tail);
  }

  /** Typing `q` at the first prompt of a question, after `k` answered ones,
      ends the survey: nothing is added for that question or any later one,
      and the partial total is still classified. */
  lemma QuitStopsSurvey(input: seq<string>, samples: seq<Option<string>>, k: nat)
    requires |samples| == QuestionCount && k < QuestionCount
    requires Collect(input, 0, k).Some? && !Collect(input, 0, k).value.quit
    requires Collect(input, 0, k).value.next < |input|
    requires Lower(input[Collect(input, 0, k).value.next]) == "q"
    ensures (var answers := Collect(input, 0, k).value.choices;
             Run(input, samples)
             == Success(Report(Total(answers, samples), k, true, ClassifyInvestmentType(Total(answers, samples)))))
  {
    var t := Collect(input, 0, k).value;
    CollectSplit(input, 0, k, QuestionCount - k);
    CollectQuitStep(input, t.next, QuestionCount - k, t.choices);
  }

  /** The converse of `QuitStopsSurvey` for any stretch of questions: a
      reading that ends in a quit stopped at a `q`. */
  lemma {:induction false} QuitMeansQ(input: seq<string>, pos: nat, n: nat)
    requires pos <= |input|
    requires Collect(input, pos, n).Some? && Collect(input, pos, n).value.quit
    decreases n
    ensures EndsAtQuit(input, pos, n, Collect(input, pos, n).value)
  {
    var t := Collect(input, pos, n).value;
    var reply := Ask(input, pos);
    if reply.Chosen? {
      CollectChosenNext(input, pos, n);
      QuitMeansQ(input, reply.next, n - 1);
      CollectChosenNext(input, pos, |t.choices|);
    } else {
      CollectStopsAt(input, pos, n);
    }
  }

  /** `t`, read from `pos` for `n` questions, stopped at a `q`: it has fewer
      than `n` answers, its last line read is `q`, and the answers before it
      were read without a quit up to the line just before that `q`. */
  ghost predicate EndsAtQuit(input: seq<string>, pos: nat, n: nat, t: Transcript)
    requires pos <= |input|
  {
    && |t.choices| < n
    && pos < t.next <= |input|
    && Lower(input[t.next - 1]) == "q"
    && Collect(input, pos, |t.choices|) == Some(Transcript(t.choices, false, t.next - 1))
  }

  /** A survey reports a quit only when, after some `k` answered questions,
      the first prompt of question `k + 1` read `q`: exactly the situation
      of `QuitStopsSurvey`. */
  lemma QuitOnlyByQ(input: seq<string>, samples: seq<Option<string>>)
    requires |samples| == QuestionCount
    requires Run(input, samples).Success? && Run(input, samples).value.quit
    ensures (var k := Run(input, samples).value.answered;
             && k < QuestionCount
             && Collect(input, 0, k).Some? && !Collect(input, 0, k).value.quit
             && Collect(input, 0, k).value.next < |input|
             && Lower(input[Collect(input, 0, k).value.next]) == "q")
  {
    RunQuitTranscript(input, samples);
    var t := Collect(input, 0, QuestionCount).value;
    QuitMeansQ(input, 0, QuestionCount);
    assert EndsAtQuit(input, 0, QuestionCount, t);
    var before := Collect(input, 0, |t.choices|);
    assert before.value.next == t.next - 1;
    var line := input[t.next - 1];
    assert input[before.value.next] == line && Lower(line) == "q";
  }

  /** After `k` answered questions read from `pos` without a quit, the next
      question's first prompt finds no more input: where `input()` raises. */
  ghost predicate RunsOutAt(input: seq<string>, pos: nat, k: nat)
    requires pos <= |input|
  {
    && Collect(input, pos, k).Some?
    && !Collect(input, pos, k).value.quit
    && Ask(input, Collect(input, pos, k).value.next).EndOfInput?
  }

  /** A reading of `n` questions fails only because some question, after
      the earlier ones were answered, runs out of input. */
  lemma {:induction false} NoneMeansExhausted(input: seq<string>, pos: nat, n: nat)
    requires pos <= |input| && Collect(input, pos, n).None?
    decreases n
    ensures exists k :: 0 <= k < n && RunsOutAt(input, pos, k)
  {
    var reply := Ask(input, pos);
    if reply.Chosen? {
      CollectChosenNext(input, pos, n);
      NoneMeansExhausted(input, reply.next, n - 1);
      var k :| 0 <= k < n - 1 && RunsOutAt(input, reply.next, k);
      CollectChosenNext(input, pos, k + 1);
      assert RunsOutAt(input, pos, k + 1);
    } else {
      CollectStopsAt(input, pos, n);
      assert RunsOutAt(input, pos, 0);
    }
  }

  /** Conversely, running out of input before question `n` fails the reading. */
  lemma ExhaustedMeansNone(input: seq<string>, pos: nat, n: nat, k: nat)
    requires pos <= |input| && k < n && RunsOutAt(input, pos, k)
    ensures Collect(input, pos, n).None?
  {
    var t := Collect(input, pos, k).value;
    CollectSplit(input, pos, k, n - k);
    CollectStopsAt(input, t.next, n - k);
  }

  /** The survey fails exactly when the input ends at the first prompt of
      some question whose predecessors were all answered. */
  lemma RunFailsOnlyAtEnd(input: seq<string>, samples: seq<Option<string>>)
    requires |samples| == QuestionCount
    ensures Run(input, samples).Failure? <==> exists k :: 0 <= k < QuestionCount && RunsOutAt(input, 0, k)
  {
    if Run(input, samples).Failure? {
      NoneMeansExhausted(input, 0, QuestionCount);
    } else if k :| 0 <= k < QuestionCount && RunsOutAt(input, 0, k) {
      ExhaustedMeansNone(input, 0, QuestionCount, k);
    }
  }

  /** A quitting survey's report comes from a quitting transcript. */
  lemma RunQuitTranscript(input: seq<string>, samples: seq<Option<string>>)
    requires |samples| == QuestionCount
    requires Run(input, samples).Success? && Run(input, samples).value.quit
    ensures Collect(input, 0, QuestionCount).Some? && Collect(input, 0, QuestionCount).value.quit
    ensures Run(input, samples).value.answered == |Collect(input, 0, QuestionCount).value.choices|
  {
  }

  /** Quitting at the very first prompt scores 0 and so classifies as
      risk-neutral. */
  lemma QuitAtOnceIsRiskNeutral(input: seq<string>, samples: seq<Option<string>>)
    requires |samples| == QuestionCount
    requires 0 < |input| && (input[0] == "q" || input[0] == "Q")
    ensures Run(input, samples) == Success(Report(0, 0, true, RiskNeutral))
  {
    QuitIsCaseInsensitive(input[0]);
    QuitStopsSurvey(input, samples, 0);
  }

  /** The survey reads no line past the last one it needs: whatever follows
      (in particular anything after a quit) does not change the outcome. */
  lemma {:induction false} CollectReadsNoFurther(a: seq<string>, b: seq<string>, pos: nat, n: nat)
    requires pos <= |a| && pos <= |b|
    requires Collect(a, pos, n).Some?
    requires AgreeUpTo(a, b, Collect(a, pos, n).value.next)
    ensures Collect(b, pos, n) == Collect(a, pos, n)
    decreases n
  {
    if n > 0 {
      AskReadsNoFurther(a, b, pos);
      var reply := Ask(a, pos);
      if reply.Chosen? {
        CollectChosenNext(a, pos, n);
        CollectReadsNoFurther(a, b, reply.next, n - 1);
        CollectChosenNext(b, pos, n);
      }
    }
  }

  /** After an accepted answer the rest of the survey ends where the whole does. */
  lemma CollectChosenNext(input: seq<string>, pos: nat, n: nat)
    requires pos <= |input| && 0 < n && Ask(input, pos).Chosen?
    ensures Collect(input, pos, n)
         == Prepend([Ask(input, pos).choice], Collect(input, Ask(input, pos).next, n - 1))
  {
  }

  /** A question that is not answered ends the reading: with a quit, or
      with a failure at the end of the input. */
  lemma CollectStopsAt(input: seq<string>, pos: nat, n: nat)
    requires pos <= |input| && 0 < n && !Ask(input, pos).Chosen?
    ensures Collect(input, pos, n)
         == if Ask(input, pos).Quit? then Some(Transcript([], true, pos + 1)) else None
  {
  }

  lemma RunIgnoresTrailingInput(input: seq<string>, rest: seq<string>, samples: seq<Option<string>>)
    requires |samples| == QuestionCount
    requires Collect(input, 0, QuestionCount).Some?
    ensures (var used := Collect(input, 0, QuestionCount).value.next;
             Run(input[..used] + rest, samples) == Run(input, samples))
  {
    var used := Collect(input, 0, QuestionCount).value.next;
    CollectReadsNoFurther(input, input[..used] + rest, 0, QuestionCount);
  }

  lemma {:induction false} CollectCaseInsensitive(a: seq<string>, b: seq<string>, pos: nat, n: nat)
    requires SameLowered(a, b) && pos <= |a|
    ensures Collect(a, pos, n) == Collect(b, pos, n)
    decreases n
  {
    if n > 0 {
      AskCaseInsensitive(a, b, pos);
      var reply := Ask(a, pos);
      if reply.Chosen? {
        CollectChosenNext(a, pos, n);
        CollectChosenNext(b, pos, n);
        CollectCaseInsensitive(a, b, reply.next, n - 1);
      } else {
        CollectStopsAt(a, pos, n);
        CollectStopsAt(b, pos, n);
      }
    }
  }

  /** Lines that differ only in the case of ASCII letters (`A` for `a`, `Q`
      for `q`) give the same survey outcome. */
  lemma RunCaseInsensitive(a: seq<string>, b: seq<string>, samples: seq<Option<string>>)
    requires |samples| == QuestionCount && SameLowered(a, b)
    ensures Run(a, samples) == Run(b, samples)
  {
    CollectCaseInsensitive(a, b, 0, QuestionCount);
  }

  /** An example: an invalid line followed by `q` is re-prompted, not
      quit, so these seven lines give the same survey as five `c`. */
  lemma QuitAtRepromptIsIgnored(samples: seq<Option<string>>)
    requires |samples| == QuestionCount
    ensures Run(["x", "q"] + Repeat("c", 5), samples) == Run(Repeat("c", 5), samples)
  {
    var input := ["x", "q"] + Repeat("c", 5);
    LowerOfChoice("c");
    assert Lower("x")[0] == 'x' && Lower("q")[0] == 'q';
    assert Lower(input[0]) != "q" && Lower(input[0]) !in ValidChoices && Lower(input[1]) !in ValidChoices;
    assert Reprompt(input, 1) == Reprompt(input, 2) == Chosen("c", 3);
    assert Ask(input, 0) == Chosen("c", 3);
    AllSameChoice(input, 3, "c", 4);
    assert Collect(input, 0, QuestionCount) == Prepend(["c"], Collect(input, 3, 4));
    assert ["c"] + Repeat("c", 4) == Repeat("c", 5);
    AllSameChoice(Repeat("c", 5), 0, "c", 5);
  }

  lemma LowerOfChoice(c: string)
    requires c in ValidChoices
    ensures Lower(c) == c
  {
    assert |c| == 1 && Lower(c)[0] == c[0];
  }

  /** `n` copies of `x`. */
  function Repeat<T>(x: T, n: nat): (s: seq<T>)
    ensures |s| == n && forall i :: 0 <= i < n ==> s[i] == x
  {
    seq(n, _ => x)
  }

  /** Lines that all give the same accepted letter are each read as one answer. */
  lemma {:induction false} AllSameChoice(input: seq<string>, pos: nat, c: string, n: nat)
    requires c in ValidChoices && pos + n <= |input|
    requires forall j :: pos <= j < pos + n ==> input[j] == c
    ensures Collect(input, pos, n) == Some(Transcript(Repeat(c, n), false, pos + n))
    decreases n
  {
    if n > 0 {
      LowerOfChoice(c);
      assert Ask(input, pos) == Chosen(c, pos + 1);
      AllSameChoice(input, pos + 1, c, n - 1);
      assert [c] + Repeat(c, n - 1) == Repeat(c, n);
    }
  }

  lemma {:induction false} TotalOfSame(c: string, s: Option<string>, n: nat, samples: seq<Option<string>>)
    requires n <= |samples| && forall i :: 0 <= i < n ==> samples[i] == s
    ensures Total(Repeat(c, n), samples) == n * QuestionScore(c, s)
    decreases n
  {
    if n > 0 {
      var x := QuestionScore(c, s);
      assert Total(Repeat(c, n), samples) == Total(Repeat(c, n - 1), samples) + x by {
        assert Repeat(c, n)[..n - 1] == Repeat(c, n - 1);
      }
      TotalOfSame(c, s, n - 1, samples);
      MultiplyStep(n, x);
    }
  }

  lemma MultiplyStep(n: nat, x: int)
    requires n > 0
    ensures (n - 1) * x + x == n * x
  {
  }

  /** Five identical answers under one unchanging emotion score five times
      that question's score. */
  lemma UniformRun(c: string, s: Option<string>)
    requires c in ValidChoices
    ensures (var total := QuestionCount * QuestionScore(c, s);
             Run(Repeat(c, QuestionCount), Repeat(s, QuestionCount))
             == Success(Report(total, QuestionCount, false, ClassifyInvestmentType(total))))
  {
    AllSameChoice(Repeat(c, QuestionCount), 0, c, QuestionCount);
    TotalOfSame(c, s, QuestionCount, Repeat(s, QuestionCount));
  }

  /** The bounds [-25, 15] of a completed survey are attained: all `a`
      under `fear`, and all `e` under `happy`. */
  lemma ExtremeTotalsAttained()
    ensures Run(Repeat("a", 5), Repeat(Some("fear"), 5)) == Success(Report(-25, 5, false, Stable))
    ensures Run(Repeat("e", 5), Repeat(Some("happy"), 5)) == Success(Report(15, 5, false, Aggressive))
  {
    assert QuestionScore("a", Some("fear")) == -5;
    UniformRun("a", Some("fear"));
    assert QuestionScore("e", Some("happy")) == 3;
    UniformRun("e", Some("happy"));
  }

  /** Each of the five profiles is the outcome of some completed survey. */
  lemma EveryProfileReachable(kind: InvestmentType)
    ensures exists input, samples ::
              && |samples| == QuestionCount
              && Run(input, samples).Success?
              && !Run(input, samples).value.quit
              && Run(input, samples).value.kind == kind
  {
    var c, s;
    match kind {
    case Stable =>
      c, s := "a", Some("fear");
      assert QuestionScore(c, s) == -5;
    case StabilitySeeking =>
      c, s := "b", None;
      assert QuestionScore(c, s) == -1;
    case RiskNeutral =>
      c, s := "c", None;
      assert QuestionScore(c, s) == 0;
    case Active =>
      c, s := "d", None;
      assert QuestionScore(c, s) == 1;
    case Aggressive =>
      c, s := "e", None;
      assert QuestionScore(c, s) == 2;
    }
    UniformRun(c, s);
    var input, samples := Repeat(c, QuestionCount), Repeat(s, QuestionCount);
    assert Run(input, samples).value.kind == kind;
  }
}
