/** How one question reads its answer from the console (emotion.py, lines
    74-80): the typed lines are an explicit sequence and a cursor into it. */
module Console {
  import opened Weights

  /** Python's `str.lower()` on one character, for the ASCII letters. */
  function LowerChar(c: char): (r: char)
    ensures 'A' <= c <= 'Z' ==> r as int == c as int + 32
    ensures !('A' <= c <= 'Z') ==> r == c
    ensures !('A' <= r <= 'Z')
  {
    if 'A' <= c <= 'Z' then (c as int + 32) as char else c
  }

  /** `.lower()` applied to a whole line. */
  function Lower(s: string): (r: string)
    ensures |r| == |s|
    ensures forall i :: 0 <= i < |s| ==> r[i] == LowerChar(s[i])
  {
    seq(|s|, i requires 0 <= i < |s| => LowerChar(s[i]))
  }

  /** What prompting for one question yields: an accepted letter and the
      position of the next unread line, a quit, or the end of the input
      (where Python's `input()` raises). */
  datatype Reply = Chosen(choice: string, next: nat) | Quit(next: nat) | EndOfInput

  /** No line from `lo` up to (not including) `hi` is an accepted letter. */
  ghost predicate NoChoiceIn(input: seq<string>, lo: nat, hi: nat)
    requires hi <= |input|
  {
    forall j :: lo <= j < hi ==> Lower(input[j]) !in ValidChoices
  }

  /** The re-prompt loop (lines 79-80): the first line at or after `pos`
      whose lower-cased form is an accepted letter. A `q` here is just
      another invalid line. */
  function Reprompt(input: seq<string>, pos: nat): (r: Reply)
    decreases |input| - pos
    ensures !r.Quit?
    ensures r.Chosen? ==>
              && pos < r.next <= |input|
              && r.choice in ValidChoices
              && r.choice == Lower(input[r.next - 1])
              && NoChoiceIn(input, pos, r.next - 1)
    ensures r.EndOfInput? ==>
              NoChoiceIn(input, pos, |input|)
  {
    if pos >= |input| then EndOfInput
    else if Lower(input[pos]) in ValidChoices then Chosen(Lower(input[pos]), pos + 1)
    else Reprompt(input, pos + 1)
  }

  /** One question's input (lines 74-80): the first line quits when it reads
      `q` in any case; otherwise it is validated, re-prompting until a letter
      `a`..`e` arrives. */
  function Ask(input: seq<string>, pos: nat): (r: Reply)
    ensures r.Quit? <==> pos < |input| && Lower(input[pos]) == "q"
    ensures r.Quit? ==> r.next == pos + 1
    ensures r.Chosen? ==>
              && pos < r.next <= |input|
              && r.choice in ValidChoices
              && r.choice == Lower(input[r.next - 1])
              && NoChoiceIn(input, pos, r.next - 1)
    ensures r.EndOfInput? ==>
              NoChoiceIn(input, pos, |input|)
  {
    if pos >= |input| then EndOfInput
    else if Lower(input[pos]) == "q" then Quit(pos + 1)
    else Reprompt(input, pos)
  }

  /** A line quits exactly when it is `q` or `Q`. */
  lemma QuitIsCaseInsensitive(s: string)
    ensures Lower(s) == "q" <==> s == "q" || s == "Q"
  {
    if Lower(s) == "q" {
      assert |s| == 1 && LowerChar(s[0]) == 'q';
      assert s == [s[0]];
    }
  }

  /** A line is accepted exactly when it is one of `a`..`e` in either case,
      and the accepted letter is its lower-case form. */
  lemma ChoiceIsCaseInsensitive(s: string)
    ensures Lower(s) in ValidChoices <==> s in ["a", "b", "c", "d", "e", "A", "B", "C", "D", "E"]
  {
    if |s| == 1 {
      var c := s[0];
      assert s == [c];
      assert Lower(s) == [LowerChar(c)];
      assert Lower(s) in ValidChoices <==> LowerChar(c) in "abcde";
      assert LowerChar(c) in "abcde" <==> c in "abcdeABCDE";
    } else {
      assert forall v :: v in ValidChoices ==> |v| == 1;
    }
  }

  /** A `q` typed at the re-prompt does not quit: it is skipped like any
      other invalid line. */
  lemma RepromptSkipsQuit(input: seq<string>, pos: nat)
    requires pos < |input| && Lower(input[pos]) == "q"
    ensures Reprompt(input, pos) == Reprompt(input, pos + 1)
    ensures !Reprompt(input, pos).Quit?
  {
  }

  /** An invalid first line followed by `q` does not quit: the `q` is read
      by the re-prompt loop, which goes on to the lines after it. */
  lemma QuitAfterInvalidLineIsSkipped(input: seq<string>, pos: nat)
    requires pos + 1 < |input|
    requires Lower(input[pos]) != "q" && Lower(input[pos]) !in ValidChoices
    requires Lower(input[pos + 1]) == "q"
    ensures Ask(input, pos) == Reprompt(input, pos + 2)
    ensures !Ask(input, pos).Quit?
  {
    RepromptSkipsQuit(input, pos + 1);
  }

  /** Lines that read the same once lower-cased. */
  ghost predicate SameLowered(a: seq<string>, b: seq<string>)
  {
    |a| == |b| && forall i {:trigger Lower(a[i])} :: 0 <= i < |a| ==> Lower(a[i]) == Lower(b[i])
  }

  lemma {:induction false} RepromptCaseInsensitive(a: seq<string>, b: seq<string>, pos: nat)
    requires SameLowered(a, b)
    ensures Reprompt(a, pos) == Reprompt(b, pos)
    decreases |a| - pos
  {
    if pos < |a| && Lower(a[pos]) !in ValidChoices {
      RepromptCaseInsensitive(a, b, pos + 1);
    }
  }

  /** Upper- and lower-case answers are read the same way. */
  lemma AskCaseInsensitive(a: seq<string>, b: seq<string>, pos: nat)
    requires SameLowered(a, b)
    ensures Ask(a, pos) == Ask(b, pos)
  {
    RepromptCaseInsensitive(a, b, pos);
  }

  /** Lines that agree up to `n`. */
  ghost predicate AgreeUpTo(a: seq<string>, b: seq<string>, n: nat)
  {
    n <= |a| && n <= |b| && forall i :: 0 <= i < n ==> a[i] == b[i]
  }

  /** The re-prompt loop reads no line past the one it accepts. */
  lemma {:induction false} RepromptReadsNoFurther(a: seq<string>, b: seq<string>, pos: nat)
    requires Reprompt(a, pos).Chosen?
    requires AgreeUpTo(a, b, Reprompt(a, pos).next)
    ensures Reprompt(b, pos) == Reprompt(a, pos)
    decreases |a| - pos
  {
    if Lower(a[pos]) !in ValidChoices {
      RepromptReadsNoFurther(a, b, pos + 1);
    }
  }

  /** One question reads no line past the one that decides it. */
  lemma AskReadsNoFurther(a: seq<string>, b: seq<string>, pos: nat)
    requires !Ask(a, pos).EndOfInput?
    requires AgreeUpTo(a, b, Ask(a, pos).next)
    ensures Ask(b, pos) == Ask(a, pos)
  {
    if !Ask(a, pos).Quit? {
      RepromptReadsNoFurther(a, b, pos);
    }
  }
}
