/** The typewriter effect of src/hooks/use-typewriter.ts: three state slots (the index of the
    current word, the typed text and the phase) change one step per timer callback. A step
    is one run of the effect together with the update its timeout (or, for the pause, the
    effect itself) performs; the waiting times are left out. */
module Typewriter {

  datatype Phase = Typing | Pausing | Deleting

  /** `(currentWordIndex, text, phase)`. */
  datatype TypewriterState = TypewriterState(index: nat, text: string, phase: Phase)

  /** `useState(0)`, `useState("")`, `useState("typing")`. */
  const INITIAL: TypewriterState := TypewriterState(0, "", Typing)

  /** `words[currentWordIndex] ?? ""`. */
  function CurrentWord(words: seq<string>, index: nat): string {
    if index < |words| then words[index] else ""
  }

  /** `text` is a prefix of `word`. */
  predicate IsPrefix(text: string, word: string) {
    |text| <= |word| && text == word[..|text|]
  }

  /** The invariant of the hook: the index names a word (when there are words) and the text
      typed so far is a prefix of that word. */
  predicate WellFormed(words: seq<string>, s: TypewriterState) {
    (|words| > 0 ==> s.index < |words|) && IsPrefix(s.text, CurrentWord(words, s.index))
  }

  /** The non-looping hook has deleted its last word: the effect returns without scheduling
      anything. */
  predicate Stopped(words: seq<string>, loop: bool, s: TypewriterState) {
    s.phase == Deleting && s.text == "" && !loop && s.index + 1 >= |words|
  }

  /** One step of the effect, as a function of the state before it. */
  function Next(words: seq<string>, loop: bool, s: TypewriterState): TypewriterState {
    if |words| == 0 then s
    else
      var word := CurrentWord(words, s.index);
      match s.phase
      case Typing =>
        if |s.text| < |word| then s.(text := word[..|s.text| + 1]) else s.(phase := Pausing)
      case Pausing => s.(phase := Deleting)
      case Deleting =>
        if |s.text| > 0 then s.(text := s.text[..|s.text| - 1])
        else if !loop && s.index + 1 >= |words| then s
        else TypewriterState((s.index + 1) % |words|, s.text, Typing)
  }

  /** `n` steps. */
  function Run(words: seq<string>, loop: bool, s: TypewriterState, n: nat): TypewriterState
    decreases n
  {
    if n == 0 then s else Run(words, loop, Next(words, loop, s), n - 1)
  }

  /** `isDeleting`. */
  predicate IsDeleting(s: TypewriterState) {
    s.phase == Deleting
  }

  /** `isComplete`: `!loop && currentWordIndex === words.length - 1 && phase === "pausing"`. */
  predicate IsComplete(words: seq<string>, loop: bool, s: TypewriterState) {
    !loop && s.index == |words| - 1 && s.phase == Pausing
  }

  /** The initial state satisfies the invariant. */
  lemma InitialWellFormed(words: seq<string>)
    ensures WellFormed(words, INITIAL)
  {}

  /** Every step keeps the index in range and the text a prefix of the current word. */
  lemma NextWellFormed(words: seq<string>, loop: bool, s: TypewriterState)
    requires WellFormed(words, s)
    ensures WellFormed(words, Next(words, loop, s))
  {
    var word := CurrentWord(words, s.index);
    if |words| > 0 && s.phase == Deleting && |s.text| > 0 {
      assert s.text[..|s.text| - 1] == word[..|s.text| - 1];
    }
  }

  /** Hence every reachable state satisfies it. */
  lemma {:induction false} RunWellFormed(words: seq<string>, loop: bool, s: TypewriterState, n: nat)
    requires WellFormed(words, s)
    ensures WellFormed(words, Run(words, loop, s, n))
    decreases n
  {
    if n > 0 {
      NextWellFormed(words, loop, s);
      RunWellFormed(words, loop, Next(words, loop, s), n - 1);
    }
  }

  /** Typing a word that is not finished appends exactly its next character. */
  lemma TypingAppends(words: seq<string>, loop: bool, s: TypewriterState)
    requires |words| > 0 && WellFormed(words, s)
    requires s.phase == Typing && |s.text| < |CurrentWord(words, s.index)|
    ensures var t := Next(words, loop, s);
      t.text == s.text + [CurrentWord(words, s.index)[|s.text|]] && t.index == s.index && t.phase == Typing
  {
    var word := CurrentWord(words, s.index);
    assert word[..|s.text| + 1] == word[..|s.text|] + [word[|s.text|]];
  }

  /** A fully typed word moves to the pause, text and index unchanged. */
  lemma TypingFinishes(words: seq<string>, loop: bool, s: TypewriterState)
    requires |words| > 0 && WellFormed(words, s)
    requires s.phase == Typing && |s.text| == |CurrentWord(words, s.index)|
    ensures Next(words, loop, s) == s.(phase := Pausing)
    ensures s.text == CurrentWord(words, s.index)
  {}

  /** `n` typing steps from a prefix of length `j` reach the prefix of length `j + n`. */
  lemma {:induction false} TypesPrefix(words: seq<string>, loop: bool, s: TypewriterState, n: nat)
    requires |words| > 0 && WellFormed(words, s) && s.phase == Typing
    requires |s.text| + n <= |CurrentWord(words, s.index)|
    ensures Run(words, loop, s, n)
      == s.(text := CurrentWord(words, s.index)[..|s.text| + n])
    decreases n
  {
    if n > 0 {
      var word := CurrentWord(words, s.index);
      var t := Next(words, loop, s);
      assert t == s.(text := word[..|s.text| + 1]);
      TypesPrefix(words, loop, t, n - 1);
      assert |t.text| == |s.text| + 1;
    }
  }

  /** From the start of a word, typing it out takes one step per character and the pause
      follows on the next step. */
  lemma TypesWholeWord(words: seq<string>, loop: bool, s: TypewriterState)
    requires |words| > 0 && s.index < |words| && s.text == "" && s.phase == Typing
    ensures Run(words, loop, s, |words[s.index]|) == s.(text := words[s.index])
    ensures Run(words, loop, s, |words[s.index]| + 1) == s.(text := words[s.index], phase := Pausing)
  {
    var n := |words[s.index]|;
    TypesPrefix(words, loop, s, n);
    assert words[s.index][..n] == words[s.index];
    RunSplit(words, loop, s, n, 1);
  }

  /** Running `m + n` steps is running `m` and then `n`. */
  lemma {:induction false} RunSplit(words: seq<string>, loop: bool, s: TypewriterState, m: nat, n: nat)
    ensures Run(words, loop, s, m + n) == Run(words, loop, Run(words, loop, s, m), n)
    decreases m
  {
    if m > 0 {
      RunSplit(words, loop, Next(words, loop, s), m - 1, n);
    }
  }

  /** The pause always goes straight to deleting, text and index unchanged. */
  lemma PauseThenDelete(words: seq<string>, loop: bool, s: TypewriterState)
    requires |words| > 0 && s.phase == Pausing
    ensures Next(words, loop, s) == s.(phase := Deleting)
  {}

  /** Deleting removes exactly one trailing character. */
  lemma DeletingDropsLast(words: seq<string>, loop: bool, s: TypewriterState)
    requires |words| > 0 && s.phase == Deleting && |s.text| > 0
    ensures var t := Next(words, loop, s);
      t.text + [s.text[|s.text| - 1]] == s.text && t.index == s.index && t.phase == Deleting
  {}

  /** Once the word is deleted, unless the hook has stopped, the next word is typed: the
      index advances cyclically and stays in range. */
  lemma NextWordAfterDelete(words: seq<string>, loop: bool, s: TypewriterState)
    requires |words| > 0 && s.phase == Deleting && s.text == ""
    requires !Stopped(words, loop, s)
    ensures Next(words, loop, s) == TypewriterState((s.index + 1) % |words|, "", Typing)
    ensures (s.index + 1) % |words| < |words|
  {}

  /** A stopped hook never changes again. */
  lemma {:induction false} StoppedIsFinal(words: seq<string>, loop: bool, s: TypewriterState, n: nat)
    requires Stopped(words, loop, s)
    ensures Run(words, loop, s, n) == s
    decreases n
  {
    if n > 0 {
      assert Next(words, loop, s) == s;
      StoppedIsFinal(words, loop, s, n - 1);
    }
  }

  /** Steps that change nothing happen only when there are no words or the hook has stopped. */
  lemma FixedPoints(words: seq<string>, loop: bool, s: TypewriterState)
    requires WellFormed(words, s)
    ensures Next(words, loop, s) == s <==> |words| == 0 || Stopped(words, loop, s)
  {
    if |words| > 0 && s.phase == Typing && |s.text| < |CurrentWord(words, s.index)| {
      assert |Next(words, loop, s).text| == |s.text| + 1;
    }
  }

  /** Without words nothing ever happens. */
  lemma {:induction false} NoWordsNoSteps(loop: bool, s: TypewriterState, n: nat)
    ensures Run([], loop, s, n) == s
    decreases n
  {
    if n > 0 {
      NoWordsNoSteps(loop, s, n - 1);
    }
  }

  /** The flags: `isDeleting` is the deleting phase, and `isComplete` is only ever true for a
      single step, the pause on the last word of a non-looping hook; the stopped state
      reports deleting, not complete. */
  lemma Flags(words: seq<string>, loop: bool, s: TypewriterState)
    requires |words| > 0
    ensures IsComplete(words, loop, s) ==> !IsComplete(words, loop, Next(words, loop, s))
    ensures Stopped(words, loop, s) ==> IsDeleting(s) && !IsComplete(words, loop, s)
    ensures IsComplete(words, loop, s) <==> !loop && s.index + 1 == |words| && s.phase == Pausing
  {}

  /** The hook itself: the three state slots, with `words` and `loop` fixed. */
  class TypewriterHook {
    const words: seq<string>
    const loop: bool
    var currentWordIndex: nat
    var text: string
    var phase: Phase

    function State(): TypewriterState
      reads this
    {
      TypewriterState(currentWordIndex, text, phase)
    }

    ghost predicate Valid()
      reads this
    {
      WellFormed(words, State())
    }

    constructor (words: seq<string>, loop: bool)
      ensures this.words == words && this.loop == loop
      ensures State() == INITIAL && Valid()
    {
      this.words := words;
      this.loop := loop;
      currentWordIndex := 0;
      text := "";
      phase := Typing;
    }

    /** One run of the effect and the update it schedules. */
    method Step()
      requires Valid()
      modifies this
      ensures State() == Next(words, loop, old(State()))
      ensures Valid()
    {
      NextWellFormed(words, loop, State());
      if |words| == 0 {
        return;
      }
      var currentWord := if currentWordIndex < |words| then words[currentWordIndex] else "";
      if phase == Typing {
        if |text| < |currentWord| {
          text := currentWord[..|text| + 1];
        } else {
          phase := Pausing;
        }
      } else if phase == Pausing {
        phase := Deleting;
      } else {
        if |text| > 0 {
          text := text[..|text| - 1];
        } else {
          var nextIndex := currentWordIndex + 1;
          if !loop && nextIndex >= |words| {
            return;
          }
          currentWordIndex := (currentWordIndex + 1) % |words|;
          phase := Typing;
        }
      }
    }
  }
}
