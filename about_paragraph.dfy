/** The character-by-character reveal of src/components/about/AboutParagraph.client.tsx: once
    the paragraph has been seen, every 25 ms timeout appends the next character of the text
    to the shown text and advances the counter. The observer callback and the timeout are
    the two kinds of step; their timing is left out. */
module AboutParagraph {

  /** `(displayedText, currentIndex, isVisible)`. */
  datatype RevealState = RevealState(displayed: string, index: nat, visible: bool)

  /** `useState("")`, `useState(0)`, `useState(false)`. */
  const INITIAL: RevealState := RevealState("", 0, false)

  /** The invariant: the shown text is the first `index` characters of the text. */
  predicate Revealed(text: string, s: RevealState) {
    s.index <= |text| && s.displayed == text[..s.index]
  }

  /** The observer callback: `if (entry.isIntersecting) setIsVisible(true)`. */
  function Observe(s: RevealState, intersecting: bool): RevealState {
    if intersecting then s.(visible := true) else s
  }

  /** The effect and its timeout: nothing while hidden or once the whole text is shown,
      else the next character is appended and the counter advances. */
  function Tick(text: string, s: RevealState): RevealState {
    if !s.visible then s
    else if s.index < |text| then RevealState(s.displayed + [text[s.index]], s.index + 1, s.visible)
    else s
  }

  /** `n` timeouts with no observer callback in between. */
  function Ticks(text: string, s: RevealState, n: nat): RevealState
    decreases n
  {
    if n == 0 then s else Ticks(text, Tick(text, s), n - 1)
  }

  /** The caret: `currentIndex < text.length`. */
  predicate ShowsCaret(text: string, s: RevealState) {
    s.index < |text|
  }

  function Min(x: int, y: int): int {
    if x <= y then x else y
  }

  /** The initial state satisfies the invariant. */
  lemma InitialRevealed(text: string)
    ensures Revealed(text, INITIAL)
  {}

  /** A timeout keeps the invariant; it advances the counter by exactly one when the text is
      visible and not yet complete, and changes nothing otherwise. */
  lemma TickRevealed(text: string, s: RevealState)
    requires Revealed(text, s)
    ensures Revealed(text, Tick(text, s))
    ensures s.visible && s.index < |text| ==> Tick(text, s).index == s.index + 1
    ensures !(s.visible && s.index < |text|) ==> Tick(text, s) == s
    ensures Tick(text, s).visible == s.visible
  {
    if s.visible && s.index < |text| {
      assert text[..s.index + 1] == text[..s.index] + [text[s.index]];
    }
  }

  /** The observer keeps the invariant and only ever raises the flag. */
  lemma ObserveRevealed(text: string, s: RevealState, intersecting: bool)
    requires Revealed(text, s)
    ensures Revealed(text, Observe(s, intersecting))
    ensures s.visible ==> Observe(s, intersecting).visible
    ensures Observe(s, intersecting).visible <==> s.visible || intersecting
  {}

  /** `n` timeouts on a visible paragraph from a consistent state show `min(index + n, |text|)`
      characters. */
  lemma {:induction false} TicksReveal(text: string, s: RevealState, n: nat)
    requires Revealed(text, s) && s.visible
    ensures Ticks(text, s, n) == RevealState(text[..Min(s.index + n, |text|)], Min(s.index + n, |text|), true)
    decreases n
  {
    if n > 0 {
      TickRevealed(text, s);
      TicksReveal(text, Tick(text, s), n - 1);
    }
  }

  /** Hidden, the paragraph never changes however many timeouts fire. */
  lemma {:induction false} HiddenNeverTicks(text: string, s: RevealState, n: nat)
    requires !s.visible
    ensures Ticks(text, s, n) == s
    decreases n
  {
    if n > 0 {
      HiddenNeverTicks(text, s, n - 1);
    }
  }

  /** Once seen, `|text|` timeouts show the whole text and the caret is gone. */
  lemma FullyRevealed(text: string)
    ensures var s := Ticks(text, Observe(INITIAL, true), |text|);
      s.displayed == text && !ShowsCaret(text, s)
  {
    TicksReveal(text, Observe(INITIAL, true), |text|);
    assert text[..|text|] == text;
  }

  /** In a consistent state the caret is shown exactly while part of the text is missing. */
  lemma CaretWhileIncomplete(text: string, s: RevealState)
    requires Revealed(text, s)
    ensures ShowsCaret(text, s) <==> s.displayed != text
  {
    if s.index < |text| {
      assert |s.displayed| < |text|;
    }
  }

  /** The component's state. */
  class Paragraph {
    const text: string
    var displayedText: string
    var currentIndex: nat
    var isVisible: bool

    function State(): RevealState
      reads this
    {
      RevealState(displayedText, currentIndex, isVisible)
    }

    ghost predicate Valid()
      reads this
    {
      Revealed(text, State())
    }

    constructor (text: string)
      ensures this.text == text && State() == INITIAL && Valid()
    {
      this.text := text;
      displayedText := "";
      currentIndex := 0;
      isVisible := false;
    }

    /** The observer callback with the entry's `isIntersecting`. */
    method OnIntersection(isIntersecting: bool)
      requires Valid()
      modifies this
      ensures State() == Observe(old(State()), isIntersecting) && Valid()
    {
      if isIntersecting {
        isVisible := true;
      }
    }

    /** The reveal effect and the timeout it schedules. */
    method OnTimeout()
      requires Valid()
      modifies this
      ensures State() == Tick(text, old(State())) && Valid()
    {
      TickRevealed(text, State());
      if !isVisible {
        return;
      }
      if currentIndex < |text| {
        displayedText := displayedText + [text[currentIndex]];
        currentIndex := currentIndex + 1;
      }
    }

    /** Whether the caret is rendered. */
    method Caret() returns (shown: bool)
      requires Valid()
      ensures shown <==> ShowsCaret(text, State())
      ensures shown <==> displayedText != text
    {
      CaretWhileIncomplete(text, State());
      shown := currentIndex < |text|;
    }
  }
}
