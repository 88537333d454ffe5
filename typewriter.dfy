/** The hero typewriter: a cursor types the current phrase one character per step,
    pauses at its end, deletes it one character per step, and moves on to the next phrase,
    round-robin. Each step returns the delay until the next one. */
module Typewriter {
  import opened JsPrims

  const TypingDelay: nat := 100
  const PauseDelay: nat := 2000
  const DeletingDelay: nat := 50
  const NextPhraseDelay: nat := 500

  /** The typewriter's state: the phrase index, the character cursor and the direction. */
  datatype Cursor = Cursor(phrase: nat, pos: int, deleting: bool)

  /** Every phrase has something to type. */
  predicate Usable(phrases: seq<string>) {
    |phrases| > 0 && forall i :: 0 <= i < |phrases| ==> |phrases[i]| > 0
  }

  /** The cursor bounds that hold between steps: while typing the cursor is before the end
      of the phrase, while deleting it is past the start. */
  predicate InRange(phrases: seq<string>, c: Cursor) {
    c.phrase < |phrases|
    && (!c.deleting ==> 0 <= c.pos < |phrases[c.phrase]|)
    && (c.deleting ==> 0 < c.pos <= |phrases[c.phrase]|)
  }

  /** One call of `type()`: move the cursor, then turn round at the end of the phrase, or
      move to the next phrase once it is deleted, and pick the delay. */
  function Step(phrases: seq<string>, c: Cursor): (r: (Cursor, nat))
    requires Usable(phrases) && InRange(phrases, c)
    ensures InRange(phrases, r.0)
    ensures 0 <= r.0.pos <= |phrases[c.phrase]|
  {
    var phrase := phrases[c.phrase];
    var ch := if c.deleting then c.pos - 1 else c.pos + 1;
    if !c.deleting && ch == |phrase| then
      (Cursor(c.phrase, ch, true), PauseDelay)
    else if c.deleting && ch == 0 then
      (Cursor((c.phrase + 1) % |phrases|, ch, false), NextPhraseDelay)
    else if c.deleting then
      (Cursor(c.phrase, ch, true), DeletingDelay)
    else
      (Cursor(c.phrase, ch, false), TypingDelay)
  }

  /** Typing onto the last character turns the cursor round with the long pause; any
      other typing step moves one character right with the typing delay. */
  lemma TypingStep(phrases: seq<string>, c: Cursor)
    requires Usable(phrases) && InRange(phrases, c) && !c.deleting
    ensures c.pos + 1 == |phrases[c.phrase]| ==>
      Step(phrases, c) == (Cursor(c.phrase, c.pos + 1, true), PauseDelay)
    ensures c.pos + 1 < |phrases[c.phrase]| ==>
      Step(phrases, c) == (Cursor(c.phrase, c.pos + 1, false), TypingDelay)
  {
  }

  /** Deleting the first character moves to the next phrase, cursor at 0, with the short
      pause; any other deleting step moves one character left with the deleting delay. */
  lemma DeletingStep(phrases: seq<string>, c: Cursor)
    requires Usable(phrases) && InRange(phrases, c) && c.deleting
    ensures c.pos == 1 ==>
      Step(phrases, c) == (Cursor((c.phrase + 1) % |phrases|, 0, false), NextPhraseDelay)
    ensures c.pos > 1 ==>
      Step(phrases, c) == (Cursor(c.phrase, c.pos - 1, true), DeletingDelay)
  {
  }

  /** `k` steps from `c`: the cursor reached and the sum of the delays on the way. */
  function Run(phrases: seq<string>, c: Cursor, k: nat): (r: (Cursor, nat))
    requires Usable(phrases) && InRange(phrases, c)
    ensures InRange(phrases, r.0)
    decreases k
  {
    if k == 0 then (c, 0)
    else
      var step := Step(phrases, c);
      var rest := Run(phrases, step.0, k - 1);
      (rest.0, step.1 + rest.1)
  }

  lemma {:induction false} TypingRun(phrases: seq<string>, p: nat, i: nat, k: nat)
    requires Usable(phrases) && p < |phrases| && i + k < |phrases[p]|
    ensures Run(phrases, Cursor(p, i, false), k) == (Cursor(p, i + k, false), TypingDelay * k)
    decreases k
  {
    if k > 0 {
      TypingStep(phrases, Cursor(p, i, false));
      TypingRun(phrases, p, i + 1, k - 1);
    }
  }

  lemma {:induction false} DeletingRun(phrases: seq<string>, p: nat, i: nat, k: nat)
    requires Usable(phrases) && p < |phrases| && i <= |phrases[p]| && k < i
    ensures Run(phrases, Cursor(p, i, true), k) == (Cursor(p, i - k, true), DeletingDelay * k)
    decreases k
  {
    if k > 0 {
      DeletingStep(phrases, Cursor(p, i, true));
      DeletingRun(phrases, p, i - 1, k - 1);
    }
  }

  lemma {:induction false} RunAdd(phrases: seq<string>, c: Cursor, a: nat, b: nat)
    requires Usable(phrases) && InRange(phrases, c)
    ensures var first := Run(phrases, c, a);
      var second := Run(phrases, first.0, b);
      Run(phrases, c, a + b) == (second.0, first.1 + second.1)
    decreases a
  {
    if a > 0 {
      RunAdd(phrases, Step(phrases, c).0, a - 1, b);
    }
  }

  /** Typing a phrase of length `L` through: `L` steps from its start reach its end, turned
      round, after `100 (L - 1) + 2000` ms. */
  lemma TypeThrough(phrases: seq<string>, p: nat)
    requires Usable(phrases) && p < |phrases|
    ensures var L := |phrases[p]|;
      Run(phrases, Cursor(p, 0, false), L) == (Cursor(p, L, true), TypingDelay * (L - 1) + PauseDelay)
  {
    var L := |phrases[p]|;
    TypingRun(phrases, p, 0, L - 1);
    TypingStep(phrases, Cursor(p, L - 1, false));
    RunAdd(phrases, Cursor(p, 0, false), L - 1, 1);
  }

  /** Deleting it again: `L` more steps reach the start of the next phrase after
      `50 (L - 1) + 500` ms. */
  lemma DeleteThrough(phrases: seq<string>, p: nat)
    requires Usable(phrases) && p < |phrases|
    ensures var L := |phrases[p]|;
      Run(phrases, Cursor(p, L, true), L)
      == (Cursor((p + 1) % |phrases|, 0, false), DeletingDelay * (L - 1) + NextPhraseDelay)
  {
    var L := |phrases[p]|;
    DeletingRun(phrases, p, L, L - 1);
    DeletingStep(phrases, Cursor(p, 1, true));
    RunAdd(phrases, Cursor(p, L, true), L - 1, 1);
  }

  /** A whole cycle: from the start of phrase `p`, `2 * L` steps (L the phrase's length)
      type it, pause, delete it and arrive at the start of the next phrase, after
      `100 (L - 1) + 2000 + 50 (L - 1) + 500` ms. */
  lemma PhraseCycle(phrases: seq<string>, p: nat)
    requires Usable(phrases) && p < |phrases|
    ensures var L := |phrases[p]|;
      Run(phrases, Cursor(p, 0, false), 2 * L)
      == (Cursor((p + 1) % |phrases|, 0, false),
          TypingDelay * (L - 1) + PauseDelay + DeletingDelay * (L - 1) + NextPhraseDelay)
  {
    var L := |phrases[p]|;
    TypeThrough(phrases, p);
    DeleteThrough(phrases, p);
    RunAdd(phrases, Cursor(p, 0, false), L, L);
  }

  class TypewriterEffect {
    const phrases: seq<string>
    var currentPhrase: nat
    var currentChar: int
    var isDeleting: bool
    /** The element's `textContent`. */
    var text: string

    function Current(): Cursor
      reads this
    {
      Cursor(currentPhrase, currentChar, isDeleting)
    }

    /** The cursor is in range and the element shows the current phrase up to the
        cursor. */
    ghost predicate Valid()
      reads this
    {
      Usable(phrases) && InRange(phrases, Current())
      && text == phrases[currentPhrase][..currentChar]
    }

    /** `new TypewriterEffect(id, phrases)`, which types its first character at once. */
    constructor (ps: seq<string>)
      requires Usable(ps)
      ensures Valid() && phrases == ps
      ensures Current() == Cursor(0, 1, |ps[0]| == 1)
      ensures text == ps[0][..1]
    {
      phrases := ps;
      currentPhrase := 0;
      currentChar := 0;
      isDeleting := false;
      text := "";
      new;
      var _ := Type();
    }

    /** `type()`: one step of the cursor; the result is the delay the source passes to
        `setTimeout` for the next step. */
    method Type() returns (timeout: nat)
      requires Usable(phrases) && InRange(phrases, Current())
      modifies this`currentPhrase, this`currentChar, this`isDeleting, this`text
      ensures Valid()
      ensures (Current(), timeout) == Step(phrases, old(Current()))
      ensures text == Prefix(phrases[old(currentPhrase)], currentChar)
    {
      var phrase := phrases[currentPhrase];
      if isDeleting {
        currentChar := currentChar - 1;
      } else {
        currentChar := currentChar + 1;
      }
      text := Prefix(phrase, currentChar);
      timeout := TypingDelay;
      if !isDeleting && currentChar == |phrase| {
        timeout := PauseDelay;
        isDeleting := true;
      } else if isDeleting && currentChar == 0 {
        isDeleting := false;
        currentPhrase := (currentPhrase + 1) % |phrases|;
        timeout := NextPhraseDelay;
      } else if isDeleting {
        timeout := DeletingDelay;
      }
    }
  }
}
