/** The app newsletter form: the submitted address is trimmed and checked against the
    pattern `^[^\s@]+@[^\s@]+\.[^\s@]+$`; a bad or empty address gets an error
    notification and the input keeps its text and takes focus, a good one gets a success
    notification, clears the input and rains 50 confetti flakes. */
module Newsletter {
  import opened JsPrims

  /** A character the class `[^\s@]` accepts. */
  predicate Plain(c: char) {
    !IsJsSpace(c) && c != '@'
  }

  /** A non-empty run of `[^\s@]+`. */
  predicate PlainRun(s: string) {
    |s| > 0 && forall i :: 0 <= i < |s| ==> Plain(s[i])
  }

  /** What it means for the whole of `s` to match `^[^\s@]+@[^\s@]+\.[^\s@]+$`: it splits
      at some `@` and some later `.` into three non-empty runs of `[^\s@]`. */
  ghost predicate MatchesPattern(s: string) {
    exists at, dot :: 0 < at < dot - 1 && dot < |s| - 1 && s[at] == '@' && s[dot] == '.'
      && PlainRun(s[..at]) && PlainRun(s[at + 1..dot]) && PlainRun(s[dot + 1..])
  }

  /** The domain part holds a `.` that is neither its first nor its last character. */
  predicate HasInnerDot(d: string) {
    exists j :: 0 < j < |d| - 1 && d[j] == '.'
  }

  predicate NoAt(s: string) {
    forall i :: 0 <= i < |s| ==> s[i] != '@'
  }

  /** `isValidEmail`: no whitespace, one `@` with text before it, and a dot strictly
      inside the text after it. */
  function IsValidEmail(s: string): (ok: bool)
    ensures ok <==> MatchesPattern(s)
  {
    var ok := NoSpace(s) && match IndexOf(s, '@')
      case None => false
      case Some(k) => k > 0 && NoAt(s[k + 1..]) && HasInnerDot(s[k + 1..]);
    if ok then
      var k := IndexOf(s, '@').value;
      var j :| 0 < j < |s[k + 1..]| - 1 && s[k + 1..][j] == '.';
      assert s[k + 1 + j] == '.';
      assert PlainRun(s[..k]);
      assert PlainRun(s[k + 1..k + 1 + j]);
      assert PlainRun(s[k + 1 + j + 1..]);
      true
    else
      NotValidNoMatch(s);
      false
  }

  lemma NotValidNoMatch(s: string)
    requires !(NoSpace(s) && match IndexOf(s, '@')
      case None => false
      case Some(k) => k > 0 && NoAt(s[k + 1..]) && HasInnerDot(s[k + 1..]))
    ensures !MatchesPattern(s)
  {
    if MatchesPattern(s) {
      MatchIsValid(s);
    }
  }

  /** A match of the pattern passes the checks `IsValidEmail` makes. */
  lemma MatchIsValid(s: string)
    requires MatchesPattern(s)
    ensures NoSpace(s) && IndexOf(s, '@').Some?
    ensures var k := IndexOf(s, '@').value;
      k > 0 && NoAt(s[k + 1..]) && HasInnerDot(s[k + 1..])
  {
    var at, dot :| 0 < at < dot - 1 && dot < |s| - 1 && s[at] == '@' && s[dot] == '.'
      && PlainRun(s[..at]) && PlainRun(s[at + 1..dot]) && PlainRun(s[dot + 1..]);
    SplitIsValid(s, at, dot);
  }

  /** The checks `IsValidEmail` makes, for a split of `s` at `at` and `dot`. */
  lemma SplitIsValid(s: string, at: nat, dot: nat)
    requires 0 < at < dot - 1 && dot < |s| - 1 && s[at] == '@' && s[dot] == '.'
    requires PlainRun(s[..at]) && PlainRun(s[at + 1..dot]) && PlainRun(s[dot + 1..])
    ensures NoSpace(s) && IndexOf(s, '@') == Some(at)
    ensures NoAt(s[at + 1..]) && HasInnerDot(s[at + 1..])
  {
    forall i | 0 <= i < |s| ensures !IsJsSpace(s[i]) && (s[i] == '@' ==> i == at) {
      if i != at && i != dot {
        PlainOutside(s, at, dot, i);
      }
    }
    var d := s[at + 1..];
    assert d[dot - at - 1] == '.';
    forall j | 0 <= j < |d| ensures d[j] != '@' {
      assert d[j] == s[at + 1 + j];
    }
  }

  /** Every character of a match other than its `@` and its `.` is in one of the runs. */
  lemma PlainOutside(s: string, at: nat, dot: nat, i: nat)
    requires 0 < at < dot - 1 && dot < |s| - 1
    requires PlainRun(s[..at]) && PlainRun(s[at + 1..dot]) && PlainRun(s[dot + 1..])
    requires i < |s| && i != at && i != dot
    ensures Plain(s[i])
  {
    if i < at {
      assert s[..at][i] == s[i];
    } else if i < dot {
      assert s[at + 1..dot][i - at - 1] == s[i];
    } else {
      assert s[dot + 1..][i - dot - 1] == s[i];
    }
  }

  lemma NoAtAfter(s: string, k: nat, i: nat)
    requires k < i < |s| && NoAt(s[k + 1..])
    ensures s[i] != '@'
  {
    assert s[k + 1..][i - k - 1] == s[i];
  }

  /** The same condition in the words one would use to describe the pattern: the address
      has no whitespace, exactly one `@`, at least one character before the `@`, and a
      dot after the `@` that is not the first or last character of the domain. */
  lemma ValidEmailCharacterization(s: string)
    ensures IsValidEmail(s) <==>
      NoSpace(s)
      && exists k :: OnlyAt(s, k) && 0 < k && HasInnerDot(s[k + 1..])
  {
    if IsValidEmail(s) {
      var k := IndexOf(s, '@').value;
      forall i | 0 <= i < |s| && s[i] == '@' ensures i == k {
        if i > k {
          NoAtAfter(s, k, i);
        }
      }
      assert OnlyAt(s, k);
    } else if k :| OnlyAt(s, k) && 0 < k && HasInnerDot(s[k + 1..]) {
      OnlyAtIsValid(s, k);
    }
  }

  /** `k` is the position of the one `@` in `s`. */
  predicate OnlyAt(s: string, k: int) {
    0 <= k < |s| && s[k] == '@' && forall i :: 0 <= i < |s| && s[i] == '@' ==> i == k
  }

  lemma OnlyAtIsValid(s: string, k: nat)
    requires OnlyAt(s, k)
    ensures IndexOf(s, '@') == Some(k) && NoAt(s[k + 1..])
  {
    var d := s[k + 1..];
    forall j | 0 <= j < |d| ensures d[j] != '@' {
      assert d[j] == s[k + 1 + j];
    }
  }

  /** The two concrete submissions the behaviour is usually described with. */
  lemma ExampleAddressIsValid()
    ensures IsValidEmail("user@example.com")
  {
    var s := "user@example.com";
    assert s[..4] == "user" && s[5..12] == "example" && s[13..] == "com";
    LowerRun("user");
    LowerRun("example");
    LowerRun("com");
    assert s[4] == '@' && s[12] == '.';
    assert MatchesPattern(s);
  }

  /** A word of lower-case ASCII letters is a run of `[^\s@]`. */
  lemma LowerRun(w: string)
    requires |w| > 0 && forall i :: 0 <= i < |w| ==> 'a' <= w[i] <= 'z'
    ensures PlainRun(w)
  {
  }

  lemma ExampleWordIsInvalid()
    ensures !IsValidEmail("not-an-email")
  {
    var s := "not-an-email";
    assert forall i :: 0 <= i < |s| ==> s[i] != '@';
  }

  datatype Kind = Success | Error
  datatype Notification = Notification(message: string, kind: Kind)

  const InvalidMessage: string := "Please enter a valid email address"
  const ThanksMessage: string :=
    "\U{1F680} Thanks! You'll be notified when CosmicBeats launches!"

  const ConfettiColors: seq<string> := ["#00ff88", "#ff00ff", "#00d4ff", "#ffdd00"]
  const ConfettiCount: nat := 50
  /** The draws one flake takes: width, height, colour, left, corner shape, duration. */
  const DrawsPerFlake: nat := 6

  /** One confetti flake's inline style: size in px, colour, horizontal start in `vw`,
      round or square, and the fall duration in seconds. */
  datatype Flake = Flake(width: real, height: real, color: string, left: real,
                         round: bool, duration: real)

  /** The flake built from six consecutive draws, in the order the style template reads
      `Math.random()`. */
  function MakeFlake(r: seq<real>): (f: Flake)
    requires |r| == DrawsPerFlake && AllUnit(r)
    ensures 5.0 <= f.width < 15.0 && 5.0 <= f.height < 15.0
    ensures f.color in ConfettiColors
    ensures 0.0 <= f.left < 100.0
    ensures f.round <==> r[4] > 0.5
    ensures 2.0 <= f.duration < 4.0
  {
    assert IsUnit(r[0]) && IsUnit(r[1]) && IsUnit(r[2]) && IsUnit(r[3]) && IsUnit(r[5]);
    Flake(r[0] * 10.0 + 5.0, r[1] * 10.0 + 5.0,
          ConfettiColors[RandomIndex(r[2], |ConfettiColors|)],
          r[3] * 100.0, r[4] > 0.5, r[5] * 2.0 + 2.0)
  }

  /** The flakes `createConfetti` makes from its draws: fifty, the `i`-th built from
      its own six draws, each within the size, colour, position and duration ranges
      of the style template. */
  function ConfettiOf(rnd: seq<seq<real>>): (flakes: seq<Flake>)
    requires Batches(rnd, ConfettiCount, DrawsPerFlake)
    ensures |flakes| == ConfettiCount
    ensures forall i :: 0 <= i < ConfettiCount ==> flakes[i] == MakeFlake(rnd[i])
    ensures forall i :: 0 <= i < ConfettiCount ==>
      5.0 <= flakes[i].width < 15.0 && 5.0 <= flakes[i].height < 15.0
      && flakes[i].color in ConfettiColors
      && 0.0 <= flakes[i].left < 100.0 && 2.0 <= flakes[i].duration < 4.0
  {
    seq(ConfettiCount, i requires 0 <= i < ConfettiCount =>
      MakeFlake(rnd[i]))
  }

  /** `createConfetti`: the loop that adds the flakes one by one. */
  method CreateConfetti(rnd: seq<seq<real>>) returns (flakes: seq<Flake>)
    requires Batches(rnd, ConfettiCount, DrawsPerFlake)
    ensures flakes == ConfettiOf(rnd)
  {
    flakes := [];
    var i := 0;
    while i < ConfettiCount
      invariant 0 <= i <= ConfettiCount && |flakes| == i
      invariant forall k :: 0 <= k < i ==>
        flakes[k] == MakeFlake(rnd[k])
    {
      var draws := rnd[i];
      flakes := flakes + [MakeFlake(draws)];
      i := i + 1;
    }
    assert flakes == ConfettiOf(rnd);
  }

  /** `emailInput?.value.trim()`: the trimmed text, or `undefined` without an input. */
  function Submitted(hasInput: bool, value: string): (email: Option<string>)
    ensures email.Some? <==> hasInput
    ensures hasInput ==> email == Some(Trim(value))
  {
    if hasInput then Some(Trim(value)) else None
  }

  /** The submit check `!email || !isValidEmail(email)`, negated: an address was entered
      and it matches the pattern. */
  predicate Accepts(email: Option<string>) {
    email.Some? && email.value != "" && IsValidEmail(email.value)
  }

  class AppNewsletterHandler {
    /** Whether the form holds an `input[type="email"]`. */
    const hasInput: bool
    /** The input's current text. */
    var value: string
    var focused: bool
    /** The notifications shown so far, oldest first. */
    var notifications: seq<Notification>
    /** The confetti flakes added to the page so far. */
    var confetti: seq<Flake>

    constructor (hasEmailInput: bool, initial: string)
      ensures hasInput == hasEmailInput && value == initial
      ensures !focused && notifications == [] && confetti == []
    {
      hasInput := hasEmailInput;
      value := initial;
      focused := false;
      notifications := [];
      confetti := [];
    }

    /** `handleSubmit`, with the fifty flakes' draws in `rnd`. */
    method HandleSubmit(rnd: seq<seq<real>>)
      requires Batches(rnd, ConfettiCount, DrawsPerFlake)
      modifies this`value, this`focused, this`notifications, this`confetti
      ensures Accepts(Submitted(hasInput, old(value))) ==>
        value == "" && focused == old(focused)
        && notifications == old(notifications) + [Notification(ThanksMessage, Success)]
        && confetti == old(confetti) + ConfettiOf(rnd)
      ensures !Accepts(Submitted(hasInput, old(value))) ==>
        value == old(value) && (focused <==> old(focused) || hasInput)
        && notifications == old(notifications) + [Notification(InvalidMessage, Error)]
        && confetti == old(confetti)
    {
      var ok := Accepts(Submitted(hasInput, value));
      if !ok {
        Reject();
        return;
      }
      Celebrate(rnd);
    }

    /** The error path of `handleSubmit`: the error notification, and the input (if any)
        takes focus. */
    method Reject()
      modifies this`notifications, this`focused
      ensures notifications == old(notifications) + [Notification(InvalidMessage, Error)]
      ensures focused <==> old(focused) || hasInput
    {
      notifications := notifications + [Notification(InvalidMessage, Error)];
      if hasInput {
        focused := true;
      }
    }

    /** The success path of `handleSubmit`: the thanks notification, an emptied input and
        the confetti. */
    method Celebrate(rnd: seq<seq<real>>)
      requires Batches(rnd, ConfettiCount, DrawsPerFlake)
      modifies this`notifications, this`value, this`confetti
      ensures notifications == old(notifications) + [Notification(ThanksMessage, Success)]
      ensures value == "" && confetti == old(confetti) + ConfettiOf(rnd)
    {
      notifications := notifications + [Notification(ThanksMessage, Success)];
      value := "";
      var flakes := CreateConfetti(rnd);
      confetti := confetti + flakes;
    }
  }
}
