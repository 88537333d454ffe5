/** The reveal-on-scroll helpers: the statistics counters, each of which counts up from 0
    to its `data-count` over two seconds the first time it comes into view and never again,
    and the scroll animations, which hide registered elements and reveal each with its
    registered animation when it comes into view. Elements are named by numbers. */
module Counters {
  import opened JsPrims

  /** An intersection-observer entry: the observed element and whether it is in view. */
  datatype Entry = Entry(target: nat, isIntersecting: bool)

  predicate NoDuplicates(s: seq<nat>) {
    forall a, b :: 0 <= a < b < |s| ==> s[a] != s[b]
  }

  /** The counters one observer callback starts, in entry order, when `animated` holds the
      counters started before it: an entry in view whose target is in neither `animated`
      nor the ones this batch already started. */
  function NewlyStarted(animated: set<nat>, entries: seq<Entry>): (r: seq<nat>)
    ensures NoDuplicates(r)
    ensures forall k :: 0 <= k < |r| ==> r[k] !in animated
    ensures forall x :: x in r <==>
      x !in animated && exists i :: 0 <= i < |entries| && entries[i] == Entry(x, true)
  {
    if entries == [] then []
    else
      var prev := NewlyStarted(animated, entries[..|entries| - 1]);
      var e := entries[|entries| - 1];
      assert forall i :: 0 <= i < |entries| - 1 ==> entries[..|entries| - 1][i] == entries[i];
      if e.isIntersecting && e.target !in animated && e.target !in prev then prev + [e.target]
      else prev
  }

  /** Every started counter is in the latch set and was started once. */
  ghost predicate Latched(started: seq<nat>, animated: set<nat>) {
    (forall x :: x in started <==> x in animated) && NoDuplicates(started)
  }

  /** The loop state of the observer callback after the first `i` entries, started from
      `started0` and `animated0`. */
  ghost predicate Handled(animated0: set<nat>, started0: seq<nat>, entries: seq<Entry>, i: nat,
                          started: seq<nat>, animated: set<nat>)
    requires i <= |entries|
  {
    Latched(started, animated)
    && started == started0 + NewlyStarted(animated0, entries[..i])
    && forall x :: x in animated <==> x in animated0 || x in NewlyStarted(animated0, entries[..i])
  }

  /** An entry in view whose counter is not latched yet starts it and latches it. */
  lemma StartEntry(animated0: set<nat>, started0: seq<nat>, entries: seq<Entry>, i: nat,
                   started: seq<nat>, animated: set<nat>)
    requires i < |entries| && Latched(started0, animated0)
    requires Handled(animated0, started0, entries, i, started, animated)
    requires entries[i].isIntersecting && entries[i].target !in animated
    ensures Handled(animated0, started0, entries, i + 1, started + [entries[i].target],
                    animated + {entries[i].target})
  {
    var t := entries[i].target;
    var prev := NewlyStarted(animated0, entries[..i]);
    assert entries[..i + 1][..i] == entries[..i];
    assert t !in animated0 && t !in prev;
    assert NewlyStarted(animated0, entries[..i + 1]) == prev + [t];
  }

  /** Any other entry changes nothing. */
  lemma SkipEntry(animated0: set<nat>, started0: seq<nat>, entries: seq<Entry>, i: nat,
                  started: seq<nat>, animated: set<nat>)
    requires i < |entries|
    requires Handled(animated0, started0, entries, i, started, animated)
    requires !(entries[i].isIntersecting && entries[i].target !in animated)
    ensures Handled(animated0, started0, entries, i + 1, started, animated)
  {
    assert entries[..i + 1][..i] == entries[..i];
  }

  class CounterAnimation {
    /** The `animated` set: the counters whose animation has been started. */
    var animated: set<nat>
    /** The counters `animateCounter` has been called on, in call order. */
    var started: seq<nat>

    ghost predicate Valid()
      reads this
    {
      Latched(started, animated)
    }

    constructor ()
      ensures Valid() && animated == {} && started == []
    {
      animated := {};
      started := [];
    }

    /** The observer callback: each entry in view whose counter is not yet in the set starts
        that counter's animation and joins the set. */
    method OnEntries(entries: seq<Entry>)
      requires Valid()
      modifies this
      ensures Valid()
      ensures started == old(started) + NewlyStarted(old(animated), entries)
      ensures forall x :: x in animated <==> x in old(animated) || x in NewlyStarted(old(animated), entries)
    {
      var i := 0;
      while i < |entries|
        invariant 0 <= i <= |entries|
        invariant Handled(old(animated), old(started), entries, i, started, animated)
      {
        var entry := entries[i];
        if entry.isIntersecting && entry.target !in animated {
          StartEntry(old(animated), old(started), entries, i, started, animated);
          started := started + [entry.target];
          animated := animated + {entry.target};
        } else {
          SkipEntry(old(animated), old(started), entries, i, started, animated);
        }
        i := i + 1;
      }
      assert entries[..i] == entries;
    }
  }

  /** The counter animation's length in milliseconds. */
  const Duration: nat := 2000

  /** `Math.min(elapsed / duration, 1)`: the share of the animation that has passed. */
  function Progress(elapsed: nat): (p: real)
    ensures 0.0 <= p <= 1.0
    ensures p == 1.0 <==> elapsed >= Duration
    ensures elapsed < Duration ==> p * Duration as real == elapsed as real
  {
    var q := elapsed as real / Duration as real;
    if q < 1.0 then q else 1.0
  }

  /** The number shown at progress `p`: `Math.floor(target * (1 - (1 - p)^4))`. */
  function CounterValue(target: int, p: real): (v: int)
    requires 0.0 <= p <= 1.0
    ensures p == 1.0 ==> v == target
    ensures p == 0.0 ==> v == 0
    ensures target >= 0 ==> 0 <= v <= target
  {
    var q := 1.0 - p;
    var q2 := q * q;
    assert 0.0 <= q2 <= 1.0 by { UnitProduct(q, q); }
    var q4 := q2 * q2;
    assert 0.0 <= q4 <= 1.0 by { UnitProduct(q2, q2); }
    var eased := 1.0 - q4;
    var scaled := target as real * eased;
    assert target >= 0 ==> 0.0 <= scaled <= target as real by {
      if target >= 0 {
        assert target as real - scaled == target as real * q4;
      }
    }
    scaled.Floor
  }

  lemma UnitProduct(a: real, b: real)
    requires 0.0 <= a <= 1.0 && 0.0 <= b <= 1.0
    ensures 0.0 <= a * b <= 1.0
  {
    assert 0.0 <= a * b;
    assert 0.0 <= a * (1.0 - b);
    assert a * b <= a;
  }

  /** One `update` frame `elapsed` ms after the start: the number shown and whether another
      frame is requested. Frames keep coming exactly until two seconds have passed, the
      last one shows the target itself, and a non-negative count never shows a number
      outside [0, target]. */
  function CounterFrame(target: int, elapsed: nat): (r: (int, bool))
    ensures r.1 <==> elapsed < Duration
    ensures elapsed >= Duration ==> r.0 == target
    ensures elapsed == 0 ==> r.0 == 0
    ensures target >= 0 ==> 0 <= r.0 <= target
  {
    var p := Progress(elapsed);
    (CounterValue(target, p), p < 1.0)
  }

  /** The animation types `addElements` registers. */
  datatype Item = Item(element: nat, kind: string)

  /** `animatedElements.find(i => i.element === element)`: the first registration of the
      element, if any. */
  function FindItem(items: seq<Item>, element: nat): (r: Option<nat>)
    ensures r.None? ==> forall k :: 0 <= k < |items| ==> items[k].element != element
    ensures r.Some? ==>
      r.value < |items| && items[r.value].element == element
      && forall k :: 0 <= k < r.value ==> items[k].element != element
  {
    if items == [] then None
    else if items[0].element == element then Some(0)
    else match FindItem(items[1..], element)
      case None => None
      case Some(k) => Some(k + 1)
  }

  /** The transform `animateElement` sets for an animation type; any other type only
      changes the opacity. */
  function TransformFor(kind: string): (t: Option<string>)
    ensures t.Some? <==> kind == "fadeInUp" || kind == "fadeInLeft" || kind == "scaleIn"
  {
    match kind
    case "fadeInUp" => Some("translateY(0)")
    case "fadeInLeft" => Some("translateX(0)")
    case "scaleIn" => Some("scale(1)")
    case _ => None
  }

  class ScrollAnimations {
    /** `animatedElements`, in registration order. */
    var items: seq<Item>
    /** The inline `opacity` and `transform` of each element that has one. */
    var opacity: map<nat, string>
    var transform: map<nat, string>

    /** `new ScrollAnimations()`: the five groups of the page, each with its animation. */
    constructor (notes: seq<nat>, projects: seq<nat>, skills: seq<nat>, music: seq<nat>, stats: seq<nat>)
      ensures items ==
        Registrations(notes, "fadeInLeft") + Registrations(projects, "fadeInUp")
        + Registrations(skills, "fadeInUp") + Registrations(music, "fadeInUp")
        + Registrations(stats, "scaleIn")
      ensures opacity == Hidden(notes + projects + skills + music + stats)
      ensures transform == map[]
    {
      items := [];
      opacity := map[];
      transform := map[];
      new;
      AddElements(notes, "fadeInLeft");
      AddElements(projects, "fadeInUp");
      AddElements(skills, "fadeInUp");
      AddElements(music, "fadeInUp");
      AddElements(stats, "scaleIn");
      HiddenGroups(notes, projects, skills, music, stats);
    }

    /** `addElements(selector, animationType)` for the matched `elements`: each is hidden
        and registered with the animation type. */
    method AddElements(elements: seq<nat>, kind: string)
      modifies this`items, this`opacity
      ensures items == old(items) + Registrations(elements, kind)
      ensures opacity == old(opacity) + Hidden(elements)
    {
      var i := 0;
      while i < |elements|
        invariant 0 <= i <= |elements|
        invariant items == old(items) + Registrations(elements[..i], kind)
        invariant opacity == old(opacity) + Hidden(elements[..i])
      {
        var el := elements[i];
        AddStep(old(items), old(opacity), elements, i, kind);
        opacity := opacity[el := "0"];
        items := items + [Item(el, kind)];
        i := i + 1;
      }
      assert elements[..i] == elements;
    }

    /** `animateElement(element)`: an element that was never registered is left alone;
        otherwise its first registration decides the transform, and it is made opaque. */
    method AnimateElement(element: nat)
      modifies this`opacity, this`transform
      ensures FindItem(items, element).None? ==>
        opacity == old(opacity) && transform == old(transform)
      ensures FindItem(items, element).Some? ==>
        var kind := items[FindItem(items, element).value].kind;
        opacity == old(opacity)[element := "1"]
        && transform == (if TransformFor(kind).Some? then old(transform)[element := TransformFor(kind).value]
                         else old(transform))
    {
      var found := FindItem(items, element);
      if found.None? {
        return;
      }
      var kind := items[found.value].kind;
      match kind {
        case "fadeInUp" =>
          opacity := opacity[element := "1"];
          transform := transform[element := "translateY(0)"];
        case "fadeInLeft" =>
          opacity := opacity[element := "1"];
          transform := transform[element := "translateX(0)"];
        case "scaleIn" =>
          opacity := opacity[element := "1"];
          transform := transform[element := "scale(1)"];
        case _ =>
          opacity := opacity[element := "1"];
      }
    }
  }

  /** The inline opacity `addElements` gives its elements. */
  function Hidden(elements: seq<nat>): (m: map<nat, string>)
    ensures forall e :: e in m <==> e in elements
    ensures forall e :: e in m ==> m[e] == "0"
  {
    map e | e in elements :: "0"
  }

  lemma HiddenAppend(a: seq<nat>, b: seq<nat>)
    ensures Hidden(a) + Hidden(b) == Hidden(a + b)
  {
    assert forall e :: e in a + b <==> e in a || e in b;
  }

  /** One more element registered and hidden extends both by that element. */
  lemma AddStep(items: seq<Item>, opacity: map<nat, string>, elements: seq<nat>, i: nat, kind: string)
    requires i < |elements|
    ensures items + Registrations(elements[..i + 1], kind)
      == items + Registrations(elements[..i], kind) + [Item(elements[i], kind)]
    ensures opacity + Hidden(elements[..i + 1]) == (opacity + Hidden(elements[..i]))[elements[i] := "0"]
  {
    var a, x := elements[..i], elements[i];
    assert elements[..i + 1] == a + [x];
    assert forall e :: e in a + [x] <==> e in a || e == x;
  }

  lemma HiddenGroups(a: seq<nat>, b: seq<nat>, c: seq<nat>, d: seq<nat>, e: seq<nat>)
    ensures map[] + Hidden(a) + Hidden(b) + Hidden(c) + Hidden(d) + Hidden(e) == Hidden(a + b + c + d + e)
  {
    assert map[] + Hidden(a) == Hidden(a);
    HiddenAppend(a, b);
    HiddenAppend(a + b, c);
    HiddenAppend(a + b + c, d);
    HiddenAppend(a + b + c + d, e);
  }

  /** The registrations `addElements` pushes for its elements. */
  function Registrations(elements: seq<nat>, kind: string): (r: seq<Item>)
    ensures |r| == |elements|
    ensures forall k :: 0 <= k < |r| ==> r[k] == Item(elements[k], kind)
  {
    seq(|elements|, k requires 0 <= k < |elements| => Item(elements[k], kind))
  }
}
