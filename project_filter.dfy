/** The project filter: clicking a filter button makes it the only active button, shows
    (with a staggered fade-in) every card whose category the filter selects, and fades out
    the others, hiding each one 300 ms later. */
module ProjectFilters {
  import opened JsPrims

  /** The inline animation a card carries: none yet, the fade-in with a delay of
      `index * 0.1` s (kept as the index), or the fade-out. */
  datatype CardAnimation = NoAnimation | FadeInUp(index: nat) | FadeOut

  /** A `.project-card`: its `data-category`, whether it is displayed (its `display` is not
      `none`; cards start displayed by the stylesheet) and its animation. */
  datatype Card = Card(category: string, displayed: bool, animation: CardAnimation)

  /** A `.filter-btn`: its `data-filter` and whether it has the `active` class. */
  datatype FilterButton = FilterButton(filter: string, active: bool)

  /** The filter predicate: `filter === 'all' || category === filter`. */
  predicate Selects(filter: string, category: string) {
    filter == "all" || category == filter
  }

  /** What one pass of `filter` does to the card at `index`: a selected card is displayed
      at once with its fade-in; any other card gets the fade-out and keeps its display
      until its hide timer fires. */
  function FilterCard(card: Card, index: nat, filter: string): (r: Card)
    ensures r.category == card.category
    ensures Selects(filter, card.category) ==> r.displayed && r.animation == FadeInUp(index)
    ensures !Selects(filter, card.category) ==> r.displayed == card.displayed && r.animation == FadeOut
  {
    if filter == "all" || card.category == filter then
      card.(displayed := true, animation := FadeInUp(index))
    else
      card.(animation := FadeOut)
  }

  /** The 300 ms timer callback as the source writes it: `card.style.display = 'none'`,
      whatever has happened to the card since the timer was set. */
  function HideAsWritten(card: Card): (r: Card)
    ensures !r.displayed && r.category == card.category && r.animation == card.animation
  {
    card.(displayed := false)
  }

  /** The hide timer as evidently intended: it hides the card only if the card is still
      fading out, so a later filter that selected the card again is not undone. */
  function HideCorrected(card: Card): (r: Card)
    ensures r.category == card.category && r.animation == card.animation
    ensures card.animation.FadeOut? ==> !r.displayed
    ensures !card.animation.FadeOut? ==> r.displayed == card.displayed
  {
    if card.animation.FadeOut? then card.(displayed := false) else card
  }

  /** The stale timer as written: filter a `web` card out, select `all` before 300 ms
      pass, and the first filter's timer hides the card that `all` shows. */
  lemma StaleHideHidesSelectedCard()
    ensures var c0 := Card("web", true, NoAnimation);
            var c1 := FilterCard(c0, 0, "music");
            var c2 := FilterCard(c1, 0, "all");
            Selects("all", c2.category) && c2.displayed && !HideAsWritten(c2).displayed
  {
  }

  /** With the corrected timer a card the current filter selects stays displayed. */
  lemma CorrectedHideKeepsSelectedCard(card: Card, index: nat, filter: string)
    requires Selects(filter, card.category)
    ensures HideCorrected(FilterCard(card, index, filter)).displayed
  {
  }

  class ProjectFilter {
    var buttons: seq<FilterButton>
    var cards: seq<Card>
    /** The cards whose 300 ms hide timers are pending, in the order they fire. */
    var pendingHides: seq<nat>
    /** The `data-filter` of the last clicked button, if any. */
    var current: Option<string>

    /** Every pending timer names a card; a fading-in card is displayed; a fading-out card
        that is still displayed has a timer pending; every card carries the animation the
        last filter gave it. */
    ghost predicate Valid()
      reads this
    {
      (forall k :: 0 <= k < |pendingHides| ==> pendingHides[k] < |cards|)
      && (forall c :: 0 <= c < |cards| && cards[c].animation.FadeInUp? ==> cards[c].displayed)
      && (forall c :: 0 <= c < |cards| && cards[c].animation.FadeOut? && cards[c].displayed
            ==> c in pendingHides)
      && (current.Some? ==> forall c :: 0 <= c < |cards| ==>
            cards[c].animation == (if Selects(current.value, cards[c].category)
                                   then FadeInUp(c) else FadeOut))
      && (current.None? ==> forall c :: 0 <= c < |cards| ==> cards[c].animation == NoAnimation)
    }

    constructor (filters: seq<string>, categories: seq<string>)
      ensures Valid()
      ensures |buttons| == |filters| && |cards| == |categories|
      ensures forall j :: 0 <= j < |filters| ==> buttons[j].filter == filters[j]
      ensures forall c :: 0 <= c < |categories| ==>
        cards[c] == Card(categories[c], true, NoAnimation)
      ensures pendingHides == [] && current == None
    {
      buttons := seq(|filters|, j requires 0 <= j < |filters| => FilterButton(filters[j], false));
      cards := seq(|categories|, c requires 0 <= c < |categories| => Card(categories[c], true, NoAnimation));
      pendingHides := [];
      current := None;
    }

    /** `filter(activeBtn)` for the button at index `b`. */
    method Filter(b: nat)
      requires Valid() && b < |buttons|
      modifies this
      ensures Valid()
      ensures |buttons| == |old(buttons)|
      ensures forall j :: 0 <= j < |buttons| ==>
        buttons[j].filter == old(buttons)[j].filter && (buttons[j].active <==> j == b)
      ensures |cards| == |old(cards)|
      ensures forall c :: 0 <= c < |cards| ==>
        cards[c] == FilterCard(old(cards)[c], c, old(buttons)[b].filter)
      ensures current == Some(old(buttons)[b].filter)
      ensures pendingHides == old(pendingHides) + FadedOut(old(cards), old(buttons)[b].filter, |cards|)
    {
      var filter := buttons[b].filter;
      ActivateOnly(b);
      FadedOutExactly(cards, filter, |cards|);
      FilterCards(filter);
      current := Some(filter);
      forall k | 0 <= k < |cards| && cards[k].animation.FadeOut? && cards[k].displayed
        ensures k in pendingHides
      {
        assert !Selects(filter, old(cards)[k].category);
        assert k in FadedOut(old(cards), filter, |cards|);
      }
    }

    /** The button pass of `filter`: `active` is removed from every button and added to
        the clicked one. */
    method ActivateOnly(b: nat)
      requires b < |buttons|
      modifies this`buttons
      ensures |buttons| == |old(buttons)|
      ensures forall j :: 0 <= j < |buttons| ==>
        buttons[j].filter == old(buttons)[j].filter && (buttons[j].active <==> j == b)
    {
      var j := 0;
      while j < |buttons|
        invariant 0 <= j <= |buttons| == |old(buttons)|
        invariant forall k :: 0 <= k < |buttons| ==> buttons[k].filter == old(buttons)[k].filter
        invariant forall k :: 0 <= k < j ==> !buttons[k].active
      {
        buttons := buttons[j := buttons[j].(active := false)];
        j := j + 1;
      }
      buttons := buttons[b := buttons[b].(active := true)];
    }

    /** The card pass of `filter`: each card is shown or faded out, and a hide timer is
        scheduled for each faded-out card. */
    method FilterCards(filter: string)
      modifies this`cards, this`pendingHides
      ensures |cards| == |old(cards)|
      ensures forall c :: 0 <= c < |cards| ==> cards[c] == FilterCard(old(cards)[c], c, filter)
      ensures pendingHides == old(pendingHides) + FadedOut(old(cards), filter, |cards|)
    {
      var c := 0;
      while c < |cards|
        invariant 0 <= c <= |cards| == |old(cards)|
        invariant forall k :: 0 <= k < c ==> cards[k] == FilterCard(old(cards)[k], k, filter)
        invariant forall k :: c <= k < |cards| ==> cards[k] == old(cards)[k]
        invariant pendingHides == old(pendingHides) + FadedOut(old(cards), filter, c)
      {
        PendingStep(old(pendingHides), pendingHides, old(cards), filter, c);
        if !Selects(filter, cards[c].category) {
          pendingHides := pendingHides + [c];
        }
        cards := cards[c := FilterCard(cards[c], c, filter)];
        c := c + 1;
      }
    }

    /** The oldest pending hide timer fires; the card is hidden as `HideCorrected` says. */
    method HideTimerFired()
      requires Valid() && pendingHides != []
      modifies this`cards, this`pendingHides
      ensures Valid()
      ensures pendingHides == old(pendingHides)[1..]
      ensures var c := old(pendingHides)[0];
        cards == old(cards)[c := HideCorrected(old(cards)[c])]
    {
      var c := pendingHides[0];
      cards := cards[c := HideCorrected(cards[c])];
      pendingHides := pendingHides[1..];
      forall k | 0 <= k < |cards| && cards[k].animation.FadeOut? && cards[k].displayed
        ensures k in pendingHides
      {
        assert k != c;
        assert k in old(pendingHides);
        var m :| 0 <= m < |old(pendingHides)| && old(pendingHides)[m] == k;
        assert m != 0;
        assert pendingHides[m - 1] == k;
      }
    }

    /** Once every hide timer has fired, exactly the cards the last filter selects are
        displayed. */
    lemma SettledShowsExactlySelected(c: nat)
      requires Valid() && pendingHides == [] && current.Some? && c < |cards|
      ensures cards[c].displayed <==> Selects(current.value, cards[c].category)
    {
    }
  }

  /** The indices below `n` of the cards a filter fades out, in increasing order: the
      hide timers one pass of `filter` schedules. */
  function FadedOut(cards: seq<Card>, filter: string, n: nat): seq<nat>
    requires n <= |cards|
  {
    if n == 0 then []
    else FadedOut(cards, filter, n - 1)
         + (if Selects(filter, cards[n - 1].category) then [] else [n - 1])
  }

  /** The hide timers of one pass are exactly the cards below `n` that the filter does
      not select, each once, in card order. */
  lemma {:induction false} FadedOutExactly(cards: seq<Card>, filter: string, n: nat)
    requires n <= |cards|
    ensures var r := FadedOut(cards, filter, n);
      (forall k :: 0 <= k < |r| ==> r[k] < n && !Selects(filter, cards[r[k]].category))
      && (forall k, m :: 0 <= k < m < |r| ==> r[k] < r[m])
      && (forall c :: 0 <= c < n && !Selects(filter, cards[c].category) ==> c in r)
  {
    FadedOutSound(cards, filter, n);
    FadedOutIncreasing(cards, filter, n);
    FadedOutComplete(cards, filter, n);
  }

  /** One more card extends the timers of a pass by that card if the filter does not
      select it. */
  lemma FadedOutStep(cards: seq<Card>, filter: string, c: nat)
    requires c < |cards|
    ensures FadedOut(cards, filter, c + 1)
      == FadedOut(cards, filter, c) + (if Selects(filter, cards[c].category) then [] else [c])
  {
  }

  /** The timers scheduled by a pass after one more card. */
  lemma PendingStep(pending0: seq<nat>, pending: seq<nat>, cards: seq<Card>, filter: string, c: nat)
    requires c < |cards| && pending == pending0 + FadedOut(cards, filter, c)
    ensures !Selects(filter, cards[c].category) ==> pending + [c] == pending0 + FadedOut(cards, filter, c + 1)
    ensures Selects(filter, cards[c].category) ==> pending == pending0 + FadedOut(cards, filter, c + 1)
  {
    FadedOutStep(cards, filter, c);
  }

  lemma {:induction false} FadedOutSound(cards: seq<Card>, filter: string, n: nat)
    requires n <= |cards|
    ensures var r := FadedOut(cards, filter, n);
      forall k :: 0 <= k < |r| ==> r[k] < n && !Selects(filter, cards[r[k]].category)
  {
    if n > 0 {
      FadedOutStep(cards, filter, n - 1);
      FadedOutSound(cards, filter, n - 1);
    }
  }

  lemma {:induction false} FadedOutIncreasing(cards: seq<Card>, filter: string, n: nat)
    requires n <= |cards|
    ensures var r := FadedOut(cards, filter, n);
      forall k, m :: 0 <= k < m < |r| ==> r[k] < r[m]
  {
    if n > 0 {
      FadedOutStep(cards, filter, n - 1);
      FadedOutSound(cards, filter, n - 1);
      FadedOutIncreasing(cards, filter, n - 1);
    }
  }

  lemma {:induction false} FadedOutComplete(cards: seq<Card>, filter: string, n: nat)
    requires n <= |cards|
    ensures var r := FadedOut(cards, filter, n);
      forall c :: 0 <= c < n && !Selects(filter, cards[c].category) ==> c in r
  {
    if n > 0 {
      FadedOutStep(cards, filter, n - 1);
      FadedOutComplete(cards, filter, n - 1);
    }
  }

}
