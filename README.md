# Portfolio site scripts: a verified model

This project models the behaviour behind a personal portfolio site built from three
browser scripts:

- `js/ui.js` holds the page chrome:
  - the navigation bar's scroll-spy and hide-on-scroll;
  - the project filter;
  - the music player's play button and track list;
  - the theme manager with its saved preference, and the three-way theme toggle;
  - the newsletter form with its e-mail check and confetti.
- `js/animations.js` holds the animations:
  - the canvas starfield: 200 stars, 5 drifting nebulas and a pool of shooting stars;
  - the scroll-reveal animations;
  - the hero typewriter;
  - the statistics counters.
- `js/character.js` holds the alien mascot:
  - its idle, waving and excited states;
  - its speech bubble, its eyes that follow the mouse, and its head tilt;
  - its mood colours and its reactions to the sections scrolled into view.

The browser is replaced by explicit inputs:

- DOM elements become fields and datatypes: links, cards, buttons, flakes, particles and
  nebulas.
- Each `Math.random()` call becomes a real in [0, 1) taken from a `seq<real>` parameter.
  The draws are consumed in the order the scripts make them (`IsUnit`, `AllUnit`,
  `RandomIndex`). A loop that builds many objects takes one short sequence of draws per
  object (`Batches`).
- Each timer callback becomes a `...TimerFired` method. The timers still pending are
  counted in fields, so a callback can only fire after it was scheduled.
- `Math.cos`/`Math.sin` of a shooting star's heading become a `direction` parameter.
- `localStorage` becomes an `Option<string>` field.
- Intersection-observer callbacks become methods that take the entries.

Classes whose fields the scripts update in place are Dafny classes with `modifies`
clauses:

- `NavigationController`, `ProjectFilter`, `MusicPlayerUI`, `ThemeManager`,
  `ThemeToggleButton` and `AppNewsletterHandler`;
- `StarfieldAnimation`, `TypewriterEffect`, `CounterAnimation` and `ScrollAnimations`;
- `AlienCharacter` and `CharacterReactions`.

Each `forEach` or `for` loop in the scripts is a method with a `while` loop. That method
is proved against a specification function: `MarkActive`, `FilterCard`/`FadedOut`,
`StarsOf`, `NebulasOf`, `DriftAll`, `TickAll`, `ConfettiOf`, `NewlyStarted`,
`Registrations`/`Hidden`, or `MakeParticle`. The properties are proved about those
functions.

Numbers follow the scripts exactly where exactness is meaningful:

- A shooting star's opacity is kept in integer hundredths. A new star is at 100 and a
  frame takes 2, so a star lives exactly 50 frames.
- The counter's `Math.pow` easing is computed in exact reals.
- Angles are kept as fractions of a turn. A shooting star's heading is kept as its
  offset from pi / 4.

Two behaviours that may look odd are modelled as the code has them:

- The theme toggle's index starts at 0 whatever theme was loaded from storage
  (js/ui.js:781). The first click therefore always selects `cosmic`.
- A saved value that is not a theme, and is not a name every object inherits, leaves
  the CSS variables untouched: the code never calls `setTheme` in that case
  (js/ui.js:522-527). `ThemeManager.constructor` then leaves `cssVars` empty. An
  inherited name such as `toString` does reach `setTheme` (js/ui.js:524); see
  "## Findings".

Other behaviours, also as the code has them:

- The mascot's wave and click timers make it idle unconditionally, even if another
  event changed its state in between.
- The bubble's hide timer hides the bubble unconditionally, even if a newer message is
  showing.
- A click anywhere on the page adds a shooting star at the click position. This is
  `CreateShootingStar(Some(clientX), Some(clientY), draws)`. It takes three draws, or
  four when `clientX` is 0: a zero x is falsy and is replaced by a random one
  (`ShootingStarDraws`).
- A frame's random star is `CreateShootingStar(None, None, draws)` with four draws.

## Model

| member | source | states |
|---|---|---|
| JsPrims.RandomIndex | js/character.js:198 | `Math.floor(r * n)` for a draw r in [0, 1) is a valid index below n, and it is the index whose interval [k/n, (k+1)/n) holds r |
| JsPrims.OrElse | js/animations.js:100-101 | `x \|\| d` yields d exactly when x is missing or zero, and x itself otherwise |
| JsPrims.Trim | js/ui.js:908 | the input is the result wrapped in whitespace on both sides, and the result neither starts nor ends with whitespace |
| JsPrims.Prefix | js/animations.js:383 | `substring(0, n)` is a prefix of the string; it has length n when n is in range, is empty for negative n and is the whole string past the end |
| JsPrims.NatToString | js/ui.js:255 | the decimal rendering is a non-empty run of digits that denotes the number, with no leading zero for a positive number; a one-digit number renders as that digit |
| JsPrims.Clamp | js/character.js:143-144 | the result lies in [lo, hi], equals x when x is already inside, and is the nearer bound otherwise |
| Navigation.MarkActive | js/ui.js:76-83 | after `setActiveLink(id)` the links keep their hrefs, and a link is active exactly when its href is `#id` |
| Navigation.MarkActiveIdempotent | js/ui.js:76-83 | marking the same section twice gives the same links as marking it once |
| Navigation.AtMostOneActive | js/ui.js:76-83 | with distinct hrefs, any two active links are the same link, and that link points at the section |
| Navigation.NavigationController.constructor | js/ui.js:12-19 | the links are the page's links as the markup has them, the remembered scroll offset is 0, and the bar is neither solid nor hidden |
| Navigation.NavigationController.SetActiveLink | js/ui.js:76-83 | the loop over the links leaves them exactly as `MarkActive` describes |
| Navigation.NavigationController.OnScroll | js/ui.js:109-129 | the bar is solid exactly when the offset is past 50; it is hidden exactly when the offset grew and is past 200; the new offset is always remembered |
| ProjectFilters.FilterCard | js/ui.js:159-170 | a card the filter selects (filter `all` or its own category) is displayed with a fade-in delayed by its index; any other card fades out and keeps its display until its timer fires |
| ProjectFilters.HideAsWritten | js/ui.js:167-169 | the 300 ms timer as written hides the card whatever it shows by then |
| ProjectFilters.HideCorrected | js/ui.js:167-169 | the corrected timer hides a card only if it is still fading out, and leaves any other card as it is |
| ProjectFilters.StaleHideHidesSelectedCard | js/ui.js:159-170 | filtering a `web` card out and then choosing `all` within 300 ms: the first timer as written hides a card that `all` selects and displays |
| ProjectFilters.CorrectedHideKeepsSelectedCard | js/ui.js:159-170 | with the corrected timer, a card the current filter selects stays displayed |
| ProjectFilters.FadedOutExactly | js/ui.js:159-170 | one pass schedules a hide timer for exactly the cards the filter does not select, each once and in card order |
| ProjectFilters.ProjectFilter.constructor | js/ui.js:138-143 | all buttons and cards are taken in page order; every card starts displayed without animation, and no timer is pending |
| ProjectFilters.ProjectFilter.Filter | js/ui.js:151-172 | exactly the clicked button is active, every card is filtered as `FilterCard` says, one hide timer is queued per faded-out card, and the invariant linking displayed cards to pending timers is kept |
| ProjectFilters.ProjectFilter.ActivateOnly | js/ui.js:155-156 | every button keeps its filter, and only the clicked one is active |
| ProjectFilters.ProjectFilter.FilterCards | js/ui.js:159-171 | the card loop applies `FilterCard` to each card at its own index and queues the faded-out cards' timers in card order |
| ProjectFilters.ProjectFilter.HideTimerFired | js/ui.js:167-169 | the oldest pending timer fires with the corrected hide: that card is hidden as `HideCorrected` says, and the invariant is kept |
| ProjectFilters.ProjectFilter.SettledShowsExactlySelected | js/ui.js:151-171 | with the corrected hide timer, once every timer has fired, a card is displayed exactly when the last filter selects it |
| Cyclic.Next | js/ui.js:234 | `(i + 1) % n` stays below n: it is i + 1 before the last entry, and it wraps the last entry to 0 |
| Cyclic.Prev | js/ui.js:229 | `(i - 1 + n) % n` stays below n: it is i - 1 after the first entry, and it wraps 0 to the last entry |
| Cyclic.NextPrevInverse | js/ui.js:228-236 | next after previous, and previous after next, give back any index in range |
| Cyclic.FullCycle | js/ui.js:789 | n forward steps from any index in range come back to it |
| Cyclic.ShorterCycleMoves | js/ui.js:789 | fewer than n forward steps (at least one) never come back to the start |
| MusicPlayer.TrackTitle | js/ui.js:253-256 | the title starts with the track's name, is 11 characters longer than the name, and ends in `0` followed by the one-based track digit; past the list it starts with `undefined` |
| MusicPlayer.TitlesIdentifyTracks | js/ui.js:253-256 | the four tracks have four different titles |
| MusicPlayer.MusicPlayerUI.constructor | js/ui.js:180-193 | the player starts paused on track 0, and the cards keep the highlight the markup gives them |
| MusicPlayer.MusicPlayerUI.TogglePlay | js/ui.js:205-214 | playback flips, the button shows pause while playing and play otherwise, and the bars run exactly while playing |
| MusicPlayer.MusicPlayerUI.UpdateTrackDisplay | js/ui.js:253-256 | the title shows the current track |
| MusicPlayer.MusicPlayerUI.PrevTrack | js/ui.js:228-231 | the track moves one back, wrapping, stays within the four tracks, and its title is shown |
| MusicPlayer.MusicPlayerUI.NextTrack | js/ui.js:233-236 | the track moves one on, wrapping, stays within the four tracks, and its title is shown |
| MusicPlayer.MusicPlayerUI.SelectTrack | js/ui.js:238-251 | the clicked card's track is current and shown, playback is on afterwards whatever it was before, the button and bars change only if playback was off, and only that card is highlighted |
| MusicPlayer.MusicPlayerUI.Highlight | js/ui.js:247-250 | after the card loop exactly the selected card carries the highlight |
| Themes.PaletteOf | js/ui.js:497-516 | only `alien`, `cosmic` and `matrix` have a palette |
| Themes.ThemeVars | js/ui.js:535-541 | `setTheme` writes exactly the five custom properties; the primary, secondary, accent and background colours come from the palette, and the glow is `0 0 20px ` followed by the primary colour with alpha `80` |
| Themes.LoadedTheme | js/ui.js:496 | with the corrected own-key guard, the theme held after start-up is always a known theme: the saved name when it is one, `alien` otherwise |
| Themes.LoadedThemeAsWritten | js/ui.js:522-527 | as written, start-up loads the saved name when it is non-empty and passes the prototype-chain guard, and keeps `alien` otherwise |
| Themes.AsWrittenLoadsInheritedName | js/ui.js:524 | as written, a saved `toString` is loaded and becomes the current theme, although it has no palette |
| Themes.LoadedThemeAgreement | js/ui.js:524 | the as-written and the corrected start-up pick the same theme exactly when the saved value is not an inherited name |
| Themes.LoadScenarios | js/ui.js:522-527 | a saved `cosmic` loads the cosmic primary colour; a saved `bogus`, or nothing saved, keeps `alien` |
| Themes.CurrentAfterAsWritten | js/ui.js:530 | as written, `setTheme` makes the requested name current exactly when it passes the prototype-chain guard, and otherwise leaves the current theme as it was |
| Themes.AsWrittenAcceptsInheritedName | js/ui.js:530 | as written, `setTheme('toString')` makes a name with no palette the current theme |
| Themes.Icon | js/ui.js:801-808 | `alien`, `cosmic` and `matrix`, the only names `Click` passes, get the alien, galaxy and green-heart icons; a name with no own entry in the icon table gets the palette icon |
| Themes.IconsIdentifyThemes | js/ui.js:801-808 | the three themes the toggle cycles through show three different icons |
| Themes.UpperAscii | js/ui.js:812 | on ASCII input, `toUpperCase` maps a lower-case letter to the upper-case letter 32 code points below it and leaves every other character alone |
| Themes.Capitalize | js/ui.js:812 | the label keeps the length of the name, upper-cases its first character and keeps the rest |
| Themes.ThemeLabels | js/ui.js:810-812 | the notifications read `Theme: Alien`, `Theme: Cosmic` and `Theme: Matrix` |
| Themes.ThemeManager.constructor | js/ui.js:495-520 | with the corrected own-key guard, after start-up the current theme is `LoadedTheme(saved)`; the palette is applied only when the saved name is a theme; storage is unchanged |
| Themes.ThemeManager.LoadSavedTheme | js/ui.js:522-527 | with the corrected own-key guard, a non-empty saved theme name is applied; anything else changes nothing |
| Themes.ThemeManager.SetTheme | js/ui.js:529-547 | with the corrected own-key guard, an unknown name changes nothing; a known one becomes current, is persisted, and has its palette written; the current theme always stays a known theme |
| Themes.ToggleCycle | js/ui.js:780-790 | three toggle clicks bring the index back, and one or two never do |
| Themes.ThemeToggleButton.constructor | js/ui.js:777-783 | the index starts at 0 whatever theme the manager loaded |
| Themes.ThemeToggleButton.Click | js/ui.js:788-798 | the index advances cyclically; that theme becomes current, is persisted and has its palette written to the custom properties; the icon and the capitalised label follow it |
| Newsletter.IsValidEmail | js/ui.js:924-926 | the check holds exactly when the address matches `^[^\s@]+@[^\s@]+\.[^\s@]+$`, that is, three non-empty runs without whitespace or `@` around one `@` and a later `.` |
| Newsletter.MatchIsValid | js/ui.js:925 | a match of the pattern has no whitespace, and its first `@` has text before it, no `@` after it and a dot strictly inside the text after it |
| Newsletter.NotValidNoMatch | js/ui.js:925 | an address failing those checks does not match the pattern |
| Newsletter.ValidEmailCharacterization | js/ui.js:924-926 | an address is valid exactly when it has no whitespace and exactly one `@`, with text before it and a dot that is neither first nor last in the text after it |
| Newsletter.ExampleAddressIsValid | js/ui.js:924-926 | `user@example.com` is accepted |
| Newsletter.ExampleWordIsInvalid | js/ui.js:924-926 | `not-an-email` is rejected |
| Newsletter.MakeFlake | js/ui.js:958-970 | a flake is 5 to 15 px wide and high, uses one of the four colours, starts within the viewport width, is round exactly when its fifth draw exceeds 0.5, and falls for 2 to 4 s |
| Newsletter.ConfettiOf | js/ui.js:955-974 | the celebration is exactly 50 flakes, flake i built by `MakeFlake` from its own draws, each within the style template's width, height, colour, position and duration ranges |
| Newsletter.CreateConfetti | js/ui.js:955-974 | the loop produces exactly `ConfettiOf` of its draws |
| Newsletter.Submitted | js/ui.js:907-908 | there is a submitted value exactly when the form has an e-mail input, and it is the input's text trimmed as `Trim` characterises |
| Newsletter.AppNewsletterHandler.constructor | js/ui.js:870-875 | the handler starts with the input's text, unfocused, with no notification and no confetti |
| Newsletter.AppNewsletterHandler.HandleSubmit | js/ui.js:905-922 | an empty, missing or invalid trimmed address gets the error notification, keeps the input's text and focuses the input; a valid one gets the thanks notification, clears the input and adds exactly the 50 flakes |
| Newsletter.AppNewsletterHandler.Reject | js/ui.js:911-913 | one error notification is added, and the input, if any, takes focus |
| Newsletter.AppNewsletterHandler.Celebrate | js/ui.js:917-921 | one thanks notification is added, the input is emptied, and the confetti grows by `ConfettiOf` of the draws |
| Starfield.MakeStar | js/animations.js:53-61 | a star lies on the canvas, with radius in [0.5, 2.5), opacity in [0, 1), twinkle speed in [0.005, 0.025), phase below one turn, and one of the six colours |
| Starfield.MakeNebula | js/animations.js:85-94 | a nebula lies on the canvas, with radius in [100, 400), one of the three colours, and drift in [-0.1, 0.1) on each axis |
| Starfield.StarsOf | js/animations.js:51-63 | `createStars(count)` makes `count` stars, star i from its own seven draws |
| Starfield.NebulasOf | js/animations.js:77-96 | `createNebulas(count)` makes `count` nebulas, nebula i from its own six draws |
| Starfield.MakeShootingStar | js/animations.js:98-108 | a new shooting star is fully opaque with an empty trail; a falsy x becomes a point in [0, width) and a falsy y becomes 0, otherwise the given coordinates are kept; length, speed and heading offset lie in their ranges |
| Starfield.Wrap | js/animations.js:143-146 | a coordinate within a radius of the axis is kept; leaving by one edge moves it just outside the other; with a non-negative radius and extent the result lies in [-radius, size + radius] |
| Starfield.DriftNebula | js/animations.js:134-146 | a nebula keeps its radius, colour and drift; on each axis it moves by its drift plus a thousandth of the mouse's offset from the centre when that stays within a radius of the canvas; it always ends within a radius of the canvas |
| Starfield.DriftAll | js/animations.js:195 | the nebula pass drifts every nebula and keeps their number |
| Starfield.Tick | js/animations.js:164-185 | a faded star is left exactly as it is; any other star moves one speed along its heading and loses exactly one fade step, and its shape is kept |
| Starfield.TickAll | js/animations.js:201 | the shooting-star pass updates every star and keeps their number and order |
| Starfield.Prune | js/animations.js:204 | the cleanup filter never grows the pool, and every star it keeps has positive opacity |
| Starfield.PruneKeeps | js/animations.js:204 | the filter keeps exactly the stars of the pool whose opacity is positive |
| Starfield.PruneAppend | js/animations.js:204 | the filter works piece by piece, so it keeps the pool's order |
| Starfield.FrameKeepsPoolLive | js/animations.js:201-204 | if every star of the pool has opacity in (0, 1] before a frame, the same holds after the update and the filter |
| Starfield.TicksFade | js/animations.js:182-184 | while opacity remains, k frames take exactly k fade steps and move the star k speeds along its fixed heading |
| Starfield.TicksFaded | js/animations.js:165 | a faded star never changes again |
| Starfield.ShootingStarLifetime | js/animations.js:165-204 | a fully opaque star survives the filter for its first 49 updates, reaches zero at the 50th, is dropped, and never changes afterwards |
| Starfield.StarfieldAnimation.constructor | js/animations.js:12-30 | start-up sizes the canvas, makes exactly 200 stars and 5 nebulas from their draws, and runs the first frame |
| Starfield.StarfieldAnimation.Resize | js/animations.js:32-35 | the canvas takes the window's size |
| Starfield.StarfieldAnimation.OnMouseMove | js/animations.js:40-43 | the mouse position is recorded |
| Starfield.StarfieldAnimation.CreateStars | js/animations.js:51-63 | the loop appends exactly `StarsOf` its draws |
| Starfield.StarfieldAnimation.CreateNebulas | js/animations.js:77-96 | the loop appends exactly `NebulasOf` its draws |
| Starfield.StarfieldAnimation.CreateShootingStar | js/animations.js:98-108 | exactly one star joins the end of the pool, and the pool stays live |
| Starfield.StarfieldAnimation.Animate | js/animations.js:187-212 | a frame drifts every nebula and keeps it within a radius of the canvas; it updates then filters the shooting stars; it adds a random star exactly when the draw is below 0.003; it leaves the star and nebula pool sizes alone |
| Starfield.StarfieldAnimation.DrawNebulas | js/animations.js:195 | the loop leaves the nebulas exactly as `DriftAll` says |
| Starfield.StarfieldAnimation.DrawShootingStars | js/animations.js:201 | the loop leaves the pool exactly as `TickAll` says |
| Typewriter.Step | js/animations.js:374-399 | a step keeps the cursor in range: while typing it is before the end, and while deleting it is past the start |
| Typewriter.TypingStep | js/animations.js:385-396 | typing onto the last character turns the cursor round with the 2000 ms pause; any other typing step moves right with 100 ms |
| Typewriter.DeletingStep | js/animations.js:390-396 | deleting the first character moves to the next phrase modulo the count, at position 0, with 500 ms; any other deleting step moves left with 50 ms |
| Typewriter.Run | js/animations.js:374-399 | any number of steps keeps the cursor in range |
| Typewriter.TypingRun | js/animations.js:380-385 | k typing steps short of the end move k characters right in 100 k ms |
| Typewriter.DeletingRun | js/animations.js:377-395 | k deleting steps short of the start move k characters left in 50 k ms |
| Typewriter.RunAdd | js/animations.js:374-399 | a + b steps are a steps followed by b steps, and their delays add up |
| Typewriter.TypeThrough | js/animations.js:385-389 | L steps type a phrase of length L and turn round, after 100 (L - 1) + 2000 ms |
| Typewriter.DeleteThrough | js/animations.js:390-396 | L more steps delete it and reach the start of the next phrase, after 50 (L - 1) + 500 ms |
| Typewriter.PhraseCycle | js/animations.js:374-399 | 2 L steps take phrase p from empty back to empty and move on to phrase p + 1 modulo the count |
| Typewriter.TypewriterEffect.constructor | js/animations.js:362-372 | construction types the first character at once |
| Typewriter.TypewriterEffect.Type | js/animations.js:374-399 | one call moves the cursor and picks the delay exactly as `Step` does; the text shown is always the phrase up to the cursor |
| Counters.NewlyStarted | js/animations.js:414-420 | one observer batch starts exactly the in-view counters not started before, each once |
| Counters.CounterAnimation.constructor | js/animations.js:407-411 | no counter has started |
| Counters.CounterAnimation.OnEntries | js/animations.js:414-420 | the callback starts exactly `NewlyStarted` and adds them to the latch set; a counter never starts twice |
| Counters.Progress | js/animations.js:434 | progress is the elapsed share of two seconds, clamped to [0, 1], and it reaches 1 exactly at two seconds |
| Counters.CounterValue | js/animations.js:437-439 | the eased count is 0 at the start and the target at the end, and a non-negative target is never left |
| Counters.CounterFrame | js/animations.js:432-445 | frames keep coming exactly until two seconds have passed; at elapsed 0 it shows 0, the last frame shows the target, and none leaves [0, target] |
| Counters.FindItem | js/animations.js:335 | `find` returns the first registration of the element, or nothing if it was never registered |
| Counters.TransformFor | js/animations.js:338-353 | only `fadeInUp`, `fadeInLeft` and `scaleIn` set a transform |
| Counters.Hidden | js/animations.js:311 | `addElements` gives exactly its elements the opacity `0` |
| Counters.HiddenAppend | js/animations.js:308-315 | hiding two groups in turn is hiding their concatenation |
| Counters.Registrations | js/animations.js:313 | one registration per element, in order, with the group's animation type |
| Counters.ScrollAnimations.constructor | js/animations.js:291-306 | the five groups are registered in page order with their animations, and all their elements are hidden |
| Counters.ScrollAnimations.AddElements | js/animations.js:308-315 | the loop hides every element of the group and registers it |
| Counters.ScrollAnimations.AnimateElement | js/animations.js:334-354 | an unregistered element is left alone; a registered one becomes opaque and gets the transform of its first registration's type |
| Character.MakeParticle | js/character.js:245-256 | particle i points i tenths of a turn round, with velocity in [100, 150) and one of the five colours |
| Character.CreateParticleBurst | js/character.js:240-269 | a burst is exactly ten particles, particle i from its own two draws, each a tenth of a turn past the one before |
| Character.EyeOffset | js/character.js:138-144 | an eye moves a fiftieth of the mouse's distance from the centre, but never more than 5 px either way |
| Character.TiltDirection | js/character.js:229 | the tilt is +1 exactly when the page scrolled down, and -1 otherwise |
| Character.KnownMoods | js/character.js:307-324 | exactly `happy`, `excited`, `curious` and `creative` have a head colour |
| Character.SectionReaction | js/character.js:352-377 | each of the five sections has its mood and line; any other section is `happy` and says nothing; every mood used has a head colour |
| Character.AlienCharacter.constructor | js/character.js:12-45 | the mascot starts idle and happy and silent, with no scroll seen and no timer pending; the first eye tracking runs at once, so each eye sits at `EyeOffset` of a mouse at 0 |
| Character.AlienCharacter.OnMouseMove | js/character.js:88-91 | the mouse position is recorded |
| Character.AlienCharacter.TrackEyes | js/character.js:133-150 | both eyes are offset as `EyeOffset` says, within 5 px |
| Character.AlienCharacter.WaveIntervalTick | js/character.js:113-117 | a wave starts exactly when the draw is below 0.2 and the mascot is idle; otherwise nothing changes |
| Character.AlienCharacter.Wave | js/character.js:161-169 | the mascot waves, and the timer that ends the wave is pending |
| Character.AlienCharacter.WaveTimerFired | js/character.js:165-168 | the wave's timer makes the mascot idle |
| Character.AlienCharacter.Speak | js/character.js:180-189 | the bubble shows the message, and its hiding timer is pending |
| Character.AlienCharacter.HideTimerFired | js/character.js:185-188 | the bubble's timer hides it |
| Character.AlienCharacter.OnClick | js/character.js:191-211 | from any state the mascot is excited, says a message drawn by `RandomIndex` from the eight, and sends out the ten-particle burst; its return timer is pending |
| Character.AlienCharacter.ClickTimerFired | js/character.js:207-210 | the click's timer makes the mascot idle |
| Character.AlienCharacter.OnHover | js/character.js:213-217 | hovering makes the mascot greet the visitor |
| Character.AlienCharacter.OnScroll | js/character.js:224-238 | the first scroll only records the offset; later ones tilt the head 10 degrees in the scroll direction; the offset is always recorded |
| Character.AlienCharacter.TiltTimerFired | js/character.js:232-234 | the tilt's timer straightens the head |
| Character.AlienCharacter.SetMood | js/character.js:304-325 | the mood is always stored; only a known mood recolours the head, and any other leaves the colour alone |
| Character.CharacterReactions.constructor | js/character.js:333-336 | the reactions drive the given mascot |
| Character.CharacterReactions.ReactToSection | js/character.js:352-377 | the mascot takes the section's mood and head colour, and says the section's line when it has one; otherwise the bubble is untouched |

## Left out

- DOM queries, element creation and removal, and canvas drawing are not modelled: gradients, star twinkling, the fading background fill, inline CSS beyond the values named above, and the transition delays `addElements` sets. They are rendering with no decisions in them.
- Timer scheduling is not modelled as time. `setTimeout`, `setInterval` and `requestAnimationFrame` callbacks are methods the caller invokes, and the pending counts only say which callbacks may run. The relative order of different timers is left to the caller.
- Intersection-observer, scroll-spy and event-listener wiring is not modelled. The callbacks' decisions are methods: `OnEntries`, `AnimateElement` per intersecting entry, `SetActiveLink` per intersecting section, and `ReactToSection`. The browser's choice of entries is an input.
- `blink`, `pulseAntennas`, `onLeave`, `playSound`, the speech-bubble markup, and the particle, confetti and notification removal timers are presentation only, so they are not modelled.
- `FloatingParticles`, `MiniAliens`, `CursorEffects`, `LazyLoader`, `ContactFormHandler`, `BackToTopButton`, `QuickActionsBar`, the mobile menu, smooth scrolling and `debounce`/`throttle` are not part of this model.
- `Math.sin`/`Math.cos` are not computed. They are the `direction` parameter, and angles are fractions of a turn.
- Starfield.Tick: opacity is exact hundredths, not IEEE doubles. Repeated `-= 0.02` in floating point may end one frame earlier or later than the exact 50.
- Counters.CounterValue: the easing is exact real arithmetic rather than IEEE `Math.pow`. `toLocaleString` formatting is not modelled.
- Counters.CounterFrame: `parseInt` of `data-count` is taken as an integer, so the NaN case is not modelled.
- JsPrims.Falsy: NaN coordinates, which JavaScript also treats as falsy, are not modelled.
- Typewriter.TypewriterEffect.Type: this requires a non-empty list of non-empty phrases. With an empty phrase the script's cursor counts up without end; with no phrases it fails on `undefined`. Neither case is modelled.
- Typewriter.TypewriterEffect.Type: strings are sequences of code points. The script counts UTF-16 units, so a phrase with an emoji outside the Basic Multilingual Plane is one step longer there.
- Themes.ThemeManager.SetTheme: `localStorage` is the `stored` field. Storage exceptions (private mode, quota) are not modelled.
- Starfield.StarfieldAnimation.Resize: like the script, the model does not reposition stars or nebulas on resize.
- The shooting stars' `trail` is never filled by the script. The model carries it only as an always-empty field.
- ProjectFilters.ProjectFilter.HideTimerFired: fires the corrected hide (`HideCorrected`), not the unconditional `display = 'none'` of js/ui.js:168; the as-written timer is `HideAsWritten`, and the Findings row for js/ui.js:165-169 shows where they differ.
- ProjectFilters.ProjectFilter.SettledShowsExactlySelected: holds for the corrected hide timer only; with the timer as written a stale hide can leave a selected card hidden (`StaleHideHidesSelectedCard`).
- Themes.ThemeManager.constructor: starts up through `LoadSavedTheme` with the corrected own-key guard, so a saved inherited name is ignored rather than loaded as `LoadedThemeAsWritten` says.
- Themes.ThemeManager.LoadSavedTheme: uses the corrected own-key guard; the as-written start-up, which also loads inherited names, is `LoadedThemeAsWritten`.
- Themes.UpperAscii: only ASCII is upper-cased; JavaScript's `toUpperCase` also maps non-ASCII letters (`é` to `É`). The theme names are ASCII.
- Themes.Icon: the icon table is looked up by its own keys; as written an inherited name such as `toString` finds a truthy entry, but `Click` only passes the three theme names.
- Navigation.NavigationController.OnScroll: the background and shadow strings are the boolean `solid`, and the transform is the boolean `hidden`.

## Findings

| source | as written | input that shows it | evidently intended | confidence | as-written member | corrected member |
|---|---|---|---|---|---|---|
| js/ui.js:530 | the guard `this.themes[themeName]` reads through the prototype chain, so names every object inherits pass it | `setTheme('toString')`, reachable from the console through `window.ThemeManager` (js/ui.js:663): the current theme becomes `toString`, `theme.primary` is undefined, and `toString` is persisted | only the three palette names pass the guard, and the current theme is always one of them | high, not executed | Themes.AsWrittenAcceptsInheritedName | Themes.ThemeManager.SetTheme |
| js/ui.js:524 | the start-up guard `saved && this.themes[saved]` reads through the prototype chain as well | a stored `toString`, which the row above persists: it is loaded and becomes the current theme | only a saved palette name is loaded | high, not executed | Themes.AsWrittenLoadsInheritedName | Themes.LoadedTheme |
| js/ui.js:165-169 | each faded-out card's 300 ms hide timer is never cancelled, and it sets `display: none` unconditionally | a `web` card; click the `music` filter, then `all` within 300 ms: `all` displays the card, then the first timer hides it | a pending hide does not undo a later filter that selects the card again | medium, not executed | ProjectFilters.StaleHideHidesSelectedCard | ProjectFilters.CorrectedHideKeepsSelectedCard |
