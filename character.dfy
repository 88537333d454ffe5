/** The alien mascot: a small state machine (idle, waving, excited) driven by a random
    wave interval, clicks and the timers they set; a speech bubble; eyes that follow the
    mouse within a few pixels; a head that tilts with the scroll direction; a mood that
    recolours the head; and the section-by-section reactions that set the mood. */
module Character {
  import opened JsPrims

  datatype State = Idle | Waving | Excited

  /** What a click may say, one picked at random. */
  const Messages: seq<string> := [
    "Welcome to my universe! \U{1F44B}",
    "Exploring code & creativity! \U{1F680}",
    "Let's make something cosmic! \U{2728}",
    "Music is my universal language! \U{1F3B5}",
    "Tech + Art = Magic! \U{1FA84}",
    "Ready to collaborate? \U{1F91D}",
    "Click me for a surprise! \U{1F381}",
    "I come in peace... and code! \U{1F4BB}"
  ]

  const HoverMessage: string := "Hey there! \U{1F47D}"

  /** The wave interval starts a wave when its draw is below this. */
  const WaveChance: real := 0.2

  /** The furthest the eyes move from centre on each axis, in pixels, and the distance of
      the mouse that moves them one pixel. */
  const MaxEyeMove: real := 5.0
  const EyeScale: real := 50.0

  /** The head tilt, in degrees, while the page scrolls. */
  const TiltDegrees: int := 10

  const BurstSize: nat := 10
  const BurstColors: seq<string> := ["#00ff88", "#ff00ff", "#00ffff", "#ffff00", "#ff6b6b"]
  /** Draws per particle: its velocity, then its colour. */
  const DrawsPerParticle: nat := 2

  /** A burst particle. Its angle is kept as a fraction of a turn (the source's radians
      over 2 pi); its velocity is in pixels. */
  datatype Particle = Particle(turn: real, velocity: real, color: string)

  /** Particle `i` of a burst: the `i`-th of ten evenly spaced directions, a velocity in
      [100, 150) and one of the five colours. */
  function MakeParticle(i: nat, r: seq<real>): (p: Particle)
    requires i < BurstSize && |r| == DrawsPerParticle && AllUnit(r)
    ensures p.turn * BurstSize as real == i as real && 0.0 <= p.turn < 1.0
    ensures 100.0 <= p.velocity < 150.0
    ensures p.color in BurstColors
  {
    assert IsUnit(r[0]) && IsUnit(r[1]);
    Particle(i as real / BurstSize as real, 100.0 + r[0] * 50.0,
             BurstColors[RandomIndex(r[1], |BurstColors|)])
  }

  /** `createParticleBurst`: ten particles, particle `i` from its own two draws. The
      directions are the ten tenths of a turn in order, each a tenth past the one before. */
  method CreateParticleBurst(rnd: seq<seq<real>>) returns (burst: seq<Particle>)
    requires Batches(rnd, BurstSize, DrawsPerParticle)
    ensures |burst| == BurstSize
    ensures forall i :: 0 <= i < BurstSize ==>
      burst[i] == MakeParticle(i, rnd[i])
    ensures forall i :: 0 <= i < BurstSize - 1 ==>
      (burst[i + 1].turn - burst[i].turn) * BurstSize as real == 1.0
  {
    burst := [];
    var i := 0;
    while i < BurstSize
      invariant 0 <= i <= BurstSize && |burst| == i
      invariant forall k :: 0 <= k < i ==>
        burst[k] == MakeParticle(k, rnd[k])
    {
      burst := burst + [MakeParticle(i, rnd[i])];
      i := i + 1;
    }
  }

  /** The eye offset on one axis for the mouse at `mouse` and the mascot's centre at
      `center`: a fiftieth of the distance, clamped to five pixels either way. */
  function EyeOffset(mouse: real, center: real): (m: real)
    ensures -MaxEyeMove <= m <= MaxEyeMove
    ensures -MaxEyeMove * EyeScale <= mouse - center <= MaxEyeMove * EyeScale
      ==> m * EyeScale == mouse - center
    ensures mouse - center > MaxEyeMove * EyeScale ==> m == MaxEyeMove
    ensures mouse - center < -MaxEyeMove * EyeScale ==> m == -MaxEyeMove
  {
    Clamp(-MaxEyeMove, MaxEyeMove, (mouse - center) / EyeScale)
  }

  /** The tilt direction of a scroll from `last` to `scrollY`: down is 1, anything else
      (up or no movement) is -1. */
  function TiltDirection(scrollY: real, last: real): (d: int)
    ensures d == 1 || d == -1
    ensures d == 1 <==> scrollY > last
  {
    if scrollY > last then 1 else -1
  }

  /** The head background `setMood` sets; any other mood leaves the head as it is. */
  function HeadColor(mood: string): Option<string>
  {
    match mood
    case "happy" => Some("linear-gradient(180deg, #4ade80 0%, #22c55e 100%)")
    case "excited" => Some("linear-gradient(180deg, #facc15 0%, #eab308 100%)")
    case "curious" => Some("linear-gradient(180deg, #38bdf8 0%, #0ea5e9 100%)")
    case "creative" => Some("linear-gradient(180deg, #c084fc 0%, #a855f7 100%)")
    case _ => None
  }

  /** Exactly the four moods of the `switch` have a head colour. */
  lemma KnownMoods(mood: string)
    ensures HeadColor(mood).Some? <==>
      mood == "happy" || mood == "excited" || mood == "curious" || mood == "creative"
  {
  }

  /** `reactToSection`'s table: the mood for a section and what the mascot says there. */
  function SectionReaction(sectionId: string): (r: (string, Option<string>))
    ensures HeadColor(r.0).Some?
    ensures sectionId == "about" ==> r == ("curious", Some("Learn more about me! \U{1F4D6}"))
    ensures sectionId == "skills" ==> r == ("excited", Some("Check out my skills! \U{1F4AA}"))
    ensures sectionId == "projects" ==> r == ("creative", Some("My cosmic creations! \U{1F30C}"))
    ensures sectionId == "music" ==> r == ("happy", Some("Let's jam! \U{1F3B5}"))
    ensures sectionId == "contact" ==> r == ("excited", Some("Let's connect! \U{1F4E1}"))
    ensures r.1.None? <==>
      sectionId != "about" && sectionId != "skills" && sectionId != "projects"
      && sectionId != "music" && sectionId != "contact"
    ensures r.1.None? ==> r.0 == "happy"
  {
    match sectionId
    case "about" => ("curious", Some("Learn more about me! \U{1F4D6}"))
    case "skills" => ("excited", Some("Check out my skills! \U{1F4AA}"))
    case "projects" => ("creative", Some("My cosmic creations! \U{1F30C}"))
    case "music" => ("happy", Some("Let's jam! \U{1F3B5}"))
    case "contact" => ("excited", Some("Let's connect! \U{1F4E1}"))
    case _ => ("happy", None)
  }

  class AlienCharacter {
    var state: State
    var mood: string
    /** The head's inline background; `None` while the stylesheet's colour shows. */
    var headColor: Option<string>
    /** The speech bubble's text (`None` before anything was said) and whether it shows. */
    var speechText: Option<string>
    var speechVisible: bool
    var mouseX: real
    var mouseY: real
    /** The eyes' current translation. */
    var eyeX: real
    var eyeY: real
    /** The scroll offset seen by the previous scroll event, if any. */
    var lastScrollY: Option<real>
    /** The head's rotation in degrees; `None` while it is upright. */
    var headTilt: Option<int>
    /** The timers scheduled and not yet fired: the end of a wave, the end of a click's
        excitement, the bubble's hiding and the head's straightening. */
    var pendingWave: nat
    var pendingClick: nat
    var pendingHide: nat
    var pendingTilt: nat

    /** Every passing condition has a timer on its way to end it. */
    ghost predicate Valid()
      reads this
    {
      (state == Waving ==> pendingWave > 0)
      && (state == Excited ==> pendingClick > 0)
      && (speechVisible ==> pendingHide > 0)
      && (headTilt.Some? ==> pendingTilt > 0)
    }

    /** `new AlienCharacter(id)` for a mascot whose centre is on screen at (`centerX`,
        `centerY`): `init` starts the eye tracking, whose first `trackEyes` runs at once
        with the mouse still at (0, 0). */
    constructor (centerX: real, centerY: real)
      ensures Valid()
      ensures state == Idle && mood == "happy" && headColor == None
      ensures speechText == None && !speechVisible
      ensures mouseX == 0.0 && mouseY == 0.0
      ensures eyeX == EyeOffset(0.0, centerX) && eyeY == EyeOffset(0.0, centerY)
      ensures lastScrollY == None && headTilt == None
      ensures pendingWave == 0 && pendingClick == 0 && pendingHide == 0 && pendingTilt == 0
    {
      state := Idle;
      mood := "happy";
      headColor := None;
      speechText := None;
      speechVisible := false;
      mouseX, mouseY := 0.0, 0.0;
      lastScrollY := None;
      headTilt := None;
      pendingWave, pendingClick, pendingHide, pendingTilt := 0, 0, 0, 0;
      new;
      TrackEyes(centerX, centerY);
    }

    /** The document's `mousemove` listener. */
    method OnMouseMove(clientX: real, clientY: real)
      modifies this`mouseX, this`mouseY
      ensures mouseX == clientX && mouseY == clientY
    {
      mouseX := clientX;
      mouseY := clientY;
    }

    /** `trackEyes`, with the mascot's centre on screen at (`centerX`, `centerY`). */
    method TrackEyes(centerX: real, centerY: real)
      modifies this`eyeX, this`eyeY
      ensures eyeX == EyeOffset(mouseX, centerX) && eyeY == EyeOffset(mouseY, centerY)
      ensures -MaxEyeMove <= eyeX <= MaxEyeMove && -MaxEyeMove <= eyeY <= MaxEyeMove
    {
      var deltaX := mouseX - centerX;
      var deltaY := mouseY - centerY;
      eyeX := Clamp(-MaxEyeMove, MaxEyeMove, deltaX / EyeScale);
      eyeY := Clamp(-MaxEyeMove, MaxEyeMove, deltaY / EyeScale);
    }

    /** The five-second wave interval with its draw `r`: a wave starts only from idle and
        only when the draw is below 0.2. */
    method WaveIntervalTick(r: real)
      requires Valid()
      modifies this`state, this`pendingWave
      ensures Valid()
      ensures r < WaveChance && old(state) == Idle ==> state == Waving && pendingWave == old(pendingWave) + 1
      ensures !(r < WaveChance && old(state) == Idle) ==> state == old(state) && pendingWave == old(pendingWave)
    {
      if r < WaveChance && state == Idle {
        Wave();
      }
    }

    /** `wave`: the mascot waves and the timer that ends the wave is set. */
    method Wave()
      modifies this`state, this`pendingWave
      ensures state == Waving && pendingWave == old(pendingWave) + 1
    {
      state := Waving;
      pendingWave := pendingWave + 1;
    }

    /** The wave's 1.5 s timer: the mascot is idle again, whatever happened meanwhile. */
    method WaveTimerFired()
      requires Valid() && pendingWave > 0
      modifies this`state, this`pendingWave
      ensures Valid()
      ensures state == Idle && pendingWave == old(pendingWave) - 1
    {
      state := Idle;
      pendingWave := pendingWave - 1;
    }

    /** `speak(message)`: the bubble shows the message and its 3 s hiding timer is set. */
    method Speak(message: string)
      requires Valid()
      modifies this`speechText, this`speechVisible, this`pendingHide
      ensures Valid()
      ensures speechText == Some(message) && speechVisible
      ensures pendingHide == old(pendingHide) + 1
    {
      speechText := Some(message);
      speechVisible := true;
      pendingHide := pendingHide + 1;
    }

    /** The bubble's 3 s timer: the bubble fades, whatever it says by then. */
    method HideTimerFired()
      requires Valid() && pendingHide > 0
      modifies this`speechVisible, this`pendingHide
      ensures Valid()
      ensures !speechVisible && pendingHide == old(pendingHide) - 1
    {
      speechVisible := false;
      pendingHide := pendingHide - 1;
    }

    /** `onClick`, with the message draw `rMessage` and the burst's draws: from any state
        the mascot is excited, says the drawn message and sends out its particle burst. */
    method OnClick(rMessage: real, burstDraws: seq<seq<real>>) returns (burst: seq<Particle>)
      requires Valid()
      requires IsUnit(rMessage) && Batches(burstDraws, BurstSize, DrawsPerParticle)
      modifies this`state, this`pendingClick, this`speechText, this`speechVisible, this`pendingHide
      ensures Valid()
      ensures state == Excited && pendingClick == old(pendingClick) + 1
      ensures speechText == Some(Messages[RandomIndex(rMessage, |Messages|)]) && speechVisible
      ensures pendingHide == old(pendingHide) + 1
      ensures |burst| == BurstSize
      ensures forall i :: 0 <= i < BurstSize ==>
        burst[i] == MakeParticle(i, burstDraws[i])
    {
      state := Excited;
      pendingClick := pendingClick + 1;
      var message := Messages[RandomIndex(rMessage, |Messages|)];
      Speak(message);
      burst := CreateParticleBurst(burstDraws);
    }

    /** The click's 0.5 s timer: the mascot is idle again, whatever happened meanwhile. */
    method ClickTimerFired()
      requires Valid() && pendingClick > 0
      modifies this`state, this`pendingClick
      ensures Valid()
      ensures state == Idle && pendingClick == old(pendingClick) - 1
    {
      state := Idle;
      pendingClick := pendingClick - 1;
    }

    /** `onHover`: the mascot greets the visitor. */
    method OnHover()
      requires Valid()
      modifies this`speechText, this`speechVisible, this`pendingHide
      ensures Valid()
      ensures speechText == Some(HoverMessage) && speechVisible
      ensures pendingHide == old(pendingHide) + 1
    {
      Speak(HoverMessage);
    }

    /** `onScroll` at offset `scrollY`: the first event only records the offset; later ones
        tilt the head ten degrees in the scroll direction and set the timer that
        straightens it. */
    method OnScroll(scrollY: real)
      requires Valid()
      modifies this`lastScrollY, this`headTilt, this`pendingTilt
      ensures Valid()
      ensures lastScrollY == Some(scrollY)
      ensures old(lastScrollY).None? ==> headTilt == old(headTilt) && pendingTilt == old(pendingTilt)
      ensures old(lastScrollY).Some? ==>
        headTilt == Some(TiltDirection(scrollY, old(lastScrollY).value) * TiltDegrees)
        && pendingTilt == old(pendingTilt) + 1
    {
      if lastScrollY.Some? {
        var direction := if scrollY > lastScrollY.value then 1 else -1;
        headTilt := Some(direction * TiltDegrees);
        pendingTilt := pendingTilt + 1;
      }
      lastScrollY := Some(scrollY);
    }

    /** The tilt's 0.3 s timer: the head is upright again. */
    method TiltTimerFired()
      requires Valid() && pendingTilt > 0
      modifies this`headTilt, this`pendingTilt
      ensures Valid()
      ensures headTilt == None && pendingTilt == old(pendingTilt) - 1
    {
      headTilt := None;
      pendingTilt := pendingTilt - 1;
    }

    /** `setMood(mood)`: the mood is always stored; only a known mood recolours the head. */
    method SetMood(m: string)
      requires Valid()
      modifies this`mood, this`headColor
      ensures Valid()
      ensures mood == m
      ensures HeadColor(m).Some? ==> headColor == HeadColor(m)
      ensures HeadColor(m).None? ==> headColor == old(headColor)
    {
      mood := m;
      var color := HeadColor(m);
      if color.Some? {
        headColor := color;
      }
    }
  }

  class CharacterReactions {
    const character: AlienCharacter

    constructor (c: AlienCharacter)
      ensures character == c
    {
      character := c;
    }

    /** `reactToSection(sectionId)`: the section's mood is set and, for the five named
        sections, its line is said. */
    method ReactToSection(sectionId: string)
      requires character.Valid()
      modifies character`mood, character`headColor, character`speechText,
               character`speechVisible, character`pendingHide
      ensures character.Valid()
      ensures var (m, message) := SectionReaction(sectionId);
        character.mood == m && character.headColor == HeadColor(m)
        && (message.Some? ==>
              character.speechText == message && character.speechVisible
              && character.pendingHide == old(character.pendingHide) + 1)
        && (message.None? ==>
              character.speechText == old(character.speechText)
              && character.speechVisible == old(character.speechVisible)
              && character.pendingHide == old(character.pendingHide))
    {
      var reaction := SectionReaction(sectionId);
      React(reaction.0, reaction.1);
    }

    /** One case of the `switch`: `setMood(m)`, then `speak` when the case has a line. */
    method React(m: string, message: Option<string>)
      requires character.Valid()
      modifies character`mood, character`headColor, character`speechText,
               character`speechVisible, character`pendingHide
      ensures character.Valid()
      ensures character.mood == m
      ensures HeadColor(m).Some? ==> character.headColor == HeadColor(m)
      ensures HeadColor(m).None? ==> character.headColor == old(character.headColor)
      ensures message.Some? ==>
        character.speechText == message && character.speechVisible
        && character.pendingHide == old(character.pendingHide) + 1
      ensures message.None? ==>
        character.speechText == old(character.speechText)
        && character.speechVisible == old(character.speechVisible)
        && character.pendingHide == old(character.pendingHide)
    {
      character.SetMood(m);
      if message.Some? {
        character.Speak(message.value);
      }
    }
  }
}
