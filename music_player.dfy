/** The music-player chrome: a play/pause button that also starts and pauses the
    visualizer bars, previous/next buttons that cycle through four track names, and music
    cards that select a track, start playback and highlight themselves. */
module MusicPlayer {
  import opened JsPrims
  import opened Cyclic

  /** The player's fixed track list. */
  const Tracks: seq<string> := ["Cosmic Journey", "UFO Nights", "Lunar Dreams", "Stardust"]

  /** The play button's two labels: pause (while playing) and play. */
  const PauseLabel: string := "\U{23F8}\U{FE0F}"
  const PlayLabel: string := "\U{25B6}\U{FE0F}"

  /** The `.track-title` text: the track's name, or `undefined` past the end of the list,
      then ` - Track 0` and the one-based number. */
  function TrackTitle(i: nat): (r: string)
    ensures i < |Tracks| ==> |r| == |Tracks[i]| + 11 && r[..|Tracks[i]|] == Tracks[i]
    ensures i < |Tracks| ==> r[|r| - 2..] == ['0', DigitChar(i + 1)]
    ensures i >= |Tracks| ==> |r| > 9 && r[..9] == "undefined"
  {
    var name := if i < |Tracks| then Tracks[i] else "undefined";
    name + " - Track 0" + NatToString(i + 1)
  }

  /** Each of the four tracks has its own title, so the title shows which track is on. */
  lemma TitlesIdentifyTracks(i: nat, j: nat)
    requires i < |Tracks| && j < |Tracks| && TrackTitle(i) == TrackTitle(j)
    ensures i == j
  {
    var t := TrackTitle(i);
    assert t[|t| - 1] == DigitChar(i + 1) && t[|t| - 1] == DigitChar(j + 1);
  }

  class MusicPlayerUI {
    var isPlaying: bool
    var currentTrack: nat
    /** The `.track-title` text; `None` while the markup's own text is untouched. */
    var title: Option<string>
    /** The play button's text; `None` while the markup's own label is untouched. */
    var playButton: Option<string>
    /** The visualizer bars' play state (`running` is true); `None` before any toggle. */
    var barsRunning: Option<bool>
    /** Whether each `.music-card` carries the selection border and scale. */
    var highlighted: seq<bool>

    /** `new MusicPlayerUI()` over the page's `.music-card` elements, whose highlight comes
        from the markup as it is. */
    constructor (cardHighlights: seq<bool>)
      ensures !isPlaying && currentTrack == 0
      ensures title == None && playButton == None && barsRunning == None
      ensures highlighted == cardHighlights
    {
      isPlaying := false;
      currentTrack := 0;
      title := None;
      playButton := None;
      barsRunning := None;
      highlighted := cardHighlights;
    }

    /** `togglePlay`: flips playback, relabels the button and starts or pauses the bars. */
    method TogglePlay()
      modifies this`isPlaying, this`playButton, this`barsRunning
      ensures isPlaying == !old(isPlaying)
      ensures playButton == Some(if isPlaying then PauseLabel else PlayLabel)
      ensures barsRunning == Some(isPlaying)
    {
      isPlaying := !isPlaying;
      playButton := Some(if isPlaying then PauseLabel else PlayLabel);
      if isPlaying {
        barsRunning := Some(true);
      } else {
        barsRunning := Some(false);
      }
    }

    method UpdateTrackDisplay()
      modifies this`title
      ensures title == Some(TrackTitle(currentTrack))
    {
      title := Some(TrackTitle(currentTrack));
    }

    /** `prevTrack`: the previous track, wrapping from the first to the last. */
    method PrevTrack()
      modifies this`currentTrack, this`title
      ensures currentTrack == Prev(old(currentTrack), |Tracks|) && currentTrack < |Tracks|
      ensures title == Some(TrackTitle(currentTrack))
    {
      currentTrack := (currentTrack - 1 + |Tracks|) % |Tracks|;
      UpdateTrackDisplay();
    }

    /** `nextTrack`: the next track, wrapping from the last to the first. */
    method NextTrack()
      modifies this`currentTrack, this`title
      ensures currentTrack == Next(old(currentTrack), |Tracks|) && currentTrack < |Tracks|
      ensures title == Some(TrackTitle(currentTrack))
    {
      currentTrack := (currentTrack + 1) % |Tracks|;
      UpdateTrackDisplay();
    }

    /** `selectTrack(index)`, from a click on the music card at `index`: that track is
        shown, playback is on afterwards whatever it was, and only that card is
        highlighted. */
    method SelectTrack(index: nat)
      requires index < |highlighted|
      modifies this
      ensures currentTrack == index && isPlaying
      ensures title == Some(TrackTitle(index))
      ensures old(isPlaying) ==> playButton == old(playButton) && barsRunning == old(barsRunning)
      ensures !old(isPlaying) ==> playButton == Some(PauseLabel) && barsRunning == Some(true)
      ensures |highlighted| == |old(highlighted)|
      ensures forall i :: 0 <= i < |highlighted| ==> (highlighted[i] <==> i == index)
    {
      currentTrack := index;
      UpdateTrackDisplay();
      if !isPlaying {
        TogglePlay();
      }
      Highlight(index);
    }

    /** The highlight pass of `selectTrack`: only the card at `index` keeps the border. */
    method Highlight(index: nat)
      modifies this`highlighted
      ensures |highlighted| == |old(highlighted)|
      ensures forall i :: 0 <= i < |highlighted| ==> (highlighted[i] <==> i == index)
    {
      var i := 0;
      while i < |highlighted|
        invariant 0 <= i <= |highlighted| == |old(highlighted)|
        invariant forall k :: 0 <= k < i ==> (highlighted[k] <==> k == index)
      {
        highlighted := highlighted[i := i == index];
        i := i + 1;
      }
    }
  }
}
