/** The playback state machine of the `SpotifyClone` controller: its five
    state fields, the pure transitions that specify each event handler, the
    properties of those transitions, and the controller itself as a class
    whose methods update the fields in place and push the result to the
    page elements it writes. */
module Player {
  import opened ClockText

  datatype Track = Track(title: string, artist: string, duration: string)

  /** The `src`, `alt` and inline opacity of the play/pause button image. */
  datatype Icon = Icon(src: string, alt: string, opacity: string)

  const PlayIcon := Icon("./Assets/player_icon3.png", "Play", "1")
  const PauseIcon := Icon("./Assets/player_icon4.png", "Pause", "1")

  /** The values the controller writes into the page: the play/pause button,
      the progress slider, the elapsed-time label, the title and artist
      labels and the volume slider. */
  datatype Page = Page(
    playButton: Icon,
    progressValue: int,
    progressMax: int,
    timeLabel: string,
    titleLabel: string,
    artistLabel: string,
    volumeSlider: real)

  /** The controller's state fields. */
  datatype PlayerState = PlayerState(
    isPlaying: bool,
    currentTime: int,
    duration: int,
    volume: real,
    track: Track)

  /** The elapsed time lies within the track. */
  predicate InRange(p: PlayerState) { 0 <= p.currentTime <= p.duration }

  // ----- Transitions, one per event handler -----

  /** `togglePlayPause`: the flag flips whether or not the button is found. */
  function Toggled(p: PlayerState): PlayerState
  {
    p.(isPlaying := !p.isPlaying)
  }

  /** `previousTrack` and `nextTrack`: there is no track list, so both rewind. */
  function Rewound(p: PlayerState): PlayerState
  {
    p.(currentTime := 0)
  }

  /** The body of the one-second interval started by `startProgress`. */
  function Ticked(p: PlayerState): PlayerState
  {
    if p.currentTime < p.duration then p.(currentTime := p.currentTime + 1) else Rewound(p)
  }

  /** `seekTo`: the slider value is taken as it is, with no clamp. */
  function Seeked(p: PlayerState, value: int): PlayerState
  {
    p.(currentTime := value)
  }

  /** `Math.max(0, Math.min(1, value))`. */
  function Clamp01(value: real): (v: real)
    ensures 0.0 <= v <= 1.0
    ensures 0.0 <= value <= 1.0 ==> v == value
    ensures value < 0.0 ==> v == 0.0
    ensures value > 1.0 ==> v == 1.0
  {
    var low := if value < 1.0 then value else 1.0;
    if 0.0 < low then low else 0.0
  }

  /** `setVolume`. */
  function WithVolume(p: PlayerState, value: real): PlayerState
  {
    p.(volume := Clamp01(value))
  }

  /** The volume slider's listener passes `value / 100`. */
  function SliderVolume(raw: int): real
  {
    raw as real / 100.0
  }

  /** `playCardTrack`: the card's title and text become the track, whose
      duration text is always "03:33", and playback toggles once. */
  function CardPlayed(p: PlayerState, title: string, text: string): PlayerState
  {
    Toggled(p.(track := Track(title, text, "03:33")))
  }

  /** The state after `n` ticks. */
  function Ticks(p: PlayerState, n: nat): PlayerState
    decreases n
  {
    if n == 0 then p else Ticks(Ticked(p), n - 1)
  }

  // ----- Properties of the transitions -----

  lemma ToggleTwice(p: PlayerState)
    ensures Toggled(p).isPlaying == !p.isPlaying
    ensures Toggled(Toggled(p)) == p
  {
  }

  /** One tick adds exactly one second before the end and rewinds at the
      end, keeps the time within the track, and touches nothing else. */
  lemma TickStep(p: PlayerState)
    ensures Ticked(p).currentTime == if p.currentTime < p.duration then p.currentTime + 1 else 0
    ensures Ticked(p) == p.(currentTime := Ticked(p).currentTime)
    ensures InRange(p) ==> InRange(Ticked(p))
  {
  }

  /** From one second before the end a tick reaches the end itself; only the
      following tick wraps to zero. */
  lemma TickAtEnd(p: PlayerState)
    requires p.currentTime == p.duration - 1
    ensures Ticked(p).currentTime == p.duration
    ensures Ticked(Ticked(p)).currentTime == 0
  {
  }

  /** Ticks only ever move the elapsed time, and keep it within the track. */
  lemma {:induction false} TicksKeep(p: PlayerState, n: nat)
    decreases n
    ensures Ticks(p, n) == p.(currentTime := Ticks(p, n).currentTime)
    ensures InRange(p) ==> InRange(Ticks(p, n))
  {
    if n > 0 {
      TicksKeep(Ticked(p), n - 1);
    }
  }

  /** Before the end is reached, `k` ticks advance the time by exactly `k`. */
  lemma {:induction false} TicksAdvance(p: PlayerState, k: nat)
    requires 0 <= p.currentTime && p.currentTime + k <= p.duration
    decreases k
    ensures Ticks(p, k) == p.(currentTime := p.currentTime + k)
  {
    if k > 0 {
      TicksAdvance(Ticked(p), k - 1);
    }
  }

  lemma {:induction false} TicksAdd(p: PlayerState, a: nat, b: nat)
    ensures Ticks(p, a + b) == Ticks(Ticks(p, a), b)
    decreases a
  {
    if a > 0 {
      TicksAdd(Ticked(p), a - 1, b);
    }
  }

  /** While playing through, the progress repeats with period
      `duration + 1`: `duration` one-second steps up to the end, then the
      rewind. */
  lemma TicksPeriodic(p: PlayerState, n: nat)
    requires InRange(p)
    ensures Ticks(p, n + p.duration + 1) == Ticks(p, n)
  {
    var q := Ticks(p, n);
    TicksKeep(p, n);
    var d := p.duration;
    var c := q.currentTime;
    // from q: d - c steps to the end, the rewind, then c steps back to q
    TicksAdd(p, n, d + 1);
    TicksAdd(q, d - c, 1 + c);
    TicksAdvance(q, d - c);
    var e := Ticks(q, d - c);
    TicksAdd(e, 1, c);
    assert Ticks(e, 1) == Rewound(e);
    TicksAdvance(Rewound(e), c);
  }

  lemma SeekSets(p: PlayerState, v: int)
    ensures Seeked(p, v).currentTime == v
    ensures Seeked(p, v) == p.(currentTime := v)
    ensures 0 <= v <= p.duration ==> InRange(Seeked(p, v))
  {
  }

  /** The volume always lands in [0, 1]; values already there are kept, and
      setting a volume twice is the same as setting it once. */
  lemma VolumeClamp(p: PlayerState, v: real)
    ensures 0.0 <= WithVolume(p, v).volume <= 1.0
    ensures 0.0 <= v <= 1.0 ==> WithVolume(p, v) == p.(volume := v)
    ensures WithVolume(WithVolume(p, v), v) == WithVolume(p, v)
    ensures WithVolume(p, v) == p.(volume := WithVolume(p, v).volume)
  {
  }

  /** Every slider position 0..100 gives a volume the clamp keeps. */
  lemma SliderInRange(raw: int)
    requires 0 <= raw <= 100
    ensures Clamp01(SliderVolume(raw)) == SliderVolume(raw)
  {
  }

  lemma RewindKeeps(p: PlayerState)
    ensures Rewound(p).currentTime == 0 && InRange(Rewound(p)) == (p.duration >= 0)
    ensures Rewound(p).isPlaying == p.isPlaying && Rewound(p).volume == p.volume
    ensures Rewound(p).duration == p.duration && Rewound(p).track == p.track
  {
  }

  lemma CardFlipsOnce(p: PlayerState, title: string, text: string)
    ensures CardPlayed(p, title, text).track == Track(title, text, "03:33")
    ensures CardPlayed(p, title, text).isPlaying == !p.isPlaying
    ensures CardPlayed(p, title, text).currentTime == p.currentTime
    ensures CardPlayed(p, title, text).volume == p.volume
  {
  }

  // ----- The controller -----

  class SpotifyClone {
    var isPlaying: bool
    var currentTime: int
    var duration: int
    var volume: real
    var currentTrack: Track
    /** Whether the one-second progress interval is scheduled. */
    var progressRunning: bool
    /** What the controller last wrote into the page. */
    var page: Page

    function State(): PlayerState
      reads this
    {
      PlayerState(isPlaying, currentTime, duration, volume, currentTrack)
    }

    /** The object invariant: the volume stays in [0, 1], and the track
        length is not negative. `0 <= currentTime <= duration` is
        deliberately not part of it, since `seekTo` stores any value
        without a clamp; `InRange` and the tick lemmas carry that property
        where it holds. */
    ghost predicate Valid()
      reads this
    {
      0 <= duration && 0.0 <= volume <= 1.0
    }

    /** The progress slider and the elapsed-time label show the current time. */
    ghost predicate ShowsTime()
      reads this
    {
      page.progressValue == currentTime && page.timeLabel == FormatTime(currentTime)
    }

    /** The constructor and `init`: the default track, the progress slider's
        range, the title labels and the volume slider; the button image and
        the time label keep what the page had. */
    constructor (pageButton: Icon, pageTimeLabel: string)
      ensures Valid()
      ensures State() == PlayerState(false, 0, 213, 0.7, Track("Daylight", "David Kushner", "03:33"))
      ensures !progressRunning
      ensures page == Page(pageButton, 0, 213, pageTimeLabel, "Daylight", "David Kushner", 70.0)
    {
      isPlaying := false;
      currentTime := 0;
      duration := 213;
      volume := 0.7;
      currentTrack := Track("Daylight", "David Kushner", "03:33");
      progressRunning := false;
      page := Page(pageButton, 0, 213, pageTimeLabel, "Daylight", "David Kushner", 70.0);
    }

    /** `togglePlayPause`; `found` says whether the button image exists.
        Only when it does is the icon swapped and the interval started or
        stopped. */
    method TogglePlayPause(found: bool)
      requires Valid()
      modifies this
      ensures Valid()
      ensures State() == Toggled(old(State()))
      ensures found ==> page == old(page).(playButton := if isPlaying then PauseIcon else PlayIcon)
      ensures found ==> progressRunning == isPlaying
      ensures !found ==> page == old(page) && progressRunning == old(progressRunning)
    {
      isPlaying := !isPlaying;
      if found {
        if isPlaying {
          page := page.(playButton := PauseIcon);
          StartProgress();
        } else {
          page := page.(playButton := PlayIcon);
          StopProgress();
        }
      }
    }

    method StartProgress()
      modifies this`progressRunning
      ensures progressRunning
    {
      progressRunning := true;
    }

    method StopProgress()
      modifies this`progressRunning
      ensures !progressRunning
    {
      progressRunning := false;
    }

    /** The progress slider and the time label are refreshed from the state. */
    method UpdateDisplay()
      modifies this`page
      ensures ShowsTime()
      ensures page == old(page).(progressValue := currentTime, timeLabel := FormatTime(currentTime))
    {
      page := page.(progressValue := currentTime, timeLabel := FormatTime(currentTime));
    }

    /** One run of the interval callback. */
    method Tick()
      requires Valid()
      modifies this
      ensures Valid()
      ensures State() == Ticked(old(State()))
      ensures ShowsTime()
      ensures page == old(page).(progressValue := currentTime, timeLabel := FormatTime(currentTime))
      ensures progressRunning == old(progressRunning)
    {
      if currentTime < duration {
        currentTime := currentTime + 1;
        UpdateDisplay();
      } else {
        NextTrack();
      }
    }

    method SeekTo(value: int)
      requires Valid()
      modifies this
      ensures Valid()
      ensures State() == Seeked(old(State()), value)
      ensures ShowsTime()
      ensures page == old(page).(progressValue := value, timeLabel := FormatTime(value))
      ensures progressRunning == old(progressRunning)
    {
      currentTime := value;
      UpdateDisplay();
    }

    method SetVolume(value: real)
      requires Valid()
      modifies this`volume
      ensures Valid()
      ensures State() == WithVolume(old(State()), value)
    {
      volume := Clamp01(value);
    }

    method PreviousTrack()
      requires Valid()
      modifies this
      ensures Valid()
      ensures State() == Rewound(old(State()))
      ensures ShowsTime()
      ensures currentTime == 0
      ensures page == old(page).(progressValue := currentTime, timeLabel := FormatTime(currentTime))
      ensures progressRunning == old(progressRunning)
    {
      currentTime := 0;
      UpdateDisplay();
    }

    method NextTrack()
      requires Valid()
      modifies this
      ensures Valid()
      ensures State() == Rewound(old(State()))
      ensures ShowsTime()
      ensures currentTime == 0
      ensures page == old(page).(progressValue := currentTime, timeLabel := FormatTime(currentTime))
      ensures progressRunning == old(progressRunning)
    {
      currentTime := 0;
      UpdateDisplay();
    }

    /** `playCardTrack` for a card whose title and text elements hold
        `title` and `text`; `found` is passed on to the toggle. */
    method PlayCardTrack(title: string, text: string, found: bool)
      requires Valid()
      modifies this
      ensures Valid()
      ensures State() == CardPlayed(old(State()), title, text)
      ensures page.titleLabel == title && page.artistLabel == text
      ensures page == old(page).(titleLabel := title, artistLabel := text,
                                 playButton := page.playButton)
      ensures found ==> page.playButton == (if isPlaying then PauseIcon else PlayIcon)
      ensures found ==> progressRunning == isPlaying
      ensures !found ==> page.playButton == old(page.playButton) && progressRunning == old(progressRunning)
    {
      currentTrack := Track(title, text, "03:33");
      page := page.(titleLabel := currentTrack.title, artistLabel := currentTrack.artist);
      TogglePlayPause(found);
    }
  }

  /** Two clicks on a button that shows the icon matching the flag bring
      back the original flag, icon and label. */
  method ToggleTwiceRestores(c: SpotifyClone)
    requires c.Valid()
    requires c.page.playButton == if c.isPlaying then PauseIcon else PlayIcon
    modifies c
    ensures c.State() == old(c.State()) && c.page == old(c.page)
  {
    c.TogglePlayPause(true);
    c.TogglePlayPause(true);
  }

  /** The button the page starts with is labelled "Play/Pause"
      (pageButton.alt, found by that label at start-up). Two toggles from
      there leave the label "Play": the original label is not restored. */
  method InitialLabelNotRestored(c: SpotifyClone)
    requires c.Valid() && !c.isPlaying
    requires c.page.playButton.alt == "Play/Pause"
    modifies c
    ensures c.State() == old(c.State())
    ensures c.page.playButton == PlayIcon
    ensures c.page.playButton.alt != old(c.page.playButton.alt)
  {
    c.TogglePlayPause(true);
    c.TogglePlayPause(true);
  }
}
