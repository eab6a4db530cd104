# Spotify clone player controller, modelled in Dafny

The repository is a browser page that imitates a music player. Its script
holds one controller object, `SpotifyClone`. This project models the part of
that controller that has state and rules:

- **Playback.** The fields `isPlaying`, `currentTime`, `duration`, `volume`
  and `currentTrack`. The handlers that change them are play/pause, the
  one-second progress tick, seek, volume, previous/next track, and a click
  on a card.
- **The elapsed-time label.** `formatTime` turns seconds into `MM:SS`.
- **Navigation highlighting.** Exactly one option is active after a click.
- **The create-playlist dialog.** Create closes it if and only if the name
  is not blank.
- **The sticky navigation bar's scroll listener.**

Modules follow the script's parts:

- `ClockText` (`clock_text.dfy`): `formatTime` as a function. It is built
  from JavaScript's `Math.floor`, its truncating `%`, integer `toString()`
  and `padStart(2, '0')`. Each is written out for every integer, negative
  ones included. Integers are unbounded here; "## Left out" names the
  limits of JavaScript numbers. Lemmas give the label's layout, read it
  back, and check concrete values.
- `Player` (`player.dfy`): one pure transition function per handler over a
  `PlayerState` value, plus lemmas about them. The class `SpotifyClone` has
  the same fields, updated in place. Each method's `ensures` ties the new
  `State()` to the transition applied to `old(State())`. It also says what
  the method writes into the page: the button image, the sliders and the
  labels, gathered in a `Page` value.
- `Navigation` (`navigation.dfy`): the options are two arrays, the `active`
  flags and the inline opacities. `HandleNavigation` resets them in a loop
  and then sets the clicked option.
- `PlaylistModal` (`playlist_modal.dfy`): JavaScript's `trim` and the
  dialog, as a class with its open flag, Escape listener, focus and input
  border.
- `StickyNav` (`sticky_nav.dfy`): the scroll listener, as a class holding
  `lastScrollTop` and the bar's two inline styles.

The page's DOM is not modelled. Whether the play/pause button exists is a
`found` parameter. The interval timer becomes a `progressRunning` flag and a
`Tick` method that the timer would call once a second. Input from the
page becomes method parameters: a slider value, a card's texts, a typed
name, a key, a scroll position.

Two behaviours of the code are easy to misread, and the model follows the
code in both:

- A tick from `duration - 1` first reaches `duration`. Only the next tick
  wraps to 0 (`TickAtEnd`).
- `seekTo` stores its argument with no clamp. Only the slider's own range
  keeps it within the track (`SeekSets`).
- Two toggles restore the button's icon and label only if the icon already
  matched the flag. The page's button starts out labelled "Play/Pause".
  After two toggles it reads "Play" (`InitialLabelNotRestored`).

## Model

| member | source | states |
|---|---|---|
| `ClockText.NatToString` | script.js:194 | `toString()` of a non-negative integer; its contract is carried by NatToStringValue and NatToStringShape |
| `ClockText.IntToString` | script.js:194 | `toString()` of any integer; its contract is carried by IntToStringSpec |
| `ClockText.PadStart2` | script.js:194 | `padStart(2, '0')`; its contract is carried by PadStart2Spec |
| `ClockText.FormatTime` | script.js:191-195 | `formatTime`; its contract is carried by FormatTimeLayout, FormatTimeRoundTrip and the example lemmas |
| `ClockText.NatToStringValue` | script.js:194 | `toString()` of a non-negative integer is a non-empty string of digits that reads back as the number |
| `ClockText.NatToStringShape` | script.js:194 | that text starts with '0' only for zero, has one digit exactly when the number is below 10, and at most two exactly when it is below 100 |
| `ClockText.IntToStringSpec` | script.js:194 | `toString()` of a negative integer is a minus sign followed by the digits of its magnitude; a non-negative one has digits only |
| `ClockText.PadStart2Spec` | script.js:194 | `padStart(2, '0')` gives at least 2 characters ending with the input, with only zeros in front; a longer input comes back unchanged, never truncated |
| `ClockText.FloorMinutes` | script.js:192 | `Math.floor(seconds / 60)` is the unique m with m*60 <= seconds < m*60+60, negative times included |
| `ClockText.JsRemSeconds` | script.js:193 | JavaScript `seconds % 60`: in [0,60) for non-negative times, in (-60,0] for negative ones, and congruent to `seconds` mod 60 |
| `ClockText.FormatTimeLayout` | script.js:191-195 | for a time >= 0 the label is minutes, ':' and two second digits; the minutes read back as s/60 and the seconds as s%60, which is below 60; the label is exactly 5 characters when s < 6000 and longer otherwise |
| `ClockText.FormatTimeRoundTrip` | script.js:191-195 | reading the label of any time >= 0 as minutes*60+seconds gives that time back |
| `ClockText.FormatTimeInjective` | script.js:191-195 | two times >= 0 with the same label are equal |
| `ClockText.FormatTimeExamples` | script.js:191-195 | formatTime(0) = "00:00", formatTime(125) = "02:05", formatTime(213) = "03:33" |
| `ClockText.FormatTimeLongExample` | script.js:191-195 | formatTime(6000) = "100:00": padding never truncates the minutes |
| `ClockText.FormatTimeNegativeExample` | script.js:191-195 | formatTime(-5) = "-1:-5": floor division and the truncating remainder both keep the sign |
| `Player.Toggled` | script.js:123 | the state change of `togglePlayPause`; its contract is carried by ToggleTwice and SpotifyClone.TogglePlayPause |
| `Player.Ticked` | script.js:161-167 | the interval callback's state change; its contract is carried by TickStep, TickAtEnd and the Ticks lemmas |
| `Player.Seeked` | script.js:198 | the state change of `seekTo`; its contract is carried by SeekSets |
| `Player.WithVolume` | script.js:204 | the state change of `setVolume`; its contract is carried by VolumeClamp |
| `Player.SliderVolume` | script.js:59 | the volume slider's `value / 100`; its contract is carried by SliderInRange |
| `Player.Rewound` | script.js:209-221 | the state change of `previousTrack` and `nextTrack`; its contract is carried by RewindKeeps |
| `Player.CardPlayed` | script.js:286-297 | the state change of `playCardTrack`; its contract is carried by CardFlipsOnce |
| `Player.Clamp01` | script.js:204 | `Math.max(0, Math.min(1, v))` lies in [0,1]; it is v on [0,1], 0 below and 1 above |
| `Player.ToggleTwice` | script.js:123 | a toggle flips `isPlaying`, and two toggles give back the original state |
| `Player.TickStep` | script.js:160-168 | a tick adds exactly 1 when currentTime < duration and otherwise rewinds to 0 through nextTrack; it changes no other field and keeps 0 <= currentTime <= duration |
| `Player.TickAtEnd` | script.js:160-168 | from duration-1 one tick reaches duration, and only the following tick wraps to 0 |
| `Player.TicksKeep` | script.js:160-168 | any number of ticks changes only currentTime and keeps it within the track |
| `Player.TicksAdvance` | script.js:160-168 | k ticks that do not pass the end advance currentTime by exactly k |
| `Player.TicksAdd` | script.js:160-168 | a + b ticks are a ticks followed by b ticks |
| `Player.TicksPeriodic` | script.js:160-168 | from a time within the track the tick sequence repeats with period duration+1 |
| `Player.SeekSets` | script.js:197-201 | seeking to v sets currentTime to v with no clamp and changes nothing else; v in [0,duration] stays in range |
| `Player.VolumeClamp` | script.js:203-207 | setVolume leaves the volume in [0,1], is the identity on [0,1], is idempotent, and changes no other field |
| `Player.SliderInRange` | script.js:59 | every slider position 0..100, divided by 100, is a volume the clamp keeps |
| `Player.RewindKeeps` | script.js:209-221 | previous/next track set currentTime to 0 and keep isPlaying, volume, duration and the track |
| `Player.CardFlipsOnce` | script.js:286-297 | a card click makes the track (title, text, "03:33"), flips isPlaying exactly once, and keeps the time and the volume |
| `Player.SpotifyClone.constructor` | script.js:5-27 | initial state: paused at 0 of 213 s, volume 0.7, "Daylight" by "David Kushner"; init writes the title labels, slider max 213 and value 0, and volume slider 70 |
| `Player.SpotifyClone.TogglePlayPause` | script.js:122-157 | the flag flips in any case; with the button found, the icon becomes player_icon4/"Pause" when playing and player_icon3/"Play" otherwise, and the interval runs exactly when playing; without it, nothing else changes |
| `Player.SpotifyClone.StartProgress` | script.js:159-169 | the progress interval is scheduled |
| `Player.SpotifyClone.StopProgress` | script.js:171-175 | the progress interval is cleared |
| `Player.SpotifyClone.UpdateDisplay` | script.js:177-189 | the progress slider and the time label show currentTime and formatTime(currentTime) |
| `Player.SpotifyClone.Tick` | script.js:160-168 | the new state is one tick of the old, and the slider and label show the new time |
| `Player.SpotifyClone.SeekTo` | script.js:197-201 | the new state is the old with currentTime = value; the slider shows value and the label formatTime(value) |
| `Player.SpotifyClone.SetVolume` | script.js:203-207 | only the volume changes, to the clamp of the value; it stays in [0,1] |
| `Player.SpotifyClone.PreviousTrack` | script.js:209-214 | currentTime becomes 0, nothing else in the state changes, and the display shows 0 |
| `Player.SpotifyClone.NextTrack` | script.js:216-221 | currentTime becomes 0, nothing else in the state changes, and the display shows 0 |
| `Player.SpotifyClone.PlayCardTrack` | script.js:286-300 | the track becomes (title, text, "03:33"), the title labels show it, and then exactly one toggle follows |
| `Player.ToggleTwiceRestores` | script.js:122-157 | two clicks on a button whose icon matches the flag restore the state, the icon and its label |
| `Player.InitialLabelNotRestored` | script.js:31-32 | from the page's "Play/Pause" button, two found toggles restore the state but leave the Play icon, whose label "Play" differs from the original |
| `Navigation.SingleActive` | script.js:231-240 | flags set only at i count exactly one active option |
| `Navigation.NavBar.HandleNavigation` | script.js:231-245 | afterwards option i is the only active option, with opacity "1"; every other option is inactive with opacity "0.7" |
| `PlaylistModal.TrimStart` | script.js:390 | the leading half of `trim`; its contract is carried by TrimStartDrops |
| `PlaylistModal.TrimEnd` | script.js:390 | the trailing half of `trim`; its contract is carried by TrimEndDrops |
| `PlaylistModal.Trim` | script.js:390 | `name.trim()`; its contract is carried by TrimEmptyIffBlank, TrimIsCore and TrimIdempotent |
| `PlaylistModal.TrimStartDrops` | script.js:390 | `trim`'s leading part drops only white space, and what is left starts with a character that is not white space |
| `PlaylistModal.TrimEndDrops` | script.js:390 | `trim`'s trailing part drops only white space, and what is left ends with a character that is not white space |
| `PlaylistModal.TrimEmptyIffBlank` | script.js:390 | the trimmed name is empty if and only if every character of the name is white space |
| `PlaylistModal.TrimIsCore` | script.js:390 | the trimmed name is a contiguous piece of the name that neither starts nor ends with white space |
| `PlaylistModal.TrimIdempotent` | script.js:390 | trimming twice is trimming once |
| `PlaylistModal.Modal.constructor` | script.js:345-412 | the dialog opens with the Escape listener registered and an unstyled, unfocused input |
| `PlaylistModal.Modal.Cancel` | script.js:379-385 | Cancel closes the dialog and changes nothing else |
| `PlaylistModal.Modal.Create` | script.js:387-403 | with the dialog open, Create closes it if and only if the trimmed name is non-empty; a blank name focuses the input and turns its border #e22134 |
| `PlaylistModal.Modal.RestoreBorder` | script.js:398-400 | the delayed callback sets the border back to #333 |
| `PlaylistModal.Modal.KeyDown` | script.js:405-412 | Escape closes an open dialog and removes the listener; any other key, a closed dialog or a removed listener changes nothing |
| `StickyNav.Bar.constructor` | script.js:491-494 | lastScrollTop starts at 0 |
| `StickyNav.Bar.OnScroll` | script.js:494-514 | the shadow is on if and only if scrollTop > 10; the transform is reset to translateY(0) whenever "scrollTop > lastScrollTop and scrollTop > 100" is false, and is untouched otherwise; lastScrollTop becomes scrollTop |

## Left out

- DOM lookups are not modelled: the selector fallback chains, `querySelectorAll` and listener registration (script.js:29-80, 97-120). The play/pause button lookup is the `found` parameter. The progress slider, time label and title labels are taken to exist. So are a card's title and text elements; a missing one would throw.
- `setupNavigation` is not modelled (script.js:97-111). It marks the option styled with opacity 1 as active and blocks link navigation. `NavBar`'s constructor starts from the page's flags and opacities instead.
- Timers are not modelled: `setInterval`, `setTimeout`, `clearInterval`. Only the bodies of their callbacks are: `Tick` for the progress interval and `RestoreBorder` for the 2 s border reset. The 150 ms button and arrow "scale" animations are left out as pure presentation.
- Player.SpotifyClone.StartProgress: the interval handle is one flag. In the source, a second `startProgress` while an interval runs leaves the first one running and unreachable. That can only happen when the button is missing at one toggle and present at the next.
- Player.SpotifyClone.Tick: nothing limits when it is called. In the browser, only a running interval calls it, once per second.
- Times are unbounded integers. JavaScript numbers are doubles: above 2^53, `currentTime++` and `Math.floor(seconds / 60)` are no longer exact, and from 1e21 on `toString()` switches to exponent notation. None of this is modelled. The slider keeps seeks within [0, duration] and ticks never pass `duration`, so times stay within [0, 213].
- `seekTo` receives an integer. `parseInt` of the slider's string, and a NaN from non-numeric text, are not modelled.
- The volume is a real number. Floating-point rounding, such as `0.7 * 100` on the volume slider, and NaN are not modelled.
- Logging (`console.log`, `console.error`) and the link text read for it are not modelled. Neither are the stubs `goBack`, `goForward`, `showPodcastBrowser`, `showInstallPrompt` and `testPlayPauseButton`, nor `handleBadgeClick`'s text dispatch. None of them keep state.
- The card hover overlay, the modal's markup and styling, the load fade-in, smooth scrolling and the back button's scroll-to-top are presentation only and not modelled (script.js:302-343, 345-372, 474-481, 516-525).
- The Space-key shortcut only clicks the play/pause button, so it is not modelled separately (script.js:459-471).
- The scroll listener exists only when both the bar and the content element are found. `scrollTop` is an integer here, though browsers may report fractions.
- Whitespace for `trim` follows ECMAScript's WhiteSpace and LineTerminator sets, by code point. Unicode normalisation plays no part.
