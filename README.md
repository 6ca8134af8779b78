# Audio player: playback and track-selection model

This project models the `AudioPlayer` React component of a small browser
music player (`src/App.jsx`). The component plays a fixed playlist. It has a
play/pause button, previous and next buttons, a seek bar, ±10-second skip
buttons and a track list that can be shown or hidden. It shows the elapsed
time and the track duration as `m:ss`.

The model has three modules.

- `TimeDisplay` (`time_display.dfy`) is the `m:ss` formatting as pure
  functions. Time is a whole number of seconds. JavaScript's number-to-string
  conversion is `DecimalString` and `.slice(-2)` is `SliceLast2`. `ParseTime`
  is an independent reader, and the round-trip lemma checks the formatting
  against it.
- `PlayerSpec` (`player_spec.dfy`) is the state machine on values. The
  `PlayerState` record holds the four pieces of React state
  (`currentTrack`, `isPlaying`, `currentTime`, `showTrackList`). It also holds
  the value the `[currentTrack]` effect last ran with (`effectTrack`) and the
  audio element's `src`, playhead and command trace (`Load(url)`, `Play`,
  `Pause`). Each handler is one function. An `Event` is a handler followed by
  the effect, because React runs the effect after the render and only when
  `currentTrack` actually changed. `Run` applies a sequence of events.
- `Player` (`player.dfy`) is the component as objects. `AudioPlayer` has the
  state as fields, and its handler methods update them. `MediaHandle` stands
  for the audio element: its `src` and playhead are real fields and its
  command trace is a ghost field. Each method is proved to change
  `State()` exactly as the matching `PlayerSpec` function does.
  `AutoAdvanceClient` shows that a caller can derive the track-end scenario
  from the method contracts alone.

Three points of the component's behaviour deserve a note.

- **Track end.** The comment on the `ended` listener (`src/App.jsx:53`) says
  that it plays the next track automatically. As written it does something
  else (`src/App.jsx:51-54`). It calls `nextTrack()`, which sets `isPlaying`
  to false (`src/App.jsx:24`). Then it calls `play()` on the element at
  once, before React re-renders and before the effect assigns the new
  `src`. Nothing sets `isPlaying` back to true, so the effect
  (`src/App.jsx:62-67`) loads the next track without calling `play()`, and
  the player shows itself paused.
  - `EndedAsWritten` and `AutoAdvanceScenario` state this. After play and a
    track end on a three-track list, the player is on track 1 with
    `isPlaying` false. The element has received
    `[Load(url0), Play, Play, Load(url1)]`.
  - This order assumes that React batches the two state updates made by the
    listener, as it does under a React 18 root. Under a legacy React 17
    root, updates made in a native `addEventListener` handler are not
    batched. `setCurrentTrack` would then render on its own, and its effect
    would run while `isPlaying` is still true. It would send
    `Load(next), Play` before the listener's own `play()`. The model does not
    cover that order.
- **Paused start.** The mount run of the `[currentTrack]` effect loads
  track 0 (`src/App.jsx:62-67`) while `isPlaying` is false. So the element
  always has a source before any handler runs, and the player starts paused.
- **List range.** The track list renders one entry per playlist item
  (`src/App.jsx:120-121`), so a click can only select an index
  `0 <= k < N`. The model states this as `k < |playlist|` (`WellFormed`, and
  the `requires` of `AudioPlayer.SelectTrack`).

## Model

| member | source | states |
|---|---|---|
| `PlayerSpec.Initial` | src/App.jsx:7-10 | the mounted state: track 0, paused, 0 s, list hidden; the mount run of the effect has sent only `Load(url0)`; the invariant holds |
| `PlayerSpec.NextIndex` | src/App.jsx:23 | the next index stays in `[0, N)`, is `i + 1` below the last track and wraps to 0 at `N - 1` |
| `PlayerSpec.PrevIndex` | src/App.jsx:28 | the previous index stays in `[0, N)`, is `i - 1` above the first track and wraps to `N - 1` at 0 |
| `PlayerSpec.PrevUndoesNext` | src/App.jsx:22-30 | previous after next, and next after previous, give back the original index |
| `PlayerSpec.NextCycle` | src/App.jsx:23 | applying the next-index step `N` times is the identity |
| `PlayerSpec.NextClickedCycle` | src/App.jsx:22-25 | pressing next `N` times, each press followed by the effect, returns to the starting track |
| `PlayerSpec.NextAndPrevStop` | src/App.jsx:22-30 | next and previous move the index by one with wrap-around and set `isPlaying` to false; time, list and playhead do not change; the effect sends only `Load(new url)` and never `Play`; with `N = 1` nothing is sent |
| `PlayerSpec.TogglePlayFlips` | src/App.jsx:13-20 | the play button flips `isPlaying` and sends `Pause` if it was playing, `Play` otherwise; nothing else changes |
| `PlayerSpec.TrackClickedKeepsPlaying` | src/App.jsx:121 | clicking entry `k` makes `k` current and keeps `isPlaying`; a different track is loaded, plus `Play` during playback; clicking the current track sends nothing |
| `PlayerSpec.TrackListToggleInvolution` | src/App.jsx:114 | the show/hide button flips only `showTrackList`; two presses restore the whole state |
| `PlayerSpec.SeekEffects` | src/App.jsx:32-48 | seeking to `t` sets playhead and shown time to `t` and changes nothing else; the skips change only the playhead, by +10/-10 (the whole state is otherwise equal); a time update copies the reported playhead into the shown time; no other event changes the shown time |
| `PlayerSpec.EndedAsWritten` | src/App.jsx:50-54 | a track end advances the index exactly as next does, sends `Play` before the effect's `Load(next url)` (no `Load` when `N = 1`) and leaves `isPlaying` false |
| `PlayerSpec.AutoAdvanceScenario` | src/App.jsx:50-67 | three tracks, play, then the track ends: the player is on track 1, paused, and the element received `Load(a), Play, Play, Load(b)` |
| `PlayerSpec.TogglePlay` | src/App.jsx:13-20 | the `togglePlay` step; `TogglePlayFlips` proves it flips `isPlaying`, appends `Pause` or `Play` by the old value and changes nothing else |
| `PlayerSpec.NextTrack` | src/App.jsx:22-25 | the `nextTrack` step; `NextAndPrevStop` and `NextClickedCycle` prove the wrap-around, the stop and the N-step cycle |
| `PlayerSpec.PrevTrack` | src/App.jsx:27-30 | the `prevTrack` step; `NextAndPrevStop` and `PrevUndoesNext` prove the wrap-around, the stop and that it undoes next |
| `PlayerSpec.SelectTrack` | src/App.jsx:121 | the list-entry click; `TrackClickedKeepsPlaying` proves it selects `k`, keeps `isPlaying` and what the effect then sends |
| `PlayerSpec.ToggleTrackList` | src/App.jsx:114 | the show/hide step; `TrackListToggleInvolution` proves it flips only `showTrackList` and is its own inverse |
| `PlayerSpec.HandleSeek` | src/App.jsx:36-40 | the `handleSeek` step; `SeekEffects` proves it sets playhead and shown time to `t` and nothing else |
| `PlayerSpec.SeekForward` | src/App.jsx:42-44 | the `seekForward` step; `SeekEffects` proves it moves only the playhead, by +10 |
| `PlayerSpec.SeekBackward` | src/App.jsx:46-48 | the `seekBackward` step; `SeekEffects` proves it moves only the playhead, by -10 |
| `PlayerSpec.HandleTimeUpdate` | src/App.jsx:32-34 | the `handleTimeUpdate` step; `SeekEffects` proves it copies the reported playhead into the shown time and changes nothing else |
| `PlayerSpec.HandleEnded` | src/App.jsx:51-54 | the `ended` listener; `EndedAsWritten` proves it advances as next does, sends `Play` before the effect's `Load` and leaves `isPlaying` false |
| `PlayerSpec.OnTrackChanged` | src/App.jsx:62-67 | after the effect, `src` is the current track's URL, the index and `isPlaying` are unchanged and the earlier commands remain a prefix of the trace |
| `PlayerSpec.TrackChangeLoads` | src/App.jsx:62-67 | whenever an event changes the current track, the effect sends `Load(url of the new track)` followed by `Play` exactly when `isPlaying` holds at that moment; with the index unchanged, it sends nothing |
| `PlayerSpec.Handle` | src/App.jsx:13-54 | every handler keeps both indices inside the playlist and leaves `src` and the effect's remembered index alone |
| `PlayerSpec.Apply` | src/App.jsx:62-67 | after any event and its effect, the element's `src` is the URL of the current track |
| `PlayerSpec.Run` | src/App.jsx:13-67 | over any sequence of events, the index stays in range, the element holds the current track's URL, and commands are only appended |
| `Player.AudioPlayer.constructor` | src/App.jsx:7-11 | a new player is in the state `Initial(playlist)`, the mount run of the effect included |
| `Player.AudioPlayer.TogglePlay` | src/App.jsx:13-20 | updates the fields and the element as `PlayerSpec.TogglePlay` says |
| `Player.AudioPlayer.NextTrack` | src/App.jsx:22-25 | computes `(currentTrack + 1) % N` and stops, as `PlayerSpec.NextTrack` says |
| `Player.AudioPlayer.PrevTrack` | src/App.jsx:27-30 | computes `(currentTrack - 1 + N) % N` and stops, as `PlayerSpec.PrevTrack` says |
| `Player.AudioPlayer.SelectTrack` | src/App.jsx:121 | sets `currentTrack := k` and nothing else |
| `Player.AudioPlayer.ToggleTrackList` | src/App.jsx:114 | flips `showTrackList` and nothing else |
| `Player.AudioPlayer.HandleSeek` | src/App.jsx:36-40 | sets the element's playhead and `currentTime` to `t` |
| `Player.AudioPlayer.SeekForward` | src/App.jsx:42-44 | adds 10 to the element's playhead only |
| `Player.AudioPlayer.SeekBackward` | src/App.jsx:46-48 | subtracts 10 from the element's playhead only |
| `Player.AudioPlayer.HandleTimeUpdate` | src/App.jsx:32-34 | copies the element's reported playhead into `currentTime` |
| `Player.AudioPlayer.HandleEnded` | src/App.jsx:51-54 | runs `NextTrack` then sends `Play`, as `PlayerSpec.HandleEnded` says |
| `Player.AudioPlayer.OnTrackChanged` | src/App.jsx:62-67 | when the index differs from the effect's last run, loads the current track's URL, then plays if `isPlaying`; otherwise changes nothing |
| `Player.MediaHandle.Load` | src/App.jsx:63 | assigning `src` records `Load(url)` and sets the source |
| `Player.MediaHandle.Play` | src/App.jsx:17 | `play()` appends `Play` to the trace; source and playhead unchanged |
| `Player.MediaHandle.Pause` | src/App.jsx:15 | `pause()` appends `Pause` to the trace; source and playhead unchanged |
| `Player.MediaHandle.SetPosition` | src/App.jsx:38 | assigning the element's `currentTime` sets the playhead to the value given; source and trace unchanged |
| `Player.MediaHandle.ReportPlayhead` | src/App.jsx:33 | the element's own playhead, as a `timeupdate` reports it, becomes `p`; source and trace unchanged |
| `TimeDisplay.DecimalString` | src/App.jsx:76 | the minutes text is non-empty and all digits, has one digit exactly below 10, and has no leading zero |
| `TimeDisplay.SliceLast2` | src/App.jsx:77 | `.slice(-2)` gives at most the last two characters, and they are a suffix of its input |
| `TimeDisplay.PadSeconds` | src/App.jsx:77 | `("0" + s).slice(-2)` for `s < 60` is exactly the two digits `s / 10` and `s % 10` |
| `TimeDisplay.FormatTime` | src/App.jsx:76-77 | the elapsed-time text; `FormatTimeRoundTrip`, `FormatTimeShape` and `FormatTimeExamples` prove it reads back as `t`, has a two-digit seconds field after the unpadded minutes, and gives "2:05", "0:59", "10:00" |
| `TimeDisplay.DurationDisplay` | src/App.jsx:87-91 | the duration text, "0:00" before the element exists; `DurationDisplayReadsBack` proves the placeholder is the text of 0 s and every duration reads back |
| `TimeDisplay.FormatTimeShape` | src/App.jsx:76-77 | the seconds field is always 2 characters; before the colon come exactly the unpadded digits of `t / 60` |
| `TimeDisplay.DecimalStringRoundTrip` | src/App.jsx:76 | reading the minutes text back gives the number it came from |
| `TimeDisplay.FormatTimeRoundTrip` | src/App.jsx:76-77 | every `m:ss` text reads back as the seconds it was made from |
| `TimeDisplay.FormatTimeExamples` | src/App.jsx:88-90 | 125 s is "2:05", 59 s is "0:59", 600 s is "10:00" |
| `TimeDisplay.DurationDisplayReadsBack` | src/App.jsx:87-91 | the "0:00" shown before the element exists is the text of a zero duration; every duration text reads back as its duration |

## Left out

- JSX markup, CSS, icons, button labels, the title heading (`src/App.jsx:72`)
  and the seek bar's `max` attribute (`src/App.jsx:82`) are presentation
  only.
- The contents of `music.json` are not modelled. The playlist is any fixed
  sequence of at least one `(title, url)` pair.
- The real audio element is not modelled. That covers decoding, buffering,
  what `play()` does before a new source is ready, and how the playhead
  advances during playback. It also covers clamping a seek to
  `[0, duration]` and resetting the playhead when `src` changes.
  - In the model the playhead moves only through seeks and skips, or when a
    `timeupdate` event reports where the element put it
    (`MediaHandle.ReportPlayhead`). `Load` leaves the playhead alone.
- Times are whole seconds. JavaScript doubles, `Math.floor` of a fraction and
  a `NaN` duration before metadata load are not modelled. The case where the
  element does not exist yet is the fixed "0:00" placeholder
  (`DurationDisplay(None)`).
- `handleSeek` reads `event.target.value`, which is a string. The model takes
  the seek target as a number.
- `handleTimeUpdate` reads `audioRef.current.currentTime`. The model passes
  that reading in as the parameter `p`.
- React mechanics are not modelled: batching of state updates, render
  scheduling, stale closures, and adding and removing the `ended` listener
  (`src/App.jsx:56-59`). Each handler is one sequential step, and the
  `[currentTrack]` effect is the explicit step `OnTrackChanged`.
- The variant of the component that publishes track metadata to the
  platform's media-notification surface is not part of this model.
