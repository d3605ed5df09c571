# Winamp 2.0 playback controller in Dafny

A model of the playback and playlist logic of the Winamp 2.0 clone (a PyQt window
over `pygame.mixer.music`), with proofs about it. Three parts of `main.py` are modelled:

- The `MusicPlayer` state machine. The fields are `current_song`, `playlist`,
  `paused`, `volume`, `song_length` and `current_position`. The handlers are
  `add_song`, `prev_song`, `next_song`, `play_selected`, `play_music`,
  `pause_music`, `stop_music`, `set_position`, `set_volume` and the
  `update_position` tick.
  - `controller.dfy` gives each handler as a pure transition
    (`Controller.Step`). A step holds the next state, the commands sent to
    the engine, and whether the "add songs first" warning was raised.
  - `music_player.dfy` gives the same handlers as methods of a class
    (`Winamp.MusicPlayer`) that update its fields in place. These methods
    also write the time label, the duration label, the time slider and the
    status line. A ghost `log` records the engine commands. Each method is
    proved equal to its transition.
- `format_time`, in `time_format.dfy`. It is proved by reading its text back
  into minutes and seconds.
- `scenarios.dfy` proves short sequences of handler calls: pause then play,
  stopping twice, a seek, and walks over small playlists.
- `Visualization.update_bars`, in `visualization.dfy`. It is an in-place loop
  over the 32-entry bar array.

The audio engine (`engine.dfy`) is a command sink. `Load`, `Play(start)`,
`Pause`, `Unpause`, `Stop` and `SetVolume` are its commands. Three engine
results are given to the model rather than computed:

- `get_busy()` is a boolean parameter of the handlers that read it.
- `get_pos()` is a millisecond parameter of the tick.
- `Sound(path).get_length()` is a fixed function from path to seconds (`durationOf`).

The current song is found again by value, using the first occurrence in the
playlist (`Controller.FirstIndexOf`, Python's `list.index`). No index is stored.
So with repeated paths, "next" can cycle among the entries before the repeat
(`Navigation.NextNeverPassesDuplicate`).

The model follows the code as written, including these behaviours:

- `stop_music` leaves `song_length` as it was. It does not reset it to 0.
- `play_selected`, `next_song` and `prev_song` do not touch `paused`. After a
  pause and then "next", "play" therefore sends `Unpause`.
- `set_position` and `update_position` test `current_song` by Python
  truthiness, so an empty path counts as no song (`Controller.HasSong`).
  `prev_song`, `next_song` and `play_music` test `is None`.
- `play_music` does not reload a song that is already current. When that song
  is not paused, it sends `Play(0)` without a `Load`.

The sliders have the range 0..100 (main.py:149, main.py:194). So the handlers
that receive a slider value take one in 0..100.

## Model

| member | source | states |
|---|---|---|
| Controller.Initial | main.py:95-100 | the start state (no song, empty playlist, not paused, volume 0.7, length and position 0) satisfies the invariant |
| Controller.FirstIndexOf | main.py:304 | `list.index`: the result holds the value and no earlier entry does |
| Controller.AddSongs | main.py:287-296 | the chosen files are appended in order; the old prefix and every other field are unchanged; no engine command |
| Controller.PlaySelected | main.py:361-375 | the clicked row's song, or the current song again, is sent `Load` then `Play(0)` and becomes current with its length recorded; the playlist, pause flag, volume and position are kept; the invariant is preserved |
| Controller.NextSong | main.py:311-322 | empty playlist: no change and no command; no song: the first entry; otherwise the entry after the first occurrence of the current song, wrapping to the first; it is then loaded and played |
| Controller.PrevSong | main.py:298-309 | empty playlist: no change and no command; no song: the first entry (not the last); otherwise the entry before the first occurrence, wrapping to the last; it is then loaded and played |
| Controller.PlayMusic | main.py:324-344 | warns exactly on an empty playlist, with no change and no command; otherwise selects the first entry and sends `Load` when nothing is current, sends `Unpause` if paused and `Play(0)` otherwise, and ends not paused, with a song and with its length |
| Controller.PauseMusic | main.py:346-350 | busy: sends `Pause` and sets `paused`; not busy: no change and no command |
| Controller.StopMusic | main.py:352-359 | from any state: `Stop` is sent; then no song, not paused, position 0; playlist, volume and song length kept |
| Controller.SetPosition | main.py:265-281 | no song or length <= 0: no change and no command; otherwise `Stop`, `Load(song)`, `Play(floor(target))`, then `Pause` exactly when the engine was not busy; the position becomes the target and `paused` becomes not-busy |
| Controller.SeekTarget | main.py:267 | the target `value/100 * length` lies in 0..length, is 0 at 0 and the whole length at 100 |
| Controller.SetVolume | main.py:283-285 | the stored level is value/100, in 0..1, and is sent to the engine; nothing else changes |
| Controller.UpdatePosition | main.py:258-263 | only while busy with a song, the position becomes `get_pos()/1000`; otherwise no change; never an engine command |
| Controller.FromMillis | main.py:260 | the millisecond count in seconds: non-negative, times 1000 gives the count |
| Navigation.FirstIndexOfDistinct | main.py:304 | with distinct entries the lookup finds the position it was given |
| Navigation.NextFrom | main.py:317-321 | with distinct entries, one "next" from entry k makes entry (k+1) wrapped current and keeps the invariant and the playlist |
| Navigation.PrevFrom | main.py:304-308 | with distinct entries, one "previous" from entry k makes entry k-1 wrapped current |
| Navigation.NextWalkMod | main.py:311-322 | with distinct entries, j presses of "next" from entry k reach entry (k + j) mod n |
| Navigation.PrevWalkMod | main.py:298-309 | with distinct entries, j presses of "previous" from entry k reach entry (k - j) mod n |
| Navigation.NextCycle | main.py:311-322 | with distinct entries, n presses of "next" return to the starting song |
| Navigation.PrevCycle | main.py:298-309 | with distinct entries, n presses of "previous" return to the starting song |
| Navigation.NextNeverPassesDuplicate | main.py:317 | in [a, b, a, c] starting at a or b, no number of "next" presses reaches c, because the lookup finds the first a |
| Scenarios.PauseThenPlay | main.py:333-335 | pause then play sends only `Unpause`, keeps the song and the position, and leaves the player not paused |
| Scenarios.StopIdempotent | main.py:352-356 | stopping twice leaves the same state as stopping once |
| Scenarios.SeekHalfway | main.py:267-279 | seeking to 50 in a 200-second song sets position 100 and plays from offset 100 |
| Scenarios.SelectLastThenNext | main.py:318-321 | [A, B, C]: selecting row 2 and then "next" wraps to A |
| Scenarios.AddThenPrev | main.py:301-302 | adding [A, B] and pressing "previous" with no current song selects A |
| Ring.FullTurn | main.py:318-321 | n single steps around a ring of n positions, either way, return to the start |
| TimeFormat.FormatTime | main.py:253-256 | the text ends in ':' and two more characters; it is exactly five characters below 100 minutes |
| TimeFormat.FormatTimeRoundTrip | main.py:253-256 | the text reads back as minutes and seconds with seconds < 60 and minutes * 60 + seconds == s |
| TimeFormat.FormatTimeShape | main.py:256 | below 100 minutes the text is the two digits of s/60, ':', and the two digits of s%60 |
| TimeFormat.FormatSeconds | main.py:253-256 | `format_time` on the non-negative float the class passes, through `int(x // 60)` and `int(x % 60)`: the same text as `FormatTime` on floor(x) |
| TimeFormat.FormatTimeExamples | main.py:253-256 | 125 gives "02:05", 59 gives "00:59", 3600 gives "60:00" |
| TimeFormat.Pad2 | main.py:256 | `{:02d}` is at least two characters, and exactly two below 100 |
| Paths.Basename | main.py:344 | `os.path.basename` for the status line: no longer than the path; `BasenameIsSuffix` gives its content |
| Paths.BasenameIsSuffix | main.py:375 | `os.path.basename` is the end of the path after its last '/', with no '/' in it |
| Winamp.PercentPlayed | main.py:263 | the played share is position*100/length, non-negative, and at most 100 exactly when the position is within the length |
| Winamp.SliderFor | main.py:263 | the time slider shows the whole percentage played, clamped to 0..100 |
| Winamp.MusicPlayer.constructor | main.py:95-101 | the fields start as `Controller.Initial`, the labels read "00:00" and "Ready", and the engine is sent volume 0.7 |
| Winamp.MusicPlayer.AddSong | main.py:287-296 | the append loop extends the playlist by the chosen files, as `Controller.AddSongs` |
| Winamp.MusicPlayer.PlaySelected | main.py:361-375 | fields and engine log move as `Controller.PlaySelected`; the duration label shows the new length, the slider is reset and the status shows the song's basename |
| Winamp.MusicPlayer.ShowSong | main.py:339-344 | the current song's length is recorded and shown, the slider goes to 0, the status shows its basename |
| Winamp.MusicPlayer.PrevSong | main.py:298-309 | fields and engine log move as `Controller.PrevSong`; nothing changes on an empty playlist; otherwise the duration label shows the new length, the slider is 0 and the status shows the basename |
| Winamp.MusicPlayer.NextSong | main.py:311-322 | fields and engine log move as `Controller.NextSong`; nothing changes on an empty playlist; otherwise the duration label shows the new length, the slider is 0 and the status shows the basename |
| Winamp.MusicPlayer.PlayMusic | main.py:324-344 | fields, engine log and warning as `Controller.PlayMusic`; a warning leaves the object unchanged; otherwise the duration label shows the new length, the slider is 0 and the status shows the basename |
| Winamp.MusicPlayer.PauseMusic | main.py:346-350 | fields and engine log as `Controller.PauseMusic`; the status reads "Paused" when the engine was busy |
| Winamp.MusicPlayer.StopMusic | main.py:352-359 | fields as `Controller.StopMusic`, `Stop` logged, slider 0, time label "00:00" (the formatted reset position), status "Stopped" |
| Winamp.MusicPlayer.SetPosition | main.py:265-281 | fields and engine log as `Controller.SetPosition`; after a seek the time label shows the new position |
| Winamp.MusicPlayer.SetVolume | main.py:283-285 | fields and engine log as `Controller.SetVolume` |
| Winamp.MusicPlayer.UpdatePosition | main.py:258-263 | the position follows `Controller.UpdatePosition`; when it moves, the label shows it, and with a positive length the slider shows the whole percentage played |
| Bars.NextHeight | main.py:61-63 | a drawn bar is in 10..60; an undrawn bar sinks by one and stops at 0 |
| Bars.Tick | main.py:59-63 | the busy branch of `update_bars` on the whole list: one next height per bar, so the list keeps its length |
| Bars.TickInRange | main.py:58-64 | a busy tick keeps every bar in 0..60 |
| Bars.QuietTicksFall | main.py:61 | with no draws, k ticks take a bar from h to max(0, h - k) |
| Bars.QuietTicksSettle | main.py:61 | with no draws, 60 ticks flatten every bar that started in 0..60 |
| Bars.Visualization.constructor | main.py:53 | 32 bars, all at 0 |
| Bars.Visualization.UpdateBars | main.py:58-64 | while busy, the in-place loop gives every bar its next height; when not busy the bars are unchanged; the array keeps 32 bars in 0..60 |

## Left out

- Widget construction, stylesheets, layout, `paintEvent`, window dragging and the context menu: presentation only. The playlist widget's rows mirror `playlist` one to one, so a clicked item is modelled by its row index.
- `QMessageBox.warning` is the `warned` flag of a step. `QFileDialog` is replaced by its result, the sequence of chosen paths.
- `QTimer` scheduling: each tick is an explicit call (`UpdatePosition`, `UpdateBars`).
- pygame decoding, mixing and the meaning of `get_pos()` after a seek: the engine is opaque. Its commands go to a ghost log, and `get_busy()` and `get_pos()` are parameters. A file the engine cannot open raises in the original; this model assumes every load succeeds.
- `Sound(path).get_length()` is a fixed function of the path. Probing a file that cannot be decoded is not modelled.
- Floating point: volumes, lengths, positions and percentages are Dafny reals. This abstracts IEEE doubles. `int()` of a non-negative value is `.Floor`.
- `random.random()` and `random.randint(10, 60)` are replaced by the per-bar draws of a tick (`Bars.Draws`).
- `self.update()` in `update_bars` only asks for a repaint, so it is not modelled.
- The `__main__` bootstrap.
- Qt's slider code is not part of this model. A `QSlider` with range 0..100 clamps the value it is given, and `Winamp.SliderValue` does the same.
