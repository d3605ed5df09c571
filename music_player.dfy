/**
 * The `MusicPlayer` window as an object: the six playback fields, the widget
 * values the handlers write, and the log of commands sent to the audio engine.
 * Each handler updates the fields in place and is proved to agree with the
 * transition of the same name in `Controller`.
 */
module Winamp {
  import opened Wrappers
  import opened Engine
  import opened TimeFormat
  import opened Paths
  import opened Controller

  /** The played share `current_position / song_length * 100` of the time slider. */
  function PercentPlayed(pos: real, length: real): (p: real)
    requires pos >= 0.0 && length > 0.0
    ensures p * length == pos * 100.0
    ensures 0.0 <= p
    ensures p <= 100.0 <==> pos <= length
  {
    Percentage(pos, length);
    pos / length * 100.0
  }

  /** The played percentage is in 0..100 exactly when the position is within the length. */
  lemma Percentage(a: real, b: real)
    requires a >= 0.0 && b > 0.0
    ensures a / b * 100.0 >= 0.0
    ensures a <= b <==> a / b * 100.0 <= 100.0
  {
    var q := a / b;
    assert q * b == a;
    if q < 0.0 {
      MulMonotone(q, 0.0, b);
    }
    if q <= 1.0 {
      MulMonotone(q, 1.0, b);
    } else {
      MulMonotone(1.0, q, b);
    }
  }

  /** `QSlider.setValue` on a slider whose range is 0..100 keeps the value in range. */
  function SliderValue(v: int): (r: int)
    ensures 0 <= r <= 100
    ensures 0 <= v <= 100 ==> r == v
    ensures v < 0 ==> r == 0
    ensures v > 100 ==> r == 100
  {
    if v < 0 then 0 else if v > 100 then 100 else v
  }

  /**
   * The time slider value `int(current_position / song_length * 100)` after the
   * slider clamps it: the whole percentage played, or 100 past the end.
   */
  function SliderFor(pos: real, length: real): (v: int)
    requires pos >= 0.0 && length > 0.0
    ensures 0 <= v <= 100
    ensures pos <= length ==> v as real <= PercentPlayed(pos, length) < v as real + 1.0
    ensures pos > length ==> v == 100
  {
    var p := PercentPlayed(pos, length);
    assert p <= 100.0 ==> p.Floor <= 100;
    SliderValue(p.Floor)
  }

  /** The label of a stopped player is the formatted zero position. */
  lemma ZeroLabel()
    ensures FormatSeconds(0.0) == "00:00"
  {
    Pad2Digits(0);
  }

  class MusicPlayer {
    var currentSong: Option<string>
    var playlist: seq<string>
    var paused: bool
    var volume: real
    var songLength: real
    var currentPosition: real

    /** `time_label`, `duration_label`, `time_slider` and `status_label`. */
    var timeText: string
    var durationText: string
    var slider: int
    var status: string

    /** Every command sent to `pygame.mixer.music`, oldest first. */
    ghost var log: seq<Command>

    /** `Sound(path).get_length()` for every path. */
    const durationOf: Durations

    /** The playback fields as a `Controller` state. */
    function State(): Player
      reads this
    {
      Player(currentSong, playlist, paused, volume, songLength, currentPosition)
    }

    /**
     * The playback invariant of `Controller` and the time slider within its
     * range 0..100.
     */
    ghost predicate Valid()
      reads this
    {
      && Inv(State())
      && 0 <= slider <= 100
    }

    /** `__init__`: no song, empty playlist, volume 0.7 sent to the engine. */
    constructor (durationOf: Durations)
      ensures Valid()
      ensures State() == Initial() && this.durationOf == durationOf
      ensures timeText == "00:00" && durationText == "00:00"
      ensures timeText == FormatSeconds(currentPosition) && durationText == FormatSeconds(songLength)
      ensures slider == 0 && status == "Ready"
      ensures log == [Engine.SetVolume(InitialVolume)]
    {
      currentSong := None;
      playlist := [];
      paused := false;
      volume := InitialVolume;
      songLength := 0.0;
      currentPosition := 0.0;
      timeText := "00:00";
      durationText := "00:00";
      slider := 0;
      status := "Ready";
      this.durationOf := durationOf;
      log := [Engine.SetVolume(InitialVolume)];
      ZeroLabel();
    }

    /** `add_song` for the files the dialog returned: each is appended with its row. */
    method AddSong(files: seq<string>)
      requires Valid()
      modifies this
      ensures Valid()
      ensures State() == AddSongs(old(State()), files).next
      ensures log == old(log)
      ensures timeText == old(timeText) && durationText == old(durationText)
      ensures slider == old(slider) && status == old(status)
    {
      var i := 0;
      while i < |files|
        invariant 0 <= i <= |files|
        invariant Valid()
        invariant playlist == old(playlist) + files[..i]
        invariant currentSong == old(currentSong) && paused == old(paused) && volume == old(volume)
        invariant songLength == old(songLength) && currentPosition == old(currentPosition)
        invariant log == old(log)
        invariant timeText == old(timeText) && durationText == old(durationText)
        invariant slider == old(slider) && status == old(status)
      {
        assert files[..i + 1] == files[..i] + [files[i]];
        playlist := playlist + [files[i]];
        i := i + 1;
      }
      assert files[..i] == files;
    }

    /**
     * `play_selected(item)`: a clicked row, or (with None) the current song looked
     * up in the playlist, is loaded and played from the start; its length and name
     * are shown and the time slider goes back to 0.
     */
    method PlaySelected(item: Option<nat>)
      requires Valid()
      requires item.Some? ==> item.value < |playlist|
      requires item.None? ==> currentSong.Some?
      modifies this
      ensures Valid()
      ensures State() == Controller.PlaySelected(old(State()), item, durationOf).next
      ensures log == old(log) + Controller.PlaySelected(old(State()), item, durationOf).sent
      ensures slider == 0 && status == Basename(currentSong.value)
      ensures durationText == FormatSeconds(songLength)
      ensures timeText == old(timeText)
    {
      var index;
      if item.None? {
        index := FirstIndexOf(playlist, currentSong.value);
      } else {
        index := item.value;
      }
      currentSong := Some(playlist[index]);
      log := log + [Load(currentSong.value), Play(0)];
      ShowSong();
    }

    /**
     * The tail `play_selected` and `play_music` share: the current song's length is
     * read from the engine and shown, the time slider goes back to 0 and the status
     * line shows the song's name.
     */
    method ShowSong()
      requires Valid() && currentSong.Some?
      modifies this`songLength, this`durationText, this`slider, this`status
      ensures Valid()
      ensures songLength == durationOf(currentSong.value)
      ensures durationText == FormatSeconds(songLength)
      ensures slider == 0 && status == Basename(currentSong.value)
    {
      songLength := durationOf(currentSong.value);
      durationText := FormatSeconds(songLength);
      slider := 0;
      status := Basename(currentSong.value);
    }

    /** `prev_song`: choose the entry before the current one and play it. */
    method PrevSong()
      requires Valid()
      modifies this
      ensures Valid()
      ensures State() == Controller.PrevSong(old(State()), durationOf).next
      ensures log == old(log) + Controller.PrevSong(old(State()), durationOf).sent
      ensures old(|playlist|) == 0 ==> unchanged(this)
      ensures old(|playlist|) > 0 ==> slider == 0 && status == Basename(currentSong.value)
      ensures old(|playlist|) > 0 ==> durationText == FormatSeconds(songLength)
      ensures timeText == old(timeText)
    {
      if |playlist| == 0 {
        return;
      }
      if currentSong.None? {
        currentSong := Some(playlist[0]);
      } else {
        var currentIndex := FirstIndexOf(playlist, currentSong.value);
        if currentIndex > 0 {
          currentSong := Some(playlist[currentIndex - 1]);
        } else {
          currentSong := Some(playlist[|playlist| - 1]);
        }
      }
      PlaySelected(None);
    }

    /** `next_song`: choose the entry after the current one and play it. */
    method NextSong()
      requires Valid()
      modifies this
      ensures Valid()
      ensures State() == Controller.NextSong(old(State()), durationOf).next
      ensures log == old(log) + Controller.NextSong(old(State()), durationOf).sent
      ensures old(|playlist|) == 0 ==> unchanged(this)
      ensures old(|playlist|) > 0 ==> slider == 0 && status == Basename(currentSong.value)
      ensures old(|playlist|) > 0 ==> durationText == FormatSeconds(songLength)
      ensures timeText == old(timeText)
    {
      if |playlist| == 0 {
        return;
      }
      if currentSong.None? {
        currentSong := Some(playlist[0]);
      } else {
        var currentIndex := FirstIndexOf(playlist, currentSong.value);
        if currentIndex < |playlist| - 1 {
          currentSong := Some(playlist[currentIndex + 1]);
        } else {
          currentSong := Some(playlist[0]);
        }
      }
      PlaySelected(None);
    }

    /**
     * `play_music`: warn on an empty playlist; otherwise start at the first entry
     * when nothing is current, resume a paused song or play from the start, and
     * show the song's length and name.
     */
    method PlayMusic() returns (warned: bool)
      requires Valid()
      modifies this
      ensures Valid()
      ensures State() == Controller.PlayMusic(old(State()), durationOf).next
      ensures log == old(log) + Controller.PlayMusic(old(State()), durationOf).sent
      ensures warned == Controller.PlayMusic(old(State()), durationOf).warned
      ensures warned ==> unchanged(this)
      ensures !warned ==> slider == 0 && status == Basename(currentSong.value)
      ensures !warned ==> durationText == FormatSeconds(songLength)
      ensures timeText == old(timeText)
    {
      ghost var r := Controller.PlayMusic(State(), durationOf);
      if |playlist| == 0 {
        return true;
      }
      if currentSong.None? {
        currentSong := Some(playlist[0]);
        log := log + [Load(currentSong.value)];
      }
      if paused {
        log := log + [Unpause];
        paused := false;
      } else {
        log := log + [Play(0)];
      }
      ShowSong();
      assert State() == r.next;
      return false;
    }

    /** `pause_music`, given `get_busy()`. */
    method PauseMusic(busy: bool)
      requires Valid()
      modifies this
      ensures Valid()
      ensures State() == Controller.PauseMusic(old(State()), busy).next
      ensures log == old(log) + Controller.PauseMusic(old(State()), busy).sent
      ensures status == if busy then "Paused" else old(status)
      ensures timeText == old(timeText) && durationText == old(durationText)
      ensures slider == old(slider)
    {
      if busy {
        log := log + [Pause];
        paused := true;
        status := "Paused";
      }
    }

    /** `stop_music`: stop the engine and reset the position display. */
    method StopMusic()
      requires Valid()
      modifies this
      ensures Valid()
      ensures State() == Controller.StopMusic(old(State())).next
      ensures log == old(log) + [Stop]
      ensures slider == 0 && timeText == "00:00" && status == "Stopped"
      ensures timeText == FormatSeconds(currentPosition)
      ensures durationText == old(durationText)
    {
      log := log + [Stop];
      currentSong := None;
      paused := false;
      currentPosition := 0.0;
      slider := 0;
      timeText := "00:00";
      status := "Stopped";
      ZeroLabel();
    }

    /** `set_position(value)` for a time slider value, given `get_busy()`. */
    method SetPosition(value: int, busy: bool)
      requires Valid()
      requires 0 <= value <= 100
      modifies this
      ensures Valid()
      ensures State() == Controller.SetPosition(old(State()), value, busy).next
      ensures log == old(log) + Controller.SetPosition(old(State()), value, busy).sent
      ensures timeText == if HasSong(currentSong) && songLength > 0.0
                          then FormatSeconds(currentPosition) else old(timeText)
      ensures durationText == old(durationText)
      ensures slider == old(slider) && status == old(status)
    {
      if HasSong(currentSong) && songLength > 0.0 {
        var position := SeekTarget(value, songLength);
        var wasPlaying := busy;
        log := log + [Stop, Load(currentSong.value), Play(position.Floor)];
        if !wasPlaying {
          log := log + [Pause];
        }
        currentPosition := position;
        timeText := FormatSeconds(position);
        paused := !wasPlaying;
      }
    }

    /** `set_volume(value)` for a volume slider value. */
    method SetVolume(value: int)
      requires Valid()
      requires 0 <= value <= 100
      modifies this
      ensures Valid()
      ensures State() == Controller.SetVolume(old(State()), value).next
      ensures log == old(log) + Controller.SetVolume(old(State()), value).sent
      ensures timeText == old(timeText) && durationText == old(durationText)
      ensures slider == old(slider) && status == old(status)
    {
      volume := value as real / 100.0;
      log := log + [Engine.SetVolume(volume)];
    }

    /**
     * The `update_position` tick, given `get_busy()` and `get_pos()`: while busy
     * with a song, the position and its label follow the engine and, for a
     * positive length, the slider shows the whole percentage played.
     */
    method UpdatePosition(busy: bool, posMs: nat)
      requires Valid()
      modifies this
      ensures Valid()
      ensures State() == Controller.UpdatePosition(old(State()), busy, posMs).next
      ensures log == old(log)
      ensures timeText == if busy && HasSong(currentSong)
                          then FormatSeconds(currentPosition) else old(timeText)
      ensures slider == if busy && HasSong(currentSong) && songLength > 0.0
                        then SliderFor(currentPosition, songLength) else old(slider)
      ensures durationText == old(durationText) && status == old(status)
    {
      if busy && HasSong(currentSong) {
        currentPosition := FromMillis(posMs);
        timeText := FormatSeconds(currentPosition);
        if songLength > 0.0 {
          slider := SliderFor(currentPosition, songLength);
        }
      }
    }
  }
}
