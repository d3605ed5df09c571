/**
 * The playback and playlist state of `MusicPlayer` and its event handlers, each as a
 * transition: the state after the handler, the commands it sends to the audio
 * engine, and whether it raised the "add songs first" warning. What the handlers
 * write to the widgets is stated by the class in music_player.dfy.
 */
module Controller {
  import opened Wrappers
  import opened Engine

  /** A non-negative duration in seconds, as `Sound(path).get_length()` reports it. */
  type Seconds = r: real | r >= 0.0

  /** The length the engine reports for each file; the model takes it as given. */
  type Durations = string -> Seconds

  /** The six playback fields of `MusicPlayer`. */
  datatype Player = Player(
    current: Option<string>,  // current_song
    playlist: seq<string>,    // playlist
    paused: bool,             // paused
    volume: real,             // volume
    songLength: real,         // song_length
    position: real)           // current_position

  /** One handler call: the new state, the engine commands in order, the warning. */
  datatype Step = Step(next: Player, sent: seq<Command>, warned: bool)

  const InitialVolume: real := 0.7

  /** The state `MusicPlayer.__init__` leaves behind. */
  function Initial(): (p: Player)
    ensures Inv(p)
  {
    Player(None, [], false, InitialVolume, 0.0, 0.0)
  }

  /**
   * The invariant: the current song is none or an entry of the playlist (so
   * `playlist.index` cannot fail), and the numeric fields stay in the ranges their
   * sources give them.
   */
  predicate Inv(s: Player)
  {
    && (s.current.Some? ==> s.current.value in s.playlist)
    && s.songLength >= 0.0
    && s.position >= 0.0
    && 0.0 <= s.volume <= 1.0
  }

  /** `list.index`: the position of the first occurrence of `x`. */
  function FirstIndexOf(xs: seq<string>, x: string): (k: nat)
    requires x in xs
    ensures k < |xs| && xs[k] == x
    ensures forall j :: 0 <= j < k ==> xs[j] != x
  {
    FirstIndexFrom(xs, x, 0)
  }

  /** The first occurrence of `x` at or after `i`, when none occurs before `i`. */
  function FirstIndexFrom(xs: seq<string>, x: string, i: nat): (k: nat)
    requires x in xs && i < |xs|
    requires forall j :: 0 <= j < i ==> xs[j] != x
    ensures i <= k < |xs| && xs[k] == x
    ensures forall j :: 0 <= j < k ==> xs[j] != x
    decreases |xs| - i
  {
    if xs[i] == x then i
    else FirstIndexFrom(xs, x, i + 1)
  }

  /** The position after k on a ring of n positions. */
  function Following(k: nat, n: nat): (r: nat)
    requires k < n
    ensures r < n
  {
    if k + 1 < n then k + 1 else 0
  }

  /** The position before k on a ring of n positions. */
  function Preceding(k: nat, n: nat): (r: nat)
    requires k < n
    ensures r < n
  {
    if k > 0 then k - 1 else n - 1
  }

  /** The seek offset `(value / 100) * song_length` for a slider value 0..100. */
  function SeekTarget(value: int, length: real): (t: real)
    requires 0 <= value <= 100 && length >= 0.0
    ensures 0.0 <= t <= length
    ensures t * 100.0 == value as real * length
    ensures value == 0 ==> t == 0.0
    ensures value == 100 ==> t == length
  {
    var f := value as real / 100.0;
    MulMonotone(0.0, f, length);
    assert f <= 1.0;
    MulMonotone(f, 1.0, length);
    assert 1.0 * length == length;
    f * length
  }

  lemma MulMonotone(a: real, b: real, c: real)
    requires a <= b && c >= 0.0
    ensures a * c <= b * c
  {
    assert b * c - a * c == (b - a) * c;
  }

  /** The fields a handler that starts a track leaves as they were. */
  predicate Keeps(s: Player, t: Player)
  {
    && t.playlist == s.playlist
    && t.paused == s.paused
    && t.volume == s.volume
    && t.position == s.position
  }

  /** `song` is current and its length, as the engine reports it, is recorded. */
  predicate Shows(t: Player, song: string, dur: Durations)
  {
    && t.current == Some(song)
    && t.songLength == dur(song)
  }

  /** `add_song`: the chosen files are appended, in order, to the playlist. */
  function AddSongs(s: Player, files: seq<string>): (r: Step)
    requires Inv(s)
    ensures Inv(r.next) && r.sent == [] && !r.warned
    ensures |r.next.playlist| == |s.playlist| + |files|
    ensures r.next.playlist[..|s.playlist|] == s.playlist
    ensures r.next.playlist[|s.playlist|..] == files
    ensures r.next == s.(playlist := r.next.playlist)
  {
    Step(s.(playlist := s.playlist + files), [], false)
  }

  /**
   * `play_selected(item)`: with a row, the song of that row; with None, the first
   * playlist entry equal to the current song (which is that song again). It is
   * loaded, played from the start, and its length is recorded.
   */
  function PlaySelected(s: Player, item: Option<nat>, dur: Durations): (r: Step)
    requires Inv(s)
    requires item.Some? ==> item.value < |s.playlist|
    requires item.None? ==> s.current.Some?
    ensures Inv(r.next) && !r.warned
    ensures var song := if item.Some? then s.playlist[item.value] else s.current.value;
            && r.sent == [Load(song), Play(0)]
            && Shows(r.next, song, dur)
            && Keeps(s, r.next)
  {
    var index := if item.None? then FirstIndexOf(s.playlist, s.current.value) else item.value;
    var song := s.playlist[index];
    Step(s.(current := Some(song), songLength := dur(song)), [Load(song), Play(0)], false)
  }

  /**
   * `next_song`: nothing on an empty playlist; otherwise the first entry when no
   * song is current, else the entry after the current song's first occurrence,
   * wrapping to the first entry; that song is then played through `play_selected`.
   */
  function NextSong(s: Player, dur: Durations): (r: Step)
    requires Inv(s)
    ensures Inv(r.next) && !r.warned
    ensures |s.playlist| == 0 ==> r.next == s && r.sent == []
    ensures |s.playlist| > 0 ==>
      var n := |s.playlist|;
      var song := if s.current.None? then s.playlist[0]
                  else s.playlist[Following(FirstIndexOf(s.playlist, s.current.value), n)];
      && r.sent == [Load(song), Play(0)]
      && Shows(r.next, song, dur)
      && Keeps(s, r.next)
  {
    if |s.playlist| == 0 then Step(s, [], false)
    else
      var song :=
        if s.current.None? then s.playlist[0]
        else
          (var k := FirstIndexOf(s.playlist, s.current.value);
           if k < |s.playlist| - 1 then s.playlist[k + 1] else s.playlist[0]);
      PlaySelected(s.(current := Some(song)), None, dur)
  }

  /**
   * `prev_song`: nothing on an empty playlist; otherwise the first entry when no
   * song is current (not the last one), else the entry before the current song's
   * first occurrence, wrapping to the last entry; then played via `play_selected`.
   */
  function PrevSong(s: Player, dur: Durations): (r: Step)
    requires Inv(s)
    ensures Inv(r.next) && !r.warned
    ensures |s.playlist| == 0 ==> r.next == s && r.sent == []
    ensures |s.playlist| > 0 ==>
      var n := |s.playlist|;
      var song := if s.current.None? then s.playlist[0]
                  else s.playlist[Preceding(FirstIndexOf(s.playlist, s.current.value), n)];
      && r.sent == [Load(song), Play(0)]
      && Shows(r.next, song, dur)
      && Keeps(s, r.next)
  {
    if |s.playlist| == 0 then Step(s, [], false)
    else
      var song :=
        if s.current.None? then s.playlist[0]
        else
          (var k := FirstIndexOf(s.playlist, s.current.value);
           if k > 0 then s.playlist[k - 1] else s.playlist[|s.playlist| - 1]);
      PlaySelected(s.(current := Some(song)), None, dur)
  }

  /**
   * `play_music`: on an empty playlist only the warning. Otherwise the first entry
   * becomes current (and is loaded) when none is; a paused song is resumed with
   * `Unpause` and no reload, anything else gets `Play(0)`; the current song's length
   * is then recorded.
   */
  function PlayMusic(s: Player, dur: Durations): (r: Step)
    requires Inv(s)
    ensures Inv(r.next)
    ensures r.warned <==> |s.playlist| == 0
    ensures |s.playlist| == 0 ==> r.next == s && r.sent == []
    ensures |s.playlist| > 0 ==>
      var song := if s.current.None? then s.playlist[0] else s.current.value;
      && r.sent == (if s.current.None? then [Load(song)] else [])
                   + (if s.paused then [Unpause] else [Play(0)])
      && Shows(r.next, song, dur)
      && !r.next.paused
      && Keeps(s, r.next.(paused := s.paused))
  {
    if |s.playlist| == 0 then Step(s, [], true)
    else
      var s1 := if s.current.None? then s.(current := Some(s.playlist[0])) else s;
      var load := if s.current.None? then [Load(s.playlist[0])] else [];
      var s2 := if s1.paused then s1.(paused := false) else s1;
      var resume := if s1.paused then [Unpause] else [Play(0)];
      var song := s2.current.value;
      Step(s2.(songLength := dur(song)), load + resume, false)
  }

  /** `pause_music`: only when the engine is busy, pause it and remember that. */
  function PauseMusic(s: Player, busy: bool): (r: Step)
    requires Inv(s)
    ensures Inv(r.next) && !r.warned
    ensures !busy ==> r.next == s && r.sent == []
    ensures busy ==> r.sent == [Pause] && r.next == s.(paused := true)
  {
    if busy then Step(s.(paused := true), [Pause], false)
    else Step(s, [], false)
  }

  /**
   * `stop_music`: from any state, stop the engine and return to "no song, not
   * paused, at 0"; the playlist, volume and song length are kept.
   */
  function StopMusic(s: Player): (r: Step)
    requires Inv(s)
    ensures Inv(r.next) && !r.warned && r.sent == [Stop]
    ensures r.next.current == None && !r.next.paused && r.next.position == 0.0
    ensures r.next.playlist == s.playlist && r.next.volume == s.volume
    ensures r.next.songLength == s.songLength
  {
    Step(s.(current := None, paused := false, position := 0.0), [Stop], false)
  }

  /** Python truthiness of `current_song`: neither None nor the empty path. */
  predicate HasSong(c: Option<string>)
  {
    c.Some? && c.value != ""
  }

  /**
   * `set_position(value)` for a slider value 0..100: nothing unless a song is set
   * and its length is positive; otherwise stop, reload, play from the truncated
   * target offset, pause again when the engine was not busy before, and record the
   * target position and the pause state it implies.
   */
  function SetPosition(s: Player, value: int, busy: bool): (r: Step)
    requires Inv(s)
    requires 0 <= value <= 100
    ensures Inv(r.next) && !r.warned
    ensures !(HasSong(s.current) && s.songLength > 0.0) ==> r.next == s && r.sent == []
    ensures HasSong(s.current) && s.songLength > 0.0 ==>
      var target := SeekTarget(value, s.songLength);
      && 0.0 <= target <= s.songLength
      && r.sent == [Stop, Load(s.current.value), Play(target.Floor)] + (if busy then [] else [Pause])
      && r.next == s.(position := target, paused := !busy)
  {
    if HasSong(s.current) && s.songLength > 0.0 then
      var position := SeekTarget(value, s.songLength);
      var wasPlaying := busy;
      var sent := [Stop, Load(s.current.value), Play(position.Floor)] + (if wasPlaying then [] else [Pause]);
      Step(s.(position := position, paused := !wasPlaying), sent, false)
    else
      Step(s, [], false)
  }

  /** `set_volume(value)` for a slider value 0..100: the level value/100 is stored and sent. */
  function SetVolume(s: Player, value: int): (r: Step)
    requires Inv(s)
    requires 0 <= value <= 100
    ensures Inv(r.next) && !r.warned
    ensures 0.0 <= r.next.volume <= 1.0 && r.next.volume * 100.0 == value as real
    ensures r.sent == [Engine.SetVolume(r.next.volume)]
    ensures r.next == s.(volume := r.next.volume)
  {
    var level := value as real / 100.0;
    Step(s.(volume := level), [Engine.SetVolume(level)], false)
  }

  /** `get_pos() / 1000`: the engine's millisecond count in seconds. */
  function FromMillis(ms: nat): (x: real)
    ensures x >= 0.0 && x * 1000.0 == ms as real
  {
    ms as real / 1000.0
  }

  /**
   * The once-a-second `update_position` tick, given the engine's `get_busy()` and
   * `get_pos()` (milliseconds): only while busy with a song set, the position
   * follows the engine. No engine command is sent.
   */
  function UpdatePosition(s: Player, busy: bool, posMs: nat): (r: Step)
    requires Inv(s)
    ensures Inv(r.next) && !r.warned && r.sent == []
    ensures !(busy && HasSong(s.current)) ==> r.next == s
    ensures busy && HasSong(s.current) ==> r.next == s.(position := FromMillis(posMs))
  {
    if busy && HasSong(s.current) then
      Step(s.(position := FromMillis(posMs)), [], false)
    else
      Step(s, [], false)
  }
}
