/**
 * Short sequences of handler calls and what they add up to: pause then play,
 * stopping twice, a seek, and two playlist walks on small playlists.
 */
module Scenarios {
  import opened Wrappers
  import opened Engine
  import opened Controller
  import opened Navigation

  /** Pause followed by play resumes the same song: `Unpause` only, position kept. */
  lemma PauseThenPlay(s: Player, dur: Durations)
    requires Inv(s) && s.current.Some?
    ensures var p := PauseMusic(s, true).next;
            var q := PlayMusic(p, dur);
            && q.sent == [Unpause] && !q.warned
            && q.next.current == s.current && q.next.position == s.position && !q.next.paused
  {}

  /** Stopping twice is stopping once. */
  lemma StopIdempotent(s: Player)
    requires Inv(s)
    ensures StopMusic(StopMusic(s).next).next == StopMusic(s).next
  {}

  /** Seeking to 50 in a 200-second song moves to 100 seconds and plays from offset 100. */
  lemma SeekHalfway(s: Player, busy: bool)
    requires Inv(s) && HasSong(s.current) && s.songLength == 200.0
    ensures SetPosition(s, 50, busy).next.position == 100.0
    ensures SetPosition(s, 50, busy).sent[2] == Play(100)
  {
    assert SeekTarget(50, 200.0) == 100.0;
  }

  /** [A, B, C]: selecting row 2 and then pressing "next" wraps around to A. */
  lemma SelectLastThenNext(a: string, b: string, c: string, dur: Durations)
    requires Distinct([a, b, c])
    ensures var s := AddSongs(Initial(), [a, b, c]).next;
            var t := PlaySelected(s, Some(2), dur).next;
            NextSong(t, dur).next.current == Some(a)
  {
    var s := AddSongs(Initial(), [a, b, c]).next;
    var t := PlaySelected(s, Some(2), dur).next;
    FirstIndexOfDistinct(t.playlist, 2);
  }

  /** [A, B] with no current song: "previous" selects A, not the last entry. */
  lemma AddThenPrev(a: string, b: string, dur: Durations)
    ensures PrevSong(AddSongs(Initial(), [a, b]).next, dur).next.current == Some(a)
  {}
}
