/**
 * Walking the playlist with repeated `next_song` and `prev_song` presses, and
 * the effect of duplicate paths on that walk.
 */
module Navigation {
  import opened Wrappers
  import opened Engine
  import opened Controller
  import opened Ring

  /** No path occurs twice in the playlist. */
  predicate Distinct(xs: seq<string>)
  {
    forall i, j :: 0 <= i < j < |xs| ==> xs[i] != xs[j]
  }

  /** The state after pressing "next" j times. */
  function NextTimes(s: Player, j: nat, dur: Durations): (r: Player)
    requires Inv(s)
    ensures Inv(r) && r.playlist == s.playlist
    decreases j
  {
    if j == 0 then s else NextTimes(NextSong(s, dur).next, j - 1, dur)
  }

  /** The state after pressing "previous" j times. */
  function PrevTimes(s: Player, j: nat, dur: Durations): (r: Player)
    requires Inv(s)
    ensures Inv(r) && r.playlist == s.playlist
    decreases j
  {
    if j == 0 then s else PrevTimes(PrevSong(s, dur).next, j - 1, dur)
  }

  /** With distinct entries, `list.index` finds the position it is given. */
  lemma FirstIndexOfDistinct(xs: seq<string>, i: nat)
    requires Distinct(xs) && i < |xs|
    ensures FirstIndexOf(xs, xs[i]) == i
  {
  }

  /** One press of "next" from entry k of a duplicate-free playlist. */
  lemma NextFrom(s: Player, dur: Durations, k: nat)
    requires Inv(s) && Distinct(s.playlist)
    requires k < |s.playlist| && s.current == Some(s.playlist[k])
    ensures var t := NextSong(s, dur).next;
            && Inv(t) && t.playlist == s.playlist
            && t.current == Some(s.playlist[Following(k, |s.playlist|)])
  {
    FirstIndexOfDistinct(s.playlist, k);
  }

  /** The first of j presses of "next". */
  lemma NextTimesFirst(s: Player, dur: Durations, j: nat)
    requires Inv(s) && j > 0
    ensures NextTimes(s, j, dur) == NextTimes(NextSong(s, dur).next, j - 1, dur)
  {}

  /** One press of "previous" from entry k of a duplicate-free playlist. */
  lemma PrevFrom(s: Player, dur: Durations, k: nat)
    requires Inv(s) && Distinct(s.playlist)
    requires k < |s.playlist| && s.current == Some(s.playlist[k])
    ensures var t := PrevSong(s, dur).next;
            && Inv(t) && t.playlist == s.playlist
            && t.current == Some(s.playlist[Preceding(k, |s.playlist|)])
  {
    FirstIndexOfDistinct(s.playlist, k);
  }

  /** The first of j presses of "previous". */
  lemma PrevTimesFirst(s: Player, dur: Durations, j: nat)
    requires Inv(s) && j > 0
    ensures PrevTimes(s, j, dur) == PrevTimes(PrevSong(s, dur).next, j - 1, dur)
  {}

  /** With distinct entries, j presses of "next" from entry k reach the entry j places on. */
  lemma {:induction false} NextWalk(s: Player, dur: Durations, k: nat, j: nat)
    requires Inv(s) && Distinct(s.playlist)
    requires k < |s.playlist| && s.current == Some(s.playlist[k])
    ensures NextTimes(s, j, dur).current == Some(s.playlist[Ahead(k, j, |s.playlist|)])
    decreases j
  {
    if j > 0 {
      var n := |s.playlist|;
      NextFrom(s, dur, k);
      NextTimesFirst(s, dur, j);
      var t := NextSong(s, dur).next;
      NextWalk(t, dur, Following(k, n), j - 1);
    }
  }

  /** With distinct entries, j presses of "previous" from entry k reach the entry j places back. */
  lemma {:induction false} PrevWalk(s: Player, dur: Durations, k: nat, j: nat)
    requires Inv(s) && Distinct(s.playlist)
    requires k < |s.playlist| && s.current == Some(s.playlist[k])
    ensures PrevTimes(s, j, dur).current == Some(s.playlist[Behind(k, j, |s.playlist|)])
    decreases j
  {
    if j > 0 {
      var n := |s.playlist|;
      PrevFrom(s, dur, k);
      PrevTimesFirst(s, dur, j);
      var t := PrevSong(s, dur).next;
      PrevWalk(t, dur, Preceding(k, n), j - 1);
    }
  }

  /** With distinct entries, j presses of "next" from entry k reach entry (k + j) mod n. */
  lemma NextWalkMod(s: Player, dur: Durations, k: nat, j: nat)
    requires Inv(s) && Distinct(s.playlist)
    requires k < |s.playlist| && s.current == Some(s.playlist[k])
    ensures NextTimes(s, j, dur).current == Some(s.playlist[(k + j) % |s.playlist|])
  {
    NextWalk(s, dur, k, j);
    AheadIsMod(k, j, |s.playlist|);
  }

  /** With distinct entries, j presses of "previous" from entry k reach entry (k - j) mod n. */
  lemma PrevWalkMod(s: Player, dur: Durations, k: nat, j: nat)
    requires Inv(s) && Distinct(s.playlist)
    requires k < |s.playlist| && s.current == Some(s.playlist[k])
    ensures PrevTimes(s, j, dur).current == Some(s.playlist[(k - j) % |s.playlist|])
  {
    PrevWalk(s, dur, k, j);
    BehindIsMod(k, j, |s.playlist|);
  }

  /** With distinct entries, pressing "next" once per entry comes back to the start. */
  lemma NextCycle(s: Player, dur: Durations)
    requires Inv(s) && Distinct(s.playlist) && s.current.Some?
    ensures NextTimes(s, |s.playlist|, dur).current == s.current
  {
    var k := FirstIndexOf(s.playlist, s.current.value);
    NextWalk(s, dur, k, |s.playlist|);
    FullTurn(k, |s.playlist|);
  }

  /** With distinct entries, pressing "previous" once per entry comes back to the start. */
  lemma PrevCycle(s: Player, dur: Durations)
    requires Inv(s) && Distinct(s.playlist) && s.current.Some?
    ensures PrevTimes(s, |s.playlist|, dur).current == s.current
  {
    var k := FirstIndexOf(s.playlist, s.current.value);
    PrevWalk(s, dur, k, |s.playlist|);
    FullTurn(k, |s.playlist|);
  }

  /**
   * Because the current song is looked up by its first occurrence, a repeated path
   * traps "next": in the playlist [a, b, a, c] with c different from a and b,
   * starting at a or b, no number of presses reaches c.
   */
  lemma {:induction false} NextNeverPassesDuplicate(s: Player, dur: Durations, a: string, b: string, c: string, j: nat)
    requires Inv(s) && s.playlist == [a, b, a, c] && c != a && c != b
    requires s.current == Some(a) || s.current == Some(b)
    ensures NextTimes(s, j, dur).current == Some(a) || NextTimes(s, j, dur).current == Some(b)
    ensures NextTimes(s, j, dur).current != Some(c)
    decreases j
  {
    if j > 0 {
      var t := NextSong(s, dur).next;
      if s.current == Some(a) {
        assert FirstIndexOf(s.playlist, a) == 0;
        assert t.current == Some(b);
      } else {
        assert FirstIndexOf(s.playlist, b) == 1;
        assert t.current == Some(a);
      }
      NextTimesFirst(s, dur, j);
      NextNeverPassesDuplicate(t, dur, a, b, c, j - 1);
    }
  }
}
