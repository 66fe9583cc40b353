/** The playlist queue of src/MusicManager.js: an ordered playlist, a cursor
    (`currentIndex`) naming the next song to serve, and the time of the last
    Fisher–Yates reshuffle. `Math.random` becomes explicit swap partners, `Date.now`
    an explicit `now`, and the YouTube lookups explicit outcomes. */
module Music {
  import opened Wrappers
  import JsText

  /** A playlist entry, as stored in the playlist file. */
  datatype Song = Song(title: string, url: string, duration: string, artist: string, addedAt: string)

  /** The queue's state: `playlist`, `currentIndex` and `lastShuffleTime`. */
  datatype Queue = Queue(playlist: seq<Song>, cursor: nat, lastShuffle: int)

  /** What one attempt of `getNextTrack` yields: the song served (its stream resolved),
      `null` for an empty playlist, or the song whose stream could not be resolved,
      after which the source tries again. */
  datatype Attempt = Served(song: Song) | Empty | ResolveFailed(song: Song)

  /** Thirty minutes in milliseconds (`shuffleInterval`). */
  const ShuffleInterval: int := 30 * 60 * 1000

  /** The random draws of one Fisher–Yates pass over `n` songs: `draws[i]` is the swap
      partner `Math.floor(Math.random() * (i + 1))` chosen for position `i`. */
  predicate ValidDraws(draws: seq<nat>, n: nat) {
    |draws| == n && forall i :: 0 <= i < n ==> draws[i] <= i
  }

  /** The destructuring swap `[s[i], s[j]] = [s[j], s[i]]`. */
  function Swap<T>(s: seq<T>, i: nat, j: nat): (r: seq<T>)
    requires i < |s| && j < |s|
    ensures |r| == |s| && r[i] == s[j] && r[j] == s[i]
    ensures forall k :: 0 <= k < |s| && k != i && k != j ==> r[k] == s[k]
  {
    s[i := s[j]][j := s[i]]
  }

  lemma SwapPermutes<T>(s: seq<T>, i: nat, j: nat)
    requires i < |s| && j < |s|
    ensures multiset(Swap(s, i, j)) == multiset(s)
  {
    var t := s[i := s[j]];
    assert multiset(t) == multiset(s) - multiset{s[i]} + multiset{s[j]};
  }

  /** The iterations i, i-1, ..., 1 of the descending shuffle loop. */
  function ShuffleDown<T>(s: seq<T>, draws: seq<nat>, i: nat): seq<T>
    requires ValidDraws(draws, |s|) && i < |s|
    decreases i
  {
    if i == 0 then s else ShuffleDown(Swap(s, i, draws[i]), draws, i - 1)
  }

  /** The whole Fisher–Yates pass of `shufflePlaylist`. */
  function Shuffled<T>(s: seq<T>, draws: seq<nat>): seq<T>
    requires ValidDraws(draws, |s|)
  {
    if |s| == 0 then s else ShuffleDown(s, draws, |s| - 1)
  }

  lemma {:induction false} ShuffleDownPermutes<T>(s: seq<T>, draws: seq<nat>, i: nat)
    requires ValidDraws(draws, |s|) && i < |s|
    ensures |ShuffleDown(s, draws, i)| == |s|
    ensures multiset(ShuffleDown(s, draws, i)) == multiset(s)
    decreases i
  {
    if i > 0 {
      SwapPermutes(s, i, draws[i]);
      ShuffleDownPermutes(Swap(s, i, draws[i]), draws, i - 1);
    }
  }

  /** A reshuffle is a permutation: same length, same songs with the same
      multiplicities, so every song is still present exactly as often as before. */
  lemma ShuffledIsPermutation<T>(s: seq<T>, draws: seq<nat>)
    requires ValidDraws(draws, |s|)
    ensures |Shuffled(s, draws)| == |s|
    ensures multiset(Shuffled(s, draws)) == multiset(s)
    ensures forall x :: x in Shuffled(s, draws) <==> x in s
  {
    if |s| > 0 {
      ShuffleDownPermutes(s, draws, |s| - 1);
    }
    var r := Shuffled(s, draws);
    forall x ensures x in r <==> x in s {
      assert x in r <==> x in multiset(r);
      assert x in s <==> x in multiset(s);
    }
  }

  /** `shufflePlaylist`: permute the playlist, reset the cursor, stamp the time. */
  function Reshuffle(q: Queue, draws: seq<nat>, now: int): (r: Queue)
    requires ValidDraws(draws, |q.playlist|)
    ensures |r.playlist| == |q.playlist| && multiset(r.playlist) == multiset(q.playlist)
    ensures r.cursor == 0 && r.lastShuffle == now
  {
    ShuffledIsPermutation(q.playlist, draws);
    Queue(Shuffled(q.playlist, draws), 0, now)
  }

  /** The state after the two reshuffle checks that open `getNextTrack`: one when
      more than `ShuffleInterval` has passed since the last shuffle, one when the
      cursor is at or past the end. Whatever the cursor was (even far past the end
      after removals), afterwards it names a song of a non-empty playlist. When both
      checks fire the playlist is empty, so one pass of draws serves both. */
  function Prepare(q: Queue, now: int, draws: seq<nat>): (p: Queue)
    requires ValidDraws(draws, |q.playlist|)
    ensures |p.playlist| == |q.playlist|
    ensures |p.playlist| > 0 ==> p.cursor < |p.playlist|
    ensures p.playlist == q.playlist || p.playlist == Shuffled(q.playlist, draws)
    ensures p.cursor == q.cursor || p.cursor == 0
  {
    var aged := if now - q.lastShuffle > ShuffleInterval then Reshuffle(q, draws, now) else q;
    if aged.cursor >= |aged.playlist| then Reshuffle(aged, draws, now) else aged
  }

  /** One attempt of `getNextTrack`: serve the song at the checked cursor and advance
      the cursor by one; on a resolution failure the catch advances it once more. */
  function NextTrack(q: Queue, now: int, draws: seq<nat>, resolved: bool): (Queue, Attempt)
    requires ValidDraws(draws, |q.playlist|)
  {
    var p := Prepare(q, now, draws);
    if |p.playlist| == 0 then (p, Empty)
    else
      var track := p.playlist[p.cursor];
      if resolved then (p.(cursor := p.cursor + 1), Served(track))
      else (p.(cursor := p.cursor + 2), ResolveFailed(track))
  }

  /** When `getNextTrack` reshuffles first, and what one attempt does: `null` exactly
      for an empty playlist (nothing served, cursor 0); otherwise the song at the
      checked cursor, with the cursor moved past it by one on success (so it ends in
      1..length) and by two in total on a resolution failure. */
  lemma NextTrackOutcome(q: Queue, now: int, draws: seq<nat>, resolved: bool)
    requires ValidDraws(draws, |q.playlist|)
    ensures var (q', a) := NextTrack(q, now, draws, resolved);
      var reshuffles := now - q.lastShuffle > ShuffleInterval || q.cursor >= |q.playlist|;
      var k := if reshuffles then 0 else q.cursor;
      && q'.playlist == (if reshuffles then Shuffled(q.playlist, draws) else q.playlist)
      && q'.lastShuffle == (if reshuffles then now else q.lastShuffle)
      && (a.Empty? <==> |q.playlist| == 0)
      && (a.Empty? ==> q'.cursor == 0)
      && (!a.Empty? ==> k < |q'.playlist| && a.song == q'.playlist[k] && a.song in q.playlist)
      && (a.Served? ==> resolved && q'.cursor == k + 1 && 1 <= q'.cursor <= |q'.playlist|)
      && (a.ResolveFailed? ==> !resolved && q'.cursor == k + 2)
  {
    ShuffledIsPermutation(q.playlist, draws);
  }

  /** Successful serves in a row, the `k`-th call made at time `nows[k]` (the draws
      are reused: their length stays right because serving never changes the
      playlist length). */
  function ServeRun(q: Queue, nows: seq<int>, draws: seq<nat>): (Queue, seq<Song>)
    requires ValidDraws(draws, |q.playlist|)
    decreases |nows|
  {
    if |nows| == 0 then (q, [])
    else
      var (q1, a) := NextTrack(q, nows[0], draws, true);
      ShuffledIsPermutation(q.playlist, draws);
      var (q2, rest) := ServeRun(q1, nows[1..], draws);
      (q2, (if a.Served? then [a.song] else []) + rest)
  }

  /** Calls made while the shuffle interval has not elapsed and the cursor stays in
      range serve `playlist[cursor..]` in order, whatever the times of the calls. */
  lemma {:induction false} ServeRunInOrder(q: Queue, nows: seq<int>, draws: seq<nat>)
    requires ValidDraws(draws, |q.playlist|)
    requires q.cursor + |nows| <= |q.playlist|
    requires forall k :: 0 <= k < |nows| ==> nows[k] - q.lastShuffle <= ShuffleInterval
    ensures ServeRun(q, nows, draws).1 == q.playlist[q.cursor..q.cursor + |nows|]
    ensures ServeRun(q, nows, draws).0 == q.(cursor := q.cursor + |nows|)
    decreases |nows|
  {
    if |nows| > 0 {
      var n := |nows|;
      var (q1, a) := NextTrack(q, nows[0], draws, true);
      assert q1 == q.(cursor := q.cursor + 1) && a == Served(q.playlist[q.cursor]);
      var rest := nows[1..];
      assert forall k :: 0 <= k < |rest| ==> rest[k] == nows[k + 1];
      ServeRunInOrder(q1, rest, draws);
      assert q.playlist[q.cursor..q.cursor + n]
          == [q.playlist[q.cursor]] + q.playlist[q.cursor + 1..q.cursor + n];
    }
  }

  /** Starting from a fresh shuffle (cursor 0), `|playlist|` calls made within the
      shuffle interval serve every song exactly once (as a multiset, the whole
      playlist) before any song is served twice. */
  lemma FullRoundServesEachSongOnce(q: Queue, nows: seq<int>, draws: seq<nat>)
    requires ValidDraws(draws, |q.playlist|)
    requires q.cursor == 0 && |nows| == |q.playlist|
    requires forall k :: 0 <= k < |nows| ==> nows[k] - q.lastShuffle <= ShuffleInterval
    ensures multiset(ServeRun(q, nows, draws).1) == multiset(q.playlist)
    ensures ServeRun(q, nows, draws).0.cursor == |q.playlist|
  {
    ServeRunInOrder(q, nows, draws);
    assert q.playlist[0..|q.playlist|] == q.playlist;
  }

  /** `getCurrentTrack`: the song served last, `playlist[currentIndex - 1]`. */
  function CurrentTrack(q: Queue): Option<Song> {
    if 0 < q.cursor <= |q.playlist| then Some(q.playlist[q.cursor - 1]) else None
  }

  /** `playlist[currentIndex] || null` of `getPlaylistInfo`. */
  function PeekNext(q: Queue): Option<Song> {
    if q.cursor < |q.playlist| then Some(q.playlist[q.cursor]) else None
  }

  /** The record `getPlaylistInfo` returns. */
  datatype PlaylistInfo = PlaylistInfo(totalSongs: nat, currentIndex: nat,
                                       currentTrack: Option<Song>, nextTrack: Option<Song>)

  function Info(q: Queue): PlaylistInfo {
    PlaylistInfo(|q.playlist|, q.cursor, CurrentTrack(q), PeekNext(q))
  }

  /** The current track is the one just served, and nothing is current exactly when
      the cursor is 0 or past the end (as removals can leave it). */
  lemma ServedIsCurrent(q: Queue, now: int, draws: seq<nat>)
    requires ValidDraws(draws, |q.playlist|)
    ensures var (q', a) := NextTrack(q, now, draws, true);
      a.Served? ==> CurrentTrack(q') == Some(a.song) && Info(q').currentTrack == Some(a.song)
    ensures CurrentTrack(q).None? <==> q.cursor == 0 || q.cursor > |q.playlist|
  {
  }

  /** `nextTrack` of the info is what the next successful call serves, as long as no
      reshuffle is due; when it is `null`, the next call reshuffles first. */
  lemma PeekIsNextServed(q: Queue, now: int, draws: seq<nat>)
    requires ValidDraws(draws, |q.playlist|)
    requires now - q.lastShuffle <= ShuffleInterval
    ensures var (q', a) := NextTrack(q, now, draws, true);
      && (Info(q).nextTrack.Some? ==> a == Served(Info(q).nextTrack.value))
      && (Info(q).nextTrack.None? ==> q'.playlist == Shuffled(q.playlist, draws) && q'.lastShuffle == now)
  {
  }

  /** `removeSong(index)`: in range, the song at `index` leaves the playlist and the
      others keep their order; out of range, `null` and nothing changes. The cursor is
      never adjusted. */
  function Remove(q: Queue, index: int): (Queue, Option<Song>) {
    if 0 <= index < |q.playlist| then
      (q.(playlist := q.playlist[..index] + q.playlist[index + 1..]), Some(q.playlist[index]))
    else (q, None)
  }

  /** Putting the removed song back at its position restores the playlist; every
      other song keeps its relative order; the cursor and shuffle time stay. */
  lemma RemoveExact(q: Queue, index: int)
    ensures var (q', r) := Remove(q, index);
      && q'.cursor == q.cursor && q'.lastShuffle == q.lastShuffle
      && (0 <= index < |q.playlist| ==>
            && r == Some(q.playlist[index])
            && |q'.playlist| == |q.playlist| - 1
            && (forall k :: 0 <= k < index ==> q'.playlist[k] == q.playlist[k])
            && (forall k :: index <= k < |q'.playlist| ==> q'.playlist[k] == q.playlist[k + 1])
            && q'.playlist[..index] + [r.value] + q'.playlist[index..] == q.playlist
            && multiset(q'.playlist) + multiset{r.value} == multiset(q.playlist))
      && (!(0 <= index < |q.playlist|) ==> r == None && q' == q)
  {
    if 0 <= index < |q.playlist| {
      var s := q.playlist;
      assert s == s[..index] + [s[index]] + s[index + 1..];
    }
  }

  /** The YouTube search result `addSong` builds a song from. */
  datatype Video = Video(title: string, id: string, lengthText: Option<string>)

  /** The outcome of `YoutubeSearchApi.GetListByKeyword(query, false, 1)`. */
  datatype Search = Found(first: Video) | NoResults | SearchError

  /** The watch-page address a video id is appended to. */
  const WatchPrefix: string := "https://www.youtube.com/watch?v="

  /** The song record `addSong` builds from the first search hit: the video id can
      be read back from the URL, and the duration is never empty (the
      `|| 'Unknown'` fallback); it is the video's length text unless it is the
      placeholder. */
  function SongOf(v: Video, addedAt: string): (s: Song)
    ensures JsText.StartsWith(s.url, WatchPrefix) && s.url[|WatchPrefix|..] == v.id
    ensures s.duration != ""
    ensures s.duration != "Unknown" ==> v.lengthText == Some(s.duration)
    ensures s.title == v.title && s.addedAt == addedAt
  {
    var url := WatchPrefix + v.id;
    assert url[..|WatchPrefix|] == WatchPrefix && url[|WatchPrefix|..] == v.id;
    Song(v.title, url,
         match v.lengthText case Some(t) => (if t != "" then t else "Unknown") case None => "Unknown",
         "Unknown", addedAt)
  }

  /** `addSong`: append the found song at the end, or change nothing. */
  function Add(q: Queue, search: Search, addedAt: string): (Queue, Option<Song>) {
    match search
    case Found(v) =>
      var song := SongOf(v, addedAt);
      (q.(playlist := q.playlist + [song]), Some(song))
    case _ => (q, None)
  }

  /** Adding and then removing the last position gives back the same song and the
      queue as it was: `addSong` only appends. */
  lemma {:induction false} AddThenRemoveLast(q: Queue, search: Search, addedAt: string)
    ensures var (q1, added) := Add(q, search, addedAt);
      && (added.Some? <==> search.Found?)
      && (added.Some? ==> Remove(q1, |q.playlist|) == (q, added))
      && (added.None? ==> q1 == q)
      && q1.cursor == q.cursor
      && q1.playlist[..|q.playlist|] == q.playlist
  {
    var (q1, added) := Add(q, search, addedAt);
    if added.Some? {
      var n := |q.playlist|;
      assert q1.playlist[n] == added.value;
      assert q1.playlist[..n] + q1.playlist[n + 1..] == q.playlist;
    }
  }

  /** The queue object: the source's three fields, updated in place. */
  class MusicManager {
    var playlist: seq<Song>
    var currentIndex: nat
    var lastShuffleTime: int

    function Model(): Queue
      reads this
    {
      Queue(playlist, currentIndex, lastShuffleTime)
    }

    /** The fields as the constructor sets them, before the asynchronous load. */
    constructor ()
      ensures Model() == Queue([], 0, 0)
    {
      playlist := [];
      currentIndex := 0;
      lastShuffleTime := 0;
    }

    method ShufflePlaylist(draws: seq<nat>, now: int)
      requires ValidDraws(draws, |playlist|)
      modifies this
      ensures Model() == Reshuffle(old(Model()), draws, now)
    {
      var i: int := |playlist| - 1;
      while i > 0
        invariant -1 <= i < |playlist| && |playlist| == |old(playlist)|
        invariant ValidDraws(draws, |playlist|)
        invariant if i >= 0 then ShuffleDown(playlist, draws, i) == Shuffled(old(playlist), draws)
                  else playlist == old(playlist) == []
      {
        var j := draws[i];
        playlist := playlist[i := playlist[j]][j := playlist[i]];
        i := i - 1;
      }
      currentIndex := 0;
      lastShuffleTime := now;
    }

    /** One attempt of `getNextTrack`; `resolved` is whether the stream of the song
        at the cursor could be obtained. */
    method GetNextTrack(now: int, draws: seq<nat>, resolved: bool) returns (a: Attempt)
      requires ValidDraws(draws, |playlist|)
      modifies this
      ensures (Model(), a) == NextTrack(old(Model()), now, draws, resolved)
    {
      if now - lastShuffleTime > ShuffleInterval {
        ShufflePlaylist(draws, now);
      }
      if currentIndex >= |playlist| {
        ShufflePlaylist(draws, now);
      }
      if |playlist| == 0 {
        return Empty;
      }
      var track := playlist[currentIndex];
      currentIndex := currentIndex + 1;
      if resolved {
        a := Served(track);
      } else {
        currentIndex := currentIndex + 1;
        a := ResolveFailed(track);
      }
    }

    method AddSong(search: Search, addedAt: string) returns (added: Option<Song>)
      modifies this
      ensures (Model(), added) == Add(old(Model()), search, addedAt)
    {
      match search
      case Found(v) =>
        var song := SongOf(v, addedAt);
        playlist := playlist + [song];
        added := Some(song);
      case _ =>
        added := None;
    }

    method RemoveSong(index: int) returns (removed: Option<Song>)
      modifies this
      ensures (Model(), removed) == Remove(old(Model()), index)
    {
      if 0 <= index < |playlist| {
        removed := Some(playlist[index]);
        playlist := playlist[..index] + playlist[index + 1..];
      } else {
        removed := None;
      }
    }

    function GetCurrentTrack(): Option<Song>
      reads this
    {
      CurrentTrack(Model())
    }

    function GetPlaylistInfo(): PlaylistInfo
      reads this
    {
      Info(Model())
    }
  }
}
