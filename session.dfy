/// Song tracking shared by both front ends' main loops:
/// crates/bard/src/main.rs and crates/waybar-bard/src/main.rs.
module Session {
  import opened Models

  /// The remembered song id and the lyrics fetched for it.
  datatype Tracked = Tracked(songId: string, lyrics: LyricsState)

  /// Both loops start with an empty id and `Ok(None)` for the lyrics.
  const Initial := Tracked("", NoLyrics)

  /// One poll that found `song`; `fetched` is what `get_lyrics` returns for
  /// it. A new id is remembered and its lyrics replace the old ones; the same
  /// id keeps everything, so nothing is fetched.
  function Follow(t: Tracked, song: SongInfo, fetched: LyricsState): (r: Tracked)
    ensures r.songId == song.id
    ensures t.songId == song.id ==> r == t
    ensures t.songId != song.id ==> r.lyrics == fetched
  {
    if song.id != t.songId then Tracked(song.id, fetched) else t
  }

  /// Polling the same song again never refetches: whatever a second fetch
  /// would return, the lyrics of the first poll stay.
  lemma {:induction false} FollowSameSong(t: Tracked, song: SongInfo, first: LyricsState, second: LyricsState)
    ensures Follow(Follow(t, song, first), song, second) == Follow(t, song, first)
    ensures Follow(Follow(t, song, first), song, second).lyrics == (if t.songId == song.id then t.lyrics else first)
  {
  }

  /// The lyrics in hand after a run of polls are those fetched at the last
  /// change of song id: a poll of a different song always replaces them.
  lemma {:induction false} FollowNewSong(t: Tracked, a: SongInfo, b: SongInfo, fa: LyricsState, fb: LyricsState)
    requires a.id != b.id
    ensures Follow(Follow(t, a, fa), b, fb) == Tracked(b.id, fb)
  {
  }
}
