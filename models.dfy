/// The records shared by every crate: crates/shared/src/models/lyrics.rs and
/// crates/shared/src/models/song.rs. Times are whole milliseconds.
module Models {

  datatype Option<+T> = None | Some(value: T)

  /// One word of a word-timed line: active on [startTime, endTime).
  datatype WordTimestamp = WordTimestamp(startTime: int, endTime: int, text: string)

  /// A timed lyric line. `words` is read by the terminal renderer and the
  /// terminal main loop; the parser never fills it.
  datatype LyricLine = LyricLine(
    timestamp: int,
    text: string,
    translation: Option<string>,
    words: seq<WordTimestamp>)

  /// Lines in non-decreasing timestamp order (what the parser produces).
  predicate SortedByTimestamp(s: seq<LyricLine>) {
    forall i, j :: 0 <= i < j < |s| ==> s[i].timestamp <= s[j].timestamp
  }

  /// What the resolver reports for one playback position.
  datatype LyricsStatus = LyricsStatus(
    currentLine: LyricLine,
    nextLine: string,
    nextTimestamp: Option<int>,
    translation: Option<string>)

  datatype SongStatus = Paused | Playing

  /// A snapshot of the player; `position` is in milliseconds.
  datatype SongInfo = SongInfo(
    id: string,
    artist: string,
    title: string,
    position: int,
    status: SongStatus,
    url: Option<string>)

  /// The `Result<Option<Vec<LyricLine>>>` cell the main loops keep per song.
  datatype LyricsState = LyricsError | NoLyrics | Loaded(lines: seq<LyricLine>)

  /// The `Result<Option<SongInfo>>` a player query yields.
  datatype PlayerPoll = PlayerError | NoSong | Current(song: SongInfo)

  function Abs(x: int): nat {
    if x < 0 then -x else x
  }

  function Min(a: int, b: int): int {
    if a <= b then a else b
  }

  function Max(a: int, b: int): int {
    if a >= b then a else b
  }

  /// `x.max(lo).min(hi)`, i.e. `f64::clamp(lo, hi)`.
  function Clamp(x: int, lo: int, hi: int): (r: int)
    requires lo <= hi
    ensures lo <= r <= hi
    ensures lo <= x <= hi ==> r == x
    ensures x < lo ==> r == lo
    ensures x > hi ==> r == hi
  {
    Min(Max(x, lo), hi)
  }
}
