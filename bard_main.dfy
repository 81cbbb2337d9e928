/// The terminal client's polling loop: crates/bard/src/main.rs.
/// Sleeps are returned in milliseconds instead of being slept; the key
/// reader thread is reduced to the key (if any) waiting in the channel.
module BardMain {
  import opened Models
  import Display
  import Parser
  import Session
  import opened TerminalRender

  /// Some line carries word timestamps.
  predicate HasWordTiming(lyrics: seq<LyricLine>) {
    exists i :: 0 <= i < |lyrics| && lyrics[i].words != []
  }

  /// The sleep after drawing lyrics for a playing song: the time until the
  /// next line, clamped to [50, 500] ms with word timing and [10, 1000] ms
  /// without, 50 ms when that line is not ahead of the raw position, and
  /// 200 / 1000 ms when no line follows.
  function PlayingSleepMs(lyrics: seq<LyricLine>, position: int): (ms: int)
    ensures HasWordTiming(lyrics) ==> 50 <= ms <= 500
    ensures !HasWordTiming(lyrics) ==> 10 <= ms <= 1000
  {
    match Display.GetLyricsStatus(lyrics, position).nextTimestamp
    case Some(next) =>
      if next - position > 0 then
        if HasWordTiming(lyrics) then Clamp(next - position, 50, 500) else Clamp(next - position, 10, 1000)
      else 50
    case None => if HasWordTiming(lyrics) then 200 else 1000
  }

  /// A next line is announced only once it lies more than the display offset
  /// ahead of the position, so the gap always exceeds the clamp's ceiling:
  /// the loop sleeps the full 500 / 1000 ms, and neither the lower clamp
  /// bound nor the 50 ms branch is ever taken.
  lemma {:induction false} PlayingSleepIsCeiling(lyrics: seq<LyricLine>, position: int)
    ensures Display.GetLyricsStatus(lyrics, position).nextTimestamp.Some? ==>
      PlayingSleepMs(lyrics, position) == (if HasWordTiming(lyrics) then 500 else 1000)
    ensures Display.GetLyricsStatus(lyrics, position).nextTimestamp.None? ==>
      PlayingSleepMs(lyrics, position) == (if HasWordTiming(lyrics) then 200 else 1000)
  {
  }

  /// The parser never fills in word timestamps, so for parsed lyrics the
  /// loop redraws once a second whatever the position.
  lemma {:induction false} ParsedSleep(lyricsText: string, position: int)
    ensures !HasWordTiming(Parser.Parse(lyricsText))
    ensures PlayingSleepMs(Parser.Parse(lyricsText), position) == 1000
  {
    Parser.ParseBounds(lyricsText);
    forall i | 0 <= i < |Parser.Parse(lyricsText)|
      ensures Parser.Parse(lyricsText)[i].words == []
    {
      assert Parser.WellParsed(Parser.Parse(lyricsText)[i]);
    }
    PlayingSleepIsCeiling(Parser.Parse(lyricsText), position);
  }

  /// What `update_lyrics` leaves on the terminal: the lyric frame for a
  /// playing song with lyrics, the song info otherwise.
  function UpdatedScreen(terminal: TerminalDisplay, lyrics: LyricsState, song: SongInfo, height: U16): Screen {
    if lyrics.Loaded? && song.status == Playing then
      LyricsScreen(lyrics.lines, GetCurrentLineIndex(lyrics.lines, song.position), song.position, height, terminal.Colors())
    else
      SongInfoScreen(song, terminal.defaultColor)
  }

  /// How long `update_lyrics` sleeps: 1 s when paused, 2 s without lyrics.
  function UpdateSleepMs(lyrics: LyricsState, song: SongInfo): int {
    match lyrics
    case Loaded(lines) => if song.status == Paused then 1000 else PlayingSleepMs(lines, song.position)
    case _ => 2000
  }

  /// One turn of the loop: stopped by `q`, or the time to sleep before the next.
  datatype Step = Quit | Sleep(ms: int)

  class BardApp {
    const terminal: TerminalDisplay
    var currentSongId: string
    var lyrics: LyricsState

    constructor(terminal: TerminalDisplay)
      ensures this.terminal == terminal
      ensures Session.Tracked(currentSongId, lyrics) == Session.Initial
    {
      this.terminal := terminal;
      currentSongId := "";
      lyrics := NoLyrics;
    }

    /// `update_lyrics`: draw the lyrics in hand for `song` and say how long
    /// to sleep.
    method UpdateLyrics(song: SongInfo, height: U16) returns (sleepMs: int)
      modifies terminal
      ensures terminal.screen == UpdatedScreen(terminal, lyrics, song, height)
      ensures sleepMs == UpdateSleepMs(lyrics, song)
    {
      match lyrics {
      case Loaded(lines) =>
        if song.status == Paused {
          terminal.RenderSongInfo(song);
          return 1000;
        }
        terminal.UpdateLyrics(lines, song.position, height);
        var status := Display.GetLyricsStatus(lines, song.position);
        match status.nextTimestamp {
        case Some(next) =>
          var timeUntilNext := next - song.position;
          var hasWordTiming := HasWordTiming(lines);
          var sleepDuration := if hasWordTiming then Clamp(timeUntilNext, 50, 500) else Clamp(timeUntilNext, 10, 1000);
          if timeUntilNext > 0 {
            sleepMs := sleepDuration;
          } else {
            sleepMs := 50;
          }
        case None =>
          var hasWordTiming := HasWordTiming(lines);
          sleepMs := if hasWordTiming then 200 else 1000;
        }
      case NoLyrics =>
        terminal.RenderSongInfo(song);
        sleepMs := 2000;
      case LyricsError =>
        terminal.RenderSongInfo(song);
        sleepMs := 2000;
      }
    }

    /// One turn of the main loop. `key` is what the key reader has queued,
    /// `poll` the player's answer and `fetched` what `get_lyrics` would return
    /// for the polled song; it is used only when the song id changed.
    method Tick(key: Option<char>, poll: PlayerPoll, fetched: LyricsState, height: U16) returns (step: Step)
      modifies this, terminal
      ensures key == Some('q') ==> step == Quit && unchanged(this, terminal)
      ensures key != Some('q') && poll.Current? ==>
        Session.Tracked(currentSongId, lyrics) ==
          Session.Follow(old(Session.Tracked(currentSongId, lyrics)), poll.song, fetched) &&
        terminal.screen == UpdatedScreen(terminal, lyrics, poll.song, height) &&
        step == Sleep(UpdateSleepMs(lyrics, poll.song))
      ensures key != Some('q') && !poll.Current? ==>
        currentSongId == old(currentSongId) && lyrics == old(lyrics) &&
        terminal.screen == NoSongScreen(terminal.defaultColor) &&
        step == Sleep(if poll.NoSong? then 1000 else 2000)
    {
      if key == Some('q') {
        return Quit;
      }
      match poll
      case Current(song) =>
        if song.id != currentSongId {
          currentSongId := song.id;
          lyrics := fetched;
        }
        var ms := UpdateLyrics(song, height);
        step := Sleep(ms);
      case NoSong =>
        terminal.RenderNoSong();
        step := Sleep(1000);
      case PlayerError =>
        terminal.RenderNoSong();
        step := Sleep(2000);
    }
  }
}
