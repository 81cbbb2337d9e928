/// The Waybar module's polling loop: crates/waybar-bard/src/main.rs.
/// Printed records are collected in `output`, sleeps are returned in
/// milliseconds, and the SIGUSR1 thread becomes the `ToggleHidden` method.
module WaybarMain {
  import opened Models
  import Display
  import Session
  import opened WaybarRender

  /// The second bar line: the current line's own translation if it has one,
  /// the next line otherwise.
  function SecondLine(status: LyricsStatus): string {
    if status.currentLine.translation.Some? then status.currentLine.translation.value else status.nextLine
  }

  /// On line `i` the second line is that line's translation when it has one,
  /// even on the last line (where the status itself drops the translation),
  /// and otherwise the following line's text, or nothing after the last line.
  lemma {:induction false} SecondLineOnLine(lyrics: seq<LyricLine>, position: int, i: nat)
    requires Display.CurrentAt(lyrics, Display.Adjusted(position), i)
    ensures SecondLine(Display.GetLyricsStatus(lyrics, position)) ==
      if lyrics[i].translation.Some? then lyrics[i].translation.value
      else if i + 1 < |lyrics| then lyrics[i + 1].text
      else ""
  {
    Display.StatusOnLine(lyrics, position, i);
  }

  /// Before the first line starts the second line announces it.
  lemma {:induction false} SecondLineBeforeFirst(lyrics: seq<LyricLine>, position: int)
    requires lyrics != [] && lyrics[0].timestamp > Display.Adjusted(position)
    ensures SecondLine(Display.GetLyricsStatus(lyrics, position)) == lyrics[0].text
  {
    Display.StatusBeforeFirst(lyrics, position);
  }

  /// The sleep after printing lyrics for a playing song: the time until the
  /// next line clamped to [10, 1000] ms, 100 ms when that line is not ahead
  /// of the raw position, and 200 ms when no line follows.
  function PlayingSleepMs(lyrics: seq<LyricLine>, position: int): (ms: int)
    ensures 10 <= ms <= 1000
  {
    match Display.GetLyricsStatus(lyrics, position).nextTimestamp
    case Some(next) => if next - position > 0 then Clamp(next - position, 10, 1000) else 100
    case None => 200
  }

  /// As in the terminal client, an announced line is always more than a
  /// second ahead, so the sleep is the full second while lines remain and
  /// the 100 ms branch is never taken.
  lemma {:induction false} PlayingSleepIsCeiling(lyrics: seq<LyricLine>, position: int)
    ensures PlayingSleepMs(lyrics, position) ==
      if Display.GetLyricsStatus(lyrics, position).nextTimestamp.Some? then 1000 else 200
  {
  }

  /// The record `update_lyrics` prints: song info when paused or without
  /// lyrics, the current and second line otherwise, with an empty tooltip.
  function UpdateOutput(lyrics: LyricsState, song: SongInfo): WaybarOutput {
    if lyrics.Loaded? && song.status == Playing then
      GetLyricsOutput(Display.GetLyricsStatus(lyrics.lines, song.position).currentLine.text,
                      SecondLine(Display.GetLyricsStatus(lyrics.lines, song.position)), "")
    else
      RenderSongInfo(song)
  }

  /// How long `update_lyrics` sleeps: 1 s when paused, 2 s without lyrics.
  function UpdateSleepMs(lyrics: LyricsState, song: SongInfo): int {
    match lyrics
    case Loaded(lines) => if song.status == Paused then 1000 else PlayingSleepMs(lines, song.position)
    case _ => 2000
  }

  /// A playing song with lyrics always shows a non-empty lyrics record: a
  /// started line's text, or an ellipsis before the first line.
  lemma {:induction false} PlayingShowsLyrics(lines: seq<LyricLine>, song: SongInfo)
    requires song.status == Playing
    ensures UpdateOutput(Loaded(lines), song).className == "has-lyrics"
    ensures UpdateOutput(Loaded(lines), song).text == "..." ||
      exists j :: 0 <= j < |lines| && lines[j].timestamp <= Display.Adjusted(song.position) &&
        lines[j].text == UpdateOutput(Loaded(lines), song).text
  {
    var s := Display.GetLyricsStatus(lines, song.position);
    if s.currentLine != Display.Placeholder {
      var j :| 0 <= j < |lines| && lines[j] == s.currentLine && lines[j].timestamp <= Display.Adjusted(song.position);
      if s.currentLine.text != [] {
        assert lines[j].text == UpdateOutput(Loaded(lines), song).text;
      }
    }
  }

  class WaybarApp {
    var currentSongId: string
    var lyrics: LyricsState
    var hidden: bool
    /// Every record printed so far, oldest first.
    var output: seq<WaybarOutput>

    constructor()
      ensures Session.Tracked(currentSongId, lyrics) == Session.Initial
      ensures !hidden && output == []
    {
      currentSongId := "";
      lyrics := NoLyrics;
      hidden := false;
      output := [];
    }

    /// The SIGUSR1 handler: flip the flag and emit the blank record when
    /// now hidden, the ellipsis when shown again.
    method ToggleHidden()
      modifies this
      ensures hidden == !old(hidden)
      ensures output == old(output) + [if hidden then RenderEmpty() else RenderJust()]
      ensures currentSongId == old(currentSongId) && lyrics == old(lyrics)
    {
      var current := hidden;
      hidden := !current;
      if !current {
        output := output + [RenderEmpty()];
      } else {
        output := output + [RenderJust()];
      }
    }

    /// `update_lyrics`: emit the record for `song` and the lyrics in hand,
    /// and say how long to sleep.
    method UpdateLyrics(song: SongInfo) returns (sleepMs: int)
      modifies this
      ensures output == old(output) + [UpdateOutput(lyrics, song)]
      ensures sleepMs == UpdateSleepMs(lyrics, song)
      ensures currentSongId == old(currentSongId) && lyrics == old(lyrics) && hidden == old(hidden)
    {
      match lyrics {
      case Loaded(lines) =>
        if song.status == Paused {
          output := output + [RenderSongInfo(song)];
          return 1000;
        }
        var currentLyric := Display.GetLyricsStatus(lines, song.position);
        var tooltip := "";
        var displayCurrentLyric := currentLyric.currentLine.text;
        var nextLine := if currentLyric.currentLine.translation.Some? then currentLyric.currentLine.translation.value
          else currentLyric.nextLine;
        output := output + [GetLyricsOutput(displayCurrentLyric, nextLine, tooltip)];
        match currentLyric.nextTimestamp {
        case Some(nextTimestamp) =>
          var timeUntilNext := nextTimestamp - song.position;
          if timeUntilNext > 0 {
            sleepMs := Clamp(timeUntilNext, 10, 1000);
          } else {
            sleepMs := 100;
          }
        case None =>
          sleepMs := 200;
        }
      case NoLyrics =>
        output := output + [RenderSongInfo(song)];
        sleepMs := 2000;
      case LyricsError =>
        output := output + [RenderSongInfo(song)];
        sleepMs := 2000;
      }
    }

    /// One turn of the main loop. While hidden the player is not asked at
    /// all; otherwise `poll` is its answer and `fetched` what `get_lyrics`
    /// would return for the polled song, used only when the song id changed.
    method Tick(poll: PlayerPoll, fetched: LyricsState) returns (sleepMs: int)
      modifies this
      ensures hidden == old(hidden)
      ensures old(hidden) ==>
        output == old(output) + [RenderEmpty()] && sleepMs == 1000 &&
        currentSongId == old(currentSongId) && lyrics == old(lyrics)
      ensures !old(hidden) && poll.Current? ==>
        Session.Tracked(currentSongId, lyrics) ==
          Session.Follow(old(Session.Tracked(currentSongId, lyrics)), poll.song, fetched) &&
        output == old(output) + [UpdateOutput(lyrics, poll.song)] &&
        sleepMs == UpdateSleepMs(lyrics, poll.song)
      ensures !old(hidden) && !poll.Current? ==>
        output == old(output) + [RenderNoSong()] &&
        sleepMs == (if poll.NoSong? then 1000 else 2000) &&
        currentSongId == old(currentSongId) && lyrics == old(lyrics)
    {
      if hidden {
        output := output + [RenderEmpty()];
        return 1000;
      }
      match poll
      case Current(song) =>
        if song.id != currentSongId {
          currentSongId := song.id;
          lyrics := fetched;
        }
        sleepMs := UpdateLyrics(song);
      case NoSong =>
        output := output + [RenderNoSong()];
        sleepMs := 1000;
      case PlayerError =>
        output := output + [RenderNoSong()];
        sleepMs := 2000;
    }
  }
}
