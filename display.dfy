/// Position-to-status resolution: crates/shared/src/lyrics/display.rs.
/// Positions and timestamps are whole milliseconds.
module Display {
  import opened Models

  /// Lyrics are shown one second ahead of the player position.
  const PositionOffsetMs := 1000

  /// The current line before any line has started: timestamp 0, empty text.
  const Placeholder := LyricLine(0, "", None, [])

  /// The player position with the lead offset added.
  function Adjusted(position: int): (r: int)
    ensures r - position == PositionOffsetMs
  {
    position + PositionOffsetMs
  }

  /// Length of the longest prefix of `lyrics` whose timestamps are all at
  /// most `limit`: the `take_while` of the iterator chain.
  function PrefixLen(lyrics: seq<LyricLine>, limit: int): (n: nat)
    ensures n <= |lyrics|
    ensures forall k :: 0 <= k < n ==> lyrics[k].timestamp <= limit
    ensures n < |lyrics| ==> lyrics[n].timestamp > limit
  {
    if lyrics == [] || lyrics[0].timestamp > limit then 0
    else 1 + PrefixLen(lyrics[1..], limit)
  }

  /// The two facts above pin the prefix length down: any `n` with them is it.
  lemma PrefixLenUnique(lyrics: seq<LyricLine>, limit: int, n: nat)
    requires n <= |lyrics|
    requires forall k :: 0 <= k < n ==> lyrics[k].timestamp <= limit
    requires n < |lyrics| ==> lyrics[n].timestamp > limit
    ensures PrefixLen(lyrics, limit) == n
  {
  }

  /// `get_lyrics_status`: the line being sung at `position`, the line after
  /// it, when that line starts and the current line's translation.
  function GetLyricsStatus(lyrics: seq<LyricLine>, position: int): (s: LyricsStatus)
    // an announced next line always lies strictly ahead of the adjusted position
    ensures s.nextTimestamp.Some? ==> s.nextTimestamp.value > Adjusted(position)
    // and it is a line of the input, text and timestamp together
    ensures s.nextTimestamp.Some? ==>
      exists j :: 0 <= j < |lyrics| && lyrics[j].timestamp == s.nextTimestamp.value && lyrics[j].text == s.nextLine
    ensures s.nextTimestamp.None? ==> s.nextLine == [] && s.translation.None?
    // the current line is a started line of the input, or the placeholder
    ensures s.currentLine == Placeholder ||
      exists j :: 0 <= j < |lyrics| && lyrics[j] == s.currentLine && lyrics[j].timestamp <= Adjusted(position)
    ensures s.translation.Some? ==> s.translation == s.currentLine.translation
  {
    var n := PrefixLen(lyrics, Adjusted(position));
    if n == 0 then
      if lyrics != [] then
        LyricsStatus(Placeholder, lyrics[0].text, Some(lyrics[0].timestamp), None)
      else
        LyricsStatus(Placeholder, "", None, None)
    else
      var i := n - 1;
      if i < |lyrics| - 1 then
        LyricsStatus(lyrics[i], lyrics[i + 1].text, Some(lyrics[i + 1].timestamp), lyrics[i].translation)
      else
        LyricsStatus(lyrics[i], "", None, None)
  }

  /// `get_highlighted_lyrics`: word highlighting is disabled, so the line's
  /// own text comes back unchanged whatever the status says.
  function GetHighlightedLyrics(status: LyricsStatus, line: LyricLine): (r: string)
    ensures |r| == |line.text| && forall k :: 0 <= k < |r| ==> r[k] == line.text[k]
  {
    line.text
  }

  /// What `get_highlighted_lyrics` shows for a resolved status is empty
  /// before the first line starts, and otherwise the text of a started line.
  lemma {:induction false} HighlightedIsStartedLine(lyrics: seq<LyricLine>, position: int)
    ensures GetHighlightedLyrics(GetLyricsStatus(lyrics, position), GetLyricsStatus(lyrics, position).currentLine) == [] ||
      exists j :: 0 <= j < |lyrics| && lyrics[j].timestamp <= Adjusted(position) &&
        lyrics[j].text == GetHighlightedLyrics(GetLyricsStatus(lyrics, position), GetLyricsStatus(lyrics, position).currentLine)
  {
    var s := GetLyricsStatus(lyrics, position);
    if s.currentLine != Placeholder {
      var j :| 0 <= j < |lyrics| && lyrics[j] == s.currentLine && lyrics[j].timestamp <= Adjusted(position);
      assert lyrics[j].text == GetHighlightedLyrics(s, s.currentLine);
    }
  }

  /// No lines: the placeholder and nothing to come.
  lemma StatusWhenEmpty(position: int)
    ensures GetLyricsStatus([], position) == LyricsStatus(Placeholder, "", None, None)
  {
  }

  /// Before the first line starts: the placeholder, and the first line next.
  lemma StatusBeforeFirst(lyrics: seq<LyricLine>, position: int)
    requires lyrics != [] && lyrics[0].timestamp > Adjusted(position)
    ensures GetLyricsStatus(lyrics, position) ==
      LyricsStatus(Placeholder, lyrics[0].text, Some(lyrics[0].timestamp), None)
  {
    PrefixLenUnique(lyrics, Adjusted(position), 0);
  }

  /// Lines 0..i have all started at `limit` and line `i + 1`, if any, has not.
  predicate CurrentAt(lyrics: seq<LyricLine>, limit: int, i: nat) {
    i < |lyrics| &&
    (forall k :: 0 <= k <= i ==> lyrics[k].timestamp <= limit) &&
    (i + 1 < |lyrics| ==> lyrics[i + 1].timestamp > limit)
  }

  /// Line `i` is current exactly when lines 0..i have started and line
  /// `i + 1` (if any) has not; the next line and the translation follow it,
  /// and on the last line both are dropped even if the line has a translation.
  lemma {:induction false} StatusOnLine(lyrics: seq<LyricLine>, position: int, i: nat)
    requires CurrentAt(lyrics, Adjusted(position), i)
    ensures GetLyricsStatus(lyrics, position).currentLine == lyrics[i]
    ensures i + 1 < |lyrics| ==>
      GetLyricsStatus(lyrics, position) ==
      LyricsStatus(lyrics[i], lyrics[i + 1].text, Some(lyrics[i + 1].timestamp), lyrics[i].translation)
    ensures i + 1 == |lyrics| ==> GetLyricsStatus(lyrics, position) == LyricsStatus(lyrics[i], "", None, None)
  {
    PrefixLenUnique(lyrics, Adjusted(position), i + 1);
  }

  /// Every status comes from one of the cases above: no line has started and
  /// the placeholder is current, or some line `i` is current in that sense.
  lemma {:induction false} StatusCases(lyrics: seq<LyricLine>, position: int)
    ensures GetLyricsStatus(lyrics, position).currentLine == Placeholder ==>
      GetLyricsStatus(lyrics, position).translation.None?
    ensures (lyrics == [] || lyrics[0].timestamp > Adjusted(position)) ||
      exists i: nat :: CurrentAt(lyrics, Adjusted(position), i) && GetLyricsStatus(lyrics, position).currentLine == lyrics[i]
  {
    var n := PrefixLen(lyrics, Adjusted(position));
    if n > 0 {
      assert CurrentAt(lyrics, Adjusted(position), n - 1);
      StatusOnLine(lyrics, position, n - 1);
    }
  }

  /// On sorted lines (what the parser produces) the current line is the last
  /// line that has started, and every later line is still to come.
  lemma {:induction false} StatusOnSorted(lyrics: seq<LyricLine>, position: int, i: nat)
    requires SortedByTimestamp(lyrics)
    requires i < |lyrics| && lyrics[i].timestamp <= Adjusted(position)
    requires forall k :: i < k < |lyrics| ==> lyrics[k].timestamp > Adjusted(position)
    ensures GetLyricsStatus(lyrics, position).currentLine == lyrics[i]
    ensures i + 1 < |lyrics| ==> GetLyricsStatus(lyrics, position).nextTimestamp == Some(lyrics[i + 1].timestamp)
  {
    forall k | 0 <= k <= i
      ensures lyrics[k].timestamp <= Adjusted(position)
    {
      if k < i {
        assert lyrics[k].timestamp <= lyrics[i].timestamp;
      }
    }
    assert CurrentAt(lyrics, Adjusted(position), i);
    StatusOnLine(lyrics, position, i);
  }

  /// The two-line example: "Hello" at 10 s, "World" at 15 s.
  lemma {:induction false} StatusExample(lyrics: seq<LyricLine>)
    requires |lyrics| == 2
    requires lyrics[0] == LyricLine(10000, "Hello", None, [])
    requires lyrics[1] == LyricLine(15000, "World", None, [])
    ensures GetLyricsStatus(lyrics, 0) == LyricsStatus(Placeholder, "Hello", Some(10000), None)
    ensures GetLyricsStatus(lyrics, 12000) == LyricsStatus(lyrics[0], "World", Some(15000), None)
    ensures GetLyricsStatus(lyrics, 20000) == LyricsStatus(lyrics[1], "", None, None)
  {
    StatusBeforeFirst(lyrics, 0);
    assert CurrentAt(lyrics, 12000 + PositionOffsetMs, 0);
    assert CurrentAt(lyrics, 20000 + PositionOffsetMs, 1);
    StatusOnLine(lyrics, 12000, 0);
    StatusOnLine(lyrics, 20000, 1);
  }
}
