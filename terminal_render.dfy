/// The terminal front end: crates/bard/src/terminal/render.rs. The values
/// handed to the drawing library (spans, lines, paddings) are modelled; the
/// drawing itself is not.
module TerminalRender {
  import opened Models
  import opened Text
  import Display

  /// A line following the current one by less than this is its translation.
  const TranslationWindowMs := 1000

  /// Terminal heights are `u16`.
  type U16 = x: int | 0 <= x < 0x1_0000

  function SatSub(a: nat, b: nat): nat {
    if a >= b then a - b else 0
  }

  // ---------------------------------------------------------------- colours

  datatype Color = Black | Red | Green | Yellow | Blue | Magenta | Cyan | Gray | DarkGray
                 | LightRed | LightGreen | LightYellow | LightBlue | LightMagenta | LightCyan | White

  /// The lower-case name under which `parse_color` accepts each colour.
  function ColorName(c: Color): string {
    match c
    case Black => "black"
    case Red => "red"
    case Green => "green"
    case Yellow => "yellow"
    case Blue => "blue"
    case Magenta => "magenta"
    case Cyan => "cyan"
    case Gray => "gray"
    case DarkGray => "darkgray"
    case LightRed => "lightred"
    case LightGreen => "lightgreen"
    case LightYellow => "lightyellow"
    case LightBlue => "lightblue"
    case LightMagenta => "lightmagenta"
    case LightCyan => "lightcyan"
    case White => "white"
  }

  /// `parse_color`: the colour whose name the lower-cased input is, White
  /// for anything else.
  function ParseColor(s: string): Color {
    var l := ToLower(s);
    if l == "black" then Black
    else if l == "red" then Red
    else if l == "green" then Green
    else if l == "yellow" then Yellow
    else if l == "blue" then Blue
    else if l == "magenta" then Magenta
    else if l == "cyan" then Cyan
    else if l == "gray" then Gray
    else if l == "darkgray" then DarkGray
    else if l == "lightred" then LightRed
    else if l == "lightgreen" then LightGreen
    else if l == "lightyellow" then LightYellow
    else if l == "lightblue" then LightBlue
    else if l == "lightmagenta" then LightMagenta
    else if l == "lightcyan" then LightCyan
    else White
  }

  /// A string whose lower-case form is a colour's name selects that colour.
  lemma {:induction false} NamedColor(s: string, c: Color)
    requires ToLower(s) == ColorName(c)
    ensures ParseColor(s) == c
  {
    match c
    case Black =>
    case Red =>
    case Green =>
    case Yellow =>
    case Blue =>
    case Magenta =>
    case Cyan =>
    case Gray =>
    case DarkGray =>
    case LightRed =>
    case LightGreen =>
    case LightYellow =>
    case LightBlue =>
    case LightMagenta =>
    case LightCyan =>
    case White =>
  }

  /// Only a colour's own name selects a colour other than White, so every
  /// unknown name falls back to White.
  lemma {:induction false} ParseColorDefault(s: string)
    ensures ParseColor(s) != White ==> ToLower(s) == ColorName(ParseColor(s))
    ensures (forall d :: ToLower(s) != ColorName(d)) ==> ParseColor(s) == White
  {
    if ParseColor(s) != White {
      assert ToLower(s) == ColorName(ParseColor(s));
    }
  }

  /// Case does not matter: spellings that agree once lower-cased agree.
  lemma {:induction false} ParseColorIgnoresCase(s: string)
    ensures ParseColor(s) == ParseColor(ToLower(s))
  {
    ToLowerIdempotent(s);
  }

  // ------------------------------------------------------------ line index

  /// `get_current_line_index`: the last line of the longest started prefix,
  /// or 0 when no line has started (also for no lines at all).
  function GetCurrentLineIndex(lyrics: seq<LyricLine>, position: int): (i: nat)
    ensures lyrics == [] ==> i == 0
    ensures lyrics != [] ==> i < |lyrics|
    ensures lyrics != [] && lyrics[0].timestamp <= Display.Adjusted(position) ==>
      Display.CurrentAt(lyrics, Display.Adjusted(position), i)
    ensures lyrics != [] && lyrics[0].timestamp > Display.Adjusted(position) ==> i == 0
  {
    var n := Display.PrefixLen(lyrics, Display.Adjusted(position));
    if n == 0 then 0 else n - 1
  }

  /// The terminal's index and the shared status resolver agree on the current
  /// line once a line has started; before that the terminal highlights line 0
  /// while the resolver reports the placeholder.
  lemma {:induction false} CurrentIndexMatchesStatus(lyrics: seq<LyricLine>, position: int)
    ensures lyrics != [] && lyrics[0].timestamp <= Display.Adjusted(position) ==>
      lyrics[GetCurrentLineIndex(lyrics, position)] == Display.GetLyricsStatus(lyrics, position).currentLine
    ensures lyrics != [] && lyrics[0].timestamp > Display.Adjusted(position) ==>
      GetCurrentLineIndex(lyrics, position) == 0 &&
      Display.GetLyricsStatus(lyrics, position).currentLine == Display.Placeholder
  {
    if lyrics != [] {
      if lyrics[0].timestamp <= Display.Adjusted(position) {
        Display.StatusOnLine(lyrics, position, GetCurrentLineIndex(lyrics, position));
      } else {
        Display.StatusBeforeFirst(lyrics, position);
      }
    }
  }

  // ------------------------------------------------------------ word spans

  datatype WordState = Active | Sung | Upcoming

  /// The state of one word at the adjusted position.
  function Classify(w: WordTimestamp, adjusted: int): (st: WordState)
    ensures st == Active <==> w.startTime <= adjusted < w.endTime
    ensures st == Sung <==> adjusted >= w.endTime
    ensures st == Upcoming <==> adjusted < w.startTime && adjusted < w.endTime
  {
    if adjusted >= w.startTime && adjusted < w.endTime then Active
    else if adjusted >= w.endTime then Sung
    else Upcoming
  }

  /// Foreground colour (None: the terminal default) and modifiers.
  datatype Style = Style(fg: Option<Color>, bold: bool, italic: bool, underlined: bool)

  const Plain := Style(None, false, false, false)

  datatype Span = Span(text: string, style: Style)

  const Space := Span(" ", Plain)

  function WordStyle(st: WordState): Style {
    match st
    case Active => Style(Some(Yellow), true, false, true)
    case Sung => Style(Some(Green), false, true, false)
    case Upcoming => Style(Some(White), false, false, false)
  }

  function WordSpan(w: WordTimestamp, adjusted: int): Span {
    Span(w.text, WordStyle(Classify(w, adjusted)))
  }

  /// The spans of a word-timed line: the words in the styles of their states,
  /// with a plain single space between neighbours.
  function WordSpans(words: seq<WordTimestamp>, adjusted: int): (r: seq<Span>)
    requires words != []
    ensures |r| == 2 * |words| - 1
    decreases |words|
  {
    if |words| == 1 then [WordSpan(words[0], adjusted)]
    else [WordSpan(words[0], adjusted), Space] + WordSpans(words[1..], adjusted)
  }

  /// Word `k` is span `2k`, and the span after it is a space unless it is
  /// the last word.
  lemma {:induction false} WordSpansShape(words: seq<WordTimestamp>, adjusted: int)
    requires words != []
    ensures forall k :: 0 <= k < |words| ==> WordSpans(words, adjusted)[2 * k] == WordSpan(words[k], adjusted)
    ensures forall k :: 0 <= k < |words| - 1 ==> WordSpans(words, adjusted)[2 * k + 1] == Space
  {
    if |words| > 1 {
      var rest := WordSpans(words[1..], adjusted);
      WordSpansShape(words[1..], adjusted);
      assert WordSpans(words, adjusted) == [WordSpan(words[0], adjusted), Space] + rest;
      forall k | 1 <= k < |words|
        ensures WordSpans(words, adjusted)[2 * k] == WordSpan(words[k], adjusted)
      {
        assert words[k] == words[1..][k - 1];
        assert WordSpans(words, adjusted)[2 * k] == rest[2 * (k - 1)];
      }
      forall k | 1 <= k < |words| - 1
        ensures WordSpans(words, adjusted)[2 * k + 1] == Space
      {
        assert WordSpans(words, adjusted)[2 * k + 1] == rest[2 * (k - 1) + 1];
      }
    }
  }

  /// The spans `get_word_highlighted_line` builds for the current line: the
  /// raw text when it has no word timing.
  function HighlightedLine(lyric: LyricLine, position: int): seq<Span> {
    if lyric.words == [] then [Span(lyric.text, Plain)]
    else WordSpans(lyric.words, Display.Adjusted(position))
  }

  /// Two span sequences laid out like `WordSpans(words, adjusted)` are equal.
  lemma {:induction false} InterleavedUnique(a: seq<Span>, words: seq<WordTimestamp>, adjusted: int)
    requires words != []
    requires |a| == 2 * |words| - 1
    requires forall k :: 0 <= k < |words| ==> a[2 * k] == WordSpan(words[k], adjusted)
    requires forall k :: 0 <= k < |words| - 1 ==> a[2 * k + 1] == Space
    ensures a == WordSpans(words, adjusted)
  {
    var b := WordSpans(words, adjusted);
    WordSpansShape(words, adjusted);
    forall j | 0 <= j < |a|
      ensures a[j] == b[j]
    {
      var k := j / 2;
      if j % 2 == 0 {
        assert j == 2 * k;
      } else {
        assert j == 2 * k + 1;
      }
    }
  }

  /// `get_word_highlighted_line`.
  method GetWordHighlightedLine(lyric: LyricLine, position: int) returns (spans: seq<Span>)
    ensures spans == HighlightedLine(lyric, position)
  {
    var adjusted := Display.Adjusted(position);
    spans := [];
    if lyric.words == [] {
      spans := spans + [Span(lyric.text, Plain)];
      return;
    }
    var i := 0;
    while i < |lyric.words|
      invariant 0 <= i <= |lyric.words|
      invariant |spans| == if i < |lyric.words| then 2 * i else 2 * i - 1
      invariant forall k :: 0 <= k < i ==> spans[2 * k] == WordSpan(lyric.words[k], adjusted)
      invariant forall k :: 0 <= k < i && k < |lyric.words| - 1 ==> spans[2 * k + 1] == Space
    {
      var word := lyric.words[i];
      var style :=
        if adjusted >= word.startTime && adjusted < word.endTime then Style(Some(Yellow), true, false, true)
        else if adjusted >= word.endTime then Style(Some(Green), false, true, false)
        else Style(Some(White), false, false, false);
      spans := spans + [Span(word.text, style)];
      if i < |lyric.words| - 1 {
        spans := spans + [Space];
      }
      i := i + 1;
    }
    InterleavedUnique(spans, lyric.words, adjusted);
  }

  // ---------------------------------------------------------------- window

  /// Lines available for lyrics: four rows are held back.
  function MaxDisplayable(height: nat): nat {
    SatSub(height, 4)
  }

  function LinesBefore(height: nat): nat {
    MaxDisplayable(height) / 3
  }

  function LinesAfter(height: nat): nat {
    MaxDisplayable(height) - LinesBefore(height)
  }

  function WindowStart(height: nat, current: nat): nat {
    SatSub(current, LinesBefore(height))
  }

  function WindowEnd(height: nat, current: nat, len: nat): nat {
    if current + LinesAfter(height) <= len then current + LinesAfter(height) else len
  }

  /// The visible slice is well formed whenever the current index is at most
  /// the number of lines (as `get_current_line_index` guarantees), holds at
  /// most `MaxDisplayable(height)` lines with at most a third of them before
  /// the current one, and shows the current line when there is room for any.
  lemma WindowBounds(height: nat, current: nat, len: nat)
    requires current <= len
    ensures WindowStart(height, current) <= WindowEnd(height, current, len) <= len
    ensures WindowEnd(height, current, len) - WindowStart(height, current) <= MaxDisplayable(height)
    ensures current - WindowStart(height, current) <= LinesBefore(height) <= LinesAfter(height)
    ensures current < len && height > 4 ==>
      WindowStart(height, current) <= current < WindowEnd(height, current, len)
    ensures height <= 4 ==> WindowStart(height, current) == WindowEnd(height, current, len)
  {
  }

  /// The window arithmetic at the start of `render_lyrics_with_timing`.
  method VisibleRange(height: U16, currentIndex: nat, len: nat) returns (startIndex: nat, endIndex: nat)
    ensures startIndex == WindowStart(height, currentIndex)
    ensures endIndex == WindowEnd(height, currentIndex, len)
  {
    var maxDisplayable := SatSub(height, 4);
    var linesBefore := maxDisplayable / 3;
    var linesAfter := maxDisplayable - linesBefore;
    startIndex := SatSub(currentIndex, linesBefore);
    endIndex := if currentIndex + linesAfter <= len then currentIndex + linesAfter else len;
  }

  // ----------------------------------------------------------------- frame

  datatype Line = Line(spans: seq<Span>)

  /// The two colours the lyric frame uses besides the word styles.
  datatype Palette = Palette(default: Color, translation: Color)

  function DefaultLine(lyric: LyricLine, palette: Palette): Line {
    Line([Span(lyric.text, Style(Some(palette.default), false, false, false))])
  }

  function TranslationLine(lyric: LyricLine, palette: Palette): Line {
    Line([Span(lyric.text, Style(Some(palette.translation), false, true, false))])
  }

  /// The line after visible line `i` starts less than a second after it and
  /// has no word timing, so it is also shown as `i`'s translation.
  predicate TranslationShown(visible: seq<LyricLine>, i: nat) {
    i + 1 < |visible| &&
    visible[i + 1].timestamp - visible[i].timestamp < TranslationWindowMs &&
    visible[i + 1].words == []
  }

  /// The text lines drawn for visible line `i`, which is line `start + i`.
  function LinesFor(visible: seq<LyricLine>, i: nat, start: nat, current: nat, position: int, palette: Palette): seq<Line>
    requires i < |visible|
  {
    if i + start == current then
      [Line(HighlightedLine(visible[i], position))] +
      (if TranslationShown(visible, i) then [TranslationLine(visible[i + 1], palette)] else [])
    else
      [DefaultLine(visible[i], palette)]
  }

  /// The text lines drawn for the first `n` visible lines: one per visible
  /// line, plus one when the current line is among them and shows a
  /// translation.
  function FrameUpTo(visible: seq<LyricLine>, n: nat, start: nat, current: nat, position: int, palette: Palette): (r: seq<Line>)
    requires n <= |visible|
    ensures |r| == n + if start <= current < start + n && TranslationShown(visible, current - start) then 1 else 0
  {
    if n == 0 then []
    else FrameUpTo(visible, n - 1, start, current, position, palette) + LinesFor(visible, n - 1, start, current, position, palette)
  }

  /// Drawing more lines only appends.
  lemma {:induction false} FrameExtends(visible: seq<LyricLine>, m: nat, n: nat, start: nat, current: nat, position: int, palette: Palette)
    returns (tail: seq<Line>)
    requires m <= n <= |visible|
    ensures FrameUpTo(visible, n, start, current, position, palette) ==
      FrameUpTo(visible, m, start, current, position, palette) + tail
  {
    if m == n {
      tail := [];
    } else {
      var t := FrameExtends(visible, m, n - 1, start, current, position, palette);
      tail := t + LinesFor(visible, n - 1, start, current, position, palette);
      AppendAssoc(FrameUpTo(visible, m, start, current, position, palette), t,
        LinesFor(visible, n - 1, start, current, position, palette));
    }
  }

  /// Where each visible line lands in the frame: the current line carries its
  /// word spans and, right below it, its translation when one is shown; every
  /// other line is its text in the default colour, one row further down when
  /// it comes after a translation.
  lemma {:induction false} FrameRows(visible: seq<LyricLine>, i: nat, start: nat, current: nat, position: int, palette: Palette)
    requires i < |visible|
    ensures i + start == current ==>
      FrameUpTo(visible, |visible|, start, current, position, palette)[i] == Line(HighlightedLine(visible[i], position))
    ensures i + start == current && TranslationShown(visible, i) ==>
      FrameUpTo(visible, |visible|, start, current, position, palette)[i + 1] == TranslationLine(visible[i + 1], palette)
    ensures i + start != current ==>
      FrameUpTo(visible, |visible|, start, current, position, palette)
        [i + if start <= current < start + i && TranslationShown(visible, current - start) then 1 else 0]
      == DefaultLine(visible[i], palette)
  {
    var tail := FrameExtends(visible, i + 1, |visible|, start, current, position, palette);
    AppendAssoc(FrameUpTo(visible, i, start, current, position, palette),
      LinesFor(visible, i, start, current, position, palette), tail);
  }

  /// The frame's rows never exceed the terminal height (so the `u16` cast
  /// of their count is exact): at most `MaxDisplayable(height) + 1`.
  lemma {:induction false} FrameFits(lyrics: seq<LyricLine>, current: nat, position: int, height: nat, palette: Palette)
    requires WindowStart(height, current) <= |lyrics|
    ensures WindowStart(height, current) <= WindowEnd(height, current, |lyrics|)
    ensures |FrameUpTo(lyrics[WindowStart(height, current)..WindowEnd(height, current, |lyrics|)],
      WindowEnd(height, current, |lyrics|) - WindowStart(height, current),
      WindowStart(height, current), current, position, palette)| <= height
  {
  }

  // ---------------------------------------------------------------- screen

  /// `text_lines.len() as u16`.
  function TruncU16(n: nat): U16 {
    n % 0x1_0000
  }

  /// What the last draw put on the terminal: nothing yet, a vertically
  /// centred block of lyric rows, or one centred span.
  datatype Screen = Blank | LyricsView(top: nat, lines: seq<Line>, bottom: nat) | Centered(span: Span)

  /// The frame `render_lyrics_with_timing` draws.
  function LyricsScreen(lyrics: seq<LyricLine>, current: nat, position: int, height: U16, palette: Palette): Screen
    requires WindowStart(height, current) <= |lyrics|
  {
    var start := WindowStart(height, current);
    var end := WindowEnd(height, current, |lyrics|);
    var lines := FrameUpTo(lyrics[start..end], end - start, start, current, position, palette);
    var empty := SatSub(height, TruncU16(|lines|));
    LyricsView(empty / 2, lines, empty - empty / 2)
  }

  /// The lyric rows and the two paddings fill the terminal exactly, and the
  /// bottom padding is the top one or one more.
  lemma {:induction false} LyricsScreenCentred(lyrics: seq<LyricLine>, current: nat, position: int, height: U16, palette: Palette)
    requires WindowStart(height, current) <= |lyrics|
    ensures LyricsScreen(lyrics, current, position, height, palette).LyricsView?
    ensures LyricsScreen(lyrics, current, position, height, palette).top +
      |LyricsScreen(lyrics, current, position, height, palette).lines| +
      LyricsScreen(lyrics, current, position, height, palette).bottom == height
    ensures LyricsScreen(lyrics, current, position, height, palette).top <=
      LyricsScreen(lyrics, current, position, height, palette).bottom <=
      LyricsScreen(lyrics, current, position, height, palette).top + 1
  {
    FrameFits(lyrics, current, position, height, palette);
  }

  /// The `[colors]` part of the configuration the display reads.
  datatype ColorsConfig = ColorsConfig(defaultFg: string, focusedFg: string)

  /// `TerminalDisplay`. The terminal handle is not modelled; `screen` stands
  /// for what it shows. The height a draw sees is a parameter.
  /// The centred "artist - title" line of `render_song_info`, in bold.
  function SongInfoScreen(song: SongInfo, color: Color): Screen {
    Centered(Span(song.artist + " - " + song.title, Style(Some(color), true, false, false)))
  }

  /// The centred notice of `render_no_song`.
  function NoSongScreen(color: Color): Screen {
    Centered(Span("No song playing", Style(Some(color), false, false, false)))
  }

  class TerminalDisplay {
    const defaultColor: Color
    const focusedColor: Color
    const wordHighlightColor: Color
    const translationColor: Color
    var screen: Screen

    /// The successful arm of `new`.
    constructor(colors: ColorsConfig)
      ensures defaultColor == ParseColor(colors.defaultFg)
      ensures focusedColor == ParseColor(colors.focusedFg)
      ensures wordHighlightColor == Yellow && translationColor == Cyan
      ensures screen == Blank
    {
      defaultColor := ParseColor(colors.defaultFg);
      focusedColor := ParseColor(colors.focusedFg);
      wordHighlightColor := Yellow;
      translationColor := Cyan;
      screen := Blank;
    }

    /// `new`: fails exactly when the terminal cannot be set up (raw mode,
    /// the alternate screen or the terminal handle: `terminalReady` is
    /// false) or the configuration cannot be loaded.
    static method New(terminalReady: bool, config: Option<ColorsConfig>) returns (r: Option<TerminalDisplay>)
      ensures r.None? <==> !terminalReady || config.None?
      ensures r.Some? ==>
        fresh(r.value) && r.value.screen == Blank &&
        r.value.defaultColor == ParseColor(config.value.defaultFg) &&
        r.value.focusedColor == ParseColor(config.value.focusedFg) &&
        r.value.translationColor == Cyan
    {
      if !terminalReady {
        return None;
      }
      match config
      case None =>
        r := None;
      case Some(colors) =>
        var display := new TerminalDisplay(colors);
        r := Some(display);
    }

    /// The colours of the lyric frame.
    function Colors(): Palette {
      Palette(defaultColor, translationColor)
    }

    /// `render_lyrics_with_timing`: the slice `[start, end)` must be well
    /// formed, or the source panics.
    method RenderLyricsWithTiming(lyrics: seq<LyricLine>, currentIndex: nat, position: int, height: U16)
      requires WindowStart(height, currentIndex) <= |lyrics|
      modifies this
      ensures screen == LyricsScreen(lyrics, currentIndex, position, height, Colors())
    {
      var startIndex, endIndex := VisibleRange(height, currentIndex, |lyrics|);
      var textLines := DrawFrame(lyrics[startIndex..endIndex], startIndex, currentIndex, position);
      var textLinesLen := TruncU16(|textLines|);
      var emptySpace := SatSub(height, textLinesLen);
      var topPadding := emptySpace / 2;
      var bottomPadding := emptySpace - topPadding;
      screen := LyricsView(topPadding, textLines, bottomPadding);
    }

    /// The drawing loop of `render_lyrics_with_timing` over the visible lines.
    method DrawFrame(visible: seq<LyricLine>, startIndex: nat, currentIndex: nat, position: int)
      returns (textLines: seq<Line>)
      ensures textLines == FrameUpTo(visible, |visible|, startIndex, currentIndex, position, Colors())
    {
      textLines := [];
      var i := 0;
      while i < |visible|
        invariant 0 <= i <= |visible|
        invariant textLines == FrameUpTo(visible, i, startIndex, currentIndex, position, Colors())
      {
        var lines := DrawVisibleLine(visible, i, startIndex, currentIndex, position);
        textLines := textLines + lines;
        i := i + 1;
      }
    }

    /// One turn of the drawing loop of `render_lyrics_with_timing`: the rows
    /// for visible line `i`.
    method DrawVisibleLine(visible: seq<LyricLine>, i: nat, startIndex: nat, currentIndex: nat, position: int)
      returns (lines: seq<Line>)
      requires i < |visible|
      ensures lines == LinesFor(visible, i, startIndex, currentIndex, position, Colors())
    {
      var lyric := visible[i];
      var actualIndex := i + startIndex;
      lines := [];
      if actualIndex == currentIndex {
        var wordSpans := GetWordHighlightedLine(lyric, position);
        lines := lines + [Line(wordSpans)];
        if i + 1 < |visible| {
          var nextLyric := visible[i + 1];
          if nextLyric.timestamp - lyric.timestamp < TranslationWindowMs && nextLyric.words == [] {
            lines := lines + [Line([Span(nextLyric.text, Style(Some(translationColor), false, true, false))])];
          }
        }
      } else {
        lines := lines + [Line([Span(lyric.text, Style(Some(defaultColor), false, false, false))])];
      }
    }

    /// `update_lyrics`: the frame around the line the position selects.
    method UpdateLyrics(lyrics: seq<LyricLine>, position: int, height: U16)
      modifies this
      ensures screen == LyricsScreen(lyrics, GetCurrentLineIndex(lyrics, position), position, height, Colors())
    {
      var currentIndex := GetCurrentLineIndex(lyrics, position);
      RenderLyricsWithTiming(lyrics, currentIndex, position, height);
    }

    /// `render_lyrics`: the frame around a given line at position 0.
    method RenderLyrics(lyrics: seq<LyricLine>, currentIndex: nat, height: U16)
      requires WindowStart(height, currentIndex) <= |lyrics|
      modifies this
      ensures screen == LyricsScreen(lyrics, currentIndex, 0, height, Colors())
    {
      RenderLyricsWithTiming(lyrics, currentIndex, 0, height);
    }

    /// `render_song_info`: "artist - title", bold, in the default colour.
    method RenderSongInfo(song: SongInfo)
      modifies this
      ensures screen == SongInfoScreen(song, defaultColor)
    {
      screen := Centered(Span(song.artist + " - " + song.title, Style(Some(defaultColor), true, false, false)));
    }

    /// `render_no_song`.
    method RenderNoSong()
      modifies this
      ensures screen == NoSongScreen(defaultColor)
    {
      screen := Centered(Span("No song playing", Style(Some(defaultColor), false, false, false)));
    }
  }
}
