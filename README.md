# bard: synced lyrics, modelled in Dafny

bard shows the lyrics of the song a media player is playing, line by line
and in time with the music. It has two front ends: a full-screen terminal
client (`bard`) and a Waybar status-bar module (`waybar-bard`). Both share
a library that finds the lyrics for a song and parses the LRC format
(`[mm:ss.fff]text`). The library then works out, for a playback position,
which line is being sung and which comes next.

This project models that core and proves properties of it:

- `text.dfy` (module `Text`) holds the string operations the code takes from
  Rust's standard library: `trim`, `to_lowercase`, `contains`, `replace`,
  `trim_start_matches` and `lines`. They are modelled on ASCII.
- `models.dfy` (module `Models`) holds the records `LyricLine`,
  `WordTimestamp`, `LyricsStatus` and `SongInfo`. It also holds the three
  outcomes of a player query and of a lyrics lookup, and the clamp.
- `parser.dfy` (module `Parser`) models `parse_lyrics`. The loop is a
  method, proved equal to a functional specification: the lines it pushes,
  stably sorted by timestamp. The LRC tag is recognised the way the regular
  expression does it.
- `display.dfy` (module `Display`) models `get_lyrics_status` and
  `get_highlighted_lyrics`.
- `fetcher.dfy` (module `Fetcher`) models the lookup order in `get_lyrics`:
  the embedded tag, then the exact file, then the fuzzy scan. It also models
  the fuzzy score table and the single-pass best-candidate loop, which is
  proved against a fold.
- `terminal_render.dfy` (module `TerminalRender`) models the terminal
  display. The class holds its colours and the last drawn screen. It covers
  colour parsing, the current-line index, word highlighting, the visible
  window, the translation row, and vertical centring.
- `session.dfy` (module `Session`) models the song-id tracking that both main
  loops share.
- `bard_main.dfy` (module `BardMain`) models the terminal client's loop and
  its sleep choice.
- `waybar_render.dfy` (module `WaybarRender`) models the Waybar output
  records.
- `waybar_main.dfy` (module `WaybarMain`) models the Waybar loop, including
  the second displayed line, the sleep choice and the hidden flag.

## Units and representation

- Time is whole milliseconds throughout, where the code uses seconds in
  `f64`:
  - the one-second display offset is 1000;
  - the translation merge tolerance `< 0.01` s is `< 10`;
  - the terminal's translation window `< 1.0` s is `< 1000`;
  - sleeps are returned as millisecond values.
- A tag `[m:s.f]` is at `60000*m + 1000*s + f` ms, because the code divides
  the third field by 1000 (crates/shared/src/lyrics/parser.rs:21). A
  two-digit fraction such as `[00:01.50]` therefore means 1050 ms, not
  1500 ms as hundredths would give (lemma `Parser.DecimalTimestamp`).
- Fuzzy scores are `real`.
- Each main loop is a class with one method per loop turn (`Tick`):
  - its inputs are the player's answer and what `get_lyrics` returns for the
    polled song;
  - it returns how long to sleep;
  - the terminal's last drawn frame is the `screen` field;
  - Waybar's printed records are appended to the `output` field.
- `LyricLine` has a `words` field, although it is commented out in
  crates/shared/src/models/lyrics.rs:5. The terminal renderer and the bard
  loop read it. The parser always leaves it empty (`Parser.ParseBounds`).

## Behaviour worth knowing, proved here

- **The sleep is always the maximum.** `get_lyrics_status` only announces a
  next line more than one second (the offset) ahead of the raw position.
  Both loops compute the gap from the raw position, so the gap always
  exceeds the sleep ceiling. As a result:
  - the terminal client sleeps exactly 500 ms or 1000 ms while lines remain;
  - the Waybar module sleeps exactly 1000 ms;
  - the lower clamp bounds and the 50 ms / 100 ms branches are never taken;
  - for parsed lyrics, which carry no word timing, the terminal client
    always sleeps one second.

  See `BardMain.PlayingSleepIsCeiling`, `BardMain.ParsedSleep` and
  `WaybarMain.PlayingSleepIsCeiling`.
- **A hyphenated file name scores low.** A file named
  `bohemian-rhapsody-queen.lrc`, for the song "Bohemian Rhapsody" by
  "Queen", contains the artist but not the title with its blank. It
  therefore scores 0.4 and is never chosen (`Fetcher.HyphenatedStemIsArtistOnly`,
  `Fetcher.HyphenatedOnlyFindsNothing`), although it plainly names the song.
- **A perfect fuzzy score is not a shortcut past an empty file.** A score of
  exactly 1.0 (artist and title present, and the stem as long as the
  expected one) returns at once only when the file is not empty. Otherwise
  the scan goes on.

## Model

| member | source | states |
|---|---|---|
| Models.Clamp | crates/bard/src/main.rs:110-115 | `x.max(lo).min(hi)` lies in `[lo, hi]`: `x` inside, the nearer bound outside |
| Text.Trim | crates/shared/src/lyrics/parser.rs:81 | the result is trimmed and no longer than the input, and empty exactly when the input is blank |
| Text.TrimOfTrimmed | crates/shared/src/lyrics/parser.rs:81 | trimming an already trimmed string changes nothing |
| Text.ToLower | crates/shared/src/lyrics/fetcher.rs:72-73 | same length, every character lower-cased in place |
| Text.ToLowerIdempotent | crates/shared/src/lyrics/fetcher.rs:87 | lower-casing twice is lower-casing once |
| Text.RemoveAll | crates/shared/src/lyrics/fetcher.rs:107-108 | removing every occurrence of a pattern never lengthens the text |
| Text.RemoveAbsent | crates/shared/src/lyrics/fetcher.rs:107-108 | removing a pattern that does not occur leaves the text unchanged |
| Text.TrimStartMatches | crates/shared/src/lyrics/fetcher.rs:110 | the result is a suffix of the input that does not start with the character, and everything cut is that character |
| Text.Lines | crates/shared/src/lyrics/parser.rs:6 | no more lines than characters, and no line holds a line break |
| Text.LinesOfSingleLine | crates/shared/src/lyrics/parser.rs:6 | a non-empty text without a line break is one line |
| Parser.DigitsThen | crates/shared/src/lyrics/parser.rs:9 | a match is a non-empty digit run directly followed by the delimiter |
| Parser.TagAt | crates/shared/src/lyrics/parser.rs:9 | a recognised tag has three non-empty digit fields and fits in the input |
| Parser.TagAtSound | crates/shared/src/lyrics/parser.rs:9 | a recognised tag is exactly the bracket, fields and delimiters it reports, followed by the rest |
| Parser.TagAtTagThen | crates/shared/src/lyrics/parser.rs:9 | every well-formed tag is recognised, whatever follows it |
| Parser.FindTag | crates/shared/src/lyrics/parser.rs:15 | the reported position is the leftmost one where a tag starts, and with no position there is no tag anywhere |
| Parser.MatchTimed | crates/shared/src/lyrics/parser.rs:15-19 | a line has captures exactly when a tag occurs somewhere in it |
| Parser.MatchTimedTagged | crates/shared/src/lyrics/parser.rs:15-21 | a line starting with a tag gives that tag's time and the rest of the line as its content |
| Parser.StripWordTags | crates/shared/src/lyrics/parser.rs:78-80 | removing word tags never lengthens the text |
| Parser.StripWordTagsPlain | crates/shared/src/lyrics/parser.rs:78-80 | text without `<` is unchanged |
| Parser.StripWordTagsAround | crates/shared/src/lyrics/parser.rs:78-80 | a word tag is cut out and the text on both sides is kept in order |
| Parser.CleanText | crates/shared/src/lyrics/parser.rs:76-83 | the cleaned text is trimmed and no longer than the content |
| Parser.CleanTextOfPlain | crates/shared/src/lyrics/parser.rs:76-83 | trimmed text without word tags is its own cleaned text |
| Parser.TranslationOf | crates/shared/src/lyrics/parser.rs:27-50 | a translation needs a following line, and is non-empty and trimmed |
| Parser.TranslationFromNext | crates/shared/src/lyrics/parser.rs:28-48 | a translation is the next raw line's cleaned text, taken exactly when that line is timed within 10 ms and its text is non-empty |
| Parser.StepAt | crates/shared/src/lyrics/parser.rs:13-68 | one loop pass consumes one or two raw lines and pushes at most one well-formed line |
| Parser.StepTimed | crates/shared/src/lyrics/parser.rs:15-58 | a timed line pushes its cleaned text, if non-empty, with its translation, and consumes the translation line too |
| Parser.StepUntimed | crates/shared/src/lyrics/parser.rs:59-66 | an untimed line is pushed, trimmed and at time 0, exactly when it is not blank and does not start with `[` |
| Parser.Emit | crates/shared/src/lyrics/parser.rs:12-69 | every pushed line is well formed, and there are no more of them than raw lines |
| Parser.EmitUnfold | crates/shared/src/lyrics/parser.rs:12-69 | the pushed lines are those of the first pass followed by those of the rest |
| Parser.InsertByTimestamp | crates/shared/src/lyrics/parser.rs:72 | inserting one line keeps every line and adds exactly the new one |
| Parser.InsertSorted | crates/shared/src/lyrics/parser.rs:72 | inserting into a sorted sequence keeps it sorted |
| Parser.InsertKeepsTimestampOrder | crates/shared/src/lyrics/parser.rs:72 | among the lines with one timestamp, the inserted line lands before every line of `s` with that timestamp, which keep their order; applied from the back of the input by the sort, this keeps input order |
| Parser.SortByTimestamp | crates/shared/src/lyrics/parser.rs:72 | the sort is a permutation of its input |
| Parser.SortSorted | crates/shared/src/lyrics/parser.rs:72 | the sort's result is ordered by timestamp |
| Parser.SortKeepsTimestampOrder | crates/shared/src/lyrics/parser.rs:72 | the sort is stable: lines with equal timestamps keep their order |
| Parser.LookAhead | crates/shared/src/lyrics/parser.rs:27-50 | the look-ahead computes exactly the translation the specification assigns |
| Parser.EmitAdvance | crates/shared/src/lyrics/parser.rs:12-69 | one loop pass preserves "lines pushed so far followed by the lines still to come equals all pushed lines" |
| Parser.EmitFrom | crates/shared/src/lyrics/parser.rs:12-69 | the lines still to come from position `i` are the pass's pushed line followed by the lines from where the pass stops |
| Parser.ParseLyrics | crates/shared/src/lyrics/parser.rs:4-74 | the loop-and-sort method returns exactly the specification's result |
| Parser.ParseSorted | crates/shared/src/lyrics/parser.rs:72 | parsed lyrics are ordered by timestamp |
| Parser.ParseIsStableSort | crates/shared/src/lyrics/parser.rs:52-72 | parsed lyrics are a permutation of the pushed lines, and equal timestamps keep their push order |
| Parser.ParseBounds | crates/shared/src/lyrics/parser.rs:52-66 | there are no more lines than raw lines; every line has non-empty trimmed text, no word timing, a non-negative time and a non-empty translation if any |
| Parser.EmitWellParsed | crates/shared/src/lyrics/parser.rs:52-66 | every line the loop pushes, over any input, has non-empty trimmed text, no word timing, a non-negative time and a non-empty translation if any |
| Parser.ParseEmpty | crates/shared/src/lyrics/parser.rs:4-74 | empty input parses to no lines |
| Parser.EmitMergesTranslation | crates/shared/src/lyrics/parser.rs:41-57 | a line timed within 10 ms of the previous one, with non-empty text, becomes its translation and is not a line of its own |
| Parser.EmitDropsEmptyLineWithTranslation | crates/shared/src/lyrics/parser.rs:44-52 | the translation line is consumed even when the line it belongs to is empty, and then both vanish |
| Parser.EmitThreeWayCollision | crates/shared/src/lyrics/parser.rs:28-46 | only the next raw line is examined: of three lines with one time, the third stands alone |
| Parser.EmitSingleTimed | crates/shared/src/lyrics/parser.rs:28-58 | a lone timed line is pushed without a translation |
| Parser.EmitUntimed | crates/shared/src/lyrics/parser.rs:59-66 | an untimed line is kept iff it is not blank and does not start with `[`; metadata tags are dropped |
| Parser.DecimalTimestamp | crates/shared/src/lyrics/parser.rs:16-21 | `[m:s.f]` is at `60000*m + 1000*s + f` ms: the fraction is read as milliseconds, whatever its number of digits |
| Parser.ParseTaggedLine | crates/shared/src/lyrics/parser.rs:4-74 | round trip: a tagged plain lyric parses back to exactly that lyric at the tag's time |
| Parser.ParseOneTimedLine | crates/shared/src/lyrics/parser.rs:4-74 | a one-line text with a timed, non-empty line parses to that line alone |
| Display.PrefixLen | crates/shared/src/lyrics/display.rs:10-15 | the `take_while` prefix holds only started lines, and the line after it has not started |
| Display.GetLyricsStatus | crates/shared/src/lyrics/display.rs:6-86 | an announced next line lies strictly ahead of the adjusted position and is a line of the input; the current line is a started input line or the placeholder; a translation is the current line's; with no next line there is no translation |
| Display.GetHighlightedLyrics | crates/shared/src/lyrics/display.rs:98-123 | the text returned is the given line's text, character for character |
| Display.HighlightedIsStartedLine | crates/shared/src/lyrics/display.rs:98-123 | the highlighted text is empty before any line starts, and otherwise the text of a started line |
| Display.StatusWhenEmpty | crates/shared/src/lyrics/display.rs:76-83 | no lines: the placeholder, no next line, no translation |
| Display.StatusBeforeFirst | crates/shared/src/lyrics/display.rs:67-75 | before the first line starts: the placeholder, with the first line announced |
| Display.StatusOnLine | crates/shared/src/lyrics/display.rs:18-66 | when line `i` is current, the status is that line with the next line and its own translation, or on the last line no next line and no translation |
| Display.StatusCases | crates/shared/src/lyrics/display.rs:17-85 | the placeholder comes with no translation, and every status is either before the first line or on a current line `i` |
| Display.StatusOnSorted | crates/shared/src/lyrics/display.rs:10-52 | on sorted lines the current line is the last started line, and the line after it is next |
| Display.StatusExample | crates/shared/src/lyrics/display.rs:6-86 | "Hello" at 10 s and "World" at 15 s: the status at 0 s, 12 s and 20 s |
| Fetcher.ExpectedStem | crates/shared/src/lyrics/fetcher.rs:97-101 | the expected stem is three characters longer than artist and title together, so it is never empty and the length ratio never divides by zero |
| Fetcher.FindExact | crates/shared/src/lyrics/fetcher.rs:55-57 | finds the first `.lrc` entry named exactly "artist - title", or reports that there is none |
| Fetcher.LengthRatio | crates/shared/src/lyrics/fetcher.rs:99-101 | the length ratio lies in [0, 1] and is 1 exactly for equal lengths |
| Fetcher.RatioBounds | crates/shared/src/lyrics/fetcher.rs:99-101 | `min / max` is in [0, 1] and equals 1 iff the two are equal |
| Fetcher.ScoreTable | crates/shared/src/lyrics/fetcher.rs:94-128 | both present: 0.8 to 1.0, and 1.0 iff the stem has the expected length; artist only: 0.75 iff the title embeds the artist and the rest is in the stem, else 0.4; title only: 0.5; neither: 0.0 |
| Fetcher.ScoreAboveThreshold | crates/shared/src/lyrics/fetcher.rs:94-128 | a score above 0.6 is at least 0.75 |
| Fetcher.FirstPerfect | crates/shared/src/lyrics/fetcher.rs:131-136 | the first `.lrc` entry with score 1.0 and non-empty text, or none |
| Fetcher.FirstPerfectIs | crates/shared/src/lyrics/fetcher.rs:130-136 | an entry that is perfect with no perfect entry before it is the one the early return takes |
| Fetcher.BestUpTo | crates/shared/src/lyrics/fetcher.rs:68-142 | with no candidate the score is the 0.6 threshold; otherwise the candidate is an entry already seen, with that score |
| Fetcher.BestIsMaximum | crates/shared/src/lyrics/fetcher.rs:139-142 | the running best is at least the threshold and every score seen |
| Fetcher.BestIsFirst | crates/shared/src/lyrics/fetcher.rs:139-142 | the candidate beats the threshold and every earlier score strictly, so of equal best scores the first wins; with no candidate nothing beats 0.6 |
| Fetcher.FuzzyMatchSource | crates/shared/src/lyrics/fetcher.rs:66-155 | a fuzzy result is the parse of a non-empty `.lrc` entry scoring at least 0.75 |
| Fetcher.FuzzyMatchNone | crates/shared/src/lyrics/fetcher.rs:139-154 | when no `.lrc` entry scores above 0.6 there is no fuzzy result |
| Fetcher.EmbeddedFirst | crates/shared/src/lyrics/fetcher.rs:15-27 | an embedded tag is used, even when it parses to nothing, and the folder is then ignored |
| Fetcher.MissingFolder | crates/shared/src/lyrics/fetcher.rs:34-36 | without a tag and a lyrics folder there are no lyrics |
| Fetcher.ExactBeforeFuzzy | crates/shared/src/lyrics/fetcher.rs:38-41 | a non-empty exact file is used whatever else the folder holds |
| Fetcher.ExactEmptyFallsThrough | crates/shared/src/lyrics/fetcher.rs:57-63 | an exact file with empty text gives no exact result, so the fuzzy scan decides |
| Fetcher.HyphenatedStemIsArtistOnly | crates/shared/src/lyrics/fetcher.rs:103-125 | a stem `bohemian-rhapsody-queen` for "Queen" / "Bohemian Rhapsody" scores 0.4 |
| Fetcher.HyphenatedOnlyFindsNothing | crates/shared/src/lyrics/fetcher.rs:13-52 | a folder holding only that file yields no lyrics |
| Fetcher.LoneWeakCandidate | crates/shared/src/lyrics/fetcher.rs:13-52 | a lone entry that is not the exact file and scores at most 0.6 yields no lyrics |
| Fetcher.UnrelatedStem | crates/shared/src/lyrics/fetcher.rs:127 | a stem containing neither artist nor title scores 0 |
| Fetcher.TryExactMatch | crates/shared/src/lyrics/fetcher.rs:54-64 | returns the exact file's parsed lines when that file exists and is not empty |
| Fetcher.TryFuzzyMatch | crates/shared/src/lyrics/fetcher.rs:66-155 | the single pass with early return equals "first perfect entry, else the first best candidate above 0.6 if its file is not empty" |
| Fetcher.FuzzyChoice | crates/shared/src/lyrics/fetcher.rs:130-152 | the entry read is either the first perfect one or the best candidate, and its text is never empty |
| Fetcher.FuzzyCandidate | crates/shared/src/lyrics/fetcher.rs:66-155 | the scan with its early return picks exactly the entry the specification chooses |
| Fetcher.ChoiceAtPerfect | crates/shared/src/lyrics/fetcher.rs:130-136 | the early return on a perfect entry, with none perfect before it, picks that entry |
| Fetcher.ChoiceAfterScan | crates/shared/src/lyrics/fetcher.rs:146-154 | after a full scan with no perfect entry, the running best is used if its text is not empty, and nothing otherwise |
| Fetcher.ScanEntry | crates/shared/src/lyrics/fetcher.rs:80-142 | one loop pass ends the scan exactly on a perfect entry, and otherwise advances the running best by one entry |
| Fetcher.GetLyrics | crates/shared/src/lyrics/fetcher.rs:13-52 | embedded tag, then exact file, then fuzzy scan, else nothing |
| TerminalRender.NamedColor | crates/bard/src/terminal/render.rs:81-101 | a name that lower-cases to a colour's name selects that colour |
| TerminalRender.ParseColorDefault | crates/bard/src/terminal/render.rs:81-101 | only a colour's own name selects a colour other than White; every unknown name gives White |
| TerminalRender.ParseColorIgnoresCase | crates/bard/src/terminal/render.rs:82 | parsing ignores case |
| TerminalRender.GetCurrentLineIndex | crates/bard/src/terminal/render.rs:30-42 | the index of the last line of the started prefix, or 0 when nothing has started or there are no lines |
| TerminalRender.CurrentIndexMatchesStatus | crates/bard/src/terminal/render.rs:30-42 | once a line has started, the terminal's current line is the status resolver's; before that, line 0 against the placeholder |
| TerminalRender.Classify | crates/bard/src/terminal/render.rs:55-67 | a word is active inside `[start, end)`, sung from `end` on, and upcoming otherwise, with exactly one state holding |
| TerminalRender.WordSpans | crates/bard/src/terminal/render.rs:54-76 | `n` words give `2n - 1` spans |
| TerminalRender.WordSpansShape | crates/bard/src/terminal/render.rs:54-76 | word `k` is span `2k` in its state's style, with a plain space after every word but the last |
| TerminalRender.InterleavedUnique | crates/bard/src/terminal/render.rs:54-76 | any span sequence with that layout is exactly the word spans |
| TerminalRender.GetWordHighlightedLine | crates/bard/src/terminal/render.rs:44-79 | the loop's spans are the raw text for lines without word timing, and otherwise the interleaved word spans |
| TerminalRender.WindowBounds | crates/bard/src/terminal/render.rs:167-176 | the visible slice is well formed and holds at most `height - 4` lines, a third of them before the current one; the current line is visible when there is room |
| TerminalRender.VisibleRange | crates/bard/src/terminal/render.rs:164-175 | computes the window's start and end |
| TerminalRender.FrameUpTo | crates/bard/src/terminal/render.rs:181-209 | one row per visible line, plus one when the current line shows a translation |
| TerminalRender.FrameExtends | crates/bard/src/terminal/render.rs:181-209 | drawing further lines only appends rows |
| TerminalRender.FrameRows | crates/bard/src/terminal/render.rs:184-207 | the current line shows its word spans; right below it comes the NEXT visible line's text in italics in the translation colour, only when that line starts less than 1 s later and has no word timing; every other line is its text in the default colour. The `translation` field of a line is never drawn |
| TerminalRender.FrameFits | crates/bard/src/terminal/render.rs:167-211 | the frame has at most `height` rows, so the `u16` cast of the row count is exact |
| TerminalRender.LyricsScreenCentred | crates/bard/src/terminal/render.rs:211-218 | top padding, rows and bottom padding fill the height exactly, with the bottom padding at most one row larger than the top |
| TerminalRender.TerminalDisplay.constructor | crates/bard/src/terminal/render.rs:116-128 | colours come from the configuration, word highlighting is yellow and translations cyan |
| TerminalRender.TerminalDisplay.New | crates/bard/src/terminal/render.rs:104-135 | fails exactly when the terminal cannot be set up or the configuration cannot be loaded; otherwise the colours are the configured ones, with cyan for translations |
| TerminalRender.TerminalDisplay.RenderLyricsWithTiming | crates/bard/src/terminal/render.rs:154-237 | the drawn screen is the specified centred frame of the visible window |
| TerminalRender.TerminalDisplay.DrawVisibleLine | crates/bard/src/terminal/render.rs:182-208 | one loop pass draws the specified rows for visible line `i` |
| TerminalRender.TerminalDisplay.DrawFrame | crates/bard/src/terminal/render.rs:179-208 | the drawing loop produces exactly the specified rows for all visible lines, in order |
| TerminalRender.TerminalDisplay.UpdateLyrics | crates/bard/src/terminal/render.rs:137-144 | draws the frame around the line the position selects |
| TerminalRender.TerminalDisplay.RenderLyrics | crates/bard/src/terminal/render.rs:146-152 | draws the frame around a given line at position 0 |
| TerminalRender.TerminalDisplay.RenderSongInfo | crates/bard/src/terminal/render.rs:239-270 | shows "artist - title", bold, in the default colour |
| TerminalRender.TerminalDisplay.RenderNoSong | crates/bard/src/terminal/render.rs:272-301 | shows "No song playing" in the default colour |
| Session.Follow | crates/bard/src/main.rs:57-63 | in both loops (also crates/waybar-bard/src/main.rs lines 61-67) the polled id is remembered; a new id replaces the lyrics with the fetched ones, and the same id keeps everything |
| Session.FollowSameSong | crates/bard/src/main.rs:57-63 | polling the same song again never refetches |
| Session.FollowNewSong | crates/waybar-bard/src/main.rs:61-67 | a poll of a different song always replaces the lyrics |
| BardMain.PlayingSleepMs | crates/bard/src/main.rs:106-127 | with word timing the sleep is 50 to 500 ms, without it 10 to 1000 ms |
| BardMain.PlayingSleepIsCeiling | crates/bard/src/main.rs:104-127 | with a next line the sleep is exactly 500 ms (word timing) or 1000 ms; without one, 200 ms or 1000 ms |
| BardMain.ParsedSleep | crates/bard/src/main.rs:106-126 | parsed lyrics have no word timing, so the playing sleep is always one second |
| BardMain.BardApp.constructor | crates/bard/src/main.rs:28-29 | starts with an empty song id and no lyrics |
| BardMain.BardApp.UpdateLyrics | crates/bard/src/main.rs:87-142 | playing with lyrics: the lyric frame and the computed sleep; paused: song info and 1 s; no lyrics or an error: song info and 2 s |
| BardMain.BardApp.Tick | crates/bard/src/main.rs:46-81 | `q` stops the loop and changes nothing; a song is tracked, refetched only on an id change, and drawn; no song: the notice and 1 s; a player error: the notice and 2 s |
| WaybarRender.RenderNoSong | crates/waybar-bard/src/waybar/render.rs:6-16 | empty text, alt and tooltip, class `no-song` |
| WaybarRender.RenderJust | crates/waybar-bard/src/waybar/render.rs:20-29 | the text is an ellipsis, with class `has-song` |
| WaybarRender.RenderEmpty | crates/waybar-bard/src/waybar/render.rs:31-40 | empty text, alt and tooltip, class `hidden` |
| WaybarRender.RenderSongInfo | crates/waybar-bard/src/waybar/render.rs:43-52 | text and tooltip both "artist - title", empty alt, class `has-song` |
| WaybarRender.GetLyricsOutput | crates/waybar-bard/src/waybar/render.rs:60-79 | an empty current line gives an ellipsis with no alt; otherwise the line with the next one as alt; the tooltip passes through, the class is `has-lyrics`, and the text is never empty |
| WaybarRender.LyricsOutputInjective | crates/waybar-bard/src/waybar/render.rs:73-78 | for a non-empty current line, the record determines the line, the next line and the tooltip |
| WaybarRender.OutputKinds | crates/waybar-bard/src/waybar/render.rs:6-79 | the classes tell hidden, no-song and lyrics records apart; song info differs from the ellipsis; only hidden and no-song records are blank |
| WaybarMain.SecondLineOnLine | crates/waybar-bard/src/main.rs:98-109 | on line `i` the second line is its translation when it has one, even on the last line; otherwise it is the next line's text, or nothing |
| WaybarMain.SecondLineBeforeFirst | crates/waybar-bard/src/main.rs:98-109 | before the first line starts, the second line announces it |
| WaybarMain.PlayingSleepMs | crates/waybar-bard/src/main.rs:116-125 | the sleep is between 10 and 1000 ms |
| WaybarMain.PlayingSleepIsCeiling | crates/waybar-bard/src/main.rs:98-125 | the sleep is exactly 1000 ms while a next line exists, and 200 ms after the last |
| WaybarMain.PlayingShowsLyrics | crates/waybar-bard/src/main.rs:98-114 | a playing song with lyrics shows a lyrics record whose text is an ellipsis or a started line |
| WaybarMain.WaybarApp.constructor | crates/waybar-bard/src/main.rs:23-27 | starts with an empty id, no lyrics, shown, with nothing printed |
| WaybarMain.WaybarApp.ToggleHidden | crates/waybar-bard/src/main.rs:33-44 | flips the flag and prints the hidden record when now hidden, or the ellipsis when shown again |
| WaybarMain.WaybarApp.UpdateLyrics | crates/waybar-bard/src/main.rs:89-143 | prints the song-info or lyrics record and returns the sleep: 1 s paused, 2 s without lyrics |
| WaybarMain.WaybarApp.Tick | crates/waybar-bard/src/main.rs:48-85 | when hidden, prints the hidden record and sleeps 1 s without polling; otherwise tracks the song like the terminal client, and on no song or a player error prints the no-song record and sleeps 1 s or 2 s |

## Left out

- Reading files and tags, loading the configuration and querying the player
  (MPRIS and Tidal) are I/O. Their results are parameters:
  - the embedded lyrics tag and the directory listing, for `Fetcher`;
  - the colour configuration, for `TerminalDisplay.New`;
  - the poll result and the fetched lyrics, for each `Tick`.
- `Fetcher.GetLyrics` has no error outcome. The errors of `get_lyrics`
  (configuration not loadable, unreadable directory or file) are I/O
  failures. The loops receive them as `LyricsError`. A directory entry
  whose name is not UTF-8 is skipped silently by the fuzzy scan
  (crates/shared/src/lyrics/fetcher.rs:86); the listing given to the model
  simply does not contain such entries.
- Floating point is not modelled. Times are integer milliseconds and scores
  are exact reals. `f64` and `f32` rounding, `partial_cmp(...).unwrap()`
  panics on NaN, and `unwrap_or(0.0)` on unparsable digits are left out.
  `\d` is modelled as the ASCII digits 0-9 (`Parser.DigitsThen`). The
  regex crate's `\d` also matches other Unicode decimal digits, which
  `parse::<f64>()` rejects, so such a tag reads as 0 in the source; the
  model does not match those tags at all.
- Strings are sequences of characters, and case and whitespace are ASCII.
  Rust's `len()` counts UTF-8 bytes in the fuzzy length ratio, and
  `to_lowercase`/`trim` follow Unicode. The model agrees with them on ASCII
  text only.
- Threads, `Arc<Mutex>`, `AtomicBool`, the SIGUSR1 handler, the keyboard
  channel and the tokio runtime are concurrency. Signals are the
  `ToggleHidden` method, the key reader is the `key` argument of `Tick`,
  and sleeping is a returned duration.
- `TerminalRender.TerminalDisplay.RenderLyricsWithTiming` and
  `TerminalRender.TerminalDisplay.RenderLyrics` require the window start
  to be at most the number of lines. When the current index lies beyond
  the lyrics, the slice at crates/bard/src/terminal/render.rs:176 panics;
  the model does not describe that panic.
- The terminal drawing library's layout (the 45%/Min(3)/45% split for
  centred text and how it places the padded rows) is left out.
  `TerminalRender.Screen` records what is handed to it; the terminal height
  is a parameter.
- `format_lyrics_for_tooltip` (crates/shared/src/lyrics/display.rs:88-95)
  is not modelled. It is Rust `Debug` formatting, and the Waybar loop
  passes an empty tooltip instead.
- The stable sort of `parse_lyrics` is modelled as a stable insertion sort
  on values. The standard library's merge sort is not part of this model;
  only its result (sorted, a permutation, and stable) is stated.
- The models of `parse_lyrics`, `render_lyrics_with_timing` and
  `try_fuzzy_match` work on immutable sequences and do not model in-place
  updates. `Parser.LookAhead`, `TerminalRender.TerminalDisplay.DrawVisibleLine`,
  `TerminalRender.TerminalDisplay.DrawFrame`,
  `TerminalRender.TerminalDisplay.VisibleRange`, `Fetcher.ScanEntry` and
  `Fetcher.FuzzyCandidate` are parts of the loops above, split out as
  methods of their own. In `Fetcher.FuzzyCandidate` the scan returns the
  chosen entry and `Fetcher.TryFuzzyMatch` parses it afterwards; parsing
  is pure, so the result is the same as parsing inside the loop.
- `focusedColor` and `wordHighlightColor` are stored by the constructor, but
  the drawing code never reads them (it uses fixed yellow, green and white
  for words), so nothing else depends on them.
- crates/waybar-bard/src/models.rs (the `WaybarOutput` declaration) is not
  part of this model. Its fields are the four the renderer sets, and JSON
  serialisation and `println!` are left out.
- Error results of terminal drawing (`io::Result`) and the `expect` panics in
  both `main` functions are left out. Drawing always succeeds here.
- The `get_lyrics` call runs on a song-id change. The `fetched` argument of
  `Tick` is its result for the polled song; the model does not re-derive
  that result from `Fetcher.LookupLyrics`.
