/// The LRC parser of crates/shared/src/lyrics/parser.rs: `[mm:ss.fff]text`
/// lines become timed lyric lines, a directly following line with (almost)
/// the same timestamp becomes the translation, and the result is stably
/// sorted by timestamp.
module Parser {
  import opened Models
  import opened Text

  /// Two raw lines whose timestamps differ by less than this many
  /// milliseconds are a line and its translation (`< 0.01` seconds).
  const MergeEpsilonMs: int := 10

  // ---------------------------------------------------------------------
  // Tags: `[d+:d+.d+]` for lines, `<d+:d+.d+>` for words
  // ---------------------------------------------------------------------

  /// The three digit groups of a tag, as written.
  datatype TagFields = TagFields(minutes: string, seconds: string, fraction: string)

  predicate WellFormed(f: TagFields) {
    && f.minutes != [] && AllDigits(f.minutes)
    && f.seconds != [] && AllDigits(f.seconds)
    && f.fraction != [] && AllDigits(f.fraction)
  }

  function TagLength(f: TagFields): nat {
    |f.minutes| + |f.seconds| + |f.fraction| + 4
  }

  /// The text of a tag with the given brackets, followed by `rest`.
  function TagThen(open: char, f: TagFields, close: char, rest: string): string {
    Pieces(open, f.minutes, ':', f.seconds, '.', f.fraction, close, rest)
  }

  /// `minutes * 60 + seconds + fraction / 1000` seconds, in milliseconds.
  function TimestampMs(f: TagFields): nat
    requires WellFormed(f)
  {
    60000 * DigitsValue(f.minutes) + 1000 * DigitsValue(f.seconds) + DigitsValue(f.fraction)
  }

  /// `\d+` followed by `delim` at the start of `s`: the number of digits.
  function DigitsThen(s: string, delim: char): (r: Option<nat>)
    requires !IsDigit(delim)
    ensures r.Some? ==> 0 < r.value < |s| && AllDigits(s[..r.value]) && s[r.value] == delim
  {
    var n := DigitRun(s);
    if n > 0 && n < |s| && s[n] == delim then Some(n) else None
  }

  lemma DigitsThenOf(d: string, delim: char, rest: string)
    requires d != [] && AllDigits(d) && !IsDigit(delim)
    ensures DigitsThen(d + ([delim] + rest), delim) == Some(|d|)
  {
    DigitRunOfDigits(d, [delim] + rest);
    DropAfter(d, delim, rest);
  }

  /// The tag `open \d+ : \d+ . \d+ close` at the very start of `s`, if there
  /// is one. Because the delimiters are not digits, each greedy `\d+` must
  /// take the whole digit run, so there is at most one way to match.
  function TagAt(s: string, open: char, close: char): (r: Option<TagFields>)
    requires !IsDigit(close)
    ensures r.Some? ==> WellFormed(r.value) && TagLength(r.value) <= |s|
  {
    if s == [] || s[0] != open then None
    else
      var p1 := s[1..];
      match DigitsThen(p1, ':')
      case None => None
      case Some(m) =>
        var p2 := p1[m + 1..];
        match DigitsThen(p2, '.')
        case None => None
        case Some(sec) =>
          var p3 := p2[sec + 1..];
          match DigitsThen(p3, close)
          case None => None
          case Some(fr) => Some(TagFields(p1[..m], p2[..sec], p3[..fr]))
  }

  /// Soundness: a recognised tag is exactly the text of its fields, and
  /// the rest of `s` follows it.
  lemma TagAtSound(s: string, open: char, close: char, f: TagFields)
    requires !IsDigit(close) && TagAt(s, open, close) == Some(f)
    ensures s == TagThen(open, f, close, s[TagLength(f)..])
  {
    var m, sec, fr := TagAtCuts(s, open, close);
    PiecesAt(s, m, sec, fr, open, ':', '.', close, f.minutes, f.seconds, f.fraction, TagLength(f));
  }

  /// Where the three delimiters of a recognised tag are.
  lemma TagAtCuts(s: string, open: char, close: char) returns (m: nat, sec: nat, fr: nat)
    requires !IsDigit(close) && TagAt(s, open, close).Some?
    ensures s != [] && s[0] == open
    ensures m < |s[1..]| && s[1..][m] == ':'
    ensures sec < |s[1..][m + 1..]| && s[1..][m + 1..][sec] == '.'
    ensures fr < |s[1..][m + 1..][sec + 1..]| && s[1..][m + 1..][sec + 1..][fr] == close
    ensures var p1 := s[1..];
      var p2 := p1[m + 1..];
      var p3 := p2[sec + 1..];
      TagAt(s, open, close).value == TagFields(p1[..m], p2[..sec], p3[..fr])
  {
    var p1 := s[1..];
    m := DigitsThen(p1, ':').value;
    var p2 := p1[m + 1..];
    sec := DigitsThen(p2, '.').value;
    var p3 := p2[sec + 1..];
    fr := DigitsThen(p3, close).value;
  }

  /// Completeness: every well-formed tag is recognised, whatever follows it.
  lemma TagAtTagThen(open: char, f: TagFields, close: char, rest: string)
    requires WellFormed(f) && !IsDigit(close)
    ensures TagAt(TagThen(open, f, close, rest), open, close) == Some(f)
  {
    PiecesSuffixes(open, f.minutes, ':', f.seconds, '.', f.fraction, close, rest);
    DigitsThenOf(f.minutes, ':', f.seconds + (['.'] + (f.fraction + ([close] + rest))));
    DigitsThenOf(f.seconds, '.', f.fraction + ([close] + rest));
    DigitsThenOf(f.fraction, close, rest);
  }

  /// The leftmost position of `s` where a tag starts (regex search semantics).
  function FindTag(s: string, open: char, close: char): (r: Option<nat>)
    requires !IsDigit(close)
    ensures r.Some? ==> r.value < |s| && TagAt(s[r.value..], open, close).Some?
    ensures forall j :: 0 <= j < |s| && (r.None? || j < r.value) ==> TagAt(s[j..], open, close).None?
    decreases |s|
  {
    if s == [] then None
    else if TagAt(s, open, close).Some? then Some(0)
    else
      var r := FindTag(s[1..], open, close);
      assert forall j :: 1 <= j < |s| ==> s[j..] == s[1..][j - 1..];
      match r
      case Some(k) => Some(k + 1)
      case None => None
  }

  /// The captures of `\[(\d+):(\d+)\.(\d+)\](.*)` on one line.
  datatype TimedRaw = TimedRaw(timestamp: nat, content: string)

  function MatchTimed(line: string): (r: Option<TimedRaw>)
    ensures r.Some? <==> FindTag(line, '[', ']').Some?
  {
    match FindTag(line, '[', ']')
    case None => None
    case Some(k) =>
      var rest := line[k..];
      var f := TagAt(rest, '[', ']').value;
      Some(TimedRaw(TimestampMs(f), rest[TagLength(f)..]))
  }

  /// What follows a tag's text is exactly the `rest` it was built with.
  lemma TagThenRest(open: char, f: TagFields, close: char, rest: string)
    ensures |TagThen(open, f, close, rest)| == TagLength(f) + |rest|
    ensures TagThen(open, f, close, rest)[TagLength(f)..] == rest
  {
    DropPieces(open, f.minutes, ':', f.seconds, '.', f.fraction, close, rest);
  }

  /// A line that starts with a well-formed line tag carries that tag's time
  /// and the rest of the line as its content.
  lemma MatchTimedTagged(f: TagFields, content: string)
    requires WellFormed(f)
    ensures MatchTimed(TagThen('[', f, ']', content))
         == Some(TimedRaw(TimestampMs(f), content))
  {
    var line := TagThen('[', f, ']', content);
    TagAtTagThen('[', f, ']', content);
    TagThenRest('[', f, ']', content);
    assert line[0..] == line;
  }

  // ---------------------------------------------------------------------
  // extract_clean_text
  // ---------------------------------------------------------------------

  /// `<\d+:\d+\.\d+>` replaced by "" in one left-to-right pass.
  function StripWordTags(s: string): (r: string)
    ensures |r| <= |s|
    decreases |s|
  {
    if s == [] then []
    else
      match TagAt(s, '<', '>')
      case Some(f) => StripWordTags(s[TagLength(f)..])
      case None => [s[0]] + StripWordTags(s[1..])
  }

  /// `extract_clean_text`: word tags removed, then trimmed.
  function CleanText(content: string): (r: string)
    ensures |r| <= |content| && IsTrimmed(r)
  {
    Trim(StripWordTags(content))
  }

  /// Text without '<' has no word tag to remove.
  lemma {:induction false} StripWordTagsPlain(s: string)
    requires '<' !in s
    ensures StripWordTags(s) == s
    decreases |s|
  {
    if s != [] {
      assert s[0] != '<';
      StripWordTagsPlain(s[1..]);
    }
  }

  /// A word tag is removed and the text around it is kept in order.
  lemma {:induction false} StripWordTagsAround(before: string, f: TagFields, after: string)
    requires '<' !in before && WellFormed(f)
    ensures StripWordTags(before + TagThen('<', f, '>', after)) == before + StripWordTags(after)
    decreases |before|
  {
    AppendFront(before, TagThen('<', f, '>', after));
    AppendFront(before, StripWordTags(after));
    if before == [] {
      TagAtTagThen('<', f, '>', after);
      TagThenRest('<', f, '>', after);
    } else {
      assert before[0] != '<';
      assert TagAt(before + TagThen('<', f, '>', after), '<', '>').None?;
      assert StripWordTags(before + TagThen('<', f, '>', after))
          == [before[0]] + StripWordTags(before[1..] + TagThen('<', f, '>', after));
      StripWordTagsAround(before[1..], f, after);
    }
  }

  // ---------------------------------------------------------------------
  // The line loop, as a specification over the raw lines
  // ---------------------------------------------------------------------

  /// An untimed raw line is kept iff it is not blank and does not start with '['.
  predicate KeepsUntimed(line: string) {
    !IsBlank(line) && !StartsWith(line, "[")
  }

  /// The translation that the raw lines `following` supply for a line at `ts`:
  /// the cleaned text of the first of them, if it is timed within the merge
  /// epsilon and its cleaned text is not empty.
  function TranslationOf(ts: int, following: seq<string>): (r: Option<string>)
    ensures r.Some? ==> following != [] && r.value != [] && IsTrimmed(r.value)
  {
    if following == [] then None
    else
      match MatchTimed(following[0])
      case None => None
      case Some(n) =>
        var clean := CleanText(n.content);
        if Abs(n.timestamp - ts) < MergeEpsilonMs && clean != [] then Some(clean) else None
  }

  /// Every parsed line: text not empty and trimmed, no words, time >= 0,
  /// translation (if any) not empty.
  predicate WellParsed(l: LyricLine) {
    && l.text != [] && IsTrimmed(l.text)
    && l.words == []
    && l.timestamp >= 0
    && (l.translation.Some? ==> l.translation.value != [])
  }

  /// One pass of the loop body of `parse_lyrics` at the first of `raw`: the
  /// line it pushes (if any) and how many raw lines it consumes.
  datatype Step = Step(pushed: seq<LyricLine>, consumed: nat)

  function StepAt(raw: seq<string>): (st: Step)
    requires raw != []
    ensures 1 <= st.consumed <= |raw| && |st.pushed| <= 1
  {
    match MatchTimed(raw[0])
    case Some(t) =>
      var clean := CleanText(t.content);
      var tr := TranslationOf(t.timestamp, raw[1..]);
      Step(if clean != [] then [LyricLine(t.timestamp, clean, tr, [])] else [],
           if tr.Some? then 2 else 1)
    case None =>
      Step(if KeepsUntimed(raw[0]) then [LyricLine(0, Trim(raw[0]), None, [])] else [], 1)
  }

  /// The lines the loop of `parse_lyrics` pushes, in push order.
  function Emit(raw: seq<string>): (r: seq<LyricLine>)
    ensures |r| <= |raw|
    decreases |raw|
  {
    if raw == [] then []
    else
      var st := StepAt(raw);
      st.pushed + Emit(raw[st.consumed..])
  }

  /// Every pushed line has non-empty text, no word timing and a
  /// non-negative time.
  lemma {:induction false} EmitWellParsed(raw: seq<string>)
    ensures forall l :: l in Emit(raw) ==> WellParsed(l)
    decreases |raw|
  {
    if raw != [] {
      StepWellParsed(raw);
      EmitWellParsed(raw[StepAt(raw).consumed..]);
    }
  }

  /// The line one pass pushes, if any, is well parsed.
  lemma StepWellParsed(raw: seq<string>)
    requires raw != []
    ensures forall l :: l in StepAt(raw).pushed ==> WellParsed(l)
  {
  }

  /// The translation check reads the next raw line only.
  lemma TranslationFromNext(ts: int, following: seq<string>, b: TimedRaw)
    requires following != [] && MatchTimed(following[0]) == Some(b)
    ensures TranslationOf(ts, following)
         == if Abs(b.timestamp - ts) < MergeEpsilonMs && CleanText(b.content) != []
            then Some(CleanText(b.content)) else None
  {
  }

  /// The translation check in the terms the loop computes it.
  lemma NextTranslation(ts: int, following: seq<string>, next: Option<TimedRaw>)
    requires following != [] && MatchTimed(following[0]) == next
    ensures TranslationOf(ts, following)
         == if next.Some? && Abs(next.value.timestamp - ts) < MergeEpsilonMs
               && CleanText(next.value.content) != []
            then Some(CleanText(next.value.content)) else None
  {
  }

  lemma StepTimed(raw: seq<string>, a: TimedRaw)
    requires raw != [] && MatchTimed(raw[0]) == Some(a)
    ensures var clean := CleanText(a.content);
      var tr := TranslationOf(a.timestamp, raw[1..]);
      StepAt(raw) == Step(if clean != [] then [LyricLine(a.timestamp, clean, tr, [])] else [],
                          if tr.Some? then 2 else 1)
  {
  }

  lemma StepUntimed(raw: seq<string>)
    requires raw != [] && MatchTimed(raw[0]).None?
    ensures StepAt(raw)
         == Step(if KeepsUntimed(raw[0]) then [LyricLine(0, Trim(raw[0]), None, [])] else [], 1)
  {
  }

  lemma EmitUnfold(raw: seq<string>)
    requires raw != []
    ensures Emit(raw) == StepAt(raw).pushed + Emit(raw[StepAt(raw).consumed..])
  {
  }

  // ---------------------------------------------------------------------
  // The stable sort (`Vec::sort_by` on timestamps)
  // ---------------------------------------------------------------------

  predicate NotBefore(s: seq<LyricLine>, t: int) {
    forall i :: 0 <= i < |s| ==> t <= s[i].timestamp
  }

  /// The lines of `s` with timestamp `t`, in order.
  function WithTimestamp(s: seq<LyricLine>, t: int): seq<LyricLine> {
    if s == [] then [] else (if s[0].timestamp == t then [s[0]] else []) + WithTimestamp(s[1..], t)
  }

  /// `x` placed before the first line of `s` that is not earlier than it.
  function InsertByTimestamp(x: LyricLine, s: seq<LyricLine>): (r: seq<LyricLine>)
    ensures |r| == |s| + 1
    ensures multiset(r) == multiset(s) + multiset{x}
  {
    if s == [] || x.timestamp <= s[0].timestamp then [x] + s
    else
      assert s == [s[0]] + s[1..];
      [s[0]] + InsertByTimestamp(x, s[1..])
  }

  lemma {:induction false} InsertNotBefore(x: LyricLine, s: seq<LyricLine>, t: int)
    requires NotBefore(s, t) && t <= x.timestamp
    ensures NotBefore(InsertByTimestamp(x, s), t)
  {
    if s != [] && x.timestamp > s[0].timestamp {
      InsertNotBefore(x, s[1..], t);
    }
  }

  lemma {:induction false} InsertSorted(x: LyricLine, s: seq<LyricLine>)
    requires SortedByTimestamp(s)
    ensures SortedByTimestamp(InsertByTimestamp(x, s))
  {
    if s != [] && x.timestamp > s[0].timestamp {
      var tail := InsertByTimestamp(x, s[1..]);
      InsertSorted(x, s[1..]);
      InsertNotBefore(x, s[1..], s[0].timestamp);
      var r := [s[0]] + tail;
      forall i, j | 0 <= i < j < |r| ensures r[i].timestamp <= r[j].timestamp {
        if i > 0 {
          assert r[i] == tail[i - 1] && r[j] == tail[j - 1];
        } else {
          assert r[j] == tail[j - 1];
        }
      }
    }
  }

  /// A stable sort by timestamp (insertion sort).
  function SortByTimestamp(s: seq<LyricLine>): (r: seq<LyricLine>)
    ensures |r| == |s|
    ensures multiset(r) == multiset(s)
  {
    if s == [] then []
    else
      assert s == [s[0]] + s[1..];
      InsertByTimestamp(s[0], SortByTimestamp(s[1..]))
  }

  lemma {:induction false} SortSorted(s: seq<LyricLine>)
    ensures SortedByTimestamp(SortByTimestamp(s))
  {
    if s != [] {
      SortSorted(s[1..]);
      InsertSorted(s[0], SortByTimestamp(s[1..]));
    }
  }

  lemma WithTimestampCons(x: LyricLine, s: seq<LyricLine>, t: int)
    ensures WithTimestamp([x] + s, t) == (if x.timestamp == t then [x] else []) + WithTimestamp(s, t)
  {
    assert ([x] + s)[0] == x && ([x] + s)[1..] == s;
  }

  lemma {:induction false} InsertKeepsTimestampOrder(x: LyricLine, s: seq<LyricLine>, t: int)
    ensures WithTimestamp(InsertByTimestamp(x, s), t)
         == (if x.timestamp == t then [x] else []) + WithTimestamp(s, t)
  {
    if s == [] || x.timestamp <= s[0].timestamp {
      WithTimestampCons(x, s, t);
    } else {
      assert InsertByTimestamp(x, s) == [s[0]] + InsertByTimestamp(x, s[1..]);
      assert [s[0]] + s[1..] == s;
      InsertKeepsTimestampOrder(x, s[1..], t);
      WithTimestampCons(s[0], InsertByTimestamp(x, s[1..]), t);
      WithTimestampCons(s[0], s[1..], t);
      SwapEmpty(if s[0].timestamp == t then [s[0]] else [], if x.timestamp == t then [x] else [],
                WithTimestamp(s[1..], t));
    }
  }

  /// Stability: the lines that share a timestamp keep their relative order.
  lemma {:induction false} SortKeepsTimestampOrder(s: seq<LyricLine>, t: int)
    ensures WithTimestamp(SortByTimestamp(s), t) == WithTimestamp(s, t)
  {
    if s != [] {
      SortKeepsTimestampOrder(s[1..], t);
      InsertKeepsTimestampOrder(s[0], SortByTimestamp(s[1..]), t);
    }
  }

  // ---------------------------------------------------------------------
  // parse_lyrics
  // ---------------------------------------------------------------------

  /// What `parse_lyrics` returns for a text.
  function Parse(lyricsText: string): seq<LyricLine> {
    SortByTimestamp(Emit(Lines(lyricsText)))
  }

  /// One pass of the loop keeps `pushed + Emit(rest) == Emit(all)`.
  lemma EmitAdvance(raw: seq<string>, i: nat, before: seq<LyricLine>, after: seq<LyricLine>, next: nat)
    requires i < |raw| && before + Emit(raw[i..]) == Emit(raw)
    requires after == before + StepAt(raw[i..]).pushed
    requires next == i + StepAt(raw[i..]).consumed
    ensures next <= |raw| && after + Emit(raw[next..]) == Emit(raw)
  {
    EmitFrom(raw, i, next);
    AppendAssoc(before, StepAt(raw[i..]).pushed, Emit(raw[next..]));
  }

  lemma EmitFrom(raw: seq<string>, i: nat, next: nat)
    requires i < |raw|
    requires next == i + StepAt(raw[i..]).consumed
    ensures next <= |raw|
    ensures Emit(raw[i..]) == StepAt(raw[i..]).pushed + Emit(raw[next..])
  {
    EmitUnfold(raw[i..]);
    DropTo(raw, i, StepAt(raw[i..]).consumed, next);
  }

  /// The look-ahead of `parse_lyrics`: the line after index `i` is taken
  /// as the translation of a line timed at `timestamp` when it is timed
  /// within the merge epsilon and its cleaned text is not empty.
  method LookAhead(linesVec: seq<string>, i: nat, timestamp: int) returns (translation: Option<string>)
    requires i < |linesVec|
    ensures translation == TranslationOf(timestamp, linesVec[i + 1..])
  {
    translation := None;
    if i + 1 < |linesVec| {
      assert linesVec[i + 1..][0] == linesVec[i + 1];
      var nextCaps := MatchTimed(linesVec[i + 1]);
      if nextCaps.Some? && Abs(nextCaps.value.timestamp - timestamp) < MergeEpsilonMs {
        var nextCleanText := CleanText(nextCaps.value.content);
        if nextCleanText != [] {
          translation := Some(nextCleanText);
        }
      }
      NextTranslation(timestamp, linesVec[i + 1..], nextCaps);
    } else {
      assert linesVec[i + 1..] == [];
    }
  }

  method ParseLyrics(lyricsText: string) returns (lines: seq<LyricLine>)
    ensures lines == Parse(lyricsText)
  {
    var linesVec := Lines(lyricsText);
    var pushed: seq<LyricLine> := [];
    var i := 0;
    while i < |linesVec|
      invariant 0 <= i <= |linesVec|
      invariant pushed + Emit(linesVec[i..]) == Emit(linesVec)
    {
      ghost var here := i;
      ghost var before := pushed;
      var line := linesVec[i];
      assert linesVec[here..][0] == line && linesVec[here..][1..] == linesVec[here + 1..];
      var caps := MatchTimed(line);
      if caps.Some? {
        var timestamp := caps.value.timestamp;
        var cleanText := CleanText(caps.value.content);
        var translation := LookAhead(linesVec, i, timestamp);
        if translation.Some? {
          i := i + 1;
        }
        StepTimed(linesVec[here..], caps.value);
        if cleanText != [] {
          pushed := pushed + [LyricLine(timestamp, cleanText, translation, [])];
        }
      } else if Trim(line) != [] && !StartsWith(line, "[") {
        StepUntimed(linesVec[here..]);
        pushed := pushed + [LyricLine(0, Trim(line), None, [])];
      } else {
        StepUntimed(linesVec[here..]);
      }
      i := i + 1;
      EmitAdvance(linesVec, here, before, pushed, i);
    }
    assert linesVec[i..] == [];
    assert pushed == pushed + Emit(linesVec[i..]);
    lines := SortByTimestamp(pushed);
  }

  // ---------------------------------------------------------------------
  // Properties of the parser
  // ---------------------------------------------------------------------

  /// The result is sorted by non-decreasing timestamp.
  lemma ParseSorted(lyricsText: string)
    ensures SortedByTimestamp(Parse(lyricsText))
  {
    SortSorted(Emit(Lines(lyricsText)));
  }

  /// The result holds exactly the pushed lines, and lines with equal
  /// timestamps appear in the order they were pushed.
  lemma ParseIsStableSort(lyricsText: string, t: int)
    ensures multiset(Parse(lyricsText)) == multiset(Emit(Lines(lyricsText)))
    ensures WithTimestamp(Parse(lyricsText), t) == WithTimestamp(Emit(Lines(lyricsText)), t)
  {
    SortKeepsTimestampOrder(Emit(Lines(lyricsText)), t);
  }

  /// No more lines than raw input lines; every line has non-empty trimmed
  /// text, no word timing and a non-negative time.
  lemma ParseBounds(lyricsText: string)
    ensures |Parse(lyricsText)| <= |Lines(lyricsText)|
    ensures forall l :: l in Parse(lyricsText) ==> WellParsed(l)
  {
    var e := Emit(Lines(lyricsText));
    EmitWellParsed(Lines(lyricsText));
    assert |Parse(lyricsText)| == |multiset(Parse(lyricsText))| == |multiset(e)| == |e|;
    forall l | l in Parse(lyricsText) ensures WellParsed(l) {
      assert l in multiset(Parse(lyricsText));
      assert l in multiset(e);
    }
  }

  lemma ParseEmpty()
    ensures Parse("") == []
  {
  }

  /// A timed line followed by a timed line within the epsilon whose cleaned
  /// text is not empty: the second becomes the first's translation and is
  /// not emitted on its own.
  lemma EmitMergesTranslation(raw: seq<string>, a: TimedRaw, b: TimedRaw)
    requires |raw| >= 2
    requires MatchTimed(raw[0]) == Some(a) && MatchTimed(raw[1]) == Some(b)
    requires Abs(b.timestamp - a.timestamp) < MergeEpsilonMs
    requires CleanText(a.content) != [] && CleanText(b.content) != []
    ensures Emit(raw)
         == [LyricLine(a.timestamp, CleanText(a.content), Some(CleanText(b.content)), [])]
            + Emit(raw[2..])
  {
    var line := LyricLine(a.timestamp, CleanText(a.content), Some(CleanText(b.content)), []);
    assert raw[1..][0] == raw[1];
    TranslationFromNext(a.timestamp, raw[1..], b);
    StepTimed(raw, a);
    assert StepAt(raw) == Step([line], 2);
    EmitUnfold(raw);
  }

  /// The translation line is consumed even when the line it belongs to has
  /// empty cleaned text: both vanish.
  lemma EmitDropsEmptyLineWithTranslation(raw: seq<string>, a: TimedRaw, b: TimedRaw)
    requires |raw| >= 2
    requires MatchTimed(raw[0]) == Some(a) && MatchTimed(raw[1]) == Some(b)
    requires Abs(b.timestamp - a.timestamp) < MergeEpsilonMs
    requires CleanText(a.content) == [] && CleanText(b.content) != []
    ensures Emit(raw) == Emit(raw[2..])
  {
    assert raw[1..][0] == raw[1];
    TranslationFromNext(a.timestamp, raw[1..], b);
    StepTimed(raw, a);
    assert StepAt(raw) == Step([], 2);
    EmitUnfold(raw);
    assert Emit(raw) == [] + Emit(raw[2..]);
  }

  /// Merging looks at the next raw line only: of three timed lines with the
  /// same time, the third is a line of its own.
  lemma EmitThreeWayCollision(raw: seq<string>, a: TimedRaw, b: TimedRaw, c: TimedRaw)
    requires |raw| == 3
    requires MatchTimed(raw[0]) == Some(a) && MatchTimed(raw[1]) == Some(b) && MatchTimed(raw[2]) == Some(c)
    requires a.timestamp == b.timestamp == c.timestamp
    requires CleanText(a.content) != [] && CleanText(b.content) != [] && CleanText(c.content) != []
    ensures Emit(raw)
         == [LyricLine(a.timestamp, CleanText(a.content), Some(CleanText(b.content)), []),
             LyricLine(c.timestamp, CleanText(c.content), None, [])]
  {
    EmitMergesTranslation(raw, a, b);
    EmitSingleTimed(raw[2..], c);
    ConsSingle(Emit(raw),
               LyricLine(a.timestamp, CleanText(a.content), Some(CleanText(b.content)), []),
               Emit(raw[2..]),
               LyricLine(c.timestamp, CleanText(c.content), None, []));
  }

  /// A lone timed line is emitted on its own, without a translation.
  lemma EmitSingleTimed(raw: seq<string>, a: TimedRaw)
    requires |raw| == 1 && MatchTimed(raw[0]) == Some(a) && CleanText(a.content) != []
    ensures Emit(raw) == [LyricLine(a.timestamp, CleanText(a.content), None, [])]
  {
    StepTimed(raw, a);
    EmitUnfold(raw);
    assert Emit(raw[1..]) == [];
  }

  /// An untimed line is kept, trimmed and at time 0, iff it is not blank and
  /// does not start with '['; metadata such as `[ar:...]` is dropped.
  lemma EmitUntimed(line: string, rest: seq<string>)
    requires MatchTimed(line).None?
    ensures KeepsUntimed(line) ==> Emit([line] + rest) == [LyricLine(0, Trim(line), None, [])] + Emit(rest)
    ensures !KeepsUntimed(line) ==> Emit([line] + rest) == Emit(rest)
  {
    assert ([line] + rest)[0] == line && ([line] + rest)[1..] == rest;
  }

  /// The tag fields of `m:s.f` written in decimal.
  function DecimalFields(m: nat, s: nat, f: nat): (r: TagFields)
    ensures WellFormed(r)
  {
    TagFields(NatToDigits(m), NatToDigits(s), NatToDigits(f))
  }

  lemma DecimalTimestamp(m: nat, s: nat, f: nat)
    ensures TimestampMs(DecimalFields(m, s, f)) == 60000 * m + 1000 * s + f
  {
    DigitsRoundTrip(m);
    DigitsRoundTrip(s);
    DigitsRoundTrip(f);
  }

  /// Trimmed text without '<' is its own cleaned text.
  lemma CleanTextOfPlain(s: string)
    requires IsTrimmed(s) && '<' !in s
    ensures CleanText(s) == s
  {
    StripWordTagsPlain(s);
    TrimOfTrimmed(s);
  }

  /// Round trip: a single line made of a well-formed tag and a plain lyric
  /// parses back to exactly that lyric at the tag's time (with
  /// DecimalTimestamp: `[m:s.f]lyric` is at 60000*m + 1000*s + f ms).
  lemma ParseTaggedLine(f: TagFields, lyric: string)
    requires WellFormed(f)
    requires lyric != [] && IsTrimmed(lyric) && '<' !in lyric && '\n' !in lyric
    ensures Parse(TagThen('[', f, ']', lyric)) == [LyricLine(TimestampMs(f), lyric, None, [])]
  {
    NoNewlineInTag('[', f, ']', lyric);
    MatchTimedTagged(f, lyric);
    CleanTextOfPlain(lyric);
    ParseOneTimedLine(TagThen('[', f, ']', lyric), TimedRaw(TimestampMs(f), lyric));
  }

  /// A text of one timed line parses to that line alone.
  lemma ParseOneTimedLine(text: string, a: TimedRaw)
    requires text != [] && '\n' !in text
    requires MatchTimed(text) == Some(a) && CleanText(a.content) != []
    ensures Parse(text) == [LyricLine(a.timestamp, CleanText(a.content), None, [])]
  {
    LinesOfSingleLine(text);
    assert [text][0] == text;
    EmitSingleTimed([text], a);
    assert SortByTimestamp([LyricLine(a.timestamp, CleanText(a.content), None, [])])
        == InsertByTimestamp(LyricLine(a.timestamp, CleanText(a.content), None, []), []);
  }

  /// A tag holds no line break, so a tagged line without one is one line.
  lemma NoNewlineInTag(open: char, f: TagFields, close: char, rest: string)
    requires WellFormed(f) && open != '\n' && close != '\n' && '\n' !in rest
    ensures '\n' !in TagThen(open, f, close, rest)
  {
    assert '\n' !in f.minutes && '\n' !in f.seconds && '\n' !in f.fraction;
  }
}
