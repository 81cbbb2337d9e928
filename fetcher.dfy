/// Finding a song's lyrics: crates/shared/src/lyrics/fetcher.rs. The file
/// system is a listing of `(stem, extension, content)` entries in iteration
/// order; the embedded lyrics tag of the playing file is an input.
module Fetcher {
  import opened Models
  import opened Text
  import Parser

  /// One directory entry: file stem, extension and text.
  datatype DirEntry = DirEntry(stem: string, ext: string, content: string)

  /// A fuzzy candidate must score strictly above this.
  const Threshold: real := 0.6

  /// `"{artist} - {title}"`, the exact file's stem.
  function ExpectedStem(artist: string, title: string): (s: string)
    ensures |s| == |artist| + 3 + |title|
  {
    artist + " - " + title
  }

  predicate IsLrc(e: DirEntry) {
    e.ext == "lrc"
  }

  // ------------------------------------------------------------ exact file

  predicate IsExactFile(e: DirEntry, artist: string, title: string) {
    e.stem == ExpectedStem(artist, title) && IsLrc(e)
  }

  /// Where the file `"{artist} - {title}.lrc"` is in the listing
  /// (`|entries|` when there is none).
  function FindExact(entries: seq<DirEntry>, artist: string, title: string): (k: nat)
    ensures k <= |entries|
    ensures forall j :: 0 <= j < k ==> !IsExactFile(entries[j], artist, title)
    ensures k < |entries| ==> IsExactFile(entries[k], artist, title)
    decreases |entries|
  {
    if entries == [] || IsExactFile(entries[0], artist, title) then 0
    else 1 + FindExact(entries[1..], artist, title)
  }

  /// `try_exact_match`: the exact file's lines, when it exists and is not empty.
  function ExactMatch(entries: seq<DirEntry>, artist: string, title: string): Option<seq<LyricLine>> {
    var k := FindExact(entries, artist, title);
    if k < |entries| && entries[k].content != [] then Some(Parser.Parse(entries[k].content)) else None
  }

  // ------------------------------------------------------------ fuzzy score

  /// The title with the artist cut out and separating dashes and blanks
  /// trimmed, for titles that embed the artist.
  function TitleWithoutArtist(titleLower: string, artistLower: string): string {
    Trim(TrimStartMatches(Trim(RemoveAll(titleLower, artistLower)), '-'))
  }

  /// `min / max` of two lengths, the closeness of the stem to the expected one.
  function LengthRatio(a: nat, b: nat): (r: real)
    requires a > 0 || b > 0
    ensures 0.0 <= r <= 1.0
    ensures r == 1.0 <==> a == b
  {
    var lo := Min(a, b) as real;
    var hi := Max(a, b) as real;
    RatioBounds(lo, hi);
    lo / hi
  }

  lemma RatioBounds(lo: real, hi: real)
    requires 0.0 <= lo <= hi && hi > 0.0
    ensures 0.0 <= lo / hi <= 1.0
    ensures lo / hi == 1.0 <==> lo == hi
  {
    assert lo / hi * hi == lo;
  }

  /// The similarity of a file stem to the song, from the table of
  /// `try_fuzzy_match` (the stem, artist and title compared lower-cased).
  function FuzzyScore(artist: string, title: string, stem: string): real {
    var artistLower := ToLower(artist);
    var titleLower := ToLower(title);
    var filenameLower := ToLower(stem);
    match (Contains(filenameLower, artistLower), Contains(filenameLower, titleLower))
    case (true, true) =>
      var expected := ToLower(ExpectedStem(artist, title));
      0.8 + LengthRatio(|expected|, |filenameLower|) * 0.2
    case (true, false) =>
      if Contains(titleLower, artistLower) then
        var rest := TitleWithoutArtist(titleLower, artistLower);
        if rest != [] && Contains(filenameLower, rest) then 0.75 else 0.4
      else 0.4
    case (false, true) => 0.5
    case (false, false) => 0.0
  }

  /// The score table, case by case.
  lemma ScoreTable(artist: string, title: string, stem: string)
    // artist and title both present: 0.8 to 1.0, 1.0 exactly for a stem as long as the expected one
    ensures Contains(ToLower(stem), ToLower(artist)) && Contains(ToLower(stem), ToLower(title)) ==>
      0.8 <= FuzzyScore(artist, title, stem) <= 1.0 &&
      (FuzzyScore(artist, title, stem) == 1.0 <==> |stem| == |ExpectedStem(artist, title)|)
    // artist only: 0.75 for a title that embeds the artist with the rest in the stem, else 0.4
    ensures Contains(ToLower(stem), ToLower(artist)) && !Contains(ToLower(stem), ToLower(title)) ==>
      (FuzzyScore(artist, title, stem) == 0.75 <==>
        Contains(ToLower(title), ToLower(artist)) &&
        TitleWithoutArtist(ToLower(title), ToLower(artist)) != [] &&
        Contains(ToLower(stem), TitleWithoutArtist(ToLower(title), ToLower(artist)))) &&
      (FuzzyScore(artist, title, stem) == 0.75 || FuzzyScore(artist, title, stem) == 0.4)
    // title only
    ensures !Contains(ToLower(stem), ToLower(artist)) && Contains(ToLower(stem), ToLower(title)) ==>
      FuzzyScore(artist, title, stem) == 0.5
    // neither
    ensures !Contains(ToLower(stem), ToLower(artist)) && !Contains(ToLower(stem), ToLower(title)) ==>
      FuzzyScore(artist, title, stem) == 0.0
  {
  }

  function EntryScore(e: DirEntry, artist: string, title: string): real {
    FuzzyScore(artist, title, e.stem)
  }

  // ----------------------------------------------------------- fuzzy choice

  /// An entry that ends the scan at once: a `.lrc` file scoring exactly 1.0
  /// whose text is not empty.
  predicate IsPerfect(e: DirEntry, artist: string, title: string) {
    IsLrc(e) && EntryScore(e, artist, title) == 1.0 && e.content != []
  }

  /// The first perfect entry (`|entries|` when there is none).
  function FirstPerfect(entries: seq<DirEntry>, artist: string, title: string): (k: nat)
    ensures k <= |entries|
    ensures forall j :: 0 <= j < k ==> !IsPerfect(entries[j], artist, title)
    ensures k < |entries| ==> IsPerfect(entries[k], artist, title)
    decreases |entries|
  {
    if entries == [] || IsPerfect(entries[0], artist, title) then 0
    else 1 + FirstPerfect(entries[1..], artist, title)
  }

  /// The entry at `i` is the first perfect one (or there is none, at
  /// `|entries|`) when no entry before it is perfect.
  lemma FirstPerfectIs(entries: seq<DirEntry>, artist: string, title: string, i: nat)
    requires i <= |entries|
    requires forall j :: 0 <= j < i ==> !IsPerfect(entries[j], artist, title)
    requires i < |entries| ==> IsPerfect(entries[i], artist, title)
    ensures FirstPerfect(entries, artist, title) == i
  {
  }

  /// The score of each entry the scan considers; other entries are skipped.
  function Scores(entries: seq<DirEntry>, artist: string, title: string): (r: seq<Option<real>>)
    ensures |r| == |entries|
    ensures forall j :: 0 <= j < |entries| ==>
      r[j] == if IsLrc(entries[j]) then Some(EntryScore(entries[j], artist, title)) else None
  {
    seq(|entries|, j requires 0 <= j < |entries| =>
      if IsLrc(entries[j]) then Some(EntryScore(entries[j], artist, title)) else None)
  }

  /// The best candidate so far and its score (the threshold while there is none).
  datatype Pick = Pick(best: Option<nat>, score: real)

  /// The running best over the first `n` scores: a score replaces it only
  /// when it is strictly higher.
  function BestUpTo(scores: seq<Option<real>>, n: nat): (p: Pick)
    requires n <= |scores|
    ensures p.best.None? ==> p.score == Threshold
    ensures p.best.Some? ==> p.best.value < n && scores[p.best.value] == Some(p.score)
  {
    if n == 0 then Pick(None, Threshold)
    else if scores[n - 1].Some? && scores[n - 1].value > BestUpTo(scores, n - 1).score then
      Pick(Some(n - 1), scores[n - 1].value)
    else
      BestUpTo(scores, n - 1)
  }

  /// One more score: it becomes the best exactly when it beats the best so far.
  lemma BestAdvance(scores: seq<Option<real>>, i: nat, score: Option<real>)
    requires i < |scores| && scores[i] == score
    ensures BestUpTo(scores, i + 1) ==
      if score.Some? && score.value > BestUpTo(scores, i).score then Pick(Some(i), score.value)
      else BestUpTo(scores, i)
  {
  }

  /// The running best score is at least the threshold and at least every
  /// score seen.
  lemma {:induction false} BestIsMaximum(scores: seq<Option<real>>, n: nat)
    requires n <= |scores|
    ensures BestUpTo(scores, n).score >= Threshold
    ensures forall j :: 0 <= j < n && scores[j].Some? ==> scores[j].value <= BestUpTo(scores, n).score
  {
    if n > 0 {
      BestIsMaximum(scores, n - 1);
    }
  }

  /// The chosen entry beats the threshold and every score before it, so of
  /// equal maxima the first is chosen; with no choice, nothing beats the
  /// threshold.
  lemma {:induction false} BestIsFirst(scores: seq<Option<real>>, n: nat)
    requires n <= |scores|
    ensures BestUpTo(scores, n).best.Some? ==>
      BestUpTo(scores, n).score > Threshold &&
      forall j :: 0 <= j < BestUpTo(scores, n).best.value && scores[j].Some? ==>
        scores[j].value < BestUpTo(scores, n).score
    ensures BestUpTo(scores, n).best.None? ==>
      forall j :: 0 <= j < n && scores[j].Some? ==> scores[j].value <= Threshold
  {
    if n > 0 {
      BestIsFirst(scores, n - 1);
      BestIsMaximum(scores, n - 1);
    }
  }

  /// `try_fuzzy_match`: the first perfect entry's lines if there is one, else
  /// the best candidate's lines when its text is not empty.
  function FuzzyMatch(entries: seq<DirEntry>, artist: string, title: string): Option<seq<LyricLine>> {
    var k := FuzzyChoice(entries, artist, title);
    if k.Some? then Some(Parser.Parse(entries[k.value].content)) else None
  }

  /// The entry `try_fuzzy_match` reads its lines from, if any.
  function FuzzyChoice(entries: seq<DirEntry>, artist: string, title: string): (k: Option<nat>)
    ensures k.Some? ==> k.value < |entries| && entries[k.value].content != []
  {
    var p := FirstPerfect(entries, artist, title);
    if p < |entries| then Some(p)
    else
      var best := BestUpTo(Scores(entries, artist, title), |entries|).best;
      if best.Some? && entries[best.value].content != [] then best else None
  }

  /// A fuzzy result always comes from a `.lrc` entry with non-empty text that
  /// scores above the threshold, hence at least 0.75: an artist-only (0.4) or
  /// title-only (0.5) match is never taken.
  lemma {:induction false} FuzzyMatchSource(entries: seq<DirEntry>, artist: string, title: string)
    ensures FuzzyMatch(entries, artist, title).Some? ==>
      exists k :: 0 <= k < |entries| && IsLrc(entries[k]) && entries[k].content != [] &&
        EntryScore(entries[k], artist, title) >= 0.75 &&
        FuzzyMatch(entries, artist, title) == Some(Parser.Parse(entries[k].content))
  {
    var k := FirstPerfect(entries, artist, title);
    if k == |entries| {
      BestIsFirst(Scores(entries, artist, title), |entries|);
      var best := BestUpTo(Scores(entries, artist, title), |entries|).best;
      if best.Some? && entries[best.value].content != [] {
        ScoreAboveThreshold(artist, title, entries[best.value].stem);
      }
    }
  }

  /// Scores above 0.6 are 0.75 or at least 0.8.
  lemma ScoreAboveThreshold(artist: string, title: string, stem: string)
    requires FuzzyScore(artist, title, stem) > Threshold
    ensures FuzzyScore(artist, title, stem) >= 0.75
  {
    ScoreTable(artist, title, stem);
  }

  /// When nothing is perfect and no `.lrc` entry scores above 0.6, the scan
  /// finds nothing.
  lemma {:induction false} FuzzyMatchNone(entries: seq<DirEntry>, artist: string, title: string)
    requires forall j :: 0 <= j < |entries| && IsLrc(entries[j]) ==> EntryScore(entries[j], artist, title) <= Threshold
    ensures FuzzyMatch(entries, artist, title) == None
  {
    BestIsMaximum(Scores(entries, artist, title), |entries|);
  }

  // ----------------------------------------------------------------- lookup

  /// `get_lyrics`: the embedded tag of the playing file (when the song has a
  /// url), then the exact file, then the fuzzy scan; `folder` is None when
  /// the lyrics folder is missing or is not a directory.
  function LookupLyrics(song: SongInfo, tag: Option<string>, folder: Option<seq<DirEntry>>): Option<seq<LyricLine>> {
    if song.url.Some? && tag.Some? then Some(Parser.Parse(tag.value))
    else if folder.None? then None
    else if ExactMatch(folder.value, song.artist, song.title).Some? then ExactMatch(folder.value, song.artist, song.title)
    else FuzzyMatch(folder.value, song.artist, song.title)
  }

  /// An embedded tag wins even when it parses to no lines, and then no file
  /// is looked at.
  lemma EmbeddedFirst(song: SongInfo, tag: string, folder: Option<seq<DirEntry>>, other: Option<seq<DirEntry>>)
    requires song.url.Some?
    ensures LookupLyrics(song, Some(tag), folder) == Some(Parser.Parse(tag))
    ensures LookupLyrics(song, Some(tag), folder) == LookupLyrics(song, Some(tag), other)
    ensures tag == [] ==> LookupLyrics(song, Some(tag), folder) == Some([])
  {
    Parser.ParseEmpty();
  }

  /// Without a tag and without a folder there are no lyrics.
  lemma MissingFolder(song: SongInfo, tag: Option<string>)
    requires song.url.None? || tag.None?
    ensures LookupLyrics(song, tag, None) == None
  {
  }

  /// A non-empty exact file is used whatever else the folder holds.
  lemma {:induction false} ExactBeforeFuzzy(song: SongInfo, tag: Option<string>, entries: seq<DirEntry>, k: nat)
    requires song.url.None? || tag.None?
    requires k < |entries| && IsExactFile(entries[k], song.artist, song.title) && entries[k].content != []
    requires forall j :: 0 <= j < k ==> !IsExactFile(entries[j], song.artist, song.title)
    ensures LookupLyrics(song, tag, Some(entries)) == Some(Parser.Parse(entries[k].content))
  {
    assert FindExact(entries, song.artist, song.title) == k;
  }

  /// An exact file with empty text is passed over: the fuzzy scan decides.
  lemma ExactEmptyFallsThrough(song: SongInfo, tag: Option<string>, entries: seq<DirEntry>)
    requires song.url.None? || tag.None?
    requires forall j :: 0 <= j < |entries| && IsExactFile(entries[j], song.artist, song.title) ==> entries[j].content == []
    ensures LookupLyrics(song, tag, Some(entries)) == FuzzyMatch(entries, song.artist, song.title)
  {
  }

  /// "bohemian-rhapsody-queen" holds "queen"...
  lemma HyphenatedStemHasArtist()
    ensures Contains("bohemian-rhapsody-queen", "queen")
  {
    ContainsAt("bohemian-rhapsody-queen", "queen", 18);
  }

  /// ... but not "bohemian rhapsody" (it has no blank) ...
  lemma HyphenatedStemLacksTitle()
    ensures !Contains("bohemian-rhapsody-queen", "bohemian rhapsody")
  {
    NotContainsMissing("bohemian-rhapsody-queen", "bohemian rhapsody", 8);
  }

  /// ... and "bohemian rhapsody" does not hold "queen".
  lemma TitleLacksArtist()
    ensures !Contains("bohemian rhapsody", "queen")
  {
    NotContainsMissing("bohemian rhapsody", "queen", 0);
  }

  /// A stem named like "bohemian-rhapsody-queen" for "Queen" /
  /// "Bohemian Rhapsody" matches the artist only and scores 0.4, so it is
  /// never chosen.
  lemma {:induction false} HyphenatedStemIsArtistOnly(artist: string, title: string, stem: string)
    requires ToLower(artist) == "queen"
    requires ToLower(title) == "bohemian rhapsody"
    requires ToLower(stem) == "bohemian-rhapsody-queen"
    ensures FuzzyScore(artist, title, stem) == 0.4
  {
    HyphenatedStemHasArtist();
    HyphenatedStemLacksTitle();
    TitleLacksArtist();
  }

  /// A folder holding only such a file yields no lyrics: the exact name is
  /// absent and the one fuzzy candidate is below the threshold.
  lemma {:induction false} HyphenatedOnlyFindsNothing(song: SongInfo, tag: Option<string>, entries: seq<DirEntry>)
    requires song.url.None? || tag.None?
    requires ToLower(song.artist) == "queen"
    requires ToLower(song.title) == "bohemian rhapsody"
    requires |entries| == 1 && ToLower(entries[0].stem) == "bohemian-rhapsody-queen"
    ensures LookupLyrics(song, tag, Some(entries)) == None
  {
    HyphenatedStemIsArtistOnly(song.artist, song.title, entries[0].stem);
    LoneWeakCandidate(song, tag, entries);
  }

  /// One entry that is not the exact file and scores at most the threshold.
  lemma {:induction false} LoneWeakCandidate(song: SongInfo, tag: Option<string>, entries: seq<DirEntry>)
    requires song.url.None? || tag.None?
    requires |entries| == 1 && |entries[0].stem| != |ExpectedStem(song.artist, song.title)|
    requires EntryScore(entries[0], song.artist, song.title) <= Threshold
    ensures LookupLyrics(song, tag, Some(entries)) == None
  {
    assert !IsExactFile(entries[0], song.artist, song.title);
    forall j | 0 <= j < |entries| && IsLrc(entries[j])
      ensures EntryScore(entries[j], song.artist, song.title) <= Threshold
    {
      assert j == 0;
    }
    FuzzyMatchNone(entries, song.artist, song.title);
  }

  /// "unrelated" does not hold "bohemian rhapsody" (it has no 'b').
  lemma UnrelatedLacksTitle()
    ensures !Contains("unrelated", "bohemian rhapsody")
  {
    NotContainsMissing("unrelated", "bohemian rhapsody", 0);
  }

  /// A stem sharing nothing with the song scores 0.
  lemma {:induction false} UnrelatedStem(artist: string, title: string, stem: string)
    requires ToLower(artist) == "queen"
    requires ToLower(title) == "bohemian rhapsody"
    requires ToLower(stem) == "unrelated"
    ensures FuzzyScore(artist, title, stem) == 0.0
  {
    NotContainsMissing("unrelated", "queen", 0);
    UnrelatedLacksTitle();
  }

  // ---------------------------------------------------------------- methods

  /// `try_exact_match`.
  method TryExactMatch(entries: seq<DirEntry>, song: SongInfo) returns (r: Option<seq<LyricLine>>)
    ensures r == ExactMatch(entries, song.artist, song.title)
  {
    var k := FindExact(entries, song.artist, song.title);
    if k < |entries| {
      var lyrics := entries[k].content;
      if lyrics != [] {
        var lines := Parser.ParseLyrics(lyrics);
        return Some(lines);
      }
    }
    return None;
  }

  /// `try_fuzzy_match`: one pass over the listing keeping the best candidate,
  /// returning early on a perfect one.
  method TryFuzzyMatch(entries: seq<DirEntry>, song: SongInfo) returns (r: Option<seq<LyricLine>>)
    ensures r == FuzzyMatch(entries, song.artist, song.title)
  {
    var k := FuzzyCandidate(entries, song);
    if k.Some? {
      var lines := Parser.ParseLyrics(entries[k.value].content);
      return Some(lines);
    }
    return None;
  }

  /// The scan of `try_fuzzy_match`: the index of the entry whose lines it
  /// returns, if any.
  method FuzzyCandidate(entries: seq<DirEntry>, song: SongInfo) returns (k: Option<nat>)
    ensures k == FuzzyChoice(entries, song.artist, song.title)
  {
    var bestMatch: Option<nat> := None;
    var bestScore := Threshold;
    var i := 0;
    while i < |entries|
      invariant 0 <= i <= |entries|
      invariant Pick(bestMatch, bestScore) == BestUpTo(Scores(entries, song.artist, song.title), i)
      invariant forall j :: 0 <= j < i ==> !IsPerfect(entries[j], song.artist, song.title)
    {
      var perfect;
      perfect, bestMatch, bestScore := ScanEntry(entries, i, song, bestMatch, bestScore);
      if perfect {
        ChoiceAtPerfect(entries, song.artist, song.title, i);
        return Some(i);
      }
      i := i + 1;
    }
    ChoiceAfterScan(entries, song.artist, song.title, bestMatch, bestScore);
    if bestMatch.Some? && entries[bestMatch.value].content != [] {
      return bestMatch;
    }
    return None;
  }

  /// The early return: the first perfect entry is the choice.
  lemma ChoiceAtPerfect(entries: seq<DirEntry>, artist: string, title: string, i: nat)
    requires i < |entries| && IsPerfect(entries[i], artist, title)
    requires forall j :: 0 <= j < i ==> !IsPerfect(entries[j], artist, title)
    ensures FuzzyChoice(entries, artist, title) == Some(i)
  {
    FirstPerfectIs(entries, artist, title, i);
  }

  /// After a full scan with no perfect entry, the running best is the
  /// choice when its text is not empty, and there is none otherwise.
  lemma ChoiceAfterScan(entries: seq<DirEntry>, artist: string, title: string, best: Option<nat>, score: real)
    requires forall j :: 0 <= j < |entries| ==> !IsPerfect(entries[j], artist, title)
    requires Pick(best, score) == BestUpTo(Scores(entries, artist, title), |entries|)
    ensures best.Some? ==> best.value < |entries|
    ensures FuzzyChoice(entries, artist, title)
         == if best.Some? && entries[best.value].content != [] then best else None
  {
    FirstPerfectIs(entries, artist, title, |entries|);
  }

  /// One pass of the loop of `try_fuzzy_match` over entry `i`: whether it
  /// ends the scan, and otherwise the running best after it.
  method ScanEntry(entries: seq<DirEntry>, i: nat, song: SongInfo, bestMatch: Option<nat>, bestScore: real)
    returns (perfect: bool, newMatch: Option<nat>, newScore: real)
    requires i < |entries|
    requires Pick(bestMatch, bestScore) == BestUpTo(Scores(entries, song.artist, song.title), i)
    ensures perfect <==> IsPerfect(entries[i], song.artist, song.title)
    ensures Pick(newMatch, newScore) == BestUpTo(Scores(entries, song.artist, song.title), i + 1)
  {
    var entry := entries[i];
    newMatch, newScore := bestMatch, bestScore;
    if entry.ext != "lrc" {
      BestAdvance(Scores(entries, song.artist, song.title), i, None);
      return false, newMatch, newScore;
    }
    var score := FuzzyScore(song.artist, song.title, entry.stem);
    BestAdvance(Scores(entries, song.artist, song.title), i, Some(score));
    perfect := score == 1.0 && entry.content != [];
    if score > bestScore {
      newScore := score;
      newMatch := Some(i);
    }
  }

  /// `get_lyrics`.
  method GetLyrics(song: SongInfo, tag: Option<string>, folder: Option<seq<DirEntry>>) returns (r: Option<seq<LyricLine>>)
    ensures r == LookupLyrics(song, tag, folder)
  {
    if song.url.Some? && tag.Some? {
      var lyrics := Parser.ParseLyrics(tag.value);
      return Some(lyrics);
    }
    if folder.None? {
      return None;
    }
    var exact := TryExactMatch(folder.value, song);
    if exact.Some? {
      return exact;
    }
    var fuzzy := TryFuzzyMatch(folder.value, song);
    if fuzzy.Some? {
      return fuzzy;
    }
    return None;
  }
}
