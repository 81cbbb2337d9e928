/// ASCII models of the Rust `str` operations the lyrics engine relies on:
/// `trim`, `to_lowercase`, `contains`, `starts_with`, `replace(p, "")`,
/// `trim_start_matches(c)`, `lines` and decimal digit parsing.
module Text {

  /// Whitespace as `char::is_whitespace` sees it, restricted to ASCII.
  predicate IsWhitespace(c: char) {
    c == ' ' || c == '\t' || c == '\n' || c == '\r' || c == '\U{000B}' || c == '\U{000C}'
  }

  predicate IsBlank(s: string) {
    forall i :: 0 <= i < |s| ==> IsWhitespace(s[i])
  }

  /// Neither end of `s` is whitespace (what `trim` leaves behind).
  predicate IsTrimmed(s: string) {
    s == [] || (!IsWhitespace(s[0]) && !IsWhitespace(s[|s| - 1]))
  }

  function TrimStart(s: string): (r: string)
    ensures |r| <= |s| && r == s[|s| - |r|..]
    ensures forall i :: 0 <= i < |s| - |r| ==> IsWhitespace(s[i])
    ensures r != [] ==> !IsWhitespace(r[0])
    decreases |s|
  {
    if s != [] && IsWhitespace(s[0]) then TrimStart(s[1..]) else s
  }

  function TrimEnd(s: string): (r: string)
    ensures |r| <= |s| && r == s[..|r|]
    ensures forall i :: |r| <= i < |s| ==> IsWhitespace(s[i])
    ensures r != [] ==> !IsWhitespace(r[|r| - 1])
    decreases |s|
  {
    if s != [] && IsWhitespace(s[|s| - 1]) then TrimEnd(s[..|s| - 1]) else s
  }

  /// `str::trim`: the longest infix whose ends are not whitespace; empty
  /// exactly when the input is blank.
  function Trim(s: string): (r: string)
    ensures |r| <= |s| && IsTrimmed(r)
    ensures r == [] <==> IsBlank(s)
  {
    var t := TrimStart(s);
    var r := TrimEnd(t);
    assert r == [] ==> t == [];
    r
  }

  lemma {:induction false} TrimOfTrimmed(s: string)
    requires IsTrimmed(s)
    ensures Trim(s) == s
  {
    assert TrimStart(s) == s;
    assert TrimEnd(s) == s;
  }

  function LowerChar(c: char): char {
    if 'A' <= c <= 'Z' then (c as int + 32) as char else c
  }

  /// `str::to_lowercase` on ASCII letters; every other character is kept.
  function ToLower(s: string): (r: string)
    ensures |r| == |s|
    ensures forall i :: 0 <= i < |s| ==> r[i] == LowerChar(s[i])
  {
    seq(|s|, i requires 0 <= i < |s| => LowerChar(s[i]))
  }

  lemma ToLowerIdempotent(s: string)
    ensures ToLower(ToLower(s)) == ToLower(s)
  {
  }

  predicate StartsWith(s: string, p: string) {
    |p| <= |s| && s[..|p|] == p
  }

  /// `str::contains`: `p` occurs somewhere in `s` (the empty string occurs everywhere).
  predicate Contains(s: string, p: string)
    decreases |s|
  {
    StartsWith(s, p) || (s != [] && Contains(s[1..], p))
  }

  /// An occurrence of `p` at offset `i` is found.
  lemma {:induction false} ContainsAt(s: string, p: string, i: nat)
    requires i + |p| <= |s| && s[i..i + |p|] == p
    ensures Contains(s, p)
    decreases i
  {
    if i > 0 {
      ContainsAt(s[1..], p, i - 1);
      assert s[1..][i - 1..i - 1 + |p|] == s[i..i + |p|];
    }
  }

  /// A pattern holding a character that `s` lacks does not occur in `s`.
  lemma {:induction false} NotContainsMissing(s: string, p: string, i: nat)
    requires i < |p| && p[i] !in s
    ensures !Contains(s, p)
    decreases |s|
  {
    assert !StartsWith(s, p) by {
      assert |p| <= |s| ==> s[..|p|][i] == s[i] && s[i] in s;
    }
    if s != [] {
      NotContainsMissing(s[1..], p, i);
    }
  }

  /// `s.replace(p, "")`: the non-overlapping occurrences of `p`, found from
  /// left to right, are removed; an empty pattern leaves `s` as it is.
  function RemoveAll(s: string, p: string): (r: string)
    ensures |r| <= |s|
    decreases |s|
  {
    if p == [] || s == [] then s
    else if StartsWith(s, p) then RemoveAll(s[|p|..], p)
    else [s[0]] + RemoveAll(s[1..], p)
  }

  lemma {:induction false} RemoveAbsent(s: string, p: string)
    requires !Contains(s, p)
    ensures RemoveAll(s, p) == s
    decreases |s|
  {
    if p != [] && s != [] {
      RemoveAbsent(s[1..], p);
    }
  }

  /// `str::trim_start_matches(c)`: every leading `c` is removed.
  function TrimStartMatches(s: string, c: char): (r: string)
    ensures |r| <= |s| && r == s[|s| - |r|..]
    ensures r != [] ==> r[0] != c
    decreases |s|
  {
    if s != [] && s[0] == c then TrimStartMatches(s[1..], c) else s
  }

  function IndexOf(s: string, c: char): (k: nat)
    ensures k <= |s|
    ensures forall j :: 0 <= j < k ==> s[j] != c
    ensures k < |s| ==> s[k] == c
    decreases |s|
  {
    if s == [] || s[0] == c then 0 else 1 + IndexOf(s[1..], c)
  }

  function DropCarriageReturn(line: string): string {
    if line != [] && line[|line| - 1] == '\r' then line[..|line| - 1] else line
  }

  /// `str::lines`: split at each '\n', dropping a '\r' right before it; a
  /// final line terminator does not produce an empty last line.
  function Lines(s: string): (r: seq<string>)
    ensures |r| <= |s|
    ensures forall i :: 0 <= i < |r| ==> '\n' !in r[i]
    decreases |s|
  {
    if s == [] then []
    else
      var k := IndexOf(s, '\n');
      if k == |s| then [s]
      else
        assert '\n' !in s[..k];
        [DropCarriageReturn(s[..k])] + Lines(s[k + 1..])
  }

  lemma LinesOfSingleLine(s: string)
    requires s != [] && '\n' !in s
    ensures Lines(s) == [s]
  {
    assert IndexOf(s, '\n') == |s|;
  }

  predicate IsDigit(c: char) {
    '0' <= c <= '9'
  }

  predicate AllDigits(s: string) {
    forall i :: 0 <= i < |s| ==> IsDigit(s[i])
  }

  /// Length of the run of ASCII digits that starts `s` (what a greedy `\d+` eats).
  function DigitRun(s: string): (n: nat)
    ensures n <= |s| && AllDigits(s[..n])
    ensures n < |s| ==> !IsDigit(s[n])
    decreases |s|
  {
    if s == [] || !IsDigit(s[0]) then 0
    else
      var n := 1 + DigitRun(s[1..]);
      assert s[..n] == [s[0]] + s[1..][..n - 1];
      n
  }

  lemma DigitRunOfDigits(d: string, rest: string)
    requires AllDigits(d)
    requires rest != [] && !IsDigit(rest[0])
    ensures DigitRun(d + rest) == |d|
  {
    var s := d + rest;
    assert s[|d|] == rest[0];
    assert s[..|d|] == d;
  }

  function DigitValue(c: char): nat
    requires IsDigit(c)
  {
    c as int - '0' as int
  }

  /// Decimal value of a digit string (`str::parse` on ASCII digits).
  function DigitsValue(s: string): nat
    requires AllDigits(s)
    decreases |s|
  {
    if s == [] then 0 else 10 * DigitsValue(s[..|s| - 1]) + DigitValue(s[|s| - 1])
  }

  function DigitChar(d: nat): (c: char)
    requires d < 10
    ensures IsDigit(c) && DigitValue(c) == d
  {
    ('0' as int + d) as char
  }

  /// Decimal rendering of a natural number, the inverse of DigitsValue.
  function NatToDigits(n: nat): (s: string)
    ensures s != [] && AllDigits(s)
    decreases n
  {
    if n < 10 then [DigitChar(n)] else NatToDigits(n / 10) + [DigitChar(n % 10)]
  }

  lemma {:induction false} DigitsRoundTrip(n: nat)
    ensures DigitsValue(NatToDigits(n)) == n
    decreases n
  {
    var s := NatToDigits(n);
    if n >= 10 {
      DigitsRoundTrip(n / 10);
      assert s[..|s| - 1] == NatToDigits(n / 10);
    }
  }

  // Small facts about slices, stated once so that proofs can cite them.

  lemma SplitAt<T>(x: seq<T>, n: nat)
    requires n < |x|
    ensures x == x[..n] + ([x[n]] + x[n + 1..])
  {
  }

  lemma DropAfter<T>(d: seq<T>, c: T, r: seq<T>)
    ensures (d + ([c] + r))[..|d|] == d
    ensures (d + ([c] + r))[|d|] == c
    ensures (d + ([c] + r))[|d| + 1..] == r
  {
  }

  lemma DropDrop<T>(s: seq<T>, a: nat, b: nat)
    requires a + b <= |s|
    ensures s[a..][b..] == s[a + b..]
  {
  }

  lemma DropTo<T>(s: seq<T>, a: nat, b: nat, c: nat)
    requires c == a + b && c <= |s|
    ensures s[a..][b..] == s[c..]
  {
  }

  /// Two prefixes of which one is empty commute.
  lemma SwapEmpty<T>(a: seq<T>, b: seq<T>, c: seq<T>)
    requires a == [] || b == []
    ensures a + (b + c) == b + (a + c)
  {
  }

  lemma AppendAssoc<T>(a: seq<T>, b: seq<T>, c: seq<T>)
    ensures (a + b) + c == a + (b + c)
  {
  }

  lemma MovePrefix<T>(before: seq<T>, full: seq<T>, p: seq<T>, e: seq<T>, whole: seq<T>)
    requires before + full == whole && full == p + e
    ensures (before + p) + e == whole
  {
    AppendAssoc(before, p, e);
  }

  /// The shape of a tag: an opening element, three runs each closed by a
  /// delimiter, and what follows.
  function Pieces<T>(o: T, d1: seq<T>, c1: T, d2: seq<T>, c2: T, d3: seq<T>, c3: T, rest: seq<T>): seq<T> {
    [o] + (d1 + ([c1] + (d2 + ([c2] + (d3 + ([c3] + rest))))))
  }

  lemma DropPieces<T>(o: T, d1: seq<T>, c1: T, d2: seq<T>, c2: T, d3: seq<T>, c3: T, rest: seq<T>)
    ensures var s := Pieces(o, d1, c1, d2, c2, d3, c3, rest);
      |s| == |d1| + |d2| + |d3| + 4 + |rest| && s[|d1| + |d2| + |d3| + 4..] == rest
  {
    var p3 := d3 + ([c3] + rest);
    var p2 := d2 + ([c2] + p3);
    var p1 := d1 + ([c1] + p2);
    var s := [o] + p1;
    assert s[1..] == p1;
    DropAfter(d1, c1, p2);
    DropAfter(d2, c2, p3);
    DropAfter(d3, c3, rest);
    DropDrop(s, 1, |d1| + 1);
    DropDrop(s, |d1| + 2, |d2| + 1);
    DropDrop(s, |d1| + |d2| + 3, |d3| + 1);
  }

  /// The suffixes of `Pieces` that a left-to-right scan meets.
  lemma PiecesSuffixes<T>(o: T, d1: seq<T>, c1: T, d2: seq<T>, c2: T, d3: seq<T>, c3: T, rest: seq<T>)
    ensures var s := Pieces(o, d1, c1, d2, c2, d3, c3, rest);
      && s[0] == o
      && s[1..] == d1 + ([c1] + (d2 + ([c2] + (d3 + ([c3] + rest)))))
      && s[1..][|d1| + 1..] == d2 + ([c2] + (d3 + ([c3] + rest)))
      && s[1..][|d1| + 1..][|d2| + 1..] == d3 + ([c3] + rest)
      && s[1..][..|d1|] == d1
      && s[1..][|d1| + 1..][..|d2|] == d2
      && s[1..][|d1| + 1..][|d2| + 1..][..|d3|] == d3
  {
    var p3 := d3 + ([c3] + rest);
    var p2 := d2 + ([c2] + p3);
    var p1 := d1 + ([c1] + p2);
    var s := [o] + p1;
    assert s[1..] == p1;
    DropAfter(d1, c1, p2);
    DropAfter(d2, c2, p3);
    DropAfter(d3, c3, rest);
  }

  /// Any sequence cut at three positions is the `Pieces` of its parts.
  lemma CutPieces<T>(s: seq<T>, m: nat, sec: nat, fr: nat)
    requires s != [] && m < |s[1..]| && sec < |s[1..][m + 1..]| && fr < |s[1..][m + 1..][sec + 1..]|
    ensures var p1 := s[1..];
      var p2 := p1[m + 1..];
      var p3 := p2[sec + 1..];
      s == Pieces(s[0], p1[..m], p1[m], p2[..sec], p2[sec], p3[..fr], p3[fr], s[m + sec + fr + 4..])
  {
    var p1 := s[1..];
    var p2 := p1[m + 1..];
    var p3 := p2[sec + 1..];
    SplitAt(p3, fr);
    SplitAt(p2, sec);
    SplitAt(p1, m);
    assert s == [s[0]] + p1;
    DropDrop(s, 1, m + 1);
    DropDrop(s, m + 2, sec + 1);
    DropDrop(s, m + sec + 3, fr + 1);
  }

  /// The same cut, with the delimiters and fields named.
  lemma PiecesAt<T>(s: seq<T>, m: nat, sec: nat, fr: nat, o: T, c1: T, c2: T, c3: T, d1: seq<T>, d2: seq<T>, d3: seq<T>, n: nat)
    requires s != [] && m < |s[1..]| && sec < |s[1..][m + 1..]| && fr < |s[1..][m + 1..][sec + 1..]|
    requires s[0] == o && s[1..][m] == c1 && s[1..][m + 1..][sec] == c2 && s[1..][m + 1..][sec + 1..][fr] == c3
    requires d1 == s[1..][..m] && d2 == s[1..][m + 1..][..sec] && d3 == s[1..][m + 1..][sec + 1..][..fr]
    requires n == |d1| + |d2| + |d3| + 4
    ensures n <= |s| && s == Pieces(o, d1, c1, d2, c2, d3, c3, s[n..])
  {
    CutPieces(s, m, sec, fr);
  }

  lemma AppendFront<T>(a: seq<T>, b: seq<T>)
    ensures a == [] ==> a + b == b
    ensures a != [] ==> (a + b)[0] == a[0] && (a + b)[1..] == a[1..] + b
    ensures a != [] ==> [a[0]] + (a[1..] + b) == a + b
  {
  }

  lemma ConsSingle<T>(e: seq<T>, p: T, rest: seq<T>, q: T)
    requires e == [p] + rest && rest == [q]
    ensures e == [p, q]
  {
  }
}
