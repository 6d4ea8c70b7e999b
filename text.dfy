/**
 * String helpers and the handful of regular expressions the scraper
 * uses, each written out as an explicit matcher.
 *
 * Python's `re.search(p, s)` tries the positions of `s` from left to right
 * and returns the first one where `p` matches. `Search` is that loop and
 * `MatchAt` says, for each pattern the scraper uses, whether it matches at
 * one position and what its groups capture. Greedy quantifiers never need
 * to backtrack in these patterns: every run they consume is followed by a
 * character the run cannot contain. So each run is simply the maximal one.
 */
module Text {
  import opened Wrappers

  predicate IsDigit(c: char) { '0' <= c <= '9' }

  /** Python's `str.isspace`, which is also what `\s` matches in a `str`
      pattern: the ASCII controls 9-13 and 28-31, the space, and the Unicode
      separators and spaces (NEL, no-break space, Ogham space mark, the
      spaces U+2000-U+200A, the line and paragraph separators, the narrow
      no-break space, the medium mathematical space and the ideographic space). */
  predicate IsSpace(c: char)
  {
    || c == ' ' || ('\t' <= c <= '\r') || (28 <= c as int <= 31)
    || c == '\U{0085}' || c == '\U{00A0}' || c == '\U{1680}'
    || ('\U{2000}' <= c <= '\U{200A}') || c == '\U{2028}' || c == '\U{2029}'
    || c == '\U{202F}' || c == '\U{205F}' || c == '\U{3000}'
  }

  /** `w` whitespace characters start at index `k` of `s`. */
  predicate Spaces(s: string, k: nat, w: nat) { k + w <= |s| && forall j :: k <= j < k + w ==> IsSpace(s[j]) }

  /** `\w` restricted to ASCII: letters, digits and the underscore. */
  predicate IsWordChar(c: char) { ('a' <= c <= 'z') || ('A' <= c <= 'Z') || IsDigit(c) || c == '_' }

  predicate AllDigits(s: string) { forall k :: 0 <= k < |s| ==> IsDigit(s[k]) }

  /** Python's `s.startswith(p)`. */
  predicate IsPrefix(p: string, s: string) { |p| <= |s| && s[..|p|] == p }

  /** `t` occurs in `s` starting at index `i`. */
  predicate OccursAt(t: string, s: string, i: nat) { i + |t| <= |s| && s[i..i + |t|] == t }

  // ---------------------------------------------------------------------
  // Character runs

  /** The character classes that the patterns repeat with `+` or `*`. */
  datatype CharClass = DigitClass | SpaceClass | CoordClass | NotCloseParenClass

  predicate InClass(k: CharClass, c: char)
  {
    match k
    case DigitClass => IsDigit(c)
    case SpaceClass => IsSpace(c)
    case CoordClass => IsDigit(c) || c == '.'
    case NotCloseParenClass => c != ')'
  }

  /** `t` consists of characters of class `k`. */
  predicate AllIn(k: CharClass, t: string) { forall j :: 0 <= j < |t| ==> InClass(k, t[j]) }

  /** Length of the longest run of class `k` that starts at index `i`. */
  function RunLength(s: string, i: nat, k: CharClass): (n: nat)
    requires i <= |s|
    ensures i + n <= |s|
    ensures i + n < |s| ==> !InClass(k, s[i + n])
    decreases |s| - i
  {
    if i < |s| && InClass(k, s[i]) then 1 + RunLength(s, i + 1, k) else 0
  }

  /** Every character of the run is of class `k`. */
  lemma RunLengthAllIn(s: string, i: nat, k: CharClass)
    requires i <= |s|
    ensures AllIn(k, s[i..i + RunLength(s, i, k)])
  {
    var t := s[i..i + RunLength(s, i, k)];
    RunLengthRun(s, i, k);
    forall j | 0 <= j < |t| ensures InClass(k, t[j]) {
      assert t[j] == s[i + j];
    }
  }

  /** `RunLengthAllIn`, said of the indices of `s`. */
  lemma {:induction false} RunLengthRun(s: string, i: nat, k: CharClass)
    requires i <= |s|
    ensures forall j :: i <= j < i + RunLength(s, i, k) ==> InClass(k, s[j])
    decreases |s| - i
  {
    if RunLength(s, i, k) > 0 {
      RunLengthRun(s, i + 1, k);
    }
  }

  // ---------------------------------------------------------------------
  // The patterns

  datatype Pattern =
    | DigitRun                 // (\d+)
    | IdAfter(marker: string)  // <marker>(\d+), e.g. /decor/(\d+)
    | Parenthesised            // \(([^)]+)\)
    | Waypoint                 // /way\s+([\d.]+)\s+([\d.]+)
    | Quantity                 // (\d+)\s*x|x\s*(\d+)|\((\d+)\), case-insensitive
    | Literal(text: string)    // a plain substring, as in Python's `in`
  {
    /** How many groups a match reports. */
    function GroupCount(): nat
    {
      match this
      case Waypoint => 2
      case Literal(_) => 0
      case _ => 1
    }

    /** The single group is a digit string. */
    predicate HasNumericGroup()
    {
      DigitRun? || IdAfter? || Quantity?
    }
  }

  predicate IsX(c: char) { c == 'x' || c == 'X' }

  /** Whether `p` matches at index `i` of `s`, and the groups it captures.
      For `Quantity` the one group is whichever alternative matched
      (the source reads `group(1) or group(2) or group(3)`). */
  function MatchAt(p: Pattern, s: string, i: nat): (m: Option<seq<string>>)
    requires i <= |s|
    ensures m.Some? ==> |m.value| == p.GroupCount()
    ensures m.Some? && p.HasNumericGroup() ==> m.value[0] != [] && AllDigits(m.value[0])
  {
    match p
    case DigitRun => DigitsAt(s, i)
    case IdAfter(marker) => if OccursAt(marker, s, i) then DigitsAt(s, i + |marker|) else None
    case Parenthesised => ParenthesisedAt(s, i)
    case Waypoint => WaypointAt(s, i)
    case Quantity => QuantityAt(s, i)
    case Literal(t) => if OccursAt(t, s, i) then Some([]) else None
  }

  /** `(\d+)` at `i`: the maximal digit run there. */
  function DigitsAt(s: string, i: nat): (m: Option<seq<string>>)
    requires i <= |s|
    ensures m.Some? ==> |m.value| == 1 && m.value[0] != [] && AllDigits(m.value[0])
    ensures m.Some? <==> i < |s| && IsDigit(s[i])
    ensures m.Some? ==> m.value[0] == s[i..i + RunLength(s, i, DigitClass)]
  {
    var n := RunLength(s, i, DigitClass);
    RunLengthAllIn(s, i, DigitClass);
    if n > 0 then Some([s[i..i + n]]) else None
  }

  /** `\(([^)]+)\)` at `i`: an opening parenthesis, at least one other
      character, and the first closing parenthesis after it. */
  function ParenthesisedAt(s: string, i: nat): (m: Option<seq<string>>)
    requires i <= |s|
    ensures m.Some? ==> |m.value| == 1 && m.value[0] != [] && ')' !in m.value[0]
  {
    if i < |s| && s[i] == '(' then
      var n := RunLength(s, i + 1, NotCloseParenClass);
      RunLengthAllIn(s, i + 1, NotCloseParenClass);
      if n > 0 && i + 1 + n < |s| then Some([s[i + 1..i + 1 + n]]) else None
    else None
  }

  /** `/way\s+([\d.]+)\s+([\d.]+)` at `i`. */
  function WaypointAt(s: string, i: nat): (m: Option<seq<string>>)
    requires i <= |s|
    ensures m.Some? ==> |m.value| == 2 && m.value[0] != [] && m.value[1] != []
  {
    if WayAt(s, i) then
      match SpacedCoords(s, i + 4)
      case None => None
      case Some(x) =>
        match SpacedCoords(s, x.0 + x.1)
        case None => None
        case Some(y) => Some(RunPair(s, x, y))
    else None
  }

  /** `/way` occurs at `i`, compared character by character. */
  predicate WayAt(s: string, i: nat)
  {
    i + 4 <= |s| && s[i] == '/' && s[i + 1] == 'w' && s[i + 2] == 'a' && s[i + 3] == 'y'
  }

  /** The two substrings that the runs `x` and `y` (start, length) cover. */
  function RunPair(s: string, x: (nat, nat), y: (nat, nat)): (g: seq<string>)
    requires x.0 + x.1 <= |s| && y.0 + y.1 <= |s|
    ensures |g| == 2 && |g[0]| == x.1 && |g[1]| == y.1
  {
    [s[x.0..x.0 + x.1], s[y.0..y.0 + y.1]]
  }

  /** `\s+([\d.]+)` at `k`: where the run of digits and dots starts, and
      its length. */
  function SpacedCoords(s: string, k: nat): (r: Option<(nat, nat)>)
    requires k <= |s|
    ensures r.Some? ==> k < r.value.0 && 0 < r.value.1 && r.value.0 + r.value.1 <= |s|
  {
    var a := k + RunLength(s, k, SpaceClass);
    var n := RunLength(s, a, CoordClass);
    if a > k && n > 0 then Some((a, n)) else None
  }

  /** `(\d+)\s*x|x\s*(\d+)|\((\d+)\)` (ignoring case) at `i`: the
      alternatives are tried in this order. */
  function QuantityAt(s: string, i: nat): (m: Option<seq<string>>)
    requires i <= |s|
    ensures m.Some? ==> |m.value| == 1 && m.value[0] != [] && AllDigits(m.value[0])
  {
    var m1 := CountThenXAt(s, i);
    if m1.Some? then Some([m1.value])
    else
      var m2 := XThenCountAt(s, i);
      if m2.Some? then Some([m2.value])
      else
        var m3 := CountInParensAt(s, i);
        if m3.Some? then Some([m3.value]) else None
  }

  /** `(\d+)\s*x` at `i`: the digits. */
  function CountThenXAt(s: string, i: nat): (g: Option<string>)
    requires i <= |s|
    ensures g.Some? ==> g.value != [] && AllDigits(g.value)
  {
    var d := RunLength(s, i, DigitClass);
    var w := RunLength(s, i + d, SpaceClass);
    RunLengthAllIn(s, i, DigitClass);
    if d > 0 && i + d + w < |s| && IsX(s[i + d + w]) then Some(s[i..i + d]) else None
  }

  /** `x\s*(\d+)` at `i`: the digits. */
  function XThenCountAt(s: string, i: nat): (g: Option<string>)
    requires i <= |s|
    ensures g.Some? ==> g.value != [] && AllDigits(g.value)
  {
    if i < |s| && IsX(s[i]) then
      var a := i + 1 + RunLength(s, i + 1, SpaceClass);
      var d := RunLength(s, a, DigitClass);
      RunLengthAllIn(s, a, DigitClass);
      if d > 0 then Some(s[a..a + d]) else None
    else None
  }

  /** `\((\d+)\)` at `i`: the digits. */
  function CountInParensAt(s: string, i: nat): (g: Option<string>)
    requires i <= |s|
    ensures g.Some? ==> g.value != [] && AllDigits(g.value)
  {
    if i < |s| && s[i] == '(' then
      var d := RunLength(s, i + 1, DigitClass);
      RunLengthAllIn(s, i + 1, DigitClass);
      if d > 0 && i + 1 + d < |s| && s[i + 1 + d] == ')' then Some(s[i + 1..i + 1 + d]) else None
    else None
  }

  datatype Found = Found(at: nat, groups: seq<string>)

  /** The leftmost match of `p` in `s` at or after `from`. */
  function SearchFrom(p: Pattern, s: string, from: nat): (r: Option<Found>)
    requires from <= |s|
    ensures r.Some? ==> from <= r.value.at <= |s| && MatchAt(p, s, r.value.at) == Some(r.value.groups)
    ensures r.Some? ==> forall j :: from <= j < r.value.at ==> MatchAt(p, s, j).None?
    ensures r.None? ==> forall j :: from <= j <= |s| ==> MatchAt(p, s, j).None?
    decreases |s| - from
  {
    match MatchAt(p, s, from)
    case Some(g) => Some(Found(from, g))
    case None => if from == |s| then None else SearchFrom(p, s, from + 1)
  }

  /** Python's `re.search(p, s)`. */
  function Search(p: Pattern, s: string): Option<Found>
  {
    SearchFrom(p, s, 0)
  }

  /** The first group of the leftmost match, if any: `m.group(1) if m else None`. */
  function FirstGroup(p: Pattern, s: string): (r: Option<string>)
    requires p.GroupCount() >= 1
    ensures r.Some? <==> Search(p, s).Some?
    ensures r.Some? ==> r.value == Search(p, s).value.groups[0]
    ensures r.Some? && p.HasNumericGroup() ==> r.value != [] && AllDigits(r.value)
  {
    match Search(p, s)
    case None => None
    case Some(f) => Some(f.groups[0])
  }

  /** Python's `t in s`. */
  function Contains(s: string, t: string): (b: bool)
    ensures b <==> exists i :: 0 <= i <= |s| && OccursAt(t, s, i)
  {
    var r := Search(Literal(t), s);
    if r.Some? then
      assert OccursAt(t, s, r.value.at);
      true
    else
      assert forall i :: 0 <= i <= |s| ==> !OccursAt(t, s, i) by {
        forall i | 0 <= i <= |s| ensures !OccursAt(t, s, i) {
          assert MatchAt(Literal(t), s, i).None?;
        }
      }
      false
  }

  /** `re.search(r'(\d+)', s)`: the first maximal run of digits. */
  function FirstDigitRun(s: string): (r: Option<string>)
    ensures r.None? <==> forall k :: 0 <= k < |s| ==> !IsDigit(s[k])
    ensures r.Some? ==> r.value != [] && AllDigits(r.value)
    ensures r.Some? ==> exists i :: DigitRunAt(s, i, r.value)
  {
    var f := Search(DigitRun, s);
    if f.Some? then
      assert DigitRunAt(s, f.value.at, f.value.groups[0]) by {
        forall k | 0 <= k < f.value.at ensures !IsDigit(s[k]) {
          assert MatchAt(DigitRun, s, k).None?;
        }
      }
      Some(f.value.groups[0])
    else
      assert forall k :: 0 <= k < |s| ==> !IsDigit(s[k]) by {
        forall k | 0 <= k < |s| ensures !IsDigit(s[k]) {
          assert MatchAt(DigitRun, s, k).None?;
        }
      }
      None
  }

  /** `d` is a maximal digit run of `s` that starts at index `i`, and no digit comes before it. */
  ghost predicate DigitRunAt(s: string, i: nat, d: string)
  {
    && OccursAt(d, s, i)
    && (forall k :: 0 <= k < i ==> !IsDigit(s[k]))
    && (i + |d| < |s| ==> !IsDigit(s[i + |d|]))
  }

  // ---------------------------------------------------------------------
  // Numbers

  function DigitValue(c: char): nat requires IsDigit(c) { c as int - '0' as int }

  function Digit(n: nat): (c: char)
    requires n < 10
    ensures IsDigit(c) && DigitValue(c) == n
  {
    ('0' as int + n) as char
  }

  /** Python's `int(d)` on a string of decimal digits. */
  function DigitsValue(d: string): nat
    requires AllDigits(d)
  {
    if d == [] then 0 else DigitsValue(d[..|d| - 1]) * 10 + DigitValue(d[|d| - 1])
  }

  /** Python's `str(n)` (and an f-string field) for a non-negative integer. */
  function NatToDecimal(n: nat): (r: string)
    ensures r != [] && AllDigits(r)
    ensures r[0] == '0' ==> r == "0"
    decreases n
  {
    if n < 10 then [Digit(n)] else NatToDecimal(n / 10) + [Digit(n % 10)]
  }

  /** Reading back the decimal text gives the number: `int(str(n)) == n`. */
  lemma {:induction false} DecimalRoundTrip(n: nat)
    ensures DigitsValue(NatToDecimal(n)) == n
    decreases n
  {
    if n >= 10 {
      var r := NatToDecimal(n);
      assert r[..|r| - 1] == NatToDecimal(n / 10);
      DecimalRoundTrip(n / 10);
    }
  }

  // ---------------------------------------------------------------------
  // Other string operations

  /** Python's `s.strip()`: leading and trailing whitespace removed. */
  function Strip(s: string): (r: string)
    ensures r == [] || (!IsSpace(r[0]) && !IsSpace(r[|r| - 1]))
    ensures exists i :: StripsTo(s, i, r)
  {
    var a := RunLength(s, 0, SpaceClass);
    var b := TrailingSpaces(s[a..]);
    RunLengthAllIn(s, 0, SpaceClass);
    assert StripsTo(s, a, s[a..|s| - b]);
    s[a..|s| - b]
  }

  /** `r` is `s` with the spaces before index `i` and after `i + |r|` cut. */
  ghost predicate StripsTo(s: string, i: nat, r: string)
  {
    && OccursAt(r, s, i)
    && (forall k :: 0 <= k < i ==> IsSpace(s[k]))
    && (forall k :: i + |r| <= k < |s| ==> IsSpace(s[k]))
  }

  /** How many characters at the end of `s` are spaces. */
  function TrailingSpaces(s: string): (n: nat)
    ensures n <= |s|
    ensures forall k :: |s| - n <= k < |s| ==> IsSpace(s[k])
    ensures n < |s| ==> !IsSpace(s[|s| - n - 1])
  {
    if s != [] && IsSpace(s[|s| - 1]) then 1 + TrailingSpaces(s[..|s| - 1]) else 0
  }

  function LowerChar(c: char): char
  {
    if 'A' <= c <= 'Z' then (c as int - 'A' as int + 'a' as int) as char else c
  }

  /** Python's `s.lower()` on ASCII letters. */
  function Lower(s: string): (r: string)
    ensures |r| == |s| && forall k :: 0 <= k < |s| ==> r[k] == LowerChar(s[k])
  {
    seq(|s|, k requires 0 <= k < |s| => LowerChar(s[k]))
  }

  /** The index of the last `c` in `s`. */
  function LastIndexOf(s: string, c: char): (r: Option<nat>)
    ensures r.None? <==> c !in s
    ensures r.Some? ==> r.value < |s| && s[r.value] == c && forall k :: r.value < k < |s| ==> s[k] != c
  {
    if s == [] then None
    else if s[|s| - 1] == c then Some(|s| - 1)
    else
      var r := LastIndexOf(s[..|s| - 1], c);
      assert s == s[..|s| - 1] + [s[|s| - 1]];
      r
  }

  // ---------------------------------------------------------------------
  // A number after a marker

  /** `marker` at index `i` of `url`, followed by at least one digit. */
  predicate IdMarkedAt(marker: string, url: string, i: nat)
  {
    OccursAt(marker, url, i) && i + |marker| < |url| && IsDigit(url[i + |marker|])
  }

  /** The digits that start at index `k` of `s`. */
  function DigitsFrom(s: string, k: nat): (d: string)
    requires k <= |s|
    ensures AllDigits(d)
  {
    RunLengthAllIn(s, k, DigitClass);
    s[k..k + RunLength(s, k, DigitClass)]
  }

  /** `re.search(marker + r"(\d+)", url)`, read as a number. */
  function NumberAfter(marker: string, url: string): Option<nat>
  {
    match Search(IdAfter(marker), url)
    case None => None
    case Some(f) => Some(DigitsValue(f.groups[0]))
  }

  /** There is no number exactly when the marker is nowhere followed by a digit. */
  lemma NumberAfterNone(marker: string, url: string)
    ensures NumberAfter(marker, url).None? <==> forall i :: 0 <= i <= |url| ==> !IdMarkedAt(marker, url, i)
  {
    var r := Search(IdAfter(marker), url);
    if r.None? {
      forall i | 0 <= i <= |url| ensures !IdMarkedAt(marker, url, i) {
        assert MatchAt(IdAfter(marker), url, i).None?;
      }
    } else {
      assert IdMarkedAt(marker, url, r.value.at);
    }
  }

  /** Otherwise the number is the digit run after the first marker that is
      followed by a digit. */
  lemma NumberAfterFirst(marker: string, url: string, i: nat)
    requires IdMarkedAt(marker, url, i)
    requires forall j :: 0 <= j < i ==> !IdMarkedAt(marker, url, j)
    ensures NumberAfter(marker, url) == Some(DigitsValue(DigitsFrom(url, i + |marker|)))
  {
    var r := Search(IdAfter(marker), url);
    assert MatchAt(IdAfter(marker), url, i).Some?;
    assert r.Some? && r.value.at <= i;
    assert IdMarkedAt(marker, url, r.value.at);
    assert r.value.at == i;
  }

  // ---------------------------------------------------------------------
  // Where the patterns match, said of the string itself


  /** A run of class `k` of length `n` at `i` that the end of `s` or a
      character outside the class ends is the longest one there. */
  lemma RunLengthIs(s: string, i: nat, k: CharClass, n: nat)
    requires i + n <= |s|
    requires forall j :: i <= j < i + n ==> InClass(k, s[j])
    requires i + n < |s| ==> !InClass(k, s[i + n])
    ensures RunLength(s, i, k) == n
    decreases n
  {
    if n > 0 {
      RunLengthIs(s, i + 1, k, n - 1);
    }
  }

  /** A digit string at `k` that no digit follows is the digit run there. */
  lemma DigitRunIs(s: string, k: nat, d: string)
    requires OccursAt(d, s, k) && AllDigits(d)
    requires k + |d| < |s| ==> !IsDigit(s[k + |d|])
    ensures RunLength(s, k, DigitClass) == |d|
  {
    forall j | k <= j < k + |d| ensures InClass(DigitClass, s[j]) {
      assert s[j] == s[k..k + |d|][j - k];
    }
    RunLengthIs(s, k, DigitClass, |d|);
  }

  /** A string of class `k` at `at` that the end of `s` or a character
      outside the class ends is the run of that class there. */
  lemma ClassRunIs(s: string, at: nat, k: CharClass, t: string)
    requires OccursAt(t, s, at) && AllIn(k, t)
    requires at + |t| < |s| ==> !InClass(k, s[at + |t|])
    ensures RunLength(s, at, k) == |t|
  {
    forall j | at <= j < at + |t| ensures InClass(k, s[j]) {
      assert s[j] == s[at..at + |t|][j - at];
    }
    RunLengthIs(s, at, k, |t|);
  }

  /** `w` whitespace characters at `k` that no whitespace follows are the
      whitespace run there. */
  lemma SpaceRunIs(s: string, k: nat, w: nat)
    requires Spaces(s, k, w)
    requires k + w < |s| ==> !IsSpace(s[k + w])
    ensures RunLength(s, k, SpaceClass) == w
  {
    RunLengthIs(s, k, SpaceClass, w);
  }

  /** The search finds nothing exactly when the pattern matches nowhere. */
  lemma SearchNone(p: Pattern, s: string)
    ensures Search(p, s).None? <==> forall j :: 0 <= j <= |s| ==> MatchAt(p, s, j).None?
  {
  }

  /** The search reports the leftmost position where the pattern matches. */
  lemma SearchFirst(p: Pattern, s: string, i: nat)
    requires i <= |s| && MatchAt(p, s, i).Some?
    requires forall j :: 0 <= j < i ==> MatchAt(p, s, j).None?
    ensures Search(p, s) == Some(Found(i, MatchAt(p, s, i).value))
  {
  }

  /** `\(([^)]+)\)` matches at `i` and its group ends at `j`: an opening
      parenthesis at `i`, the first closing one after it at `j`, and at
      least one character between them. */
  predicate ParenGroupAt(s: string, i: nat, j: nat)
  {
    i + 1 < j < |s| && s[i] == '(' && s[j] == ')' && forall k :: i < k < j ==> s[k] != ')'
  }

  lemma ParenGroupMatches(s: string, i: nat, j: nat)
    requires i <= |s|
    ensures ParenGroupAt(s, i, j) ==> MatchAt(Parenthesised, s, i) == Some([s[i + 1..j]])
  {
    if ParenGroupAt(s, i, j) {
      RunLengthIs(s, i + 1, NotCloseParenClass, j - i - 1);
    }
  }

  lemma ParenGroupOfMatch(s: string, i: nat) returns (j: nat)
    requires i <= |s|
    ensures MatchAt(Parenthesised, s, i).Some? ==> ParenGroupAt(s, i, j) && MatchAt(Parenthesised, s, i) == Some([s[i + 1..j]])
  {
    j := if i < |s| then i + 1 + RunLength(s, i + 1, NotCloseParenClass) else 0;
  }

  /** `\s+([\d.]+)` matches at `k`: `w` whitespace characters, then `n`
      digits and dots that no digit or dot follows. */
  predicate SpacedRunAt(s: string, k: nat, w: nat, n: nat)
  {
    && w > 0 && n > 0 && k + w + n <= |s|
    && AllIn(SpaceClass, s[k..k + w]) && AllIn(CoordClass, s[k + w..k + w + n])
    && (k + w + n < |s| ==> !InClass(CoordClass, s[k + w + n]))
  }

  /** `/way\s+([\d.]+)\s+([\d.]+)` matches at `i`: `/way`, then two
      spaced runs, of `w1` whitespace and `n1` digits and dots and of `w2`
      whitespace and `n2` digits and dots. */
  predicate WaypointFormAt(s: string, i: nat, w1: nat, n1: nat, w2: nat, n2: nat)
  {
    WayAt(s, i) && SpacedRunAt(s, i + 4, w1, n1) && SpacedRunAt(s, i + 4 + w1 + n1, w2, n2)
  }

  /** The groups of a waypoint form are its two runs of digits and dots. */
  lemma WaypointFormMatches(s: string, i: nat, w1: nat, n1: nat, w2: nat, n2: nat)
    requires i <= |s|
    ensures var a := i + 4 + w1; var c := a + n1 + w2;
      WaypointFormAt(s, i, w1, n1, w2, n2) ==> c + n2 <= |s| && WaypointAt(s, i) == Some(RunPair(s, (a, n1), (c, n2)))
  {
    if WaypointFormAt(s, i, w1, n1, w2, n2) {
      var a := i + 4 + w1;
      FormCoords(s, i, w1, n1, w2, n2);
      WaypointAtRuns(s, i, a, n1, a + n1 + w2, n2);
    }
  }

  /** The search for the waypoint pattern finds the leftmost waypoint form. */
  lemma WaypointSearchFirst(s: string, i: nat, w1: nat, n1: nat, w2: nat, n2: nat)
    requires WaypointFormAt(s, i, w1, n1, w2, n2)
    requires forall j: nat, v1: nat, m1: nat, v2: nat, m2: nat :: j < i ==> !WaypointFormAt(s, j, v1, m1, v2, m2)
    ensures var a := i + 4 + w1; var c := a + n1 + w2;
      c + n2 <= |s| && Search(Waypoint, s) == Some(Found(i, RunPair(s, (a, n1), (c, n2))))
  {
    WaypointFormMatches(s, i, w1, n1, w2, n2);
    WaypointMatchAt(s, i);
    NoEarlierWaypoint(s, i);
    SearchFirst(Waypoint, s, i);
  }

  /** Where no waypoint form starts, the waypoint pattern does not match. */
  lemma NoEarlierWaypoint(s: string, i: nat)
    requires i <= |s|
    requires forall j: nat, v1: nat, m1: nat, v2: nat, m2: nat :: j < i ==> !WaypointFormAt(s, j, v1, m1, v2, m2)
    ensures forall j :: 0 <= j < i ==> MatchAt(Waypoint, s, j).None?
  {
    forall j | 0 <= j < i ensures MatchAt(Waypoint, s, j).None? {
      WaypointMatchAt(s, j);
      var v1, m1, v2, m2 := WaypointFormOfMatch(s, j);
    }
  }

  /** Every match of the waypoint pattern is a waypoint form. */
  lemma WaypointFormOfMatch(s: string, i: nat) returns (w1: nat, n1: nat, w2: nat, n2: nat)
    requires i <= |s|
    ensures WaypointAt(s, i).Some? ==> WaypointFormAt(s, i, w1, n1, w2, n2)
  {
    w1, n1, w2, n2 := 0, 0, 0, 0;
    if WaypointAt(s, i).Some? {
      w1, n1, w2, n2 := WaypointParts(s, i);
      FormOfParts(s, i, w1, n1, w2, n2);
    }
  }

  /** Two spaced runs after a `/way` make a waypoint form. */
  lemma FormOfParts(s: string, i: nat, w1: nat, n1: nat, w2: nat, n2: nat)
    requires WayAt(s, i) && i + 4 + w1 + n1 <= |s|
    requires SpacedCoords(s, i + 4) == Some((i + 4 + w1, n1))
    requires SpacedCoords(s, i + 4 + w1 + n1) == Some((i + 4 + w1 + n1 + w2, n2))
    ensures WaypointFormAt(s, i, w1, n1, w2, n2)
  {
    SpacedRunFrom(s, i + 4, w1, n1);
    SpacedRunFrom(s, i + 4 + w1 + n1, w2, n2);
  }

  /** The runs of a waypoint form, as `SpacedCoords` finds them. */
  lemma FormCoords(s: string, i: nat, w1: nat, n1: nat, w2: nat, n2: nat)
    requires WaypointFormAt(s, i, w1, n1, w2, n2)
    ensures SpacedCoords(s, i + 4) == Some((i + 4 + w1, n1))
    ensures SpacedCoords(s, i + 4 + w1 + n1) == Some((i + 4 + w1 + n1 + w2, n2))
  {
    SpacedCoordsIs(s, i + 4, w1, n1);
    SpacedCoordsIs(s, i + 4 + w1 + n1, w2, n2);
  }

  /** `WaypointAt` once the two spaced runs after `/way` are known. */
  lemma WaypointAtRuns(s: string, i: nat, a: nat, n1: nat, c: nat, n2: nat)
    requires WayAt(s, i)
    requires SpacedCoords(s, i + 4) == Some((a, n1))
    requires a + n1 <= |s| && SpacedCoords(s, a + n1) == Some((c, n2))
    requires c + n2 <= |s|
    ensures WaypointAt(s, i) == Some(RunPair(s, (a, n1), (c, n2)))
  {
  }

  /** The two spaced runs of a waypoint match. */
  lemma WaypointParts(s: string, i: nat) returns (w1: nat, n1: nat, w2: nat, n2: nat)
    requires i <= |s| && WaypointAt(s, i).Some?
    ensures WayAt(s, i) && i + 4 + w1 + n1 <= |s|
    ensures SpacedCoords(s, i + 4) == Some((i + 4 + w1, n1))
    ensures SpacedCoords(s, i + 4 + w1 + n1) == Some((i + 4 + w1 + n1 + w2, n2))
  {
    var x := SpacedCoords(s, i + 4).value;
    var y := SpacedCoords(s, x.0 + x.1).value;
    w1, n1, w2, n2 := x.0 - i - 4, x.1, y.0 - x.0 - x.1, y.1;
  }

  lemma SpacedCoordsIs(s: string, k: nat, w: nat, n: nat)
    requires SpacedRunAt(s, k, w, n)
    ensures SpacedCoords(s, k) == Some((k + w, n))
  {
    assert s[k + w] == s[k + w..k + w + n][0];
    SliceRunIs(s, k, SpaceClass, w);
    SliceRunIs(s, k + w, CoordClass, n);
    SpacedCoordsRuns(s, k, w, n);
  }

  lemma SpacedCoordsRuns(s: string, k: nat, w: nat, n: nat)
    requires k + w <= |s| && RunLength(s, k, SpaceClass) == w && w > 0
    requires RunLength(s, k + w, CoordClass) == n && n > 0
    ensures SpacedCoords(s, k) == Some((k + w, n))
  {
  }

  /** The converse of `SpacedCoordsIs`. */
  lemma SpacedRunFrom(s: string, k: nat, w: nat, n: nat)
    requires k <= |s| && SpacedCoords(s, k) == Some((k + w, n))
    ensures SpacedRunAt(s, k, w, n)
  {
    RunLengthAllIn(s, k, SpaceClass);
    RunLengthAllIn(s, k + w, CoordClass);
  }


  /** A run of class `k` in slice form is the maximal run there. */
  lemma SliceRunIs(s: string, i: nat, k: CharClass, n: nat)
    requires i + n <= |s| && AllIn(k, s[i..i + n])
    requires i + n < |s| ==> !InClass(k, s[i + n])
    ensures RunLength(s, i, k) == n
  {
    forall j | i <= j < i + n ensures InClass(k, s[j]) {
      assert s[j] == s[i..i + n][j - i];
    }
    RunLengthIs(s, i, k, n);
  }

  /** `MatchAt` on the waypoint pattern is `WaypointAt`. */
  lemma WaypointMatchAt(s: string, i: nat)
    requires i <= |s|
    ensures MatchAt(Waypoint, s, i) == WaypointAt(s, i)
  {
  }

  /** `(\d+)\s*x` matches at `i` with group `d`, `w` whitespace before the
      `x` or `X`. */
  predicate CountThenX(s: string, i: nat, d: string, w: nat)
  {
    d != [] && AllDigits(d) && OccursAt(d, s, i) && Spaces(s, i + |d|, w) && i + |d| + w < |s| && IsX(s[i + |d| + w])
  }

  /** `x\s*(\d+)` matches at `i` with group `d`, `w` whitespace after the
      `x` or `X`. */
  predicate XThenCount(s: string, i: nat, w: nat, d: string)
  {
    && i < |s| && IsX(s[i]) && Spaces(s, i + 1, w)
    && d != [] && AllDigits(d) && OccursAt(d, s, i + 1 + w)
    && (i + 1 + w + |d| < |s| ==> !IsDigit(s[i + 1 + w + |d|]))
  }

  /** `\((\d+)\)` matches at `i` with group `d`. */
  predicate CountInParens(s: string, i: nat, d: string)
  {
    i < |s| && s[i] == '(' && d != [] && AllDigits(d) && OccursAt(d, s, i + 1) && i + 1 + |d| < |s| && s[i + 1 + |d|] == ')'
  }

  /** The quantity pattern matches at `i` with group `d` by one of its
      three alternatives; `w` is the whitespace beside the `x` (none for
      the parenthesised count). */
  predicate QuantityFormAt(s: string, i: nat, w: nat, d: string)
  {
    CountThenX(s, i, d, w) || XThenCount(s, i, w, d) || (w == 0 && CountInParens(s, i, d))
  }

  lemma CountThenXMatches(s: string, i: nat, d: string, w: nat)
    requires CountThenX(s, i, d, w)
    ensures CountThenXAt(s, i) == Some(d)
  {
    var k := i + |d|;
    assert k < |s| && !IsDigit(s[k]) by {
      if w > 0 {
        assert IsSpace(s[k]);
      }
    }
    DigitRunIs(s, i, d);
    SpaceRunIs(s, k, w);
    var n, m := RunLength(s, i, DigitClass), RunLength(s, k, SpaceClass);
    assert n == |d| && m == w && IsX(s[i + n + m]) && s[i..i + n] == d;
  }

  lemma XThenCountMatches(s: string, i: nat, w: nat, d: string)
    requires XThenCount(s, i, w, d)
    ensures CountThenXAt(s, i).None? && XThenCountAt(s, i) == Some(d)
  {
    RunLengthIs(s, i, DigitClass, 0);
    XThenCountRuns(s, i, w, d);
    XThenCountAtRuns(s, i, w, d);
  }

  /** The runs of an `x N` form, as `RunLength` measures them. */
  lemma XThenCountRuns(s: string, i: nat, w: nat, d: string)
    requires XThenCount(s, i, w, d)
    ensures RunLength(s, i + 1, SpaceClass) == w && RunLength(s, i + 1 + w, DigitClass) == |d|
  {
    var a := i + 1 + w;
    assert s[a] == s[a..a + |d|][0] == d[0];
    SpaceRunIs(s, i + 1, w);
    DigitRunIs(s, a, d);
  }

  /** `XThenCountAt` once the two runs after the `x` are known. */
  lemma XThenCountAtRuns(s: string, i: nat, w: nat, d: string)
    requires i < |s| && IsX(s[i]) && d != [] && OccursAt(d, s, i + 1 + w)
    requires RunLength(s, i + 1, SpaceClass) == w && RunLength(s, i + 1 + w, DigitClass) == |d|
    ensures XThenCountAt(s, i) == Some(d)
  {
  }

  lemma CountInParensMatches(s: string, i: nat, d: string)
    requires CountInParens(s, i, d)
    ensures CountThenXAt(s, i).None? && XThenCountAt(s, i).None? && CountInParensAt(s, i) == Some(d)
  {
    RunLengthIs(s, i, DigitClass, 0);
    DigitRunIs(s, i + 1, d);
  }

  lemma QuantityFormMatches(s: string, i: nat, w: nat, d: string)
    requires i <= |s|
    ensures QuantityFormAt(s, i, w, d) ==> MatchAt(Quantity, s, i) == Some([d])
  {
    if CountThenX(s, i, d, w) {
      CountThenXMatches(s, i, d, w);
    } else if XThenCount(s, i, w, d) {
      XThenCountMatches(s, i, w, d);
    } else if w == 0 && CountInParens(s, i, d) {
      CountInParensMatches(s, i, d);
    }
  }

  lemma QuantityFormOfMatch(s: string, i: nat) returns (w: nat, d: string)
    requires i <= |s|
    ensures MatchAt(Quantity, s, i).Some? ==> QuantityFormAt(s, i, w, d) && MatchAt(Quantity, s, i) == Some([d])
  {
    if CountThenXAt(s, i).Some? {
      d := CountThenXAt(s, i).value;
      w := RunLength(s, i + |d|, SpaceClass);
      CountThenXOfMatch(s, i);
    } else if XThenCountAt(s, i).Some? {
      w := RunLength(s, i + 1, SpaceClass);
      d := XThenCountAt(s, i).value;
      XThenCountOfMatch(s, i);
    } else if CountInParensAt(s, i).Some? {
      w, d := 0, CountInParensAt(s, i).value;
      CountInParensOfMatch(s, i);
    } else {
      w, d := 0, [];
    }
  }

  lemma CountThenXOfMatch(s: string, i: nat)
    requires i <= |s| && CountThenXAt(s, i).Some?
    ensures var d := CountThenXAt(s, i).value; CountThenX(s, i, d, RunLength(s, i + |d|, SpaceClass))
  {
    RunLengthRun(s, i + RunLength(s, i, DigitClass), SpaceClass);
  }

  lemma XThenCountOfMatch(s: string, i: nat)
    requires i <= |s| && XThenCountAt(s, i).Some?
    ensures XThenCount(s, i, RunLength(s, i + 1, SpaceClass), XThenCountAt(s, i).value)
  {
    RunLengthRun(s, i + 1, SpaceClass);
  }

  lemma CountInParensOfMatch(s: string, i: nat)
    requires i <= |s| && CountInParensAt(s, i).Some?
    ensures CountInParens(s, i, CountInParensAt(s, i).value)
  {
  }
}
