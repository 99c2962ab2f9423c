/** Text helpers with the semantics of the Python and JavaScript string operations the
    program uses: lower/upper case, substring tests, strip/trim, split/join on one
    separator character, decimal rendering and JavaScript's parseInt(s, 10). */
module Strings {
  import opened Wrappers

  /** ASCII whitespace as JavaScript's trim() sees it. */
  predicate IsSpace(c: char) {
    c == ' ' || c == '\t' || c == '\n' || c == '\r' || c == '\U{B}' || c == '\U{C}'
  }

  predicate IsDigit(c: char) {
    '0' <= c <= '9'
  }

  function LowerChar(c: char): char {
    if 'A' <= c <= 'Z' then (c as int + 32) as char else c
  }

  function UpperChar(c: char): char {
    if 'a' <= c <= 'z' then (c as int - 32) as char else c
  }

  /** str.lower() / String.prototype.toLowerCase(), on the ASCII letters. */
  function Lower(s: string): string {
    seq(|s|, i requires 0 <= i < |s| => LowerChar(s[i]))
  }

  /** Lowering keeps the length and lowers each character. */
  lemma LowerShape(s: string)
    ensures |Lower(s)| == |s| && forall i :: 0 <= i < |s| ==> Lower(s)[i] == LowerChar(s[i])
  {
  }

  lemma LowerAppend(a: string, b: string)
    ensures Lower(a + b) == Lower(a) + Lower(b)
  {
  }

  /** str.upper(), on the ASCII letters. */
  function Upper(s: string): (r: string)
    ensures |r| == |s|
    ensures forall i :: 0 <= i < |s| ==> r[i] == UpperChar(s[i])
  {
    seq(|s|, i requires 0 <= i < |s| => UpperChar(s[i]))
  }

  /** Lowering forgets an upper-casing: the match is case-insensitive either way. */
  lemma LowerUpper(s: string)
    ensures Lower(Upper(s)) == Lower(s)
  {
    assert forall i :: 0 <= i < |s| ==> LowerChar(UpperChar(s[i])) == LowerChar(s[i]);
  }

  /** `sub in s` in Python, `s.includes(sub)` in JavaScript. */
  predicate Contains(s: string, sub: string)
    decreases |s|
  {
    sub <= s || (|s| > 0 && Contains(s[1..], sub))
  }

  /** Contains is exactly "occurs at some position". */
  lemma {:induction false} ContainsAt(s: string, sub: string)
    ensures Contains(s, sub) <==> exists i :: 0 <= i <= |s| && sub <= s[i..]
    decreases |s|
  {
    if sub <= s {
      assert sub <= s[0..];
    } else if |s| > 0 {
      ContainsAt(s[1..], sub);
      if Contains(s[1..], sub) {
        var i :| 0 <= i <= |s| - 1 && sub <= s[1..][i..];
        assert s[1..][i..] == s[i + 1..];
      }
      if exists i :: 0 <= i <= |s| && sub <= s[i..] {
        var i :| 0 <= i <= |s| && sub <= s[i..];
        assert i != 0;
        assert s[1..][i - 1..] == s[i..];
      }
    }
  }

  predicate StartsWith(s: string, prefix: string) {
    prefix <= s
  }

  predicate EndsWith(s: string, suffix: string) {
    |suffix| <= |s| && s[|s| - |suffix|..] == suffix
  }

  /** The end of the whitespace run that starts at `i`. */
  function SpacesFrom(s: string, i: nat): (j: nat)
    requires i <= |s|
    ensures i <= j <= |s|
    decreases |s| - i
  {
    if i < |s| && IsSpace(s[i]) then SpacesFrom(s, i + 1) else i
  }

  lemma {:induction false} SpacesFromShape(s: string, i: nat)
    requires i <= |s|
    ensures forall k :: i <= k < SpacesFrom(s, i) ==> IsSpace(s[k])
    ensures SpacesFrom(s, i) < |s| ==> !IsSpace(s[SpacesFrom(s, i)])
    decreases |s| - i
  {
    if i < |s| && IsSpace(s[i]) {
      SpacesFromShape(s, i + 1);
    }
  }

  /** The start of the whitespace run that ends at `j`. */
  function SpacesBefore(s: string, j: nat): (i: nat)
    requires j <= |s|
    ensures i <= j
  {
    if j > 0 && IsSpace(s[j - 1]) then SpacesBefore(s, j - 1) else j
  }

  lemma {:induction false} SpacesBeforeShape(s: string, j: nat)
    requires j <= |s|
    ensures forall k :: SpacesBefore(s, j) <= k < j ==> IsSpace(s[k])
    ensures SpacesBefore(s, j) > 0 ==> !IsSpace(s[SpacesBefore(s, j) - 1])
  {
    if j > 0 && IsSpace(s[j - 1]) {
      SpacesBeforeShape(s, j - 1);
    }
  }

  /** Drops leading whitespace. */
  function TrimStart(s: string): string {
    s[SpacesFrom(s, 0)..]
  }

  /** Drops trailing whitespace. */
  function TrimEnd(s: string): string {
    s[..SpacesBefore(s, |s|)]
  }

  /** String.prototype.trim(): the text without whitespace at either end. */
  function Strip(s: string): string {
    TrimEnd(TrimStart(s))
  }

  /** What strip leaves: no whitespace at either end, and only characters of the text. */
  lemma StripShape(s: string)
    ensures var r := Strip(s); r == [] || (!IsSpace(r[0]) && !IsSpace(r[|r| - 1]))
    ensures |Strip(s)| <= |s| && forall c :: c in Strip(s) ==> c in s
  {
    var t := TrimStart(s);
    var a := SpacesFrom(s, 0);
    var b := SpacesBefore(t, |t|);
    SpacesFromShape(s, 0);
    SpacesBeforeShape(t, |t|);
    assert t == s[a..];
    assert Strip(s) == t[..b];
    if b > 0 {
      assert t[0] == s[a];
    }
    assert forall c :: c in t[..b] ==> c in t;
    assert forall c :: c in s[a..] ==> c in s;
  }

  /** Strip keeps a first character that is not whitespace. */
  lemma StripKeepsFirst(s: string)
    requires s != [] && !IsSpace(s[0])
    ensures Strip(s) != [] && Strip(s)[0] == s[0]
  {
    assert SpacesFrom(s, 0) == 0;
    assert TrimStart(s) == s[0..] == s;
    SpacesBeforeShape(s, |s|);
    assert SpacesBefore(s, |s|) > 0;
  }

  /** A string with no whitespace at either end is its own strip. */
  lemma StripUnchanged(s: string)
    requires s == [] || (!IsSpace(s[0]) && !IsSpace(s[|s| - 1]))
    ensures Strip(s) == s
  {
    assert TrimStart(s) == s[0..] == s;
    assert s[..|s|] == s;
  }

  lemma {:induction false} SpacesFromShift(ws: string, s: string, i: nat)
    requires i <= |ws| && forall k :: 0 <= k < |ws| ==> IsSpace(ws[k])
    ensures SpacesFrom(ws + s, i) == |ws| + SpacesFrom(s, 0)
    decreases |ws| - i
  {
    if i < |ws| {
      assert (ws + s)[i] == ws[i];
      SpacesFromShift(ws, s, i + 1);
    } else {
      SpacesFromAfter(ws, s, 0);
    }
  }

  lemma {:induction false} SpacesFromAfter(ws: string, s: string, k: nat)
    requires k <= |s|
    ensures SpacesFrom(ws + s, |ws| + k) == |ws| + SpacesFrom(s, k)
    decreases |s| - k
  {
    if k < |s| {
      assert (ws + s)[|ws| + k] == s[k];
      SpacesFromAfter(ws, s, k + 1);
    }
  }

  lemma {:induction false} SpacesBeforePrefix(s: string, t: string, j: nat)
    requires j <= |s|
    ensures SpacesBefore(s + t, j) == SpacesBefore(s, j)
  {
    if j > 0 {
      assert (s + t)[j - 1] == s[j - 1];
      SpacesBeforePrefix(s, t, j - 1);
    }
  }

  lemma {:induction false} SpacesBeforeShift(s: string, ws: string, j: nat)
    requires |s| <= j <= |s| + |ws| && forall k :: 0 <= k < |ws| ==> IsSpace(ws[k])
    ensures SpacesBefore(s + ws, j) == SpacesBefore(s, |s|)
  {
    if j > |s| {
      assert (s + ws)[j - 1] == ws[j - 1 - |s|];
      SpacesBeforeShift(s, ws, j - 1);
    } else {
      SpacesBeforePrefix(s, ws, |s|);
    }
  }

  lemma TrimStartSkips(ws: string, s: string)
    requires forall i :: 0 <= i < |ws| ==> IsSpace(ws[i])
    ensures TrimStart(ws + s) == TrimStart(s)
  {
    SpacesFromShift(ws, s, 0);
    assert (ws + s)[|ws| + SpacesFrom(s, 0)..] == s[SpacesFrom(s, 0)..];
  }

  lemma TrimEndSkips(s: string, ws: string)
    requires forall i :: 0 <= i < |ws| ==> IsSpace(ws[i])
    ensures TrimEnd(s + ws) == TrimEnd(s)
  {
    SpacesBeforeShift(s, ws, |s| + |ws|);
    assert (s + ws)[..SpacesBefore(s, |s|)] == s[..SpacesBefore(s, |s|)];
  }

  /** Stripping only removes whitespace from the ends. */
  lemma StripAround(ws1: string, s: string, ws2: string)
    requires forall i :: 0 <= i < |ws1| ==> IsSpace(ws1[i])
    requires forall i :: 0 <= i < |ws2| ==> IsSpace(ws2[i])
    requires s == [] || (!IsSpace(s[0]) && !IsSpace(s[|s| - 1]))
    ensures Strip(ws1 + s + ws2) == s
  {
    assert ws1 + s + ws2 == ws1 + (s + ws2);
    TrimStartSkips(ws1, s + ws2);
    if s == [] {
      assert s + ws2 == ws2;
      TrimStartSkips(ws2, "");
      assert ws2 + "" == ws2;
    } else {
      assert TrimStart(s + ws2) == s + ws2;
      TrimEndSkips(s, ws2);
    }
  }

  // ----- Python's str.strip()

  /** ASCII whitespace as Python's str.isspace() sees it: JavaScript's set plus the four
      separators U+001C..U+001F. */
  predicate IsPythonSpace(c: char) {
    IsSpace(c) || '\U{1C}' <= c <= '\U{1F}'
  }

  /** The end of the Python-whitespace run that starts at `i`. */
  function PythonSpacesFrom(s: string, i: nat): (j: nat)
    requires i <= |s|
    ensures i <= j <= |s|
    decreases |s| - i
  {
    if i < |s| && IsPythonSpace(s[i]) then PythonSpacesFrom(s, i + 1) else i
  }

  lemma {:induction false} PythonSpacesFromShape(s: string, i: nat)
    requires i <= |s|
    ensures forall k :: i <= k < PythonSpacesFrom(s, i) ==> IsPythonSpace(s[k])
    ensures PythonSpacesFrom(s, i) < |s| ==> !IsPythonSpace(s[PythonSpacesFrom(s, i)])
    decreases |s| - i
  {
    if i < |s| && IsPythonSpace(s[i]) {
      PythonSpacesFromShape(s, i + 1);
    }
  }

  /** A run of Python whitespace from `i` to the end is skipped whole. */
  lemma {:induction false} PythonSpacesFromAll(s: string, i: nat)
    requires i <= |s|
    requires forall k :: i <= k < |s| ==> IsPythonSpace(s[k])
    ensures PythonSpacesFrom(s, i) == |s|
    decreases |s| - i
  {
    if i < |s| {
      PythonSpacesFromAll(s, i + 1);
    }
  }

  /** The start of the Python-whitespace run that ends at `j`. */
  function PythonSpacesBefore(s: string, j: nat): (i: nat)
    requires j <= |s|
    ensures i <= j
  {
    if j > 0 && IsPythonSpace(s[j - 1]) then PythonSpacesBefore(s, j - 1) else j
  }

  lemma {:induction false} PythonSpacesBeforeShape(s: string, j: nat)
    requires j <= |s|
    ensures forall k :: PythonSpacesBefore(s, j) <= k < j ==> IsPythonSpace(s[k])
    ensures PythonSpacesBefore(s, j) > 0 ==> !IsPythonSpace(s[PythonSpacesBefore(s, j) - 1])
  {
    if j > 0 && IsPythonSpace(s[j - 1]) {
      PythonSpacesBeforeShape(s, j - 1);
    }
  }

  /** str.strip(): the text without Python whitespace at either end. */
  function PythonStrip(s: string): string {
    var t := s[PythonSpacesFrom(s, 0)..];
    t[..PythonSpacesBefore(t, |t|)]
  }

  /** What strip leaves: no Python whitespace at either end, and only characters of the
      text. */
  lemma PythonStripShape(s: string)
    ensures var r := PythonStrip(s); r == [] || (!IsPythonSpace(r[0]) && !IsPythonSpace(r[|r| - 1]))
    ensures |PythonStrip(s)| <= |s| && forall c :: c in PythonStrip(s) ==> c in s
  {
    var a := PythonSpacesFrom(s, 0);
    var t := s[a..];
    var b := PythonSpacesBefore(t, |t|);
    PythonSpacesFromShape(s, 0);
    PythonSpacesBeforeShape(t, |t|);
    if b > 0 {
      assert t[0] == s[a];
    }
    assert forall c :: c in t[..b] ==> c in t;
    assert forall c :: c in s[a..] ==> c in s;
  }

  /** A string with no Python whitespace at either end is its own strip. */
  lemma PythonStripUnchanged(s: string)
    requires s == [] || (!IsPythonSpace(s[0]) && !IsPythonSpace(s[|s| - 1]))
    ensures PythonStrip(s) == s
  {
    assert s[0..] == s;
    assert s[..|s|] == s;
  }

  /** A string of Python whitespace only strips to nothing. */
  lemma PythonStripAllSpace(s: string)
    requires forall k :: 0 <= k < |s| ==> IsPythonSpace(s[k])
    ensures PythonStrip(s) == ""
  {
    PythonSpacesFromAll(s, 0);
  }

  /** String.prototype.lastIndexOf(c); None stands for -1. */
  function LastIndexOf(s: string, c: char): (r: Option<nat>)
    ensures r.Some? ==> r.value < |s|
  {
    if s == [] then None
    else if s[|s| - 1] == c then Some(|s| - 1)
    else LastIndexOf(s[..|s| - 1], c)
  }

  /** None exactly when `c` does not occur; otherwise the position of its last occurrence. */
  lemma {:induction false} LastIndexOfShape(s: string, c: char)
    ensures LastIndexOf(s, c).None? <==> c !in s
    ensures LastIndexOf(s, c).Some? ==>
      s[LastIndexOf(s, c).value] == c && c !in s[LastIndexOf(s, c).value + 1..]
  {
    if s != [] && s[|s| - 1] != c {
      LastIndexOfShape(s[..|s| - 1], c);
      assert s == s[..|s| - 1] + [s[|s| - 1]];
      if LastIndexOf(s, c).Some? {
        var r := LastIndexOf(s, c).value;
        assert s[r + 1..] == s[..|s| - 1][r + 1..] + [s[|s| - 1]];
      }
    }
  }

  /** A `c` that no later character repeats is the last occurrence. */
  lemma LastIndexOfAt(s: string, k: nat, c: char)
    requires k < |s| && s[k] == c && c !in s[k + 1..]
    ensures LastIndexOf(s, c) == Some(k)
  {
    LastIndexOfShape(s, c);
    assert s[k] in s;
  }

  /** The first position from `i` on that holds `sep`, or the end of the text. */
  function NextSep(s: string, sep: char, i: nat): (j: nat)
    requires i <= |s|
    ensures i <= j <= |s|
    decreases |s| - i
  {
    if i == |s| || s[i] == sep then i else NextSep(s, sep, i + 1)
  }

  /** NextSep is the first separator position at or after `i`. */
  lemma {:induction false} NextSepShape(s: string, sep: char, i: nat)
    requires i <= |s|
    ensures forall k :: i <= k < NextSep(s, sep, i) ==> s[k] != sep
    ensures NextSep(s, sep, i) < |s| ==> s[NextSep(s, sep, i)] == sep
    decreases |s| - i
  {
    if i < |s| && s[i] != sep {
      NextSepShape(s, sep, i + 1);
    }
  }

  /** A position with no separator between `i` and it, and a separator or the end at it, is
      what NextSep finds. */
  lemma {:induction false} NextSepAt(s: string, sep: char, i: nat, n: nat)
    requires i <= n <= |s|
    requires forall k :: i <= k < n ==> s[k] != sep
    requires n == |s| || s[n] == sep
    ensures NextSep(s, sep, i) == n
    decreases n - i
  {
    if i < n {
      NextSepAt(s, sep, i + 1, n);
    }
  }

  lemma {:induction false} NextSepShift(p: string, t: string, sep: char, k: nat)
    requires k <= |t|
    ensures NextSep(p + t, sep, |p| + k) == |p| + NextSep(t, sep, k)
    decreases |t| - k
  {
    if k < |t| {
      assert (p + t)[|p| + k] == t[k];
      NextSepShift(p, t, sep, k + 1);
    }
  }

  /** The pieces of `s[i..]` between separators. */
  function SplitFrom(s: string, sep: char, i: nat): seq<string>
    requires i <= |s|
    decreases |s| - i
  {
    var j := NextSep(s, sep, i);
    if j == |s| then [s[i..]] else [s[i..j]] + SplitFrom(s, sep, j + 1)
  }

  /** str.split(sep) / String.prototype.split(sep) for a one-character separator:
      the maximal separator-free pieces, in order. */
  function Split(s: string, sep: char): seq<string> {
    SplitFrom(s, sep, 0)
  }

  lemma {:induction false} SplitFromShape(s: string, sep: char, i: nat)
    requires i <= |s|
    ensures |SplitFrom(s, sep, i)| >= 1
    ensures forall k :: 0 <= k < |SplitFrom(s, sep, i)| ==> sep !in SplitFrom(s, sep, i)[k]
    decreases |s| - i
  {
    var j := NextSep(s, sep, i);
    NextSepShape(s, sep, i);
    assert forall m :: 0 <= m < j - i ==> s[i..j][m] == s[i + m];
    if j < |s| {
      SplitFromShape(s, sep, j + 1);
      var rest := SplitFrom(s, sep, j + 1);
      assert SplitFrom(s, sep, i) == [s[i..j]] + rest;
      assert forall k :: 1 <= k < |rest| + 1 ==> SplitFrom(s, sep, i)[k] == rest[k - 1];
    } else {
      assert s[i..] == s[i..j];
    }
  }

  /** There is at least one piece, and no piece holds the separator. */
  lemma SplitShape(s: string, sep: char)
    ensures |Split(s, sep)| >= 1
    ensures forall k :: 0 <= k < |Split(s, sep)| ==> sep !in Split(s, sep)[k]
  {
    SplitFromShape(s, sep, 0);
  }

  /** Text without the separator is one piece. */
  lemma SplitNoSep(s: string, sep: char)
    requires sep !in s
    ensures Split(s, sep) == [s]
  {
    NextSepAt(s, sep, 0, |s|);
    assert s[0..] == s;
  }

  lemma {:induction false} SplitFromShift(p: string, t: string, sep: char, k: nat)
    requires k <= |t|
    ensures SplitFrom(p + t, sep, |p| + k) == SplitFrom(t, sep, k)
    decreases |t| - k
  {
    var j := NextSep(t, sep, k);
    NextSepShift(p, t, sep, k);
    if j < |t| {
      assert (p + t)[|p| + k..|p| + j] == t[k..j];
      SplitFromShift(p, t, sep, j + 1);
    } else {
      assert (p + t)[|p| + k..] == t[k..];
    }
  }

  /** sep.join(parts) / parts.join(sep). */
  function Join(parts: seq<string>, sep: char): string
  {
    if |parts| == 0 then ""
    else if |parts| == 1 then parts[0]
    else parts[0] + [sep] + Join(parts[1..], sep)
  }

  /** sep.join(parts) for a separator of any length. */
  function JoinWith(parts: seq<string>, sep: string): string
  {
    if |parts| == 0 then ""
    else if |parts| == 1 then parts[0]
    else parts[0] + sep + JoinWith(parts[1..], sep)
  }

  /** str.replace(from, to) for single characters. */
  function ReplaceChar(s: string, from: char, to: char): (r: string)
    ensures |r| == |s|
    ensures forall i :: 0 <= i < |s| ==> r[i] == (if s[i] == from then to else s[i])
  {
    seq(|s|, i requires 0 <= i < |s| => if s[i] == from then to else s[i])
  }

  /** Splitting what was joined gives back the pieces, when no piece holds the separator. */
  lemma {:induction false} SplitJoin(parts: seq<string>, sep: char)
    requires |parts| >= 1
    requires forall k :: 0 <= k < |parts| ==> sep !in parts[k]
    ensures Split(Join(parts, sep), sep) == parts
  {
    if |parts| > 1 {
      SplitJoin(parts[1..], sep);
      SplitAfter(parts[0], Join(parts[1..], sep), sep);
    } else {
      SplitNoSep(parts[0], sep);
    }
  }

  /** Joining what was split gives back the text. */
  lemma JoinSplit(s: string, sep: char)
    ensures Join(Split(s, sep), sep) == s
  {
    JoinSplitFrom(s, sep, 0);
    assert s[0..] == s;
  }

  lemma {:induction false} JoinSplitFrom(s: string, sep: char, i: nat)
    requires i <= |s|
    ensures Join(SplitFrom(s, sep, i), sep) == s[i..]
    decreases |s| - i
  {
    var j := NextSep(s, sep, i);
    if j < |s| {
      NextSepShape(s, sep, i);
      JoinSplitFrom(s, sep, j + 1);
      SplitFromShape(s, sep, j + 1);
      JoinCons(s[i..j], SplitFrom(s, sep, j + 1), sep);
      SliceAround(s, i, j);
    }
  }

  /** The text from `i` is the piece before position `j`, the character at `j`, and the rest. */
  lemma SliceAround(s: string, i: nat, j: nat)
    requires i <= j < |s|
    ensures s[i..] == s[i..j] + [s[j]] + s[j + 1..]
  {
  }

  /** A separator-free head is split off as the first piece. */
  lemma SplitAfter(head: string, tail: string, sep: char)
    requires sep !in head
    ensures Split(head + [sep] + tail, sep) == [head] + Split(tail, sep)
  {
    var s := head + [sep] + tail;
    assert s[|head|] == sep;
    assert forall j :: 0 <= j < |head| ==> s[j] == head[j];
    NextSepAt(s, sep, 0, |head|);
    assert s[0..|head|] == head;
    assert s == (head + [sep]) + tail;
    SplitFromShift(head + [sep], tail, sep, 0);
  }

  /** The first two pieces of a split, with the separator between them, begin the text. */
  lemma SplitFirstTwo(s: string, sep: char)
    requires |Split(s, sep)| >= 2
    ensures StartsWith(s, Split(s, sep)[0] + [sep] + Split(s, sep)[1])
  {
    var parts := Split(s, sep);
    JoinSplit(s, sep);
    JoinStartsWithFirst(parts[1..], sep);
    assert s == parts[0] + [sep] + Join(parts[1..], sep);
  }

  lemma JoinStartsWithFirst(parts: seq<string>, sep: char)
    requires |parts| >= 1
    ensures StartsWith(Join(parts, sep), parts[0])
  {
  }

  lemma JoinCons(head: string, rest: seq<string>, sep: char)
    requires |rest| >= 1
    ensures Join([head] + rest, sep) == head + [sep] + Join(rest, sep)
  {
    assert ([head] + rest)[1..] == rest;
  }

  lemma ConsAppend<T>(x: seq<T>, t: seq<T>)
    requires |x| >= 1
    ensures [x[0]] + (x[1..] + t) == x + t
  {
    assert [x[0]] + x[1..] == x;
  }

  /** Splitting a joined text whose first lines hold no separator gives those lines back first. */
  lemma {:induction false} SplitJoinPrefix(front: seq<string>, back: seq<string>, sep: char)
    requires |front| >= 1 && |back| >= 1
    requires forall k :: 0 <= k < |front| ==> sep !in front[k]
    ensures Split(Join(front + back, sep), sep) == front + Split(Join(back, sep), sep)
  {
    var rest := front[1..] + back;
    assert front + back == [front[0]] + rest;
    JoinCons(front[0], rest, sep);
    SplitAfter(front[0], Join(rest, sep), sep);
    if |front| == 1 {
      assert rest == back;
    } else {
      SplitJoinPrefix(front[1..], back, sep);
      ConsAppend(front, Split(Join(back, sep), sep));
    }
  }

  function DigitChar(d: nat): char
    requires d < 10
  {
    ('0' as int + d) as char
  }

  /** The decimal rendering of a natural number (Python's str(n), f"{n}"). */
  function NatToString(n: nat): (r: string)
    ensures |r| >= 1
    ensures forall i :: 0 <= i < |r| ==> IsDigit(r[i])
  {
    if n < 10 then [DigitChar(n)] else NatToString(n / 10) + [DigitChar(n % 10)]
  }

  /** The value of a decimal digit (0 for any other character). */
  function DigitValue(c: char): (d: nat)
    ensures d < 10
    ensures IsDigit(c) ==> DigitChar(d) == c
  {
    if IsDigit(c) then c as int - '0' as int else 0
  }

  /** The value of a string of decimal digits. */
  function DigitsValue(ds: string): nat {
    if ds == [] then 0
    else DigitsValue(ds[..|ds| - 1]) * 10 + DigitValue(ds[|ds| - 1])
  }

  lemma {:induction false} DigitsValueOfNatToString(n: nat)
    ensures DigitsValue(NatToString(n)) == n
  {
    if n >= 10 {
      DigitsValueOfNatToString(n / 10);
      var r := NatToString(n);
      assert r[..|r| - 1] == NatToString(n / 10);
    }
  }

  /** The length of the run of decimal digits at the start of `s`. */
  function LeadingDigits(s: string): (n: nat)
    ensures n <= |s|
  {
    if |s| > 0 && IsDigit(s[0]) then 1 + LeadingDigits(s[1..]) else 0
  }

  /** JavaScript's parseInt(s, 10): leading whitespace, an optional sign, then the longest run
      of digits. None stands for NaN (no digit at all). */
  function ParseIntJs(s: string): Option<int> {
    ParseSigned(TrimStart(s))
  }

  /** parseInt after the leading whitespace. */
  function ParseSigned(t: string): Option<int> {
    var u := SkipSign(t);
    var n := LeadingDigits(u);
    if n == 0 then None
    else
      var v: int := DigitsValue(u[..n]);
      Some(if |t| > 0 && t[0] == '-' then -v else v)
  }

  function SkipSign(t: string): string {
    if |t| > 0 && (t[0] == '+' || t[0] == '-') then t[1..] else t
  }

  /** parseInt skips leading whitespace. */
  lemma {:induction false} ParseIntSkipsSpace(ws: string, s: string)
    requires forall i :: 0 <= i < |ws| ==> IsSpace(ws[i])
    ensures ParseIntJs(ws + s) == ParseIntJs(s)
  {
    TrimStartSkips(ws, s);
  }

  lemma {:induction false} ParseIntOfDigits(ds: string)
    requires |ds| >= 1 && forall i :: 0 <= i < |ds| ==> IsDigit(ds[i])
    ensures ParseIntJs(ds) == Some(DigitsValue(ds))
  {
    assert !IsSpace(ds[0]);
    assert SpacesFrom(ds, 0) == 0;
    assert TrimStart(ds) == ds;
    assert SkipSign(ds) == ds;
    assert ParseIntJs(ds) == ParseSigned(ds);
    LeadingDigitsAll(ds);
    assert ds[..|ds|] == ds;
  }

  /** parseInt reads back what NatToString wrote, after any leading whitespace. */
  lemma {:induction false} ParseIntOfNatToString(ws: string, n: nat)
    requires forall i :: 0 <= i < |ws| ==> IsSpace(ws[i])
    ensures ParseIntJs(ws + NatToString(n)) == Some(n)
  {
    ParseIntSkipsSpace(ws, NatToString(n));
    ParseIntOfDigits(NatToString(n));
    DigitsValueOfNatToString(n);
  }

  lemma {:induction false} LeadingDigitsAll(ds: string)
    requires forall i :: 0 <= i < |ds| ==> IsDigit(ds[i])
    ensures LeadingDigits(ds) == |ds|
  {
    if |ds| > 0 {
      LeadingDigitsAll(ds[1..]);
    }
  }
}
