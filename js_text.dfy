/**
 * The ECMAScript string operations the receipt code relies on, over strings
 * as sequences of characters: the character classes of regular expressions
 * (`\d`, `\w`, `\s`, line terminators), `trim`, `toLowerCase`/`toUpperCase`,
 * canonical decomposition with combining marks removed, `includes`,
 * `startsWith`, `replace` with a string pattern, `split` and the line
 * splitting both parsers start from.
 *
 * Case mapping and decomposition cover ASCII and Latin-1 (U+0000..U+00FF);
 * every other character is left as it is.
 */
module JsText {
  import opened Wrappers

  // ---------------------------------------------------------------------------
  // Character classes of regular expressions without the `u` flag
  // ---------------------------------------------------------------------------

  /** `\d` */
  predicate IsDigit(c: char) { '0' <= c <= '9' }

  /** `\w` */
  predicate IsWordChar(c: char) {
    IsDigit(c) || 'A' <= c <= 'Z' || 'a' <= c <= 'z' || c == '_'
  }

  /** The LineTerminator characters, which `.` does not match. */
  predicate IsLineTerminator(c: char) {
    c == '\n' || c == '\r' || c == '\U{2028}' || c == '\U{2029}'
  }

  /** `\s`: WhiteSpace and LineTerminator, also the set that `trim` removes. */
  predicate IsSpace(c: char) {
    || c == '\t' || c == '\U{000B}' || c == '\U{000C}' || c == ' ' || c == '\U{00A0}'
    || c == '\U{FEFF}' || c == '\U{1680}' || ('\U{2000}' <= c <= '\U{200A}')
    || c == '\U{202F}' || c == '\U{205F}' || c == '\U{3000}'
    || IsLineTerminator(c)
  }

  predicate AllDigits(s: string) {
    forall i | 0 <= i < |s| :: IsDigit(s[i])
  }

  predicate NoLineTerminator(s: string) {
    forall i | 0 <= i < |s| :: !IsLineTerminator(s[i])
  }

  // ---------------------------------------------------------------------------
  // trim
  // ---------------------------------------------------------------------------

  /** The number of white-space characters `s` starts with. */
  function LeadingSpaces(s: string): (n: nat)
    ensures n <= |s|
  {
    if s != [] && IsSpace(s[0]) then 1 + LeadingSpaces(s[1..]) else 0
  }

  /** The number of white-space characters `s` ends with. */
  function TrailingSpaces(s: string): (n: nat)
    ensures n <= |s|
  {
    if s != [] && IsSpace(s[|s| - 1]) then 1 + TrailingSpaces(s[..|s| - 1]) else 0
  }

  /** `LeadingSpaces` counts exactly the white space before the first other character. */
  lemma {:induction false} LeadingSpacesSpec(s: string)
    ensures forall i | 0 <= i < LeadingSpaces(s) :: IsSpace(s[i])
    ensures LeadingSpaces(s) == |s| || !IsSpace(s[LeadingSpaces(s)])
  {
    if s != [] && IsSpace(s[0]) {
      LeadingSpacesSpec(s[1..]);
    }
  }

  /** `TrailingSpaces` counts exactly the white space after the last other character. */
  lemma {:induction false} TrailingSpacesSpec(s: string)
    ensures forall i | |s| - TrailingSpaces(s) <= i < |s| :: IsSpace(s[i])
    ensures TrailingSpaces(s) == |s| || !IsSpace(s[|s| - TrailingSpaces(s) - 1])
  {
    if s != [] && IsSpace(s[|s| - 1]) {
      TrailingSpacesSpec(s[..|s| - 1]);
    }
  }

  /** `s.trimStart()` */
  function TrimStart(s: string): string {
    s[LeadingSpaces(s)..]
  }

  /** `s.trimEnd()` */
  function TrimEnd(s: string): string {
    s[..|s| - TrailingSpaces(s)]
  }

  /** `s.trim()` */
  function Trim(s: string): string {
    TrimEnd(TrimStart(s))
  }

  /** `trim` keeps the segment of `s` that starts after its leading white space. */
  lemma TrimSegment(s: string)
    ensures LeadingSpaces(s) + |Trim(s)| <= |s|
    ensures Trim(s) == s[LeadingSpaces(s)..LeadingSpaces(s) + |Trim(s)|]
  {
  }

  /** What `trim` keeps neither starts nor ends with white space. */
  lemma TrimEnds(s: string)
    ensures Trim(s) == [] || (!IsSpace(Trim(s)[0]) && !IsSpace(Trim(s)[|Trim(s)| - 1]))
  {
    var u := TrimStart(s);
    LeadingSpacesSpec(s);
    TrailingSpacesSpec(u);
    if Trim(s) != [] {
      assert Trim(s)[0] == u[0];
    }
  }

  /** What `trim` removes is white space. */
  lemma TrimRemovesSpaces(s: string)
    ensures forall i | 0 <= i < LeadingSpaces(s) :: IsSpace(s[i])
    ensures forall i | LeadingSpaces(s) + |Trim(s)| <= i < |s| :: IsSpace(s[i])
  {
    var a := LeadingSpaces(s);
    var u := s[a..];
    LeadingSpacesSpec(s);
    TrailingSpacesSpec(u);
    forall i | a + |Trim(s)| <= i < |s| ensures IsSpace(s[i]) {
      assert s[i] == u[i - a];
    }
  }

  /** `trim` leaves nothing exactly when every character is white space. */
  lemma TrimEmpty(s: string)
    ensures Trim(s) == [] <==> forall i | 0 <= i < |s| :: IsSpace(s[i])
  {
    TrimRemovesSpaces(s);
    if forall i | 0 <= i < |s| :: IsSpace(s[i]) {
      LeadingSpacesSpec(s);
    }
  }

  /** A string that starts and ends with a character other than white space is its own trim. */
  lemma TrimNoSpace(s: string)
    requires s != [] && !IsSpace(s[0]) && !IsSpace(s[|s| - 1])
    ensures Trim(s) == s
  {
  }

  // ---------------------------------------------------------------------------
  // Case mapping and decomposition (ASCII and Latin-1)
  // ---------------------------------------------------------------------------

  /**
   * `toLowerCase` of one character: the ASCII and Latin-1 capitals and the
   * Kelvin sign. `İ` (U+0130), whose lower case is two characters, is kept.
   */
  function LowerChar(c: char): char {
    if 'A' <= c <= 'Z' || ('\U{00C0}' <= c <= '\U{00DE}' && c != '\U{00D7}') then
      (c as int + 32) as char
    else if c == '\U{212A}' then 'k'
    else c
  }

  /** `s.toLowerCase()` */
  function ToLower(s: string): (r: string)
    ensures |r| == |s|
    ensures forall i | 0 <= i < |s| :: r[i] == LowerChar(s[i])
  {
    if s == [] then [] else [LowerChar(s[0])] + ToLower(s[1..])
  }

  /** `toUpperCase` of one character; `ß` becomes two letters. */
  function UpperChar(c: char): string {
    if 'a' <= c <= 'z' || ('\U{00E0}' <= c <= '\U{00FE}' && c != '\U{00F7}') then
      [(c as int - 32) as char]
    else if c == '\U{00DF}' then "SS"
    else if c == '\U{00FF}' then ['\U{0178}']
    else if c == '\U{00B5}' then ['\U{039C}']
    else [c]
  }

  /** `s.toUpperCase()` */
  function ToUpper(s: string): string {
    if s == [] then [] else UpperChar(s[0]) + ToUpper(s[1..])
  }

  /** A combining diacritical mark, the block U+0300..U+036F. */
  predicate IsCombiningMark(c: char) { '\U{0300}' <= c <= '\U{036F}' }

  /**
   * The base letter of a Latin-1 letter under canonical decomposition, for
   * the letters whose decomposition is a base letter and combining marks.
   */
  function BaseLetter(c: char): char {
    if '\U{00C0}' <= c <= '\U{00C5}' then 'A'
    else if c == '\U{00C7}' then 'C'
    else if '\U{00C8}' <= c <= '\U{00CB}' then 'E'
    else if '\U{00CC}' <= c <= '\U{00CF}' then 'I'
    else if c == '\U{00D1}' then 'N'
    else if '\U{00D2}' <= c <= '\U{00D6}' then 'O'
    else if '\U{00D9}' <= c <= '\U{00DC}' then 'U'
    else if c == '\U{00DD}' then 'Y'
    else if '\U{00E0}' <= c <= '\U{00E5}' then 'a'
    else if c == '\U{00E7}' then 'c'
    else if '\U{00E8}' <= c <= '\U{00EB}' then 'e'
    else if '\U{00EC}' <= c <= '\U{00EF}' then 'i'
    else if c == '\U{00F1}' then 'n'
    else if '\U{00F2}' <= c <= '\U{00F6}' then 'o'
    else if '\U{00F9}' <= c <= '\U{00FC}' then 'u'
    else if c == '\U{00FD}' || c == '\U{00FF}' then 'y'
    else c
  }

  /** `s.normalize("NFD").replace(/[̀-ͯ]/g, "")` */
  function StripAccents(s: string): (r: string)
    ensures |r| <= |s|
  {
    if s == [] then []
    else (if IsCombiningMark(s[0]) then [] else [BaseLetter(s[0])]) + StripAccents(s[1..])
  }

  /**
   * The canonicalisation a case-insensitive regular expression without the
   * `u` flag applies to a character before comparing it: its upper case,
   * unless that is not one character or would turn a non-ASCII character
   * into an ASCII one.
   */
  function Canonical(c: char): char {
    var u := UpperChar(c);
    if |u| == 1 && !(c as int >= 128 && (u[0] as int) < 128) then u[0] else c
  }

  /** `p` matches `s` at `i` under the `i` flag. */
  predicate OccursAtI(s: string, p: string, i: nat) {
    i + |p| <= |s| && forall k | 0 <= k < |p| :: Canonical(s[i + k]) == Canonical(p[k])
  }

  // ---------------------------------------------------------------------------
  // Searching and replacing
  // ---------------------------------------------------------------------------

  predicate OccursAt(s: string, p: string, i: nat) {
    i + |p| <= |s| && s[i..i + |p|] == p
  }

  /** The first index at or after `from` where `p` occurs in `s`. */
  function IndexOfFrom(s: string, p: string, from: nat): Option<nat>
    decreases |s| - from
  {
    if from + |p| > |s| then None
    else if OccursAt(s, p, from) then Some(from)
    else IndexOfFrom(s, p, from + 1)
  }

  /** `IndexOfFrom` finds the first occurrence at or after `from`, and `None` means there is none. */
  lemma {:induction false} IndexOfFromSpec(s: string, p: string, from: nat)
    decreases |s| - from
    ensures var r := IndexOfFrom(s, p, from);
      (r.Some? ==> from <= r.value && OccursAt(s, p, r.value)
                   && forall j | from <= j < r.value :: !OccursAt(s, p, j))
      && (r.None? ==> forall j | from <= j :: !OccursAt(s, p, j))
  {
    if from + |p| <= |s| && !OccursAt(s, p, from) {
      IndexOfFromSpec(s, p, from + 1);
    }
  }

  /** An occurrence with none before it (from `from` on) is the one found. */
  lemma {:induction false} IndexOfFromFirst(s: string, p: string, from: nat, i: nat)
    requires from <= i && OccursAt(s, p, i)
    requires forall j | from <= j < i :: !OccursAt(s, p, j)
    decreases i - from
    ensures IndexOfFrom(s, p, from) == Some(i)
  {
    if from < i {
      IndexOfFromFirst(s, p, from + 1, i);
    }
  }

  /** `s.indexOf(p)`, with `None` for -1. */
  function IndexOf(s: string, p: string): Option<nat> {
    IndexOfFrom(s, p, 0)
  }

  /** `s.includes(p)` */
  predicate Contains(s: string, p: string) {
    IndexOf(s, p).Some?
  }

  /** `s.startsWith(p)` */
  predicate StartsWith(s: string, p: string) {
    OccursAt(s, p, 0)
  }

  /** `includes` holds exactly when the pattern occurs somewhere. */
  lemma ContainsSpec(s: string, p: string)
    ensures Contains(s, p) <==> exists i: nat :: OccursAt(s, p, i)
  {
    IndexOfFromSpec(s, p, 0);
  }

  lemma ContainsAt(s: string, p: string, i: nat)
    requires OccursAt(s, p, i)
    ensures Contains(s, p)
  {
    IndexOfFromSpec(s, p, 0);
  }

  /** A text contains what its tail contains. */
  lemma ContainsInTail(h: string, rest: string, p: string)
    requires Contains(rest, p)
    ensures Contains(h + rest, p)
  {
    ContainsSpec(rest, p);
    var i: nat :| OccursAt(rest, p, i);
    assert (h + rest)[|h| + i..|h| + i + |p|] == rest[i..i + |p|];
    ContainsAt(h + rest, p, |h| + i);
  }

  /** A text contains its own head. */
  lemma ContainsHead(p: string, rest: string)
    ensures Contains(p + rest, p)
  {
    assert (p + rest)[..|p|] == p;
    ContainsAt(p + rest, p, 0);
  }

  /** What a contained text contains, the text contains too. */
  lemma ContainsWithin(s: string, t: string, p: string)
    requires Contains(s, t) && Contains(t, p)
    ensures Contains(s, p)
  {
    ContainsSpec(s, t);
    ContainsSpec(t, p);
    var i: nat :| OccursAt(s, t, i);
    var j: nat :| OccursAt(t, p, j);
    var a, b := s[i + j..i + j + |p|], t[j..j + |p|];
    assert a == b by {
      assert s[i..i + |t|] == t;
      forall k | 0 <= k < |p| ensures a[k] == b[k] {
        assert s[i + j + k] == s[i..i + |t|][j + k];
      }
    }
    ContainsAt(s, p, i + j);
  }

  /** Lower-casing both sides keeps an occurrence. */
  lemma ToLowerContains(s: string, p: string)
    requires Contains(s, p)
    ensures Contains(ToLower(s), ToLower(p))
  {
    ContainsSpec(s, p);
    var i: nat :| OccursAt(s, p, i);
    var ls, lp := ToLower(s), ToLower(p);
    assert ls[i..i + |p|] == lp by {
      forall k | 0 <= k < |p| ensures ls[i..i + |p|][k] == lp[k] {
        assert s[i..i + |p|][k] == p[k];
      }
    }
    ContainsAt(ls, lp, i);
  }

  /** `s.slice(0, n)` */
  function Slice(s: string, n: nat): (r: string)
    ensures |r| <= n && |r| <= |s| && r == s[..|r|]
    ensures |s| >= n ==> |r| == n
    ensures |s| <= n ==> r == s
  {
    if |s| <= n then s else s[..n]
  }

  /** `s.replace(p, r)` for a string pattern `p`: only the first occurrence is replaced. */
  function ReplaceFirst(s: string, p: string, r: string): string {
    match IndexOf(s, p)
    case None => s
    case Some(i) =>
      IndexOfFromSpec(s, p, 0);
      s[..i] + r + s[i + |p|..]
  }

  /** `s.replace(/[^...]/g, "")` and friends: the characters of `s` that `keep` admits, in order. */
  function Filter(s: string, keep: char -> bool): (r: string)
    ensures |r| <= |s|
  {
    if s == [] then [] else (if keep(s[0]) then [s[0]] else []) + Filter(s[1..], keep)
  }

  /** Every character `Filter` keeps is admitted by `keep` and comes from `s`. */
  lemma {:induction false} FilterKeeps(s: string, keep: char -> bool)
    ensures forall i | 0 <= i < |Filter(s, keep)| :: keep(Filter(s, keep)[i]) && Filter(s, keep)[i] in s
  {
    if s != [] {
      FilterKeeps(s[1..], keep);
    }
  }

  /** Nothing is kept when `keep` admits no character of `s`. */
  lemma {:induction false} FilterNone(s: string, keep: char -> bool)
    requires forall i | 0 <= i < |s| :: !keep(s[i])
    ensures Filter(s, keep) == []
  {
    if s != [] {
      FilterNone(s[1..], keep);
    }
  }

  lemma {:induction false} FilterAppend(a: string, b: string, keep: char -> bool)
    ensures Filter(a + b, keep) == Filter(a, keep) + Filter(b, keep)
  {
    if a == [] {
      assert a + b == b;
    } else {
      var head := if keep(a[0]) then [a[0]] else [];
      assert (a + b)[0] == a[0];
      assert (a + b)[1..] == a[1..] + b;
      FilterAppend(a[1..], b, keep);
      calc {
        Filter(a + b, keep);
        head + Filter(a[1..] + b, keep);
        head + (Filter(a[1..], keep) + Filter(b, keep));
        (head + Filter(a[1..], keep)) + Filter(b, keep);
      }
    }
  }

  lemma {:induction false} FilterAll(s: string, keep: char -> bool)
    requires forall i | 0 <= i < |s| :: keep(s[i])
    ensures Filter(s, keep) == s
  {
    if s != [] {
      FilterAll(s[1..], keep);
    }
  }

  /** `s.replace(a, b)` for one-character strings `a` and `b`. */
  function ReplaceFirstChar(s: string, a: char, b: char): string {
    ReplaceFirst(s, [a], [b])
  }

  lemma OccursAtChar(s: string, a: char, j: nat)
    ensures OccursAt(s, [a], j) <==> j < |s| && s[j] == a
  {
    if j < |s| && s[j] == a {
      assert s[j..j + 1] == [a];
    }
  }

  /** Each character after the replacement is `b` or a character of `s`. */
  lemma ReplaceFirstCharChars(s: string, a: char, b: char)
    ensures forall k | 0 <= k < |ReplaceFirstChar(s, a, b)| ::
      ReplaceFirstChar(s, a, b)[k] == b || ReplaceFirstChar(s, a, b)[k] in s
  {
    IndexOfFromSpec(s, [a], 0);
    if IndexOf(s, [a]).Some? {
      var i := IndexOf(s, [a]).value;
      var r := ReplaceFirstChar(s, a, b);
      assert r == s[..i] + [b] + s[i + 1..];
      forall k | 0 <= k < |r| ensures r[k] == b || r[k] in s {
        if k < i {
          assert r[k] == s[k];
        } else if k > i {
          assert r[k] == s[k];
        }
      }
    }
  }

  /** Only the first `a` is replaced; what comes after it is kept as it is. */
  lemma ReplaceFirstCharAt(d: string, a: char, b: char, c: string)
    requires a !in d
    ensures ReplaceFirstChar(d + [a] + c, a, b) == d + [b] + c
  {
    var s := d + [a] + c;
    OccursAtChar(s, a, |d|);
    forall j | 0 <= j < |d| ensures !OccursAt(s, [a], j) {
      OccursAtChar(s, a, j);
      assert s[j] == d[j];
    }
    IndexOfFromFirst(s, [a], 0, |d|);
    assert s[..|d|] == d && s[|d| + 1..] == c;
  }

  /** `s.replace(a, "")` deletes the first `a` only. */
  lemma RemoveFirstCharAt(d: string, a: char, c: string)
    requires a !in d
    ensures ReplaceFirst(d + [a] + c, [a], []) == d + c
  {
    var s := d + [a] + c;
    OccursAtChar(s, a, |d|);
    forall j | 0 <= j < |d| ensures !OccursAt(s, [a], j) {
      OccursAtChar(s, a, j);
      assert s[j] == d[j];
    }
    IndexOfFromFirst(s, [a], 0, |d|);
    assert s[..|d|] == d && s[|d| + 1..] == c;
  }

  /** A string without `a` has nothing to replace. */
  lemma ReplaceFirstAbsent(s: string, a: char, r: string)
    requires a !in s
    ensures ReplaceFirst(s, [a], r) == s
  {
    IndexOfFromSpec(s, [a], 0);
    if IndexOf(s, [a]).Some? {
      OccursAtChar(s, a, IndexOf(s, [a]).value);
    }
  }

  /** A string without `a` is left as it is. */
  lemma ReplaceFirstCharAbsent(s: string, a: char, b: char)
    requires a !in s
    ensures ReplaceFirstChar(s, a, b) == s
  {
    ReplaceFirstAbsent(s, a, [b]);
  }

  // ---------------------------------------------------------------------------
  // Splitting
  // ---------------------------------------------------------------------------

  /** `s.split(sep)` for a one-character separator. */
  function SplitOn(s: string, sep: char): (r: seq<string>)
    ensures |r| >= 1
    ensures forall k | 0 <= k < |r| :: sep !in r[k]
  {
    if s == [] then [[]]
    else
      var rest := SplitOn(s[1..], sep);
      if s[0] == sep then [[]] + rest else [[s[0]] + rest[0]] + rest[1..]
  }

  /** `parts.join(sep)` */
  function Join(parts: seq<string>, sep: char): string
    requires |parts| >= 1
  {
    if |parts| == 1 then parts[0] else parts[0] + [sep] + Join(parts[1..], sep)
  }

  /** Every part is contained in the joined text. */
  lemma {:induction false} JoinContains(parts: seq<string>, sep: char, k: nat)
    requires |parts| >= 1 && k < |parts|
    ensures Contains(Join(parts, sep), parts[k])
  {
    if |parts| == 1 {
      ContainsHead(parts[0], []);
      assert parts[0] + [] == parts[0];
    } else {
      var rest := Join(parts[1..], sep);
      if k == 0 {
        ContainsHead(parts[0], [sep] + rest);
        assert parts[0] + [sep] + rest == parts[0] + ([sep] + rest);
      } else {
        JoinContains(parts[1..], sep, k - 1);
        assert parts[1..][k - 1] == parts[k];
        ContainsInTail(parts[0] + [sep], rest, parts[k]);
      }
    }
  }

  /** Joining what `split` produced gives back the string. */
  lemma {:induction false} SplitJoin(s: string, sep: char)
    ensures Join(SplitOn(s, sep), sep) == s
  {
    if s != [] {
      var rest := SplitOn(s[1..], sep);
      SplitJoin(s[1..], sep);
      if s[0] != sep {
        var r := SplitOn(s, sep);
        assert r[0] == [s[0]] + rest[0] && r[1..] == rest[1..];
        if |rest| == 1 {
          assert Join(r, sep) == [s[0]] + rest[0];
        } else {
          assert Join(rest, sep) == rest[0] + [sep] + Join(rest[1..], sep);
          assert Join(r, sep) == r[0] + [sep] + Join(rest[1..], sep);
        }
      }
    }
  }

  /** A string without the separator splits into itself alone. */
  lemma {:induction false} SplitOnNoSep(a: string, sep: char)
    requires sep !in a
    ensures SplitOn(a, sep) == [a]
  {
    if a != [] {
      SplitOnNoSep(a[1..], sep);
      assert [a[0]] + a[1..] == a;
    }
  }

  /** The text before the first separator is the first piece. */
  lemma {:induction false} SplitOnSep(a: string, sep: char, b: string)
    requires sep !in a
    ensures SplitOn(a + [sep] + b, sep) == [a] + SplitOn(b, sep)
  {
    var s := a + [sep] + b;
    if a == [] {
      assert s[1..] == b;
    } else {
      assert s[1..] == a[1..] + [sep] + b;
      SplitOnSep(a[1..], sep, b);
      assert [a[0]] + a[1..] == a;
    }
  }

  /** Drops one `\r` at the end, the `\r?` of the separator `/\r?\n/`. */
  function DropCarriageReturn(s: string): string {
    if s != [] && s[|s| - 1] == '\r' then s[..|s| - 1] else s
  }

  /** `raw.split(/\r?\n/)`: split at `\n`; a `\r` just before a `\n` belongs to the separator. */
  function SplitLines(raw: string): (r: seq<string>)
    ensures |r| >= 1
  {
    var pieces := SplitOn(raw, '\n');
    seq(|pieces|, k requires 0 <= k < |pieces| =>
      if k < |pieces| - 1 then DropCarriageReturn(pieces[k]) else pieces[k])
  }

  /** Keeps the non-empty strings, in order. */
  function NonEmpty(ls: seq<string>): (r: seq<string>)
    ensures |r| <= |ls|
    ensures forall k | 0 <= k < |r| :: r[k] != []
  {
    if ls == [] then []
    else (if ls[0] != [] then [ls[0]] else []) + NonEmpty(ls[1..])
  }

  function TrimAll(ls: seq<string>): (r: seq<string>)
    ensures |r| == |ls| && forall k | 0 <= k < |ls| :: r[k] == Trim(ls[k])
  {
    seq(|ls|, k requires 0 <= k < |ls| => Trim(ls[k]))
  }

  /**
   * `raw.split(/\r?\n/).map((l) => l.trim()).filter((l) => l.length > 0)`,
   * the line list both receipt parsers start from.
   */
  function ReceiptLines(raw: string): seq<string> {
    NonEmpty(TrimAll(SplitLines(raw)))
  }

  /** Every receipt line is non-empty and has no surrounding white space. */
  lemma ReceiptLinesTrimmed(raw: string)
    ensures var r := ReceiptLines(raw);
      forall k | 0 <= k < |r| :: r[k] != [] && r[k] == Trim(r[k])
  {
    var ts := TrimAll(SplitLines(raw));
    var r := NonEmpty(ts);
    NonEmptyIn(ts);
    forall k | 0 <= k < |r| ensures r[k] != [] && r[k] == Trim(r[k]) {
      var j :| 0 <= j < |ts| && ts[j] == r[k];
      TrimIdempotent(SplitLines(raw)[j]);
    }
  }

  lemma {:induction false} NonEmptyIn(ls: seq<string>)
    ensures forall k | 0 <= k < |NonEmpty(ls)| :: NonEmpty(ls)[k] in ls
  {
    if ls != [] {
      NonEmptyIn(ls[1..]);
    }
  }

  /** `filter((l) => l.length > 0)` keeps exactly the non-empty strings. */
  lemma {:induction false} NonEmptyMembers(ls: seq<string>)
    ensures forall s :: s in NonEmpty(ls) <==> s in ls && s != []
  {
    if ls != [] {
      NonEmptyMembers(ls[1..]);
      assert ls == [ls[0]] + ls[1..];
    }
  }

  /** The filter distributes over concatenation, so the kept strings stay in order. */
  lemma {:induction false} NonEmptyAppend(a: seq<string>, b: seq<string>)
    ensures NonEmpty(a + b) == NonEmpty(a) + NonEmpty(b)
  {
    if a != [] {
      assert (a + b)[1..] == a[1..] + b;
      NonEmptyAppend(a[1..], b);
    } else {
      assert a + b == b;
    }
  }

  /** `i` is the position of the first non-empty string of `ls`. */
  predicate FirstNonEmptyAt(ls: seq<string>, i: int) {
    0 <= i < |ls| && ls[i] != [] && forall j | 0 <= j < i :: ls[j] == []
  }

  /** The first kept string is the first non-empty one. */
  lemma {:induction false} NonEmptyFirst(ls: seq<string>, i: int)
    requires FirstNonEmptyAt(ls, i)
    ensures NonEmpty(ls) != [] && NonEmpty(ls)[0] == ls[i]
  {
    if i > 0 {
      assert ls[0] == [];
      assert FirstNonEmptyAt(ls[1..], i - 1);
      NonEmptyFirst(ls[1..], i - 1);
    }
  }

  /** Nothing is kept exactly when every string is empty. */
  lemma NonEmptyNone(ls: seq<string>)
    ensures NonEmpty(ls) == [] <==> forall j | 0 <= j < |ls| :: ls[j] == []
  {
    NonEmptyMembers(ls);
    if NonEmpty(ls) == [] {
      forall j | 0 <= j < |ls| ensures ls[j] == [] {
        assert ls[j] in ls;
      }
    } else {
      assert NonEmpty(ls)[0] in NonEmpty(ls);
    }
  }

  lemma TrimIdempotent(s: string)
    ensures Trim(Trim(s)) == Trim(s)
  {
    TrimEnds(s);
    var t := Trim(s);
    if t != [] {
      TrimNoSpace(t);
    }
  }
}
