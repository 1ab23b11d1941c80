/**
 * The handful of Python `str` operations that the agent, the web layer and the
 * product API rely on: substring search, `split`/`join`, `strip`, `lower`/`upper`,
 * `isdigit`, `str(int)` and `os.path.basename`/`dirname` (POSIX flavour).
 */
module Text {

  type String = seq<char>

  /** Python's `str.isspace()` (and the `\s` class of `re` on `str` patterns). */
  predicate IsSpace(c: char) {
    || ('\t' <= c <= '\r')                    // \t \n \v \f \r
    || ('\U{1C}' <= c <= '\U{1F}')            // file, group, record and unit separators
    || c == ' ' || c == '\U{85}' || c == '\U{A0}' || c == '\U{1680}'
    || ('\U{2000}' <= c <= '\U{200A}')
    || c == '\U{2028}' || c == '\U{2029}' || c == '\U{202F}' || c == '\U{205F}' || c == '\U{3000}'
  }

  predicate AllSpace(s: String) {
    forall i :: 0 <= i < |s| ==> IsSpace(s[i])
  }

  predicate IsDigit(c: char) {
    '0' <= c <= '9'
  }

  /** `s.isdigit()`: non-empty and every character a digit. */
  predicate IsDigits(s: String) {
    |s| > 0 && forall i :: 0 <= i < |s| ==> IsDigit(s[i])
  }

  // ---------------------------------------------------------------------------
  // Case mapping (ASCII letters only)

  function LowerChar(c: char): char {
    if 'A' <= c <= 'Z' then (c as int + 32) as char else c
  }

  function UpperChar(c: char): char {
    if 'a' <= c <= 'z' then (c as int - 32) as char else c
  }

  /** `s.lower()` */
  function Lower(s: String): (r: String)
    ensures |r| == |s|
    ensures forall i :: 0 <= i < |s| ==> r[i] == LowerChar(s[i])
  {
    seq(|s|, i requires 0 <= i < |s| => LowerChar(s[i]))
  }

  /** `s.upper()` */
  function Upper(s: String): (r: String)
    ensures |r| == |s|
    ensures forall i :: 0 <= i < |s| ==> r[i] == UpperChar(s[i])
  {
    seq(|s|, i requires 0 <= i < |s| => UpperChar(s[i]))
  }

  // ---------------------------------------------------------------------------
  // Substring search

  predicate StartsWith(s: String, p: String) {
    |p| <= |s| && s[..|p|] == p
  }

  /** `p in s` */
  predicate Contains(s: String, p: String) {
    exists j :: 0 <= j <= |s| && StartsWith(s[j..], p)
  }

  /** `s.find(p, from)`: the first index at or after `from` where `p` occurs, or -1. */
  function Find(s: String, p: String, from: nat): (r: int)
    requires from <= |s|
    decreases |s| - from
    ensures r == -1 || (from <= r && r + |p| <= |s| && StartsWith(s[r..], p))
    ensures r == -1 ==> forall j :: from <= j <= |s| ==> !StartsWith(s[j..], p)
    ensures r != -1 ==> forall j :: from <= j < r ==> !StartsWith(s[j..], p)
  {
    if StartsWith(s[from..], p) then from
    else if from == |s| then -1
    else Find(s, p, from + 1)
  }

  lemma ContainsIffFound(s: String, p: String)
    ensures Contains(s, p) <==> Find(s, p, 0) != -1
  {
    if Find(s, p, 0) != -1 {
      var r := Find(s, p, 0);
      assert 0 <= r <= |s| && StartsWith(s[r..], p);
    }
  }

  /** A substring of `s` cannot hold what `s` does not hold. */
  lemma InfixAvoids(s: String, a: nat, b: nat, p: String)
    requires a <= b <= |s|
    requires !Contains(s, p)
    ensures !Contains(s[a..b], p)
  {
    forall j | 0 <= j <= b - a ensures !StartsWith(s[a..b][j..], p) {
      assert !StartsWith(s[a + j..], p);
      if |p| <= b - a - j {
        assert s[a + j..][..|p|] == s[a..b][j..][..|p|];
      }
    }
  }

  /** `p` occurs in `s` at index `i`. */
  lemma ContainsAt(s: String, p: String, i: nat)
    requires i + |p| <= |s| && s[i..i + |p|] == p
    ensures Contains(s, p)
  {
    assert s[i..][..|p|] == p;
  }

  /** What a substring of `s` holds, `s` holds. */
  lemma ContainsAcross(s: String, t: String, p: String)
    requires Contains(s, t) && Contains(t, p)
    ensures Contains(s, p)
  {
    var j :| 0 <= j <= |s| && StartsWith(s[j..], t);
    var k :| 0 <= k <= |t| && StartsWith(t[k..], p);
    assert s[j..][..|t|] == t;
    forall i | 0 <= i < |p| ensures s[j + k..][i] == p[i] {
      assert s[j + k..][i] == s[j..][..|t|][k + i];
      assert p[i] == t[k..][..|p|][i];
    }
    assert s[j + k..][..|p|] == p;
  }

  /** Text put in front of `s` does not hide what `s` holds. */
  lemma ContainsBehind(a: String, s: String, p: String)
    requires Contains(s, p)
    ensures Contains(a + s, p)
  {
    var k :| 0 <= k <= |s| && StartsWith(s[k..], p);
    assert (a + s)[|a| + k..] == s[k..];
  }

  /** Text put after `s` does not hide what `s` holds. */
  lemma ContainsAhead(s: String, b: String, p: String)
    requires Contains(s, p)
    ensures Contains(s + b, p)
  {
    var k :| 0 <= k <= |s| && StartsWith(s[k..], p);
    assert (s + b)[k..][..|p|] == s[k..][..|p|];
  }

  /** `p` set between two texts is part of the whole. */
  lemma ContainsBetween(a: String, p: String, b: String)
    ensures Contains(a + p + b, p)
  {
    assert (a + p + b)[|a|..][..|p|] == p;
  }

  /** A character of `s` is a one-character substring of `s`. */
  lemma CharContained(s: String, c: char)
    requires c in s
    ensures Contains(s, [c])
  {
    var j :| 0 <= j < |s| && s[j] == c;
    assert StartsWith(s[j..], [c]);
  }

  // ---------------------------------------------------------------------------
  // split / join

  /** `s.split(sep)` for a non-empty separator: cut at each occurrence, scanning left to right. */
  function SplitOn(s: String, sep: String): (parts: seq<String>)
    requires |sep| > 0
    decreases |s|
    ensures |parts| >= 1
  {
    var i := Find(s, sep, 0);
    if i < 0 then [s] else [s[..i]] + SplitOn(s[i + |sep|..], sep)
  }

  /** `sep.join(parts)` */
  function Join(sep: String, parts: seq<String>): String {
    if |parts| == 0 then ""
    else if |parts| == 1 then parts[0]
    else parts[0] + sep + Join(sep, parts[1..])
  }

  /** `s.split('\n')` */
  function Lines(s: String): seq<String> {
    SplitOn(s, "\n")
  }

  /** Joining the pieces of a split with the same separator gives back the string. */
  lemma {:induction false} JoinSplit(s: String, sep: String)
    requires |sep| > 0
    ensures Join(sep, SplitOn(s, sep)) == s
    decreases |s|
  {
    var i := Find(s, sep, 0);
    if i >= 0 {
      var rest := s[i + |sep|..];
      JoinSplit(rest, sep);
      var parts := SplitOn(rest, sep);
      JoinCons(sep, s[..i], parts);
      Reassemble(s, i, sep);
      calc {
        Join(sep, SplitOn(s, sep));
        Join(sep, [s[..i]] + parts);
        s[..i] + sep + Join(sep, parts);
        s[..i] + sep + rest;
        s;
      }
    } else {
      assert SplitOn(s, sep) == [s];
    }
  }

  lemma Reassemble(s: String, i: nat, sep: String)
    requires i <= |s| && StartsWith(s[i..], sep)
    ensures s == s[..i] + sep + s[i + |sep|..]
  {
    assert s[i..] == sep + s[i + |sep|..];
  }

  lemma JoinCons(sep: String, x: String, parts: seq<String>)
    requires |parts| >= 1
    ensures Join(sep, [x] + parts) == x + sep + Join(sep, parts)
  {
    assert ([x] + parts)[1..] == parts;
  }

  /** Every part is a substring of the joined text. */
  lemma {:induction false} JoinContainsParts(sep: String, parts: seq<String>, i: nat)
    requires i < |parts|
    ensures Contains(Join(sep, parts), parts[i])
    decreases |parts|
  {
    var joined := Join(sep, parts);
    if i == 0 {
      ContainsAt(joined, parts[0], 0);
    } else {
      JoinCons(sep, parts[0], parts[1..]);
      JoinContainsParts(sep, parts[1..], i - 1);
      ContainsBehind(parts[0] + sep, Join(sep, parts[1..]), parts[i]);
    }
  }

  /** No piece of a split contains the separator. */
  lemma {:induction false} SplitPiecesFree(s: String, sep: String)
    requires |sep| > 0
    ensures forall part :: part in SplitOn(s, sep) ==> !Contains(part, sep)
    decreases |s|
  {
    var i := Find(s, sep, 0);
    if i < 0 {
      assert SplitOn(s, sep) == [s];
    } else {
      SplitPiecesFree(s[i + |sep|..], sep);
      forall j | 0 <= j <= i ensures !StartsWith(s[..i][j..], sep) {
        if j + |sep| <= i {
          assert s[..i][j..][..|sep|] == s[j..][..|sep|];
        }
      }
    }
  }


  /** `s.split(sep)[-1]` */
  function LastPiece(s: String, sep: String): String
    requires |sep| > 0
  {
    var parts := SplitOn(s, sep);
    parts[|parts| - 1]
  }

  /** `tail` is `s[k..]`, and when `sep` occurs in `s`, it occurs right before `k`. */
  predicate TailAfter(s: String, sep: String, k: int, tail: String) {
    0 <= k <= |s| && s[k..] == tail && (Contains(s, sep) ==> |sep| <= k && s[k - |sep|..k] == sep)
  }

  /** The last piece of a split is a suffix of the text, and when the separator occurs
      at all, that suffix starts right after an occurrence. */
  lemma {:induction false} SplitLastIsTail(s: String, sep: String)
    requires |sep| > 0
    ensures exists k :: TailAfter(s, sep, k, LastPiece(s, sep))
    decreases |s|
  {
    ContainsIffFound(s, sep);
    var i := Find(s, sep, 0);
    var parts := SplitOn(s, sep);
    if i < 0 {
      assert parts == [s];
      assert TailAfter(s, sep, 0, LastPiece(s, sep)) by {
        assert s[0..] == s;
      }
    } else {
      var rest := s[i + |sep|..];
      var restParts := SplitOn(rest, sep);
      assert parts == [s[..i]] + restParts;
      var last := LastPiece(rest, sep);
      assert LastPiece(s, sep) == last;
      SplitLastIsTail(rest, sep);
      var k' :| TailAfter(rest, sep, k', last);
      if !Contains(rest, sep) {
        ContainsIffFound(rest, sep);
        assert restParts == [rest];
      }
      TailShift(s, sep, i, k', last);
    }
  }

  /** A tail of `s[i + |sep|..]` that follows the occurrence of `sep` at `i` is a tail of `s`. */
  lemma TailShift(s: String, sep: String, i: nat, k': int, last: String)
    requires i + |sep| <= |s| && s[i..i + |sep|] == sep
    requires TailAfter(s[i + |sep|..], sep, k', last)
    requires !Contains(s[i + |sep|..], sep) ==> last == s[i + |sep|..]
    ensures TailAfter(s, sep, i + |sep| + k', last)
  {
    var rest := s[i + |sep|..];
    SuffixSlice(s, i + |sep|, k', |rest|);
    ContainsAt(s, sep, i);
    if Contains(rest, sep) {
      SuffixSlice(s, i + |sep|, k' - |sep|, k');
    } else {
      assert k' == 0;
    }
  }

  /** Slicing a suffix is slicing the text at shifted bounds. */
  lemma SuffixSlice(s: String, d: nat, a: nat, b: nat)
    requires d <= |s| && a <= b <= |s| - d
    ensures s[d..][a..b] == s[d + a..d + b]
    ensures b == |s| - d ==> s[d..][a..] == s[d + a..]
  {
  }

  /** The lines of a text hold no newline. */
  lemma LinesHaveNoNewline(s: String)
    ensures forall line :: line in Lines(s) ==> '\n' !in line
  {
    SplitPiecesFree(s, "\n");
    forall line | line in Lines(s) ensures '\n' !in line {
      if '\n' in line {
        CharContained(line, '\n');
      }
    }
  }

  /** Joining pieces that avoid `p` with a separator that shares no character with `p`
      cannot create an occurrence of `p`. */
  lemma {:induction false} JoinAvoids(sep: String, parts: seq<String>, p: String)
    requires |p| > 0 && |sep| > 0
    requires forall c :: c in sep ==> c !in p
    requires forall part :: part in parts ==> !Contains(part, p)
    ensures !Contains(Join(sep, parts), p)
  {
    if |parts| >= 2 {
      var tail := Join(sep, parts[1..]);
      JoinAvoids(sep, parts[1..], p);
      var a := parts[0];
      var s := a + sep + tail;
      assert Join(sep, parts) == s;
      assert parts[0] in parts;
      forall j | 0 <= j <= |s| && j + |p| <= |s| ensures s[j..][..|p|] != p {
        if j + |p| <= |a| {
          assert s[j..][..|p|] == a[j..][..|p|];
          assert !StartsWith(a[j..], p);
        } else if j >= |a| + |sep| {
          var k := j - |a| - |sep|;
          assert s[j..][..|p|] == tail[k..][..|p|];
          assert !StartsWith(tail[k..], p);
        } else {
          // the window covers a character of the separator, which `p` does not hold
          var m := if j >= |a| then j else |a|;
          assert s[j..][..|p|][m - j] == sep[m - |a|];
          assert sep[m - |a|] in sep;
        }
      }
    }
  }

  // ---------------------------------------------------------------------------
  // strip

  function LeadingSpaces(s: String): (n: nat)
    ensures n <= |s|
    ensures AllSpace(s[..n])
    ensures n < |s| ==> !IsSpace(s[n])
  {
    if |s| > 0 && IsSpace(s[0]) then 1 + LeadingSpaces(s[1..]) else 0
  }

  /** `n` whitespace characters at the head mean at least `n` leading spaces. */
  lemma LeadingSpacesCover(s: String, n: nat)
    requires n <= |s| && AllSpace(s[..n])
    ensures n <= LeadingSpaces(s)
  {
    assert forall i :: 0 <= i < n ==> IsSpace(s[i]) by {
      assert forall i :: 0 <= i < n ==> s[..n][i] == s[i];
    }
  }

  /** `n` whitespace characters and then one that is not: exactly `n` leading spaces. */
  lemma LeadingSpacesExact(s: String, n: nat)
    requires n < |s| && AllSpace(s[..n]) && !IsSpace(s[n])
    ensures LeadingSpaces(s) == n
  {
    LeadingSpacesCover(s, n);
    var m := LeadingSpaces(s);
    assert forall i :: 0 <= i < m ==> IsSpace(s[i]) by {
      assert forall i :: 0 <= i < m ==> s[..m][i] == s[i];
    }
  }

  function TrailingSpaces(s: String): (n: nat)
    ensures n <= |s|
    ensures AllSpace(s[|s| - n..])
    ensures n < |s| ==> !IsSpace(s[|s| - n - 1])
  {
    if |s| > 0 && IsSpace(s[|s| - 1]) then 1 + TrailingSpaces(s[..|s| - 1]) else 0
  }

  /** `s.strip()`: drop the leading and the trailing whitespace, keep the middle. */
  function Strip(s: String): (r: String)
    ensures |r| > 0 ==> !IsSpace(r[0]) && !IsSpace(r[|r| - 1])
    ensures exists a :: 0 <= a <= |s| - |r| && s[a..a + |r|] == r && AllSpace(s[..a]) && AllSpace(s[a + |r|..])
  {
    var a := LeadingSpaces(s);
    var t := s[a..];
    var b := TrailingSpaces(t);
    var r := t[..|t| - b];
    SuffixSlice(s, a, |r|, |t|);
    assert s[a..a + |r|] == r;
    assert |r| > 0 ==> r[0] == s[a];
    r
  }

  /** Where `strip` starts: after the leading whitespace. */
  function StripStart(s: String): (a: nat)
    ensures a + |Strip(s)| <= |s| && s[a..a + |Strip(s)|] == Strip(s)
  {
    var a := LeadingSpaces(s);
    var t := s[a..];
    assert Strip(s) == t[..|t| - TrailingSpaces(t)];
    a
  }

  /** Whatever `strip` keeps of `s` is a substring of `s`, so it cannot hold what `s`
      does not hold. */
  lemma StripAvoids(s: String, p: String)
    requires !Contains(s, p)
    ensures !Contains(Strip(s), p)
  {
    var a := StripStart(s);
    InfixAvoids(s, a, a + |Strip(s)|, p);
  }

  // ---------------------------------------------------------------------------
  // str(n) and int(s)

  function DigitChar(d: nat): char
    requires d < 10
  {
    (48 + d) as char
  }

  function DigitValue(c: char): nat
    requires IsDigit(c)
  {
    c as int - 48
  }

  /** `str(n)` for a natural number: decimal digits, no leading zero. */
  function NatToString(n: nat): (s: String)
    ensures IsDigits(s)
    decreases n
  {
    if n < 10 then [DigitChar(n)] else NatToString(n / 10) + [DigitChar(n % 10)]
  }

  /** `int(s)` for a string of decimal digits. */
  function ParseNat(s: String): nat
    requires forall i :: 0 <= i < |s| ==> IsDigit(s[i])
  {
    if |s| == 0 then 0 else 10 * ParseNat(s[..|s| - 1]) + DigitValue(s[|s| - 1])
  }

  /** Reading back the decimal rendering of `n` gives `n`. */
  lemma {:induction false} ParseNatToString(n: nat)
    ensures ParseNat(NatToString(n)) == n
    decreases n
  {
    if n >= 10 {
      ParseNatToString(n / 10);
      var s := NatToString(n);
      assert s[..|s| - 1] == NatToString(n / 10);
    }
  }

  /** Different numbers have different decimal renderings. */
  lemma NatToStringInjective(a: nat, b: nat)
    requires NatToString(a) == NatToString(b)
    ensures a == b
  {
    ParseNatToString(a);
    ParseNatToString(b);
  }

  // ---------------------------------------------------------------------------
  // os.path (POSIX)

  /** `s.rfind(c)` for a single character. */
  function LastIndexOf(s: String, c: char): (r: int)
    ensures -1 <= r < |s|
    ensures r >= 0 ==> s[r] == c
    ensures forall i :: r < i < |s| ==> s[i] != c
  {
    if |s| == 0 then -1
    else if s[|s| - 1] == c then |s| - 1
    else LastIndexOf(s[..|s| - 1], c)
  }

  /** `os.path.basename(p)`: everything after the last '/'. */
  function Basename(p: String): (r: String)
    ensures '/' !in r
  {
    p[LastIndexOf(p, '/') + 1..]
  }

  /** `os.path.dirname(p)`: everything before the last '/', with trailing slashes removed
      unless the head consists of slashes only. */
  function Dirname(p: String): String {
    var head := p[..LastIndexOf(p, '/') + 1];
    if head != [] && exists i :: 0 <= i < |head| && head[i] != '/' then
      head[..|head| - TrailingSlashes(head)]
    else head
  }

  function TrailingSlashes(s: String): (n: nat)
    ensures n <= |s|
  {
    if |s| > 0 && s[|s| - 1] == '/' then 1 + TrailingSlashes(s[..|s| - 1]) else 0
  }
}
