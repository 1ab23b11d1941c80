/**
 * `CodeGeneratorAgent._format_with_numbers`: every line of a model reply that the
 * pattern `^(\s*)[•\-\*]\s+(.+)$` accepts becomes `{indent}**{n}.** {content}`, where
 * `n` counts the bullet lines so far, the table of options maps `str(n)` to the
 * bullet's content, and a tip naming the range of numbers is appended when there is
 * at least one option.
 *
 * The functions here specify the outcome of the loop over the lines; the loop itself
 * is the method `Agent.CodeGeneratorAgent.NumberBullets`, which also stores the
 * table in the agent.
 */
module Bullets {
  import opened Common
  import opened Text

  /** `[•\-\*]` */
  predicate IsBulletChar(c: char) {
    c == '\U{2022}' || c == '-' || c == '*'
  }

  /** The two groups of a successful match. */
  datatype Bullet = Bullet(indent: String, content: String)

  /** A way for the pattern to match `line`: `line[..a]` is `(\s*)`, `line[a]` the bullet
      character, `line[a + 1..b]` the non-empty `\s+` and `line[b..]` the non-empty `(.+)`.
      The lines come from `split('\n')` and hold no newline, so `.` and `$` impose
      nothing more. */
  ghost predicate BulletSplit(line: String, a: nat, b: nat) {
    a + 1 < b < |line| && AllSpace(line[..a]) && IsBulletChar(line[a]) && AllSpace(line[a + 1..b])
  }

  ghost predicate IsBulletLine(line: String) {
    exists a: nat, b: nat :: BulletSplit(line, a, b)
  }

  /** `re.match(r'^(\s*)[•\-\*]\s+(.+)$', line)` with its greedy groups: the indent is the
      whole leading whitespace, and `\s+` takes all the whitespace after the bullet
      unless that would leave `(.+)` empty, in which case it gives back one character. */
  function MatchBullet(line: String): (r: Option<Bullet>)
    ensures r.Some? ==> |r.value.indent| < |line| && |r.value.content| > 0
  {
    var a := LeadingSpaces(line);
    if a < |line| && IsBulletChar(line[a]) then MatchAfterBullet(line[..a], line[a + 1..]) else None
  }

  /** The part of the pattern after the bullet character, on the rest of the line. */
  function MatchAfterBullet(indent: String, rest: String): Option<Bullet> {
    var g := LeadingSpaces(rest);
    if g == 0 then None
    else if g < |rest| then Some(Bullet(indent, rest[g..]))
    else if g >= 2 then Some(Bullet(indent, rest[g - 1..]))
    else None
  }

  /** After the bullet: a non-empty run of whitespace, then a non-empty content that
      starts with the first character that is not whitespace, or is the run's last
      character when nothing follows the run. */
  lemma AfterBulletSound(indent: String, rest: String)
    requires MatchAfterBullet(indent, rest).Some?
    ensures var r := MatchAfterBullet(indent, rest).value;
            var gap := |rest| - |r.content|;
            r.indent == indent && 1 <= gap < |rest| && rest[gap..] == r.content && AllSpace(rest[..gap])
            && (!IsSpace(r.content[0]) || |r.content| == 1)
  {
    var g := LeadingSpaces(rest);
    if g == |rest| {
      assert rest[..g - 1] == rest[..g][..g - 1];
    }
  }

  /** A match splits the line as the pattern does: the indent is the line's whole
      leading whitespace, then comes the bullet character, and the content starts at
      the first character after the following run of whitespace that is not
      whitespace, or is the run's last character when nothing follows it. */
  lemma MatchBulletSound(line: String)
    requires MatchBullet(line).Some?
    ensures var r := MatchBullet(line).value;
            var a := |r.indent|;
            var b := |line| - |r.content|;
            && a == LeadingSpaces(line) && a + 1 < b < |line|
            && line[..a] == r.indent && IsBulletChar(line[a]) && line[b..] == r.content
            && (!IsSpace(r.content[0]) || |r.content| == 1)
  {
    MatchBulletIs(line);
    AfterBulletInLine(line, LeadingSpaces(line));
  }

  /** So a match is a bullet split: between the bullet and the content there is only
      whitespace. */
  lemma MatchBulletSplits(line: String)
    requires MatchBullet(line).Some?
    ensures var r := MatchBullet(line).value;
            BulletSplit(line, |r.indent|, |line| - |r.content|)
  {
    MatchBulletIs(line);
    AfterBulletInLine(line, LeadingSpaces(line));
  }

  /** A match starts with the leading whitespace and a bullet character, and the rest
      of the pattern matches after it. */
  lemma MatchBulletIs(line: String)
    requires MatchBullet(line).Some?
    ensures var a := LeadingSpaces(line);
            && a < |line| && IsBulletChar(line[a])
            && MatchBullet(line) == MatchAfterBullet(line[..a], line[a + 1..])
  {
  }

  /** `AfterBulletSound` read in the whole line, after the bullet at `a`. */
  lemma AfterBulletInLine(line: String, a: nat)
    requires a < |line| && MatchAfterBullet(line[..a], line[a + 1..]).Some?
    ensures var r := MatchAfterBullet(line[..a], line[a + 1..]).value;
            var b := |line| - |r.content|;
            && r.indent == line[..a] && |r.indent| == a && a + 1 < b < |line|
            && AllSpace(line[a + 1..b]) && line[b..] == r.content
            && (!IsSpace(r.content[0]) || |r.content| == 1)
  {
    var rest := line[a + 1..];
    var r := MatchAfterBullet(line[..a], rest).value;
    AfterBulletSound(line[..a], rest);
    var gap := |rest| - |r.content|;
    SpacesCarry(line, a + 1, |line| - |r.content|, gap);
    assert line[|line| - |r.content|..] == rest[gap..];
  }

  /** Whitespace at the head of a suffix is whitespace of the line. */
  lemma SpacesCarry(line: String, k: nat, e: nat, gap: nat)
    requires e == k + gap <= |line| && AllSpace(line[k..][..gap])
    ensures AllSpace(line[k..e])
  {
    assert line[k..e] == line[k..][..gap];
  }

  /** The pattern matches exactly the lines that have a bullet split. */
  lemma BulletLineMatches(line: String)
    ensures MatchBullet(line).Some? <==> IsBulletLine(line)
  {
    if MatchBullet(line).Some? {
      MatchBulletSplits(line);
    }
    if IsBulletLine(line) {
      var a: nat, b: nat :| BulletSplit(line, a, b);
      SplitMatches(line, a, b);
    }
  }

  /** Whatever split the pattern could take, the match succeeds. */
  lemma SplitMatches(line: String, a: nat, b: nat)
    requires BulletSplit(line, a, b)
    ensures MatchBullet(line).Some?
  {
    LeadingSpacesExact(line, a);
    var rest := line[a + 1..];
    assert rest[..b - a - 1] == line[a + 1..b];
    LeadingSpacesCover(rest, b - a - 1);
  }

  /** The outcome of the pattern on each line. */
  function Matches(lines: seq<String>): (ms: seq<Option<Bullet>>)
    ensures |ms| == |lines|
  {
    seq(|lines|, i requires 0 <= i < |lines| => MatchBullet(lines[i]))
  }

  /** `**{k}.** `, the bold number put in front of the `k`-th bullet's content. */
  function Marker(k: nat): String {
    "**" + NatToString(k) + ".** "
  }

  /** The line that replaces `line`, whose match is `m`, when `k - 1` bullets came
      before it. */
  function Renumbered(line: String, m: Option<Bullet>, k: nat): String {
    match m
    case Some(b) => b.indent + Marker(k) + b.content
    case None => line
  }

  /** How many of the first `i` matches succeeded: `option_num - 1` once the loop has
      looked at `i` lines. */
  function BulletsBefore(ms: seq<Option<Bullet>>, i: nat): nat
    requires i <= |ms|
  {
    if i == 0 then 0
    else BulletsBefore(ms, i - 1) + (if ms[i - 1].Some? then 1 else 0)
  }

  function BulletCount(lines: seq<String>): nat {
    BulletsBefore(Matches(lines), |lines|)
  }

  /** The first `i` lines renumbered by their matches `ms`: `formatted_lines` once the
      loop has looked at `i` lines. */
  function NumberedUpTo(lines: seq<String>, ms: seq<Option<Bullet>>, i: nat): (r: seq<String>)
    requires |ms| == |lines| && i <= |lines|
    ensures |r| == i
  {
    if i == 0 then []
    else NumberedUpTo(lines, ms, i - 1) + [Renumbered(lines[i - 1], ms[i - 1], BulletsBefore(ms, i - 1) + 1)]
  }

  /** The renumbered lines: `formatted_lines` after the loop. */
  function NumberLines(lines: seq<String>): seq<String> {
    NumberedUpTo(lines, Matches(lines), |lines|)
  }

  /** Line `i` of the output is line `i` renumbered, however many lines follow it. */
  lemma {:induction false} NumberedAt(lines: seq<String>, ms: seq<Option<Bullet>>, i: nat, j: nat)
    requires |ms| == |lines| && i < j <= |lines|
    ensures NumberedUpTo(lines, ms, j)[i] == Renumbered(lines[i], ms[i], BulletsBefore(ms, i) + 1)
    decreases j
  {
    if i < j - 1 {
      NumberedAt(lines, ms, i, j - 1);
    }
  }

  /** A bullet line comes out as its indent, then its marker, then its content. */
  lemma NumberLinesAt(lines: seq<String>, i: nat)
    requires i < |lines| && MatchBullet(lines[i]).Some?
    ensures var b := MatchBullet(lines[i]).value;
            NumberLines(lines)[i] == b.indent + Marker(BulletsBefore(Matches(lines), i) + 1) + b.content
  {
    var ms := Matches(lines);
    NumberedAt(lines, ms, i, |lines|);
    assert ms[i] == MatchBullet(lines[i]);
  }

  /** The marker of a bullet line shows in the joined output lines. */
  lemma MarkerShown(lines: seq<String>, i: nat)
    requires i < |lines| && MatchBullet(lines[i]).Some?
    ensures Contains(Join("\n", NumberLines(lines)), Marker(BulletsBefore(Matches(lines), i) + 1))
  {
    var b := MatchBullet(lines[i]).value;
    var marker := Marker(BulletsBefore(Matches(lines), i) + 1);
    NumberLinesAt(lines, i);
    ContainsBetween(b.indent, marker, b.content);
    JoinContainsParts("\n", NumberLines(lines), i);
    ContainsAcross(Join("\n", NumberLines(lines)), NumberLines(lines)[i], marker);
  }

  /** The options among the first `i` matches: `self.last_options` once the loop has
      looked at `i` lines. */
  function OptionsAmong(ms: seq<Option<Bullet>>, i: nat): map<String, String>
    requires i <= |ms|
  {
    if i == 0 then map[]
    else
      match ms[i - 1]
      case Some(b) => OptionsAmong(ms, i - 1)[NatToString(BulletsBefore(ms, i - 1) + 1) := b.content]
      case None => OptionsAmong(ms, i - 1)
  }

  function OptionTable(lines: seq<String>): map<String, String> {
    OptionsAmong(Matches(lines), |lines|)
  }

  /** The helper text appended after `n` options. */
  function TipLine(n: nat): String {
    "\n\n*\U{1F4A1} Tip: Type a number (1-" + NatToString(n) + ") to select an option*"
  }

  /** The text `_format_with_numbers` returns for a string reply. */
  function FormatText(text: String): String {
    var lines := Lines(text);
    var n := BulletCount(lines);
    Join("\n", NumberLines(lines)) + (if n > 0 then TipLine(n) else "")
  }

  // ---------------------------------------------------------------------------
  // Properties

  /** No line among the first `i` is a bullet: the renumbering keeps them. */
  lemma {:induction false} NoBulletsKeepPrefix(lines: seq<String>, ms: seq<Option<Bullet>>, i: nat)
    requires |ms| == |lines| && i <= |lines| && BulletsBefore(ms, i) == 0
    ensures NumberedUpTo(lines, ms, i) == lines[..i]
  {
    if i > 0 {
      NoBulletsKeepPrefix(lines, ms, i - 1);
      assert lines[..i] == lines[..i - 1] + [lines[i - 1]];
    }
  }

  /** No line is a bullet: the renumbering keeps every line. */
  lemma NoBulletsKeepLines(lines: seq<String>)
    requires BulletCount(lines) == 0
    ensures NumberLines(lines) == lines
  {
    NoBulletsKeepPrefix(lines, Matches(lines), |lines|);
  }

  /** More lines hold at least as many bullets. */
  lemma {:induction false} BulletsBeforeGrows(ms: seq<Option<Bullet>>, i: nat, j: nat)
    requires i <= j <= |ms|
    ensures BulletsBefore(ms, i) <= BulletsBefore(ms, j)
    decreases j
  {
    if i < j {
      BulletsBeforeGrows(ms, i, j - 1);
    }
  }

  /** A reply without bullet lines comes back unchanged, without a tip. */
  lemma NoBulletsUnchanged(text: String)
    requires BulletCount(Lines(text)) == 0
    ensures FormatText(text) == text
  {
    NoBulletsKeepLines(Lines(text));
    JoinSplit(text, "\n");
  }

  /** `{"1", ..., str(n)}` */
  function NumberKeys(n: nat): set<String> {
    set k: nat | 1 <= k <= n :: NatToString(k)
  }

  /** The next number's key is new. */
  lemma NumberKeysStep(n: nat)
    ensures NatToString(n + 1) !in NumberKeys(n)
    ensures NumberKeys(n + 1) == NumberKeys(n) + {NatToString(n + 1)}
  {
    forall k: nat | 1 <= k <= n ensures NatToString(k) != NatToString(n + 1) {
      ParseNatToString(k);
      ParseNatToString(n + 1);
    }
  }

  /** The options are numbered `1` to `n` without gaps, one per bullet line. */
  lemma {:induction false} OptionKeysAmong(ms: seq<Option<Bullet>>, i: nat)
    requires i <= |ms|
    ensures OptionsAmong(ms, i).Keys == NumberKeys(BulletsBefore(ms, i))
    ensures |OptionsAmong(ms, i)| == BulletsBefore(ms, i)
  {
    if i > 0 {
      OptionKeysAmong(ms, i - 1);
      if ms[i - 1].Some? {
        NumberKeysStep(BulletsBefore(ms, i - 1));
      }
    }
  }

  lemma OptionTableKeys(lines: seq<String>)
    ensures OptionTable(lines).Keys == NumberKeys(BulletCount(lines))
    ensures |OptionTable(lines)| == BulletCount(lines)
  {
    OptionKeysAmong(Matches(lines), |lines|);
  }

  /** The option numbered `k` is the content of the `k`-th bullet line, and stays so as
      the loop goes on. */
  lemma {:induction false} OptionsAmongAt(ms: seq<Option<Bullet>>, i: nat, j: nat)
    requires i < j <= |ms| && ms[i].Some?
    ensures NatToString(BulletsBefore(ms, i) + 1) in OptionsAmong(ms, j)
    ensures OptionsAmong(ms, j)[NatToString(BulletsBefore(ms, i) + 1)] == ms[i].value.content
    decreases j
  {
    if i < j - 1 {
      OptionsAmongAt(ms, i, j - 1);
      if ms[j - 1].Some? {
        BulletsBeforeGrows(ms, i + 1, j - 1);
        ParseNatToString(BulletsBefore(ms, i) + 1);
        ParseNatToString(BulletsBefore(ms, j - 1) + 1);
      }
    }
  }

  lemma OptionTableAt(lines: seq<String>, i: nat)
    requires i < |lines| && MatchBullet(lines[i]).Some?
    ensures NatToString(BulletsBefore(Matches(lines), i) + 1) in OptionTable(lines)
    ensures OptionTable(lines)[NatToString(BulletsBefore(Matches(lines), i) + 1)] == MatchBullet(lines[i]).value.content
  {
    OptionsAmongAt(Matches(lines), i, |lines|);
  }

  /** Every option key reads back as its number, and only digit strings are keys (which
      is what lets a typed number select an option). */
  lemma OptionKeysAreNumbers(lines: seq<String>)
    ensures forall key :: key in OptionTable(lines) ==>
              IsDigits(key) && 1 <= ParseNat(key) <= BulletCount(lines)
  {
    OptionTableKeys(lines);
    forall key | key in OptionTable(lines)
      ensures IsDigits(key) && 1 <= ParseNat(key) <= BulletCount(lines)
    {
      var k: nat :| 1 <= k <= BulletCount(lines) && NatToString(k) == key;
      ParseNatToString(k);
    }
  }
}
