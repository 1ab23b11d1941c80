/**
 * The `write_file` auto-fix of `CodeGeneratorAgent.tool_use`: when the model calls
 * `write_file` without a `content` argument, the content is recovered from the text
 * of the latest reply, trying in turn
 *   1. the last fenced code block (`re.findall(r'```(?:\w+)?\n(.*?)```', text, re.DOTALL)`),
 *   2. for a README file, the lines from the first one that mentions the README up to
 *      the next fence or tool-call mention,
 *   3. every line without a fence after the first fence line,
 *   4. for a README file, a generated README.
 *
 * The functions state what each step yields; the line collectors, which are loops
 * with a `collecting` flag in the agent, are methods proved equal to them.
 */
module Recovery {
  import opened Common
  import opened Text
  import opened Messages

  // ---------------------------------------------------------------------------
  // Step 1: fenced code blocks

  /** `\w` (ASCII letters, digits and the underscore). */
  predicate IsWordChar(c: char) {
    ('a' <= c <= 'z') || ('A' <= c <= 'Z') || ('0' <= c <= '9') || c == '_'
  }

  /** The end of the run of word characters that starts at `k`. */
  function WordEnd(s: String, k: nat): (e: nat)
    requires k <= |s|
    ensures k <= e <= |s|
    ensures forall i :: k <= i < e ==> IsWordChar(s[i])
    ensures e < |s| ==> !IsWordChar(s[e])
    decreases |s| - k
  {
    if k < |s| && IsWordChar(s[k]) then WordEnd(s, k + 1) else k
  }

  /** Three backticks start at `p`. */
  predicate FenceAt(s: String, p: nat)
    requires p + 3 <= |s|
  {
    s[p] == '`' && s[p + 1] == '`' && s[p + 2] == '`'
  }

  /** The first fence at or after `k`, or -1: where the lazy `(.*?)` stops. */
  function NextFence(s: String, k: nat): (r: int)
    requires k <= |s|
    ensures r == -1 || (k <= r && r + 3 <= |s| && FenceAt(s, r))
    ensures r == -1 ==> forall j :: k <= j && j + 3 <= |s| ==> !FenceAt(s, j)
    ensures r != -1 ==> forall j :: k <= j < r ==> !FenceAt(s, j)
    decreases |s| - k
  {
    if k + 3 > |s| then -1
    else if FenceAt(s, k) then k
    else NextFence(s, k + 1)
  }

  /** A match of the pattern: the group, and where the search resumes. */
  datatype FenceMatch = FenceMatch(body: String, resume: nat)

  /** No three backticks in a row: the lazy `(.*?)` stops at the first fence. */
  predicate FenceFree(b: String) {
    forall j :: 0 <= j && j + 3 <= |b| ==> !FenceAt(b, j)
  }

  /** The match of `r'```(?:\w+)?\n(.*?)```'` (with `re.DOTALL`) that starts at `p`, if
      any. It needs a fence, then the whole word run after it (a shorter run would leave
      a word character where the newline must be), then a newline; the group ends at
      the next fence, and the search resumes after that fence. */
  function MatchFenceAt(s: String, p: nat): (r: Option<FenceMatch>)
    requires p + 3 <= |s|
    ensures r.Some? ==> p + 3 < r.value.resume <= |s|
  {
    if !FenceAt(s, p) then None
    else
      var open := WordEnd(s, p + 3);
      if open < |s| && s[open] == '\n' then
        var close := NextFence(s, open + 1);
        if close >= 0 then
          Some(FenceMatch(s[open + 1..close], close + 3))
        else None
      else None
  }

  /** A stretch of `s` in which no fence starts, as far as a fence fits in it, holds
      no fence. */
  lemma SliceFenceFree(s: String, a: nat, b: nat)
    requires a <= b <= |s|
    requires forall j :: a <= j && j + 3 <= b ==> !FenceAt(s, j)
    ensures FenceFree(s[a..b])
  {
    forall j | 0 <= j && j + 3 <= b - a
      ensures !FenceAt(s[a..b], j)
    {
      assert !FenceAt(s, a + j);
    }
  }

  /** The group of a match holds no fence: it ends at the first one. */
  lemma MatchedBodyFenceFree(s: String, p: nat)
    requires p + 3 <= |s| && MatchFenceAt(s, p).Some?
    ensures FenceFree(MatchFenceAt(s, p).value.body)
  {
    var open := WordEnd(s, p + 3);
    SliceFenceFree(s, open + 1, NextFence(s, open + 1));
  }

  /** `re.findall(r'```(?:\w+)?\n(.*?)```', s[p..], re.DOTALL)`: where no match starts,
      the search moves on by one character. */
  function FencedBlocks(s: String, p: nat): seq<String>
    requires p <= |s|
    decreases |s| - p
  {
    if p + 3 > |s| then []
    else
      match MatchFenceAt(s, p)
      case Some(m) => [m.body] + FencedBlocks(s, m.resume)
      case None => FencedBlocks(s, p + 1)
  }

  /** No block that the search finds holds a fence. */
  lemma {:induction false} FencedBlocksFenceFree(s: String, p: nat)
    requires p <= |s|
    ensures forall i :: 0 <= i < |FencedBlocks(s, p)| ==> FenceFree(FencedBlocks(s, p)[i])
    decreases |s| - p
  {
    if p + 3 <= |s| {
      match MatchFenceAt(s, p)
      case Some(m) =>
        MatchedBodyFenceFree(s, p);
        FencedBlocksFenceFree(s, m.resume);
      case None =>
        FencedBlocksFenceFree(s, p + 1);
    }
  }

  /** Text without a backtick holds no block. */
  lemma {:induction false} SkipUnfenced(s: String, p: nat, q: nat)
    requires p <= q <= |s|
    requires forall i :: p <= i < q ==> s[i] != '`'
    ensures FencedBlocks(s, p) == FencedBlocks(s, q)
    decreases q - p
  {
    if p < q {
      SkipUnfenced(s, p + 1, q);
    }
  }

  /** A reply that holds one fenced block, with an optional language tag and no other
      backtick, yields exactly that block's body. */
  lemma SingleBlock(s: String, pre: String, lang: String, body: String, post: String)
    requires s == pre + "```" + lang + "\n" + body + "```" + post
    requires '`' !in pre && '`' !in body && '`' !in post
    requires forall i :: 0 <= i < |lang| ==> IsWordChar(lang[i])
    ensures FencedBlocks(s, 0) == [body]
  {
    BlockLayout(pre, lang, body, post);
    assert forall i :: 0 <= i < |pre| ==> pre[i] in pre;
    var open := |pre| + 3 + |lang|;
    LastBlock(s, 0, |pre|, open, open + 1 + |body|, body);
  }

  /** A reply made of a part holding one fenced block followed by a part holding
      another, with no backtick outside the fences, yields both bodies in order. */
  lemma TwoBlocks(s: String, pre: String, lang1: String, body1: String, mid: String,
                  lang2: String, body2: String, post: String)
    requires s == (pre + "```" + lang1 + "\n" + body1 + "```") + (mid + "```" + lang2 + "\n" + body2 + "```" + post)
    requires '`' !in pre && '`' !in body1 && '`' !in mid && '`' !in body2 && '`' !in post
    requires forall i :: 0 <= i < |lang1| ==> IsWordChar(lang1[i])
    requires forall i :: 0 <= i < |lang2| ==> IsWordChar(lang2[i])
    ensures FencedBlocks(s, 0) == [body1, body2]
  {
    var first := pre + "```" + lang1 + "\n" + body1 + "```";
    var resume := FirstOfTwo(s, pre, lang1, body1, mid + "```" + lang2 + "\n" + body2 + "```" + post);
    assert resume == |first|;
    SecondOfTwo(s, first, mid, lang2, body2, post);
    assert [body1] + [body2] == [body1, body2];
  }

  /** A first block is found first, and the search goes on after it. */
  lemma FirstOfTwo(s: String, pre: String, lang: String, body: String, rest: String)
    returns (resume: nat)
    requires s == pre + "```" + lang + "\n" + body + "```" + rest
    requires '`' !in pre && '`' !in body
    requires forall i :: 0 <= i < |lang| ==> IsWordChar(lang[i])
    ensures resume == |pre| + 3 + |lang| + 1 + |body| + 3 <= |s|
    ensures FencedBlocks(s, 0) == [body] + FencedBlocks(s, resume)
  {
    var open := |pre| + 3 + |lang|;
    var close := open + 1 + |body|;
    LeadingBlock(s, pre, lang, body, rest);
    FirstBlock(s, |pre|, open, close, body);
    resume := close + 3;
  }

  /** Where the parts of a reply that starts with backtick-free text and a block sit,
      in the terms `FirstBlock` asks for. */
  lemma LeadingBlock(s: String, pre: String, lang: String, body: String, rest: String)
    requires s == pre + "```" + lang + "\n" + body + "```" + rest
    requires '`' !in pre && '`' !in body
    requires forall i :: 0 <= i < |lang| ==> IsWordChar(lang[i])
    ensures var open := |pre| + 3 + |lang|;
            var close := open + 1 + |body|;
            && close + 3 <= |s|
            && (forall i :: 0 <= i < |pre| ==> s[i] != '`')
            && FenceAt(s, |pre|) && FenceAt(s, close)
            && (forall i :: |pre| + 3 <= i < open ==> IsWordChar(s[i]))
            && s[open] == '\n'
            && (forall i :: open < i < close ==> s[i] != '`')
            && s[open + 1..close] == body
  {
    BlockLayout(pre, lang, body, rest);
    assert forall i :: 0 <= i < |pre| ==> pre[i] in pre;
  }

  /** A block at `p` behind backtick-free text is the first block found. */
  lemma FirstBlock(s: String, p: nat, open: nat, close: nat, body: String)
    requires p + 3 <= open < close && close + 3 <= |s|
    requires forall i :: 0 <= i < p ==> s[i] != '`'
    requires FenceAt(s, p) && FenceAt(s, close)
    requires forall i :: p + 3 <= i < open ==> IsWordChar(s[i])
    requires s[open] == '\n'
    requires forall i :: open < i < close ==> s[i] != '`'
    requires s[open + 1..close] == body
    ensures FencedBlocks(s, 0) == [body] + FencedBlocks(s, close + 3)
  {
    BlockThen(s, 0, p, open, close);
  }

  /** After a first part, a second part that holds one block and no other backtick
      yields that block and nothing more. */
  lemma SecondOfTwo(s: String, first: String, mid: String, lang: String, body: String, post: String)
    requires s == first + (mid + "```" + lang + "\n" + body + "```" + post)
    requires '`' !in mid && '`' !in body && '`' !in post
    requires forall i :: 0 <= i < |lang| ==> IsWordChar(lang[i])
    ensures FencedBlocks(s, |first|) == [body]
  {
    var q := |first| + |mid|;
    var open := q + 3 + |lang|;
    var close := open + 1 + |body|;
    TrailingBlock(s, first, mid, lang, body, post);
    LastBlock(s, |first|, q, open, close, body);
  }

  /** Where the parts of a reply that ends with a block behind backtick-free text, and
      backtick-free text after it, sit, in the terms `LastBlock` asks for. */
  lemma TrailingBlock(s: String, first: String, mid: String, lang: String, body: String, post: String)
    requires s == first + (mid + "```" + lang + "\n" + body + "```" + post)
    requires '`' !in mid && '`' !in body && '`' !in post
    requires forall i :: 0 <= i < |lang| ==> IsWordChar(lang[i])
    ensures var k := |first|;
            var q := k + |mid|;
            var open := q + 3 + |lang|;
            var close := open + 1 + |body|;
            && close + 3 <= |s|
            && (forall i :: k <= i < q ==> s[i] != '`')
            && FenceAt(s, q) && FenceAt(s, close)
            && (forall i :: q + 3 <= i < open ==> IsWordChar(s[i]))
            && s[open] == '\n'
            && (forall i :: open < i < close ==> s[i] != '`')
            && (forall i :: close + 3 <= i < |s| ==> s[i] != '`')
            && s[open + 1..close] == body
  {
    var k := |first|;
    var b := mid + "```" + lang + "\n" + body + "```" + post;
    var q := |mid|;
    var open := q + 3 + |lang|;
    var close := open + 1 + |body|;
    BlockLayout(mid, lang, body, post);
    assert s[k..] == b;
    BlockAfter(s, k, b, q, open, close);
    forall i | k <= i < k + q
      ensures s[i] != '`'
    {
      assert s[i] == s[k..][i - k] == mid[i - k];
      assert mid[i - k] in mid;
    }
    forall i | k + close + 3 <= i < |s|
      ensures s[i] != '`'
    {
      assert s[i] == s[k..][i - k] == post[i - k - close - 3];
      assert post[i - k - close - 3] in post;
    }
  }

  /** A block at `q` with only backtick-free text around it from `k` on is the only
      block found from `k`. */
  lemma LastBlock(s: String, k: nat, q: nat, open: nat, close: nat, body: String)
    requires k <= q && q + 3 <= open < close && close + 3 <= |s|
    requires forall i :: k <= i < q ==> s[i] != '`'
    requires FenceAt(s, q) && FenceAt(s, close)
    requires forall i :: q + 3 <= i < open ==> IsWordChar(s[i])
    requires s[open] == '\n'
    requires forall i :: open < i < close ==> s[i] != '`'
    requires forall i :: close + 3 <= i < |s| ==> s[i] != '`'
    requires s[open + 1..close] == body
    ensures FencedBlocks(s, k) == [body]
  {
    BlockThen(s, k, q, open, close);
    SkipUnfenced(s, close + 3, |s|);
    assert FencedBlocks(s, |s|) == [];
    assert [body] + [] == [body];
  }

  /** A block of `b` is a block of `s` where `b` sits in `s` from `k` on. */
  lemma BlockAfter(s: String, k: nat, b: String, q: nat, open: nat, close: nat)
    requires k <= |s| && s[k..] == b
    requires q + 3 <= open < close && close + 3 <= |b|
    requires FenceAt(b, q) && FenceAt(b, close)
    requires forall i :: q + 3 <= i < open ==> IsWordChar(b[i])
    requires b[open] == '\n'
    requires forall i :: open < i < close ==> b[i] != '`'
    ensures FenceAt(s, k + q) && FenceAt(s, k + close)
    ensures forall i :: k + q + 3 <= i < k + open ==> IsWordChar(s[i])
    ensures s[k + open] == '\n'
    ensures forall i :: k + open < i < k + close ==> s[i] != '`'
    ensures s[k + open + 1..k + close] == b[open + 1..close]
  {
    assert forall i :: k <= i < |s| ==> s[i] == s[k..][i - k];
  }

  /** Where the parts of a reply with a fenced block sit. */
  lemma BlockLayout(pre: String, lang: String, body: String, post: String)
    requires '`' !in body
    requires forall i :: 0 <= i < |lang| ==> IsWordChar(lang[i])
    ensures var s := pre + "```" + lang + "\n" + body + "```" + post;
            var p := |pre|;
            var open := p + 3 + |lang|;
            var close := open + 1 + |body|;
            && close + 3 <= |s|
            && (forall i :: 0 <= i < p ==> s[i] == pre[i])
            && FenceAt(s, p) && FenceAt(s, close)
            && (forall i :: p + 3 <= i < open ==> IsWordChar(s[i]))
            && s[open] == '\n'
            && (forall i :: open < i < close ==> s[i] != '`')
            && (forall i :: close + 3 <= i < |s| ==> s[i] == post[i - close - 3])
            && s[open + 1..close] == body
  {
    var s := pre + "```" + lang + "\n" + body + "```" + post;
    var p := |pre|;
    var open := p + 3 + |lang|;
    var close := open + 1 + |body|;
    assert forall i :: 0 <= i < p ==> s[i] == pre[i];
    assert forall i :: p + 3 <= i < open ==> s[i] == lang[i - p - 3];
    assert forall i :: open < i < close ==> s[i] == body[i - open - 1];
    assert forall i :: close + 3 <= i < |s| ==> s[i] == post[i - close - 3];
  }

  /** From `p`, over backtick-free text up to a block at `q`: the search yields that
      block's body and goes on after its closing fence. */
  lemma BlockThen(s: String, p: nat, q: nat, open: nat, close: nat)
    requires p <= q && q + 3 <= open < close && close + 3 <= |s|
    requires forall i :: p <= i < q ==> s[i] != '`'
    requires FenceAt(s, q) && FenceAt(s, close)
    requires forall i :: q + 3 <= i < open ==> IsWordChar(s[i])
    requires s[open] == '\n'
    requires forall i :: open < i < close ==> s[i] != '`'
    ensures FencedBlocks(s, p) == [s[open + 1..close]] + FencedBlocks(s, close + 3)
  {
    SkipUnfenced(s, p, q);
    MatchAtFence(s, q, open, close);
  }

  /** The match at a fence followed by a word run, a newline, and text without a
      backtick up to the next fence. */
  lemma MatchAtFence(s: String, p: nat, open: nat, close: nat)
    requires p + 3 <= open < close && close + 3 <= |s|
    requires FenceAt(s, p) && FenceAt(s, close)
    requires forall i :: p + 3 <= i < open ==> IsWordChar(s[i])
    requires s[open] == '\n'
    requires forall i :: open < i < close ==> s[i] != '`'
    ensures MatchFenceAt(s, p) == Some(FenceMatch(s[open + 1..close], close + 3))
  {
    assert WordEnd(s, p + 3) == open;
    assert NextFence(s, open + 1) == close;
  }

  // ---------------------------------------------------------------------------
  // Step 2: the README line collector

  /** `"README" in filename.upper() or "readme" in filename.lower()` */
  predicate IsReadmeName(filename: String) {
    Contains(Upper(filename), "README") || Contains(Lower(filename), "readme")
  }

  /** A line that starts the collection: it mentions one of `readme_mentions` or the
      file name, ignoring case. */
  predicate MentionsReadme(line: String, filename: String) {
    var lower := Lower(line);
    Contains(lower, "readme") || Contains(lower, "documentation") || Contains(lower, "##")
    || Contains(lower, "# ") || Contains(lower, Lower(filename))
  }

  predicate MentionsToolCall(line: String) {
    Contains(line, "tool_use") || Contains(line, "write_file")
  }

  /** The first line at or after `k` that starts the collection, or `|lines|`. */
  function FirstMention(lines: seq<String>, filename: String, k: nat): (r: nat)
    requires k <= |lines|
    ensures k <= r <= |lines|
    ensures forall j :: k <= j < r ==> !MentionsReadme(lines[j], filename)
    ensures r < |lines| ==> MentionsReadme(lines[r], filename)
    decreases |lines| - k
  {
    if k == |lines| || MentionsReadme(lines[k], filename) then k
    else FirstMention(lines, filename, k + 1)
  }

  /** The line at `j` ends a collection that began at `start`: it mentions a tool call,
      or it holds a fence and something has been collected already. */
  predicate StopsReadme(lines: seq<String>, start: nat, j: nat)
    requires j < |lines|
  {
    MentionsToolCall(lines[j]) || (j > start && Contains(lines[j], "```"))
  }

  /** The first line at or after `k` that ends a collection begun at `start`, or `|lines|`. */
  function ReadmeEnd(lines: seq<String>, start: nat, k: nat): (r: nat)
    requires k <= |lines|
    ensures k <= r <= |lines|
    ensures forall j :: k <= j < r ==> !StopsReadme(lines, start, j)
    ensures r < |lines| ==> StopsReadme(lines, start, r)
    decreases |lines| - k
  {
    if k == |lines| || StopsReadme(lines, start, k) then k
    else ReadmeEnd(lines, start, k + 1)
  }

  /** The lines the README collector gathers. */
  function ReadmeSection(lines: seq<String>, filename: String): seq<String> {
    var start := FirstMention(lines, filename, 0);
    lines[start..ReadmeEnd(lines, start, start)]
  }

  /** The README collector's loop. */
  method CollectReadmeLines(lines: seq<String>, filename: String) returns (collected: seq<String>)
    ensures collected == ReadmeSection(lines, filename)
  {
    var collecting := false;
    collected := [];
    var start := FirstMention(lines, filename, 0);
    var i := 0;
    while i < |lines|
      invariant 0 <= i <= |lines|
      invariant !collecting ==> collected == [] && start >= i
      invariant collecting ==> start < i && collected == lines[start..i] && ReadmeEnd(lines, start, start) >= i
    {
      var line := lines[i];
      if MentionsReadme(line, filename) {
        collecting := true;
      }
      if collecting {
        if Contains(line, "```") && |collected| > 0 {
          assert StopsReadme(lines, start, i);
          break;
        }
        if Contains(line, "tool_use") || Contains(line, "write_file") {
          assert StopsReadme(lines, start, i);
          break;
        }
        collected := collected + [line];
      }
      i := i + 1;
    }
  }

  /** What step 2 yields: the collected lines joined and stripped, or nothing. The
      `re.sub(r'tool_use.*?write_file.*?\n', '', content)` that follows in the agent
      changes nothing, since its pattern starts with `tool_use` and
      `ReadmeContentFreeOfToolUse` shows the content never holds it. */
  function ReadmeContent(response: String, filename: String): String {
    var collected := ReadmeSection(Lines(response), filename);
    if |collected| == 0 then "" else Strip(Join("\n", collected))
  }

  /** The README content holds no `tool_use`, so the clean-up substitution is a no-op. */
  lemma ReadmeContentFreeOfToolUse(response: String, filename: String)
    ensures !Contains(ReadmeContent(response, filename), "tool_use")
  {
    var lines := Lines(response);
    var start := FirstMention(lines, filename, 0);
    var collected := ReadmeSection(lines, filename);
    forall part | part in collected ensures !Contains(part, "tool_use") {
      var j :| 0 <= j < |collected| && collected[j] == part;
      assert lines[start + j] == part;
      assert !StopsReadme(lines, start, start + j);
    }
    if |collected| > 0 {
      JoinAvoids("\n", collected, "tool_use");
      StripAvoids(Join("\n", collected), "tool_use");
    }
  }

  // ---------------------------------------------------------------------------
  // Step 3: the lines after the first fence line

  /** The first line at or after `k` holding a fence, or `|lines|`. */
  function FirstFence(lines: seq<String>, k: nat): (r: nat)
    requires k <= |lines|
    ensures k <= r <= |lines|
    ensures forall j :: k <= j < r ==> !Contains(lines[j], "```")
    ensures r < |lines| ==> Contains(lines[r], "```")
    decreases |lines| - k
  {
    if k == |lines| || Contains(lines[k], "```") then k
    else FirstFence(lines, k + 1)
  }

  /** The lines strictly between `f` and `i` that hold no fence, in order. */
  function KeptAfter(lines: seq<String>, f: nat, i: nat): seq<String>
    requires i <= |lines|
  {
    if i <= f + 1 then []
    else KeptAfter(lines, f, i - 1) + (if Contains(lines[i - 1], "```") then [] else [lines[i - 1]])
  }

  /** The lines the fence collector gathers. */
  function FenceSection(lines: seq<String>): seq<String> {
    var f := FirstFence(lines, 0);
    if f == |lines| then [] else KeptAfter(lines, f, |lines|)
  }

  /** The fence collector's loop. A fence line sets `collecting` and skips to the next
      line before the check that would stop at a fence, so that check never fires: the
      loop gathers every fence-free line after the first fence, across all later
      blocks and the prose between them. The file-name test has no effect either. */
  method CollectAfterFence(lines: seq<String>, filename: String) returns (collected: seq<String>)
    ensures collected == FenceSection(lines)
  {
    var collecting := false;
    collected := [];
    var f := FirstFence(lines, 0);
    for i := 0 to |lines|
      invariant !collecting ==> collected == [] && f >= i
      invariant collecting ==> f < i && collected == KeptAfter(lines, f, i)
    {
      var line := lines[i];
      if Contains(line, filename) || Contains(line, "```") {
        if Contains(line, "```") {
          collecting := true;
          continue;
        }
      }
      if collecting {
        if Contains(line, "```") {
          break;
        }
        collected := collected + [line];
      }
    }
  }

  /** The fence collector keeps exactly the fence-free lines that come after the first
      fence line. */
  lemma {:induction false} KeptAfterMembers(lines: seq<String>, f: nat, i: nat)
    requires i <= |lines|
    ensures forall x :: x in KeptAfter(lines, f, i) <==>
              exists k :: f < k < i && lines[k] == x && !Contains(x, "```")
    decreases i
  {
    if i > f + 1 {
      KeptAfterMembers(lines, f, i - 1);
      var before := KeptAfter(lines, f, i - 1);
      var last := if Contains(lines[i - 1], "```") then [] else [lines[i - 1]];
      assert KeptAfter(lines, f, i) == before + last;
      forall x
        ensures x in KeptAfter(lines, f, i) <==>
                exists k :: f < k < i && lines[k] == x && !Contains(x, "```")
      {
        if x in last {
          assert f < i - 1 < i && lines[i - 1] == x && !Contains(x, "```");
        }
        if exists k :: f < k < i && lines[k] == x && !Contains(x, "```") {
          var k :| f < k < i && lines[k] == x && !Contains(x, "```");
          if k < i - 1 {
            assert x in before;
          } else {
            assert x in last;
          }
        }
      }
    }
  }

  lemma FenceSectionMembers(lines: seq<String>)
    ensures forall x :: x in FenceSection(lines) <==>
              exists k :: FirstFence(lines, 0) < k < |lines| && lines[k] == x && !Contains(x, "```")
  {
    KeptAfterMembers(lines, FirstFence(lines, 0), |lines|);
  }

  /** What step 3 yields. */
  function FenceContent(response: String): String {
    var collected := FenceSection(Lines(response));
    if |collected| == 0 then "" else Strip(Join("\n", collected))
  }

  // ---------------------------------------------------------------------------
  // The whole auto-fix

  /** What step 1 yields: the last block, stripped, or nothing. */
  function BlockContent(response: String): String {
    var blocks := FencedBlocks(response, 0);
    if |blocks| > 0 then Strip(blocks[|blocks| - 1]) else ""
  }

  /** Steps 1 to 3 in turn, each tried only when the ones before gave nothing. */
  function RecoveredContent(response: String, filename: String): String {
    var fromBlock := BlockContent(response);
    var fromReadme := if fromBlock == "" && IsReadmeName(filename) then ReadmeContent(response, filename) else fromBlock;
    if fromReadme == "" then FenceContent(response) else fromReadme
  }

  /** The project name given to the README generator: the name of the file's directory,
      or "Project" when `os.path.dirname` gives ".". */
  function ProjectName(filePath: String): String {
    if Dirname(filePath) != "." then Basename(Dirname(filePath)) else "Project"
  }

  /** `_generate_basic_readme(project_name, file_path, response)`, which reads the file
      system, given as a parameter. */
  type ReadmeGenerator = (String, String, String) -> String

  /** The arguments of a `write_file` call that lacks its content, after the auto-fix. */
  function AutoFix(args: Args, response: String, generate: ReadmeGenerator): Args {
    var filePath := GetArg(args, "file_path").GetOr("");
    if response == "" || filePath == "" then args
    else
      var filename := Basename(filePath);
      var content := RecoveredContent(response, filename);
      if content != "" then PutArg(args, "content", content)
      else if IsReadmeName(filename) && generate(ProjectName(filePath), filePath, response) != "" then
        PutArg(args, "content", generate(ProjectName(filePath), filePath, response))
      else args
  }

  /** The auto-fix keeps the keys in their order and adds at most `content`, at the end. */
  lemma AutoFixKeys(args: Args, response: String, generate: ReadmeGenerator)
    ensures var keys := ArgKeys(AutoFix(args, response, generate));
            keys == ArgKeys(args) || keys == ArgKeys(args) + ["content"]
  {
    AutoFixOnlySetsContent(args, response, generate);
    var fixed := AutoFix(args, response, generate);
    if fixed != args {
      var c :| c != "" && fixed == PutArg(args, "content", c);
      PutArgOrder(args, "content", c);
    }
  }

  /** Steps 1 to 3 as the agent runs them, with the two collector loops. */
  method RecoverContent(response: String, filename: String) returns (content: String)
    ensures content == RecoveredContent(response, filename)
  {
    content := "";
    var isReadme := IsReadmeName(filename);
    var codeBlocks := FencedBlocks(response, 0);
    if |codeBlocks| > 0 {
      content := Strip(codeBlocks[|codeBlocks| - 1]);
    }
    assert content == BlockContent(response);
    if content == "" && isReadme {
      content := ReadmeStep(response, filename);
    }
    if content == "" {
      content := FenceStep(response, filename);
    }
  }

  /** Step 2 as the agent runs it. */
  method ReadmeStep(response: String, filename: String) returns (content: String)
    ensures content == ReadmeContent(response, filename)
  {
    content := "";
    var collected := CollectReadmeLines(SplitOn(response, "\n"), filename);
    if |collected| > 0 {
      content := Strip(Join("\n", collected));
    }
  }

  /** Step 3 as the agent runs it. */
  method FenceStep(response: String, filename: String) returns (content: String)
    ensures content == FenceContent(response)
  {
    content := "";
    var collected := CollectAfterFence(SplitOn(response, "\n"), filename);
    if |collected| > 0 {
      content := Strip(Join("\n", collected));
    }
  }

  /** The auto-fix as the agent runs it. */
  method AutoFixArgs(args: Args, response: String, generate: ReadmeGenerator) returns (fixed: Args)
    ensures fixed == AutoFix(args, response, generate)
  {
    fixed := args;
    var filePath := GetArg(args, "file_path").GetOr("");
    if response != "" && filePath != "" {
      var filename := Basename(filePath);
      var isReadme := IsReadmeName(filename);
      var content := RecoverContent(response, filename);
      if content != "" {
        fixed := PutArg(fixed, "content", content);
      } else if isReadme {
        var basicReadme := generate(ProjectName(filePath), filePath, response);
        if basicReadme != "" {
          fixed := PutArg(fixed, "content", basicReadme);
        }
      }
    }
  }

  // ---------------------------------------------------------------------------
  // What the auto-fix guarantees

  /** Nothing is recovered without both a reply text and a file path. */
  lemma AutoFixNeedsPathAndReply(args: Args, response: String, generate: ReadmeGenerator)
    requires response == "" || GetArg(args, "file_path") == None || GetArg(args, "file_path") == Some("")
    ensures AutoFix(args, response, generate) == args
  {
  }

  /** The auto-fix only ever sets `content`, to a non-empty text, and leaves every other
      argument and the order of the keys alone (a new key goes last); when it finds
      nothing, the arguments are unchanged. */
  lemma AutoFixOnlySetsContent(args: Args, response: String, generate: ReadmeGenerator)
    ensures var fixed := AutoFix(args, response, generate);
            (fixed == args)
            || (exists c :: c != "" && fixed == PutArg(args, "content", c))
    ensures var fixed := AutoFix(args, response, generate);
            forall k :: k != "content" ==> GetArg(fixed, k) == GetArg(args, k)
    ensures var fixed := AutoFix(args, response, generate);
            LacksContent(fixed) ==> fixed == args
  {
    var filePath := GetArg(args, "file_path").GetOr("");
    if response != "" && filePath != "" {
      var filename := Basename(filePath);
      var content := RecoveredContent(response, filename);
      var generated := generate(ProjectName(filePath), filePath, response);
      if content != "" {
        assert AutoFix(args, response, generate) == PutArg(args, "content", content);
        PutArgLookup(args, "content", content);
      } else if IsReadmeName(filename) && generated != "" {
        assert AutoFix(args, response, generate) == PutArg(args, "content", generated);
        PutArgLookup(args, "content", generated);
      }
    }
  }

  /** A README path whose reply holds nothing to recover is handed to the generator. */
  lemma AutoFixGeneratesReadme(args: Args, response: String, generate: ReadmeGenerator)
    requires response != ""
    requires GetArg(args, "file_path").Some? && GetArg(args, "file_path").value != ""
    requires var filePath := GetArg(args, "file_path").value;
             IsReadmeName(Basename(filePath)) && RecoveredContent(response, Basename(filePath)) == ""
             && generate(ProjectName(filePath), filePath, response) != ""
    ensures var filePath := GetArg(args, "file_path").value;
            GetArg(AutoFix(args, response, generate), "content")
              == Some(generate(ProjectName(filePath), filePath, response))
  {
    var filePath := GetArg(args, "file_path").value;
    PutArgSpec(args, "content", generate(ProjectName(filePath), filePath, response));
  }

  /** A reply with one fenced block, whose body is not blank, fixes the call with that
      body, stripped. */
  lemma AutoFixUsesTheBlock(args: Args, response: String, pre: String, lang: String, body: String,
                            post: String, generate: ReadmeGenerator)
    requires response == pre + "```" + lang + "\n" + body + "```" + post
    requires '`' !in pre && '`' !in body && '`' !in post
    requires forall i :: 0 <= i < |lang| ==> IsWordChar(lang[i])
    requires Strip(body) != ""
    requires GetArg(args, "file_path").Some? && GetArg(args, "file_path").value != ""
    ensures GetArg(AutoFix(args, response, generate), "content") == Some(Strip(body))
  {
    SingleBlock(response, pre, lang, body, post);
    assert RecoveredContent(response, Basename(GetArg(args, "file_path").value)) == Strip(body);
    PutArgSpec(args, "content", Strip(body));
  }

  /** Of two fenced blocks, the second one's body, stripped, becomes the content, as
      `code_blocks[-1]` picks it. */
  lemma AutoFixUsesTheLastBlock(args: Args, response: String, pre: String, lang1: String, body1: String,
                                mid: String, lang2: String, body2: String, post: String,
                                generate: ReadmeGenerator)
    requires response == (pre + "```" + lang1 + "\n" + body1 + "```") + (mid + "```" + lang2 + "\n" + body2 + "```" + post)
    requires '`' !in pre && '`' !in body1 && '`' !in mid && '`' !in body2 && '`' !in post
    requires forall i :: 0 <= i < |lang1| ==> IsWordChar(lang1[i])
    requires forall i :: 0 <= i < |lang2| ==> IsWordChar(lang2[i])
    requires Strip(body2) != ""
    requires GetArg(args, "file_path").Some? && GetArg(args, "file_path").value != ""
    ensures GetArg(AutoFix(args, response, generate), "content") == Some(Strip(body2))
  {
    TwoBlocks(response, pre, lang1, body1, mid, lang2, body2, post);
    assert RecoveredContent(response, Basename(GetArg(args, "file_path").value)) == Strip(body2);
    PutArgSpec(args, "content", Strip(body2));
  }
}
