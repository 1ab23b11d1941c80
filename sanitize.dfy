/**
 * `CodeGeneratorAgent._clean_messages_for_anthropic`: before the history is sent to the
 * model, every AI message whose tool calls are not all answered by the run of tool
 * messages right after it is replaced by a plain AI message with the same text.
 *
 * The loop visits every message that is not a tool message as the head of an
 * iteration, and copies tool messages unchanged, so its output can be stated
 * position by position: `CleanAt(ms, k)` is what ends up at index `k`.
 */
module Sanitize {
  import opened Text
  import opened Messages

  /** How many tool messages open `s`. */
  function ToolRunLength(s: seq<Message>): (n: nat)
    ensures n <= |s|
    ensures forall i :: 0 <= i < n ==> s[i].ToolMessage?
    ensures n < |s| ==> !s[n].ToolMessage?
  {
    if |s| > 0 && s[0].ToolMessage? then 1 + ToolRunLength(s[1..]) else 0
  }

  /** The run of tool messages directly after index `k`. */
  function ToolRunAfter(ms: seq<Message>, k: nat): seq<Message>
    requires k < |ms|
  {
    ms[k + 1..][..ToolRunLength(ms[k + 1..])]
  }

  /** `{tc.get("id") for tc in msg.tool_calls}` */
  function CallIds(calls: seq<ToolCall>): set<String> {
    set c | c in calls :: c.id
  }

  /** The ids among `ids` that a tool message of `run` answers. */
  function AnsweredIds(run: seq<Message>, ids: set<String>): set<String> {
    set m | m in run && m.ToolMessage? && m.toolCallId in ids :: m.toolCallId
  }

  /** Every tool call of the AI message at `k` has a result in the tool run after it. */
  predicate Answered(ms: seq<Message>, k: nat)
    requires k < |ms| && ms[k].AIMessage?
  {
    AnsweredIds(ToolRunAfter(ms, k), CallIds(ms[k].toolCalls)) == CallIds(ms[k].toolCalls)
  }

  /** What the sanitizer leaves at index `k`. */
  function CleanAt(ms: seq<Message>, k: nat): Message
    requires k < |ms|
  {
    if RequestsTools(ms[k]) && !Answered(ms, k) then AIMessage(ms[k].content, []) else ms[k]
  }

  function Cleaned(ms: seq<Message>): (r: seq<Message>)
    ensures |r| == |ms|
  {
    seq(|ms|, k requires 0 <= k < |ms| => CleanAt(ms, k))
  }

  /** The sanitizing loop, with the look-ahead over the following tool messages. */
  method CleanMessagesForAnthropic(messages: seq<Message>) returns (cleaned: seq<Message>)
    ensures cleaned == Cleaned(messages)
  {
    cleaned := [];
    var i := 0;
    while i < |messages|
      invariant 0 <= i <= |messages|
      invariant |cleaned| == i
      invariant forall k :: 0 <= k < i ==> cleaned[k] == CleanAt(messages, k)
    {
      var msg := messages[i];
      if msg.SystemMessage? {
        cleaned := cleaned + [msg];
        i := i + 1;
        continue;
      }
      if msg.AIMessage? && |msg.toolCalls| > 0 {
        var toolCallIds := set tc | tc in msg.toolCalls :: tc.id;
        var j, foundToolResults := ScanToolRun(messages, i, toolCallIds);
        if toolCallIds == foundToolResults {
          cleaned := cleaned + [msg];
          for k := i + 1 to j
            invariant |cleaned| == k
            invariant forall t :: 0 <= t < k ==> cleaned[t] == CleanAt(messages, t)
          {
            cleaned := cleaned + [messages[k]];
          }
          i := j;
          continue;
        } else {
          cleaned := cleaned + [AIMessage(msg.content, [])];
          i := i + 1;
          continue;
        }
      }
      cleaned := cleaned + [msg];
      i := i + 1;
    }
  }

  /** The look-ahead of the sanitizing loop: walk over the tool messages after index `i`
      and collect the ids among `toolCallIds` that they answer. */
  method ScanToolRun(messages: seq<Message>, i: nat, toolCallIds: set<String>)
    returns (j: nat, foundToolResults: set<String>)
    requires i < |messages|
    ensures j == i + 1 + ToolRunLength(messages[i + 1..])
    ensures foundToolResults == AnsweredIds(ToolRunAfter(messages, i), toolCallIds)
  {
    foundToolResults := {};
    j := i + 1;
    while j < |messages|
      invariant i + 1 <= j <= |messages|
      invariant forall t :: i + 1 <= t < j ==> messages[t].ToolMessage?
      invariant foundToolResults == AnsweredIds(messages[i + 1..j], toolCallIds)
    {
      var next := messages[j];
      if next.ToolMessage? {
        assert messages[i + 1..j + 1] == messages[i + 1..j] + [next];
        if next.toolCallId in toolCallIds {
          foundToolResults := foundToolResults + {next.toolCallId};
        }
        j := j + 1;
      } else {
        break;
      }
    }
    RunEndsAt(messages[i + 1..], j - (i + 1));
    assert messages[i + 1..j] == ToolRunAfter(messages, i);
  }

  /** A tool run that stops at `n` has length `n`. */
  lemma RunEndsAt(s: seq<Message>, n: nat)
    requires n <= |s|
    requires forall t :: 0 <= t < n ==> s[t].ToolMessage?
    requires n < |s| ==> !s[n].ToolMessage?
    ensures ToolRunLength(s) == n
  {
  }

  /** A tool run is at least as long as any all-tool prefix. */
  lemma {:induction false} RunCoversToolPrefix(s: seq<Message>, n: nat)
    requires n <= |s|
    requires forall t :: 0 <= t < n ==> s[t].ToolMessage?
    ensures ToolRunLength(s) >= n
  {
    if n > 0 {
      RunCoversToolPrefix(s[1..], n - 1);
    }
  }

  // ---------------------------------------------------------------------------
  // What the sanitizer guarantees

  /** The output is as long as the input; a message that requests no tool is kept
      as it is; a message that requests tools is kept exactly when its calls are all
      answered and otherwise loses its calls and keeps its text. */
  lemma CleanedShape(ms: seq<Message>)
    ensures |Cleaned(ms)| == |ms|
    ensures forall k :: 0 <= k < |ms| && !RequestsTools(ms[k]) ==> Cleaned(ms)[k] == ms[k]
    ensures forall k :: 0 <= k < |ms| && RequestsTools(ms[k]) ==>
              (Cleaned(ms)[k] == ms[k] <==> Answered(ms, k))
    ensures forall k :: 0 <= k < |ms| && RequestsTools(ms[k]) && !Answered(ms, k) ==>
              Cleaned(ms)[k] == AIMessage(ms[k].content, [])
  {
  }

  /** Two histories that agree on where the tool messages are, and on the tool
      messages themselves, have the same tool run at their head. */
  lemma {:induction false} SameToolRun(a: seq<Message>, b: seq<Message>)
    requires |a| == |b|
    requires forall i :: 0 <= i < |a| ==> (a[i].ToolMessage? <==> b[i].ToolMessage?)
    requires forall i :: 0 <= i < |a| && a[i].ToolMessage? ==> a[i] == b[i]
    ensures ToolRunLength(a) == ToolRunLength(b)
    ensures a[..ToolRunLength(a)] == b[..ToolRunLength(b)]
  {
    if |a| > 0 && a[0].ToolMessage? {
      SameToolRun(a[1..], b[1..]);
      assert a[..ToolRunLength(a)] == [a[0]] + a[1..][..ToolRunLength(a[1..])];
      assert b[..ToolRunLength(b)] == [b[0]] + b[1..][..ToolRunLength(b[1..])];
    }
  }

  /** Cleaning never moves, adds, removes or alters a tool message. */
  lemma ToolMessagesUntouched(ms: seq<Message>)
    ensures forall i :: 0 <= i < |ms| ==> (Cleaned(ms)[i].ToolMessage? <==> ms[i].ToolMessage?)
    ensures forall i :: 0 <= i < |ms| && ms[i].ToolMessage? ==> Cleaned(ms)[i] == ms[i]
  {
  }

  /** After cleaning, every message that still requests tools is directly followed by
      tool messages that answer every one of its call ids. */
  lemma CleanedAnswersEveryRequest(ms: seq<Message>)
    ensures forall k :: 0 <= k < |Cleaned(ms)| && RequestsTools(Cleaned(ms)[k]) ==> Answered(Cleaned(ms), k)
  {
    var c := Cleaned(ms);
    forall k | 0 <= k < |c| && RequestsTools(c[k]) ensures Answered(c, k) {
      assert c[k] == ms[k] && Answered(ms, k);
      ToolMessagesUntouched(ms);
      SameToolRun(c[k + 1..], ms[k + 1..]);
      assert ToolRunAfter(c, k) == ToolRunAfter(ms, k);
    }
  }

  /** Cleaning an already cleaned history changes nothing. */
  lemma CleanedIdempotent(ms: seq<Message>)
    ensures Cleaned(Cleaned(ms)) == Cleaned(ms)
  {
    var c := Cleaned(ms);
    CleanedAnswersEveryRequest(ms);
    assert forall k :: 0 <= k < |c| ==> CleanAt(c, k) == c[k];
  }

  /** An AI message whose calls are answered, one by one and in order, by the tool
      messages right after it survives cleaning unchanged. */
  lemma RepliedRequestIsKept(ms: seq<Message>, k: nat)
    requires k < |ms| && RequestsTools(ms[k])
    requires k + |ms[k].toolCalls| < |ms|
    requires forall i :: 0 <= i < |ms[k].toolCalls| ==>
               ms[k + 1 + i].ToolMessage? && ms[k + 1 + i].toolCallId == ms[k].toolCalls[i].id
    ensures Cleaned(ms)[k] == ms[k]
  {
    var calls := ms[k].toolCalls;
    var n := |calls|;
    var rest := ms[k + 1..];
    forall t | 0 <= t < n ensures rest[t].ToolMessage? {
      assert calls[t] in calls;
      assert rest[t] == ms[k + 1 + t];
    }
    RunCoversToolPrefix(rest, n);
    var run := ToolRunAfter(ms, k);
    var ids := CallIds(calls);
    forall id | id in ids ensures id in AnsweredIds(run, ids) {
      var i :| 0 <= i < n && calls[i].id == id;
      assert run[i] == ms[k + 1 + i];
    }
  }
}
