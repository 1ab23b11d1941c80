/**
 * The conversation data the agent works on: the four message kinds of the chat
 * library, tool-call requests, and the argument dictionary of a tool call.
 */
module Messages {
  import opened Common
  import opened Text

  /** One entry of a tool call's argument dictionary. */
  datatype Arg = Arg(key: String, value: String)

  /** A Python dict of string arguments, kept in insertion order (the order
      `list(tool_args.keys())` reports). */
  type Args = seq<Arg>

  /** A tool call requested by the model: `{"id": ..., "name": ..., "args": {...}}`. */
  datatype ToolCall = ToolCall(id: String, name: String, args: Args)

  datatype Message =
    | SystemMessage(content: String)
    | HumanMessage(content: String)
    | AIMessage(content: String, toolCalls: seq<ToolCall>)
    | ToolMessage(content: String, toolCallId: String)

  /** `hasattr(msg, "tool_calls")`: only AI messages carry the attribute. */
  predicate HasToolCallsAttribute(m: Message) {
    m.AIMessage?
  }

  /** `hasattr(msg, "tool_calls") and msg.tool_calls` */
  predicate RequestsTools(m: Message) {
    m.AIMessage? && |m.toolCalls| > 0
  }

  /** `list(args.keys())` */
  function ArgKeys(args: Args): seq<String> {
    seq(|args|, i requires 0 <= i < |args| => args[i].key)
  }

  /** No key occurs twice, as in a Python dict. */
  predicate UniqueKeys(args: Args) {
    forall i, j :: 0 <= i < j < |args| ==> args[i].key != args[j].key
  }

  /** `args.get(key)` */
  function GetArg(args: Args, key: String): Option<String> {
    if |args| == 0 then None
    else if args[0].key == key then Some(args[0].value)
    else GetArg(args[1..], key)
  }

  /** `args[key] = value`: overwrite in place when present, otherwise append. */
  function PutArg(args: Args, key: String, value: String): Args {
    if |args| == 0 then [Arg(key, value)]
    else if args[0].key == key then [Arg(key, value)] + args[1..]
    else [args[0]] + PutArg(args[1..], key, value)
  }

  /** Python dict assignment: the key now maps to the value, every other key keeps its
      value, and the key order changes only by appending a new key. */
  lemma PutArgSpec(args: Args, key: String, value: String)
    ensures GetArg(PutArg(args, key, value), key) == Some(value)
    ensures forall k :: k != key ==> GetArg(PutArg(args, key, value), k) == GetArg(args, k)
    ensures ArgKeys(PutArg(args, key, value))
              == if key in ArgKeys(args) then ArgKeys(args) else ArgKeys(args) + [key]
  {
    PutArgLookup(args, key, value);
    PutArgOrder(args, key, value);
  }

  /** After `args[key] = value`, looking up `key` gives `value` and every other key
      gives what it gave before. */
  lemma {:induction false} PutArgLookup(args: Args, key: String, value: String)
    ensures GetArg(PutArg(args, key, value), key) == Some(value)
    ensures forall k :: k != key ==> GetArg(PutArg(args, key, value), k) == GetArg(args, k)
  {
    if |args| > 0 && args[0].key != key {
      PutArgLookup(args[1..], key, value);
      var r := PutArg(args, key, value);
      assert r[1..] == PutArg(args[1..], key, value);
      forall k | k != key ensures GetArg(r, k) == GetArg(args, k) {
        if args[0].key != k {
          assert GetArg(r, k) == GetArg(r[1..], k);
        }
      }
    } else if |args| > 0 {
      assert PutArg(args, key, value)[1..] == args[1..];
    }
  }

  /** `args[key] = value` keeps the key order, appending `key` when it is new. */
  lemma {:induction false} PutArgOrder(args: Args, key: String, value: String)
    ensures ArgKeys(PutArg(args, key, value))
              == if key in ArgKeys(args) then ArgKeys(args) else ArgKeys(args) + [key]
  {
    var r := PutArg(args, key, value);
    if |args| > 0 && args[0].key != key {
      var h, rest := args[0].key, ArgKeys(args[1..]);
      PutArgOrder(args[1..], key, value);
      assert r[1..] == PutArg(args[1..], key, value);
      ArgKeysCons(args);
      ArgKeysCons(r);
      assert key in ArgKeys(args) <==> key in rest;
      if key !in rest {
        assert [h] + (rest + [key]) == ([h] + rest) + [key];
      }
    } else if |args| > 0 {
      assert r[1..] == args[1..];
      ArgKeysCons(args);
      ArgKeysCons(r);
    }
  }

  /** `key in args` holds exactly when `args.get(key)` finds a value. */
  lemma {:induction false} ArgKeysHasKey(args: Args, key: String)
    ensures key in ArgKeys(args) <==> GetArg(args, key).Some?
  {
    if |args| > 0 {
      ArgKeysHasKey(args[1..], key);
      ArgKeysCons(args);
    }
  }

  /** `args[key] = value` keeps a dict a dict: no key occurs twice afterwards. */
  lemma PutArgKeepsKeysUnique(args: Args, key: String, value: String)
    requires UniqueKeys(args)
    ensures UniqueKeys(PutArg(args, key, value))
  {
    var r := PutArg(args, key, value);
    PutArgOrder(args, key, value);
    assert forall i :: 0 <= i < |r| ==> r[i].key == ArgKeys(r)[i];
    assert forall i :: 0 <= i < |args| ==> args[i].key == ArgKeys(args)[i];
  }

  /** The keys of a non-empty list: the first key, then the keys of the rest. */
  lemma ArgKeysCons(args: Args)
    requires |args| > 0
    ensures ArgKeys(args) == [args[0].key] + ArgKeys(args[1..])
  {
    assert ArgKeys(args)[1..] == ArgKeys(args[1..]);
  }

  /** `"content" not in tool_args or not tool_args.get("content")` */
  predicate LacksContent(args: Args) {
    GetArg(args, "content") == None || GetArg(args, "content") == Some("")
  }
}
