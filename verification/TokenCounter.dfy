/** The rough token measure that drives pruning and compression. */
module TokenCounter {
  import opened Wrappers
  import opened Messages
  import opened Sequences

  /** A token for every four bytes, rounded up. */
  function TextTokens(text: string): (n: nat)
    ensures 4 * n >= |text| > 4 * n - 4
  {
    (|text| + 3) / 4
  }

  function CallTokens(calls: seq<ToolCall>): nat {
    if calls == [] then 0
    else CallTokens(calls[..|calls| - 1])
         + TextTokens(calls[|calls| - 1].name) + TextTokens(calls[|calls| - 1].arguments.json)
  }

  function ReasoningTokens(reasoning: Option<string>): nat {
    match reasoning
    case None => 0
    case Some(r) => TextTokens(r)
  }

  function MessageTokens(m: Message): nat {
    4 + TextTokens(m.content.AsTextLossy()) + CallTokens(m.toolCalls) + ReasoningTokens(m.reasoning)
  }

  function HistoryTokens(h: History): nat {
    if h == [] then 0 else MessageTokens(h[0]) + HistoryTokens(h[1..])
  }

  function RequestTokens(system: string, h: History, toolCount: nat): nat {
    TextTokens(system) + HistoryTokens(h) + toolCount * 50
  }

  method CountMessage(m: Message) returns (count: nat)
    ensures count == MessageTokens(m)
  {
    count := 4 + TextTokens(m.content.AsTextLossy());
    for i := 0 to |m.toolCalls|
      invariant count == 4 + TextTokens(m.content.AsTextLossy()) + CallTokens(m.toolCalls[..i])
    {
      assert m.toolCalls[..i + 1][..i] == m.toolCalls[..i];
      count := count + TextTokens(m.toolCalls[i].name);
      count := count + TextTokens(m.toolCalls[i].arguments.json);
    }
    assert m.toolCalls[..|m.toolCalls|] == m.toolCalls;
    if m.reasoning.Some? {
      count := count + TextTokens(m.reasoning.value);
    }
  }

  method EstimateRequest(system: string, h: History, toolCount: nat) returns (total: nat)
    ensures total == RequestTokens(system, h, toolCount)
  {
    total := TextTokens(system);
    total := total + HistoryTokens(h);
    total := total + toolCount * 50;
  }

  lemma {:induction false} HistoryTokensConcat(a: History, b: History)
    ensures HistoryTokens(a + b) == HistoryTokens(a) + HistoryTokens(b)
  {
    if a == [] {
      EmptyConcat(b);
    } else {
      TailOfConcat(a, b);
      HistoryTokensConcat(a[1..], b);
    }
  }

  lemma {:induction false} MessagesWeigh(h: History)
    ensures HistoryTokens(h) >= 4 * |h|
  {
    if h != [] {
      MessagesWeigh(h[1..]);
    }
  }

  /** A longer history weighs more by what was added, at least four tokens a message. */
  lemma RequestGrows(system: string, h: History, more: History, toolCount: nat)
    ensures RequestTokens(system, h + more, toolCount) == RequestTokens(system, h, toolCount) + HistoryTokens(more)
    ensures RequestTokens(system, h + more, toolCount) >= RequestTokens(system, h, toolCount) + 4 * |more|
  {
    HistoryTokensConcat(h, more);
    MessagesWeigh(more);
  }

  /** What a message weighs, piece by piece: four tokens, and a token for every four bytes,
      rounded up, of its text, of each call's name and arguments, and of its reasoning. */
  lemma MessageWeight(m: Message, calls: seq<ToolCall>, c: ToolCall, reasoning: string)
    ensures m.toolCalls == [] && m.reasoning == None ==>
              MessageTokens(m) == 4 + (|m.content.AsTextLossy()| + 3) / 4
    ensures MessageTokens(m.(toolCalls := calls + [c]))
         == MessageTokens(m.(toolCalls := calls)) + (|c.name| + 3) / 4 + (|c.arguments.json| + 3) / 4
    ensures m.reasoning == None ==>
              MessageTokens(m.(reasoning := Some(reasoning))) == MessageTokens(m) + (|reasoning| + 3) / 4
  {
    assert (calls + [c])[..|calls + [c]| - 1] == calls;
  }

  /** What a request weighs: the prompt, every message, and fifty tokens a tool. */
  lemma RequestWeight(system: string, h: History, m: Message, toolCount: nat)
    ensures RequestTokens(system, [], toolCount) == (|system| + 3) / 4 + 50 * toolCount
    ensures RequestTokens(system, h + [m], toolCount) == RequestTokens(system, h, toolCount) + MessageTokens(m)
  {
    hide MessageTokens;
    HistoryTokensConcat(h, [m]);
    assert [m][1..] == [];
  }
}
