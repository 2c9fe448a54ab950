/** Chat messages and the shape of a conversation history.

    A history is a system prompt followed by whole groups.  A group is a lone user or
    assistant message, or an assistant message that asks for k >= 1 tool calls followed by
    exactly its k tool replies, in order and with matching ids. */
module Messages {

  datatype Role = System | User | Assistant | Tool | Other(name: string)

  datatype ToolCall = ToolCall(id: string, name: string, arguments: string)

  /** Text is a sequence of runes: an invalid byte counts as one rune, as in Go. */
  datatype Message = Message(role: Role, content: string, toolCallId: string, toolCalls: seq<ToolCall>)

  function Plain(role: Role, content: string): Message {
    Message(role, content, "", [])
  }

  function ToolReply(id: string, content: string): Message {
    Message(Tool, content, id, [])
  }

  predicate IsCall(m: Message) {
    m.role == Assistant && |m.toolCalls| > 0
  }

  function GroupSize(m: Message): nat {
    if IsCall(m) then 1 + |m.toolCalls| else 1
  }

  /** Is g a single group? */
  predicate IsGroup(g: seq<Message>) {
    && |g| > 0
    && (g[0].role == User || g[0].role == Assistant)
    && |g| == GroupSize(g[0])
    && forall i | 1 <= i < |g| :: g[i].role == Tool && g[i].toolCallId == g[0].toolCalls[i - 1].id
  }

  predicate WholeGroups(ms: seq<Message>) {
    ms == [] ||
    (var k := GroupSize(ms[0]);
     k <= |ms| && IsGroup(ms[..k]) && WholeGroups(ms[k..]))
  }

  predicate IsHistory(ms: seq<Message>) {
    |ms| > 0 && ms[0].role == System && WholeGroups(ms[1..])
  }

  lemma {:induction false} AppendSlices<T>(a: seq<T>, b: seq<T>, k: nat)
    requires k <= |a|
    ensures (a + b)[..k] == a[..k] && (a + b)[k..] == a[k..] + b
  {}

  lemma {:induction false} GroupsAppend(a: seq<Message>, b: seq<Message>)
    requires WholeGroups(a) && WholeGroups(b)
    ensures WholeGroups(a + b)
    decreases |a|
  {
    if a == [] {
      assert a + b == b;
    } else {
      var k := GroupSize(a[0]);
      AppendSlices(a, b, k);
      GroupsAppend(a[k..], b);
      assert (a + b)[0] == a[0];
    }
  }

  lemma {:induction false} GroupIsWhole(g: seq<Message>)
    requires IsGroup(g)
    ensures WholeGroups(g)
  {
    assert g[..|g|] == g && g[|g|..] == [];
  }

  /** Cutting a list of whole groups leaves whole groups behind exactly when the cut is not
      in front of a tool reply. */
  lemma {:induction false} SuffixWholeIff(ms: seq<Message>, i: nat)
    requires WholeGroups(ms) && i <= |ms|
    ensures WholeGroups(ms[i..]) <==> (i == |ms| || ms[i].role != Tool)
    ensures i == |ms| || ms[i].role != Tool ==> WholeGroups(ms[..i])
    decreases |ms|
  {
    if i == |ms| || i == 0 {
      assert ms[i..] == if i == 0 then ms else [];
      assert ms[..i] == if i == 0 then [] else ms;
    } else {
      var k := GroupSize(ms[0]);
      if i < k {
        assert ms[..k][i].role == Tool;
        assert ms[i..][0] == ms[i];
        var k' := GroupSize(ms[i..][0]);
        assert k' <= |ms[i..]| ==> ms[i..][..k'][0] == ms[i];
      } else {
        SuffixWholeIff(ms[k..], i - k);
        assert ms[k..][i - k..] == ms[i..];
        assert ms[..i][..k] == ms[..k];
        assert ms[..i][k..] == ms[k..][..i - k];
      }
    }
  }

  /** ms[i] is a tool message in the unbroken run of tool messages behind a call; ms[0] is
      the system prompt.  This says nothing about counts or ids. */
  predicate InsideExchange(ms: seq<Message>, i: nat)
    requires i < |ms|
  {
    i > 1 && ms[i].role == Tool && (IsCall(ms[i - 1]) || InsideExchange(ms, i - 1))
  }

  lemma {:induction false} RunIsInside(h: seq<Message>, s: nat, i: nat)
    requires 1 <= s < i < |h| && IsCall(h[s]) && forall t | s < t <= i :: h[t].role == Tool
    ensures InsideExchange(h, i)
    decreases i
  {
    if s < i - 1 {
      RunIsInside(h, s, i - 1);
    }
  }

  /** The group that stands at position s, and where it ends. */
  lemma {:induction false} GroupAt(h: seq<Message>, s: nat) returns (e: nat)
    requires s < |h| && WholeGroups(h[s..])
    ensures s < e <= |h| && WholeGroups(h[e..]) && h[s].role != Tool
    ensures s + 1 < e ==> IsCall(h[s])
    ensures forall t | s < t < e :: h[t].role == Tool
  {
    var k := GroupSize(h[s]);
    e := s + k;
    var g := h[s..][..k];
    assert g[0] == h[s] && h[s..][k..] == h[e..];
    forall t | s < t < e ensures h[t].role == Tool {
      assert h[t] == g[t - s];
    }
  }

  /** Every tool message of a history stands inside an exchange. */
  lemma {:induction false} ReplyInsideExchange(h: seq<Message>, s: nat, i: nat)
    requires 1 <= s <= i < |h| && WholeGroups(h[s..]) && h[i].role == Tool
    ensures InsideExchange(h, i)
    decreases |h| - s
  {
    var e := GroupAt(h, s);
    if i < e {
      RunIsInside(h, s, i);
    } else {
      ReplyInsideExchange(h, e, i);
    }
  }

  function Replies(calls: seq<ToolCall>, toolResult: nat -> string, n: nat): seq<Message>
    requires n <= |calls|
  {
    seq(n, i requires 0 <= i < n => ToolReply(calls[i].id, toolResult(i)))
  }

  /** A round of tool calls: the assistant's message and one reply for each call. */
  function Exchange(content: string, calls: seq<ToolCall>, toolResult: nat -> string): seq<Message> {
    [Message(Assistant, content, "", calls)] + Replies(calls, toolResult, |calls|)
  }

  lemma {:induction false} ExchangeIsWhole(content: string, calls: seq<ToolCall>, toolResult: nat -> string)
    requires calls != []
    ensures WholeGroups(Exchange(content, calls, toolResult))
  {
    var g := Exchange(content, calls, toolResult);
    assert forall i | 1 <= i < |g| :: g[i] == ToolReply(calls[i - 1].id, toolResult(i - 1));
    GroupIsWhole(g);
  }

  /** A round of tool calls, field by field: the assistant's text and calls, then for each call
      its own output under its own id. */
  ghost predicate IsExchange(x: seq<Message>, content: string, calls: seq<ToolCall>, toolResult: nat -> string) {
    && |x| == 1 + |calls|
    && x[0] == Message(Assistant, content, "", calls)
    && forall i: nat | i < |calls| :: x[i + 1] == Message(Tool, toolResult(i), calls[i].id, [])
  }

  lemma {:induction false} ExchangeByFields(content: string, calls: seq<ToolCall>, toolResult: nat -> string)
    ensures IsExchange(Exchange(content, calls, toolResult), content, calls, toolResult)
  {}

  lemma {:induction false} ExchangeUnique(x: seq<Message>, content: string, calls: seq<ToolCall>, toolResult: nat -> string)
    requires IsExchange(x, content, calls, toolResult)
    ensures x == Exchange(content, calls, toolResult)
  {
    var e := Exchange(content, calls, toolResult);
    forall i: nat | i < |x| ensures x[i] == e[i] {
      if i > 0 {
        assert x[i - 1 + 1] == Message(Tool, toolResult(i - 1), calls[i - 1].id, []);
      }
    }
  }

  lemma {:induction false} LoneIsWhole(m: Message)
    requires m.role == User || (m.role == Assistant && m.toolCalls == [])
    ensures WholeGroups([m])
  {
    assert [m][..1] == [m];
    GroupIsWhole([m]);
  }

  /** Appending whole groups to a history gives a history. */
  lemma {:induction false} HistoryExtends(h: seq<Message>, more: seq<Message>)
    requires IsHistory(h) && WholeGroups(more)
    ensures IsHistory(h + more)
  {
    var tail := (h + more)[1..];
    assert tail == h[1..] + more;
    GroupsAppend(h[1..], more);
    assert WholeGroups(tail);
  }
}
