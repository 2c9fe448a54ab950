/** diagnose/aiclient/compact.go: removal of the oldest groups to fit a token budget. */
module Compact {
  import opened Messages

  const PER_MESSAGE_OVERHEAD := 4

  /** One token for every two runes, rounded up (token.go). */
  function TextTokens(text: string): nat {
    (|text| + 1) / 2
  }

  function CallTokens(calls: seq<ToolCall>): nat {
    if calls == [] then 0
    else TextTokens(calls[0].name) + TextTokens(calls[0].arguments) + 10 + CallTokens(calls[1..])
  }

  function MessageTokens(m: Message): (t: nat)
    ensures t >= PER_MESSAGE_OVERHEAD
  {
    TextTokens(m.content) + PER_MESSAGE_OVERHEAD + CallTokens(m.toolCalls)
  }

  function Tokens(ms: seq<Message>): nat {
    if ms == [] then 0 else MessageTokens(ms[0]) + Tokens(ms[1..])
  }

  lemma {:induction false} TokensAppend(a: seq<Message>, b: seq<Message>)
    ensures Tokens(a + b) == Tokens(a) + Tokens(b)
  {
    if a == [] {
      assert a + b == b;
    } else {
      assert (a + b)[1..] == a[1..] + b;
      TokensAppend(a[1..], b);
    }
  }

  lemma {:induction false} TokensSplit(ms: seq<Message>, i: nat, j: nat)
    requires i <= j <= |ms|
    ensures Tokens(ms[i..]) == Tokens(ms[i..j]) + Tokens(ms[j..])
    ensures i < j ==> Tokens(ms[i..]) > Tokens(ms[j..])
  {
    assert ms[i..] == ms[i..j] + ms[j..];
    TokensAppend(ms[i..j], ms[j..]);
  }

  function Sum(costs: seq<nat>): nat {
    if costs == [] then 0 else costs[0] + Sum(costs[1..])
  }

  /** What each call of a message costs: half its name and half its arguments, rounded up, and 10. */
  function CallCosts(calls: seq<ToolCall>): seq<nat> {
    seq(|calls|, i requires 0 <= i < |calls| => (|calls[i].name| + 1) / 2 + (|calls[i].arguments| + 1) / 2 + 10)
  }

  lemma {:induction false} CallTokensAreCosts(calls: seq<ToolCall>)
    ensures CallTokens(calls) == Sum(CallCosts(calls))
  {
    if calls != [] {
      CallTokensAreCosts(calls[1..]);
      assert CallCosts(calls)[1..] == CallCosts(calls[1..]);
    }
  }

  function MessageCosts(ms: seq<Message>): seq<nat> {
    seq(|ms|, i requires 0 <= i < |ms| => (|ms[i].content| + 1) / 2 + 4 + Sum(CallCosts(ms[i].toolCalls)))
  }

  lemma {:induction false} TokensAreCosts(ms: seq<Message>)
    ensures Tokens(ms) == Sum(MessageCosts(ms))
  {
    if ms != [] {
      TokensAreCosts(ms[1..]);
      CallTokensAreCosts(ms[0].toolCalls);
      assert MessageCosts(ms)[1..] == MessageCosts(ms[1..]);
    }
  }

  lemma {:induction false} CallTokensStep(calls: seq<ToolCall>, i: nat)
    requires i < |calls|
    ensures CallTokens(calls[i..]) ==
            TextTokens(calls[i].name) + TextTokens(calls[i].arguments) + 10 + CallTokens(calls[i + 1..])
  {
    assert calls[i..][1..] == calls[i + 1..];
  }

  method EstimateMessageTokens(m: Message) returns (tokens: nat)
    ensures tokens == MessageTokens(m)
    ensures tokens == (|m.content| + 1) / 2 + 4 + Sum(CallCosts(m.toolCalls))
  {
    CallTokensAreCosts(m.toolCalls);
    tokens := TextTokens(m.content) + PER_MESSAGE_OVERHEAD;
    for i := 0 to |m.toolCalls|
      invariant tokens + CallTokens(m.toolCalls[i..]) == MessageTokens(m)
    {
      CallTokensStep(m.toolCalls, i);
      tokens := tokens + TextTokens(m.toolCalls[i].name);
      tokens := tokens + TextTokens(m.toolCalls[i].arguments);
      tokens := tokens + 10;
    }
  }

  method EstimateMessagesTokens(messages: seq<Message>) returns (total: nat)
    ensures total == Tokens(messages) == Sum(MessageCosts(messages))
  {
    TokensAreCosts(messages);
    total := 0;
    for i := 0 to |messages|
      invariant total + Tokens(messages[i..]) == Tokens(messages)
    {
      assert messages[i..][1..] == messages[i + 1..];
      var t := EstimateMessageTokens(messages[i]);
      total := total + t;
    }
  }

  /** A place behind the system prompt where no tool exchange is cut. */
  ghost predicate Boundary(ms: seq<Message>, i: nat) {
    1 <= i <= |ms| && (i == |ms| || !InsideExchange(ms, i))
  }

  ghost predicate Fits(ms: seq<Message>, budget: int, i: nat)
    requires 1 <= i <= |ms|
  {
    MessageTokens(ms[0]) + Tokens(ms[i..]) <= budget
  }

  /** The first boundary at or after i whose suffix fits, or the end of the list. */
  ghost function KeepFrom(ms: seq<Message>, budget: int, i: nat): (k: nat)
    requires 1 <= i <= |ms|
    ensures i <= k <= |ms|
    decreases |ms| - i
  {
    if i == |ms| || (Boundary(ms, i) && Fits(ms, budget, i)) then i else KeepFrom(ms, budget, i + 1)
  }

  ghost function Compacted(ms: seq<Message>, budget: int): seq<Message> {
    if |ms| <= 1 || budget <= 0 || Tokens(ms) <= budget then ms
    else [ms[0]] + ms[KeepFrom(ms, budget, 1)..]
  }

  lemma {:induction false} KeepFromLeast(ms: seq<Message>, budget: int, i: nat)
    requires 1 <= i <= |ms|
    ensures var k := KeepFrom(ms, budget, i);
            && Boundary(ms, k)
            && (k < |ms| ==> Fits(ms, budget, k))
            && forall j | i <= j < k :: Boundary(ms, j) ==> !Fits(ms, budget, j)
    decreases |ms| - i
  {
    if i < |ms| && !(Boundary(ms, i) && Fits(ms, budget, i)) {
      KeepFromLeast(ms, budget, i + 1);
    }
  }

  lemma {:induction false} KeepFromIs(ms: seq<Message>, budget: int, i: nat, k: nat)
    requires 1 <= i <= k <= |ms|
    requires k < |ms| ==> Boundary(ms, k) && Fits(ms, budget, k)
    requires forall j | i <= j < k :: Boundary(ms, j) ==> !Fits(ms, budget, j)
    ensures KeepFrom(ms, budget, i) == k
    decreases k - i
  {
    if i < k {
      KeepFromIs(ms, budget, i + 1, k);
    }
  }

  /** What compaction promises, for every message list over budget: the system prompt stays,
      the rest is the longest suffix of whole groups that fits, something is removed, and the
      estimate is within budget unless the system prompt alone is over it. */
  lemma {:induction false} CompactedIsLongestFit(ms: seq<Message>, budget: int)
    requires |ms| > 1 && 0 < budget < Tokens(ms)
    ensures exists k ::
              && 1 < k <= |ms| && Boundary(ms, k)
              && Compacted(ms, budget) == [ms[0]] + ms[k..]
              && (forall j | 1 <= j < k :: Boundary(ms, j) ==> !Fits(ms, budget, j))
              && (Fits(ms, budget, k) || (k == |ms| && MessageTokens(ms[0]) > budget))
    ensures Tokens(Compacted(ms, budget)) <= budget <==> MessageTokens(ms[0]) <= budget
  {
    var k := KeepFrom(ms, budget, 1);
    KeepFromLeast(ms, budget, 1);
    assert Boundary(ms, 1);
    assert Tokens(ms) == MessageTokens(ms[0]) + Tokens(ms[1..]);
    assert k != 1;
    assert ([ms[0]] + ms[k..])[1..] == ms[k..];
    assert ms[|ms|..] == [];
    assert Compacted(ms, budget) == [ms[0]] + ms[k..];
  }

  /** Compaction leaves a list alone exactly when there is nothing to remove, no budget, or no
      need. */
  lemma {:induction false} CompactedUnchangedIff(ms: seq<Message>, budget: int)
    ensures Compacted(ms, budget) == ms <==> |ms| <= 1 || budget <= 0 || Sum(MessageCosts(ms)) <= budget
  {
    TokensAreCosts(ms);
    if |ms| > 1 && 0 < budget < Tokens(ms) {
      CompactedIsLongestFit(ms, budget);
    }
  }

  /** In a history the places where nothing is cut are those in front of no tool reply. */
  lemma {:induction false} HistoryBoundary(ms: seq<Message>, i: nat)
    requires IsHistory(ms) && 1 <= i <= |ms|
    ensures Boundary(ms, i) <==> (i == |ms| || ms[i].role != Tool)
  {
    if i < |ms| && ms[i].role == Tool {
      ReplyInsideExchange(ms, 1, i);
    }
  }

  /** Compaction never separates a tool reply from its call. */
  lemma {:induction false} CompactedIsHistory(ms: seq<Message>, budget: int)
    requires IsHistory(ms)
    ensures IsHistory(Compacted(ms, budget))
  {
    if |ms| > 1 && 0 < budget < Tokens(ms) {
      var k := KeepFrom(ms, budget, 1);
      KeepFromLeast(ms, budget, 1);
      HistoryBoundary(ms, k);
      SuffixWholeIff(ms[1..], k - 1);
      assert ms[1..][k - 1..] == ms[k..];
      assert ([ms[0]] + ms[k..])[1..] == ms[k..];
    }
  }

  datatype MessageGroup = MessageGroup(startIdx: nat, tokens: nat)

  ghost function EndOf(groups: seq<MessageGroup>, n: nat, j: nat): nat
    requires j < |groups|
  {
    if j + 1 < |groups| then groups[j + 1].startIdx else n
  }

  /** The groups cut messages[1..n] into consecutive pieces, exactly at its boundaries. */
  ghost predicate Partition(ms: seq<Message>, groups: seq<MessageGroup>, n: nat) {
    && n <= |ms|
    && (groups == [] ==> n <= 1)
    && (groups != [] ==> groups[0].startIdx == 1)
    && forall j | 0 <= j < |groups| ::
         var s, e := groups[j].startIdx, EndOf(groups, n, j);
         && 1 <= s < e <= n
         && Boundary(ms, s)
         && groups[j].tokens == Tokens(ms[s..e])
         && forall i | s < i < e :: !Boundary(ms, i)
  }

  lemma {:induction false} TokensExtend(ms: seq<Message>, s: nat, e: nat)
    requires s <= e < |ms|
    ensures Tokens(ms[s..e + 1]) == Tokens(ms[s..e]) + MessageTokens(ms[e])
  {
    assert ms[s..e + 1] == ms[s..e] + [ms[e]];
    TokensAppend(ms[s..e], [ms[e]]);
    assert [ms[e]][1..] == [];
  }

  lemma {:induction false} TokensOfOne(ms: seq<Message>, s: nat)
    requires s < |ms|
    ensures Tokens(ms[s..s + 1]) == MessageTokens(ms[s])
  {
    assert ms[s..s + 1] == [ms[s]] && [ms[s]][1..] == [];
  }

  lemma {:induction false} PartitionExtends(ms: seq<Message>, groups: seq<MessageGroup>, s: nat, e: nat, t: nat)
    requires Partition(ms, groups, s)
    requires 1 <= s < e <= |ms| && (groups == [] ==> s == 1)
    requires Boundary(ms, s) && t == Tokens(ms[s..e])
    requires forall i | s < i < e :: !Boundary(ms, i)
    ensures Partition(ms, groups + [MessageGroup(s, t)], e)
  {
    var more := groups + [MessageGroup(s, t)];
    forall j | 0 <= j < |groups| ensures EndOf(more, e, j) == EndOf(groups, s, j) {}
  }

  /** The tool messages behind a call are no boundaries. */
  lemma {:induction false} RepliesAreInside(ms: seq<Message>, s: nat, e: nat)
    requires 1 <= s < e <= |ms| && IsCall(ms[s]) && forall x | s < x < e :: ms[x].role == Tool
    ensures forall x | s < x < e :: !Boundary(ms, x)
  {
    forall x | s < x < e ensures !Boundary(ms, x) {
      RunIsInside(ms, s, x);
    }
  }

  /** ... and any other message is one, as is whatever stands behind a boundary without calls. */
  lemma {:induction false} GroupEnds(ms: seq<Message>, s: nat, i: nat)
    requires 1 <= s < i <= |ms| && Boundary(ms, s)
    requires i == |ms| || ms[i].role != Tool || (i == s + 1 && !IsCall(ms[s]))
    ensures Boundary(ms, i)
  {}

  /** One turn of the parsing loop: the group that starts at start, and where it ends. */
  method ParseGroup(messages: seq<Message>, start: nat) returns (g: MessageGroup, i: nat)
    requires 1 <= start < |messages| && Boundary(messages, start)
    ensures start < i <= |messages| && Boundary(messages, i)
    ensures forall x | start < x < i :: !Boundary(messages, x)
    ensures g == MessageGroup(start, Tokens(messages[start..i]))
  {
    var t := EstimateMessageTokens(messages[start]);
    TokensOfOne(messages, start);
    i := start + 1;
    if IsCall(messages[start]) {
      i, t := TakeReplies(messages, start, t);
    }
    GroupEnds(messages, start, i);
    g := MessageGroup(start, t);
  }

  /** The inner loop: the tool messages behind a call. */
  method TakeReplies(messages: seq<Message>, start: nat, t0: nat) returns (i: nat, t: nat)
    requires 1 <= start < |messages| && IsCall(messages[start])
    requires t0 == Tokens(messages[start..start + 1])
    ensures start < i <= |messages| && (i < |messages| ==> messages[i].role != Tool)
    ensures t == Tokens(messages[start..i])
    ensures forall x | start < x < i :: !Boundary(messages, x)
  {
    i, t := start + 1, t0;
    while i < |messages| && messages[i].role == Tool
      invariant start < i <= |messages|
      invariant t == Tokens(messages[start..i])
      invariant forall x | start < x < i :: messages[x].role == Tool
    {
      TokensExtend(messages, start, i);
      var u := EstimateMessageTokens(messages[i]);
      t := t + u;
      i := i + 1;
    }
    RepliesAreInside(messages, start, i);
  }

  method ParseMessageGroups(messages: seq<Message>) returns (groups: seq<MessageGroup>)
    ensures Partition(messages, groups, |messages|)
  {
    groups := [];
    var i := 1;
    while i < |messages|
      invariant i >= 1 && (groups == [] ==> i == 1)
      invariant messages == [] ==> groups == []
      invariant messages != [] ==> Boundary(messages, i) && Partition(messages, groups, i)
    {
      var g, next := ParseGroup(messages, i);
      PartitionExtends(messages, groups, i, next, g.tokens);
      groups := groups + [g];
      i := next;
    }
  }

  method CompactMessages(messages: seq<Message>, tokenBudget: int) returns (result: seq<Message>)
    ensures result == Compacted(messages, tokenBudget)
  {
    if |messages| <= 1 || tokenBudget <= 0 {
      return messages;
    }
    var total := EstimateMessagesTokens(messages);
    if total <= tokenBudget {
      return messages;
    }
    var groups := ParseMessageGroups(messages);
    var systemTokens := EstimateMessageTokens(messages[0]);
    var budget := tokenBudget - systemTokens;
    if budget <= 0 {
      forall j | 1 <= j < |messages| ensures !Fits(messages, tokenBudget, j) {
        TokensSplit(messages, j, |messages|);
      }
      KeepFromIs(messages, tokenBudget, 1, |messages|);
      return messages[..1];
    }
    var keepFrom := |groups|;
    var sum := 0;
    var j := |groups| - 1;
    ghost var start := |messages|;
    while j >= 0
      invariant -1 <= j < |groups|
      invariant keepFrom == j + 1
      invariant start == if keepFrom < |groups| then groups[keepFrom].startIdx else |messages|
      invariant sum == Tokens(messages[start..]) <= budget
    {
      TokensSplit(messages, groups[j].startIdx, start);
      if sum + groups[j].tokens > budget {
        break;
      }
      sum := sum + groups[j].tokens;
      keepFrom := j;
      start := groups[j].startIdx;
      j := j - 1;
    }
    if keepFrom == 0 {
      assert false; // the groups cover messages[1..], so their sum would be within budget
      return messages;
    }
    var previous := groups[keepFrom - 1].startIdx;
    forall i | 1 <= i < start && Boundary(messages, i) ensures !Fits(messages, tokenBudget, i) {
      assert i <= previous;
      TokensSplit(messages, i, previous);
    }
    KeepFromIs(messages, tokenBudget, 1, start);
    if keepFrom >= |groups| {
      return messages[..1];
    }
    result := [messages[0]];
    result := result + messages[groups[keepFrom].startIdx..];
  }
}
