/** diagnose/aiclient/bedrock.go: conversion of a message list to a Bedrock Converse request. */
module Bedrock {
  import opened Basics
  import opened Messages

  datatype Speaker = UserSide | AssistantSide

  /** Tool arguments that are not JSON are wrapped as a JSON string. */
  datatype Input = Raw(text: string) | Wrapped(text: string)

  datatype Block =
    | Text(text: string)
    | ToolUse(useId: string, name: string, input: Input)
    | ToolResult(resultId: string, result: string)

  datatype BMessage = BMessage(role: Speaker, content: seq<Block>)

  datatype Request = Request(system: seq<Block>, messages: seq<BMessage>)

  function UseBlock(isJson: string -> bool, tc: ToolCall): Block {
    ToolUse(tc.id, tc.name, if isJson(tc.arguments) then Raw(tc.arguments) else Wrapped(tc.arguments))
  }

  function CallBlocks(isJson: string -> bool, calls: seq<ToolCall>): seq<Block> {
    if calls == [] then [] else [UseBlock(isJson, calls[0])] + CallBlocks(isJson, calls[1..])
  }

  function AssistantBlocks(isJson: string -> bool, m: Message): (bs: seq<Block>)
    ensures bs != []
  {
    var text := if m.content != "" then [Text(m.content)] else [];
    var bs := text + CallBlocks(isJson, m.toolCalls);
    if bs == [] then [Text("")] else bs
  }

  function Converted(isJson: string -> bool, m: Message): (b: BMessage)
    ensures b.content != []
  {
    match m.role
    case Assistant => BMessage(AssistantSide, AssistantBlocks(isJson, m))
    case Tool => BMessage(UserSide, [ToolResult(m.toolCallId, m.content)])
    case _ => BMessage(UserSide, [Text(m.content)])
  }

  function ConvertedAll(isJson: string -> bool, ms: seq<Message>): seq<BMessage> {
    if ms == [] then []
    else if ms[0].role == System then ConvertedAll(isJson, ms[1..])
    else [Converted(isJson, ms[0])] + ConvertedAll(isJson, ms[1..])
  }

  function SystemBlocks(ms: seq<Message>): seq<Block> {
    if ms == [] then []
    else if ms[0].role == System then [Text(ms[0].content)] + SystemBlocks(ms[1..])
    else SystemBlocks(ms[1..])
  }

  /** One message put in front of an already merged list. */
  function Prepend(b: BMessage, bs: seq<BMessage>): seq<BMessage> {
    if bs != [] && bs[0].role == b.role
    then [BMessage(b.role, b.content + bs[0].content)] + bs[1..]
    else [b] + bs
  }

  function Merged(bs: seq<BMessage>): seq<BMessage> {
    if bs == [] then [] else Prepend(bs[0], Merged(bs[1..]))
  }

  function Converse(isJson: string -> bool, ms: seq<Message>): Request {
    Request(SystemBlocks(ms), Merged(ConvertedAll(isJson, ms)))
  }

  // ----- what a merged list is -----

  ghost predicate Alternates(bs: seq<BMessage>) {
    forall i | 0 <= i < |bs| - 1 :: bs[i].role != bs[i + 1].role
  }

  ghost predicate NoneEmpty(bs: seq<BMessage>) {
    forall i | 0 <= i < |bs| :: bs[i].content != []
  }

  function Tag(role: Speaker, content: seq<Block>): seq<(Speaker, Block)> {
    if content == [] then [] else [(role, content[0])] + Tag(role, content[1..])
  }

  /** Every block with its speaker, in order. */
  function Tagged(bs: seq<BMessage>): seq<(Speaker, Block)> {
    if bs == [] then [] else Tag(bs[0].role, bs[0].content) + Tagged(bs[1..])
  }

  lemma {:induction false} TagAppend(role: Speaker, a: seq<Block>, b: seq<Block>)
    ensures Tag(role, a + b) == Tag(role, a) + Tag(role, b)
  {
    if a == [] {
      assert a + b == b;
    } else {
      assert (a + b)[1..] == a[1..] + b;
      TagAppend(role, a[1..], b);
    }
  }

  lemma {:induction false} TagShape(role: Speaker, content: seq<Block>)
    ensures |Tag(role, content)| == |content|
    ensures forall i | 0 <= i < |content| :: Tag(role, content)[i] == (role, content[i])
  {
    if content != [] {
      TagShape(role, content[1..]);
    }
  }

  /** Putting one message in front keeps the blocks ... */
  lemma {:induction false} PrependKeepsBlocks(b: BMessage, bs: seq<BMessage>)
    ensures Tagged(Prepend(b, bs)) == Tag(b.role, b.content) + Tagged(bs)
  {
    var r := Prepend(b, bs);
    if bs != [] && bs[0].role == b.role {
      TagAppend(b.role, b.content, bs[0].content);
      assert r[0] == BMessage(b.role, b.content + bs[0].content) && r[1..] == bs[1..];
    } else {
      assert r[0] == b && r[1..] == bs;
    }
  }

  /** ... and the alternation. */
  lemma {:induction false} PrependTail(b: BMessage, bs: seq<BMessage>)
    requires Alternates(bs)
    ensures var r := Prepend(b, bs);
            && r != [] && r[0].role == b.role && Alternates(r)
            && r[1..] == if bs != [] && bs[0].role == b.role then bs[1..] else bs
  {}

  /** Merging alternates the speakers and neither loses, adds nor reorders a block. */
  lemma {:induction false} MergedKeepsBlocks(bs: seq<BMessage>)
    ensures Alternates(Merged(bs))
    ensures Tagged(Merged(bs)) == Tagged(bs)
    ensures NoneEmpty(bs) ==> NoneEmpty(Merged(bs))
    ensures bs != [] ==> Merged(bs) != [] && Merged(bs)[0].role == bs[0].role
  {
    if bs != [] {
      MergedKeepsBlocks(bs[1..]);
      PrependKeepsBlocks(bs[0], Merged(bs[1..]));
      PrependTail(bs[0], Merged(bs[1..]));
    }
  }

  /** The number of leading blocks with the same speaker. */
  function RunLength(tags: seq<(Speaker, Block)>): nat {
    if |tags| <= 1 then |tags|
    else if tags[0].0 == tags[1].0 then 1 + RunLength(tags[1..])
    else 1
  }

  lemma {:induction false} RunOfTag(role: Speaker, content: seq<Block>, rest: seq<(Speaker, Block)>)
    requires content != []
    requires rest != [] ==> rest[0].0 != role
    ensures RunLength(Tag(role, content) + rest) == |content|
  {
    var tags, more := Tag(role, content) + rest, Tag(role, content[1..]) + rest;
    assert tags[0] == (role, content[0]) && tags[1..] == more;
    if |content| == 1 {
      assert more == rest;
    } else {
      assert more[0] == (role, content[1]);
      RunOfTag(role, content[1..], rest);
    }
  }

  lemma {:induction false} HeadOf(bs: seq<BMessage>)
    requires bs != [] && Alternates(bs) && NoneEmpty(bs)
    ensures var t := Tagged(bs);
            && t != [] && t[0].0 == bs[0].role
            && RunLength(t) == |bs[0].content| <= |t|
            && t[RunLength(t)..] == Tagged(bs[1..])
            && forall i | 0 <= i < |bs[0].content| :: t[i].1 == bs[0].content[i]
  {
    TagShape(bs[0].role, bs[0].content);
    if |bs| > 1 {
      TagShape(bs[1].role, bs[1].content);
    }
    RunOfTag(bs[0].role, bs[0].content, Tagged(bs[1..]));
  }

  /** ... and these two facts leave no choice: an alternating list is determined by its blocks. */
  lemma {:induction false} AlternatingUnique(a: seq<BMessage>, b: seq<BMessage>)
    requires Alternates(a) && Alternates(b) && NoneEmpty(a) && NoneEmpty(b)
    requires Tagged(a) == Tagged(b)
    ensures a == b
    decreases |a|
  {
    if a != [] { HeadOf(a); }
    if b != [] { HeadOf(b); }
    if a != [] && b != [] {
      assert a[0].content == b[0].content;
      AlternatingUnique(a[1..], b[1..]);
      assert a == [a[0]] + a[1..] && b == [b[0]] + b[1..];
    }
  }

  // ----- call/reply pairing -----

  function Uses(content: seq<Block>): seq<string> {
    if content == [] then []
    else (if content[0].ToolUse? then [content[0].useId] else []) + Uses(content[1..])
  }

  function Results(content: seq<Block>): seq<string> {
    if content == [] then []
    else (if content[0].ToolResult? then [content[0].resultId] else []) + Results(content[1..])
  }

  function ResultsOfFirst(bs: seq<BMessage>): seq<string> {
    if bs == [] then [] else Results(bs[0].content)
  }

  /** Each assistant message's tool uses are answered, in order, by the next message; user
      messages hold no tool uses and assistant messages no tool results. */
  ghost predicate Paired(bs: seq<BMessage>) {
    bs == [] ||
    (&& Paired(bs[1..])
     && if bs[0].role == AssistantSide
        then Results(bs[0].content) == [] && Uses(bs[0].content) == ResultsOfFirst(bs[1..])
        else Uses(bs[0].content) == [])
  }

  /** A request body in which nothing is left unanswered and no result comes first. */
  ghost predicate ProperExchange(bs: seq<BMessage>) {
    Alternates(bs) && Paired(bs) && ResultsOfFirst(bs) == []
  }

  lemma {:induction false} UsesAppend(a: seq<Block>, b: seq<Block>)
    ensures Uses(a + b) == Uses(a) + Uses(b)
    ensures Results(a + b) == Results(a) + Results(b)
  {
    if a == [] {
      assert a + b == b;
    } else {
      var all := a + b;
      assert all[0] == a[0] && all[1..] == a[1..] + b;
      UsesAppend(a[1..], b);
    }
  }

  function Ids(calls: seq<ToolCall>): seq<string> {
    seq(|calls|, i requires 0 <= i < |calls| => calls[i].id)
  }

  lemma {:induction false} UsesOfCalls(isJson: string -> bool, calls: seq<ToolCall>)
    ensures Uses(CallBlocks(isJson, calls)) == Ids(calls)
    ensures Results(CallBlocks(isJson, calls)) == []
  {
    if calls != [] {
      var blocks := CallBlocks(isJson, calls);
      UsesOfCalls(isJson, calls[1..]);
      assert blocks[0] == UseBlock(isJson, calls[0]) && blocks[1..] == CallBlocks(isJson, calls[1..]);
      assert Ids(calls) == [calls[0].id] + Ids(calls[1..]);
    }
  }

  lemma {:induction false} AssistantUses(isJson: string -> bool, m: Message)
    requires m.role == Assistant
    ensures Uses(Converted(isJson, m).content) == Ids(m.toolCalls)
    ensures Results(Converted(isJson, m).content) == []
  {
    var text, calls := [Text(m.content)], CallBlocks(isJson, m.toolCalls);
    UsesOfCalls(isJson, m.toolCalls);
    assert text[1..] == [];
    if m.content != "" {
      UsesAppend(text, calls);
      assert Converted(isJson, m).content == text + calls;
    } else if m.toolCalls == [] {
      assert Converted(isJson, m).content == [Text("")] == text;
    } else {
      assert calls[0] == UseBlock(isJson, m.toolCalls[0]);
      assert Converted(isJson, m).content == [] + calls == calls;
    }
  }

  /** Results waiting at the front of a list of user-side messages. */
  lemma {:induction false} PrependReply(b: BMessage, bs: seq<BMessage>)
    requires b.role == UserSide && Uses(b.content) == []
    requires Alternates(bs) && Paired(bs)
    requires bs != [] && bs[0].role == AssistantSide ==> ResultsOfFirst(bs) == []
    ensures var r := Prepend(b, bs);
            Alternates(r) && Paired(r) && r[0].role == UserSide
            && ResultsOfFirst(r) == Results(b.content) + ResultsOfFirst(bs)
  {
    if bs != [] {
      UsesAppend(b.content, bs[0].content);
    }
    PrependTail(b, bs);
  }

  lemma {:induction false} PrependAssistant(b: BMessage, bs: seq<BMessage>)
    requires b.role == AssistantSide && Results(b.content) == []
    requires Alternates(bs) && Paired(bs)
    requires if bs != [] && bs[0].role == AssistantSide then Uses(b.content) == []
             else Uses(b.content) == ResultsOfFirst(bs)
    ensures ProperExchange(Prepend(b, bs))
  {
    if bs != [] {
      UsesAppend(b.content, bs[0].content);
    }
    PrependTail(b, bs);
  }

  ghost predicate AllReplies(ms: seq<Message>) {
    forall i | 0 <= i < |ms| :: ms[i].role == Tool
  }

  function ReplyIds(ms: seq<Message>): seq<string> {
    seq(|ms|, i requires 0 <= i < |ms| => ms[i].toolCallId)
  }

  /** One reply put in front of messages already paired. */
  lemma {:induction false} PrependOneReply(isJson: string -> bool, m: Message, ms: seq<Message>)
    requires m.role == Tool
    requires Alternates(Merged(ConvertedAll(isJson, ms))) && Paired(Merged(ConvertedAll(isJson, ms)))
    ensures var bs, r := Merged(ConvertedAll(isJson, ms)), Merged(ConvertedAll(isJson, [m] + ms));
            && Alternates(r) && Paired(r) && r != [] && r[0].role == UserSide
            && ResultsOfFirst(r) == [m.toolCallId] + ResultsOfFirst(bs)
  {
    var all := [m] + ms;
    assert all[0] == m && all[1..] == ms;
    UnfoldMerged(isJson, all);
    PrependReply(Converted(isJson, m), Merged(ConvertedAll(isJson, ms)));
  }

  lemma {:induction false} PrependReplies(isJson: string -> bool, replies: seq<Message>, rest: seq<Message>)
    requires AllReplies(replies)
    requires ProperExchange(Merged(ConvertedAll(isJson, rest)))
    ensures var r := Merged(ConvertedAll(isJson, replies + rest));
            && Alternates(r) && Paired(r)
            && ResultsOfFirst(r) == ReplyIds(replies)
            && (replies != [] ==> r != [] && r[0].role == UserSide)
    decreases |replies|
  {
    if replies == [] {
      assert replies + rest == rest;
    } else {
      var m, more := replies[0], replies[1..];
      PrependReplies(isJson, more, rest);
      PrependOneReply(isJson, m, more + rest);
      assert replies + rest == [m] + (more + rest);
      assert ReplyIds(replies) == [m.toolCallId] + ReplyIds(more);
    }
  }

  lemma {:induction false} UnfoldMerged(isJson: string -> bool, ms: seq<Message>)
    requires ms != [] && ms[0].role != System
    ensures Merged(ConvertedAll(isJson, ms)) == Prepend(Converted(isJson, ms[0]), Merged(ConvertedAll(isJson, ms[1..])))
    ensures ms[0].role == Tool ==>
              Results(Converted(isJson, ms[0]).content) == [ms[0].toolCallId] && Uses(Converted(isJson, ms[0]).content) == []
    ensures ms[0].role == User ==>
              Results(Converted(isJson, ms[0]).content) == [] == Uses(Converted(isJson, ms[0]).content)
  {
    assert ConvertedAll(isJson, ms)[1..] == ConvertedAll(isJson, ms[1..]);
    if ms[0].role != Assistant {
      assert Converted(isJson, ms[0]).content[1..] == [];
    }
  }

  /** One group put in front of messages already paired. */
  lemma {:induction false} PrependGroup(isJson: string -> bool, m: Message, replies: seq<Message>, rest: seq<Message>)
    requires m.role == User || m.role == Assistant
    requires AllReplies(replies) && ReplyIds(replies) == if m.role == Assistant then Ids(m.toolCalls) else []
    requires ProperExchange(Merged(ConvertedAll(isJson, rest)))
    ensures ProperExchange(Merged(ConvertedAll(isJson, [m] + (replies + rest))))
  {
    PrependReplies(isJson, replies, rest);
    var all := [m] + (replies + rest);
    assert all[0] == m && all[1..] == replies + rest;
    UnfoldMerged(isJson, all);
    var b, tail := Converted(isJson, m), Merged(ConvertedAll(isJson, replies + rest));
    if m.role == User {
      assert |replies| == |ReplyIds(replies)|;
      assert replies + rest == rest;
      PrependReply(b, tail);
    } else {
      AssistantUses(isJson, m);
      assert tail != [] && tail[0].role == AssistantSide ==> replies == [];
      PrependAssistant(b, tail);
    }
  }

  /** The parts of a group that stands at the front of a list. */
  lemma {:induction false} GroupParts(ms: seq<Message>, k: nat)
    requires ms != [] && k == GroupSize(ms[0]) <= |ms| && IsGroup(ms[..k])
    ensures ms[0].role == User || ms[0].role == Assistant
    ensures AllReplies(ms[1..k])
    ensures ReplyIds(ms[1..k]) == if ms[0].role == Assistant then Ids(ms[0].toolCalls) else []
    ensures ms == [ms[0]] + (ms[1..k] + ms[k..])
  {
    var g, replies := ms[..k], ms[1..k];
    assert g[0] == ms[0];
    assert forall i | 0 <= i < |replies| :: replies[i] == g[i + 1];
  }

  /** Whole groups become an alternating request body with every call answered. */
  lemma {:induction false} GroupsArePaired(isJson: string -> bool, ms: seq<Message>)
    requires WholeGroups(ms)
    ensures ProperExchange(Merged(ConvertedAll(isJson, ms)))
    decreases |ms|
  {
    if ms != [] {
      var k := GroupSize(ms[0]);
      GroupParts(ms, k);
      GroupsArePaired(isJson, ms[k..]);
      PrependGroup(isJson, ms[0], ms[1..k], ms[k..]);
    }
  }

  /** The request built from a history: its system prompt, and every call answered. */
  lemma {:induction false} HistoryIsPaired(isJson: string -> bool, h: seq<Message>)
    requires IsHistory(h)
    ensures ProperExchange(Converse(isJson, h).messages)
    ensures Converse(isJson, h).system == [Text(h[0].content)]
  {
    GroupsArePaired(isJson, h[1..]);
    NoSystemInGroups(h[1..]);
  }

  lemma {:induction false} NoSystemInGroups(ms: seq<Message>)
    requires WholeGroups(ms)
    ensures SystemBlocks(ms) == []
    decreases |ms|
  {
    if ms != [] {
      var k := GroupSize(ms[0]);
      assert forall i | 0 <= i < k :: ms[..k][i] == ms[i];
      NoSystemInGroups(ms[k..]);
      SkipNonSystem(ms, k);
    }
  }

  lemma {:induction false} SkipNonSystem(ms: seq<Message>, k: nat)
    requires k <= |ms| && forall i | 0 <= i < k :: ms[i].role != System
    ensures SystemBlocks(ms) == SystemBlocks(ms[k..])
  {
    if k > 0 {
      SkipNonSystem(ms[1..], k - 1);
      assert ms[1..][k - 1..] == ms[k..];
    } else {
      assert ms[k..] == ms;
    }
  }

  // ----- what a request says, read back -----

  /** What a block says, apart from its form on the wire. */
  datatype Saying =
    | Says(text: string)
    | Calls(id: string, name: string, arguments: string, asJson: bool)
    | Answers(id: string, text: string)

  datatype Item = Item(speaker: Speaker, saying: Saying)

  function ReadBlock(b: Block): Saying {
    match b
    case Text(t) => Says(t)
    case ToolUse(id, name, Raw(a)) => Calls(id, name, a, true)
    case ToolUse(id, name, Wrapped(a)) => Calls(id, name, a, false)
    case ToolResult(id, r) => Answers(id, r)
  }

  function ReadContent(role: Speaker, content: seq<Block>): seq<Item> {
    seq(|content|, i requires 0 <= i < |content| => Item(role, ReadBlock(content[i])))
  }

  function ReadBack(bs: seq<BMessage>): seq<Item> {
    if bs == [] then [] else ReadContent(bs[0].role, bs[0].content) + ReadBack(bs[1..])
  }

  /** The calls of a message, by their fields. */
  function Asked(isJson: string -> bool, calls: seq<ToolCall>): seq<Item> {
    seq(|calls|, i requires 0 <= i < |calls| =>
      Item(AssistantSide, Calls(calls[i].id, calls[i].name, calls[i].arguments, isJson(calls[i].arguments))))
  }

  /** What a message says, by its fields. */
  function Said(isJson: string -> bool, m: Message): seq<Item> {
    if m.role == Assistant then
      (if m.content != "" || m.toolCalls == [] then [Item(AssistantSide, Says(m.content))] else []) +
      Asked(isJson, m.toolCalls)
    else if m.role == Tool then [Item(UserSide, Answers(m.toolCallId, m.content))]
    else [Item(UserSide, Says(m.content))]
  }

  function SaidByAll(isJson: string -> bool, ms: seq<Message>): seq<Item> {
    if ms == [] then []
    else (if ms[0].role == System then [] else Said(isJson, ms[0])) + SaidByAll(isJson, ms[1..])
  }

  /** The texts of the system messages, wherever they stand. */
  function SystemTexts(ms: seq<Message>): seq<string> {
    if ms == [] then []
    else (if ms[0].role == System then [ms[0].content] else []) + SystemTexts(ms[1..])
  }

  function TextsOf(bs: seq<Block>): seq<Saying> {
    seq(|bs|, i requires 0 <= i < |bs| => ReadBlock(bs[i]))
  }

  function AsSayings(texts: seq<string>): seq<Saying> {
    seq(|texts|, i requires 0 <= i < |texts| => Says(texts[i]))
  }

  function ReadTags(tags: seq<(Speaker, Block)>): seq<Item> {
    seq(|tags|, i requires 0 <= i < |tags| => Item(tags[i].0, ReadBlock(tags[i].1)))
  }

  lemma {:induction false} ReadTagsAppend(a: seq<(Speaker, Block)>, b: seq<(Speaker, Block)>)
    ensures ReadTags(a + b) == ReadTags(a) + ReadTags(b)
  {}

  /** Reading back sees only the speakers and their blocks, so merging does not change it. */
  lemma {:induction false} ReadBackIsTagged(bs: seq<BMessage>)
    ensures ReadBack(bs) == ReadTags(Tagged(bs))
  {
    if bs != [] {
      ReadBackIsTagged(bs[1..]);
      TagShape(bs[0].role, bs[0].content);
      ReadTagsAppend(Tag(bs[0].role, bs[0].content), Tagged(bs[1..]));
      assert ReadTags(Tag(bs[0].role, bs[0].content)) == ReadContent(bs[0].role, bs[0].content);
    }
  }

  lemma {:induction false} CallBlocksShape(isJson: string -> bool, calls: seq<ToolCall>)
    ensures |CallBlocks(isJson, calls)| == |calls|
    ensures forall i | 0 <= i < |calls| :: CallBlocks(isJson, calls)[i] == UseBlock(isJson, calls[i])
  {
    if calls != [] {
      CallBlocksShape(isJson, calls[1..]);
    }
  }

  lemma {:induction false} ConvertedSays(isJson: string -> bool, m: Message)
    ensures var b := Converted(isJson, m); ReadContent(b.role, b.content) == Said(isJson, m)
  {
    if m.role == Assistant {
      var calls, head := CallBlocks(isJson, m.toolCalls), [Text(m.content)];
      CallsAreAsked(isJson, m.toolCalls);
      if m.content != "" || m.toolCalls == [] {
        assert AssistantBlocks(isJson, m) == head + calls;
        ReadContentAppend(AssistantSide, head, calls);
      } else {
        assert AssistantBlocks(isJson, m) == [] + calls == calls;
        assert [] + Asked(isJson, m.toolCalls) == Asked(isJson, m.toolCalls);
      }
    }
  }

  lemma {:induction false} ReadContentAppend(role: Speaker, a: seq<Block>, b: seq<Block>)
    ensures ReadContent(role, a + b) == ReadContent(role, a) + ReadContent(role, b)
  {}

  lemma {:induction false} CallsAreAsked(isJson: string -> bool, calls: seq<ToolCall>)
    ensures |CallBlocks(isJson, calls)| == |calls|
    ensures ReadContent(AssistantSide, CallBlocks(isJson, calls)) == Asked(isJson, calls)
  {
    CallBlocksShape(isJson, calls);
  }

  lemma {:induction false} ConvertedAllSays(isJson: string -> bool, ms: seq<Message>)
    ensures ReadBack(ConvertedAll(isJson, ms)) == SaidByAll(isJson, ms)
  {
    if ms != [] {
      ConvertedAllSays(isJson, ms[1..]);
      ConvertedSays(isJson, ms[0]);
      var rest := ConvertedAll(isJson, ms[1..]);
      assert ([Converted(isJson, ms[0])] + rest)[1..] == rest;
    }
  }

  lemma {:induction false} SystemBlocksSay(ms: seq<Message>)
    ensures TextsOf(SystemBlocks(ms)) == AsSayings(SystemTexts(ms))
  {
    if ms != [] {
      SystemBlocksSay(ms[1..]);
      var more := SystemBlocks(ms[1..]);
      if ms[0].role == System {
        assert TextsOf([Text(ms[0].content)] + more) == [Says(ms[0].content)] + TextsOf(more);
        assert AsSayings([ms[0].content] + SystemTexts(ms[1..])) == [Says(ms[0].content)] + AsSayings(SystemTexts(ms[1..]));
      } else {
        assert SystemTexts(ms) == [] + SystemTexts(ms[1..]) == SystemTexts(ms[1..]);
      }
    }
  }

  /** For every list of messages the request says, in order and by the same speakers, exactly
      what the fields of the messages say: every text, every call with its id, name and
      arguments, every reply with its id and text, and apart from them the system texts. */
  lemma {:induction false} RequestSaysAll(isJson: string -> bool, ms: seq<Message>)
    ensures var req := Converse(isJson, ms);
            && ReadBack(req.messages) == SaidByAll(isJson, ms)
            && TextsOf(req.system) == AsSayings(SystemTexts(ms))
  {
    var all := ConvertedAll(isJson, ms);
    MergedKeepsBlocks(all);
    ReadBackIsTagged(all);
    ReadBackIsTagged(Merged(all));
    ConvertedAllSays(isJson, ms);
    SystemBlocksSay(ms);
  }

  // ----- the loops of the source -----

  method ConvertAssistantMessage(isJson: string -> bool, msg: Message) returns (b: BMessage)
    requires msg.role == Assistant
    ensures b == Converted(isJson, msg)
    ensures ReadContent(b.role, b.content) == Said(isJson, msg)
  {
    ConvertedSays(isJson, msg);
    var blocks := [];
    if msg.content != "" {
      blocks := blocks + [Text(msg.content)];
    }
    ghost var text := blocks;
    for i := 0 to |msg.toolCalls|
      invariant blocks + CallBlocks(isJson, msg.toolCalls[i..]) == text + CallBlocks(isJson, msg.toolCalls)
    {
      assert msg.toolCalls[i..][1..] == msg.toolCalls[i + 1..];
      var tc := msg.toolCalls[i];
      var input := Raw(tc.arguments);
      if !isJson(tc.arguments) {
        input := Wrapped(tc.arguments);
      }
      blocks := blocks + [ToolUse(tc.id, tc.name, input)];
    }
    assert blocks == text + CallBlocks(isJson, msg.toolCalls) by {
      assert msg.toolCalls[|msg.toolCalls|..] == [];
    }
    if |blocks| == 0 {
      blocks := blocks + [Text("")];
    }
    b := BMessage(AssistantSide, blocks);
  }

  method ConvertMessage(isJson: string -> bool, msg: Message) returns (b: BMessage)
    ensures b == Converted(isJson, msg)
    ensures ReadContent(b.role, b.content) == Said(isJson, msg)
  {
    ConvertedSays(isJson, msg);
    match msg.role
    case Assistant => b := ConvertAssistantMessage(isJson, msg);
    case Tool => b := BMessage(UserSide, [ToolResult(msg.toolCallId, msg.content)]);
    case _ => b := BMessage(UserSide, [Text(msg.content)]);
  }

  /** A message that starts a new turn behind an alternating list is where merging goes on. */
  lemma {:induction false} MergedBehind(init: seq<BMessage>, last: BMessage, rest: seq<BMessage>)
    requires Alternates(init + [last])
    ensures Merged(init + ([last] + rest)) == init + Prepend(last, Merged(rest))
    decreases |init|
  {
    if init == [] {
      UnfoldMerge(last, rest);
      assert init + ([last] + rest) == [last] + rest;
    } else {
      var head, more := init[0], init[1..];
      assert init == [head] + more;
      AlternatesParts(head, more, last);
      MergedBehind(more, last, rest);
      MergedInFront(head, more, last, rest);
    }
  }

  lemma {:induction false} AlternatesParts(head: BMessage, more: seq<BMessage>, last: BMessage)
    requires Alternates([head] + more + [last])
    ensures Alternates(more + [last]) && head.role != (more + [last])[0].role
  {
    var all := [head] + more + [last];
    assert all[1..] == more + [last] && all[0] == head;
  }

  lemma {:induction false} MergedInFront(head: BMessage, more: seq<BMessage>, last: BMessage, rest: seq<BMessage>)
    requires head.role != (more + [last])[0].role
    requires Merged(more + ([last] + rest)) == more + Prepend(last, Merged(rest))
    ensures Merged([head] + more + ([last] + rest)) == [head] + more + Prepend(last, Merged(rest))
  {
    var behind, next := [last] + rest, Prepend(last, Merged(rest));
    Assoc([head], more, behind);
    UnfoldMerge(head, more + behind);
    assert (more + next)[0].role == (more + [last])[0].role;
    Assoc([head], more, next);
  }

  lemma {:induction false} UnfoldMerge(b: BMessage, bs: seq<BMessage>)
    ensures Merged([b] + bs) == Prepend(b, Merged(bs))
  {
    assert ([b] + bs)[1..] == bs;
  }

  lemma {:induction false} PrependTwice(a: BMessage, b: BMessage, rest: seq<BMessage>)
    ensures a.role == b.role ==>
              Prepend(a, Prepend(b, rest)) == Prepend(BMessage(a.role, a.content + b.content), rest)
    ensures a.role != b.role ==> Prepend(a, Prepend(b, rest)) == [a] + Prepend(b, rest)
  {
    if rest != [] {
      assert a.content + (b.content + rest[0].content) == a.content + b.content + rest[0].content;
    }
  }

  lemma {:induction false} MergeSame(init: seq<BMessage>, last: BMessage, b: BMessage, rest: seq<BMessage>)
    requires Alternates(init + [last]) && b.role == last.role
    ensures var both := BMessage(last.role, last.content + b.content);
            && Alternates(init + [both])
            && Merged(init + ([both] + rest)) == Merged(init + ([last] + ([b] + rest)))
  {
    var both := BMessage(last.role, last.content + b.content);
    var x, y := init + [last], init + [both];
    assert forall i | 0 <= i < |x| :: x[i].role == y[i].role;
    MergedBehind(init, both, rest);
    MergedBehind(init, last, [b] + rest);
    assert ([b] + rest)[1..] == rest;
    PrependTwice(last, b, Merged(rest));
  }

  lemma {:induction false} MergeOther(init: seq<BMessage>, last: BMessage, b: BMessage)
    requires Alternates(init + [last]) && b.role != last.role
    ensures Alternates(init + [last] + [b])
  {}

  method MergeConsecutiveMessages(msgs: seq<BMessage>) returns (merged: seq<BMessage>)
    ensures merged == Merged(msgs)
  {
    if |msgs| == 0 {
      return msgs;
    }
    merged := [msgs[0]];
    assert merged + msgs[1..] == msgs;
    for i := 1 to |msgs|
      invariant merged != [] && Alternates(merged)
      invariant Merged(merged + msgs[i..]) == Merged(msgs)
    {
      ghost var rest := msgs[i + 1..];
      assert msgs[i..] == [msgs[i]] + rest;
      var n := |merged| - 1;
      var last := merged[n];
      assert merged == merged[..n] + [last];
      if msgs[i].role == last.role {
        MergeSame(merged[..n], last, msgs[i], rest);
        assert merged + msgs[i..] == merged[..n] + ([last] + ([msgs[i]] + rest));
        merged := merged[..n] + [BMessage(last.role, last.content + msgs[i].content)];
        assert merged + rest == merged[..n] + ([merged[n]] + rest);
      } else {
        MergeOther(merged[..n], last, msgs[i]);
        assert merged + msgs[i..] == merged + [msgs[i]] + rest;
        merged := merged + [msgs[i]];
      }
    }
    var n := |merged| - 1;
    assert merged[..n] + [merged[n]] == merged;
    MergedBehind(merged[..n], merged[n], []);
    assert merged + msgs[|msgs|..] == merged[..n] + ([merged[n]] + []);
  }

  /** The first loop: system texts apart, everything else converted. */
  method ConvertAll(isJson: string -> bool, messages: seq<Message>) returns (system: seq<Block>, converted: seq<BMessage>)
    ensures system == SystemBlocks(messages) && converted == ConvertedAll(isJson, messages)
  {
    system, converted := [], [];
    var i := 0;
    while i < |messages|
      invariant 0 <= i <= |messages|
      invariant system + SystemBlocks(messages[i..]) == SystemBlocks(messages)
      invariant converted + ConvertedAll(isJson, messages[i..]) == ConvertedAll(isJson, messages)
    {
      assert messages[i..][1..] == messages[i + 1..];
      if messages[i].role == System {
        system := system + [Text(messages[i].content)];
      } else {
        var b := ConvertMessage(isJson, messages[i]);
        converted := converted + [b];
      }
      i := i + 1;
    }
    assert messages[i..] == [];
  }

  method BuildConverseRequest(isJson: string -> bool, messages: seq<Message>) returns (req: Request)
    ensures req == Converse(isJson, messages)
    ensures ReadBack(req.messages) == SaidByAll(isJson, messages)
    ensures TextsOf(req.system) == AsSayings(SystemTexts(messages))
  {
    var system, converted := ConvertAll(isJson, messages);
    var merged := MergeConsecutiveMessages(converted);
    req := Request(system, merged);
    RequestSaysAll(isJson, messages);
  }
}
