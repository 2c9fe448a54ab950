/** diagnose/streaming.go: a multi-turn chat that appends to, trims and rolls back its history. */
module ChatStream {
  import opened Basics
  import opened Messages
  import Compact
  import Bedrock

  const CHAT_MAX_ROUNDS := 20
  const MAX_HISTORY_MESSAGES := 40
  const INCOMPLETE := "[incomplete] max tool-calling rounds reached"

  /** What the outside world does in one round: the context is already done, the AI call
      fails, it returns no choice, or it replies.  toolResult gives the output of each call. */
  datatype Round =
    | Interrupted
    | ChatFailed
    | NoChoices
    | Reply(content: string, toolCalls: seq<ToolCall>, toolResult: nat -> string)

  // ----- slices -----

  /** A Go slice: the messages it shows and what its array holds behind them. */
  datatype Slice = Slice(live: seq<Message>, spare: seq<Message>)
  {
    function Array(): seq<Message> {
      live + spare
    }
  }

  const ZERO := Plain(Other(""), "")

  /** append writes over the spare room; when there is none the runtime moves to an array with
      grow(length) zero messages behind the new one. */
  function Appended(s: Slice, m: Message, grow: nat -> nat): Slice {
    Slice(s.live + [m], SpareAfter(s, 1, grow))
  }

  /** The spare room behind n appends. */
  function SpareAfter(s: Slice, n: nat, grow: nat -> nat): seq<Message> {
    if n == 0 then s.spare
    else
      var before := SpareAfter(s, n - 1, grow);
      if before != [] then before[1..] else Zeros(grow(|s.live| + n - 1))
  }

  function Zeros(n: nat): seq<Message> {
    seq(n, i => ZERO)
  }

  function AppendedAll(s: Slice, ms: seq<Message>, grow: nat -> nat): Slice {
    Slice(s.live + ms, SpareAfter(s, |ms|, grow))
  }

  /** append in terms of the array: it writes behind the visible messages, or moves to a longer
      array. */
  lemma {:induction false} AppendWritesArray(s: Slice, m: Message, grow: nat -> nat)
    ensures Appended(s, m, grow).live == s.live + [m]
    ensures s.spare != [] ==> Appended(s, m, grow).Array() == s.Array()[|s.live| := m]
    ensures s.spare == [] ==> |Appended(s, m, grow).spare| == grow(|s.live|)
                              && forall x | x in Appended(s, m, grow).spare :: x == Message(Other(""), "", "", [])
  {
    assert SpareAfter(s, 0, grow) == s.spare;
  }

  lemma {:induction false} AppendedBehind(s: Slice, ms: seq<Message>, m: Message, grow: nat -> nat)
    ensures Appended(AppendedAll(s, ms, grow), m, grow) == AppendedAll(s, ms + [m], grow)
  {
    assert SpareAfter(AppendedAll(s, ms, grow), 0, grow) == SpareAfter(s, |ms|, grow);
    assert s.live + ms + [m] == s.live + (ms + [m]);
  }

  /** s[:n]: Go looks into the spare room, and panics beyond it. */
  function Resliced(s: Slice, n: int): Option<Slice> {
    if 0 <= n <= |s.Array()| then Some(Slice(s.Array()[..n], s.Array()[n..])) else None
  }

  // ----- trimHistory -----

  /** May the trimmed history start here? */
  predicate Stops(m: Message) {
    m.role != Tool && !IsCall(m)
  }

  function SafeCut(ms: seq<Message>, i: nat): (cut: nat)
    requires i <= |ms|
    ensures i <= cut <= |ms|
    ensures cut < |ms| ==> Stops(ms[cut])
    ensures forall j | i <= j < cut :: !Stops(ms[j])
    decreases |ms| - i
  {
    if i == |ms| || Stops(ms[i]) then i else SafeCut(ms, i + 1)
  }

  /** The branch that cuts without regard for tool exchanges. */
  predicate ForcedCut(ms: seq<Message>) {
    |ms| > 2 * MAX_HISTORY_MESSAGES && SafeCut(ms, |ms| - MAX_HISTORY_MESSAGES) == |ms|
  }

  function Trimmed(ms: seq<Message>): seq<Message> {
    if |ms| <= MAX_HISTORY_MESSAGES + 1 then ms
    else
      var cut := SafeCut(ms, |ms| - MAX_HISTORY_MESSAGES);
      if cut < |ms| then [ms[0]] + ms[cut..]
      else if ForcedCut(ms) then [ms[0]] + ms[|ms| - MAX_HISTORY_MESSAGES..]
      else ms
  }

  /** A trimmed history is copied to an array of its own size. */
  function TrimmedSlice(s: Slice): (r: Slice)
    ensures r.live == Trimmed(s.live)
  {
    Slice(Trimmed(s.live), if Trimmed(s.live) == s.live then s.spare else [])
  }

  /** What trimming keeps: everything up to 41 messages; otherwise the prompt and what follows
      the first of the last 40 messages that is no tool reply and no call; and if there is none,
      everything up to 80 messages and the prompt with the last 40 beyond. */
  ghost predicate KeepsNewest(ms: seq<Message>, r: seq<Message>) {
    if |ms| <= 41 then r == ms
    else
      || (exists cut: nat ::
            && |ms| - 40 <= cut < |ms| && r == [ms[0]] + ms[cut..]
            && ms[cut].role != Tool && !(ms[cut].role == Assistant && ms[cut].toolCalls != [])
            && forall j | |ms| - 40 <= j < cut :: ms[j].role == Tool || (ms[j].role == Assistant && ms[j].toolCalls != []))
      || (&& r == (if |ms| > 80 then [ms[0]] + ms[|ms| - 40..] else ms)
          && forall j | |ms| - 40 <= j < |ms| :: ms[j].role == Tool || (ms[j].role == Assistant && ms[j].toolCalls != []))
  }

  lemma {:induction false} TrimmedKeepsNewest(ms: seq<Message>)
    ensures KeepsNewest(ms, Trimmed(ms))
  {
    if |ms| > 41 {
      var cut := SafeCut(ms, |ms| - 40);
      assert forall j | |ms| - 40 <= j < cut :: !Stops(ms[j]);
    }
  }

  method TrimHistory(messages: seq<Message>) returns (result: seq<Message>)
    ensures result == Trimmed(messages)
    ensures KeepsNewest(messages, result)
  {
    TrimmedKeepsNewest(messages);
    if |messages| <= MAX_HISTORY_MESSAGES + 1 {
      return messages;
    }
    var cut := |messages| - MAX_HISTORY_MESSAGES;
    var safeCut := cut;
    while safeCut < |messages|
      invariant cut <= safeCut <= |messages|
      invariant SafeCut(messages, cut) == SafeCut(messages, safeCut)
    {
      var msg := messages[safeCut];
      if msg.role == Tool {
        safeCut := safeCut + 1;
        continue;
      }
      if msg.role == Assistant && |msg.toolCalls| > 0 {
        safeCut := safeCut + 1;
        continue;
      }
      break;
    }
    if safeCut < |messages| {
      cut := safeCut;
    } else if |messages| > MAX_HISTORY_MESSAGES * 2 {
      cut := |messages| - MAX_HISTORY_MESSAGES;
    } else {
      return messages;
    }
    result := [messages[0]];
    result := result + messages[cut..];
  }

  lemma {:induction false} SuffixOfHistory(ms: seq<Message>, cut: nat)
    requires IsHistory(ms) && 1 <= cut <= |ms|
    ensures IsHistory([ms[0]] + ms[cut..]) <==> (cut == |ms| || ms[cut].role != Tool)
    ensures cut == |ms| || ms[cut].role != Tool ==> IsHistory(ms[..cut])
  {
    SuffixWholeIff(ms[1..], cut - 1);
    var r := [ms[0]] + ms[cut..];
    assert r[1..] == ms[cut..] == ms[1..][cut - 1..];
    assert ms[..cut][1..] == ms[1..][..cut - 1];
  }

  /** The comment on trimHistory says that it never splits a tool-call sequence.  It does,
      exactly when the forced cut lands on a tool reply. */
  lemma {:induction false} TrimmedWholeIff(ms: seq<Message>)
    requires IsHistory(ms)
    ensures IsHistory(Trimmed(ms)) <==> !(ForcedCut(ms) && ms[|ms| - MAX_HISTORY_MESSAGES].role == Tool)
  {
    if |ms| > MAX_HISTORY_MESSAGES + 1 {
      var cut := SafeCut(ms, |ms| - MAX_HISTORY_MESSAGES);
      SuffixOfHistory(ms, cut);
      SuffixOfHistory(ms, |ms| - MAX_HISTORY_MESSAGES);
    }
  }

  /** One call with 80 replies is a history that trimming splits. */
  lemma {:induction false} TrimmedSplitsLongExchange()
    ensures exists ms :: IsHistory(ms) && !IsHistory(Trimmed(ms))
  {
    var calls := seq(80, i => ToolCall("c", "t", "{}"));
    var exchange := Exchange("", calls, (i: nat) => "");
    ExchangeIsWhole("", calls, (i: nat) => "");
    var h := [Plain(System, "")];
    assert h[1..] == [];
    HistoryExtends(h, exchange);
    var ms := h + exchange;
    assert forall i | 42 <= i < 82 :: ms[i] == exchange[i - 1];
    assert forall i | 42 <= i < 82 :: !Stops(ms[i]);
    assert SafeCut(ms, 42) == 82;
    TrimmedWholeIff(ms);
  }

  /** What trimming does to a history with the new user message behind it, as HandleMessage
      calls it: no forced cut, no split exchange, at most 41 messages, the newest kept. */
  lemma {:induction false} TrimmedTurn(h: seq<Message>, input: string)
    requires IsHistory(h)
    ensures var ms := h + [Plain(User, input)];
            var t := Trimmed(ms);
            && !ForcedCut(ms)
            && IsHistory(t) && IsHistory(t[..|t| - 1])
            && 2 <= |t| <= MAX_HISTORY_MESSAGES + 1
            && t[|t| - 1] == Plain(User, input)
            && (|h| <= MAX_HISTORY_MESSAGES ==> t[..|t| - 1] == h)
            && exists cut :: 1 <= cut < |ms| && t == [ms[0]] + ms[cut..]
  {
    var u := Plain(User, input);
    var ms := h + [u];
    assert [u][..1] == [u];
    GroupIsWhole([u]);
    HistoryExtends(h, [u]);
    assert Stops(ms[|ms| - 1]);
    var t := Trimmed(ms);
    if |ms| <= MAX_HISTORY_MESSAGES + 1 {
      assert t == [ms[0]] + ms[1..];
      assert t[..|t| - 1] == h;
    } else {
      var cut := SafeCut(ms, |ms| - MAX_HISTORY_MESSAGES);
      assert t == [ms[0]] + ms[cut..];
      SuffixOfHistory(ms, cut);
    }
    SuffixOfHistory(t, |t| - 1);
  }

  // ----- conversationLoop -----

  datatype LoopResult = LoopResult(
    slice: Slice, failed: bool, reply: string,
    sent: seq<seq<Message>>, compactions: nat)
  {
    function Behind(earlier: seq<seq<Message>>, compactions: nat): LoopResult {
      this.(sent := earlier + sent, compactions := compactions)
    }
  }

  ghost function Prepared(ms: seq<Message>, limit: int): seq<Message> {
    if limit > 0 then Compact.Compacted(ms, limit) else ms
  }

  /** Compaction to the prompt alone is a shorter view of the same array; otherwise what is
      kept is copied to an array of its own size. */
  ghost function PreparedSlice(s: Slice, limit: int): Slice {
    var c := Prepared(s.live, limit);
    Slice(c, if c == s.live then s.spare else if |c| == 1 then s.live[1..] + s.spare else [])
  }

  /** What a round that reaches the AI adds to the history. */
  function Added(r: Round): seq<Message> {
    match r
    case Reply(content, calls, toolResult) =>
      if calls == [] then [Plain(Assistant, content)] else Exchange(content, calls, toolResult)
    case _ => []
  }

  predicate CallsTools(r: Round) {
    r.Reply? && r.toolCalls != []
  }

  /** A round ends the loop or goes on to the next one. */
  datatype Step = Ends(result: LoopResult) | Goes(next: Slice, sent: seq<Message>, compacted: bool)

  ghost function RunRound(s: Slice, limit: int, grow: nat -> nat, r: Round): Step {
    if r.Interrupted? then Ends(LoopResult(s, true, "", [], 0))
    else
      var p := PreparedSlice(s, limit);
      var compacted := p.live != s.live;
      var next := AppendedAll(p, Added(r), grow);
      if CallsTools(r) then Goes(next, p.live, compacted)
      else Ends(LoopResult(next, !r.Reply?, if r.Reply? then r.content else "", [p.live], if compacted then 1 else 0))
  }

  type RoundFunction = (nat, Slice) -> Step

  ghost function Rounds(limit: int, grow: nat -> nat, env: nat -> Round): RoundFunction {
    (n: nat, s: Slice) => RunRound(s, limit, grow, env(n))
  }

  /** The loop from the given round on; sent lists the histories handed to the AI. */
  ghost function Loop(step: RoundFunction, s: Slice, round: nat): LoopResult
    decreases CHAT_MAX_ROUNDS - round
  {
    if round >= CHAT_MAX_ROUNDS then LoopResult(s, false, INCOMPLETE, [], 0)
    else match step(round, s)
      case Ends(r) => r
      case Goes(next, c, compacted) =>
        var rest := Loop(step, next, round + 1);
        LoopResult(rest.slice, rest.failed, rest.reply, [c] + rest.sent,
                   rest.compactions + if compacted then 1 else 0)
  }

  ghost function ChatLoop(s: Slice, limit: int, grow: nat -> nat, env: nat -> Round): LoopResult {
    Loop(Rounds(limit, grow, env), s, 0)
  }

  /** One round of the loop, behind the histories already sent. */
  lemma {:induction false} UnfoldLoop(step: RoundFunction, s: Slice, round: nat, sent: seq<seq<Message>>, n: nat)
    requires round < CHAT_MAX_ROUNDS
    ensures Loop(step, s, round).Behind(sent, n) ==
            match step(round, s)
            case Ends(r) => r.Behind(sent, n)
            case Goes(next, c, _) => Loop(step, next, round + 1).Behind(sent + [c], n)
  {
    match step(round, s)
    case Ends(_) =>
    case Goes(next, c, _) =>
      var rest := Loop(step, next, round + 1);
      assert sent + ([c] + rest.sent) == sent + [c] + rest.sent;
  }

  lemma {:induction false} PreparedIsHistory(ms: seq<Message>, limit: int)
    requires IsHistory(ms)
    ensures IsHistory(Prepared(ms, limit))
  {
    Compact.CompactedIsHistory(ms, limit);
  }

  lemma {:induction false} AddedIsWhole(r: Round)
    ensures WholeGroups(Added(r))
  {
    if CallsTools(r) {
      ExchangeIsWhole(r.content, r.toolCalls, r.toolResult);
    } else if r.Reply? {
      LoneIsWhole(Plain(Assistant, r.content));
    }
  }

  lemma {:induction false} NextIsHistory(ms: seq<Message>, limit: int, r: Round)
    requires IsHistory(ms)
    ensures IsHistory(Prepared(ms, limit)) && IsHistory(Prepared(ms, limit) + Added(r))
  {
    PreparedIsHistory(ms, limit);
    AddedIsWhole(r);
    HistoryExtends(Prepared(ms, limit), Added(r));
  }

  /** From a history a round sends only a history and leaves one. */
  ghost predicate KeepsHistory(step: Step) {
    match step
    case Ends(r) => IsHistory(r.slice.live) && forall h | h in r.sent :: IsHistory(h)
    case Goes(next, c, _) => IsHistory(next.live) && IsHistory(c)
  }

  lemma {:induction false} RoundKeepsHistory(s: Slice, limit: int, grow: nat -> nat, r: Round)
    requires IsHistory(s.live)
    ensures KeepsHistory(RunRound(s, limit, grow, r))
  {
    NextIsHistory(s.live, limit, r);
  }

  lemma {:induction false} LoopOfHistories(step: RoundFunction, s: Slice, round: nat)
    requires IsHistory(s.live)
    requires forall n, x: Slice :: IsHistory(x.live) ==> KeepsHistory(step(n, x))
    ensures var r := Loop(step, s, round);
            IsHistory(r.slice.live) && forall h | h in r.sent :: IsHistory(h)
    decreases CHAT_MAX_ROUNDS - round
  {
    if round < CHAT_MAX_ROUNDS {
      assert KeepsHistory(step(round, s));
      match step(round, s)
      case Ends(_) =>
      case Goes(next, _, _) =>
        LoopOfHistories(step, next, round + 1);
        LoopGoes(step, s, round);
    }
  }

  /** From a history the loop sends only histories and ends with one. */
  lemma {:induction false} LoopKeepsHistory(s: Slice, limit: int, grow: nat -> nat, env: nat -> Round)
    requires IsHistory(s.live)
    ensures var r := ChatLoop(s, limit, grow, env);
            IsHistory(r.slice.live) && forall h | h in r.sent :: IsHistory(h)
  {
    forall n: nat, x: Slice | IsHistory(x.live) ensures KeepsHistory(Rounds(limit, grow, env)(n, x)) {
      RoundKeepsHistory(x, limit, grow, env(n));
    }
    LoopOfHistories(Rounds(limit, grow, env), s, 0);
  }

  /** What is handed to the AI is within the limit, or the prompt p alone. */
  ghost predicate WithinOrPrompt(p: Message, limit: int, ms: seq<Message>) {
    limit > 0 ==> Compact.Tokens(ms) <= limit || ms == [p]
  }

  predicate StartsAt(p: Message, ms: seq<Message>) {
    ms != [] && ms[0] == p
  }

  ghost predicate KeepsPrompt(p: Message, limit: int, step: Step) {
    match step
    case Ends(r) => StartsAt(p, r.slice.live) && forall h | h in r.sent :: WithinOrPrompt(p, limit, h)
    case Goes(next, c, _) => StartsAt(p, next.live) && WithinOrPrompt(p, limit, c)
  }

  lemma {:induction false} PreparedWithin(p: Message, ms: seq<Message>, limit: int)
    requires StartsAt(p, ms)
    ensures StartsAt(p, Prepared(ms, limit)) && WithinOrPrompt(p, limit, Prepared(ms, limit))
  {
    if limit > 0 && Compact.Tokens(ms) > limit && |ms| > 1 {
      Compact.CompactedIsLongestFit(ms, limit);
    }
  }

  lemma {:induction false} RoundKeepsPrompt(p: Message, s: Slice, limit: int, grow: nat -> nat, r: Round)
    requires StartsAt(p, s.live)
    ensures KeepsPrompt(p, limit, RunRound(s, limit, grow, r))
  {
    PreparedWithin(p, s.live, limit);
  }

  lemma {:induction false} LoopOfPrompts(p: Message, limit: int, step: RoundFunction, s: Slice, round: nat)
    requires StartsAt(p, s.live)
    requires forall n, x: Slice :: StartsAt(p, x.live) ==> KeepsPrompt(p, limit, step(n, x))
    ensures var r := Loop(step, s, round);
            StartsAt(p, r.slice.live) && forall h | h in r.sent :: WithinOrPrompt(p, limit, h)
    decreases CHAT_MAX_ROUNDS - round
  {
    if round < CHAT_MAX_ROUNDS {
      assert KeepsPrompt(p, limit, step(round, s));
      match step(round, s)
      case Ends(_) =>
      case Goes(next, _, _) => LoopOfPrompts(p, limit, step, next, round + 1);
    }
  }

  /** The loop keeps its first message, and what it sends is within the limit or that message alone. */
  lemma {:induction false} LoopKeepsPrompt(s: Slice, limit: int, grow: nat -> nat, env: nat -> Round)
    requires s.live != []
    ensures var r := ChatLoop(s, limit, grow, env);
            StartsAt(s.live[0], r.slice.live) && forall h | h in r.sent :: WithinOrPrompt(s.live[0], limit, h)
  {
    forall n: nat, x: Slice | StartsAt(s.live[0], x.live)
      ensures KeepsPrompt(s.live[0], limit, Rounds(limit, grow, env)(n, x))
    {
      RoundKeepsPrompt(s.live[0], x, limit, grow, env(n));
    }
    LoopOfPrompts(s.live[0], limit, Rounds(limit, grow, env), s, 0);
  }

  /** A round that compacts nothing only appends. */
  ghost predicate AppendsTo(s: Slice, step: Step) {
    match step
    case Ends(r) => r.compactions == 0 ==> s.live <= r.slice.live
    case Goes(next, _, compacted) => !compacted ==> s.live <= next.live
  }

  lemma {:induction false} LoopOfAppends(step: RoundFunction, s: Slice, round: nat)
    requires forall n, x: Slice :: AppendsTo(x, step(n, x))
    ensures Loop(step, s, round).compactions == 0 ==> s.live <= Loop(step, s, round).slice.live
    decreases CHAT_MAX_ROUNDS - round
  {
    if round < CHAT_MAX_ROUNDS {
      assert AppendsTo(s, step(round, s));
      match step(round, s)
      case Ends(_) =>
      case Goes(next, _, _) => LoopOfAppends(step, next, round + 1);
    }
  }

  lemma {:induction false} RoundAppends(s: Slice, limit: int, grow: nat -> nat, r: Round)
    ensures AppendsTo(s, RunRound(s, limit, grow, r))
  {
    if !r.Interrupted? {
      var p := PreparedSlice(s, limit);
      assert p.live <= AppendedAll(p, Added(r), grow).live;
    }
  }

  lemma {:induction false} RoundsAppend(limit: int, grow: nat -> nat, env: nat -> Round)
    ensures forall n: nat, x: Slice :: AppendsTo(x, Rounds(limit, grow, env)(n, x))
  {
    forall n: nat, x: Slice ensures AppendsTo(x, Rounds(limit, grow, env)(n, x)) {
      RoundAppends(x, limit, grow, env(n));
    }
  }

  /** Without compaction the loop only appends. */
  lemma {:induction false} LoopAppends(s: Slice, limit: int, grow: nat -> nat, env: nat -> Round)
    ensures var r := ChatLoop(s, limit, grow, env);
            r.compactions == 0 ==> s.live <= r.slice.live
  {
    RoundsAppend(limit, grow, env);
    LoopOfAppends(Rounds(limit, grow, env), s, 0);
  }

  lemma {:induction false} NoLimitNoCompaction(s: Slice, limit: int, grow: nat -> nat, env: nat -> Round, round: nat)
    requires limit <= 0
    ensures Loop(Rounds(limit, grow, env), s, round).compactions == 0
    decreases CHAT_MAX_ROUNDS - round
  {
    if round < CHAT_MAX_ROUNDS {
      match RunRound(s, limit, grow, env(round))
      case Ends(_) =>
      case Goes(next, _, _) => NoLimitNoCompaction(next, limit, grow, env, round + 1);
    }
  }

  // ----- HandleMessage -----

  datatype Status = Replied(reply: string) | RolledBack | Panicked

  datatype Turn = Turn(slice: Slice, status: Status, sent: seq<seq<Message>>, compactions: nat)

  /** What HandleMessage makes of the loop's result; n is the length of the turn's history. */
  function Finished(r: LoopResult, n: nat): Turn {
    if !r.failed then Turn(r.slice, Replied(r.reply), r.sent, r.compactions)
    else match Resliced(r.slice, n - 1)
      case Some(back) => Turn(back, RolledBack, r.sent, r.compactions)
      case None => Turn(r.slice, Panicked, r.sent, r.compactions)
  }

  /** The turn behind trimming: t ends with the new user message. */
  ghost function RunTurn(t: Slice, limit: int, grow: nat -> nat, env: nat -> Round): Turn {
    Finished(ChatLoop(t, limit, grow, env), |t.live|)
  }

  ghost function TakeTurn(h: Slice, limit: int, grow: nat -> nat, input: string, env: nat -> Round): Turn {
    RunTurn(TrimmedSlice(Appended(h, Plain(User, input), grow)), limit, grow, env)
  }

  /** What HandleMessage promises of a failed turn: the history without the new message. */
  ghost predicate Restores(t: seq<Message>, turn: Turn) {
    turn.status == RolledBack && t != [] && turn.slice.live == t[..|t| - 1]
  }

  lemma {:induction false} FinishedRestoresIff(r: LoopResult, t: seq<Message>)
    requires r.failed && t != []
    ensures Restores(t, Finished(r, |t|)) <==> t[..|t| - 1] <= r.slice.Array()
  {}

  lemma {:induction false} RolledBackPrefix(r: LoopResult, n: nat)
    requires r.failed && 0 < n <= |r.slice.live| + 1
    ensures Finished(r, n).status == RolledBack && Finished(r, n).slice.live == r.slice.live[..n - 1]
  {
    assert r.slice.Array()[..n - 1] == r.slice.live[..n - 1];
  }

  /** A failed turn in which nothing was compacted leaves the trimmed history without the new
      message, and that is the history before the call unless trimming was due. */
  lemma {:induction false} FailedTurnRollsBack(h: Slice, limit: int, grow: nat -> nat, input: string, env: nat -> Round)
    requires IsHistory(h.live)
    ensures var turn := TakeTurn(h, limit, grow, input, env);
            !turn.status.Replied? && turn.compactions == 0 ==>
              && Restores(Trimmed(h.live + [Plain(User, input)]), turn)
              && IsHistory(turn.slice.live)
              && (|h.live| <= MAX_HISTORY_MESSAGES ==> turn.slice.live == h.live)
  {
    TrimmedTurn(h.live, input);
    var t := TrimmedSlice(Appended(h, Plain(User, input), grow));
    LoopAppends(t, limit, grow, env);
    var r := ChatLoop(t, limit, grow, env);
    if r.failed && r.compactions == 0 {
      RolledBackPrefix(r, |t.live|);
    }
  }

  lemma {:induction false} ShiftedIff(t: seq<Message>, u: Message)
    requires |t| >= 2 && t[|t| - 1] == u
    ensures [t[0]] + t[2..] == t[..|t| - 1] <==> forall i | 1 <= i < |t| :: t[i] == u
  {
    var c, d := [t[0]] + t[2..], t[..|t| - 1];
    if c == d {
      var i := |t| - 1;
      while i > 1
        invariant 1 <= i < |t|
        invariant forall j | i <= j < |t| :: t[j] == u
      {
        assert c[i - 1] == t[i] && d[i - 1] == t[i - 1];
        i := i - 1;
      }
    }
  }

  /** When the first AI call fails, the promise is kept exactly when nothing was compacted, when
      compaction left the prompt alone (its view still has the old array behind it), or when it
      dropped one message from a history whose messages are all alike. */
  lemma {:induction false} FirstCallFailureIff(t: Slice, limit: int, grow: nat -> nat, input: string, env: nat -> Round)
    requires |t.live| >= 2 && t.live[|t.live| - 1] == Plain(User, input)
    requires env(0).ChatFailed? || env(0).NoChoices?
    ensures Restores(t.live, RunTurn(t, limit, grow, env)) <==>
            || limit <= 0
            || Compact.Tokens(t.live) <= limit
            || |Compact.Compacted(t.live, limit)| == 1
            || (&& |Compact.Compacted(t.live, limit)| == |t.live| - 1
                && forall i | 1 <= i < |t.live| :: t.live[i] == Plain(User, input))
  {
    ShorterViewRestoresIff(t, limit, ChatLoop(t, limit, grow, env));
  }

  lemma {:induction false} ShorterViewRestoresIff(t: Slice, limit: int, r: LoopResult)
    requires |t.live| >= 2 && r.failed && r.slice == PreparedSlice(t, limit)
    ensures Restores(t.live, Finished(r, |t.live|)) <==>
            || limit <= 0
            || Compact.Tokens(t.live) <= limit
            || |Compact.Compacted(t.live, limit)| == 1
            || (&& |Compact.Compacted(t.live, limit)| == |t.live| - 1
                && forall i | 1 <= i < |t.live| :: t.live[i] == t.live[|t.live| - 1])
  {
    FinishedRestoresIff(r, t.live);
    if limit > 0 && Compact.Tokens(t.live) > limit {
      var c := Prepared(t.live, limit);
      Compact.CompactedIsLongestFit(t.live, limit);
      if |c| == 1 {
        PromptViewHolds(t);
      } else {
        assert r.slice.Array() == c;
        ShortenedIff(t.live, c, t.live[|t.live| - 1]);
      }
    }
  }

  /** The view of the prompt alone has the rest of the history behind it. */
  lemma {:induction false} PromptViewHolds(t: Slice)
    requires t.live != []
    ensures t.live <= Slice([t.live[0]], t.live[1..] + t.spare).Array()
  {
    assert t.live == [t.live[0]] + t.live[1..];
  }

  lemma {:induction false} ShortenedIff(t: seq<Message>, c: seq<Message>, u: Message)
    requires |t| >= 2 && t[|t| - 1] == u
    requires exists k :: 1 < k <= |t| && c == [t[0]] + t[k..]
    ensures t[..|t| - 1] <= c <==> |c| == |t| - 1 && forall i | 1 <= i < |t| :: t[i] == u
  {
    var k :| 1 < k <= |t| && c == [t[0]] + t[k..];
    if |c| == |t| - 1 {
      assert k == 2 && c[..|t| - 1] == c;
      ShiftedIff(t, u);
    }
  }

  /** x does not stand in ms from position i on. */
  predicate Without(x: Message, ms: seq<Message>, i: nat)
    decreases |ms| - i
  {
    i < |ms| ==> ms[i] != x && Without(x, ms, i + 1)
  }

  lemma {:induction false} WithoutIff(x: Message, ms: seq<Message>, i: nat)
    ensures Without(x, ms, i) <==> forall j | i <= j < |ms| :: ms[j] != x
    decreases |ms| - i
  {
    if i < |ms| {
      WithoutIff(x, ms, i + 1);
    }
  }

  /** The shapes compaction can leave behind. */
  lemma {:induction false} PreparedShapes(s: Slice, limit: int) returns (p: Slice)
    requires s.live != []
    ensures p == PreparedSlice(s, limit)
    ensures || p == s
            || (|s.live| > 1 && p == Slice([s.live[0]], s.live[1..] + s.spare))
            || (|p.live| > 1 && p.spare == [] && exists k :: 1 < k < |s.live| && p.live == [s.live[0]] + s.live[k..])
  {
    p := PreparedSlice(s, limit);
    if p.live != s.live {
      Compact.CompactedIsLongestFit(s.live, limit);
    }
  }

  lemma {:induction false} AddedWithout(x: Message, ms: seq<Message>, i: nat, more: seq<Message>)
    requires x !in more && Without(x, ms, i)
    ensures Without(x, ms + more, i)
  {
    WithoutIff(x, ms, i);
    WithoutIff(x, ms + more, i);
  }

  lemma {:induction false} SuffixWithout(x: Message, ms: seq<Message>, i: nat, first: Message, k: nat)
    requires Without(x, ms, i) && i <= k <= |ms|
    ensures Without(x, [first] + ms[k..], 1)
  {
    WithoutIff(x, ms, i);
    WithoutIff(x, [first] + ms[k..], 1);
  }

  /** The array holds more than the prompt, and x is not the message behind it. */
  ghost predicate Displaced(x: Message, s: Slice) {
    if |s.live| >= 2 then s.live[1] != x else |s.live| == 1 && s.spare != [] && s.spare[0] != x
  }

  /** The array still starts with t. */
  ghost predicate Holds(t: seq<Message>, s: Slice)
    requires t != []
  {
    t <= s.live || (s.live == [t[0]] && t[1..] <= s.spare)
  }

  /** Compaction behind the loss of x. */
  lemma {:induction false} PreparedWithout(x: Message, s: Slice, limit: int) returns (p: Slice)
    requires |s.live| >= 2 && Without(x, s.live, 1)
    ensures p == PreparedSlice(s, limit) && p.live != [] && Without(x, p.live, 1) && Displaced(x, p)
  {
    p := PreparedShapes(s, limit);
    if |p.live| > 1 && p != s {
      var k :| 1 < k < |s.live| && p.live == [s.live[0]] + s.live[k..];
      SuffixWithout(x, s.live, 1, s.live[0], k);
    }
  }

  /** The message x is gone from behind the prompt. */
  ghost predicate Lost(x: Message, s: Slice) {
    |s.live| >= 2 && Without(x, s.live, 1)
  }

  ghost predicate StaysLost(x: Message, step: Step) {
    match step
    case Ends(r) => Displaced(x, r.slice)
    case Goes(next, _, _) => Lost(x, next)
  }

  lemma {:induction false} RoundStaysLost(x: Message, s: Slice, limit: int, grow: nat -> nat, r: Round)
    requires x !in Added(r) && Lost(x, s)
    ensures StaysLost(x, RunRound(s, limit, grow, r))
  {
    var p := PreparedWithout(x, s, limit);
    AddedWithout(x, p.live, 1, Added(r));
  }

  /** Once x is gone it does not come back. */
  lemma {:induction false} LoopStaysLost(x: Message, step: RoundFunction, s: Slice, round: nat)
    requires Lost(x, s) && forall n, y: Slice :: Lost(x, y) ==> StaysLost(x, step(n, y))
    ensures Displaced(x, Loop(step, s, round).slice)
    decreases CHAT_MAX_ROUNDS - round
  {
    if round < CHAT_MAX_ROUNDS {
      assert StaysLost(x, step(round, s));
      match step(round, s)
      case Ends(_) =>
      case Goes(next, _, _) => LoopStaysLost(x, step, next, round + 1);
    }
  }

  /** Compaction with t still in front. */
  lemma {:induction false} PreparedOldest(t: seq<Message>, s: Slice, limit: int) returns (p: Slice)
    requires |t| >= 2 && t <= s.live && Without(t[1], s.live, 2)
    ensures p == PreparedSlice(s, limit) && p.live != []
    ensures p.live == s.live ==> p == s
    ensures p.live != s.live ==>
              Without(t[1], p.live, 1) && if |p.live| == 1 then Holds(t, p) else Displaced(t[1], p)
  {
    p := PreparedShapes(s, limit);
    if |p.live| > 1 && p != s {
      var k :| 1 < k < |s.live| && p.live == [s.live[0]] + s.live[k..];
      SuffixWithout(t[1], s.live, 2, s.live[0], k);
    }
  }

  /** The history starts with t, whose first message behind the prompt is not repeated. */
  ghost predicate StartsWith(t: seq<Message>, s: Slice)
    requires |t| >= 2
  {
    t <= s.live && Without(t[1], s.live, 2)
  }

  /** The array of a failed loop that started with t. */
  ghost predicate HeldIff(t: seq<Message>, r: LoopResult)
    requires |t| >= 2
  {
    r.failed ==>
      if r.compactions == 0 || (r.compactions == 1 && |r.slice.live| == 1)
      then Holds(t, r.slice)
      else Displaced(t[1], r.slice)
  }

  ghost predicate HoldsOrLoses(t: seq<Message>, step: Step)
    requires |t| >= 2
  {
    match step
    case Ends(r) => HeldIff(t, r)
    case Goes(next, _, compacted) => if compacted then Lost(t[1], next) else StartsWith(t, next)
  }

  lemma {:induction false} RoundHoldsOrLoses(t: seq<Message>, s: Slice, limit: int, grow: nat -> nat, r: Round)
    requires |t| >= 2 && t[1] !in Added(r) && StartsWith(t, s)
    ensures HoldsOrLoses(t, RunRound(s, limit, grow, r))
  {
    var p := PreparedOldest(t, s, limit);
    AddedWithout(t[1], p.live, if p.live == s.live then 2 else 1, Added(r));
  }

  lemma {:induction false} LoopHoldsOrLoses(t: seq<Message>, step: RoundFunction, s: Slice, round: nat)
    requires |t| >= 2 && StartsWith(t, s)
    requires forall n, y: Slice :: StartsWith(t, y) ==> HoldsOrLoses(t, step(n, y))
    requires forall n, y: Slice :: Lost(t[1], y) ==> StaysLost(t[1], step(n, y))
    requires forall n, y: Slice :: AppendsTo(y, step(n, y))
    ensures HeldIff(t, Loop(step, s, round))
    decreases CHAT_MAX_ROUNDS - round
  {
    if round < CHAT_MAX_ROUNDS {
      assert HoldsOrLoses(t, step(round, s));
      match step(round, s)
      case Ends(_) =>
      case Goes(next, _, compacted) =>
        if compacted {
          LoopStaysLost(t[1], step, next, round + 1);
          LoopOfAppends(step, next, round + 1);
        } else {
          LoopHoldsOrLoses(t, step, next, round + 1);
        }
    }
  }

  /** The array behind a failed turn that started with t, whose first message behind the prompt
      does not come again. */
  lemma {:induction false} OldestIsDropped(t: seq<Message>, s: Slice, limit: int, grow: nat -> nat, env: nat -> Round)
    requires |t| >= 2 && StartsWith(t, s) && forall n: nat :: t[1] !in Added(env(n))
    ensures HeldIff(t, ChatLoop(s, limit, grow, env))
  {
    var step := Rounds(limit, grow, env);
    forall n: nat, y: Slice | StartsWith(t, y) ensures HoldsOrLoses(t, step(n, y)) {
      RoundHoldsOrLoses(t, y, limit, grow, env(n));
    }
    forall n: nat, y: Slice | Lost(t[1], y) ensures StaysLost(t[1], step(n, y)) {
      RoundStaysLost(t[1], y, limit, grow, env(n));
    }
    RoundsAppend(limit, grow, env);
    LoopHoldsOrLoses(t, step, s, 0);
  }

  // ----- when a failed turn keeps the promise, told from its input -----

  predicate OverLimit(ms: seq<Message>, limit: int) {
    limit > 0 && |ms| > 1 && Compact.Tokens(ms) > limit
  }

  /** No list of the turn is over the limit when its AI call is due. */
  ghost predicate NeverOver(ms: seq<Message>, limit: int, env: nat -> Round, round: nat)
    decreases CHAT_MAX_ROUNDS - round
  {
    || round >= CHAT_MAX_ROUNDS
    || env(round).Interrupted?
    || (!OverLimit(ms, limit) && (CallsTools(env(round)) ==> NeverOver(ms + Added(env(round)), limit, env, round + 1)))
  }

  /** The first list over the limit has no group that fits, and the AI call that then sees the
      prompt alone fails. */
  ghost predicate LastCallSeesPrompt(ms: seq<Message>, limit: int, env: nat -> Round, round: nat)
    decreases CHAT_MAX_ROUNDS - round
  {
    && round < CHAT_MAX_ROUNDS
    && !env(round).Interrupted?
    && if OverLimit(ms, limit)
       then |Compact.Compacted(ms, limit)| == 1 && !env(round).Reply?
       else CallsTools(env(round)) && LastCallSeesPrompt(ms + Added(env(round)), limit, env, round + 1)
  }

  lemma {:induction false} PreparedChangesIff(ms: seq<Message>, limit: int)
    ensures Prepared(ms, limit) != ms <==> OverLimit(ms, limit)
  {
    if OverLimit(ms, limit) {
      Compact.CompactedIsLongestFit(ms, limit);
    }
  }

  /** What one round tells about the limit. */
  lemma {:induction false} RoundOver(s: Slice, limit: int, grow: nat -> nat, r: Round)
    ensures match RunRound(s, limit, grow, r)
            case Ends(l) => !CallsTools(r) && (l.compactions == 0 <==> r.Interrupted? || !OverLimit(s.live, limit))
            case Goes(next, _, compacted) =>
              && CallsTools(r) && (compacted <==> OverLimit(s.live, limit))
              && (!compacted ==> next.live == s.live + Added(r))
  {
    PreparedChangesIff(s.live, limit);
  }

  lemma {:induction false} NeverOverIff(s: Slice, limit: int, grow: nat -> nat, env: nat -> Round, round: nat)
    ensures NeverOver(s.live, limit, env, round) <==> Loop(Rounds(limit, grow, env), s, round).compactions == 0
    decreases CHAT_MAX_ROUNDS - round
  {
    if round < CHAT_MAX_ROUNDS {
      var step := Rounds(limit, grow, env);
      RoundOver(s, limit, grow, env(round));
      match step(round, s)
      case Ends(_) =>
      case Goes(next, _, compacted) =>
        if !compacted {
          NeverOverIff(next, limit, grow, env, round + 1);
        }
    }
  }

  /** A result that only a compaction to the prompt leaves behind. */
  predicate PromptAlone(r: LoopResult) {
    r.failed && r.compactions == 1 && |r.slice.live| == 1
  }

  /** What one round tells about PromptAlone. */
  lemma {:induction false} RoundSeesPrompt(s: Slice, limit: int, grow: nat -> nat, r: Round)
    requires s.live != []
    ensures match RunRound(s, limit, grow, r)
            case Ends(l) =>
              PromptAlone(l) <==> && !r.Interrupted? && !r.Reply?
                                  && OverLimit(s.live, limit) && |Compact.Compacted(s.live, limit)| == 1
            case Goes(next, _, _) => |next.live| >= 2
  {
    PreparedChangesIff(s.live, limit);
    var p := PreparedShapes(s, limit);
  }

  lemma {:induction false} LastCallSeesPromptIff(s: Slice, limit: int, grow: nat -> nat, env: nat -> Round, round: nat)
    requires s.live != []
    ensures LastCallSeesPrompt(s.live, limit, env, round) <==> PromptAlone(Loop(Rounds(limit, grow, env), s, round))
    decreases CHAT_MAX_ROUNDS - round
  {
    if round < CHAT_MAX_ROUNDS {
      var step := Rounds(limit, grow, env);
      RoundOver(s, limit, grow, env(round));
      RoundSeesPrompt(s, limit, grow, env(round));
      match step(round, s)
      case Ends(_) =>
      case Goes(next, _, compacted) =>
        if compacted {
          RoundsAppend(limit, grow, env);
          LoopOfAppends(step, next, round + 1);
        } else {
          LastCallSeesPromptIff(next, limit, grow, env, round + 1);
        }
    }
  }

  lemma {:induction false} HeldOrDisplaced(t: seq<Message>, s: Slice)
    requires |t| >= 2
    ensures Holds(t, s) ==> t <= s.Array()
    ensures Displaced(t[1], s) ==> !(t <= s.Array())
  {
    if Holds(t, s) && !(t <= s.live) {
      assert t == [t[0]] + t[1..];
    }
  }

  /** The array of a turn whose last call sees the prompt alone still holds the turn's history. */
  lemma {:induction false} PromptViewKeeps(t: seq<Message>, s: Slice, limit: int, grow: nat -> nat, env: nat -> Round, round: nat)
    requires t != [] && t <= s.live && LastCallSeesPrompt(s.live, limit, env, round)
    ensures t <= Loop(Rounds(limit, grow, env), s, round).slice.Array()
    decreases CHAT_MAX_ROUNDS - round
  {
    PreparedChangesIff(s.live, limit);
    if OverLimit(s.live, limit) {
      var p := PreparedShapes(s, limit);
      assert p.Array() == s.Array();
      assert AppendedAll(p, Added(env(round)), grow) == p;
    } else {
      var next := AppendedAll(PreparedSlice(s, limit), Added(env(round)), grow);
      PromptViewKeeps(t, next, limit, grow, env, round + 1);
    }
  }

  /** A failed turn keeps the promise when only the new message stood behind the prompt, when
      no list of the turn was over the limit, or when the failing call saw the prompt alone. */
  lemma {:induction false} FailedTurnRestores(t: Slice, limit: int, grow: nat -> nat, env: nat -> Round)
    requires |t.live| >= 2 && ChatLoop(t, limit, grow, env).failed
    requires |t.live| == 2 || NeverOver(t.live, limit, env, 0) || LastCallSeesPrompt(t.live, limit, env, 0)
    ensures Restores(t.live, RunTurn(t, limit, grow, env))
  {
    var past, r := t.live[..|t.live| - 1], ChatLoop(t, limit, grow, env);
    FinishedRestoresIff(r, t.live);
    if |t.live| == 2 {
      LoopKeepsPrompt(t, limit, grow, env);
      assert past == [t.live[0]];
    } else if NeverOver(t.live, limit, env, 0) {
      NeverOverIff(t, limit, grow, env, 0);
      LoopAppends(t, limit, grow, env);
    } else {
      PromptViewKeeps(past, t, limit, grow, env, 0);
    }
  }

  /** ... and only then, if the first message behind the prompt does not come again. */
  lemma {:induction false} FailedTurnIff(t: Slice, limit: int, grow: nat -> nat, env: nat -> Round)
    requires |t.live| >= 2 && ChatLoop(t, limit, grow, env).failed
    requires Without(t.live[1], t.live, 2) && forall n: nat :: t.live[1] !in Added(env(n))
    ensures Restores(t.live, RunTurn(t, limit, grow, env)) <==>
            || |t.live| == 2
            || NeverOver(t.live, limit, env, 0)
            || LastCallSeesPrompt(t.live, limit, env, 0)
  {
    var past, r := t.live[..|t.live| - 1], ChatLoop(t, limit, grow, env);
    if |t.live| == 2 || NeverOver(t.live, limit, env, 0) || LastCallSeesPrompt(t.live, limit, env, 0) {
      FailedTurnRestores(t, limit, grow, env);
    } else {
      NeverOverIff(t, limit, grow, env, 0);
      LastCallSeesPromptIff(t, limit, grow, env, 0);
      OldestIsDropped(past, t, limit, grow, env);
      HeldOrDisplaced(past, r.slice);
      FinishedRestoresIff(r, t.live);
    }
  }

  /** When the first AI call fails, the rollback panics exactly when compaction copied what it
      kept to an array that is too short for the rollback. */
  lemma {:induction false} FirstCallPanicsIff(t: Slice, limit: int, grow: nat -> nat, env: nat -> Round)
    requires |t.live| >= 2 && (env(0).ChatFailed? || env(0).NoChoices?)
    ensures RunTurn(t, limit, grow, env).status == Panicked <==>
            OverLimit(t.live, limit) && 1 < |Compact.Compacted(t.live, limit)| < |t.live| - 1
  {
    var p := PreparedShapes(t, limit);
    PreparedChangesIff(t.live, limit);
    assert ChatLoop(t, limit, grow, env).slice == p;
  }

  /** Two calls in a turn whose limit leaves room for the prompt and the new message alone. */
  lemma {:induction false} TwoCallsAfterCompaction(s: Slice, calls: seq<ToolCall>, f: nat -> string, grow: nat -> nat, env: nat -> Round)
    requires s.live == [Plain(System, ""), Plain(User, "x"), Plain(Assistant, ""), Plain(User, "")]
    requires |calls| == 2 && env(0) == Reply("", calls, f) && env(1) == Interrupted
    ensures var r := ChatLoop(s, 9, grow, env);
            r.failed && r.slice.live ==
                        [s.live[0], s.live[3], Message(Assistant, "", "", calls)] + Replies(calls, f, 2)
  {
    var t := s.live;
    assert Compact.Tokens(t[3..]) == 4 by {
      assert t[3..] == [t[3]] && [t[3]][1..] == [];
    }
    forall j | 0 <= j < 3 ensures Compact.Tokens(t[j..]) > 5 {
      Compact.TokensSplit(t, j, 3);
    }
    assert t[0..] == t && Compact.Tokens(t) == 4 + Compact.Tokens(t[1..]);
    Compact.KeepFromIs(t, 9, 1, 3);
    var p := PreparedSlice(s, 9);
    assert p.live == [t[0], t[3]];
    var next := AppendedAll(p, Added(env(0)), grow);
    assert RunRound(s, 9, grow, env(0)) == Goes(next, p.live, true);
    assert Loop(Rounds(9, grow, env), next, 1).slice == next;
  }

  /** A turn that takes a history, fails, rolls back, and leaves no history: the new message
      stays, and so does a call without its replies. */
  ghost predicate RollbackSplits(h: Slice, limit: int, grow: nat -> nat, input: string, env: nat -> Round) {
    var turn := TakeTurn(h, limit, grow, input, env);
    var m, n := turn.slice.live, |turn.slice.live|;
    && IsHistory(h.live) && Plain(User, input) !in h.live
    && turn.status == RolledBack
    && n >= 2 && m[n - 2] == Plain(User, input) && IsCall(m[n - 1]) && !IsHistory(m)
  }

  lemma {:induction false} TurnWithTwoCalls(h: Slice, calls: seq<ToolCall>, f: nat -> string, grow: nat -> nat, env: nat -> Round)
    requires IsHistory(h.live) && h.live == [Plain(System, ""), Plain(User, "x"), Plain(Assistant, "")]
    requires |calls| == 2 && env(0) == Reply("", calls, f) && env(1) == Interrupted
    ensures RollbackSplits(h, 9, grow, "", env)
  {
    var t := TrimmedSlice(Appended(h, Plain(User, ""), grow));
    TwoCallsAfterCompaction(t, calls, f, grow, env);
    RolledBackPrefix(ChatLoop(t, 9, grow, env), 4);
    var call := Message(Assistant, "", "", calls);
    assert TakeTurn(h, 9, grow, "", env).slice.live == [h.live[0], Plain(User, ""), call];
    CallAloneIsNoHistory(h.live[0], Plain(User, ""), call);
  }

  /** The turn that says "x" to a new stream and is answered. */
  lemma {:induction false} FirstTurn(f: nat -> string, grow: nat -> nat, env: nat -> Round)
    requires grow(1) == grow(2) == 0 && env(0) == Reply("", [], f)
    ensures TakeTurn(Slice([Plain(System, "")], []), 9, grow, "x", env).slice ==
            Slice([Plain(System, ""), Plain(User, "x"), Plain(Assistant, "")], [])
  {
    var sys, u, a := Plain(System, ""), Plain(User, "x"), Plain(Assistant, "");
    assert SpareAfter(Slice([sys], []), 0, grow) == [] && Zeros(0) == [];
    var t := TrimmedSlice(Appended(Slice([sys], []), u, grow));
    assert t == Slice([sys, u], []);
    assert Compact.Tokens([sys, u]) == 9 by {
      assert [sys, u][1..] == [u] && [u][1..] == [];
      assert Compact.MessageTokens(sys) == 4 && Compact.MessageTokens(u) == 5;
      assert Compact.Tokens([u]) == 5;
    }
    assert PreparedSlice(t, 9) == t;
    assert SpareAfter(t, 0, grow) == [];
    assert AppendedAll(t, [a], grow) == Slice([sys, u, a], []);
  }

  /** The history behind such a first turn, as the result of a run. */
  lemma {:induction false} FirstTurnRun(f: nat -> string, grow: nat -> nat, env: nat -> Round)
    requires grow(1) == grow(2) == 0 && env(0) == Reply("", [], f)
    ensures var h := FinalHistory(Slice([Plain(System, "")], []), 9, grow, [Say("x", env)]);
            h == Slice([Plain(System, ""), Plain(User, "x"), Plain(Assistant, "")], []) && IsHistory(h.live)
  {
    FirstTurn(f, grow, env);
    assert [Say("x", env)][1..] == [];
    var u, a := Plain(User, "x"), Plain(Assistant, "");
    LoneIsWhole(u);
    LoneIsWhole(a);
    GroupsAppend([u], [a]);
    assert [Plain(System, ""), u, a][1..] == [u] + [a];
  }

  /** A run of a new stream that ends in such a turn. */
  ghost predicate RunSplits(limit: int, grow: nat -> nat, ops: seq<Op>, input: string, env: nat -> Round) {
    RollbackSplits(FinalHistory(Slice([Plain(System, "")], []), limit, grow, ops), limit, grow, input, env)
  }

  lemma {:induction false} RunWithTwoCalls(calls: seq<ToolCall>, f: nat -> string, grow: nat -> nat,
                                           answer: nat -> Round, env: nat -> Round)
    requires grow(1) == grow(2) == 0 && answer(0) == Reply("", [], f)
    requires |calls| == 2 && env(0) == Reply("", calls, f) && env(1) == Interrupted
    ensures RunSplits(9, grow, [Say("x", answer)], "", env)
  {
    FirstTurnRun(f, grow, answer);
    TurnWithTwoCalls(FinalHistory(Slice([Plain(System, "")], []), 9, grow, [Say("x", answer)]), calls, f, grow, env);
  }

  function NoGrowth(n: nat): nat {
    0
  }

  function NoOutput(i: nat): string {
    ""
  }

  function AnswersAtOnce(n: nat): Round {
    Reply("", [], NoOutput)
  }

  const TWO_CALLS := [ToolCall("1", "", ""), ToolCall("2", "", "")]

  function CallsThenStops(n: nat): Round {
    if n == 0 then Reply("", TWO_CALLS, NoOutput) else Interrupted
  }

  /** A failed turn of a run that keeps the user message and leaves a call without its reply:
      two tool calls bring the compacted history to the length the rollback cuts at. */
  lemma {:induction false} CompactedRollbackSplits()
    ensures RunSplits(9, NoGrowth, [Say("x", AnswersAtOnce)], "", CallsThenStops)
  {
    RunWithTwoCalls(TWO_CALLS, NoOutput, NoGrowth, AnswersAtOnce, CallsThenStops);
  }

  lemma {:induction false} CallAloneIsNoHistory(sys: Message, u: Message, call: Message)
    requires IsCall(call) && u.role == User
    ensures !IsHistory([sys, u, call])
  {
    assert [sys, u, call][1..] == [u, call] && [u, call][1..] == [call];
    assert !WholeGroups([call]);
  }

  // ----- what a turn answers and what it adds, told from the rounds -----

  /** Round n is the first that does not call tools; 20 stands for the end of the rounds. */
  ghost predicate StopsAt(env: nat -> Round, n: nat) {
    && n <= 20
    && (forall j: nat | j < n :: env(j).Reply? && env(j).toolCalls != [])
    && (n < 20 ==> !(env(n).Reply? && env(n).toolCalls != []))
  }

  lemma {:induction false} StopsSomewhere(env: nat -> Round) returns (n: nat)
    ensures StopsAt(env, n)
  {
    n := 0;
    while n < 20 && env(n).Reply? && env(n).toolCalls != []
      invariant n <= 20 && forall j: nat | j < n :: env(j).Reply? && env(j).toolCalls != []
    {
      n := n + 1;
    }
  }

  /** The status of a turn whose rounds stop at n. */
  ghost predicate Answers(env: nat -> Round, n: nat, status: Status) {
    if n >= 20 then status == Replied("[incomplete] max tool-calling rounds reached")
    else if env(n).Reply? then status == Replied(env(n).content)
    else !status.Replied?
  }

  /** What is done to the messages in front of an AI call. */
  type Preparation = seq<Message> -> seq<Message>

  ghost function Preparing(limit: int): Preparation {
    ms => Prepared(ms, limit)
  }

  /** The messages from ms on, round by round until n: what was handed to the AI, with
      compaction in front of every call, and what stands at the end. */
  ghost predicate Conversation(ms: seq<Message>, prep: Preparation, env: nat -> Round, round: nat, n: nat,
                               sent: seq<seq<Message>>, end: seq<Message>)
    decreases n - round
  {
    if round >= n then
      if n >= 20 || env(n).Interrupted? then sent == [] && end == ms
      else
        && sent == [prep(ms)]
        && end == prep(ms) + if env(n).Reply? then [Message(Assistant, env(n).content, "", [])] else []
    else
      && env(round).Reply? && |sent| > 0 && sent[0] == prep(ms)
      && exists x ::
           && IsExchange(x, env(round).content, env(round).toolCalls, env(round).toolResult)
           && Conversation(sent[0] + x, prep, env, round + 1, n, sent[1..], end)
  }

  /** What the rounds add when nothing is compacted. */
  ghost predicate Adds(added: seq<Message>, env: nat -> Round, round: nat, n: nat)
    decreases n - round
  {
    if round >= n then
      added == if n < 20 && env(n).Reply? then [Message(Assistant, env(n).content, "", [])] else []
    else
      && env(round).Reply? && |added| > |env(round).toolCalls|
      && IsExchange(added[..1 + |env(round).toolCalls|], env(round).content, env(round).toolCalls, env(round).toolResult)
      && Adds(added[1 + |env(round).toolCalls|..], env, round + 1, n)
  }

  /** One round, by its fields. */
  ghost predicate RoundTold(s: Slice, prep: Preparation, r: Round, step: Step) {
    var c := prep(s.live);
    match step
    case Ends(l) =>
      && !(r.Reply? && r.toolCalls != [])
      && (l.failed <==> !r.Reply?) && (r.Reply? ==> l.reply == r.content)
      && (if r.Interrupted? then l.sent == [] && l.slice.live == s.live
          else && l.sent == [c]
               && l.slice.live == c + if r.Reply? then [Message(Assistant, r.content, "", [])] else [])
      && (l.compactions == 0 ==> r.Interrupted? || c == s.live)
    case Goes(next, sent, compacted) =>
      && r.Reply? && r.toolCalls != [] && sent == c && (!compacted ==> c == s.live)
      && exists x :: IsExchange(x, r.content, r.toolCalls, r.toolResult) && next.live == c + x
  }

  lemma {:induction false} RoundIsTold(s: Slice, limit: int, grow: nat -> nat, r: Round)
    ensures RoundTold(s, Preparing(limit), r, RunRound(s, limit, grow, r))
  {
    if CallsTools(r) {
      ExchangeByFields(r.content, r.toolCalls, r.toolResult);
    }
  }

  ghost predicate RoundsTold(prep: Preparation, env: nat -> Round, step: RoundFunction) {
    forall m: nat, y: Slice :: RoundTold(y, prep, env(m), step(m, y))
  }

  lemma {:induction false} RoundsAreTold(limit: int, grow: nat -> nat, env: nat -> Round)
    ensures RoundsTold(Preparing(limit), env, Rounds(limit, grow, env))
  {
    forall m: nat, y: Slice ensures RoundTold(y, Preparing(limit), env(m), Rounds(limit, grow, env)(m, y)) {
      RoundIsTold(y, limit, grow, env(m));
    }
  }

  ghost predicate LoopAnswer(env: nat -> Round, n: nat, r: LoopResult) {
    && (r.failed <==> n < 20 && !env(n).Reply?)
    && (!r.failed ==> r.reply == if n < 20 then env(n).content else "[incomplete] max tool-calling rounds reached")
  }

  lemma {:induction false} LoopAnswers(step: RoundFunction, s: Slice, prep: Preparation, env: nat -> Round, round: nat, n: nat)
    requires round <= n && StopsAt(env, n) && RoundsTold(prep, env, step)
    ensures LoopAnswer(env, n, Loop(step, s, round))
    decreases n - round
  {
    if round < 20 {
      assert RoundTold(s, prep, env(round), step(round, s));
      if round < n {
        LoopAnswers(step, step(round, s).next, prep, env, round + 1, n);
      }
    }
  }

  lemma {:induction false} LoopGoes(step: RoundFunction, s: Slice, round: nat)
    requires round < CHAT_MAX_ROUNDS && step(round, s).Goes?
    ensures var g, l := step(round, s), Loop(step, s, round);
            var rest := Loop(step, g.next, round + 1);
            && l.sent == [g.sent] + rest.sent && l.slice == rest.slice
            && (l.compactions == 0 ==> !g.compacted && rest.compactions == 0)
  {}

  lemma {:induction false} LoopIsConversation(step: RoundFunction, s: Slice, prep: Preparation, env: nat -> Round, round: nat, n: nat)
    requires round <= n && StopsAt(env, n) && RoundsTold(prep, env, step)
    ensures var r := Loop(step, s, round); Conversation(s.live, prep, env, round, n, r.sent, r.slice.live)
    decreases n - round
  {
    if round < 20 {
      var r := env(round);
      assert RoundTold(s, prep, r, step(round, s));
      if round < n {
        var c, next := step(round, s).sent, step(round, s).next;
        var x :| IsExchange(x, r.content, r.toolCalls, r.toolResult) && next.live == c + x;
        LoopIsConversation(step, next, prep, env, round + 1, n);
        LoopGoes(step, s, round);
        var rest := Loop(step, next, round + 1);
        ConversationMore(s.live, prep, env, round, n, x, rest.sent, rest.slice.live);
      }
    }
  }

  lemma {:induction false} ConversationMore(ms: seq<Message>, prep: Preparation, env: nat -> Round, round: nat, n: nat,
                                            x: seq<Message>, sent: seq<seq<Message>>, end: seq<Message>)
    requires round < n && env(round).Reply?
    requires IsExchange(x, env(round).content, env(round).toolCalls, env(round).toolResult)
    requires Conversation(prep(ms) + x, prep, env, round + 1, n, sent, end)
    ensures Conversation(ms, prep, env, round, n, [prep(ms)] + sent, end)
  {
    var all := [prep(ms)] + sent;
    assert all[0] == prep(ms) && all[1..] == sent;
  }

  lemma {:induction false} AddsMore(env: nat -> Round, round: nat, n: nat, x: seq<Message>, added: seq<Message>)
    requires round < n && env(round).Reply?
    requires IsExchange(x, env(round).content, env(round).toolCalls, env(round).toolResult)
    requires Adds(added, env, round + 1, n)
    ensures Adds(x + added, env, round, n)
  {
    var all, k := x + added, 1 + |env(round).toolCalls|;
    assert all[..k] == x && all[k..] == added;
  }

  /** One round of a conversation that is never over the limit. */
  lemma {:induction false} ConversationStep(ms: seq<Message>, limit: int, env: nat -> Round, round: nat, n: nat,
                                            sent: seq<seq<Message>>, end: seq<Message>)
    returns (x: seq<Message>)
    requires round < n && StopsAt(env, n) && NeverOver(ms, limit, env, round)
    requires Conversation(ms, Preparing(limit), env, round, n, sent, end)
    ensures IsExchange(x, env(round).content, env(round).toolCalls, env(round).toolResult)
    ensures NeverOver(ms + x, limit, env, round + 1)
    ensures sent != [] && Conversation(ms + x, Preparing(limit), env, round + 1, n, sent[1..], end)
  {
    var r := env(round);
    PreparedChangesIff(ms, limit);
    x :| IsExchange(x, r.content, r.toolCalls, r.toolResult)
         && Conversation(sent[0] + x, Preparing(limit), env, round + 1, n, sent[1..], end);
    ExchangeUnique(x, r.content, r.toolCalls, r.toolResult);
  }

  /** In a conversation that is never over the limit the rounds only add. */
  lemma {:induction false} ConversationAdds(ms: seq<Message>, limit: int, env: nat -> Round, round: nat, n: nat,
                                            sent: seq<seq<Message>>, end: seq<Message>)
    returns (added: seq<Message>)
    requires round <= n && StopsAt(env, n) && NeverOver(ms, limit, env, round)
    requires Conversation(ms, Preparing(limit), env, round, n, sent, end)
    ensures end == ms + added && Adds(added, env, round, n)
    decreases n - round
  {
    if round < n {
      var x := ConversationStep(ms, limit, env, round, n, sent, end);
      var more := ConversationAdds(ms + x, limit, env, round + 1, n, sent[1..], end);
      AddsMore(env, round, n, x, more);
      added := x + more;
      Assoc(ms, x, more);
    } else {
      PreparedChangesIff(ms, limit);
      added := if n < 20 && env(n).Reply? then [Message(Assistant, env(n).content, "", [])] else [];
      assert ms + [] == ms;
    }
  }

  /** A turn, told from its rounds: its status, what was handed to the AI, how the history ends,
      and, if no list was over the limit, what stands behind the new message. */
  ghost predicate TurnTold(t: seq<Message>, limit: int, env: nat -> Round, n: nat,
                           status: Status, sent: seq<seq<Message>>, live: seq<Message>)
  {
    && Answers(env, n, status)
    && (exists end :: Conversation(t, Preparing(limit), env, 0, n, sent, end) && (status.Replied? ==> live == end))
    && (status.Replied? && NeverOver(t, limit, env, 0) ==> t <= live && Adds(live[|t|..], env, 0, n))
  }

  lemma {:induction false} FinishedIsTold(t: seq<Message>, limit: int, env: nat -> Round, n: nat, r: LoopResult)
    requires LoopAnswer(env, n, r) && Conversation(t, Preparing(limit), env, 0, n, r.sent, r.slice.live)
    requires NeverOver(t, limit, env, 0) ==> t <= r.slice.live && Adds(r.slice.live[|t|..], env, 0, n)
    ensures var turn := Finished(r, |t|); TurnTold(t, limit, env, n, turn.status, turn.sent, turn.slice.live)
  {}

  lemma {:induction false} TurnIsTold(t: Slice, limit: int, grow: nat -> nat, env: nat -> Round, n: nat)
    requires StopsAt(env, n)
    ensures var turn := RunTurn(t, limit, grow, env);
            TurnTold(t.live, limit, env, n, turn.status, turn.sent, turn.slice.live)
  {
    LoopIsTold(t, limit, grow, env);
    var r := ChatLoop(t, limit, grow, env);
    if NeverOver(t.live, limit, env, 0) {
      var added := ConversationAdds(t.live, limit, env, 0, n, r.sent, r.slice.live);
      assert (t.live + added)[|t.live|..] == added;
    }
    FinishedIsTold(t.live, limit, env, n, r);
  }

  lemma {:induction false} LoopIsTold(s: Slice, limit: int, grow: nat -> nat, env: nat -> Round)
    ensures var r := ChatLoop(s, limit, grow, env);
            forall n: nat | StopsAt(env, n) ::
              LoopAnswer(env, n, r) && Conversation(s.live, Preparing(limit), env, 0, n, r.sent, r.slice.live)
  {
    var step := Rounds(limit, grow, env);
    RoundsAreTold(limit, grow, env);
    forall n: nat | StopsAt(env, n)
      ensures var r := ChatLoop(s, limit, grow, env);
              LoopAnswer(env, n, r) && Conversation(s.live, Preparing(limit), env, 0, n, r.sent, r.slice.live)
    {
      LoopAnswers(step, s, Preparing(limit), env, 0, n);
      LoopIsConversation(step, s, Preparing(limit), env, 0, n);
    }
  }

  lemma {:induction false} TakenTurnIsTold(h: Slice, limit: int, grow: nat -> nat, input: string, env: nat -> Round)
    ensures exists t ::
              && KeepsNewest(h.live + [Message(User, input, "", [])], t)
              && var turn := TakeTurn(h, limit, grow, input, env);
                 forall n | StopsAt(env, n) :: TurnTold(t, limit, env, n, turn.status, turn.sent, turn.slice.live)
  {
    var t := TrimmedSlice(Appended(h, Plain(User, input), grow));
    TrimmedKeepsNewest(h.live + [Plain(User, input)]);
    var turn := TakeTurn(h, limit, grow, input, env);
    forall n | StopsAt(env, n) ensures TurnTold(t.live, limit, env, n, turn.status, turn.sent, turn.slice.live) {
      TurnIsTold(t, limit, grow, env, n);
    }
  }

  // ----- runs of many turns -----

  datatype Op = Say(input: string, env: nat -> Round) | Reset

  ghost function AfterOp(h: Slice, limit: int, grow: nat -> nat, op: Op): Slice {
    match op
    case Say(input, env) => TakeTurn(h, limit, grow, input, env).slice
    case Reset => Slice(if |h.live| > 0 && h.live[0].role == System then [h.live[0]] else [], [])
  }

  ghost function SentByOp(h: Slice, limit: int, grow: nat -> nat, op: Op): seq<seq<Message>> {
    match op
    case Say(input, env) => TakeTurn(h, limit, grow, input, env).sent
    case Reset => []
  }

  /** The operation is no turn that fails after its history was compacted. */
  ghost predicate CleanOp(h: Slice, limit: int, grow: nat -> nat, op: Op) {
    op.Say? ==>
      var turn := TakeTurn(h, limit, grow, op.input, op.env);
      turn.status.Replied? || turn.compactions == 0
  }

  /** No turn of the run fails after its history was compacted. */
  ghost predicate Clean(h: Slice, limit: int, grow: nat -> nat, ops: seq<Op>)
    decreases |ops|
  {
    ops == [] ||
    (&& CleanOp(h, limit, grow, ops[0])
     && Clean(AfterOp(h, limit, grow, ops[0]), limit, grow, ops[1..]))
  }

  ghost function FinalHistory(h: Slice, limit: int, grow: nat -> nat, ops: seq<Op>): Slice
    decreases |ops|
  {
    if ops == [] then h else FinalHistory(AfterOp(h, limit, grow, ops[0]), limit, grow, ops[1..])
  }

  ghost function AllSent(h: Slice, limit: int, grow: nat -> nat, ops: seq<Op>): seq<seq<Message>>
    decreases |ops|
  {
    if ops == [] then []
    else SentByOp(h, limit, grow, ops[0]) + AllSent(AfterOp(h, limit, grow, ops[0]), limit, grow, ops[1..])
  }

  lemma {:induction false} OpKeepsHistory(h: Slice, limit: int, grow: nat -> nat, op: Op)
    requires IsHistory(h.live) && CleanOp(h, limit, grow, op)
    ensures IsHistory(AfterOp(h, limit, grow, op).live)
    ensures forall s | s in SentByOp(h, limit, grow, op) :: IsHistory(s)
  {
    match op
    case Say(input, env) =>
      TrimmedTurn(h.live, input);
      LoopKeepsHistory(TrimmedSlice(Appended(h, Plain(User, input), grow)), limit, grow, env);
      if !TakeTurn(h, limit, grow, input, env).status.Replied? {
        FailedTurnRollsBack(h, limit, grow, input, env);
      }
    case Reset =>
      assert [h.live[0]][1..] == [];
  }

  /** Over any run of turns and resets, everything sent to the AI is a history, and its Bedrock
      request alternates the speakers and answers every tool use. */
  lemma {:induction false} RunSendsHistories(isJson: string -> bool, h: Slice, limit: int, grow: nat -> nat, ops: seq<Op>)
    requires IsHistory(h.live) && Clean(h, limit, grow, ops)
    ensures IsHistory(FinalHistory(h, limit, grow, ops).live)
    ensures forall s | s in AllSent(h, limit, grow, ops) ::
              IsHistory(s) && Bedrock.ProperExchange(Bedrock.Converse(isJson, s).messages)
    decreases |ops|
  {
    if ops != [] {
      OpKeepsHistory(h, limit, grow, ops[0]);
      forall s | s in SentByOp(h, limit, grow, ops[0])
        ensures Bedrock.ProperExchange(Bedrock.Converse(isJson, s).messages)
      {
        Bedrock.HistoryIsPaired(isJson, s);
      }
      RunSendsHistories(isJson, AfterOp(h, limit, grow, ops[0]), limit, grow, ops[1..]);
    }
  }

  lemma {:induction false} TrimmedKeepsPrompt(ms: seq<Message>)
    requires |ms| >= 2
    ensures |Trimmed(ms)| >= 2 && Trimmed(ms)[0] == ms[0]
  {}

  lemma {:induction false} FinishedKeepsPrompt(p: Message, r: LoopResult, n: nat)
    requires n >= 2 && StartsAt(p, r.slice.live)
    ensures StartsAt(p, Finished(r, n).slice.live)
  {
    assert r.slice.Array()[0] == p;
  }

  lemma {:induction false} OpKeepsPrompt(h: Slice, limit: int, grow: nat -> nat, op: Op)
    requires h.live != [] && h.live[0].role == System
    ensures StartsAt(h.live[0], AfterOp(h, limit, grow, op).live)
    ensures forall s | s in SentByOp(h, limit, grow, op) :: WithinOrPrompt(h.live[0], limit, s)
  {
    match op
    case Say(input, env) =>
      var ms := h.live + [Plain(User, input)];
      var t := TrimmedSlice(Appended(h, Plain(User, input), grow));
      TrimmedKeepsPrompt(ms);
      assert t.live == Trimmed(ms) && ms[0] == h.live[0];
      LoopKeepsPrompt(t, limit, grow, env);
      FinishedKeepsPrompt(h.live[0], ChatLoop(t, limit, grow, env), |t.live|);
    case Reset =>
  }

  /** Over any run, failed turns included, everything sent to the AI is within the limit or the
      system prompt alone. */
  lemma {:induction false} RunSendsWithinLimit(h: Slice, limit: int, grow: nat -> nat, ops: seq<Op>)
    requires h.live != [] && h.live[0].role == System
    ensures forall s | s in AllSent(h, limit, grow, ops) :: WithinOrPrompt(h.live[0], limit, s)
    decreases |ops|
  {
    if ops != [] {
      OpKeepsPrompt(h, limit, grow, ops[0]);
      RunSendsWithinLimit(AfterOp(h, limit, grow, ops[0]), limit, grow, ops[1..]);
    }
  }

  /** Without a context limit every run is clean. */
  lemma {:induction false} UnlimitedIsClean(h: Slice, limit: int, grow: nat -> nat, ops: seq<Op>)
    requires limit <= 0
    ensures Clean(h, limit, grow, ops)
    decreases |ops|
  {
    if ops != [] {
      if ops[0].Say? {
        NoLimitNoCompaction(TrimmedSlice(Appended(h, Plain(User, ops[0].input), grow)), limit, grow, ops[0].env, 0);
      }
      UnlimitedIsClean(AfterOp(h, limit, grow, ops[0]), limit, grow, ops[1..]);
    }
  }

  // ----- the stream object -----

  class Stream {
    var messages: seq<Message>
    /** What the array of messages holds behind them. */
    var spare: seq<Message>
    const contextWindowLimit: int
    /** The spare room the runtime adds behind an append to a full array. */
    const grow: nat -> nat

    function View(): Slice
      reads this
    {
      Slice(messages, spare)
    }

    constructor (systemPrompt: string, contextWindowLimit: int, grow: nat -> nat)
      ensures View() == Slice([Plain(System, systemPrompt)], []) && IsHistory(messages)
      ensures this.contextWindowLimit == contextWindowLimit && this.grow == grow
    {
      messages, spare := [Plain(System, systemPrompt)], [];
      this.contextWindowLimit, this.grow := contextWindowLimit, grow;
    }

    method Append(m: Message)
      modifies this`messages, this`spare
      ensures View() == Appended(old(View()), m, grow)
    {
      ghost var before := View();
      assert SpareAfter(before, 0, grow) == spare;
      spare := if spare != [] then spare[1..] else Zeros(grow(|messages|));
      messages := messages + [m];
    }

    /** The part of a round that records the tool calls and runs them. */
    method CallTools(content: string, toolCalls: seq<ToolCall>, toolResult: nat -> string)
      modifies this`messages, this`spare
      ensures View() == AppendedAll(old(View()), Exchange(content, toolCalls, toolResult), grow)
    {
      var call := Message(Assistant, content, "", toolCalls);
      Append(call);
      for i := 0 to |toolCalls|
        invariant View() == AppendedAll(old(View()), [call] + Replies(toolCalls, toolResult, i), grow)
      {
        var reply := ToolReply(toolCalls[i].id, toolResult(i));
        AppendedBehind(old(View()), [call] + Replies(toolCalls, toolResult, i), reply, grow);
        Append(reply);
        assert [call] + Replies(toolCalls, toolResult, i) + [reply] == [call] + Replies(toolCalls, toolResult, i + 1);
      }
    }

    /** The removal of old messages that a context limit asks for. */
    method Shorten()
      modifies this`messages, this`spare
      ensures View() == PreparedSlice(old(View()), contextWindowLimit)
    {
      if contextWindowLimit > 0 {
        var kept := Compact.CompactMessages(messages, contextWindowLimit);
        if kept != messages {
          spare := if |kept| == 1 then messages[1..] + spare else [];
        }
        messages := kept;
      }
    }

    /** One turn of the loop. */
    method TakeRound(r: Round) returns (over: bool, reply: string, failed: bool, sent: seq<seq<Message>>)
      modifies this`messages, this`spare
      ensures match RunRound(old(View()), contextWindowLimit, grow, r)
              case Ends(l) => over && View() == l.slice && reply == l.reply && failed == l.failed && sent == l.sent
              case Goes(next, c, _) => !over && View() == next && sent == [c]
      ensures over <==> !(r.Reply? && r.toolCalls != [])
      ensures over ==> (failed <==> !r.Reply?) && (r.Reply? ==> reply == r.content)
      ensures over && r.Reply? ==> messages != [] && messages[|messages| - 1] == Message(Assistant, r.content, "", [])
    {
      if r.Interrupted? {
        return true, "", true, [];
      }
      Shorten();
      sent := [messages];
      if r.ChatFailed? || r.NoChoices? {
        assert messages + [] == messages;
        return true, "", true, sent;
      }
      if |r.toolCalls| == 0 {
        Append(Plain(Assistant, r.content));
        return true, r.content, false, sent;
      }
      CallTools(r.content, r.toolCalls, r.toolResult);
      return false, "", false, sent;
    }

    method ConversationLoop(env: nat -> Round) returns (reply: string, failed: bool, sent: seq<seq<Message>>)
      modifies this`messages, this`spare
      ensures var r := ChatLoop(old(View()), contextWindowLimit, grow, env);
              View() == r.slice && failed == r.failed && reply == r.reply && sent == r.sent
      ensures forall n: nat | StopsAt(env, n) ::
                && (failed <==> n < 20 && !env(n).Reply?)
                && (!failed ==> reply == if n < 20 then env(n).content else "[incomplete] max tool-calling rounds reached")
                && Conversation(old(messages), Preparing(contextWindowLimit), env, 0, n, sent, messages)
    {
      LoopIsTold(View(), contextWindowLimit, grow, env);
      sent := [];
      ghost var step := Rounds(contextWindowLimit, grow, env);
      ghost var whole := Loop(step, View(), 0);
      for round := 0 to CHAT_MAX_ROUNDS
        invariant whole == Loop(step, View(), round).Behind(sent, whole.compactions)
      {
        UnfoldLoop(step, View(), round, sent, whole.compactions);
        assert step(round, View()) == RunRound(View(), contextWindowLimit, grow, env(round));
        var over, answer, bad, s := TakeRound(env(round));
        sent := sent + s;
        if over {
          return answer, bad, sent;
        }
      }
      return INCOMPLETE, false, sent;
    }

    /** The new message goes behind the history, and the history is trimmed. */
    method Begin(input: string)
      modifies this`messages, this`spare
      ensures View() == TrimmedSlice(Appended(old(View()), Plain(User, input), grow))
    {
      Append(Plain(User, input));
      var trimmed := TrimHistory(messages);
      if trimmed != messages {
        spare := [];
      }
      messages := trimmed;
    }

    method HandleMessage(input: string, env: nat -> Round) returns (status: Status, sent: seq<seq<Message>>)
      modifies this`messages, this`spare
      ensures var turn := TakeTurn(old(View()), contextWindowLimit, grow, input, env);
              View() == turn.slice && status == turn.status && sent == turn.sent
      ensures exists t ::
                && KeepsNewest(old(messages) + [Message(User, input, "", [])], t)
                && forall n | StopsAt(env, n) :: TurnTold(t, contextWindowLimit, env, n, status, sent, messages)
    {
      TakenTurnIsTold(View(), contextWindowLimit, grow, input, env);
      Begin(input);
      var msgCount := |messages|;
      var reply, failed, s := ConversationLoop(env);
      sent := s;
      if failed {
        status := Rollback(msgCount - 1);
        return status, sent;
      }
      return Replied(reply), sent;
    }

    /** The slice expression messages[:n] of the rollback. */
    method Rollback(n: int) returns (status: Status)
      modifies this`messages, this`spare
      ensures match Resliced(old(View()), n)
              case Some(back) => status == RolledBack && View() == back
              case None => status == Panicked && View() == old(View())
    {
      var held := messages + spare;
      if n < 0 || n > |held| {
        return Panicked;
      }
      messages, spare := held[..n], held[n..];
      return RolledBack;
    }

    method Clear()
      modifies this`messages, this`spare
      ensures View() == AfterOp(old(View()), contextWindowLimit, grow, Reset)
      ensures messages == if old(messages) != [] && old(messages[0].role) == System then [old(messages[0])] else []
    {
      if |messages| > 0 && messages[0].role == System {
        messages, spare := [messages[0]], [];
      } else {
        messages, spare := [], [];
      }
    }
  }
}
