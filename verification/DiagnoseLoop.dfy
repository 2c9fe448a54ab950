/** diagnose/engine.go: the rounds of one diagnosis. */
module DiagnoseLoop {
  import opened Messages
  import Compact
  import Bedrock

  const CONTEXT_WARNING := "上下文空间即将耗尽。请基于目前收集到的信息，立即输出最终诊断报告。不要再调用任何工具。"
  const ROUNDS_WARNING := "你已使用了所有可用的工具调用轮次。请基于目前收集到的信息，立即输出最终诊断报告。不要再调用任何工具。"

  /** One round as the outside world plays it; totalTokens is the usage the model reports.
      A response without choices is a reply without content and calls. */
  datatype Round =
    | Interrupted
    | ChatFailed
    | Reply(totalTokens: int, content: string, toolCalls: seq<ToolCall>, toolResult: nat -> string)

  datatype Outcome = Failed | Report(text: string) | RoundsExhausted

  datatype Result = Result(outcome: Outcome, sent: seq<seq<Message>>)

  /** What the loop carries from round to round. */
  datatype State = State(messages: seq<Message>, estimate: int, warned: bool)

  ghost function Shrunk(s: State, limit: int): State {
    if limit > 0 && s.estimate > limit then
      var c := Compact.Compacted(s.messages, limit);
      s.(messages := c, estimate := Compact.Tokens(c))
    else s
  }

  function Nudged(s: State, limit: int, lastRound: bool): State {
    if limit > 0 && !s.warned && s.estimate > limit * 90 / 100
    then s.(messages := s.messages + [Plain(User, CONTEXT_WARNING)], warned := true)
    else if lastRound then s.(messages := s.messages + [Plain(User, ROUNDS_WARNING)])
    else s
  }

  /** The state in which the AI is called. */
  ghost function Asked(s: State, limit: int, lastRound: bool): State {
    Nudged(Shrunk(s, limit), limit, lastRound)
  }

  function Answered(s: State, r: Round): State
    requires r.Reply?
  {
    var exchange := Exchange(r.content, r.toolCalls, r.toolResult);
    var estimate := if r.totalTokens > 0 then r.totalTokens else s.estimate;
    s.(messages := s.messages + exchange, estimate := estimate + Compact.Tokens(exchange))
  }

  ghost function Rounds(s: State, limit: int, maxRounds: int, env: nat -> Round, round: nat): Result
    decreases maxRounds - round
  {
    if round >= maxRounds then Result(RoundsExhausted, [])
    else if env(round).Interrupted? then Result(Failed, [])
    else
      var a := Asked(s, limit, round == maxRounds - 1);
      if env(round).ChatFailed? then Result(Failed, [a.messages])
      else if env(round).toolCalls == [] then Result(Report(env(round).content), [a.messages])
      else
        var rest := Rounds(Answered(a, env(round)), limit, maxRounds, env, round + 1);
        rest.(sent := [a.messages] + rest.sent)
  }

  ghost function Diagnosis(prompt: string, limit: int, maxRounds: int, env: nat -> Round): Result {
    var m := Plain(System, prompt);
    Rounds(State([m], Compact.MessageTokens(m), false), limit, maxRounds, env, 0)
  }

  lemma {:induction false} AskedIsHistory(s: State, limit: int, lastRound: bool)
    requires IsHistory(s.messages)
    ensures IsHistory(Asked(s, limit, lastRound).messages)
  {
    Compact.CompactedIsHistory(s.messages, limit);
    var c := Shrunk(s, limit).messages;
    LoneIsWhole(Plain(User, CONTEXT_WARNING));
    LoneIsWhole(Plain(User, ROUNDS_WARNING));
    HistoryExtends(c, [Plain(User, CONTEXT_WARNING)]);
    HistoryExtends(c, [Plain(User, ROUNDS_WARNING)]);
  }

  lemma {:induction false} RoundsSendHistories(s: State, limit: int, maxRounds: int, env: nat -> Round, round: nat)
    requires IsHistory(s.messages)
    ensures forall h | h in Rounds(s, limit, maxRounds, env, round).sent :: IsHistory(h)
    decreases maxRounds - round
  {
    if round < maxRounds && !env(round).Interrupted? {
      var a := Asked(s, limit, round == maxRounds - 1);
      AskedIsHistory(s, limit, round == maxRounds - 1);
      if env(round).Reply? && env(round).toolCalls != [] {
        var r := env(round);
        ExchangeIsWhole(r.content, r.toolCalls, r.toolResult);
        HistoryExtends(a.messages, Exchange(r.content, r.toolCalls, r.toolResult));
        RoundsSendHistories(Answered(a, r), limit, maxRounds, env, round + 1);
      }
    }
  }

  /** Everything a diagnosis sends is a history, and its Bedrock request alternates the
      speakers and answers every tool use. */
  lemma {:induction false} DiagnosisSendsHistories(isJson: string -> bool, prompt: string, limit: int,
                                                   maxRounds: int, env: nat -> Round)
    ensures forall h | h in Diagnosis(prompt, limit, maxRounds, env).sent ::
              IsHistory(h) && Bedrock.ProperExchange(Bedrock.Converse(isJson, h).messages)
  {
    var m := Plain(System, prompt);
    assert [m][1..] == [];
    RoundsSendHistories(State([m], Compact.MessageTokens(m), false), limit, maxRounds, env, 0);
    forall h | h in Diagnosis(prompt, limit, maxRounds, env).sent
      ensures Bedrock.ProperExchange(Bedrock.Converse(isJson, h).messages)
    {
      Bedrock.HistoryIsPaired(isJson, h);
    }
  }

  /** There is at most one AI call a round, and the last round always ends its history with the
      instruction to stop calling tools. */
  lemma {:induction false} LastRoundAsksForReport(s: State, limit: int, maxRounds: int, env: nat -> Round, round: nat)
    requires round < maxRounds
    ensures var sent := Rounds(s, limit, maxRounds, env, round).sent;
            && |sent| <= maxRounds - round
            && (|sent| == maxRounds - round ==>
                  var last := sent[|sent| - 1];
                  last != [] && last[|last| - 1] in {Plain(User, CONTEXT_WARNING), Plain(User, ROUNDS_WARNING)})
    decreases maxRounds - round
  {
    if env(round).Reply? && env(round).toolCalls != [] && round + 1 < maxRounds {
      LastRoundAsksForReport(Answered(Asked(s, limit, false), env(round)), limit, maxRounds, env, round + 1);
    }
  }

  // ----- what the rounds do, told without the functions above -----

  /** What a round makes of the list it begins with: under a limit and over it in the estimate,
      the list is compacted, to a list within the limit or to its first message alone; then at
      most one warning is added, the one about the context the first time the estimate is over
      90 percent of the limit, the one about the rounds in the last round. */
  ghost predicate Hands(begun: seq<Message>, estimate: int, warned: bool, limit: int, lastRound: bool,
                        kept: seq<Message>, left: int, sent: seq<Message>, warnedNow: bool)
  {
    && (if limit > 0 && estimate > limit then
          && kept == Compact.Compacted(begun, limit) && left == Compact.Tokens(kept)
          && (begun != [] ==>
                && kept != [] && kept[0] == begun[0]
                && (Compact.Tokens(kept) <= limit || kept == [begun[0]]))
        else kept == begun && left == estimate)
    && (warnedNow <==> warned || (limit > 0 && left > limit * 90 / 100))
    && sent == kept + if warnedNow && !warned then [Message(User, CONTEXT_WARNING, "", [])]
                      else if lastRound then [Message(User, ROUNDS_WARNING, "", [])] else []
  }

  lemma {:induction false} AskedIsHanded(s: State, limit: int, lastRound: bool)
    ensures var c, a := Shrunk(s, limit), Asked(s, limit, lastRound);
            Hands(s.messages, s.estimate, s.warned, limit, lastRound, c.messages, c.estimate, a.messages, a.warned)
            && a.estimate == c.estimate
  {
    var c := Shrunk(s, limit);
    if limit > 0 && s.estimate > limit && Compact.Tokens(s.messages) > limit && |s.messages| > 1 {
      Compact.CompactedIsLongestFit(s.messages, limit);
    }
    assert c.messages + [] == c.messages;
  }

  /** A round that calls tools leads from what was sent to what the next one begins with. */
  ghost predicate LeadsTo(sent: seq<Message>, left: int, r: Round, begun: seq<Message>, estimate: int) {
    && r.Reply? && r.toolCalls != [] && |sent| <= |begun| && begun[..|sent|] == sent
    && IsExchange(begun[|sent|..], r.content, r.toolCalls, r.toolResult)
    && estimate == (if r.totalTokens > 0 then r.totalTokens else left) + Compact.Tokens(begun[|sent|..])
  }

  lemma {:induction false} AnsweredLeads(s: State, r: Round)
    requires r.Reply? && r.toolCalls != []
    ensures LeadsTo(s.messages, s.estimate, r, Answered(s, r).messages, Answered(s, r).estimate)
  {
    var x := Exchange(r.content, r.toolCalls, r.toolResult);
    ExchangeByFields(r.content, r.toolCalls, r.toolResult);
    assert (s.messages + x)[..|s.messages|] == s.messages && (s.messages + x)[|s.messages|..] == x;
  }

  /** One round that reaches the AI. */
  datatype Handing = Handing(begun: seq<Message>, estimate: int, kept: seq<Message>, left: int, sent: seq<Message>)

  predicate IsOver(h: Handing, limit: int) {
    limit > 0 && h.left > limit * 90 / 100
  }

  /** The context warning was due before round j of the trace, or before the trace. */
  ghost predicate WarnedBefore(trace: seq<Handing>, limit: int, warned: bool, j: nat) {
    warned || exists i: nat :: i < j && i < |trace| && IsOver(trace[i], limit)
  }

  ghost predicate HandsAt(trace: seq<Handing>, warned: bool, limit: int, maxRounds: int, round: nat, j: nat)
    requires j < |trace|
  {
    var h := trace[j];
    Hands(h.begun, h.estimate, WarnedBefore(trace, limit, warned, j), limit, round + j == maxRounds - 1,
          h.kept, h.left, h.sent, WarnedBefore(trace, limit, warned, j + 1))
  }

  ghost predicate LeadsAt(trace: seq<Handing>, env: nat -> Round, round: nat, j: nat)
    requires j + 1 < |trace|
  {
    LeadsTo(trace[j].sent, trace[j].left, env(round + j), trace[j + 1].begun, trace[j + 1].estimate)
  }

  /** The rounds from the given one on, each with the list and the estimate it begins with. */
  ghost predicate IsTrace(trace: seq<Handing>, s: State, limit: int, maxRounds: int, env: nat -> Round, round: nat) {
    && (trace != [] ==> trace[0].begun == s.messages && trace[0].estimate == s.estimate)
    && (forall j: nat | j < |trace| :: HandsAt(trace, s.warned, limit, maxRounds, round, j))
    && (forall j: nat | j + 1 < |trace| :: LeadsAt(trace, env, round, j))
  }

  lemma {:induction false} TraceMore(h: Handing, trace: seq<Handing>, s: State, next: State, limit: int, maxRounds: int,
                                     env: nat -> Round, round: nat, warned: bool)
    requires IsTrace(trace, next, limit, maxRounds, env, round + 1) && next.warned == warned
    requires h.begun == s.messages && h.estimate == s.estimate
    requires Hands(h.begun, h.estimate, s.warned, limit, round == maxRounds - 1, h.kept, h.left, h.sent, warned)
    requires LeadsTo(h.sent, h.left, env(round), next.messages, next.estimate)
    ensures IsTrace([h] + trace, s, limit, maxRounds, env, round)
  {
    var all := [h] + trace;
    assert warned <==> s.warned || IsOver(h, limit);
    forall j: nat | j <= |trace|
      ensures WarnedBefore(all, limit, s.warned, j + 1) == WarnedBefore(trace, limit, warned, j)
    {
      WarnedShift(h, trace, limit, s.warned, j);
    }
    assert WarnedBefore(all, limit, s.warned, 0) == s.warned;
    assert WarnedBefore(trace, limit, warned, 0) == warned;
    forall j: nat | j < |all| ensures HandsAt(all, s.warned, limit, maxRounds, round, j) {
      if j > 0 {
        assert HandsAt(trace, warned, limit, maxRounds, round + 1, j - 1);
        assert all[j] == trace[j - 1];
      }
    }
    forall j: nat | j + 1 < |all| ensures LeadsAt(all, env, round, j) {
      if j > 0 {
        assert LeadsAt(trace, env, round + 1, j - 1);
        assert all[j] == trace[j - 1] && all[j + 1] == trace[j];
      }
    }
  }

  lemma {:induction false} WarnedShift(h: Handing, trace: seq<Handing>, limit: int, warned: bool, j: nat)
    ensures WarnedBefore([h] + trace, limit, warned, j + 1) <==> WarnedBefore(trace, limit, warned || IsOver(h, limit), j)
  {
    var all := [h] + trace;
    if IsOver(h, limit) {
      assert all[0] == h;
    }
    forall i: nat | i < j && i < |trace| && IsOver(trace[i], limit) ensures WarnedBefore(all, limit, warned, j + 1) {
      assert all[i + 1] == trace[i];
    }
    forall i: nat | 0 < i < j + 1 && i < |all| && IsOver(all[i], limit)
      ensures WarnedBefore(trace, limit, warned || IsOver(h, limit), j)
    {
      assert all[i] == trace[i - 1];
    }
  }

  lemma {:induction false} TraceOfOne(h: Handing, s: State, limit: int, maxRounds: int,
                                      env: nat -> Round, round: nat, warned: bool)
    requires h.begun == s.messages && h.estimate == s.estimate
    requires Hands(h.begun, h.estimate, s.warned, limit, round == maxRounds - 1, h.kept, h.left, h.sent, warned)
    ensures IsTrace([h], s, limit, maxRounds, env, round)
  {
    WarnedShift(h, [], limit, s.warned, 0);
    assert [h] + [] == [h];
    assert HandsAt([h], s.warned, limit, maxRounds, round, 0);
  }

  /** The round in state s. */
  lemma {:induction false} HandingOf(s: State, limit: int, lastRound: bool) returns (h: Handing)
    ensures var a := Asked(s, limit, lastRound);
            && h.begun == s.messages && h.estimate == s.estimate && h.sent == a.messages && h.left == a.estimate
            && Hands(h.begun, h.estimate, s.warned, limit, lastRound, h.kept, h.left, h.sent, a.warned)
  {
    var c, a := Shrunk(s, limit), Asked(s, limit, lastRound);
    AskedIsHanded(s, limit, lastRound);
    h := Handing(s.messages, s.estimate, c.messages, c.estimate, a.messages);
  }

  function SentOf(trace: seq<Handing>): seq<seq<Message>> {
    seq(|trace|, j requires 0 <= j < |trace| => trace[j].sent)
  }

  lemma {:induction false} SentOfMore(h: Handing, trace: seq<Handing>)
    ensures SentOf([h]) == [h.sent] && SentOf([h] + trace) == [h.sent] + SentOf(trace)
  {}

  lemma {:induction false} SentByRounds(s: State, limit: int, maxRounds: int, env: nat -> Round, round: nat)
    ensures var sent := Rounds(s, limit, maxRounds, env, round).sent;
            var a := Asked(s, limit, round == maxRounds - 1);
            if round >= maxRounds || env(round).Interrupted? then sent == []
            else if env(round).Reply? && env(round).toolCalls != [] then
              sent == [a.messages] + Rounds(Answered(a, env(round)), limit, maxRounds, env, round + 1).sent
            else sent == [a.messages]
  {}

  lemma {:induction false} RoundsAreTraced(s: State, limit: int, maxRounds: int, env: nat -> Round, round: nat)
    returns (trace: seq<Handing>)
    ensures SentOf(trace) == Rounds(s, limit, maxRounds, env, round).sent
    ensures IsTrace(trace, s, limit, maxRounds, env, round)
    decreases maxRounds - round
  {
    trace := [];
    SentByRounds(s, limit, maxRounds, env, round);
    if round < maxRounds && !env(round).Interrupted? {
      var last := round == maxRounds - 1;
      var a := Asked(s, limit, last);
      var h := HandingOf(s, limit, last);
      if env(round).Reply? && env(round).toolCalls != [] {
        var next := Answered(a, env(round));
        AnsweredLeads(a, env(round));
        var rest := RoundsAreTraced(next, limit, maxRounds, env, round + 1);
        TraceMore(h, rest, s, next, limit, maxRounds, env, round, a.warned);
        SentOfMore(h, rest);
        trace := [h] + rest;
      } else {
        TraceOfOne(h, s, limit, maxRounds, env, round, a.warned);
        SentOfMore(h, []);
        trace := [h];
      }
    }
  }

  /** A whole diagnosis, round by round: it begins with the prompt and its estimate; each round
      compacts exactly when its running estimate is over the limit and otherwise drops nothing;
      the context warning comes once, in the first round that is over 90 percent; and each
      round begins with what the one before sent, followed by the calls and their replies, its
      estimate being the reported total, or what was left, plus theirs. */
  lemma {:induction false} DiagnosisIsTraced(prompt: string, limit: int, maxRounds: int, env: nat -> Round)
    returns (trace: seq<Handing>)
    ensures SentOf(trace) == Diagnosis(prompt, limit, maxRounds, env).sent
    ensures trace != [] ==> trace[0].begun == [Message(System, prompt, "", [])]
                            && trace[0].estimate == Compact.Tokens(trace[0].begun)
    ensures forall j: nat | j < |trace| :: HandsAt(trace, false, limit, maxRounds, 0, j)
    ensures forall j: nat | j + 1 < |trace| :: LeadsAt(trace, env, 0, j)
  {
    var m := Plain(System, prompt);
    trace := RoundsAreTraced(State([m], Compact.MessageTokens(m), false), limit, maxRounds, env, 0);
    assert [m][1..] == [];
  }

  /** The context warning ends a list exactly in the first round that is over 90 percent of the
      limit, so at most once. */
  lemma {:induction false} ContextWarningComesOnce(trace: seq<Handing>, limit: int, maxRounds: int, j: nat)
    requires j < |trace| && HandsAt(trace, false, limit, maxRounds, 0, j)
    ensures trace[j].sent == trace[j].kept + [Message(User, CONTEXT_WARNING, "", [])] <==>
            IsOver(trace[j], limit) && forall i: nat | i < j :: !IsOver(trace[i], limit)
  {
    var h := trace[j];
    assert |CONTEXT_WARNING| != |ROUNDS_WARNING|;
    var context, rounds := Message(User, CONTEXT_WARNING, "", []), Message(User, ROUNDS_WARNING, "", []);
    assert (h.kept + [context])[|h.kept|] != (h.kept + [rounds])[|h.kept|];
    assert |h.kept + []| != |h.kept + [context]|;
    assert WarnedBefore(trace, limit, false, j) <==> exists i: nat :: i < j && IsOver(trace[i], limit);
    assert WarnedBefore(trace, limit, false, j + 1) <==> WarnedBefore(trace, limit, false, j) || IsOver(h, limit);
  }

  /** Round n is the first that does not call tools; maxRounds stands for the end of the rounds. */
  ghost predicate StopsAt(env: nat -> Round, maxRounds: int, n: nat) {
    && (n <= maxRounds || n == 0)
    && (forall j: nat | j < n :: env(j).Reply? && env(j).toolCalls != [])
    && (n < maxRounds ==> !(env(n).Reply? && env(n).toolCalls != []))
  }

  /** The outcome, and how many lists were sent, when the rounds stop at n. */
  ghost predicate Concludes(env: nat -> Round, maxRounds: int, n: nat, outcome: Outcome, calls: nat) {
    && outcome == (if n >= maxRounds then RoundsExhausted
                   else if env(n).Reply? then Report(env(n).content) else Failed)
    && calls == n + (if n < maxRounds && !env(n).Interrupted? then 1 else 0)
  }

  lemma {:induction false} RoundsConclude(s: State, limit: int, maxRounds: int, env: nat -> Round, round: nat, n: nat)
    requires round <= n && StopsAt(env, maxRounds, n)
    ensures var r := Rounds(s, limit, maxRounds, env, round);
            Concludes(env, maxRounds, n, r.outcome, round + |r.sent|)
    decreases n - round
  {
    if round < n {
      var a := Asked(s, limit, round == maxRounds - 1);
      RoundsConclude(Answered(a, env(round)), limit, maxRounds, env, round + 1, n);
    }
  }

  /** The report of a diagnosis is the text of the first round without calls. */
  lemma {:induction false} DiagnosisConcludes(prompt: string, limit: int, maxRounds: int, env: nat -> Round)
    ensures var r := Diagnosis(prompt, limit, maxRounds, env);
            forall n: nat | StopsAt(env, maxRounds, n) :: Concludes(env, maxRounds, n, r.outcome, |r.sent|)
  {
    var m := Plain(System, prompt);
    forall n: nat | StopsAt(env, maxRounds, n)
      ensures var r := Diagnosis(prompt, limit, maxRounds, env); Concludes(env, maxRounds, n, r.outcome, |r.sent|)
    {
      RoundsConclude(State([m], Compact.MessageTokens(m), false), limit, maxRounds, env, 0, n);
    }
  }

  lemma {:induction false} UnfoldRounds(s: State, limit: int, maxRounds: int, env: nat -> Round, round: nat,
                                        sent: seq<seq<Message>>)
    requires round < maxRounds && !env(round).Interrupted?
    ensures var a := Asked(s, limit, round == maxRounds - 1);
            var whole := Rounds(s, limit, maxRounds, env, round);
            if env(round).ChatFailed? then whole == Result(Failed, [a.messages])
            else if env(round).toolCalls == [] then whole == Result(Report(env(round).content), [a.messages])
            else
              var rest := Rounds(Answered(a, env(round)), limit, maxRounds, env, round + 1);
              whole.outcome == rest.outcome && sent + whole.sent == sent + [a.messages] + rest.sent
  {}

  lemma {:induction false} TokensOfRepliesStep(calls: seq<ToolCall>, toolResult: nat -> string, i: nat)
    requires i < |calls|
    ensures Replies(calls, toolResult, i + 1) == Replies(calls, toolResult, i) + [ToolReply(calls[i].id, toolResult(i))]
    ensures Compact.Tokens(Replies(calls, toolResult, i + 1)) ==
            Compact.Tokens(Replies(calls, toolResult, i)) + Compact.MessageTokens(ToolReply(calls[i].id, toolResult(i)))
  {
    var m := ToolReply(calls[i].id, toolResult(i));
    Compact.TokensAppend(Replies(calls, toolResult, i), [m]);
    assert [m][1..] == [];
  }

  /** The appends behind an AI call, with the estimate kept up. */
  method RunCalls(s: State, r: Round) returns (messages: seq<Message>, estimatedTokens: int)
    requires r.Reply?
    ensures messages == Answered(s, r).messages && estimatedTokens == Answered(s, r).estimate
  {
    messages, estimatedTokens := s.messages, s.estimate;
    if r.totalTokens > 0 {
      estimatedTokens := r.totalTokens;
    }
    ghost var start := estimatedTokens;
    var call := Message(Assistant, r.content, "", r.toolCalls);
    messages := messages + [call];
    var t := Compact.EstimateMessageTokens(call);
    estimatedTokens := estimatedTokens + t;
    for i := 0 to |r.toolCalls|
      invariant messages == s.messages + ([call] + Replies(r.toolCalls, r.toolResult, i))
      invariant estimatedTokens == start + Compact.MessageTokens(call) + Compact.Tokens(Replies(r.toolCalls, r.toolResult, i))
    {
      TokensOfRepliesStep(r.toolCalls, r.toolResult, i);
      var reply := ToolReply(r.toolCalls[i].id, r.toolResult(i));
      messages := messages + [reply];
      t := Compact.EstimateMessageTokens(reply);
      estimatedTokens := estimatedTokens + t;
    }
    assert Exchange(r.content, r.toolCalls, r.toolResult)[1..] == Replies(r.toolCalls, r.toolResult, |r.toolCalls|);
  }

  /** The part of a round that records the tool calls and runs them. */
  method CallTools(s: State, r: Round) returns (messages: seq<Message>, estimatedTokens: int)
    requires r.Reply?
    ensures messages == Answered(s, r).messages && estimatedTokens == Answered(s, r).estimate
    ensures r.toolCalls != [] ==> LeadsTo(s.messages, s.estimate, r, messages, estimatedTokens)
  {
    messages, estimatedTokens := RunCalls(s, r);
    if r.toolCalls != [] {
      AnsweredLeads(s, r);
    }
  }

  /** The part of a round before the AI call. */
  method Prepare(s: State, limit: int, lastRound: bool)
    returns (messages: seq<Message>, estimatedTokens: int, contextWarned: bool)
    ensures State(messages, estimatedTokens, contextWarned) == Asked(s, limit, lastRound)
    ensures exists kept ::
              Hands(s.messages, s.estimate, s.warned, limit, lastRound, kept, estimatedTokens, messages, contextWarned)
  {
    AskedIsHanded(s, limit, lastRound);
    messages, estimatedTokens, contextWarned := s.messages, s.estimate, s.warned;
    if limit > 0 && estimatedTokens > limit {
      messages := Compact.CompactMessages(messages, limit);
      estimatedTokens := Compact.EstimateMessagesTokens(messages);
    }
    if limit > 0 && !contextWarned && estimatedTokens > limit * 90 / 100 {
      contextWarned := true;
      messages := messages + [Plain(User, CONTEXT_WARNING)];
    } else if lastRound {
      messages := messages + [Plain(User, ROUNDS_WARNING)];
    }
  }

  method Diagnose(prompt: string, limit: int, maxRounds: int, env: nat -> Round)
    returns (outcome: Outcome, sent: seq<seq<Message>>)
    ensures Result(outcome, sent) == Diagnosis(prompt, limit, maxRounds, env)
    ensures forall n: nat | StopsAt(env, maxRounds, n) :: Concludes(env, maxRounds, n, outcome, |sent|)
  {
    DiagnosisConcludes(prompt, limit, maxRounds, env);
    var messages := [Plain(System, prompt)];
    var estimatedTokens: int := Compact.EstimateMessageTokens(messages[0]);
    var contextWarned := false;
    sent := [];
    ghost var whole := Diagnosis(prompt, limit, maxRounds, env);
    var round := 0;
    while round < maxRounds
      invariant round >= 0
      invariant var rest := Rounds(State(messages, estimatedTokens, contextWarned), limit, maxRounds, env, round);
                whole.outcome == rest.outcome && whole.sent == sent + rest.sent
    {
      if env(round).Interrupted? {
        return Failed, sent;
      }
      UnfoldRounds(State(messages, estimatedTokens, contextWarned), limit, maxRounds, env, round, sent);
      messages, estimatedTokens, contextWarned :=
        Prepare(State(messages, estimatedTokens, contextWarned), limit, round == maxRounds - 1);
      sent := sent + [messages];
      if env(round).ChatFailed? {
        return Failed, sent;
      }
      if |env(round).toolCalls| == 0 {
        return Report(env(round).content), sent;
      }
      messages, estimatedTokens := CallTools(State(messages, estimatedTokens, contextWarned), env(round));
      round := round + 1;
    }
    return RoundsExhausted, sent;
  }
}
