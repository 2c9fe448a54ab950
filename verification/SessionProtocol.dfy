/** server/session_handler.go: what one remote session sends, from its goroutine's point of view.

    Every message is an attempt: once the connection is done, sends are dropped. */
module SessionProtocol {

  datatype Msg =
    | Ack(ok: bool)
    | Output(delta: string, stage: string, done: bool, report: string)
    | Error(text: string, code: string)

  /** A piece of streamed output: text and stage. */
  datatype Delta = Delta(text: string, stage: string)

  /** How a runner ends: with a report, or with an error seen in a live or a done context. */
  datatype RunEnd = Report(text: string) | RunError(message: string, contextDone: bool)

  datatype ChatInit = Ready | InitError(message: string, contextDone: bool)

  datatype TurnEnd = Answer(reply: string) | TurnError(message: string, contextDone: bool) | Panic

  datatype ChatTurn = ChatTurn(stream: seq<Delta>, end: TurnEnd)

  /** What the outside world does with a launched session. */
  datatype Work =
    | CancelledBeforeRun
    | Inspect(available: bool, plugin: string, stream: seq<Delta>, end: RunEnd)
    | Diagnose(available: bool, stream: seq<Delta>, end: RunEnd)
    | Chat(available: bool, contextDone: bool, stream: seq<Delta>, init: ChatInit, turns: seq<ChatTurn>)
    | UnknownType(sessionType: string)

  const NO_DIAGNOSE_ENGINE := Error("diagnose engine not available", "engine_unavailable")
  const NO_CHAT_ENGINE := Error("chat engine not available", "engine_unavailable")
  const NO_PLUGIN := Error("plugin is required for inspect", "missing_plugin")
  const UNKNOWN_TYPE_TEXT := "unknown session type: "

  function Streamed(ds: seq<Delta>): seq<Msg> {
    seq(|ds|, i requires 0 <= i < |ds| => Output(ds[i].text, ds[i].stage, false, ""))
  }

  /** The messages of a runner and the report it hands back. */
  function RunnerMessages(stream: seq<Delta>, end: RunEnd): (seq<Msg>, string) {
    match end
    case Report(text) => (Streamed(stream), text)
    case RunError(message, contextDone) =>
      (Streamed(stream) + if contextDone then [] else [Error(message, "diagnose_failed")], "")
  }

  function TurnMessages(t: ChatTurn): seq<Msg> {
    Streamed(t.stream) +
    match t.end
    case Answer(reply) => [Output(reply, "answer", false, "")]
    case TurnError(message, contextDone) => if contextDone then [] else [Output(message, "error", false, "")]
    case Panic => [Output("internal error", "error", false, "")]
  }

  predicate EndsChat(t: ChatTurn) {
    t.end.TurnError? && t.end.contextDone
  }

  /** The turns of a chat; behind the last one the context is done. */
  function ChatMessages(turns: seq<ChatTurn>): seq<Msg> {
    if turns == [] then []
    else TurnMessages(turns[0]) + if EndsChat(turns[0]) then [] else ChatMessages(turns[1..])
  }

  /** The messages in front of the closing one, and the final report. */
  function Body(w: Work): (seq<Msg>, string) {
    match w
    case CancelledBeforeRun => ([], "")
    case UnknownType(sessionType) => ([Error(UNKNOWN_TYPE_TEXT + sessionType, "invalid_type")], "")
    case Inspect(available, plugin, stream, end) =>
      if !available then ([NO_DIAGNOSE_ENGINE], "")
      else if plugin == "" then ([NO_PLUGIN], "")
      else RunnerMessages(stream, end)
    case Diagnose(available, stream, end) =>
      if !available then ([NO_DIAGNOSE_ENGINE], "") else RunnerMessages(stream, end)
    case Chat(available, contextDone, stream, init, turns) =>
      (if !available then [NO_CHAT_ENGINE]
       else if contextDone then []
       else if init.InitError? then Streamed(stream) + if init.contextDone then [] else [Error(init.message, "chat_init_failed")]
       else Streamed(stream) + ChatMessages(turns), "")
  }

  function Script(w: Work): seq<Msg> {
    Body(w).0 + [Output("", "", true, Body(w).1)]
  }

  predicate IsDone(m: Msg) {
    m.Output? && m.done
  }

  /** Nothing in here closes the session or answers its start. */
  ghost predicate Open(ms: seq<Msg>) {
    forall m | m in ms :: !IsDone(m) && !m.Ack?
  }

  lemma {:induction false} ChatIsOpen(turns: seq<ChatTurn>)
    ensures Open(ChatMessages(turns))
  {
    if turns != [] {
      assert Open(TurnMessages(turns[0]));
      ChatIsOpen(turns[1..]);
    }
  }

  /** Whatever a session does, it sends exactly one closing output, behind everything else. */
  lemma {:induction false} ScriptClosesOnce(w: Work)
    ensures var s := Script(w);
            && s != [] && IsDone(s[|s| - 1])
            && forall i | 0 <= i < |s| :: !s[i].Ack? && (IsDone(s[i]) ==> i == |s| - 1)
  {
    if w.Chat? {
      ChatIsOpen(w.turns);
    }
    assert Open(Body(w).0);
  }

  // ----- what a session sends, message by message -----

  predicate Streams(ms: seq<Msg>, ds: seq<Delta>) {
    |ms| == |ds| && forall i | 0 <= i < |ds| :: ms[i] == Output(ds[i].text, ds[i].stage, false, "")
  }

  /** The streamed pieces, then these messages. */
  predicate StreamsThen(ms: seq<Msg>, ds: seq<Delta>, last: seq<Msg>) {
    |ds| <= |ms| && Streams(ms[..|ds|], ds) && ms[|ds|..] == last
  }

  /** A runner hands back its report; its error is sent unless the context is done. */
  predicate RunnerSays(ms: seq<Msg>, report: string, stream: seq<Delta>, end: RunEnd) {
    match end
    case Report(text) => StreamsThen(ms, stream, []) && report == text
    case RunError(message, contextDone) =>
      StreamsThen(ms, stream, if contextDone then [] else [Error(message, "diagnose_failed")]) && report == ""
  }

  /** A turn is closed by its reply, its error or the answer to a panic. */
  predicate TurnSays(ms: seq<Msg>, t: ChatTurn) {
    match t.end
    case Answer(reply) => StreamsThen(ms, t.stream, [Output(reply, "answer", false, "")])
    case TurnError(message, contextDone) =>
      StreamsThen(ms, t.stream, if contextDone then [] else [Output(message, "error", false, "")])
    case Panic => StreamsThen(ms, t.stream, [Output("internal error", "error", false, "")])
  }

  /** The turns, one behind the other, until one fails in a done context. */
  ghost predicate ChatSays(ms: seq<Msg>, turns: seq<ChatTurn>)
    decreases |turns|
  {
    if turns == [] then ms == []
    else
      exists k | 0 <= k <= |ms| ::
        && TurnSays(ms[..k], turns[0])
        && if turns[0].end.TurnError? && turns[0].end.contextDone then k == |ms| else ChatSays(ms[k..], turns[1..])
  }

  /** What a session sends before its closing output, and the report in that output. */
  ghost predicate SessionSays(w: Work, ms: seq<Msg>, report: string) {
    match w
    case CancelledBeforeRun => ms == [] && report == ""
    case UnknownType(sessionType) =>
      ms == [Error("unknown session type: " + sessionType, "invalid_type")] && report == ""
    case Inspect(available, plugin, stream, end) =>
      if !available then ms == [Error("diagnose engine not available", "engine_unavailable")] && report == ""
      else if plugin == "" then ms == [Error("plugin is required for inspect", "missing_plugin")] && report == ""
      else RunnerSays(ms, report, stream, end)
    case Diagnose(available, stream, end) =>
      if !available then ms == [Error("diagnose engine not available", "engine_unavailable")] && report == ""
      else RunnerSays(ms, report, stream, end)
    case Chat(available, contextDone, stream, init, turns) =>
      && report == ""
      && if !available then ms == [Error("chat engine not available", "engine_unavailable")]
         else if contextDone then ms == []
         else if init.InitError? then
           StreamsThen(ms, stream, if init.contextDone then [] else [Error(init.message, "chat_init_failed")])
         else |stream| <= |ms| && Streams(ms[..|stream|], stream) && ChatSays(ms[|stream|..], turns)
  }

  lemma {:induction false} StreamedThen(ds: seq<Delta>, last: seq<Msg>)
    ensures StreamsThen(Streamed(ds) + last, ds, last)
  {
    var ms := Streamed(ds) + last;
    assert ms[..|ds|] == Streamed(ds) && ms[|ds|..] == last;
  }

  lemma {:induction false} TurnIsSaid(t: ChatTurn)
    ensures TurnSays(TurnMessages(t), t)
  {
    match t.end
    case Answer(reply) => StreamedThen(t.stream, [Output(reply, "answer", false, "")]);
    case TurnError(message, contextDone) =>
      StreamedThen(t.stream, if contextDone then [] else [Output(message, "error", false, "")]);
    case Panic => StreamedThen(t.stream, [Output("internal error", "error", false, "")]);
  }

  lemma {:induction false} ChatIsSaid(turns: seq<ChatTurn>)
    ensures ChatSays(ChatMessages(turns), turns)
  {
    if turns != [] {
      var m, rest := TurnMessages(turns[0]), if EndsChat(turns[0]) then [] else ChatMessages(turns[1..]);
      TurnIsSaid(turns[0]);
      ChatIsSaid(turns[1..]);
      var ms, k := m + rest, |m|;
      assert ms[..k] == m && ms[k..] == rest;
      assert ChatMessages(turns) == ms;
    }
  }

  lemma {:induction false} RunnerIsSaid(stream: seq<Delta>, end: RunEnd)
    ensures RunnerSays(RunnerMessages(stream, end).0, RunnerMessages(stream, end).1, stream, end)
  {
    match end
    case Report(_) =>
      StreamedThen(stream, []);
      assert Streamed(stream) + [] == Streamed(stream);
    case RunError(message, contextDone) =>
      StreamedThen(stream, if contextDone then [] else [Error(message, "diagnose_failed")]);
  }

  lemma {:induction false} BodyIsSaid(w: Work)
    ensures SessionSays(w, Body(w).0, Body(w).1)
  {
    match w
    case Inspect(_, _, stream, end) => RunnerIsSaid(stream, end);
    case Diagnose(_, stream, end) => RunnerIsSaid(stream, end);
    case Chat(_, _, stream, init, turns) =>
      if init.InitError? {
        StreamedThen(stream, if init.contextDone then [] else [Error(init.message, "chat_init_failed")]);
      } else {
        StreamedThen(stream, ChatMessages(turns));
        ChatIsSaid(turns);
      }
    case _ =>
  }

  lemma {:induction false} ScriptIsSaid(w: Work)
    ensures var s := Script(w);
            |s| > 0 && exists report ::
              s[|s| - 1] == Output("", "", true, report) && SessionSays(w, s[..|s| - 1], report)
  {
    BodyIsSaid(w);
    var s := Script(w);
    assert s[..|s| - 1] == Body(w).0;
    assert s[|s| - 1] == Output("", "", true, Body(w).1);
  }

  // ----- runRemoteSession -----

  /** The calls of a runner's callback. */
  method SendStream(stream: seq<Delta>) returns (sent: seq<Msg>)
    ensures sent == Streamed(stream)
  {
    sent := [];
    for i := 0 to |stream|
      invariant sent == Streamed(stream[..i])
    {
      sent := sent + [Output(stream[i].text, stream[i].stage, false, "")];
    }
    assert stream[..|stream|] == stream;
  }

  method RunInspectOrDiagnose(inspect: bool, available: bool, plugin: string, stream: seq<Delta>, end: RunEnd)
    returns (sent: seq<Msg>, report: string)
    ensures (sent, report) == Body(if inspect then Inspect(available, plugin, stream, end) else Diagnose(available, stream, end))
    ensures SessionSays(if inspect then Inspect(available, plugin, stream, end) else Diagnose(available, stream, end), sent, report)
  {
    BodyIsSaid(if inspect then Inspect(available, plugin, stream, end) else Diagnose(available, stream, end));
    if !available {
      return [NO_DIAGNOSE_ENGINE], "";
    }
    if inspect && plugin == "" {
      return [NO_PLUGIN], "";
    }
    sent := SendStream(stream);
    if end.RunError? {
      if end.contextDone {
        assert sent + [] == sent;
        return sent, "";
      }
      return sent + [Error(end.message, "diagnose_failed")], "";
    }
    return sent, end.text;
  }

  /** One turn of a chat; a panic is recovered and the chat goes on. */
  method ProcessTurn(t: ChatTurn) returns (sent: seq<Msg>, cancelled: bool)
    ensures sent == TurnMessages(t) && TurnSays(sent, t)
    ensures cancelled <==> t.end.TurnError? && t.end.contextDone
  {
    TurnIsSaid(t);
    sent := SendStream(t.stream);
    if t.end.Panic? {
      return sent + [Output("internal error", "error", false, "")], false;
    }
    if t.end.TurnError? {
      if t.end.contextDone {
        assert sent + [] == sent;
        return sent, true;
      }
      return sent + [Output(t.end.message, "error", false, "")], false;
    }
    return sent + [Output(t.end.reply, "answer", false, "")], false;
  }

  lemma {:induction false} ChatStep(sent: seq<Msg>, turns: seq<ChatTurn>, i: nat)
    requires i < |turns|
    ensures sent + ChatMessages(turns[i..]) ==
            sent + TurnMessages(turns[i]) + if EndsChat(turns[i]) then [] else ChatMessages(turns[i + 1..])
  {
    var m, more := TurnMessages(turns[i]), if EndsChat(turns[i]) then [] else ChatMessages(turns[i + 1..]);
    assert turns[i..][1..] == turns[i + 1..];
    assert sent + (m + more) == sent + m + more;
  }

  method RunChat(available: bool, contextDone: bool, stream: seq<Delta>, init: ChatInit, turns: seq<ChatTurn>)
    returns (sent: seq<Msg>)
    ensures sent == Body(Chat(available, contextDone, stream, init, turns)).0
    ensures SessionSays(Chat(available, contextDone, stream, init, turns), sent, "")
  {
    BodyIsSaid(Chat(available, contextDone, stream, init, turns));
    if !available {
      return [NO_CHAT_ENGINE];
    }
    if contextDone {
      return [];
    }
    sent := SendStream(stream);
    if init.InitError? {
      if init.contextDone {
        return sent;
      }
      return sent + [Error(init.message, "chat_init_failed")];
    }
    ghost var all := sent + ChatMessages(turns);
    var i := 0;
    while i < |turns|
      invariant 0 <= i <= |turns|
      invariant all == sent + ChatMessages(turns[i..])
    {
      var s, cancelled := ProcessTurn(turns[i]);
      ChatStep(sent, turns, i);
      sent := sent + s;
      if cancelled {
        return sent;
      }
      i := i + 1;
    }
  }

  method RunRemoteSession(w: Work) returns (sent: seq<Msg>)
    ensures sent == Script(w)
    ensures |sent| > 0 && exists report ::
              sent[|sent| - 1] == Output("", "", true, report) && SessionSays(w, sent[..|sent| - 1], report)
  {
    ScriptIsSaid(w);
    sent := [];
    var doneSent := false;
    match w {
      case CancelledBeforeRun =>
      case Inspect(available, plugin, stream, end) =>
        var report;
        sent, report := RunInspectOrDiagnose(true, available, plugin, stream, end);
        if report != "" {
          sent := sent + [Output("", "", true, report)];
          doneSent := true;
        }
      case Diagnose(available, stream, end) =>
        var report;
        sent, report := RunInspectOrDiagnose(false, available, "", stream, end);
        if report != "" {
          sent := sent + [Output("", "", true, report)];
          doneSent := true;
        }
      case Chat(available, contextDone, stream, init, turns) =>
        sent := RunChat(available, contextDone, stream, init, turns);
      case UnknownType(sessionType) =>
        sent := [Error(UNKNOWN_TYPE_TEXT + sessionType, "invalid_type")];
    }
    if !doneSent {
      sent := sent + [Output("", "", true, "")];
    }
  }
}
