/** All interleavings of session messages, session goroutines, local diagnoses and disconnects
    around the shared semaphore: server/session_handler.go, server/session.go, and Submit,
    TrySem and ReleaseSem of diagnose/engine.go.

    One step of the machine is one atomic action of one goroutine: a semaphore operation, a
    critical section of the session table, a call of a cancel function, or one send attempt. */
module SessionMachine {
  import opened SessionProtocol

  /** A session_start message under way, or a local diagnosis. */
  datatype Phase =
    | Arrived          // the message is being handled
    | Refused          // a negative answer is due
    | Answered         // the negative answer was sent; the end of a refused start
    | Acquired         // holds a slot, not yet in the table
    | Duplicate        // its id was taken; still holds the slot
    | Registered       // in the table, positive answer due
    | Acked            // positive answer sent, goroutine not yet launched
    | Running(left: seq<Msg>)
    | Removed          // its deferred remove has run
    | Released         // its deferred release has run
    | Local            // a local diagnosis holding a slot
    | LocalOver

  datatype Task = Task(conn: nat, id: string, work: Work, phase: Phase, sent: seq<Msg>)

  /** cancelling holds the sessions that were taken out of the table and whose cancel function
      is about to be called by whoever took them out. */
  datatype State = State(
    capacity: nat, held: int,
    tasks: map<nat, Task>,
    table: map<(nat, string), nat>,
    cancelling: set<nat>, cancelled: set<nat>)

  function Init(capacity: nat): State {
    State(capacity, 0, map[], map[], {}, {})
  }

  datatype Action =
    | Arrive(t: nat, conn: nat, id: string, acceptable: bool, work: Work)
    | TrySem(t: nat)
    | Add(t: nat)
    | ReleaseDuplicate(t: nat)
    | SendAck(t: nat)
    | Launch(t: nat)
    | Emit(t: nat)
    | RemoveOwn(t: nat)
    | Release(t: nat)
    | CancelMessage(conn: nat, id: string)
    | Disconnect(conn: nat)
    | CallCancel(t: nat)
    | SubmitLocal(t: nat, admitted: bool)
    | FinishLocal(t: nat)

  function In(s: State, t: nat, phase: Phase): State
    requires t in s.tasks
  {
    s.(tasks := s.tasks[t := s.tasks[t].(phase := phase)])
  }

  function Say(s: State, t: nat, m: Msg, phase: Phase): State
    requires t in s.tasks
  {
    s.(tasks := s.tasks[t := s.tasks[t].(phase := phase, sent := s.tasks[t].sent + [m])])
  }

  function KeyOf(t: Task): (nat, string) {
    (t.conn, t.id)
  }

  /** The critical section of remove: by id, not by identity. */
  function TakeOut(s: State, key: (nat, string)): State {
    if key in s.table then s.(table := s.table - {key}, cancelling := s.cancelling + {s.table[key]}) else s
  }

  /** One action; an action that is not enabled changes nothing. */
  function Do(s: State, a: Action): State {
    match a
    case Arrive(t, conn, id, acceptable, work) =>
      if t in s.tasks then s
      else s.(tasks := s.tasks[t := Task(conn, id, work, if acceptable then Arrived else Refused, [])])
    case TrySem(t) =>
      if t !in s.tasks || s.tasks[t].phase != Arrived then s
      else if s.held < s.capacity then In(s, t, Acquired).(held := s.held + 1)
      else In(s, t, Refused)
    case Add(t) =>
      if t !in s.tasks || s.tasks[t].phase != Acquired then s
      else if KeyOf(s.tasks[t]) in s.table then In(s, t, Duplicate).(cancelled := s.cancelled + {t})
      else In(s, t, Registered).(table := s.table[KeyOf(s.tasks[t]) := t])
    case ReleaseDuplicate(t) =>
      if t !in s.tasks || s.tasks[t].phase != Duplicate then s
      else In(s, t, Refused).(held := s.held - 1)
    case SendAck(t) =>
      if t !in s.tasks then s
      else if s.tasks[t].phase == Refused then Say(s, t, Ack(false), Answered)
      else if s.tasks[t].phase == Registered then Say(s, t, Ack(true), Acked)
      else s
    case Launch(t) =>
      if t !in s.tasks || s.tasks[t].phase != Acked then s
      else In(s, t, Running(Script(s.tasks[t].work)))
    case Emit(t) =>
      if t !in s.tasks || !s.tasks[t].phase.Running? || s.tasks[t].phase.left == [] then s
      else Say(s, t, s.tasks[t].phase.left[0], Running(s.tasks[t].phase.left[1..]))
    case RemoveOwn(t) =>
      if t !in s.tasks || s.tasks[t].phase != Running([]) then s
      else TakeOut(In(s, t, Removed), KeyOf(s.tasks[t]))
    case Release(t) =>
      if t !in s.tasks || s.tasks[t].phase != Removed then s
      else In(s, t, Released).(held := s.held - 1)
    case CancelMessage(conn, id) =>
      TakeOut(s, (conn, id))
    case Disconnect(conn) =>
      s.(table := map k | k in s.table && k.0 != conn :: s.table[k],
         cancelling := s.cancelling + set k | k in s.table && k.0 == conn :: s.table[k])
    case CallCancel(t) =>
      if t in s.cancelling then s.(cancelling := s.cancelling - {t}, cancelled := s.cancelled + {t}) else s
    case SubmitLocal(t, admitted) =>
      if t in s.tasks || !admitted || s.held >= s.capacity then s
      else s.(tasks := s.tasks[t := Task(0, "", UnknownType(""), Local, [])], held := s.held + 1)
    case FinishLocal(t) =>
      if t !in s.tasks || s.tasks[t].phase != Local then s
      else In(s, t, LocalOver).(held := s.held - 1)
  }

  function Run(s: State, actions: seq<Action>): State
    decreases |actions|
  {
    if actions == [] then s else Run(Do(s, actions[0]), actions[1..])
  }

  // ----- the invariant -----

  predicate HoldsSlot(p: Phase) {
    p.Acquired? || p.Duplicate? || p.Registered? || p.Acked? || p.Running? || p.Removed? || p.Local?
  }

  /** Tasks between taking a slot and giving it back. */
  function Holders(tasks: map<nat, Task>): set<nat> {
    set t | t in tasks && HoldsSlot(tasks[t].phase)
  }

  /** Phases in which a session may stand in the table. */
  predicate MayBeListed(p: Phase) {
    p.Registered? || p.Acked? || p.Running?
  }

  /** Phases of sessions that have been put into the table. */
  predicate WasListed(p: Phase) {
    MayBeListed(p) || p.Removed? || p.Released?
  }

  ghost predicate SlotsConserved(s: State) {
    s.held == |Holders(s.tasks)| <= s.capacity
  }

  ghost predicate ListedAreLive(s: State) {
    forall k | k in s.table ::
      var t := s.table[k];
      t in s.tasks && KeyOf(s.tasks[t]) == k && MayBeListed(s.tasks[t].phase)
  }

  predicate IsCancelled(s: State, t: nat) {
    t in s.cancelled || t in s.cancelling
  }

  ghost predicate RemovedAreCancelled(s: State) {
    forall t | t in s.tasks && WasListed(s.tasks[t].phase) ::
      IsCancelled(s, t) || (KeyOf(s.tasks[t]) in s.table && s.table[KeyOf(s.tasks[t])] == t)
  }

  /** What a task has sent, by its phase. */
  ghost predicate SentByPhase(t: Task) {
    match t.phase
    case Answered => t.sent == [Ack(false)]
    case Acked => t.sent == [Ack(true)]
    case Running(left) => t.sent + left == [Ack(true)] + Script(t.work)
    case Removed | Released => t.sent == [Ack(true)] + Script(t.work)
    case _ => t.sent == []
  }

  ghost predicate ProtocolKept(s: State) {
    forall t | t in s.tasks :: SentByPhase(s.tasks[t])
  }

  ghost predicate Inv(s: State) {
    SlotsConserved(s) && ListedAreLive(s) && RemovedAreCancelled(s) && ProtocolKept(s)
  }

  lemma {:induction false} HoldersUpdate(tasks: map<nat, Task>, t: nat, task: Task)
    ensures var before := t in tasks && HoldsSlot(tasks[t].phase);
            var after := HoldsSlot(task.phase);
            |Holders(tasks[t := task])| ==
            |Holders(tasks)| - (if before then 1 else 0) + (if after then 1 else 0)
  {
    var rest := Holders(tasks) - {t};
    assert Holders(tasks[t := task]) == if HoldsSlot(task.phase) then rest + {t} else rest;
  }

  predicate ChangesTask(a: Action) {
    !a.CancelMessage? && !a.Disconnect? && !a.CallCancel?
  }

  /** An action that changes a task changes no other, and moves the slots with it. */
  lemma {:induction false} TaskStep(s: State, a: Action) returns (r: State)
    requires ChangesTask(a)
    ensures r == Do(s, a) && r.capacity == s.capacity
    ensures r == s || (a.t in r.tasks && r.tasks == s.tasks[a.t := r.tasks[a.t]])
    ensures var before := a.t in s.tasks && HoldsSlot(s.tasks[a.t].phase);
            var after := a.t in r.tasks && HoldsSlot(r.tasks[a.t].phase);
            r != s ==> r.held == s.held - (if before then 1 else 0) + (if after then 1 else 0)
    ensures r.held <= s.held || r.held <= s.capacity
  {
    r := Do(s, a);
  }

  lemma {:induction false} SlotsStep(s: State, a: Action)
    requires SlotsConserved(s)
    ensures SlotsConserved(Do(s, a))
  {
    if ChangesTask(a) {
      var r := TaskStep(s, a);
      if r != s {
        HoldersUpdate(s.tasks, a.t, r.tasks[a.t]);
      }
    }
  }

  lemma {:induction false} ListedStep(s: State, a: Action)
    requires ListedAreLive(s)
    ensures ListedAreLive(Do(s, a))
  {}

  lemma {:induction false} RemovedStep(s: State, a: Action)
    requires ListedAreLive(s) && RemovedAreCancelled(s)
    ensures RemovedAreCancelled(Do(s, a))
  {}

  lemma {:induction false} ProtocolStep(s: State, a: Action)
    requires ProtocolKept(s)
    ensures ProtocolKept(Do(s, a))
  {}

  lemma {:induction false} RunKeepsInv(s: State, actions: seq<Action>)
    requires Inv(s)
    ensures Inv(Run(s, actions))
    decreases |actions|
  {
    if actions != [] {
      SlotsStep(s, actions[0]);
      ListedStep(s, actions[0]);
      RemovedStep(s, actions[0]);
      ProtocolStep(s, actions[0]);
      RunKeepsInv(Do(s, actions[0]), actions[1..]);
    }
  }

  // ----- what follows for every reachable state -----

  ghost predicate Reachable(s: State) {
    exists capacity, actions :: s == Run(Init(capacity), actions)
  }

  lemma {:induction false} ReachableInv(s: State)
    requires Reachable(s)
    ensures Inv(s)
  {
    var capacity, actions :| s == Run(Init(capacity), actions);
    assert Holders(Init(capacity).tasks) == {};
    RunKeepsInv(Init(capacity), actions);
  }

  /** The slots taken are those of the running local diagnoses and of the remote sessions
      between TrySem and ReleaseSem; a release therefore never blocks; no more than capacity
      are taken; every registered session holds one, and no two table entries share it. */
  lemma {:induction false} Semaphore(s: State)
    requires Reachable(s)
    ensures 0 <= s.held == |Holders(s.tasks)| <= s.capacity
    ensures forall t | t in s.tasks && HoldsSlot(s.tasks[t].phase) :: s.held > 0
    ensures forall k | k in s.table :: s.table[k] in Holders(s.tasks)
    ensures forall j, k | j in s.table && k in s.table && j != k :: s.table[j] != s.table[k]
    ensures |s.table| <= s.held
  {
    ReachableInv(s);
    forall t | t in s.tasks && HoldsSlot(s.tasks[t].phase) ensures s.held > 0 {
      assert t in Holders(s.tasks);
    }
    TableFits(s.table, Holders(s.tasks));
  }

  lemma {:induction false} TableFits(table: map<(nat, string), nat>, holders: set<nat>)
    requires forall k | k in table :: table[k] in holders
    requires forall j, k | j in table && k in table && j != k :: table[j] != table[k]
    ensures |table| <= |holders|
    decreases |table|
  {
    if table != map[] {
      var k :| k in table;
      TableFits(table - {k}, holders - {table[k]});
      assert |(table - {k}).Keys| == |table.Keys - {k}|;
    }
  }

  /** A session that was put into the table and no longer stands there is cancelled, or the
      goroutine that took it out is about to cancel it. */
  lemma {:induction false} RemovedImpliesCancelled(s: State, t: nat)
    requires Reachable(s) && t in s.tasks && WasListed(s.tasks[t].phase)
    requires t !in s.table.Values
    ensures t in s.cancelled || t in s.cancelling
  {
    ReachableInv(s);
  }

  /** Every session_start is answered once: yes exactly for the sessions that were registered
      and are launched, and before anything else they send; a session that has ended has sent
      one closing output, behind all its other messages. */
  lemma {:induction false} Protocol(s: State, t: nat)
    requires Reachable(s) && t in s.tasks
    ensures var task := s.tasks[t];
            && (forall i | 0 <= i < |task.sent| :: task.sent[i].Ack? ==> i == 0)
            && (task.phase.Answered? ==> task.sent == [Ack(false)])
            && (task.sent != [] ==> task.sent[0] == Ack(WasListed(task.phase)))
            && (task.phase.Removed? || task.phase.Released? ==>
                  forall i | 0 <= i < |task.sent| :: IsDone(task.sent[i]) <==> i == |task.sent| - 1)
            && (forall i | 0 <= i < |task.sent| - 1 :: !IsDone(task.sent[i]))
  {
    ReachableInv(s);
    var task := s.tasks[t];
    ScriptClosesOnce(task.work);
    var all := [Ack(true)] + Script(task.work);
    assert forall i | 0 <= i < |all| :: all[i].Ack? ==> i == 0;
    assert forall i | 0 <= i < |all| :: IsDone(all[i]) <==> i == |all| - 1;
    if task.phase.Running? {
      assert forall i | 0 <= i < |task.sent| :: all[i] == (task.sent + task.phase.left)[i] == task.sent[i];
    }
  }

  /** "Running implies registered" is not an invariant, because remove is by id: a session
      that finishes takes another session out of the table exactly when that one stands there
      under its id, and has it cancelled while it runs. */
  lemma {:induction false} FinishRemovesOtherIff(s: State, a: nat, b: nat)
    requires a in s.tasks && s.tasks[a].phase == Running([])
    requires b in s.tasks && b != a && b in s.table.Values && Reachable(s)
    ensures var r := Do(s, RemoveOwn(a));
            && r.tasks[b] == s.tasks[b]
            && (b !in r.table.Values <==> KeyOf(s.tasks[a]) == KeyOf(s.tasks[b]))
            && (b !in r.table.Values ==> b in r.cancelling)
  {
    ReachableInv(s);
    var k :| k in s.table && s.table[k] == b;
    assert k == KeyOf(s.tasks[b]);
    var r := Do(s, RemoveOwn(a));
    if KeyOf(s.tasks[a]) != k {
      assert k in r.table && r.table[k] == b;
    }
  }

  // ----- ids that are used once -----

  /** No two sessions were put into the table under the same id of the same connection. */
  ghost predicate RegisteredOnce(s: State) {
    forall a, b | a in s.tasks && b in s.tasks && a != b && WasListed(s.tasks[a].phase) && WasListed(s.tasks[b].phase) ::
      KeyOf(s.tasks[a]) != KeyOf(s.tasks[b])
  }

  /** Then a session that finishes takes only itself out of the table. */
  lemma {:induction false} FinishTakesOwn(s: State, a: nat)
    requires Reachable(s) && RegisteredOnce(s)
    requires a in s.tasks && s.tasks[a].phase == Running([])
    ensures Do(s, RemoveOwn(a)).table == map k | k in s.table && s.table[k] != a :: s.table[k]
  {
    ReachableInv(s);
    var key := KeyOf(s.tasks[a]);
    forall k | k in s.table ensures s.table[k] == a <==> k == key {
      assert KeyOf(s.tasks[s.table[k]]) == k;
    }
  }

  /** A message from outside that takes a session out of the table. */
  predicate Asks(a: Action, key: (nat, string)) {
    a == CancelMessage(key.0, key.1) || a == Disconnect(key.0)
  }

  predicate WasAsked(past: seq<Action>, key: (nat, string)) {
    exists i | 0 <= i < |past| :: Asks(past[i], key)
  }

  predicate IsListed(s: State, t: nat)
    requires t in s.tasks
  {
    KeyOf(s.tasks[t]) in s.table && s.table[KeyOf(s.tasks[t])] == t
  }

  ghost predicate OutWasAsked(s: State, past: seq<Action>) {
    forall t | t in s.tasks && MayBeListed(s.tasks[t].phase) ::
      IsListed(s, t) || WasAsked(past, KeyOf(s.tasks[t]))
  }

  /** A task keeps its id, and that it was registered. */
  lemma {:induction false} TaskStays(s: State, a: Action, t: nat)
    requires t in s.tasks
    ensures var r := Do(s, a);
            && t in r.tasks && KeyOf(r.tasks[t]) == KeyOf(s.tasks[t])
            && (WasListed(s.tasks[t].phase) ==> WasListed(r.tasks[t].phase))
  {}

  lemma {:induction false} OnceBefore(s: State, actions: seq<Action>)
    requires RegisteredOnce(Run(s, actions))
    ensures RegisteredOnce(s)
    decreases |actions|
  {
    if actions != [] {
      OnceBefore(Do(s, actions[0]), actions[1..]);
      forall t | t in s.tasks ensures t in Do(s, actions[0]).tasks {
        TaskStays(s, actions[0], t);
      }
      forall a, b | a in s.tasks && b in s.tasks && a != b && WasListed(s.tasks[a].phase) && WasListed(s.tasks[b].phase)
        ensures KeyOf(s.tasks[a]) != KeyOf(s.tasks[b])
      {
        TaskStays(s, actions[0], a);
        TaskStays(s, actions[0], b);
      }
    }
  }

  /** One action takes t out of the table only if it asks for that, or if another session under
      the same id finishes. */
  lemma {:induction false} ListedStays(s: State, a: Action, t: nat)
    requires ListedAreLive(s) && t in s.tasks && IsListed(s, t)
    requires RegisteredOnce(Do(s, a)) && !Asks(a, KeyOf(s.tasks[t]))
    ensures var r := Do(s, a);
            t in r.tasks && (MayBeListed(r.tasks[t].phase) ==> IsListed(r, t))
  {
    TaskStays(s, a, t);
    var r := Do(s, a);
    if a.RemoveOwn? && a.t != t && a.t in s.tasks && s.tasks[a.t].phase == Running([]) {
      TaskStays(s, a, a.t);
      assert KeyOf(r.tasks[a.t]) != KeyOf(r.tasks[t]);
    }
  }

  lemma {:induction false} StepOutWasAsked(s: State, past: seq<Action>, a: Action)
    requires ListedAreLive(s) && OutWasAsked(s, past) && RegisteredOnce(Do(s, a))
    ensures OutWasAsked(Do(s, a), past + [a])
  {
    var r, now := Do(s, a), past + [a];
    forall t | t in r.tasks && MayBeListed(r.tasks[t].phase)
      ensures IsListed(r, t) || WasAsked(now, KeyOf(r.tasks[t]))
    {
      if t in s.tasks && MayBeListed(s.tasks[t].phase) {
        TaskStays(s, a, t);
        var key := KeyOf(s.tasks[t]);
        if !IsListed(s, t) {
          var i :| 0 <= i < |past| && Asks(past[i], key);
          assert Asks(now[i], key);
        } else if Asks(a, key) {
          assert Asks(now[|past|], key);
        } else {
          ListedStays(s, a, t);
        }
      }
    }
  }

  lemma {:induction false} RunOutWasAsked(s: State, past: seq<Action>, actions: seq<Action>)
    requires ListedAreLive(s) && OutWasAsked(s, past) && RegisteredOnce(Run(s, actions))
    ensures OutWasAsked(Run(s, actions), past + actions)
    decreases |actions|
  {
    if actions == [] {
      assert past + actions == past;
    } else {
      OnceBefore(Do(s, actions[0]), actions[1..]);
      ListedStep(s, actions[0]);
      StepOutWasAsked(s, past, actions[0]);
      RunOutWasAsked(Do(s, actions[0]), past + [actions[0]], actions[1..]);
      assert past + actions == past + [actions[0]] + actions[1..];
    }
  }

  /** In a run that uses every id once, a session that is registered and has not ended stands in
      the table, unless a cancel message for it or the loss of its connection came in. */
  lemma {:induction false} RunningIsListedUnlessAsked(capacity: nat, actions: seq<Action>, t: nat)
    requires var s := Run(Init(capacity), actions);
             RegisteredOnce(s) && t in s.tasks && MayBeListed(s.tasks[t].phase)
    ensures var s := Run(Init(capacity), actions);
            IsListed(s, t) || WasAsked(actions, KeyOf(s.tasks[t]))
  {
    RunOutWasAsked(Init(capacity), [], actions);
    assert [] + actions == actions;
  }

  // ----- the table of one connection -----

  /** tasks is the part of the table that belongs to the connection, by session id. */
  ghost predicate Shows(tasks: map<string, nat>, conn: nat, s: State) {
    forall id: string ::
      (id in tasks <==> (conn, id) in s.table) && (id in tasks ==> tasks[id] == s.table[(conn, id)])
  }

  lemma {:induction false} AddShows(tasks: map<string, nat>, conn: nat, s: State, t: nat)
    requires Shows(tasks, conn, s) && t in s.tasks && s.tasks[t].phase == Acquired && s.tasks[t].conn == conn
    ensures var id, r := s.tasks[t].id, Do(s, Add(t));
            && (r.tasks[t].phase == Registered <==> id !in tasks)
            && Shows(if id in tasks then tasks else tasks[id := t], conn, r)
  {}

  lemma {:induction false} CancelShows(tasks: map<string, nat>, conn: nat, s: State, id: string)
    requires Shows(tasks, conn, s)
    ensures var r := Do(s, CancelMessage(conn, id));
            && Shows(tasks - {id}, conn, r)
            && r.cancelling == s.cancelling + if id in tasks then {tasks[id]} else {}
  {
    assert s.cancelling + {} == s.cancelling;
  }

  lemma {:induction false} DisconnectShows(tasks: map<string, nat>, conn: nat, s: State)
    requires Shows(tasks, conn, s)
    ensures var r := Do(s, Disconnect(conn));
            Shows(map[], conn, r) && forall id | id in tasks :: tasks[id] in r.cancelling
  {
    var r := Do(s, Disconnect(conn));
    forall id | id in tasks ensures tasks[id] in r.cancelling {
      var k := (conn, id);
      assert k in s.table && k.0 == conn;
    }
  }

  /** What happens on one connection leaves the tables of the others alone. */
  lemma {:induction false} ConnectionsAreApart(tasks: map<string, nat>, conn: nat, s: State, a: Action)
    requires Shows(tasks, conn, s)
    requires match a
             case CancelMessage(c, _) => c != conn
             case Disconnect(c) => c != conn
             case Add(t) => t in s.tasks && s.tasks[t].conn != conn
             case RemoveOwn(t) => t in s.tasks && s.tasks[t].conn != conn
             case _ => true
    ensures Shows(tasks, conn, Do(s, a))
  {}

  /** A session that finishes takes out of the table what a cancel message with its id would. */
  lemma {:induction false} FinishTakesLikeCancel(s: State, t: nat)
    requires t in s.tasks && s.tasks[t].phase == Running([])
    ensures var r, c := Do(s, RemoveOwn(t)), Do(s, CancelMessage(s.tasks[t].conn, s.tasks[t].id));
            r.table == c.table && r.cancelling == c.cancelling
  {}

  // ----- a run that uses an id twice -----

  const SILENT := Task(0, "x", CancelledBeforeRun, Arrived, [])

  function Starts(t: nat): seq<Action> {
    [Arrive(t, 0, "x", true, CancelledBeforeRun), TrySem(t), Add(t), SendAck(t), Launch(t)]
  }

  /** Behind Starts(t): session t runs under the id "x". */
  function Started(s: State, t: nat): State {
    s.(held := s.held + 1,
       tasks := s.tasks[t := SILENT.(phase := Running([Output("", "", true, "")]), sent := [Ack(true)])],
       table := s.table[(0, "x") := t])
  }

  lemma {:induction false} RunConcat(s: State, a: seq<Action>, b: seq<Action>)
    ensures Run(s, a + b) == Run(Run(s, a), b)
    decreases |a|
  {
    if a == [] {
      assert a + b == b;
    } else {
      assert (a + b)[1..] == a[1..] + b;
      RunConcat(Do(s, a[0]), a[1..], b);
    }
  }

  lemma {:induction false} RunFirst(s: State, a: Action, rest: seq<Action>)
    ensures Run(s, [a] + rest) == Run(Do(s, a), rest)
  {
    assert ([a] + rest)[1..] == rest;
  }

  lemma {:induction false} StartsRun(s: State, t: nat)
    requires t !in s.tasks && s.held < s.capacity && (0, "x") !in s.table
    ensures Run(s, Starts(t)) == Started(s, t)
  {
    var s1 := s.(tasks := s.tasks[t := SILENT]);
    var s2 := s.(tasks := s.tasks[t := SILENT.(phase := Acquired)], held := s.held + 1);
    var s3 := s2.(tasks := s.tasks[t := SILENT.(phase := Registered)], table := s.table[(0, "x") := t]);
    var s4 := s3.(tasks := s.tasks[t := SILENT.(phase := Acked, sent := [Ack(true)])]);
    var actions := Starts(t);
    assert actions == [actions[0]] + ([actions[1]] + ([actions[2]] + ([actions[3]] + ([actions[4]] + []))));
    FirstSteps(s, s1, s2, t);
    assert s2.tasks[t := s3.tasks[t]] == s3.tasks && s2.tasks[t := s4.tasks[t]] == s4.tasks;
    LastSteps(s2, s3, s4, t);
    assert Script(CancelledBeforeRun) == [Output("", "", true, "")];
    assert s4.tasks[t := Started(s, t).tasks[t]] == Started(s, t).tasks;
    RunFirst(s, actions[0], [actions[1]] + ([actions[2]] + ([actions[3]] + ([actions[4]] + []))));
    RunFirst(s1, actions[1], [actions[2]] + ([actions[3]] + ([actions[4]] + [])));
    RunFirst(s2, actions[2], [actions[3]] + ([actions[4]] + []));
    RunFirst(s3, actions[3], [actions[4]] + []);
    RunFirst(s4, actions[4], []);
  }

  lemma {:induction false} FirstSteps(s: State, s1: State, s2: State, t: nat)
    requires t !in s.tasks && s.held < s.capacity && (0, "x") !in s.table
    requires s1 == s.(tasks := s.tasks[t := SILENT])
    requires s2 == s.(tasks := s.tasks[t := SILENT.(phase := Acquired)], held := s.held + 1)
    ensures Do(s, Arrive(t, 0, "x", true, CancelledBeforeRun)) == s1
    ensures Do(s1, TrySem(t)) == s2
  {
    assert s1.tasks[t := SILENT.(phase := Acquired)] == s2.tasks;
  }

  lemma {:induction false} LastSteps(s2: State, s3: State, s4: State, t: nat)
    requires t in s2.tasks && s2.tasks[t] == SILENT.(phase := Acquired) && (0, "x") !in s2.table
    requires s3 == s2.(tasks := s2.tasks[t := SILENT.(phase := Registered)], table := s2.table[(0, "x") := t])
    requires s4 == s3.(tasks := s2.tasks[t := SILENT.(phase := Acked, sent := [Ack(true)])])
    ensures Do(s2, Add(t)) == s3
    ensures Do(s3, SendAck(t)) == s4
  {
    assert s3.tasks[t].sent + [Ack(true)] == [Ack(true)];
    assert s3.tasks[t := SILENT.(phase := Acked, sent := [Ack(true)])] == s4.tasks;
  }

  /** The table after session 0 was started and cancelled and session 1 was started. */
  function Reused(): State {
    Started(Do(Started(Init(2), 0), CancelMessage(0, "x")), 1)
  }

  lemma {:induction false} RunThree(s: State, a: seq<Action>, b: Action, c: seq<Action>, s1: State, s2: State)
    requires Run(s, a) == s1 && Do(s1, b) == s2
    ensures Run(s, a + ([b] + c)) == Run(s2, c)
  {
    RunConcat(s, a, [b] + c);
    RunFirst(s1, b, c);
  }

  lemma {:induction false} CancelStarted()
    ensures var s := Started(Init(2), 0);
            var r := Do(s, CancelMessage(0, "x"));
            && r.tasks == s.tasks && r.table == map[] && r.held == 1 && r.capacity == 2
  {}

  /** Such a state is reached: session 0 was cancelled and its id used again before it ended. */
  lemma {:induction false} IdReuseIsReachable()
    ensures Reachable(Reused())
  {
    var s1 := Started(Init(2), 0);
    StartsRun(Init(2), 0);
    CancelStarted();
    var s2 := Do(s1, CancelMessage(0, "x"));
    StartsRun(s2, 1);
    RunThree(Init(2), Starts(0), CancelMessage(0, "x"), Starts(1), s1, s2);
  }

  lemma {:induction false} ReusedIsOvertaken()
    ensures var s := Do(Reused(), Emit(0));
            && 0 in s.tasks && s.tasks[0].phase == Running([])
            && 1 in s.tasks && 1 in s.table.Values && KeyOf(s.tasks[0]) == KeyOf(s.tasks[1])
  {
    CancelStarted();
    assert [Output("", "", true, "")][1..] == [];
    assert Reused().table[(0, "x")] == 1;
  }
}
