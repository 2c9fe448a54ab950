/** server/session.go: the table of active remote sessions. */
module SessionManager {
  import opened SessionMachine

  /** The cancelled flag stands for the session's context. */
  class RemoteSession {
    const sessionId: string
    var cancelled: bool
    /** The start message it comes from, as the session machine counts them. */
    ghost const task: nat

    constructor (sessionId: string, ghost task: nat)
      ensures this.sessionId == sessionId && this.task == task && !cancelled
    {
      this.sessionId, this.task := sessionId, task;
      cancelled := false;
    }

    method Cancel()
      modifies this
      ensures cancelled
    {
      cancelled := true;
    }
  }

  /** The sessions of one connection. */
  class Manager {
    ghost const conn: nat
    var sessions: map<string, RemoteSession>

    ghost predicate Valid()
      reads this
    {
      forall id | id in sessions :: sessions[id].sessionId == id
    }

    /** The table as the session machine sees it. */
    ghost function Tasks(): map<string, nat>
      reads this
    {
      map id | id in sessions :: sessions[id].task
    }

    constructor (ghost conn: nat)
      ensures Valid() && sessions == map[] && this.conn == conn
    {
      this.conn := conn;
      sessions := map[];
    }

    /** The step Add of the machine; the answer is whether the session is registered now. */
    method Add(s: RemoteSession, ghost m: State) returns (ok: bool)
      requires Valid() && Shows(Tasks(), conn, m)
      requires s.task in m.tasks && m.tasks[s.task].phase == Acquired && KeyOf(m.tasks[s.task]) == (conn, s.sessionId)
      modifies this
      ensures Valid() && Shows(Tasks(), conn, Do(m, Action.Add(s.task)))
      ensures ok <==> Do(m, Action.Add(s.task)).tasks[s.task].phase == Registered
      ensures ok == (s.sessionId !in old(sessions))
      ensures sessions == if ok then old(sessions)[s.sessionId := s] else old(sessions)
    {
      AddShows(Tasks(), conn, m, s.task);
      if s.sessionId in sessions {
        return false;
      }
      ghost var tasks := Tasks()[s.sessionId := s.task];
      sessions := sessions[s.sessionId := s];
      assert Tasks() == tasks;
      return true;
    }

    /** The step CancelMessage of the machine, and the table part of RemoveOwn.  Removal is by
        id: whatever session stands under the id is removed and cancelled. */
    method Remove(sessionId: string, ghost m: State)
      requires Valid() && Shows(Tasks(), conn, m)
      modifies this, sessions.Values
      ensures Valid() && Shows(Tasks(), conn, Do(m, CancelMessage(conn, sessionId)))
      ensures sessions == old(sessions) - {sessionId}
      ensures forall s | s in old(sessions.Values) ::
                s.cancelled == (old(s.cancelled) || s.sessionId == sessionId)
      ensures Do(m, CancelMessage(conn, sessionId)).cancelling ==
              m.cancelling + set s | s in old(sessions.Values) && s.sessionId == sessionId :: s.task
    {
      CancelShows(Tasks(), conn, m, sessionId);
      ghost var tasks := Tasks() - {sessionId};
      if sessionId in sessions {
        var s := sessions[sessionId];
        sessions := sessions - {sessionId};
        s.Cancel();
      }
      assert Tasks() == tasks;
    }

    /** The one session registered under the id, or nil if there is none. */
    method Get(sessionId: string) returns (s: RemoteSession?)
      requires Valid()
      ensures s != null ==> s in sessions.Values && s.sessionId == sessionId
      ensures forall t | t in sessions.Values && t.sessionId == sessionId :: s == t
    {
      s := if sessionId in sessions then sessions[sessionId] else null;
    }

    /** The step Disconnect of the machine. */
    method CancelAll(ghost m: State)
      requires Valid() && Shows(Tasks(), conn, m)
      modifies this, sessions.Values
      ensures Valid() && Shows(Tasks(), conn, Do(m, Disconnect(conn))) && sessions == map[]
      ensures forall s | s in old(sessions.Values) :: s.cancelled && s.task in Do(m, Disconnect(conn)).cancelling
    {
      DisconnectShows(Tasks(), conn, m);
      ghost var tasks := Tasks();
      var snapshot := sessions;
      sessions := map[];
      assert Tasks() == map[];
      forall s | s in snapshot.Values ensures s.task in Do(m, Disconnect(conn)).cancelling {
        var id :| id in snapshot && snapshot[id] == s;
        assert tasks[id] == s.task;
      }
      CancelSet(snapshot.Values);
    }
  }

  /** The loop of cancelAll over the snapshot. */
  method CancelSet(snapshot: set<RemoteSession>)
    modifies snapshot
    ensures forall s | s in snapshot :: s.cancelled
  {
    var left := snapshot;
    while left != {}
      invariant left <= snapshot
      invariant forall s | s in snapshot :: s in left || s.cancelled
      decreases |left|
    {
      var s :| s in left;
      s.Cancel();
      left := left - {s};
    }
  }
}
