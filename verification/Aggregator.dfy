/** diagnose/aggregator.go: alerts for one target are collected for a while, then submitted. */
module Aggregator {
  import opened Basics

  datatype Event = Event(status: string, labels: map<string, string>, attrs: map<string, string>, description: string)

  datatype Check = Check(check: string, status: string, currentValue: string, thresholdDesc: string, description: string)

  /** Durations are in nanoseconds. */
  datatype DiagnoseConfig = DiagnoseConfig(enabled: bool, minSeverity: string, timeout: int, cooldown: int)

  datatype Request = Request(
    plugin: string, target: string, events: seq<Event>, checks: seq<Check>, timeout: int, cooldown: int)

  const DEFAULT_TIMEOUT := 60 * SECOND
  const DEFAULT_COOLDOWN := 10 * 60 * SECOND

  function SeverityRank(status: string): nat {
    if status == "Critical" then 3 else if status == "Warning" then 2 else if status == "Info" then 1 else 0
  }

  predicate ShouldTrigger(cfg: DiagnoseConfig, eventStatus: string) {
    cfg.enabled &&
    SeverityRank(eventStatus) >= SeverityRank(if cfg.minSeverity == "" then "Warning" else cfg.minSeverity)
  }

  function Label(e: Event, name: string): string {
    if name in e.labels then e.labels[name] else ""
  }

  function TargetOf(e: Event, plugin: string): string {
    if Label(e, "target") == "" then plugin else Label(e, "target")
  }

  function KeyOf(plugin: string, target: string): string {
    plugin + "::" + target
  }

  /** A call of Submit, with the settings it sees. */
  datatype Call = Call(aiEnabled: bool, event: Event, check: Check, plugin: string, cfg: DiagnoseConfig)

  predicate Accepts(c: Call) {
    c.aiEnabled && c.event.status != "Ok" && ShouldTrigger(c.cfg, c.event.status)
  }

  function CallKey(c: Call): string {
    KeyOf(c.plugin, TargetOf(c.event, c.plugin))
  }

  /** A request that left the window, for the engine or at shutdown. */
  datatype Batch = Batch(request: Request, submitted: bool)

  /** pending and timers are the fields of the aggregator; accepted and gone record what went
      in, in order, and what came out for each key, in order. */
  datatype State = State(
    pending: map<string, Request>, timers: map<string, nat>, nextTimer: nat,
    accepted: seq<Call>, gone: map<string, seq<Batch>>)

  const FRESH := State(map[], map[], 0, [], map[])

  /** The three critical sections, in any order; the callback of a stale timer is a Fire too. */
  datatype Action = Submit(call: Call) | Fire(key: string) | Shutdown

  function Gone(s: State, key: string): seq<Batch> {
    if key in s.gone then s.gone[key] else []
  }

  function NewRequest(c: Call): Request {
    Request(c.plugin, TargetOf(c.event, c.plugin), [c.event], [c.check],
            if c.cfg.timeout == 0 then DEFAULT_TIMEOUT else c.cfg.timeout,
            if c.cfg.cooldown == 0 then DEFAULT_COOLDOWN else c.cfg.cooldown)
  }

  /** A map without some of its keys. */
  function Without<V>(m: map<string, V>, keys: set<string>): map<string, V> {
    map k | k in m && k !in keys :: m[k]
  }

  /** The windows of some keys are closed without a submission. */
  function Dropped(s: State, keys: set<string>): State {
    s.(pending := Without(s.pending, keys), timers := Without(s.timers, keys),
       gone := map k | k in s.gone.Keys + (s.pending.Keys * keys) ::
                 if k in s.pending && k in keys then Gone(s, k) + [Batch(s.pending[k], false)] else Gone(s, k))
  }

  function Do(s: State, a: Action): State {
    match a
    case Submit(c) =>
      if !Accepts(c) then s
      else
        var key := CallKey(c);
        if key in s.pending then
          var r := s.pending[key];
          s.(pending := s.pending[key := r.(events := r.events + [c.event], checks := r.checks + [c.check])],
             accepted := s.accepted + [c])
        else
          s.(pending := s.pending[key := NewRequest(c)],
             timers := s.timers[key := s.nextTimer], nextTimer := s.nextTimer + 1,
             accepted := s.accepted + [c])
    case Fire(key) =>
      s.(pending := Without(s.pending, {key}), timers := Without(s.timers, {key}),
         gone := if key in s.pending then s.gone[key := Gone(s, key) + [Batch(s.pending[key], true)]] else s.gone)
    case Shutdown => Dropped(s, s.timers.Keys)
  }

  function Run(s: State, actions: seq<Action>): State {
    if actions == [] then s else Do(Run(s, actions[..|actions| - 1]), actions[|actions| - 1])
  }

  // ----- conservation -----

  function Pairs(r: Request): seq<(Event, Check)> {
    seq(|r.events|, i requires 0 <= i < |r.events| => (r.events[i], if i < |r.checks| then r.checks[i] else Check("", "", "", "", "")))
  }

  function PairsOut(bs: seq<Batch>): seq<(Event, Check)> {
    if bs == [] then [] else PairsOut(bs[..|bs| - 1]) + Pairs(bs[|bs| - 1].request)
  }

  function PairsPending(s: State, key: string): seq<(Event, Check)> {
    if key in s.pending then Pairs(s.pending[key]) else []
  }

  function PairsIn(calls: seq<Call>, key: string): seq<(Event, Check)> {
    if calls == [] then []
    else
      var c := calls[|calls| - 1];
      PairsIn(calls[..|calls| - 1], key) + if CallKey(c) == key then [(c.event, c.check)] else []
  }

  ghost predicate Aligned(r: Request) {
    |r.events| == |r.checks| > 0
  }

  /** For every key: what went in is what came out followed by what is pending, in order. */
  ghost predicate Conserved(s: State) {
    forall key :: PairsIn(s.accepted, key) == PairsOut(Gone(s, key)) + PairsPending(s, key)
  }

  ghost predicate Shaped(s: State) {
    && s.pending.Keys == s.timers.Keys
    && (forall key | key in s.pending ::
          Aligned(s.pending[key]) && KeyOf(s.pending[key].plugin, s.pending[key].target) == key)
    && (forall key, b | key in s.gone && b in s.gone[key] :: Aligned(b.request))
  }

  ghost predicate Inv(s: State) {
    Shaped(s) && Conserved(s)
  }

  lemma {:induction false} PairsGrow(r: Request, e: Event, c: Check)
    requires |r.events| == |r.checks|
    ensures Pairs(r.(events := r.events + [e], checks := r.checks + [c])) == Pairs(r) + [(e, c)]
  {}

  lemma {:induction false} PairsOutStep(bs: seq<Batch>, b: Batch)
    ensures PairsOut(bs + [b]) == PairsOut(bs) + Pairs(b.request)
  {
    assert (bs + [b])[..|bs|] == bs;
  }

  lemma {:induction false} SubmitConserves(s: State, c: Call)
    requires Inv(s) && Accepts(c)
    ensures Conserved(Do(s, Submit(c)))
  {
    var after := Do(s, Submit(c));
    assert after.accepted[..|s.accepted|] == s.accepted;
    var key := CallKey(c);
    if key in s.pending {
      PairsGrow(s.pending[key], c.event, c.check);
    } else {
      assert Pairs(NewRequest(c)) == [(c.event, c.check)];
    }
    forall k ensures PairsIn(after.accepted, k) == PairsOut(Gone(after, k)) + PairsPending(after, k) {
      assert PairsIn(s.accepted, k) == PairsOut(Gone(s, k)) + PairsPending(s, k);
    }
  }

  lemma {:induction false} FireConserves(s: State, key: string)
    requires Inv(s)
    ensures Conserved(Do(s, Fire(key)))
  {
    var after := Do(s, Fire(key));
    if key in s.pending {
      PairsOutStep(Gone(s, key), Batch(s.pending[key], true));
      assert Gone(after, key) == Gone(s, key) + [Batch(s.pending[key], true)];
    }
    forall k ensures PairsIn(after.accepted, k) == PairsOut(Gone(after, k)) + PairsPending(after, k) {
      assert PairsIn(s.accepted, k) == PairsOut(Gone(s, k)) + PairsPending(s, k);
      if k != key {
        assert Gone(after, k) == Gone(s, k) && PairsPending(after, k) == PairsPending(s, k);
      } else if key in s.pending {
        assert PairsPending(after, key) == [];
      }
    }
  }

  lemma {:induction false} ShutdownConserves(s: State)
    requires Inv(s)
    ensures Conserved(Do(s, Shutdown))
  {
    var after := Do(s, Shutdown);
    forall k ensures PairsIn(after.accepted, k) == PairsOut(Gone(after, k)) + PairsPending(after, k) {
      assert PairsIn(s.accepted, k) == PairsOut(Gone(s, k)) + PairsPending(s, k);
      if k in s.pending {
        PairsOutStep(Gone(s, k), Batch(s.pending[k], false));
      } else {
        assert Gone(after, k) == Gone(s, k);
      }
    }
  }

  lemma {:induction false} StepKeepsShape(s: State, a: Action)
    requires Shaped(s)
    ensures Shaped(Do(s, a))
  {}

  lemma {:induction false} StepConserves(s: State, a: Action)
    requires Shaped(s) && Conserved(s)
    ensures Conserved(Do(s, a))
  {
    match a
    case Submit(c) => if Accepts(c) { SubmitConserves(s, c); }
    case Fire(key) => FireConserves(s, key);
    case Shutdown => ShutdownConserves(s);
  }

  /** Under any interleaving of Submit, timer callbacks (stale ones too) and Shutdown: pending
      and timers have the same keys; every request pairs each event with its check; and for
      each key the accepted events, in order, are those submitted or dropped followed by those
      pending, so that each is in exactly one place. */
  lemma {:induction false} RunKeepsInv(actions: seq<Action>)
    ensures Inv(Run(FRESH, actions))
  {
    if actions != [] {
      var s, a := Run(FRESH, actions[..|actions| - 1]), actions[|actions| - 1];
      RunKeepsInv(actions[..|actions| - 1]);
      StepKeepsShape(s, a);
      StepConserves(s, a);
    }
  }

  /** Shutdown leaves nothing pending. */
  lemma {:induction false} ShutdownEmpties(s: State)
    requires Shaped(s)
    ensures Do(s, Shutdown).pending == map[] && Do(s, Shutdown).timers == map[]
  {}

  // ----- what Submit does, by the fields of the call -----

  /** The call is for an enabled diagnosis of an alert that is severe enough; with an unknown
      minimum every alert is. */
  predicate Wanted(c: Call) {
    && c.aiEnabled && c.cfg.enabled && c.event.status != "Ok"
    && (c.cfg.minSeverity == "" || c.cfg.minSeverity == "Warning" ==> c.event.status == "Critical" || c.event.status == "Warning")
    && (c.cfg.minSeverity == "Critical" ==> c.event.status == "Critical")
    && (c.cfg.minSeverity == "Info" ==>
          c.event.status == "Critical" || c.event.status == "Warning" || c.event.status == "Info")
  }

  predicate HasTarget(e: Event) {
    "target" in e.labels && e.labels["target"] != ""
  }

  /** An unwanted event changes nothing.  A wanted one goes behind the events of the window of
      its plugin and target, which keeps its settings, or opens a window with the settings of
      the call, one minute and ten minutes where it gives none.  Other windows stay. */
  ghost predicate Submitted(s: State, c: Call, r: State) {
    var target := if HasTarget(c.event) then c.event.labels["target"] else c.plugin;
    var key := c.plugin + "::" + target;
    if !Wanted(c) then r == s
    else
      && r.accepted == s.accepted + [c] && r.gone == s.gone
      && r.pending.Keys == s.pending.Keys + {key}
      && (forall k | k in s.pending && k != key :: r.pending[k] == s.pending[k])
      && var w := r.pending[key];
         if key in s.pending then
           var o := s.pending[key];
           && w.events == o.events + [c.event] && w.checks == o.checks + [c.check]
           && w.plugin == o.plugin && w.target == o.target && w.timeout == o.timeout && w.cooldown == o.cooldown
           && r.timers == s.timers
         else
           && w.events == [c.event] && w.checks == [c.check] && w.plugin == c.plugin && w.target == target
           && w.timeout == (if c.cfg.timeout == 0 then 60_000_000_000 else c.cfg.timeout)
           && w.cooldown == (if c.cfg.cooldown == 0 then 600_000_000_000 else c.cfg.cooldown)
           && r.timers.Keys == s.timers.Keys + {key}
  }

  lemma {:induction false} AcceptsIff(c: Call)
    ensures Accepts(c) <==> Wanted(c)
  {}

  lemma {:induction false} SubmitIsSubmitted(s: State, c: Call)
    ensures Submitted(s, c, Do(s, Submit(c)))
  {
    AcceptsIff(c);
    assert CallKey(c) == c.plugin + "::" + if HasTarget(c.event) then c.event.labels["target"] else c.plugin;
  }

  // ----- the aggregator object -----

  class DiagnoseAggregator {
    var pending: map<string, Request>
    var timers: map<string, nat>
    var nextTimer: nat
    ghost var accepted: seq<Call>
    ghost var gone: map<string, seq<Batch>>

    ghost function View(): State
      reads this
    {
      State(pending, timers, nextTimer, accepted, gone)
    }

    constructor ()
      ensures View() == FRESH
    {
      pending, timers, nextTimer, accepted, gone := map[], map[], 0, [], map[];
    }

    method SubmitEvent(c: Call)
      modifies this
      ensures View() == Do(old(View()), Submit(c))
      ensures Submitted(old(View()), c, View())
    {
      SubmitIsSubmitted(View(), c);
      if !c.aiEnabled {
        return;
      }
      if c.event.status == "Ok" {
        return;
      }
      if !ShouldTrigger(c.cfg, c.event.status) {
        return;
      }
      var target := Label(c.event, "target");
      if target == "" {
        target := c.plugin;
      }
      var key := KeyOf(c.plugin, target);
      accepted := accepted + [c];
      if key in pending {
        var req := pending[key];
        pending := pending[key := req.(events := req.events + [c.event], checks := req.checks + [c.check])];
        return;
      }
      var timeout := c.cfg.timeout;
      if timeout == 0 {
        timeout := 60 * SECOND;
      }
      var cooldown := c.cfg.cooldown;
      if cooldown == 0 {
        cooldown := 10 * 60 * SECOND;
      }
      pending := pending[key := Request(c.plugin, target, [c.event], [c.check], timeout, cooldown)];
      timers := timers[key := nextTimer];
      nextTimer := nextTimer + 1;
    }

    /** The callback of a timer that was armed for key, however late it gets the lock; req is
        what it then hands to the engine. */
    method OnTimer(key: string) returns (req: seq<Request>)
      modifies this`pending, this`timers, this`gone
      ensures View() == Do(old(View()), Fire(key))
      ensures req == if key in old(pending) then [old(pending)[key]] else []
      ensures pending.Keys == old(pending.Keys) - {key} && timers.Keys == old(timers.Keys) - {key}
      ensures forall k | k in pending :: pending[k] == old(pending)[k]
    {
      req := [];
      if key in pending {
        req := [pending[key]];
        gone := gone[key := Gone(View(), key) + [Batch(pending[key], true)]];
      }
      pending := Without(pending, {key});
      timers := Without(timers, {key});
    }

    method ShutDown()
      modifies this`pending, this`timers, this`gone
      ensures View() == Do(old(View()), Shutdown)
      ensures old(Shaped(View())) ==> pending == map[] && timers == map[]
    {
      if Shaped(View()) {
        ShutdownEmpties(View());
      }
      gone := Dropped(View(), timers.Keys).gone;
      var closed := timers;
      pending, timers := CloseWindows(pending, timers);
      assert timers == Without(closed, closed.Keys);
    }
  }

  /** The loop of Shutdown over the armed timers. */
  method CloseWindows(pending0: map<string, Request>, timers0: map<string, nat>)
    returns (pending: map<string, Request>, timers: map<string, nat>)
    ensures pending == Without(pending0, timers0.Keys) && timers == map[]
  {
    pending, timers := pending0, timers0;
    var left := timers0.Keys;
    while left != {}
      invariant left <= timers0.Keys
      invariant timers == Without(timers0, timers0.Keys - left)
      invariant pending == Without(pending0, timers0.Keys - left)
      decreases |left|
    {
      var key :| key in left;
      timers := Without(timers, {key});
      pending := Without(pending, {key});
      left := left - {key};
    }
  }
}
