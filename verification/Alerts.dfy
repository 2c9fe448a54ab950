/** engine/engine.go and engine/cache.go: the life cycle of an alert key. */
module Alerts {
  import opened Basics

  datatype Status = Critical | Warning | Info | Ok | Invalid(text: string)

  /** The alerting settings of an instance; durations are in nanoseconds. */
  datatype Config = Config(
    disabled: bool, forDuration: int, repeatInterval: int, repeatNumber: int,
    disableRecoveryNotification: bool, hasAggregator: bool)

  /** An event as it stands behind clean: its time is set and its key is computed. */
  datatype Alert = Alert(key: string, status: Status, time: int)

  /** A cached event. */
  datatype Entry = Entry(time: int, status: Status, firstFireTime: int, notifyCount: int, lastSent: int)

  datatype Effect =
    | Notified(key: string, time: int, ok: bool)
    | Recovered(key: string, time: int)
    | Diagnosed(key: string, time: int)

  /** One event with the settings of its instance and the answer notify.Forward would give. */
  datatype Input = Input(cfg: Config, alert: Alert, ok: bool)

  // ----- one event -----

  datatype Reaction = Reaction(entry: Option<Entry>, attempted: bool, sent: bool)

  function OnAlert(cfg: Config, cached: Option<Entry>, a: Alert, ok: bool): Reaction {
    match cached
    case None =>
      var e := Entry(a.time, a.status, a.time, 0, 0);
      if cfg.forDuration != 0 then Reaction(Some(e), false, false)
      else if ok then Reaction(Some(e.(lastSent := a.time, notifyCount := 1)), true, true)
      else Reaction(Some(e), true, false)
    case Some(e) =>
      if cfg.forDuration > 0 && a.time - e.firstFireTime < cfg.forDuration / SECOND then Reaction(cached, false, false)
      else if cfg.repeatNumber > 0 && e.notifyCount >= cfg.repeatNumber then Reaction(cached, false, false)
      else if cfg.repeatInterval > 0 && a.time - e.lastSent < cfg.repeatInterval / SECOND then Reaction(cached, false, false)
      else if ok then Reaction(Some(Entry(a.time, a.status, e.firstFireTime, e.notifyCount + 1, a.time)), true, true)
      else Reaction(cached, true, false)
  }

  function When(b: bool, e: Effect): seq<Effect> {
    if b then [e] else []
  }

  datatype KeyState = KeyState(entry: Option<Entry>, diagnosed: bool)

  const QUIET := KeyState(None, false)

  predicate Heard(input: Input) {
    !input.alert.status.Invalid? && !input.cfg.disabled
  }

  /** Is a recovery forwarded? */
  predicate Recovers(cfg: Config, cached: Option<Entry>) {
    cached.Some? && !cfg.disableRecoveryNotification && cached.value.lastSent > 0
  }

  function KeyStep(st: KeyState, input: Input): (KeyState, seq<Effect>) {
    var Input(cfg, a, ok) := input;
    if !Heard(input) then (st, [])
    else if a.status == Ok then
      (QUIET, When(Recovers(cfg, st.entry), Recovered(a.key, a.time)))
    else
      var r := OnAlert(cfg, st.entry, a, ok);
      var diagnose := r.sent && cfg.hasAggregator && !st.diagnosed;
      (KeyState(r.entry, st.diagnosed || diagnose),
       When(r.attempted, Notified(a.key, a.time, r.sent)) + When(diagnose, Diagnosed(a.key, a.time)))
  }

  function KeyRun(st: KeyState, inputs: seq<Input>): (KeyState, seq<Effect>) {
    if inputs == [] then (st, [])
    else
      var n := |inputs| - 1;
      var (before, effects) := KeyRun(st, inputs[..n]);
      var (after, more) := KeyStep(before, inputs[n]);
      (after, effects + more)
  }

  // ----- the whole engine -----

  datatype Global = Global(cache: map<string, Entry>, diagnosed: set<string>)

  function Lookup(g: Global, key: string): Option<Entry> {
    if key in g.cache then Some(g.cache[key]) else None
  }

  function Step(g: Global, input: Input): (Global, seq<Effect>) {
    var Input(cfg, a, ok) := input;
    if !Heard(input) then (g, [])
    else if a.status == Ok then
      var cached := Lookup(g, a.key);
      (Global(g.cache - {a.key}, g.diagnosed - {a.key}),
       When(Recovers(cfg, cached), Recovered(a.key, a.time)))
    else
      var r := OnAlert(cfg, Lookup(g, a.key), a, ok);
      var diagnose := r.sent && cfg.hasAggregator && a.key !in g.diagnosed;
      (Global(if r.entry.Some? then g.cache[a.key := r.entry.value] else g.cache,
              if diagnose then g.diagnosed + {a.key} else g.diagnosed),
       When(r.attempted, Notified(a.key, a.time, r.sent)) + When(diagnose, Diagnosed(a.key, a.time)))
  }

  /** The step of a heard alert, by its reaction. */
  lemma {:induction false} StepOfAlert(g: Global, cfg: Config, a: Alert, ok: bool)
    requires !a.status.Invalid? && !cfg.disabled && a.status != Ok
    ensures var r := OnAlert(cfg, Lookup(g, a.key), a, ok);
            var diagnose := r.sent && cfg.hasAggregator && a.key !in g.diagnosed;
            && r.entry.Some?
            && Step(g, Input(cfg, a, ok)) ==
               (Global(g.cache[a.key := r.entry.value], g.diagnosed + (if diagnose then {a.key} else {})),
                When(r.attempted, Notified(a.key, a.time, r.sent)) + When(diagnose, Diagnosed(a.key, a.time)))
  {
    assert g.diagnosed + {} == g.diagnosed;
  }

  function Run(g: Global, inputs: seq<Input>): (Global, seq<Effect>) {
    if inputs == [] then (g, [])
    else
      var n := |inputs| - 1;
      var (before, effects) := Run(g, inputs[..n]);
      var (after, more) := Step(before, inputs[n]);
      (after, effects + more)
  }

  lemma {:induction false} RunExtends(g: Global, inputs: seq<Input>, input: Input)
    ensures var (before, effects) := Run(g, inputs);
            Run(g, inputs + [input]) == (Step(before, input).0, effects + Step(before, input).1)
  {
    assert (inputs + [input])[..|inputs|] == inputs;
  }

  /** The runs of two queues, one behind the other, are one run. */
  lemma {:induction false} RunAppends(g: Global, past: seq<Input>, more: seq<Input>)
    ensures var (before, effects) := Run(g, past);
            var (after, added) := Run(before, more);
            Run(g, past + more) == (after, effects + added)
    decreases |more|
  {
    var (before, effects) := Run(g, past);
    if more == [] {
      assert past + more == past && effects + [] == effects;
    } else {
      var init, last := more[..|more| - 1], more[|more| - 1];
      var (middle, mine) := Run(before, init);
      RunAppends(g, past, init);
      RunExtends(g, past + init, last);
      RunExtends(before, init, last);
      Assoc(past, init, [last]);
      Assoc(effects, mine, Step(middle, last).1);
      assert more == init + [last];
    }
  }

  // ----- key independence -----

  function Project(g: Global, key: string): KeyState {
    KeyState(Lookup(g, key), key in g.diagnosed)
  }

  function InputsOf(inputs: seq<Input>, key: string): seq<Input> {
    if inputs == [] then []
    else
      var n := |inputs| - 1;
      InputsOf(inputs[..n], key) + if inputs[n].alert.key == key then [inputs[n]] else []
  }

  function Picked(effects: seq<Effect>, p: Effect -> bool): seq<Effect> {
    if effects == [] then [] else When(p(effects[0]), effects[0]) + Picked(effects[1..], p)
  }

  lemma {:induction false} PickedAppend(a: seq<Effect>, b: seq<Effect>, p: Effect -> bool)
    ensures Picked(a + b, p) == Picked(a, p) + Picked(b, p)
  {
    if a == [] {
      assert a + b == b;
    } else {
      assert (a + b)[1..] == a[1..] + b;
      PickedAppend(a[1..], b, p);
    }
  }

  lemma {:induction false} PickedWhen(b: bool, e: Effect, p: Effect -> bool)
    ensures Picked(When(b, e), p) == When(b && p(e), e)
  {
    assert [e][1..] == [];
  }

  lemma {:induction false} PickedPair(b: bool, e: Effect, c: bool, d: Effect, p: Effect -> bool)
    ensures Picked(When(b, e) + When(c, d), p) == When(b && p(e), e) + When(c && p(d), d)
  {
    PickedAppend(When(b, e), When(c, d), p);
    PickedWhen(b, e, p);
    PickedWhen(c, d, p);
  }

  function OfKey(key: string): Effect -> bool {
    (e: Effect) => e.key == key
  }

  function EffectsOf(effects: seq<Effect>, key: string): seq<Effect> {
    Picked(effects, OfKey(key))
  }

  lemma {:induction false} StepEffects(g: Global, input: Input, key: string)
    ensures var effects := Step(g, input).1;
            EffectsOf(effects, key) == if input.alert.key == key then effects else []
  {
    var Input(cfg, a, ok) := input;
    var r := OnAlert(cfg, Lookup(g, a.key), a, ok);
    PickedWhen(Recovers(cfg, Lookup(g, a.key)), Recovered(a.key, a.time), OfKey(key));
    PickedPair(r.attempted, Notified(a.key, a.time, r.sent),
               r.sent && cfg.hasAggregator && a.key !in g.diagnosed, Diagnosed(a.key, a.time), OfKey(key));
  }

  lemma {:induction false} StepProjects(g: Global, input: Input, key: string)
    ensures var (after, effects) := Step(g, input);
            if input.alert.key == key
            then (Project(after, key), effects) == KeyStep(Project(g, key), input)
            else Project(after, key) == Project(g, key)
  {}

  /** What happens to a key depends on the events of that key alone. */
  lemma {:induction false} KeyIndependence(g: Global, inputs: seq<Input>, key: string)
    ensures var (after, effects) := Run(g, inputs);
            (Project(after, key), EffectsOf(effects, key)) == KeyRun(Project(g, key), InputsOf(inputs, key))
  {
    if inputs != [] {
      var n := |inputs| - 1;
      KeyIndependence(g, inputs[..n], key);
      var (before, effects) := Run(g, inputs[..n]);
      StepProjects(before, inputs[n], key);
      StepEffects(before, inputs[n], key);
      PickedAppend(effects, Step(before, inputs[n]).1, OfKey(key));
      var mine := InputsOf(inputs[..n], key);
      if inputs[n].alert.key == key {
        assert (mine + [inputs[n]])[..|mine|] == mine;
      } else {
        assert InputsOf(inputs, key) == mine;
        assert EffectsOf(Run(g, inputs).1, key) == EffectsOf(effects, key);
      }
    }
  }

  /** A diagnosed key is always cached, whatever the settings of the instances are. */
  lemma {:induction false} DiagnosedIsCached(inputs: seq<Input>)
    ensures var g := Run(Global(map[], {}), inputs).0; g.diagnosed <= g.cache.Keys
  {
    if inputs != [] {
      DiagnosedIsCached(inputs[..|inputs| - 1]);
    }
  }

  // ----- episodes -----

  /** A successful send, with the settings under which it was made. */
  datatype Send = Send(cfg: Config, time: int, status: Status)

  /** What an observer of one key sees since its last recovery: the alert that raised it, the
      successful sends, and how many diagnoses were asked for. */
  datatype Episode = Episode(raised: Option<Alert>, sends: seq<Send>, diagnoses: nat)

  const NO_EPISODE := Episode(None, [], 0)

  predicate IsSend(e: Effect) {
    e.Notified? && e.ok
  }

  predicate IsDiagnosis(e: Effect) {
    e.Diagnosed?
  }

  function Sends(cfg: Config, status: Status, effects: seq<Effect>): seq<Send> {
    seq(|effects|, i requires 0 <= i < |effects| => Send(cfg, effects[i].time, status))
  }

  function Observed(ep: Episode, input: Input, effects: seq<Effect>): Episode {
    if input.alert.status.Invalid? || input.cfg.disabled then ep
    else if input.alert.status == Ok then NO_EPISODE
    else Episode(if ep.raised.None? then Some(input.alert) else ep.raised,
                 ep.sends + Sends(input.cfg, input.alert.status, Picked(effects, IsSend)),
                 ep.diagnoses + |Picked(effects, IsDiagnosis)|)
  }

  function EpisodeAfter(inputs: seq<Input>): Episode {
    if inputs == [] then NO_EPISODE
    else
      var n := |inputs| - 1;
      var before := KeyRun(QUIET, inputs[..n]).0;
      Observed(EpisodeAfter(inputs[..n]), inputs[n], KeyStep(before, inputs[n]).1)
  }

  function LastSend(ep: Episode): int {
    if ep.sends == [] then 0 else ep.sends[|ep.sends| - 1].time
  }

  /** Was a diagnosis due in this episode? */
  predicate Reported(ep: Episode) {
    exists i | 0 <= i < |ep.sends| :: ep.sends[i].cfg.hasAggregator
  }

  /** The i-th send keeps the settings under which it was made. */
  predicate SendKept(ep: Episode, i: nat)
    requires i < |ep.sends| && ep.raised.Some?
  {
    var Send(cfg, time, _) := ep.sends[i];
    && (cfg.repeatNumber > 0 ==> i < cfg.repeatNumber)
    && (cfg.repeatInterval > 0 && i > 0 ==> time - ep.sends[i - 1].time >= cfg.repeatInterval / 1_000_000_000)
    && (cfg.forDuration > 0 ==> time - ep.raised.value.time >= cfg.forDuration / 1_000_000_000)
  }

  /** The promises of an episode. */
  ghost predicate Promises(st: KeyState, ep: Episode) {
    && (st.entry.None? ==> ep == NO_EPISODE && !st.diagnosed)
    && (st.entry.Some? ==>
          var e := st.entry.value;
          && ep.raised.Some? && ep.raised.value.time == e.firstFireTime
          && (if ep.sends == [] then e.time == ep.raised.value.time && e.status == ep.raised.value.status
              else e.time == LastSend(ep) && e.status == ep.sends[|ep.sends| - 1].status)
          && e.notifyCount == |ep.sends|
          && e.lastSent == LastSend(ep)
          && (forall i: nat | i < |ep.sends| :: SendKept(ep, i))
          && ep.diagnoses == (if st.diagnosed then 1 else 0)
          && (st.diagnosed <==> Reported(ep)))
  }

  /** The episode behind an alert. */
  function Extended(ep: Episode, cfg: Config, a: Alert, sent: bool, diagnose: bool): Episode {
    Episode(if ep.raised.None? then Some(a) else ep.raised,
            if sent then ep.sends + [Send(cfg, a.time, a.status)] else ep.sends,
            ep.diagnoses + (if diagnose then 1 else 0))
  }

  lemma {:induction false} ObservedAlert(st: KeyState, ep: Episode, input: Input)
    requires Heard(input) && input.alert.status != Ok
    ensures var r := OnAlert(input.cfg, st.entry, input.alert, input.ok);
            var diagnose := r.sent && input.cfg.hasAggregator && !st.diagnosed;
            && KeyStep(st, input).0 == KeyState(r.entry, st.diagnosed || diagnose)
            && Observed(ep, input, KeyStep(st, input).1) == Extended(ep, input.cfg, input.alert, r.sent, diagnose)
  {
    var Input(cfg, a, ok) := input;
    var r := OnAlert(cfg, st.entry, a, ok);
    var diagnose := r.sent && cfg.hasAggregator && !st.diagnosed;
    var n, d := Notified(a.key, a.time, r.sent), Diagnosed(a.key, a.time);
    PickedPair(r.attempted, n, diagnose, d, IsSend);
    PickedPair(r.attempted, n, diagnose, d, IsDiagnosis);
    assert Sends(cfg, a.status, When(r.sent, n)) == if r.sent then [Send(cfg, a.time, a.status)] else [];
    assert ep.sends + [] == ep.sends;
  }

  lemma {:induction false} AlertKeepsPromises(st: KeyState, ep: Episode, cfg: Config, a: Alert, ok: bool)
    requires Promises(st, ep)
    ensures var r := OnAlert(cfg, st.entry, a, ok);
            var diagnose := r.sent && cfg.hasAggregator && !st.diagnosed;
            Promises(KeyState(r.entry, st.diagnosed || diagnose), Extended(ep, cfg, a, r.sent, diagnose))
  {
    var r := OnAlert(cfg, st.entry, a, ok);
    if r.sent {
      var diagnose := cfg.hasAggregator && !st.diagnosed;
      var next, n := Extended(ep, cfg, a, true, diagnose), |ep.sends|;
      assert next.sends[n] == Send(cfg, a.time, a.status);
      forall i: nat | i < n ensures SendKept(next, i) {
        assert SendKept(ep, i);
      }
      assert SendKept(next, n);
      assert Reported(next) <==> Reported(ep) || cfg.hasAggregator by {
        if Reported(ep) {
          var i :| 0 <= i < n && ep.sends[i].cfg.hasAggregator;
          assert next.sends[i] == ep.sends[i];
        }
      }
    }
  }

  lemma {:induction false} StepKeepsPromises(st: KeyState, ep: Episode, input: Input)
    requires Promises(st, ep)
    ensures Promises(KeyStep(st, input).0, Observed(ep, input, KeyStep(st, input).1))
  {
    if Heard(input) && input.alert.status != Ok {
      ObservedAlert(st, ep, input);
      AlertKeepsPromises(st, ep, input.cfg, input.alert, input.ok);
    }
  }

  /** In every run of a key, whatever settings its events come with: the cached counters are
      those of the observed episode, each send keeps the repeat number, the repeat interval and
      the "for" duration under which it was made, and there is one diagnosis if any send could
      ask for one. */
  lemma {:induction false} EpisodesKeepPromises(inputs: seq<Input>)
    ensures Promises(KeyRun(QUIET, inputs).0, EpisodeAfter(inputs))
  {
    if inputs != [] {
      var n := |inputs| - 1;
      EpisodesKeepPromises(inputs[..n]);
      StepKeepsPromises(KeyRun(QUIET, inputs[..n]).0, EpisodeAfter(inputs[..n]), inputs[n]);
    }
  }

  /** The same for every key of the whole engine, over any interleaving of keys. */
  lemma {:induction false} EngineKeepsPromises(inputs: seq<Input>, key: string)
    ensures Promises(Project(Run(Global(map[], {}), inputs).0, key), EpisodeAfter(InputsOf(inputs, key)))
  {
    KeyIndependence(Global(map[], {}), inputs, key);
    EpisodesKeepPromises(InputsOf(inputs, key));
  }

  /** Is an alert at this time to be sent, as an observer of the episode would decide? */
  predicate Due(cfg: Config, ep: Episode, time: int) {
    match ep.raised
    case None => cfg.forDuration == 0
    case Some(raised) =>
      && (cfg.forDuration > 0 ==> time - raised.time >= cfg.forDuration / 1_000_000_000)
      && (cfg.repeatNumber > 0 ==> |ep.sends| < cfg.repeatNumber)
      && (cfg.repeatInterval > 0 ==> time - LastSend(ep) >= cfg.repeatInterval / 1_000_000_000)
  }

  /** What an event causes, by the episode it falls into. */
  function Expected(input: Input, ep: Episode): seq<Effect> {
    var Input(cfg, a, ok) := input;
    if a.status.Invalid? || cfg.disabled then []
    else if a.status == Ok then When(!cfg.disableRecoveryNotification && LastSend(ep) > 0, Recovered(a.key, a.time))
    else When(Due(cfg, ep, a.time), Notified(a.key, a.time, ok)) +
         When(Due(cfg, ep, a.time) && ok && cfg.hasAggregator && !Reported(ep), Diagnosed(a.key, a.time))
  }

  /** ... and nothing is withheld: behind any run, an alert is sent exactly when it is due, a
      diagnosis is asked for exactly at the first successful send of an episode that finds an
      aggregator, and a recovery is forwarded exactly when the last successful send has a
      positive time. */
  lemma {:induction false} EpisodeDecidesEffects(inputs: seq<Input>, input: Input)
    ensures KeyStep(KeyRun(QUIET, inputs).0, input).1 == Expected(input, EpisodeAfter(inputs))
  {
    EpisodesKeepPromises(inputs);
    PromisesDecide(KeyRun(QUIET, inputs).0, EpisodeAfter(inputs), input);
  }

  lemma {:induction false} PromisesDecide(st: KeyState, ep: Episode, input: Input)
    requires Promises(st, ep)
    ensures KeyStep(st, input).1 == Expected(input, ep)
  {
    var Input(cfg, a, ok) := input;
    if Heard(input) && a.status != Ok {
      var r := OnAlert(cfg, st.entry, a, ok);
      assert r.attempted <==> Due(cfg, ep, a.time);
      assert r.sent <==> r.attempted && ok;
      assert st.diagnosed <==> Reported(ep);
    }
  }

  // ----- sends and recoveries -----

  /** Effects that reached a notifier, as an alert or as a recovery. */
  predicate IsDelivery(e: Effect) {
    IsSend(e) || e.Recovered?
  }

  /** (A+ R)* A*: every recovery stands directly behind an alert. */
  ghost predicate Cyclic(t: seq<Effect>) {
    forall i | 0 <= i < |t| :: t[i].Recovered? ==> i > 0 && IsSend(t[i - 1])
  }

  predicate EndsInSend(t: seq<Effect>) {
    t != [] && IsSend(t[|t| - 1])
  }

  predicate IsSent(st: KeyState) {
    st.entry.Some? && st.entry.value.lastSent > 0
  }

  /** With recovery notifications on and positive times, what reaches the notifiers for a key
      is (A+ R)* A*, and it ends in A exactly while the open episode has been sent. */
  lemma {:induction false} DeliveriesAreCyclic(inputs: seq<Input>)
    requires forall i | 0 <= i < |inputs| ::
               !inputs[i].cfg.disableRecoveryNotification && inputs[i].alert.time > 0
    ensures var (st, effects) := KeyRun(QUIET, inputs);
            var t := Picked(effects, IsDelivery);
            Cyclic(t) && (EndsInSend(t) <==> IsSent(st))
  {
    if inputs != [] {
      var n := |inputs| - 1;
      DeliveriesAreCyclic(inputs[..n]);
      var (before, effects) := KeyRun(QUIET, inputs[..n]);
      PickedAppend(effects, KeyStep(before, inputs[n]).1, IsDelivery);
      StepStaysCyclic(before, Picked(effects, IsDelivery), inputs[n]);
    }
  }

  /** The same for every key of the whole engine: behind any queues of events with positive
      times, and those are what PushRawEvents makes of events without a negative time. */
  lemma {:induction false} EngineDeliveriesAreCyclic(inputs: seq<Input>, key: string)
    requires forall x | x in inputs :: !x.cfg.disableRecoveryNotification && x.alert.time > 0
    ensures Cyclic(Picked(EffectsOf(Run(Global(map[], {}), inputs).1, key), IsDelivery))
  {
    KeyIndependence(Global(map[], {}), inputs, key);
    InputsOfIn(inputs, key);
    DeliveriesAreCyclic(InputsOf(inputs, key));
  }

  lemma {:induction false} InputsOfIn(inputs: seq<Input>, key: string)
    ensures forall x | x in InputsOf(inputs, key) :: x in inputs
  {
    if inputs != [] {
      InputsOfIn(inputs[..|inputs| - 1], key);
    }
  }

  lemma {:induction false} StepStaysCyclic(st: KeyState, t: seq<Effect>, input: Input)
    requires !input.cfg.disableRecoveryNotification && input.alert.time > 0
    requires Cyclic(t) && (EndsInSend(t) <==> IsSent(st))
    ensures var t' := t + Picked(KeyStep(st, input).1, IsDelivery);
            Cyclic(t') && (EndsInSend(t') <==> IsSent(KeyStep(st, input).0))
  {
    var Input(cfg, a, ok) := input;
    var r := OnAlert(cfg, st.entry, a, ok);
    DeliveriesOfStep(st, input);
    SentByAlert(cfg, st.entry, a, ok);
    if Heard(input) && a.status == Ok {
      CyclicExtends(t, Recovers(cfg, st.entry), Recovered(a.key, a.time));
    } else if Heard(input) {
      CyclicExtends(t, r.sent, Notified(a.key, a.time, true));
    } else {
      assert t + [] == t;
    }
  }

  lemma {:induction false} SentByAlert(cfg: Config, entry: Option<Entry>, a: Alert, ok: bool)
    requires a.time > 0
    ensures var r := OnAlert(cfg, entry, a, ok);
            && r.entry.Some?
            && (r.entry.value.lastSent > 0 <==> r.sent || (entry.Some? && entry.value.lastSent > 0))
  {}

  lemma {:induction false} CyclicExtends(t: seq<Effect>, b: bool, e: Effect)
    requires Cyclic(t) && (b && e.Recovered? ==> EndsInSend(t))
    ensures Cyclic(t + When(b, e))
    ensures EndsInSend(t + When(b, e)) <==> if b then IsSend(e) else EndsInSend(t)
  {
    assert t + [] == t;
  }

  lemma {:induction false} DeliveriesOfStep(st: KeyState, input: Input)
    ensures var Input(cfg, a, ok) := input;
            var r := OnAlert(cfg, st.entry, a, ok);
            Picked(KeyStep(st, input).1, IsDelivery) ==
            if !Heard(input) then []
            else if a.status == Ok then When(Recovers(cfg, st.entry), Recovered(a.key, a.time))
            else When(r.sent, Notified(a.key, a.time, true))
  {
    var Input(cfg, a, ok) := input;
    var r := OnAlert(cfg, st.entry, a, ok);
    PickedWhen(Recovers(cfg, st.entry), Recovered(a.key, a.time), IsDelivery);
    PickedPair(r.attempted, Notified(a.key, a.time, r.sent),
               r.sent && cfg.hasAggregator && !st.diagnosed, Diagnosed(a.key, a.time), IsDelivery);
  }

  // ----- the engine over mutable events -----

  class Event {
    const key: string
    const status: Status
    var time: int
    var firstFireTime: int
    var notifyCount: int
    var lastSent: int

    constructor (key: string, status: Status, time: int)
      ensures this.key == key && this.status == status && this.time == time
      ensures firstFireTime == 0 && Unsent()
    {
      this.key, this.status, this.time := key, status, time;
      firstFireTime, notifyCount, lastSent := 0, 0, 0;
    }

    /** An event as plugins push it. */
    predicate Unsent()
      reads this
    {
      notifyCount == 0 && lastSent == 0
    }

    function View(): Entry
      reads this
    {
      Entry(time, status, firstFireTime, notifyCount, lastSent)
    }
  }

  class Engine {
    var records: map<string, Event>
    var diagnosedKeys: set<string>
    ghost var log: seq<Effect>

    ghost predicate Valid()
      reads this
    {
      forall k | k in records :: records[k].key == k
    }

    ghost function State(): Global
      reads this, records.Values
    {
      Global(map k | k in records :: records[k].View(), diagnosedKeys)
    }

    constructor ()
      ensures Valid() && State() == Global(map[], {}) && log == [] && records == map[]
    {
      records, diagnosedKeys, log := map[], {}, [];
    }

    method HandleRecoveryEvent(cfg: Config, event: Event, ghost ok: bool)
      requires Valid() && event !in records.Values && event.status == Ok && !cfg.disabled
      modifies this
      ensures Valid() && records.Values <= old(records.Values)
      ensures var (after, effects) := Step(old(State()), Input(cfg, Alert(event.key, event.status, event.time), ok));
              State() == after && log == old(log) + effects
    {
      diagnosedKeys := diagnosedKeys - {event.key};
      if event.key !in records {
        assert State().cache - {event.key} == State().cache;
        return;
      }
      var cached := records[event.key];
      records := records - {cached.key};
      if !cfg.disableRecoveryNotification && cached.lastSent > 0 {
        log := log + [Recovered(event.key, event.time)];
      }
    }

    /** The branch for the first alert of an episode; notifyOk is the answer of notify.Forward. */
    method HandleFirstAlert(cfg: Config, event: Event, notifyOk: bool) returns (sent: bool)
      requires Valid() && event.key !in records && event !in records.Values && event.Unsent()
      modifies this`records, this`log, event
      ensures records == old(records)[event.key := event] && event.time == old(event.time)
      ensures var r := OnAlert(cfg, None, Alert(event.key, event.status, event.time), notifyOk);
              && event.View() == r.entry.value && sent == r.sent
              && log == old(log) + When(r.attempted, Notified(event.key, event.time, r.sent))
    {
      event.firstFireTime := event.time;
      records := records[event.key := event];
      if cfg.forDuration == 0 {
        log := log + [Notified(event.key, event.time, notifyOk)];
        if notifyOk {
          event.lastSent := event.time;
          event.notifyCount := event.notifyCount + 1;
          return true;
        }
      }
      return false;
    }

    /** The branch for a key that is already cached. */
    method HandleRepeatedAlert(cfg: Config, event: Event, notifyOk: bool) returns (sent: bool)
      requires Valid() && event.key in records && event !in records.Values
      modifies this`records, this`log, event
      ensures event.time == old(event.time)
      ensures records == if sent then old(records)[event.key := event] else old(records)
      ensures var r := OnAlert(cfg, Some(old(records[event.key].View())), Alert(event.key, event.status, event.time), notifyOk);
              && (if sent then event else old(records)[event.key]).View() == r.entry.value && sent == r.sent
              && log == old(log) + When(r.attempted, Notified(event.key, event.time, r.sent))
    {
      var cached := records[event.key];
      if cfg.forDuration > 0 && event.time - cached.firstFireTime < cfg.forDuration / SECOND {
        return false;
      }
      if cfg.repeatNumber > 0 && cached.notifyCount >= cfg.repeatNumber {
        return false;
      }
      if cfg.repeatInterval > 0 && event.time - cached.lastSent < cfg.repeatInterval / SECOND {
        return false;
      }
      event.firstFireTime := cached.firstFireTime;
      event.notifyCount := cached.notifyCount + 1;
      log := log + [Notified(event.key, event.time, notifyOk)];
      if notifyOk {
        event.lastSent := event.time;
        records := records[event.key := event];
        return true;
      }
      return false;
    }

    method HandleAlertEvent(cfg: Config, event: Event, notifyOk: bool) returns (sent: bool)
      requires Valid() && event !in records.Values && event.Unsent()
      modifies this`records, this`log, event
      ensures Valid() && records.Values <= old(records.Values) + {event}
      ensures event.time == old(event.time)
      ensures var r := OnAlert(cfg, Lookup(old(State()), event.key), Alert(event.key, event.status, event.time), notifyOk);
              && sent == r.sent
              && State() == Global(old(State()).cache[event.key := r.entry.value], diagnosedKeys)
              && log == old(log) + When(r.attempted, Notified(event.key, event.time, r.sent))
    {
      if event.key !in records {
        sent := HandleFirstAlert(cfg, event, notifyOk);
      } else {
        sent := HandleRepeatedAlert(cfg, event, notifyOk);
      }
      assert forall k | k in records && k != event.key :: records[k] == old(records)[k] && records[k] != event;
    }

    method MayTriggerDiagnose(cfg: Config, event: Event)
      modifies this`diagnosedKeys, this`log
      ensures var diagnose := cfg.hasAggregator && event.key !in old(diagnosedKeys);
              && diagnosedKeys == old(diagnosedKeys) + (if diagnose then {event.key} else {})
              && log == old(log) + When(diagnose, Diagnosed(event.key, event.time))
    {
      if !cfg.hasAggregator {
        return;
      }
      if event.key in diagnosedKeys {
        return;
      }
      log := log + [Diagnosed(event.key, event.time)];
      diagnosedKeys := diagnosedKeys + {event.key};
    }

    /** An alert, and the diagnosis it may ask for. */
    method PushAlert(cfg: Config, event: Event, notifyOk: bool)
      requires Valid() && event !in records.Values && event.Unsent()
      requires !event.status.Invalid? && event.status != Ok && !cfg.disabled
      modifies this, event
      ensures Valid() && records.Values <= old(records.Values) + {event}
      ensures var (after, effects) := Step(old(State()), Input(cfg, Alert(event.key, event.status, old(event.time)), notifyOk));
              State() == after && log == old(log) + effects
    {
      StepOfAlert(State(), cfg, Alert(event.key, event.status, event.time), notifyOk);
      var sent := HandleAlertEvent(cfg, event, notifyOk);
      if sent {
        MayTriggerDiagnose(cfg, event);
      }
    }

    /** One turn of the loop of PushRawEvents: cleaning, then dispatch. */
    method Push(cfg: Config, event: Event, now: int, notifyOk: bool)
      requires Valid() && event !in records.Values && event.Unsent()
      modifies this, event
      ensures Valid() && records.Values <= old(records.Values) + {event}
      ensures var time := if old(event.time) == 0 then now else old(event.time);
              var (after, effects) := Step(old(State()), Input(cfg, Alert(event.key, event.status, time), notifyOk));
              State() == after && log == old(log) + effects
    {
      if event.time == 0 {
        event.time := now;
      }
      assert State() == old(State());
      if event.status.Invalid? {
        return;
      }
      if cfg.disabled {
        return;
      }
      if event.status == Ok {
        HandleRecoveryEvent(cfg, event, notifyOk);
      } else {
        PushAlert(cfg, event, notifyOk);
      }
    }

    /** The events from position i on are new to the engine and to each other. */
    ghost predicate Pending(queue: seq<Event?>, i: nat)
      reads this, set e | e in queue
    {
      && Valid()
      && (forall j | i <= j < |queue| && queue[j] != null :: queue[j] !in records.Values && queue[j].Unsent())
      && (forall j, k | i <= j < k < |queue| :: queue[j] != queue[k] || queue[j] == null)
    }

    /** What an event stands for: a missing time is the time of the push, and nil is nothing. */
    static function PlannedAt(cfg: Config, event: Event?, now: int, ok: bool): Option<Input>
      reads event
    {
      if event == null then None
      else Some(Input(cfg, Alert(event.key, event.status, if event.time == 0 then now else event.time), ok))
    }

    /** What the events of a queue stand for. */
    static function Planned(cfg: Config, queue: seq<Event?>, now: int, notifyOk: nat -> bool): seq<Option<Input>>
      reads set e | e in queue
    {
      seq(|queue|, i requires 0 <= i < |queue| reads set e | e in queue =>
        PlannedAt(cfg, queue[i], now, notifyOk(i)))
    }

    /** One turn of the loop of PushRawEvents. */
    method PushAt(cfg: Config, queue: seq<Event?>, i: nat, now: int, ok: bool)
      requires i < |queue| && Pending(queue, i)
      modifies this, if queue[i] == null then {} else {queue[i]}
      ensures Pending(queue, i + 1)
      ensures queue[i] == null ==> State() == old(State()) && log == old(log)
      ensures queue[i] != null ==>
                var time := if old(queue[i].time) == 0 then now else old(queue[i].time);
                var (after, effects) := Step(old(State()), Input(cfg, Alert(queue[i].key, queue[i].status, time), ok));
                State() == after && log == old(log) + effects
    {
      var event := queue[i];
      if event == null {
        return;
      }
      assert forall j | i < j < |queue| && queue[j] != null :: queue[j] != event;
      Push(cfg, event, now, ok);
    }

    /** The loop of PushRawEvents; planned says what the events stand for. */
    method PushAll(cfg: Config, queue: seq<Event?>, now: int, notifyOk: nat -> bool, ghost planned: seq<Option<Input>>)
      requires Pending(queue, 0) && planned == Planned(cfg, queue, now, notifyOk)
      modifies this, set e | e in queue
      ensures Valid()
      ensures (State(), log) == After(old(State()), old(log), planned)
    {
      assert log + [] == log;
      for i := 0 to |queue|
        invariant Pending(queue, i)
        invariant forall j | i <= j < |queue| :: planned[j] == PlannedAt(cfg, queue[j], now, notifyOk(j))
        invariant (State(), log) == After(old(State()), old(log), planned[..i])
      {
        AfterMore(old(State()), old(log), planned, i);
        PushAt(cfg, queue, i, now, notifyOk(i));
      }
      assert planned[..|queue|] == planned;
    }

    /** planned lists the inputs of the queue: key and status of each event, its time or, if it
        has none, the time of the push, and the notifier's answer. */
    method PushRawEvents(cfg: Config, queue: seq<Event?>, now: int, notifyOk: nat -> bool)
      returns (ghost planned: seq<Option<Input>>)
      requires Pending(queue, 0)
      modifies this, set e | e in queue
      ensures Valid()
      ensures |planned| == |queue|
      ensures forall i | 0 <= i < |queue| && queue[i] == null :: planned[i] == None
      ensures forall i | 0 <= i < |queue| && queue[i] != null ::
                && planned[i].Some? && planned[i].value.cfg == cfg && planned[i].value.ok == notifyOk(i)
                && planned[i].value.alert.key == queue[i].key && planned[i].value.alert.status == queue[i].status
                && planned[i].value.alert.time == if old(queue[i].time) == 0 then now else old(queue[i].time)
      ensures var (after, effects) := Run(old(State()), Somes(planned));
              State() == after && log == old(log) + effects
      ensures now > 0 && (forall i | 0 <= i < |queue| && queue[i] != null :: old(queue[i].time) >= 0) ==>
                forall x | x in Somes(planned) :: x.alert.time > 0
    {
      planned := Planned(cfg, queue, now, notifyOk);
      SomesIn(planned);
      PushAll(cfg, queue, now, notifyOk, planned);
    }
  }

  lemma {:induction false} SomesIn(xs: seq<Option<Input>>)
    ensures forall x | x in Somes(xs) :: Some(x) in xs
  {
    if xs != [] {
      var n := |xs| - 1;
      SomesIn(xs[..n]);
      assert forall x | x in xs[..n] :: x in xs;
      assert xs[n] in xs;
    }
  }

  function Somes(xs: seq<Option<Input>>): seq<Input> {
    if xs == [] then []
    else
      var n := |xs| - 1;
      Somes(xs[..n]) + if xs[n].Some? then [xs[n].value] else []
  }

  /** State and log behind the events of a queue. */
  function After(g: Global, log: seq<Effect>, xs: seq<Option<Input>>): (Global, seq<Effect>) {
    var (after, effects) := Run(g, Somes(xs));
    (after, log + effects)
  }

  lemma {:induction false} AfterMore(g: Global, log: seq<Effect>, xs: seq<Option<Input>>, i: nat)
    requires i < |xs|
    ensures var (before, past) := After(g, log, xs[..i]);
            After(g, log, xs[..i + 1]) ==
            match xs[i]
            case None => (before, past)
            case Some(input) => (Step(before, input).0, past + Step(before, input).1)
  {
    var seen := xs[..i + 1];
    assert seen[..i] == xs[..i] && seen[i] == xs[i];
    if xs[i].Some? {
      var (before, effects) := Run(g, Somes(xs[..i]));
      RunExtends(g, Somes(xs[..i]), xs[i].value);
      var more := Step(before, xs[i].value).1;
      assert log + (effects + more) == log + effects + more;
    } else {
      assert Somes(seen) == Somes(xs[..i]) + [] == Somes(xs[..i]);
    }
  }
}
