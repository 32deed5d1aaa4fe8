/**
 The agent's reconnect loop: `RunAgent` and `registerOnce` with the tunnel goroutines they start. One
 semaphore is shared by all registrations; tunnels outlive the registration that announced them.
 */
module AgentLoop {
  import opened Base
  import opened Messages

  datatype Settings = Settings(target: bool, handler: bool, maxTunnels: int)

  const DEFAULT_TUNNELS: nat := 128
  const MAX_BACKOFF: nat := 30

  /** The checks and defaults at the start of `RunAgent`: exactly one of target and handler, a positive limit. */
  function Capacity(cfg: Settings): (cap: Option<nat>)
    ensures cap.Some? <==> (cfg.target != cfg.handler)
    ensures cap.Some? ==> cap.value > 0 && cap.value == (if cfg.maxTunnels > 0 then cfg.maxTunnels else 128)
  {
    if !cfg.target == !cfg.handler then None else Some(if cfg.maxTunnels <= 0 then DEFAULT_TUNNELS else cfg.maxTunnels)
  }

  datatype Pc =
    | Registering | Receiving | Acquiring(note: Notification) | Starting(note: Notification)
    | Lost | Waiting(delay: nat) | Stopped

  /** A tunnel goroutine: serving, or about to give its slot back. */
  datatype TunnelState = Serving(note: Notification) | Returning(note: Notification)

  /**
   `slots` is the number of values in the semaphore channel. `heard`, `started`, `dropped` and `delays`
   are histories: notifications received, tunnels started, the notification given up when the context
   ended, and the delays before re-registering.
   */
  datatype Agent = Agent(
    pc: Pc, ctxDone: bool, backoff: nat, slots: nat, tunnels: map<nat, TunnelState>,
    heard: seq<Notification>, started: seq<Notification>, dropped: seq<Notification>, delays: seq<nat>)

  const NEW_AGENT := Agent(Registering, false, 1, 0, map[], [], [], [], [])

  datatype Event =
    | Cancel | Registered | RegisterFailed | Heard(note: Notification) | StreamLost
    | Acquire | GiveUp | Spawn(id: nat) | TunnelEnds(id: nat) | ReleaseSlot(id: nat)
    | CheckContext | TimerFires | WaitCancelled

  function Doubled(backoff: nat): nat {
    if backoff * 2 > MAX_BACKOFF then MAX_BACKOFF else backoff * 2
  }

  /** One step of the loop itself. */
  function LoopStep(cap: nat, a: Agent, ev: Event): Option<Agent> {
    match ev
    case Registered => if a.pc.Registering? then Some(a.(pc := Receiving)) else None
    case RegisterFailed => if a.pc.Registering? then Some(a.(pc := Lost)) else None
    case Heard(note) => if a.pc.Receiving? then Some(a.(pc := Acquiring(note), heard := a.heard + [note])) else None
    case StreamLost => if a.pc.Receiving? then Some(a.(pc := Lost)) else None
    case Acquire => if a.pc.Acquiring? && a.slots < cap then Some(a.(pc := Starting(a.pc.note), slots := a.slots + 1))
      else None
    case GiveUp => if a.pc.Acquiring? && a.ctxDone then Some(a.(pc := Lost, dropped := a.dropped + [a.pc.note]))
      else None
    case CheckContext =>
      if !a.pc.Lost? then None else
      if a.ctxDone then Some(a.(pc := Stopped))
        else Some(a.(pc := Waiting(a.backoff), delays := a.delays + [a.backoff]))
    case TimerFires => if a.pc.Waiting? then Some(a.(pc := Registering, backoff := Doubled(a.backoff))) else None
    case WaitCancelled => if a.pc.Waiting? && a.ctxDone then Some(a.(pc := Stopped)) else None
    case _ => None
  }

  /** One step that creates, ends or removes a tunnel goroutine; receiving from an empty channel would block. */
  function TunnelStep(a: Agent, ev: Event): Option<Agent> {
    match ev
    case Spawn(id) =>
      if a.pc.Starting? && id !in a.tunnels
      then Some(a.(pc := Receiving, tunnels := a.tunnels[id := Serving(a.pc.note)], started := a.started + [a.pc.note]))
        else None
    case TunnelEnds(id) =>
      if id in a.tunnels && a.tunnels[id].Serving?
      then Some(a.(tunnels := a.tunnels[id := Returning(a.tunnels[id].note)])) else None
    case ReleaseSlot(id) =>
      if id in a.tunnels && a.tunnels[id].Returning? && a.slots > 0
      then Some(a.(slots := a.slots - 1, tunnels := a.tunnels - {id})) else None
    case _ => None
  }

  function Step(cap: nat, a: Agent, ev: Event): Option<Agent> {
    if ev.Cancel? then Some(a.(ctxDone := true))
    else if ev.Spawn? || ev.TunnelEnds? || ev.ReleaseSlot? then TunnelStep(a, ev)
    else LoopStep(cap, a, ev)
  }

  function Run(cap: nat, evs: seq<Event>): Option<Agent> {
    if evs == [] then Some(NEW_AGENT) else
    var a := Run(cap, evs[..|evs| - 1]);
    if a.None? then None else Step(cap, a.value, evs[|evs| - 1])
  }

  ghost predicate Reachable(cap: nat, a: Agent) {
    exists evs :: Run(cap, evs) == Some(a)
  }

  // ---- Invariant ----

  function AboutToStart(pc: Pc): nat {
    if pc.Starting? then 1 else 0
  }

  function InHand(pc: Pc): seq<Notification> {
    if pc.Acquiring? || pc.Starting? then [pc.note] else []
  }

  function Pow2(k: nat): nat {
    if k == 0 then 1 else 2 * Pow2(k - 1)
  }

  /** The delay before the `k`-th re-registration, counted from zero. */
  function Delay(k: nat): nat {
    if Pow2(k) > MAX_BACKOFF then MAX_BACKOFF else Pow2(k)
  }

  ghost predicate SlotsOk(cap: nat, a: Agent) {
    a.slots == |a.tunnels| + AboutToStart(a.pc) && a.slots <= cap
  }

  ghost predicate NotesOk(a: Agent) {
    && a.heard == a.started + InHand(a.pc) + a.dropped
    && (a.dropped != [] ==> |a.dropped| == 1 && a.ctxDone && (a.pc.Lost? || a.pc.Stopped?))
  }

  ghost predicate DelaysOk(a: Agent) {
    && (forall i :: 0 <= i < |a.delays| ==> a.delays[i] == Delay(i))
    && (if a.pc.Waiting? then |a.delays| > 0 && a.backoff == a.pc.delay == Delay(|a.delays| - 1)
        else a.pc.Stopped? || a.backoff == Delay(|a.delays|))
  }

  ghost predicate Inv(cap: nat, a: Agent) {
    SlotsOk(cap, a) && NotesOk(a) && DelaysOk(a)
  }

  lemma DelayDoubles(k: nat)
    ensures Delay(k + 1) == Doubled(Delay(k))
  {
  }

  lemma LoopStepInv(cap: nat, a: Agent, ev: Event)
    requires Inv(cap, a) && LoopStep(cap, a, ev).Some?
    ensures Inv(cap, LoopStep(cap, a, ev).value)
  {
    hide Delay, Doubled;
    if ev.TimerFires? { DelayDoubles(|a.delays| - 1); }
    if ev.GiveUp? { assert a.dropped == []; }
  }

  lemma TunnelCounts(m: map<nat, TunnelState>, id: nat, t: TunnelState)
    ensures |m[id := t]| == if id in m then |m| else |m| + 1
    ensures id in m ==> |m - {id}| == |m| - 1
  {
    assert m[id := t].Keys == m.Keys + {id};
    assert (m - {id}).Keys == m.Keys - {id};
  }

  lemma TunnelStepSlots(cap: nat, a: Agent, ev: Event)
    requires SlotsOk(cap, a) && TunnelStep(a, ev).Some?
    ensures SlotsOk(cap, TunnelStep(a, ev).value)
  {
    TunnelCounts(a.tunnels, ev.id,
      if ev.Spawn? then Serving(a.pc.note) else if ev.TunnelEnds? then Returning(a.tunnels[ev.id].note)
        else a.tunnels[ev.id]);
  }

  lemma TunnelStepInv(cap: nat, a: Agent, ev: Event)
    requires Inv(cap, a) && TunnelStep(a, ev).Some?
    ensures Inv(cap, TunnelStep(a, ev).value)
  {
    hide Delay, SlotsOk;
    TunnelStepSlots(cap, a, ev);
  }

  lemma {:induction false} RunInv(cap: nat, evs: seq<Event>)
    ensures Run(cap, evs).Some? ==> Inv(cap, Run(cap, evs).value)
  {
    if evs == [] {
      assert Delay(0) == 1;
    } else {
      RunInv(cap, evs[..|evs| - 1]);
      var a := Run(cap, evs[..|evs| - 1]);
      hide SlotsOk, NotesOk, DelaysOk, LoopStep, TunnelStep;
      if a.Some? && Step(cap, a.value, evs[|evs| - 1]).Some? { StepInv(cap, a.value, evs[|evs| - 1]); }
    }
  }

  lemma StepInv(cap: nat, a: Agent, ev: Event)
    requires Inv(cap, a) && Step(cap, a, ev).Some?
    ensures Inv(cap, Step(cap, a, ev).value)
  {
    hide LoopStep, TunnelStep, Delay;
    if ev.Spawn? || ev.TunnelEnds? || ev.ReleaseSlot? { TunnelStepInv(cap, a, ev); }
    else if !ev.Cancel? { LoopStepInv(cap, a, ev); }
  }

  lemma ReachableInv(cap: nat, a: Agent)
    requires Reachable(cap, a)
    ensures Inv(cap, a)
  {
    hide Inv, Run;
    var evs :| Run(cap, evs) == Some(a);
    RunInv(cap, evs);
  }

  // ---- Results ----

  /** The tunnel cap holds over any sequence of lost and renewed registrations. */
  lemma TunnelCap(cap: nat, a: Agent)
    requires Reachable(cap, a)
    ensures a.slots == |a.tunnels| + AboutToStart(a.pc) <= cap
    ensures |a.tunnels| <= cap
  {
    hide Reachable;
    ReachableInv(cap, a);
  }

  /** Giving a slot back never blocks. */
  lemma ReleaseNeverBlocks(cap: nat, a: Agent, id: nat)
    requires Reachable(cap, a) && id in a.tunnels && a.tunnels[id].Returning?
    ensures Step(cap, a, ReleaseSlot(id)).Some?
  {
    hide Reachable;
    ReachableInv(cap, a);
    assert id in a.tunnels.Keys;
  }

  /**
   Every notification received starts exactly one tunnel, in order, except the one in hand and the one
   given up when the agent was stopped.
   */
  lemma EveryNotificationServed(cap: nat, a: Agent)
    requires Reachable(cap, a)
    ensures a.heard == a.started + InHand(a.pc) + a.dropped
    ensures |a.dropped| <= 1 && (a.dropped != [] ==> a.ctxDone)
  {
    hide Reachable;
    ReachableInv(cap, a);
  }

  /** The wait is stuck only while every slot is taken by a running tunnel and the agent is not stopped. */
  lemma WaitsOnlyWhenFull(cap: nat, a: Agent)
    requires Reachable(cap, a) && a.pc.Acquiring?
    ensures (Step(cap, a, Acquire).None? && Step(cap, a, GiveUp).None?) <==> (|a.tunnels| == cap && !a.ctxDone)
  {
    hide Reachable;
    ReachableInv(cap, a);
  }

  /** The delays double from one second to thirty and stay there: a good registration does not reset them. */
  lemma DelaysDouble(cap: nat, a: Agent, i: nat)
    requires Reachable(cap, a) && i < |a.delays|
    ensures a.delays[i] == if i < 5 then Pow2(i) else 30
  {
    hide Reachable;
    ReachableInv(cap, a);
    PowGrows(i);
  }

  lemma {:induction false} PowGrows(i: nat)
    ensures i >= 5 ==> Pow2(i) >= 32
    ensures i < 5 ==> Pow2(i) <= 16
  {
    if i > 0 { PowGrows(i - 1); }
  }

  // ---- A run that waits thirty seconds after a registration that worked ----

  lemma {:induction false} RunSnoc(cap: nat, evs: seq<Event>, ev: Event)
    ensures Run(cap, evs).Some? ==> Run(cap, evs + [ev]) == Step(cap, Run(cap, evs).value, ev)
  {
    hide Step;
    var all := evs + [ev];
    assert all[..|all| - 1] == evs;
  }

  /** After `k` attempts that failed at once. */
  predicate Retrying(a: Agent, k: nat) {
    a.pc.Registering? && !a.ctxDone && a.backoff == Delay(k) && |a.delays| == k
  }

  lemma {:induction false} FailedAttempts(cap: nat, k: nat) returns (evs: seq<Event>)
    ensures Run(cap, evs).Some? && Retrying(Run(cap, evs).value, k)
  {
    if k == 0 {
      assert Run(cap, []) == Some(NEW_AGENT) && Delay(0) == 1;
      return [];
    }
    evs := FailedAttempts(cap, k - 1);
    hide Run, Delay, Doubled;
    RunSnoc(cap, evs, RegisterFailed);
    RunSnoc(cap, evs + [RegisterFailed], CheckContext);
    RunSnoc(cap, evs + [RegisterFailed] + [CheckContext], TimerFires);
    DelayDoubles(k - 1);
    evs := evs + [RegisterFailed] + [CheckContext] + [TimerFires];
  }

  /** A registration that works does not reset the delay: losing it after five failures costs thirty seconds. */
  lemma DelayNotReset(cap: nat) returns (before: seq<Event>)
    ensures var evs := before + [Registered] + [StreamLost] + [CheckContext];
      && Run(cap, before).Some? && |Run(cap, before).value.delays| == 5
      && Run(cap, evs).Some? && Run(cap, evs).value.pc == Waiting(30)
  {
    before := FailedAttempts(cap, 5);
    PowGrows(5);
    hide Run;
    RunSnoc(cap, before, Registered);
    RunSnoc(cap, before + [Registered], StreamLost);
    RunSnoc(cap, before + [Registered] + [StreamLost], CheckContext);
  }

  // ---- Where the loop can go ----

  /** The places that can follow the loop's place: a stopped agent does not register again. */
  predicate Follows(cap: nat, a: Agent, next: Pc) {
    match a.pc
    case Registering => next == Receiving || next == Lost
    case Receiving => next.Acquiring? || next == Lost
    case Acquiring(note) => (next == Starting(note) && |a.tunnels| < cap) || (next == Lost && a.ctxDone)
    case Starting(_) => next == Receiving
    case Lost => next == if a.ctxDone then Stopped
      else Waiting(if |a.delays| < 5 then Pow2(|a.delays|) else 30)
    case Waiting(_) => next == Registering || (next == Stopped && a.ctxDone)
    case Stopped => false
  }

  lemma {:induction false} FreshId(ids: set<nat>) returns (next: nat)
    ensures forall id :: id in ids ==> id < next
  {
    if ids == {} { return 0; }
    var id :| id in ids;
    next := FreshId(ids - {id});
    if next <= id { next := id + 1; }
    forall other | other in ids ensures other < next { if other != id { assert other in ids - {id}; } }
  }

  lemma MoveFollows(cap: nat, a: Agent, ev: Event)
    requires Inv(cap, a) && Step(cap, a, ev).Some? && Step(cap, a, ev).value.pc != a.pc
    ensures Follows(cap, a, Step(cap, a, ev).value.pc)
  {
    PowGrows(|a.delays|);
  }

  lemma FollowsMove(cap: nat, a: Agent, next: Pc) returns (ev: Event)
    requires Inv(cap, a) && Follows(cap, a, next)
    ensures Step(cap, a, ev).Some? && Step(cap, a, ev).value.pc == next
  {
    match a.pc
    case Registering => ev := if next.Receiving? then Registered else RegisterFailed;
    case Receiving => ev := if next.Acquiring? then Heard(next.note) else StreamLost;
    case Acquiring(_) => ev := if next.Starting? then Acquire else GiveUp;
    case Starting(_) =>
      var id := FreshId(a.tunnels.Keys);
      assert id !in a.tunnels.Keys;
      ev := Spawn(id);
    case Lost =>
      PowGrows(|a.delays|);
      ev := CheckContext;
    case Waiting(_) => ev := if next.Registering? then TimerFires else WaitCancelled;
  }

  /** Some step takes the loop from its place to another one if and only if the source's control flow does. */
  lemma MovesIff(cap: nat, a: Agent, next: Pc)
    requires Reachable(cap, a)
    ensures (next != a.pc && exists ev :: Step(cap, a, ev).Some? && Step(cap, a, ev).value.pc == next)
      <==> Follows(cap, a, next)
  {
    ReachableInv(cap, a);
    hide Reachable, Inv, Follows;
    if ev :| next != a.pc && Step(cap, a, ev).Some? && Step(cap, a, ev).value.pc == next { MoveFollows(cap, a, ev); }
    if Follows(cap, a, next) {
      var ev := FollowsMove(cap, a, next);
      Elsewhere(cap, a, next);
    }
  }

  lemma Elsewhere(cap: nat, a: Agent, next: Pc)
    requires Follows(cap, a, next)
    ensures next != a.pc
  {
  }

  lemma StoppedStep(cap: nat, a: Agent, ev: Event)
    requires Step(cap, a, ev).Some?
    ensures var b := Step(cap, a, ev).value;
      && (a.ctxDone ==> b.ctxDone) && (ev.WaitCancelled? ==> b.pc == Stopped)
      && (a.ctxDone && (a.pc.Lost? || a.pc.Stopped?) ==>
        && (b.pc == Stopped || (b.pc == a.pc && !ev.CheckContext?))
        && b.heard == a.heard && b.started == a.started && b.delays == a.delays)
  {
  }

  /**
   An agent that was stopped before its registration was lost, or in its wait, never registers again, whatever
   happens afterwards: it hears, starts and waits for nothing more.
   */
  lemma {:induction false} StoppedForGood(cap: nat, before: seq<Event>, after: seq<Event>)
    requires Run(cap, before).Some? && Run(cap, before + after).Some? && before != []
    requires var a := Run(cap, before).value;
      (a.ctxDone && a.pc.Lost?) || a.pc.Stopped? || before[|before| - 1].WaitCancelled?
    ensures var a, b := Run(cap, before).value, Run(cap, before + after).value;
      && (b.pc == Stopped || (a.pc == Lost && b.pc == Lost))
      && b.heard == a.heard && b.started == a.started && b.delays == a.delays
  {
    hide Step;
    StoppedMeansDone(cap, before);
    if after == [] {
      assert before + after == before;
      StoppedStep(cap, Run(cap, before[..|before| - 1]).value, before[|before| - 1]);
    } else {
      var all, most := before + after, after[..|after| - 1];
      assert all[..|all| - 1] == before + most;
      StoppedForGood(cap, before, most);
      RunDone(cap, before, most);
      StoppedStep(cap, Run(cap, before + most).value, after[|after| - 1]);
    }
  }

  lemma {:induction false} StoppedMeansDone(cap: nat, evs: seq<Event>)
    ensures Run(cap, evs).Some? && Run(cap, evs).value.pc.Stopped? ==> Run(cap, evs).value.ctxDone
    ensures Run(cap, evs).Some? && evs != [] && evs[|evs| - 1].WaitCancelled? ==> Run(cap, evs).value.ctxDone
  {
    if evs != [] { StoppedMeansDone(cap, evs[..|evs| - 1]); }
  }

  lemma {:induction false} RunDone(cap: nat, before: seq<Event>, after: seq<Event>)
    requires Run(cap, before).Some? && Run(cap, before + after).Some? && Run(cap, before).value.ctxDone
    ensures Run(cap, before + after).value.ctxDone
  {
    hide Step;
    if after == [] {
      assert before + after == before;
    } else {
      var all, most := before + after, after[..|after| - 1];
      assert all[..|all| - 1] == before + most;
      RunDone(cap, before, most);
      StoppedStep(cap, Run(cap, before + most).value, after[|after| - 1]);
    }
  }

  // ---- The retry loop as it is written ----

  /** How one turn of the loop ends: stopped before the wait, stopped in it, or at the end of the wait. */
  datatype Outcome = StoppedBefore | StoppedInWait | Retried

  /** The turn, if any, that an event ends. */
  function TurnEnds(a: Agent, ev: Event): seq<Outcome> {
    match ev
    case CheckContext => if a.ctxDone then [StoppedBefore] else []
    case WaitCancelled => [StoppedInWait]
    case TimerFires => [Retried]
    case _ => []
  }

  /** The turns of a run. */
  function Turns(cap: nat, evs: seq<Event>): seq<Outcome> {
    if evs == [] then [] else
    var a := Run(cap, evs[..|evs| - 1]);
    if a.None? then [] else Turns(cap, evs[..|evs| - 1]) + TurnEnds(a.value, evs[|evs| - 1])
  }

  predicate AllRetried(outcomes: seq<Outcome>) {
    forall i :: 0 <= i < |outcomes| ==> outcomes[i] == Retried
  }

  /** An agent after these turns: the delays it has waited, or is waiting, and whether it has stopped. */
  predicate After(a: Agent, turns: seq<Outcome>) {
    if a.pc.Stopped? then
      && turns != [] && AllRetried(turns[..|turns| - 1]) && turns[|turns| - 1] != Retried
      && |a.delays| == (if turns[|turns| - 1] == StoppedBefore then |turns| - 1 else |turns|)
    else AllRetried(turns) && |a.delays| == |turns| + (if a.pc.Waiting? then 1 else 0)
  }

  lemma AfterStep(cap: nat, a: Agent, ev: Event, turns: seq<Outcome>)
    requires After(a, turns) && Step(cap, a, ev).Some?
    ensures After(Step(cap, a, ev).value, turns + TurnEnds(a, ev))
  {
    var more := turns + TurnEnds(a, ev);
    if TurnEnds(a, ev) == [] {
      assert more == turns;
    } else {
      assert more[..|more| - 1] == turns;
    }
  }

  lemma {:induction false} RunTurns(cap: nat, evs: seq<Event>)
    ensures Run(cap, evs).Some? ==> After(Run(cap, evs).value, Turns(cap, evs))
  {
    if evs != [] {
      hide Step, After, TurnEnds;
      var most := evs[..|evs| - 1];
      RunTurns(cap, most);
      if Run(cap, evs).Some? { AfterStep(cap, Run(cap, most).value, evs[|evs| - 1], Turns(cap, most)); }
    }
  }

  /** A run in which the loop took these turns. */
  predicate Behaves(cap: nat, evs: seq<Event>, outcomes: seq<Outcome>) {
    Run(cap, evs).Some? && Turns(cap, evs) == outcomes
  }

  /** The delays of the turns that have ended. */
  function Waited(a: Agent): seq<nat> {
    if a.pc.Waiting? && a.delays != [] then a.delays[..|a.delays| - 1] else a.delays
  }

  ghost predicate Agrees(cap: nat, evs: seq<Event>, delays: seq<nat>, used: nat, stopped: bool,
    outcomes: seq<Outcome>) {
    var r := Run(cap, evs);
    r.Some? && used == |outcomes| && stopped == r.value.pc.Stopped? && delays == Waited(r.value)
  }

  ghost predicate LoopResult(outcomes: seq<Outcome>, delays: seq<nat>, used: nat, stopped: bool) {
    && used <= |outcomes| && (stopped <==> used > 0 && outcomes[used - 1] != Retried)
    && (!stopped ==> used == |outcomes|)
    && AllRetried(outcomes[..if stopped then used - 1 else used])
    && |delays| == (if stopped && outcomes[used - 1] == StoppedBefore then used - 1 else used)
    && forall i :: 0 <= i < |delays| ==> delays[i] == Delay(i)
  }

  lemma ResultAgrees(
    cap: nat, evs: seq<Event>, outcomes: seq<Outcome>, delays: seq<nat>, used: nat, stopped: bool)
    requires Behaves(cap, evs, outcomes) && LoopResult(outcomes, delays, used, stopped)
    ensures Agrees(cap, evs, delays, used, stopped, outcomes)
  {
    RunTurns(cap, evs);
    RunInv(cap, evs);
    hide Run, Turns, SlotsOk, NotesOk, Delay;
    var a := Run(cap, evs).value;
    if !stopped { assert outcomes[..used] == outcomes; }
  }

  /**
   The loop of `RunAgent`: each lost registration waits once, twice as long as before, up to thirty seconds.
   On the turns of any run it waits and stops as the agent of that run has.
   */
  method RetryLoop(outcomes: seq<Outcome>) returns (delays: seq<nat>, used: nat, stopped: bool)
    ensures LoopResult(outcomes, delays, used, stopped)
    ensures forall cap, evs :: Behaves(cap, evs, outcomes) ==> Agrees(cap, evs, delays, used, stopped, outcomes)
  {
    var backoff := 1;
    delays, used, stopped := [], 0, false;
    assert Delay(0) == 1;
    while used < |outcomes| && !stopped
      invariant used <= |outcomes| && LoopResult(outcomes[..used], delays, used, stopped)
      invariant !stopped ==> backoff == Delay(used)
    {
      hide Delay;
      var outcome := outcomes[used];
      assert outcomes[..used + 1] == outcomes[..used] + [outcome];
      assert outcomes[..used + 1][..used] == outcomes[..used];
      used := used + 1;
      if outcome == StoppedBefore {
        stopped := true;
      } else {
        delays := delays + [backoff];
        if outcome == StoppedInWait {
          stopped := true;
        } else {
          DelayDoubles(used - 1);
          backoff := backoff * 2;
          if backoff > MAX_BACKOFF { backoff := MAX_BACKOFF; }
        }
      }
    }
    hide Behaves, Agrees;
    assert LoopResult(outcomes, delays, used, stopped);
    forall cap, evs | Behaves(cap, evs, outcomes) ensures Agrees(cap, evs, delays, used, stopped, outcomes) {
      ResultAgrees(cap, evs, outcomes, delays, used, stopped);
    }
  }

  /** Every sequence of turns in which only the last may stop the agent is that of some run. */
  lemma {:induction false} TurnsHappen(cap: nat, outcomes: seq<Outcome>) returns (evs: seq<Event>)
    requires outcomes != [] ==> AllRetried(outcomes[..|outcomes| - 1])
    ensures Behaves(cap, evs, outcomes)
    ensures AllRetried(outcomes) ==> Run(cap, evs).value.pc == Registering && !Run(cap, evs).value.ctxDone
  {
    if outcomes == [] { return []; }
    var most, last := outcomes[..|outcomes| - 1], outcomes[|outcomes| - 1];
    evs := TurnsHappen(cap, most);
    hide Run, Turns;
    evs := OneTurn(cap, evs, last);
    assert outcomes == most + [last];
  }

  lemma OneTurn(cap: nat, before: seq<Event>, last: Outcome) returns (evs: seq<Event>)
    requires Run(cap, before).Some? && Run(cap, before).value.pc == Registering && !Run(cap, before).value.ctxDone
    ensures Behaves(cap, evs, Turns(cap, before) + [last])
    ensures last == Retried ==> Run(cap, evs).value.pc == Registering && !Run(cap, evs).value.ctxDone
  {
    hide Run, Turns, Doubled;
    var turns := Turns(cap, before);
    assert turns + [] == turns;
    evs := Extended(cap, before, RegisterFailed);
    if last == StoppedBefore {
      evs := Extended(cap, evs, Cancel);
      evs := Extended(cap, evs, CheckContext);
    } else if last == StoppedInWait {
      evs := Extended(cap, evs, CheckContext);
      evs := Extended(cap, evs, Cancel);
      evs := Extended(cap, evs, WaitCancelled);
    } else {
      evs := Extended(cap, evs, CheckContext);
      evs := Extended(cap, evs, TimerFires);
    }
  }

  lemma Extended(cap: nat, evs: seq<Event>, ev: Event) returns (more: seq<Event>)
    requires Run(cap, evs).Some? && Step(cap, Run(cap, evs).value, ev).Some?
    ensures more == evs + [ev] && Run(cap, more) == Step(cap, Run(cap, evs).value, ev)
    ensures Turns(cap, more) == Turns(cap, evs) + TurnEnds(Run(cap, evs).value, ev)
  {
    hide Step;
    more := evs + [ev];
    assert more[..|more| - 1] == evs;
  }
}
