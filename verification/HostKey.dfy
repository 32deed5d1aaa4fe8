/**
 `loadOrCreateHostKey`: any number of callers on one path, interleaved at every file-system call. The
 path may hold anything, or nothing, when they start; nobody else writes it.
 */
module HostKey {
  import opened Base
  import opened Files

  const KEY_MODE: nat := 0x180   // 0600

  /** `retry` is the second look at the path, after losing the race to publish. */
  datatype Pc =
    | Preparing | Statting(retry: bool) | Reading(retry: bool) | Generating | Publishing(pub: Pub)
    | Unlinking(result: Option<nat>) | Done(result: Option<nat>)

  datatype State = State(fs: Fs, callers: map<nat, Pc>)

  datatype Event = Call | Ok | Fail | Generated(pem: Bytes) | FileEvent(ev: PubEvent)

  function AfterRead(retry: bool, result: Option<nat>): Pc {
    if retry then Unlinking(result) else Done(result)
  }

  /** A caller that has stopped publishing: its own key, another look, or an error. */
  function AfterPublish(parse: Bytes -> Option<nat>, p: Pub): Pc {
    match p.pc
    case Published => Unlinking(parse(p.data))
    case Collided => Statting(true)
    case Failed => if p.fd.Some? then Unlinking(None) else Done(None)
    case _ => Publishing(p)
  }

  /** The caller's own move, where the file system only changes through `Files.PubStep`. */
  function LookStep(parse: Bytes -> Option<nat>, fs: Fs, pc: Pc, ev: Event): Option<Pc> {
    match pc
    case Preparing => if ev.Ok? then Some(Statting(false)) else if ev.Fail? then Some(Done(None)) else None
    case Statting(retry) => (
      if ev.Fail? then Some(AfterRead(retry, None))
      else if !ev.Ok? then None
      else if AtPath(fs).None? then Some(if retry then Unlinking(None) else Generating)
      else if !Private(AtPath(fs).value.mode) then Some(AfterRead(retry, None))
      else Some(Reading(retry)))
    case Reading(retry) => (
      if ev.Fail? || (ev.Ok? && AtPath(fs).None?) then Some(AfterRead(retry, None))
      else if ev.Ok? then Some(AfterRead(retry, parse(AtPath(fs).value.content))) else None)
    case Generating => (
      if ev.Fail? then Some(Done(None))
      else if ev.Generated? && parse(ev.pem).Some? then Some(Publishing(NewPub(ev.pem, KEY_MODE))) else None)
    case Unlinking(result) => if ev.Ok? || ev.Fail? then Some(Done(result)) else None
    case _ => None
  }

  function Step(parse: Bytes -> Option<nat>, s: State, p: nat, ev: Event): Option<State> {
    if ev.Call? then (if p in s.callers then None else Some(s.(callers := s.callers[p := Preparing])))
    else if p !in s.callers then None
    else if s.callers[p].Publishing? then
      var r := if ev.FileEvent? then PubStep(s.fs, s.callers[p].pub, ev.ev) else None;
      if r.None? then None else Some(State(r.value.0, s.callers[p := AfterPublish(parse, r.value.1)]))
    else
      var pc := LookStep(parse, s.fs, s.callers[p], ev);
      if pc.None? then None else Some(s.(callers := s.callers[p := pc.value]))
  }

  function Run(parse: Bytes -> Option<nat>, s: State, evs: seq<(nat, Event)>): Option<State> {
    if evs == [] then Some(s) else
    var t := Run(parse, s, evs[..|evs| - 1]);
    if t.None? then None else Step(parse, t.value, evs[|evs| - 1].0, evs[|evs| - 1].1)
  }

  /** No callers yet; the path may hold any file. */
  ghost predicate Initial(s: State) {
    s.callers == map[] && FsOk(s.fs)
  }

  ghost predicate Reachable(parse: Bytes -> Option<nat>, start: State, s: State) {
    Initial(start) && exists evs :: Run(parse, start, evs) == Some(s)
  }

  // ---- Invariant ----

  predicate Wins(pc: Pc) {
    (pc.Unlinking? || pc.Done?) && pc.result.Some?
  }

  /** A caller with a result took it from the path; one that lost the race has a file to look at. */
  ghost predicate CallerOk(parse: Bytes -> Option<nat>, fs: Fs, pc: Pc) {
    && (pc.Publishing? ==>
      PubOk(fs, pc.pub) && pc.pub.mode == KEY_MODE && parse(pc.pub.data).Some? && !Ended(pc.pub.pc))
    && (pc.Reading? || pc == Statting(true) ==> AtPath(fs).Some?)
    && (pc.Reading? ==> Private(AtPath(fs).value.mode))
    && (Wins(pc) ==>
          && AtPath(fs).Some? && Private(AtPath(fs).value.mode)
          && parse(AtPath(fs).value.content) == pc.result)
  }

  function TempOf(pc: Pc): Option<nat> {
    if pc.Publishing? then pc.pub.fd else None
  }

  ghost predicate Inv(parse: Bytes -> Option<nat>, start: State, s: State) {
    && FsOk(s.fs)
    && (forall p :: p in s.callers ==> CallerOk(parse, s.fs, s.callers[p]))
    && (forall p, q ::
      p in s.callers && q in s.callers && p != q && TempOf(s.callers[p]).Some? ==>
        TempOf(s.callers[p]) != TempOf(s.callers[q]))
    && (if AtPath(start.fs).Some? then AtPath(s.fs) == AtPath(start.fs)
        else AtPath(s.fs).Some? ==> AtPath(s.fs).value.mode == KEY_MODE && parse(AtPath(s.fs).value.content).Some?)
  }

  lemma LookStepOk(parse: Bytes -> Option<nat>, fs: Fs, pc: Pc, ev: Event)
    requires CallerOk(parse, fs, pc) && LookStep(parse, fs, pc, ev).Some?
    ensures CallerOk(parse, fs, LookStep(parse, fs, pc, ev).value) && TempOf(LookStep(parse, fs, pc, ev).value).None?
  {
  }

  /** A publishing step, as seen by its own caller. */
  lemma PublishOwn(parse: Bytes -> Option<nat>, fs: Fs, pub: Pub, ev: PubEvent)
    requires FsOk(fs) && CallerOk(parse, fs, Publishing(pub)) && PubStep(fs, pub, ev).Some?
    ensures var (gs, q) := PubStep(fs, pub, ev).value; CallerOk(parse, gs, AfterPublish(parse, q))
    ensures var (gs, q) := PubStep(fs, pub, ev).value; AtPath(fs).Some? ==> AtPath(gs) == AtPath(fs)
    ensures var (gs, q) := PubStep(fs, pub, ev).value;
      AtPath(fs).None? && AtPath(gs).Some? ==>
        AtPath(gs).value.mode == KEY_MODE && parse(AtPath(gs).value.content).Some?
  {
    PubStepOk(fs, pub, ev);
    hide PubStep;
  }

  /** A publishing step, as seen by another caller. */
  lemma PublishOther(parse: Bytes -> Option<nat>, fs: Fs, pub: Pub, ev: PubEvent, other: Pc)
    requires FsOk(fs) && PubOk(fs, pub) && PubStep(fs, pub, ev).Some? && CallerOk(parse, fs, other)
    requires TempOf(other).Some? ==> TempOf(other) != pub.fd
    ensures CallerOk(parse, PubStep(fs, pub, ev).value.0, other)
    ensures TempOf(other).Some? ==> TempOf(other) != PubStep(fs, pub, ev).value.1.fd
  {
    PubStepOk(fs, pub, ev);
    if other.Publishing? { OthersUndisturbed(fs, pub, ev, other.pub); }
    hide PubStep;
  }

  lemma PublishInv(parse: Bytes -> Option<nat>, start: State, s: State, p: nat, ev: Event)
    requires Inv(parse, start, s) && p in s.callers && s.callers[p].Publishing? && Step(parse, s, p, ev).Some?
    ensures Inv(parse, start, Step(parse, s, p, ev).value)
  {
    hide PubOk, PubStep, Ended, AfterPublish;
    var pub := s.callers[p].pub;
    var (gs, q) := PubStep(s.fs, pub, ev.ev).value;
    PublishOwn(parse, s.fs, pub, ev.ev);
    PubStepOk(s.fs, pub, ev.ev);
    TempAfter(parse, q);
    forall o | o in s.callers && o != p
      ensures CallerOk(parse, gs, s.callers[o]) && (TempOf(s.callers[o]).Some? ==> TempOf(s.callers[o]) != q.fd)
    {
      PublishOther(parse, s.fs, pub, ev.ev, s.callers[o]);
    }
  }

  lemma TempAfter(parse: Bytes -> Option<nat>, q: Pub)
    ensures TempOf(AfterPublish(parse, q)).Some? ==> TempOf(AfterPublish(parse, q)) == q.fd
  {
  }

  lemma StepInv(parse: Bytes -> Option<nat>, start: State, s: State, p: nat, ev: Event)
    requires Inv(parse, start, s) && Step(parse, s, p, ev).Some?
    ensures Inv(parse, start, Step(parse, s, p, ev).value)
  {
    if p in s.callers && s.callers[p].Publishing? && !ev.Call? {
      hide Inv, Step;
      PublishInv(parse, start, s, p, ev);
    } else if !ev.Call? {
      LookStepOk(parse, s.fs, s.callers[p], ev);
      hide LookStep, CallerOk;
    }
  }

  lemma {:induction false} RunInv(parse: Bytes -> Option<nat>, start: State, evs: seq<(nat, Event)>)
    requires Initial(start)
    ensures Run(parse, start, evs).Some? ==> Inv(parse, start, Run(parse, start, evs).value)
  {
    if evs != [] {
      hide Inv, Step, Initial;
      var most := evs[..|evs| - 1];
      RunInv(parse, start, most);
      var t := Run(parse, start, most);
      if t.Some? && Step(parse, t.value, evs[|evs| - 1].0, evs[|evs| - 1].1).Some? {
        StepInv(parse, start, t.value, evs[|evs| - 1].0, evs[|evs| - 1].1);
      }
    }
  }

  lemma ReachableInv(parse: Bytes -> Option<nat>, start: State, s: State)
    requires Reachable(parse, start, s)
    ensures Inv(parse, start, s)
  {
    hide Inv, Run, Initial;
    var evs :| Run(parse, start, evs) == Some(s);
    RunInv(parse, start, evs);
  }

  // ---- Results ----

  /** All callers that succeed return the same identity: the one the path holds. */
  lemma CallersAgree(parse: Bytes -> Option<nat>, start: State, s: State, p: nat, q: nat)
    requires Reachable(parse, start, s) && p in s.callers && q in s.callers
    requires s.callers[p].Done? && s.callers[p].result.Some? && s.callers[q].Done? && s.callers[q].result.Some?
    ensures s.callers[p].result == s.callers[q].result
    ensures AtPath(s.fs).Some? && parse(AtPath(s.fs).value.content) == s.callers[p].result
    ensures AtPath(s.fs).value.mode % 64 == 0
  {
    hide Reachable;
    ReachableInv(parse, start, s);
  }

  /** The path holds what it held at the start, or else only ever a complete, private, readable key. */
  lemma PathAlwaysComplete(parse: Bytes -> Option<nat>, start: State, s: State)
    requires Reachable(parse, start, s)
    ensures AtPath(start.fs).Some? ==> AtPath(s.fs) == AtPath(start.fs)
    ensures AtPath(start.fs).None? && AtPath(s.fs).Some? ==>
      AtPath(s.fs).value.mode == 0x180 && parse(AtPath(s.fs).value.content).Some?
  {
    hide Reachable;
    ReachableInv(parse, start, s);
  }

  /** Once the path holds a file no step changes which file, its content or its mode. */
  lemma PathNeverChanges(parse: Bytes -> Option<nat>, start: State, s: State, p: nat, ev: Event)
    requires Reachable(parse, start, s) && Step(parse, s, p, ev).Some? && s.fs.path.Some?
    ensures var t := Step(parse, s, p, ev).value; t.fs.path == s.fs.path && AtPath(t.fs) == AtPath(s.fs)
  {
    hide Reachable, PubOk, PubStep, LookStep;
    ReachableInv(parse, start, s);
    if !ev.Call? && s.callers[p].Publishing? { PubStepOk(s.fs, s.callers[p].pub, ev.ev); }
  }

  // ---- Looking at a path that holds a key ----

  function LookedTo(parse: Bytes -> Option<nat>, f: File, retry: bool, steps: nat): Pc {
    if steps == 0 then Statting(retry) else if steps == 1 then Reading(retry) else AfterRead(retry, parse(f.content))
  }

  ghost predicate Looking(parse: Bytes -> Option<nat>, s: State, f: File, p: nat, retry: bool, steps: nat) {
    AtPath(s.fs) == Some(f) && Private(f.mode) && p in s.callers && s.callers[p] == LookedTo(parse, f, retry, steps)
  }

  lemma LookingStep(parse: Bytes -> Option<nat>, start: State, s: State, f: File, p: nat, retry: bool, steps: nat,
    i: nat, ev: Event)
    requires Inv(parse, start, s) && Looking(parse, s, f, p, retry, steps) && Step(parse, s, i, ev).Some? && steps <= 2
    requires i == p ==> ev == Ok && steps < 2
    ensures Looking(parse, Step(parse, s, i, ev).value, f, p, retry, if i == p then steps + 1 else steps)
  {
    hide PubStep, PubOk;
    if !ev.Call? && s.callers[i].Publishing? {
      assert CallerOk(parse, s.fs, s.callers[i]);
      PubStepOk(s.fs, s.callers[i].pub, ev.ev);
    }
  }

  lemma {:induction false} LookingRun(parse: Bytes -> Option<nat>, start: State, s: State, f: File, p: nat, retry: bool,
    evs: seq<(nat, Event)>)
    requires Inv(parse, start, s) && Looking(parse, s, f, p, retry, 0) && Run(parse, s, evs).Some?
    requires Own(evs, p) <= [Ok, Ok]
    ensures var t := Run(parse, s, evs).value; Inv(parse, start, t) && Looking(parse, t, f, p, retry, |Own(evs, p)|)
  {
    if evs != [] {
      hide Inv, Step, Looking;
      var most, last := evs[..|evs| - 1], evs[|evs| - 1];
      assert Own(most, p) <= Own(evs, p);
      LookingRun(parse, start, s, f, p, retry, most);
      StepInv(parse, start, Run(parse, s, most).value, last.0, last.1);
      if last.0 == p { assert Own(evs, p)[|Own(most, p)|] == last.1; }
      LookingStep(parse, start, Run(parse, s, most).value, f, p, retry, |Own(most, p)|, last.0, last.1);
    }
  }

  /**
   A caller that has lost the race, or looks when the key is already there, and meets no error gets the
   key the path holds, whatever others do meanwhile. One that has lost the race always finds a key.
   */
  lemma LoserReadsWinner(parse: Bytes -> Option<nat>, start: State, s: State, p: nat, evs: seq<(nat, Event)>)
    requires Reachable(parse, start, s) && AtPath(start.fs).None? && p in s.callers
    requires s.callers[p] == Statting(true) || (s.callers[p] == Statting(false) && AtPath(s.fs).Some?)
    requires Run(parse, s, evs).Some? && Own(evs, p) == [Ok, Ok]
    ensures AtPath(s.fs).Some? && parse(AtPath(s.fs).value.content).Some?
    ensures var t := Run(parse, s, evs).value;
      && p in t.callers && t.callers[p] == AfterRead(s.callers[p].retry, parse(AtPath(s.fs).value.content))
      && AtPath(t.fs) == AtPath(s.fs)
  {
    hide Reachable, Run, Own;
    ReachableInv(parse, start, s);
    assert CallerOk(parse, s.fs, s.callers[p]);
    LookingRun(parse, start, s, AtPath(s.fs).value, p, s.callers[p].retry, evs);
  }

  // ---- A key from before ----

  /** Where a caller that meets no error is with a file it finds, after so many steps. */
  function FoundTo(parse: Bytes -> Option<nat>, f: File, steps: nat): Pc {
    if steps == 0 then Statting(false)
    else if f.mode % 64 != 0 then Done(None)
    else if steps == 1 then Reading(false) else Done(parse(f.content))
  }

  ghost predicate Finding(parse: Bytes -> Option<nat>, s: State, f: File, p: nat, steps: nat) {
    AtPath(s.fs) == Some(f) && p in s.callers && s.callers[p] == FoundTo(parse, f, steps)
  }

  lemma FindingStep(parse: Bytes -> Option<nat>, start: State, s: State, f: File, p: nat, steps: nat,
    i: nat, ev: Event)
    requires Inv(parse, start, s) && Finding(parse, s, f, p, steps) && Step(parse, s, i, ev).Some?
    requires i == p ==> ev == Ok
    ensures Finding(parse, Step(parse, s, i, ev).value, f, p, if i == p then steps + 1 else steps)
  {
    hide PubStep, PubOk;
    if !ev.Call? && s.callers[i].Publishing? {
      assert CallerOk(parse, s.fs, s.callers[i]);
      PubStepOk(s.fs, s.callers[i].pub, ev.ev);
    }
  }

  /** Every event of the caller was a call that succeeded. */
  ghost predicate NoErrors(evs: seq<Event>) {
    forall i :: 0 <= i < |evs| ==> evs[i] == Ok
  }

  lemma {:induction false} FindingRun(parse: Bytes -> Option<nat>, start: State, s: State, f: File, p: nat,
    evs: seq<(nat, Event)>)
    requires Inv(parse, start, s) && Finding(parse, s, f, p, 0) && Run(parse, s, evs).Some? && NoErrors(Own(evs, p))
    ensures var t := Run(parse, s, evs).value; Inv(parse, start, t) && Finding(parse, t, f, p, |Own(evs, p)|)
  {
    if evs != [] {
      hide Inv, Step, Finding;
      var most, last := evs[..|evs| - 1], evs[|evs| - 1];
      assert Own(most, p) <= Own(evs, p);
      FindingRun(parse, start, s, f, p, most);
      StepInv(parse, start, Run(parse, s, most).value, last.0, last.1);
      if last.0 == p { assert Own(evs, p)[|Own(most, p)|] == last.1; }
      FindingStep(parse, start, Run(parse, s, most).value, f, p, |Own(most, p)|, last.0, last.1);
    }
  }

  /**
   A caller that finds a file from before and meets no error succeeds if and only if the file is private
   and parses; it then returns that key. The file stays as it is.
   */
  lemma ExistingKeyIff(parse: Bytes -> Option<nat>, start: State, s: State, p: nat, evs: seq<(nat, Event)>)
    requires Reachable(parse, start, s) && AtPath(start.fs).Some? && p in s.callers && s.callers[p] == Statting(false)
    requires Run(parse, s, evs).Some? && NoErrors(Own(evs, p))
    requires p in Run(parse, s, evs).value.callers && Run(parse, s, evs).value.callers[p].Done?
    ensures var f := AtPath(start.fs).value;
      var result := Run(parse, s, evs).value.callers[p].result;
      && (result.Some? <==> f.mode % 64 == 0 && parse(f.content).Some?)
      && (result.Some? ==> result == parse(f.content))
      && AtPath(Run(parse, s, evs).value.fs) == AtPath(start.fs)
  {
    hide Reachable, Run, Own, NoErrors;
    ReachableInv(parse, start, s);
    FindingRun(parse, start, s, AtPath(start.fs).value, p, evs);
  }

  // ---- A caller alone makes the key ----

  lemma RunSnoc(parse: Bytes -> Option<nat>, s: State, evs: seq<(nat, Event)>, ev: Event)
    ensures Run(parse, s, evs).Some? ==> Run(parse, s, evs + [(0, ev)]) == Step(parse, Run(parse, s, evs).value, 0, ev)
  {
    hide Step;
    assert (evs + [(0, ev)])[..|evs|] == evs;
  }

  /** The only caller, publishing through inode 0. */
  function Publishes(pc: PubPc, pem: Bytes, content: Bytes, path: Option<nat>): State {
    State(Fs(map[0 := File(content, 0x180)], path), map[0 := Publishing(Pub(pc, Some(0), pem, 0x180))])
  }

  lemma Overwritten(a: Pc, b: Pc, f: File, g: File)
    ensures map[0 := a][0 := b] == map[0 := b] && map[0 := f][0 := g] == map[0 := g]
  {
  }

  /**
   Where nothing is at the path, a caller that meets no error publishes the key it made, mode 0600, and returns it.
   */
  lemma CreatesAlone(parse: Bytes -> Option<nat>, pem: Bytes) returns (evs: seq<(nat, Event)>)
    requires parse(pem).Some?
    ensures Run(parse, State(Fs(map[], None), map[]), evs)
      == Some(State(Fs(map[0 := File(pem, 0x180)], Some(0)), map[0 := Done(parse(pem))]))
  {
    evs := StartsPublishing(parse, pem);
    var none := State(Fs(map[], None), map[]);
    hide Run;
    RunSnoc(parse, none, evs, FileEvent(Proceed));
    Overwritten(Publishing(Pub(Writing, Some(0), pem, 0x180)), Publishing(Pub(Syncing, Some(0), pem, 0x180)),
      File([], 0x180), File(pem, 0x180));
    evs := evs + [(0, FileEvent(Proceed))];
    assert Run(parse, none, evs) == Some(Publishes(Syncing, pem, pem, None));
    RunSnoc(parse, none, evs, FileEvent(Proceed));
    Overwritten(Publishing(Pub(Syncing, Some(0), pem, 0x180)), Publishing(Pub(Closing, Some(0), pem, 0x180)),
      File([], 0), File([], 0));
    evs := evs + [(0, FileEvent(Proceed))];
    assert Run(parse, none, evs) == Some(Publishes(Closing, pem, pem, None));
    RunSnoc(parse, none, evs, FileEvent(Proceed));
    Overwritten(Publishing(Pub(Closing, Some(0), pem, 0x180)), Publishing(Pub(Linking, Some(0), pem, 0x180)),
      File([], 0), File([], 0));
    evs := evs + [(0, FileEvent(Proceed))];
    assert Run(parse, none, evs) == Some(Publishes(Linking, pem, pem, None));
    RunSnoc(parse, none, evs, FileEvent(Proceed));
    Overwritten(Publishing(Pub(Linking, Some(0), pem, 0x180)), Unlinking(parse(pem)), File([], 0), File([], 0));
    evs := evs + [(0, FileEvent(Proceed))];
    RunSnoc(parse, none, evs, Ok);
    Overwritten(Unlinking(parse(pem)), Done(parse(pem)), File([], 0), File([], 0));
    evs := evs + [(0, Ok)];
  }

  lemma StartsPublishing(parse: Bytes -> Option<nat>, pem: Bytes) returns (evs: seq<(nat, Event)>)
    requires parse(pem).Some?
    ensures Run(parse, State(Fs(map[], None), map[]), evs) == Some(Publishes(Writing, pem, [], None))
  {
    var none := State(Fs(map[], None), map[]);
    assert Run(parse, none, []) == Some(none);
    hide Run;
    var f := File([], 0);
    RunSnoc(parse, none, [], Call);
    evs := [] + [(0, Call)];
    RunSnoc(parse, none, evs, Ok);
    Overwritten(Preparing, Statting(false), f, f);
    evs := evs + [(0, Ok)];
    RunSnoc(parse, none, evs, Ok);
    Overwritten(Statting(false), Generating, f, f);
    evs := evs + [(0, Ok)];
    RunSnoc(parse, none, evs, Generated(pem));
    Overwritten(Generating, Publishing(NewPub(pem, 0x180)), f, f);
    evs := evs + [(0, Generated(pem))];
    assert Run(parse, none, evs) == Some(State(Fs(map[], None), map[0 := Publishing(NewPub(pem, 0x180))]));
    RunSnoc(parse, none, evs, FileEvent(Create(0)));
    Overwritten(Publishing(NewPub(pem, 0x180)), Publishing(Pub(Chmodding, Some(0), pem, 0x180)), f, f);
    evs := evs + [(0, FileEvent(Create(0)))];
    assert Run(parse, none, evs) == Some(Publishes(Chmodding, pem, [], None));
    RunSnoc(parse, none, evs, FileEvent(Proceed));
    Overwritten(Publishing(Pub(Chmodding, Some(0), pem, 0x180)), Publishing(Pub(Writing, Some(0), pem, 0x180)),
      File([], 0x180), File([], 0x180));
    evs := evs + [(0, FileEvent(Proceed))];
  }

  // ---- Errors are reported ----

  predicate Faulty(ev: Event) {
    ev.Fail? || (ev.FileEvent? && (ev.ev.Error? || ev.ev.ShortWrite?))
  }

  predicate Faultless(own: seq<Event>) {
    forall i :: 0 <= i < |own| ==> !Faulty(own[i])
  }

  predicate Published(own: seq<Event>) {
    exists i :: 0 <= i < |own| && own[i].FileEvent?
  }

  /** A caller that has not given up has met no error, except perhaps in removing its temporary file at the end. */
  predicate Unhurt(pc: Pc, own: seq<Event>) {
    match pc
    case Done(r) => r.Some? ==> Faultless(own) || (|own| > 0 && Faultless(own[..|own| - 1]) && Published(own))
    case Unlinking(r) => r.Some? ==> Faultless(own) && Published(own)
    case Statting(retry) => Faultless(own) && (retry ==> Published(own))
    case Reading(retry) => Faultless(own) && (retry ==> Published(own))
    case _ => Faultless(own)
  }

  lemma UnhurtStep(parse: Bytes -> Option<nat>, s: State, p: nat, ev: Event, own: seq<Event>)
    requires Step(parse, s, p, ev).Some? && (if p in s.callers then Unhurt(s.callers[p], own) else own == [])
    requires p in s.callers && s.callers[p].Publishing? ==> !Ended(s.callers[p].pub.pc)
    ensures p in Step(parse, s, p, ev).value.callers
    ensures var pc := Step(parse, s, p, ev).value.callers[p];
      Unhurt(pc, own + [ev]) && (pc.Publishing? ==> !Ended(pc.pub.pc))
  {
    var more := own + [ev];
    assert more[..|more| - 1] == own;
    assert more[|own|] == ev;
    assert forall i :: 0 <= i < |own| ==> more[i] == own[i];
  }

  lemma {:induction false} RunUnhurt(parse: Bytes -> Option<nat>, start: State, evs: seq<(nat, Event)>, p: nat)
    requires start.callers == map[] && Run(parse, start, evs).Some?
    ensures var s := Run(parse, start, evs).value;
      if p in s.callers
      then Unhurt(s.callers[p], Own(evs, p)) && (s.callers[p].Publishing? ==> !Ended(s.callers[p].pub.pc))
      else Own(evs, p) == []
  {
    if evs != [] {
      hide Unhurt, PubStep, LookStep, AfterPublish;
      var most, last := evs[..|evs| - 1], evs[|evs| - 1];
      RunUnhurt(parse, start, most, p);
      if last.0 == p {
        hide Step;
        UnhurtStep(parse, Run(parse, start, most).value, p, last.1, Own(most, p));
      } else {
        assert Own(most, p) + [] == Own(most, p);
      }
    }
  }

  /** A caller that returns a key has met no error, except perhaps in removing its temporary file at the very end. */
  lemma SuccessMeansNoErrors(parse: Bytes -> Option<nat>, start: State, evs: seq<(nat, Event)>, p: nat)
    requires start.callers == map[] && Run(parse, start, evs).Some?
    requires p in Run(parse, start, evs).value.callers && Run(parse, start, evs).value.callers[p].Done?
    requires Run(parse, start, evs).value.callers[p].result.Some?
    ensures var own := Own(evs, p); Faultless(own) || (Faultless(own[..|own| - 1]) && Published(own))
  {
    hide Run;
    RunUnhurt(parse, start, evs, p);
  }
}
