/**
 `Install` on Linux: any number of callers installing a service of one name, interleaved at every
 file-system and `systemctl` call, with roll-back by name. Nobody uninstalls meanwhile.
 */
module UnitInstall {
  import opened Base
  import opened Files

  const UNIT_MODE: nat := 0x1a4   // 0644

  /** What is still to do after the unit file was published. */
  datatype Pc =
    | Checking | Publishing(pub: Pub) | Unlinking(pub: Pub) | Reloading(pub: Pub) | Enabling(pub: Pub)
      | RollingBack(pub: Pub)
    | ReloadingAgain(pub: Pub, removed: bool) | Installed(pub: Pub) | Refused | RolledBack(pub: Pub, removed: bool)

  /** `unit` is the rendered unit, or nothing when rendering fails. */
  datatype Caller = Caller(unit: Option<Bytes>, automatic: bool, pc: Pc)

  /** What callers have done to the path and asked of `systemctl`, and whether it worked. */
  datatype Deed = Link | Remove(ok: bool) | Reload(ok: bool) | Enable(ok: bool)

  /** `log` is a history: the deeds of all callers, in order. */
  datatype State = State(fs: Fs, callers: map<nat, Caller>, log: seq<(nat, Deed)>)

  datatype Event = Call(unit: Option<Bytes>, automatic: bool) | Ok | Fail | FileEvent(ev: PubEvent)

  /** `publishUnitFile` returned, once its temporary name is removed. */
  function AfterPublish(p: Pub): Pc {
    if Ended(p.pc) then (if p.fd.Some? then Unlinking(p) else Refused) else Publishing(p)
  }

  /** The steps that do not go through `Files.PubStep`; only the roll-back touches the path. */
  function LocalStep(fs: Fs, c: Caller, ev: Event): Option<(Fs, Pc)> {
    if !ev.Ok? && !ev.Fail? then None else
    match c.pc
    case Checking =>
      Some((fs, if ev.Fail? || fs.path.Some? || c.unit.None? then Refused
        else Publishing(NewPub(c.unit.value, UNIT_MODE))))
    case Unlinking(p) => Some((fs, if p.pc.Published? then Reloading(p) else Refused))
    case Reloading(p) =>
      Some((fs, if ev.Fail? then RollingBack(p) else if c.automatic then Enabling(p) else Installed(p)))
    case Enabling(p) => Some((fs, if ev.Fail? then RollingBack(p) else Installed(p)))
    case RollingBack(p) =>
      Some(if ev.Fail? || fs.path.None? then (fs, ReloadingAgain(p, false))
        else (fs.(path := None), ReloadingAgain(p, true)))
    case ReloadingAgain(p, removed) => Some((fs, RolledBack(p, removed)))
    case _ => None
  }

  /** What a local step does: `systemctl daemon-reload`, `systemctl enable`, or removing the unit. */
  function DeedOf(fs: Fs, pc: Pc, ev: Event): seq<Deed> {
    match pc
    case Reloading(_) => [Reload(ev.Ok?)]
    case Enabling(_) => [Enable(ev.Ok?)]
    case RollingBack(_) => [Remove(ev.Ok? && fs.path.Some?)]
    case ReloadingAgain(_, _) => [Reload(ev.Ok?)]
    case _ => []
  }

  function Logged(i: nat, deeds: seq<Deed>): seq<(nat, Deed)> {
    if deeds == [] then [] else [(i, deeds[0])]
  }

  function Step(s: State, i: nat, ev: Event): Option<State> {
    if ev.Call? then (if i in s.callers then None
      else Some(s.(callers := s.callers[i := Caller(ev.unit, ev.automatic, Checking)])))
    else if i !in s.callers then None
    else if s.callers[i].pc.Publishing? then
      var r := if ev.FileEvent? then PubStep(s.fs, s.callers[i].pc.pub, ev.ev) else None;
      if r.None? then None
      else Some(State(r.value.0, s.callers[i := s.callers[i].(pc := AfterPublish(r.value.1))],
        s.log + Logged(i, if r.value.1.pc.Published? then [Link] else [])))
    else
      var r := LocalStep(s.fs, s.callers[i], ev);
      if r.None? then None
      else Some(State(r.value.0, s.callers[i := s.callers[i].(pc := r.value.1)],
        s.log + Logged(i, DeedOf(s.fs, s.callers[i].pc, ev))))
  }

  function Run(s: State, evs: seq<(nat, Event)>): Option<State> {
    if evs == [] then Some(s) else
    var t := Run(s, evs[..|evs| - 1]);
    if t.None? then None else Step(t.value, evs[|evs| - 1].0, evs[|evs| - 1].1)
  }

  ghost predicate Initial(s: State) {
    s.callers == map[] && s.log == [] && FsOk(s.fs)
  }

  ghost predicate Reachable(start: State, s: State) {
    Initial(start) && exists evs :: Run(start, evs) == Some(s)
  }

  // ---- Invariant ----

  function PubOf(pc: Pc): Option<Pub> {
    match pc
    case Checking => None
    case Refused => None
    case Publishing(p) => Some(p)
    case Unlinking(p) => Some(p)
    case Reloading(p) => Some(p)
    case Enabling(p) => Some(p)
    case RollingBack(p) => Some(p)
    case ReloadingAgain(p, _) => Some(p)
    case Installed(p) => Some(p)
    case RolledBack(p, _) => Some(p)
  }

  /** The caller has published its unit and not removed it. */
  predicate Holding(pc: Pc) {
    || (pc.Unlinking? && pc.pub.pc.Published?) || pc.Reloading? || pc.Enabling? || pc.RollingBack? || pc.Installed?
    || (pc.ReloadingAgain? && !pc.removed) || (pc.RolledBack? && !pc.removed)
  }

  /** A holder's complete unit is what the path names; every publisher works for its own unit. */
  ghost predicate CallerOk(fs: Fs, c: Caller) {
    && (PubOf(c.pc).Some? ==>
          var p := PubOf(c.pc).value;
          PubOk(fs, p) && c.unit == Some(p.data) && p.mode == UNIT_MODE && (c.pc.Publishing? <==> !Ended(p.pc)))
    && (c.pc.Unlinking? ==> c.pc.pub.fd.Some?)
    && (PubOf(c.pc).Some? && !c.pc.Publishing? && !c.pc.Unlinking? ==> PubOf(c.pc).value.pc.Published?)
    && (Holding(c.pc) ==> fs.path == PubOf(c.pc).value.fd)
  }

  function FdOf(c: Caller): Option<nat> {
    if PubOf(c.pc).Some? then PubOf(c.pc).value.fd else None
  }

  ghost predicate Apart(callers: map<nat, Caller>) {
    forall i, j :: i in callers && j in callers && i != j && FdOf(callers[i]).Some? ==>
      FdOf(callers[i]) != FdOf(callers[j])
  }

  /** Somebody holds the path unless it is as it was at the start. */
  ghost predicate PathOk(start: State, s: State) {
    if start.fs.path.Some? then s.fs.path == start.fs.path && AtPath(s.fs) == AtPath(start.fs) && forall i ::
      i in s.callers ==> !Holding(s.callers[i].pc)
    else s.fs.path.Some? <==> exists i :: i in s.callers && Holding(s.callers[i].pc)
  }

  ghost predicate Inv(start: State, s: State) {
    && FsOk(s.fs) && Apart(s.callers) && PathOk(start, s)
    && forall i :: i in s.callers ==> CallerOk(s.fs, s.callers[i])
  }

  // ---- Publishing steps ----

  lemma PublishOwn(fs: Fs, c: Caller, ev: PubEvent)
    requires FsOk(fs) && CallerOk(fs, c) && c.pc.Publishing? && PubStep(fs, c.pc.pub, ev).Some?
    ensures var (gs, q) := PubStep(fs, c.pc.pub, ev).value;
      var d := c.(pc := AfterPublish(q));
      && CallerOk(gs, d) && (FdOf(d).Some? ==> FdOf(d) == q.fd)
      && (Holding(d.pc) <==> q.pc.Published?)
  {
    PubStepOk(fs, c.pc.pub, ev);
    hide PubStep;
  }

  lemma PublishOther(fs: Fs, pub: Pub, ev: PubEvent, other: Caller)
    requires FsOk(fs) && PubOk(fs, pub) && PubStep(fs, pub, ev).Some? && CallerOk(fs, other)
    requires FdOf(other).Some? ==> FdOf(other) != pub.fd
    ensures CallerOk(PubStep(fs, pub, ev).value.0, other)
    ensures FdOf(other).Some? ==> FdOf(other) != PubStep(fs, pub, ev).value.1.fd
  {
    PubStepOk(fs, pub, ev);
    if PubOf(other.pc).Some? { OthersUndisturbed(fs, pub, ev, PubOf(other.pc).value); }
    hide PubStep;
  }

  lemma PublishInv(start: State, s: State, i: nat, ev: Event)
    requires Inv(start, s) && i in s.callers && s.callers[i].pc.Publishing? && Step(s, i, ev).Some?
    ensures Inv(start, Step(s, i, ev).value)
  {
    hide PubOk, PubStep, Ended, AfterPublish, PathOk;
    var c := s.callers[i];
    var t := Step(s, i, ev).value;
    var (gs, q) := PubStep(s.fs, c.pc.pub, ev.ev).value;
    PublishOwn(s.fs, c, ev.ev);
    PubStepOk(s.fs, c.pc.pub, ev.ev);
    forall j | j in s.callers && j != i
      ensures CallerOk(gs, s.callers[j]) && (FdOf(s.callers[j]).Some? ==> FdOf(s.callers[j]) != q.fd)
    {
      PublishOther(s.fs, c.pc.pub, ev.ev, s.callers[j]);
    }
    hide CallerOk, FdOf;
    PublishPath(start, s, i, ev);
  }

  lemma PublishPath(start: State, s: State, i: nat, ev: Event)
    requires FsOk(s.fs) && PathOk(start, s) && i in s.callers && s.callers[i].pc.Publishing? && Step(s, i, ev).Some?
    requires PubOk(s.fs, s.callers[i].pc.pub) && !Ended(s.callers[i].pc.pub.pc)
    requires Holding(Step(s, i, ev).value.callers[i].pc)
      <==> PubStep(s.fs, s.callers[i].pc.pub, ev.ev).value.1.pc.Published?
    ensures PathOk(start, Step(s, i, ev).value)
  {
    var t := Step(s, i, ev).value;
    PubStepOk(s.fs, s.callers[i].pc.pub, ev.ev);
    hide PubStep, PubOk, AfterPublish, Ended, Holding;
    assert !Holding(s.callers[i].pc) by { NotHolding(s.callers[i].pc); }
    assert forall j :: j in s.callers && j != i ==> t.callers[j] == s.callers[j];
  }

  lemma NotHolding(pc: Pc)
    requires pc.Publishing? || pc.Checking?
    ensures !Holding(pc)
  {
  }

  // ---- Local steps ----

  lemma LocalOwn(fs: Fs, c: Caller, ev: Event)
    requires CallerOk(fs, c) && FsOk(fs) && LocalStep(fs, c, ev).Some?
    ensures var (gs, pc) := LocalStep(fs, c, ev).value;
      && CallerOk(gs, c.(pc := pc)) && gs.inodes == fs.inodes
      && (FdOf(c.(pc := pc)).Some? ==> FdOf(c.(pc := pc)) == FdOf(c))
      && (gs.path != fs.path ==> Holding(c.pc) && !Holding(pc) && gs.path.None?)
      && (gs.path == fs.path ==> (Holding(c.pc) <==> Holding(pc)))
  {
  }

  lemma LocalOther(fs: Fs, c: Caller, ev: Event, other: Caller)
    requires CallerOk(fs, c) && FsOk(fs) && LocalStep(fs, c, ev).Some? && CallerOk(fs, other)
    requires FdOf(other).Some? ==> FdOf(other) != FdOf(c)
    ensures CallerOk(LocalStep(fs, c, ev).value.0, other)
  {
    LocalOwn(fs, c, ev);
    hide LocalStep;
  }

  lemma LocalInv(start: State, s: State, i: nat, ev: Event)
    requires Inv(start, s) && i in s.callers && !s.callers[i].pc.Publishing? && !ev.Call? && Step(s, i, ev).Some?
    ensures Inv(start, Step(s, i, ev).value)
  {
    hide LocalStep, CallerOk, FdOf, Holding;
    var t := Step(s, i, ev).value;
    LocalOwn(s.fs, s.callers[i], ev);
    forall j | j in s.callers && j != i ensures CallerOk(t.fs, s.callers[j]) {
      LocalOther(s.fs, s.callers[i], ev, s.callers[j]);
    }
    forall j | j in s.callers && j != i && Holding(s.callers[i].pc) ensures !Holding(s.callers[j].pc) {
      OneHolder(start, s, i, j);
    }
    LocalPath(start, s, t, i);
    hide PathOk;
  }

  lemma LocalPath(start: State, s: State, t: State, i: nat)
    requires PathOk(start, s) && i in s.callers && t.fs.inodes == s.fs.inodes && i in t.callers
    requires t.callers == s.callers[i := t.callers[i]]
    requires t.fs.path != s.fs.path ==> Holding(s.callers[i].pc) && !Holding(t.callers[i].pc) && t.fs.path.None?
    requires t.fs.path == s.fs.path ==> (Holding(s.callers[i].pc) <==> Holding(t.callers[i].pc))
    requires forall j :: j in s.callers && j != i && Holding(s.callers[i].pc) ==> !Holding(s.callers[j].pc)
    ensures PathOk(start, t)
  {
    hide Holding;
    if start.fs.path.None? && t.fs.path.Some? {
      var j :| j in s.callers && Holding(s.callers[j].pc);
      assert j in t.callers && Holding(t.callers[j].pc);
    }
    assert forall j :: j in s.callers && j != i ==> t.callers[j] == s.callers[j];
  }

  /** Two callers cannot both hold the path. */
  lemma OneHolder(start: State, s: State, i: nat, j: nat)
    requires Inv(start, s) && i in s.callers && j in s.callers && i != j && Holding(s.callers[i].pc)
    ensures !Holding(s.callers[j].pc)
  {
    hide PathOk;
  }

  // ---- All steps, all runs ----

  lemma CallInv(start: State, s: State, i: nat, ev: Event)
    requires Inv(start, s) && ev.Call? && Step(s, i, ev).Some?
    ensures Inv(start, Step(s, i, ev).value)
  {
    hide PubOk, AtPath, Holding, Ended;
    var t := Step(s, i, ev).value;
    NotHolding(Checking);
    assert forall j :: j in s.callers ==> t.callers[j] == s.callers[j];
    if start.fs.path.None? && s.fs.path.Some? {
      var j :| j in s.callers && Holding(s.callers[j].pc);
      assert j in t.callers && Holding(t.callers[j].pc);
    }
  }

  lemma StepInv(start: State, s: State, i: nat, ev: Event)
    requires Inv(start, s) && Step(s, i, ev).Some?
    ensures Inv(start, Step(s, i, ev).value)
  {
    hide Inv, PubStep, LocalStep;
    if ev.Call? { CallInv(start, s, i, ev); }
    else if s.callers[i].pc.Publishing? { PublishInv(start, s, i, ev); }
    else { LocalInv(start, s, i, ev); }
  }

  lemma {:induction false} RunInv(start: State, evs: seq<(nat, Event)>)
    requires Initial(start)
    ensures Run(start, evs).Some? ==> Inv(start, Run(start, evs).value)
  {
    if evs != [] {
      hide Inv, Step, Initial;
      var most := evs[..|evs| - 1];
      RunInv(start, most);
      var t := Run(start, most);
      if t.Some? && Step(t.value, evs[|evs| - 1].0, evs[|evs| - 1].1).Some? {
        StepInv(start, t.value, evs[|evs| - 1].0, evs[|evs| - 1].1);
      }
    }
  }

  lemma ReachableInv(start: State, s: State)
    requires Reachable(start, s)
    ensures Inv(start, s)
  {
    hide Inv, Run, Initial;
    var evs :| Run(start, evs) == Some(s);
    RunInv(start, evs);
  }

  // ---- Results ----

  /** At most one installation succeeds, none if the unit existed; its complete unit is what the path holds. */
  lemma OneInstallSucceeds(start: State, s: State, i: nat)
    requires Reachable(start, s) && i in s.callers && s.callers[i].pc.Installed?
    ensures start.fs.path.None?
    ensures s.callers[i].unit.Some? && AtPath(s.fs) == Some(File(s.callers[i].unit.value, 0x1a4))
    ensures forall j :: j in s.callers && s.callers[j].pc.Installed? ==> j == i
  {
    hide Reachable;
    ReachableInv(start, s);
    assert CallerOk(s.fs, s.callers[i]);
    forall j | j in s.callers && s.callers[j].pc.Installed? ensures j == i { if j != i { OneHolder(start, s, i, j); } }
  }

  /** A unit once installed stays, whatever other callers do. */
  lemma InstalledStays(start: State, s: State, i: nat, j: nat, ev: Event)
    requires Reachable(start, s) && i in s.callers && s.callers[i].pc.Installed? && Step(s, j, ev).Some?
    ensures var t := Step(s, j, ev).value;
      i in t.callers && t.callers[i] == s.callers[i] && AtPath(t.fs) == AtPath(s.fs)
  {
    hide Reachable, PubStep, AtPath;
    ReachableInv(start, s);
    assert CallerOk(s.fs, s.callers[i]);
    var t := Step(s, j, ev).value;
    hide Inv;
    StepInv(start, s, j, ev);
    StillInstalled(s, i, j, ev);
    HeldFile(start, s, i);
    HeldFile(start, t, i);
  }

  lemma StillInstalled(s: State, i: nat, j: nat, ev: Event)
    requires i in s.callers && s.callers[i].pc.Installed? && Step(s, j, ev).Some?
    ensures var t := Step(s, j, ev).value; i in t.callers && t.callers[i] == s.callers[i]
  {
    hide PubStep;
  }

  lemma HeldFile(start: State, s: State, i: nat)
    requires Inv(start, s) && i in s.callers && s.callers[i].pc.Installed?
    ensures s.callers[i].unit.Some? && AtPath(s.fs) == Some(File(s.callers[i].unit.value, UNIT_MODE))
  {
    assert CallerOk(s.fs, s.callers[i]);
  }

  /** A roll-back removes exactly the caller's own unit. */
  lemma RollbackRemovesOwn(start: State, s: State, i: nat)
    requires Reachable(start, s) && i in s.callers && s.callers[i].pc.RollingBack?
    ensures s.callers[i].unit.Some? && AtPath(s.fs) == Some(File(s.callers[i].unit.value, UNIT_MODE))
    ensures s.fs.path == s.callers[i].pc.pub.fd && forall j :: j in s.callers && j != i ==> !Holding(s.callers[j].pc)
  {
    hide Reachable;
    ReachableInv(start, s);
    assert CallerOk(s.fs, s.callers[i]);
    forall j | j in s.callers && j != i ensures !Holding(s.callers[j].pc) { OneHolder(start, s, i, j); }
  }

  predicate Failed(pc: Pc) {
    pc.Refused? || pc.RolledBack?
  }

  /** When every caller has failed the path is as it was, exactly unless some caller's own removal failed. */
  lemma AllFailedRestores(start: State, s: State)
    requires Reachable(start, s) && forall i :: i in s.callers ==> Failed(s.callers[i].pc)
    ensures (s.fs.path == start.fs.path)
      <==> (forall i :: i in s.callers && s.callers[i].pc.RolledBack? ==> s.callers[i].pc.removed)
    ensures s.fs.path == start.fs.path ==> AtPath(s.fs) == AtPath(start.fs)
  {
    hide Reachable;
    ReachableInv(start, s);
    hide CallerOk, Apart;
    forall i | i in s.callers
      ensures Holding(s.callers[i].pc) <==> (s.callers[i].pc.RolledBack? && !s.callers[i].pc.removed) {
      assert Failed(s.callers[i].pc);
    }
  }

  /** The path never holds a partial unit. */
  lemma UnitAlwaysComplete(start: State, s: State)
    requires Reachable(start, s) && start.fs.path.None? && s.fs.path.Some?
    ensures exists i ::
      i in s.callers && s.callers[i].unit.Some? && AtPath(s.fs) == Some(File(s.callers[i].unit.value, UNIT_MODE))
  {
    hide Reachable;
    ReachableInv(start, s);
    var i :| i in s.callers && Holding(s.callers[i].pc);
    assert CallerOk(s.fs, s.callers[i]);
  }

  // ---- What each caller asked of systemctl ----

  /** The deeds that lead to a roll-back: a failed reload, or a failed enable of an automatic unit. */
  predicate Failing(automatic: bool, d: seq<Deed>) {
    d == [Link, Reload(false)] || (automatic && d == [Link, Reload(true), Enable(false)])
  }

  /** The deeds of a caller that has installed its unit. */
  function Installing(automatic: bool): seq<Deed> {
    if automatic then [Link, Reload(true), Enable(true)] else [Link, Reload(true)]
  }

  ghost predicate DeedsAt(c: Caller, d: seq<Deed>) {
    match c.pc
    case Unlinking(p) => d == (if p.pc.Published? then [Link] else [])
    case Reloading(_) => d == [Link]
    case Enabling(_) => c.automatic && d == [Link, Reload(true)]
    case Installed(_) => d == Installing(c.automatic)
    case RollingBack(_) => Failing(c.automatic, d)
    case ReloadingAgain(_, removed) =>
      |d| > 0 && d[|d| - 1] == Remove(removed) && Failing(c.automatic, d[..|d| - 1])
    case RolledBack(_, removed) =>
      && |d| > 1 && d[|d| - 1].Reload? && d[|d| - 2] == Remove(removed) && Failing(c.automatic, d[..|d| - 2])
    case _ => d == []
  }

  lemma OwnMore(log: seq<(nat, Deed)>, i: nat, j: nat, deeds: seq<Deed>)
    requires |deeds| <= 1
    ensures Own(log + Logged(i, deeds), j) == if i == j then Own(log, j) + deeds else Own(log, j)
  {
    if deeds == [] {
      assert log + Logged(i, deeds) == log;
    } else {
      assert (log + Logged(i, deeds))[..|log|] == log;
    }
  }

  lemma LocalDeeds(fs: Fs, c: Caller, ev: Event, d: seq<Deed>)
    requires DeedsAt(c, d) && LocalStep(fs, c, ev).Some?
    ensures DeedsAt(c.(pc := LocalStep(fs, c, ev).value.1), d + DeedOf(fs, c.pc, ev))
  {
    var e := d + DeedOf(fs, c.pc, ev);
    if |DeedOf(fs, c.pc, ev)| == 1 { assert e[..|e| - 1] == d; }
    if c.pc.ReloadingAgain? { assert e[..|e| - 2] == d[..|d| - 1]; }
  }

  lemma PublishDeeds(fs: Fs, c: Caller, ev: PubEvent, d: seq<Deed>)
    requires FsOk(fs) && CallerOk(fs, c) && c.pc.Publishing? && DeedsAt(c, d) && PubStep(fs, c.pc.pub, ev).Some?
    ensures var q := PubStep(fs, c.pc.pub, ev).value.1;
      DeedsAt(c.(pc := AfterPublish(q)), d + (if q.pc.Published? then [Link] else []))
  {
    PubStepOk(fs, c.pc.pub, ev);
    hide PubStep;
  }

  ghost predicate AllDeeds(s: State) {
    && (forall i :: i in s.callers ==> DeedsAt(s.callers[i], Own(s.log, i)))
    && (forall i :: i !in s.callers ==> Own(s.log, i) == [])
  }

  lemma StepDeeds(start: State, s: State, i: nat, ev: Event)
    requires Inv(start, s) && AllDeeds(s) && Step(s, i, ev).Some?
    ensures AllDeeds(Step(s, i, ev).value)
  {
    hide Own, DeedsAt, LocalStep, PubStep, CallerOk, Apart, PathOk;
    var t := Step(s, i, ev).value;
    if ev.Call? {
      NewDeeds(t.callers[i]);
    } else {
      var c := s.callers[i];
      var deeds := if c.pc.Publishing?
        then (if PubStep(s.fs, c.pc.pub, ev.ev).value.1.pc.Published? then [Link] else [])
        else DeedOf(s.fs, c.pc, ev);
      forall j ensures Own(t.log, j) == if i == j then Own(s.log, j) + deeds else Own(s.log, j) {
        OwnMore(s.log, i, j, deeds);
      }
      if c.pc.Publishing? {
        PublishDeeds(s.fs, c, ev.ev, Own(s.log, i));
      } else {
        LocalDeeds(s.fs, c, ev, Own(s.log, i));
      }
    }
  }

  lemma NewDeeds(c: Caller)
    requires c.pc == Checking
    ensures DeedsAt(c, [])
  {
  }

  lemma {:induction false} RunDeeds(start: State, evs: seq<(nat, Event)>)
    requires Initial(start)
    ensures Run(start, evs).Some? ==> AllDeeds(Run(start, evs).value)
  {
    if evs != [] {
      hide Inv, Step, Initial, AllDeeds;
      var most := evs[..|evs| - 1];
      RunDeeds(start, most);
      RunInv(start, most);
      var t := Run(start, most);
      if t.Some? && Step(t.value, evs[|evs| - 1].0, evs[|evs| - 1].1).Some? {
        StepDeeds(start, t.value, evs[|evs| - 1].0, evs[|evs| - 1].1);
      }
    }
  }

  /**
   What every caller has asked of `systemctl`, in order. An installation has succeeded if and only if the
   unit was linked, the daemon reloaded, and, for an automatic unit and for no other, the unit enabled. A
   caller has rolled back if and only if one of these failed, the unit was then removed or its removal
   failed, and the daemon told to reload once more. All others that have ended did nothing.
   */
  lemma InstallDeeds(start: State, s: State, i: nat)
    requires Reachable(start, s) && i in s.callers
    ensures var c, d := s.callers[i], Own(s.log, i);
      && (c.pc.Installed? <==>
            d == if c.automatic then [Link, Reload(true), Enable(true)] else [Link, Reload(true)])
      && (c.pc.RolledBack? <==>
            && |d| > 2 && d[|d| - 1].Reload? && d[|d| - 2].Remove?
            && (d[..|d| - 2] == [Link, Reload(false)]
                || (c.automatic && d[..|d| - 2] == [Link, Reload(true), Enable(false)])))
      && (c.pc.Refused? ==> d == [])
      && (c.pc.RolledBack? ==> d[|d| - 2] == Remove(c.pc.removed))
  {
    hide Run, Own;
    var evs :| Run(start, evs) == Some(s);
    RunDeeds(start, evs);
    assert DeedsAt(s.callers[i], Own(s.log, i));
  }

  // ---- A caller alone installs its unit ----

  lemma RunSnoc(s: State, evs: seq<(nat, Event)>, ev: Event)
    ensures Run(s, evs).Some? ==> Run(s, evs + [(0, ev)]) == Step(Run(s, evs).value, 0, ev)
  {
    hide Step;
    assert (evs + [(0, ev)])[..|evs|] == evs;
  }

  const EMPTY_DIRECTORY := State(Fs(map[], None), map[], [])

  function Alone(unit: Bytes, automatic: bool, pc: Pc, file: File, path: Option<nat>, log: seq<(nat, Deed)>): State {
    State(Fs(map[0 := file], path), map[0 := Caller(Some(unit), automatic, pc)], log)
  }

  function At(pc: PubPc, unit: Bytes): Pub {
    Pub(pc, Some(0), unit, 0x1a4)
  }

  lemma Overwritten(unit: Bytes, automatic: bool, a: Pc, b: Pc, f: File, g: File)
    ensures map[0 := Caller(Some(unit), automatic, a)][0 := Caller(Some(unit), automatic, b)]
      == map[0 := Caller(Some(unit), automatic, b)]
    ensures map[0 := f][0 := g] == map[0 := g]
  {
  }

  lemma NothingLogged()
    ensures forall log: seq<(nat, Deed)> :: log + Logged(0, []) == log
  {
  }

  lemma StartsPublishing(unit: Bytes, automatic: bool) returns (evs: seq<(nat, Event)>)
    ensures Run(EMPTY_DIRECTORY, evs)
      == Some(Alone(unit, automatic, Publishing(At(Chmodding, unit)), File([], 0x180), None, []))
  {
    assert Run(EMPTY_DIRECTORY, []) == Some(EMPTY_DIRECTORY);
    hide Run;
    var f := File([], 0);
    NothingLogged();
    RunSnoc(EMPTY_DIRECTORY, [], Call(Some(unit), automatic));
    evs := [] + [(0, Call(Some(unit), automatic))];
    RunSnoc(EMPTY_DIRECTORY, evs, Ok);
    Overwritten(unit, automatic, Checking, Publishing(NewPub(unit, 0x1a4)), f, f);
    evs := evs + [(0, Ok)];
    RunSnoc(EMPTY_DIRECTORY, evs, FileEvent(Create(0)));
    Overwritten(unit, automatic, Publishing(NewPub(unit, 0x1a4)), Publishing(At(Chmodding, unit)), f, f);
    evs := evs + [(0, FileEvent(Create(0)))];
  }

  lemma Proceeds(unit: Bytes, automatic: bool, evs: seq<(nat, Event)>, a: PubPc, b: PubPc, f: File, g: File)
    requires Run(EMPTY_DIRECTORY, evs) == Some(Alone(unit, automatic, Publishing(At(a, unit)), f, None, []))
    requires (a == Chmodding && b == Writing && g == f.(mode := 0x1a4))
      || (a == Writing && b == Syncing && g == f.(content := unit))
      || (a == Syncing && b == Closing && f == g) || (a == Closing && b == Linking && f == g)
    ensures Run(EMPTY_DIRECTORY, evs + [(0, FileEvent(Proceed))])
      == Some(Alone(unit, automatic, Publishing(At(b, unit)), g, None, []))
  {
    hide Run;
    NothingLogged();
    RunSnoc(EMPTY_DIRECTORY, evs, FileEvent(Proceed));
    Overwritten(unit, automatic, Publishing(At(a, unit)), Publishing(At(b, unit)), f, g);
  }

  lemma LinksUnit(unit: Bytes, automatic: bool) returns (evs: seq<(nat, Event)>)
    ensures Run(EMPTY_DIRECTORY, evs)
      == Some(Alone(unit, automatic, Reloading(At(Published, unit)), File(unit, 0x1a4), Some(0), [(0, Link)]))
  {
    evs := StartsPublishing(unit, automatic);
    hide Run;
    var step := [(0, FileEvent(Proceed))];
    Proceeds(unit, automatic, evs, Chmodding, Writing, File([], 0x180), File([], 0x1a4));
    Proceeds(unit, automatic, evs + step, Writing, Syncing, File([], 0x1a4), File(unit, 0x1a4));
    Proceeds(unit, automatic, evs + step + step, Syncing, Closing, File(unit, 0x1a4), File(unit, 0x1a4));
    Proceeds(unit, automatic, evs + step + step + step, Closing, Linking, File(unit, 0x1a4), File(unit, 0x1a4));
    evs := evs + step + step + step + step;
    RunSnoc(EMPTY_DIRECTORY, evs, FileEvent(Proceed));
    Overwritten(unit, automatic, Publishing(At(Linking, unit)), Unlinking(At(Published, unit)), File([], 0),
      File([], 0));
    evs := evs + step;
    assert [] + [(0, Link)] == [(0, Link)];
    RunSnoc(EMPTY_DIRECTORY, evs, Ok);
    Overwritten(unit, automatic, Unlinking(At(Published, unit)), Reloading(At(Published, unit)), File([], 0),
      File([], 0));
    evs := evs + [(0, Ok)];
    assert [(0, Link)] + [] == [(0, Link)];
  }

  /** Where no unit is, a caller that meets no error installs its own, complete and of mode 0644. */
  lemma InstallsAlone(unit: Bytes, automatic: bool) returns (evs: seq<(nat, Event)>)
    ensures Run(EMPTY_DIRECTORY, evs).Some?
    ensures var s := Run(EMPTY_DIRECTORY, evs).value;
      0 in s.callers && s.callers[0].pc.Installed? && AtPath(s.fs) == Some(File(unit, 0x1a4))
  {
    evs := LinksUnit(unit, automatic);
    hide Run;
    RunSnoc(EMPTY_DIRECTORY, evs, Ok);
    evs := evs + [(0, Ok)];
    if automatic {
      RunSnoc(EMPTY_DIRECTORY, evs, Ok);
      evs := evs + [(0, Ok)];
    }
  }

  // ---- Errors are reported ----

  predicate Faulty(ev: Event) {
    ev.FileEvent? && (ev.ev.Error? || ev.ev.ShortWrite?)
  }

  /** The unit was rendered, the first look at the path worked, and so did every operation on the temporary file. */
  predicate Smooth(c: Caller, own: seq<Event>) {
    |own| >= 2 && own[1] == Ok && c.unit.Some? && forall i :: 0 <= i < |own| ==> !Faulty(own[i])
  }

  /** A publisher that has met no error yet, or has ended with one. */
  predicate Unhurt(c: Caller, own: seq<Event>) {
    match c.pc
    case Checking => |own| == 1 && own[0].Call?
    case Refused => true
    case Publishing(p) => Smooth(c, own) && !Ended(p.pc)
    case Unlinking(p) => p.pc.Published? ==> Smooth(c, own)
    case _ => Smooth(c, own)
  }

  lemma UnhurtStep(s: State, i: nat, ev: Event, own: seq<Event>)
    requires Step(s, i, ev).Some? && (if i in s.callers then Unhurt(s.callers[i], own) else own == [])
    ensures i in Step(s, i, ev).value.callers
    ensures Unhurt(Step(s, i, ev).value.callers[i], own + [ev])
  {
    hide DeedOf, Logged;
    var more := own + [ev];
    assert forall k :: 0 <= k < |more| ==> more[k] == if k < |own| then own[k] else ev;
  }

  lemma {:induction false} RunUnhurt(start: State, evs: seq<(nat, Event)>, i: nat)
    requires start.callers == map[] && Run(start, evs).Some?
    ensures var s := Run(start, evs).value;
      if i in s.callers then Unhurt(s.callers[i], Own(evs, i)) else Own(evs, i) == []
  {
    if evs != [] {
      hide Unhurt, PubStep, LocalStep, AfterPublish, DeedOf, Logged;
      var most, last := evs[..|evs| - 1], evs[|evs| - 1];
      RunUnhurt(start, most, i);
      if last.0 == i {
        hide Step;
        UnhurtStep(Run(start, most).value, i, last.1, Own(most, i));
      } else {
        assert Own(most, i) + [] == Own(most, i);
      }
    }
  }

  /**
   A caller that has installed its unit, or is rolling it back, had it rendered, found the path free and met no
   error in publishing it.
   */
  lemma InstalledMeansNoErrors(start: State, evs: seq<(nat, Event)>, i: nat)
    requires start.callers == map[] && Run(start, evs).Some? && i in Run(start, evs).value.callers
    requires var pc := Run(start, evs).value.callers[i].pc; pc.Installed? || pc.RolledBack?
    ensures var own := Own(evs, i);
      && Run(start, evs).value.callers[i].unit.Some? && |own| >= 2 && own[1] == Ok
      && forall k :: 0 <= k < |own| && own[k].FileEvent? ==> !own[k].ev.Error? && !own[k].ev.ShortWrite?
  {
    hide Run;
    RunUnhurt(start, evs, i);
  }
}
