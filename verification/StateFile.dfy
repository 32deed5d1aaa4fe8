/**
 `LoadOrCreate` on one path: any number of callers interleaved at every file-system call. The creator
 opens the path exclusively and then writes it, so that others can read a part of it. A record's text
 decodes exactly when no more than its last byte, a newline, is missing.
 */
module StateFile {
  import opened Base
  import opened ConnectionCode
  import B64 = Base64Url
  import Files

  const STATE_MODE: nat := 0x180   // 0600

  datatype Record = Record(version: nat, url: Bytes, target: Bytes, route: string, psk: string)

  /** The first `written` of the `size` bytes of a record's text, or a file that was there before. */
  datatype Text = Text(record: Record, written: nat, size: nat) | Foreign(decoded: Option<Record>)

  function Decoded(t: Text): Option<Record> {
    match t
    case Text(record, written, size) => if written + 1 >= size then Some(record) else None
    case Foreign(decoded) => decoded
  }

  datatype File = File(text: Text, mode: nat)

  function RecordOf(c: Code, target: Bytes): Record {
    Record(VERSION, c.relayUrl, target, B64.Encode(c.routeId), B64.Encode(c.psk))
  }

  /** What a caller makes of a text it has read. */
  function Load(url: Bytes, target: Bytes, t: Text): Option<Code> {
    var r := Decoded(t);
    if r.None? || r.value.version != VERSION || r.value.url != url || r.value.target != target then None else
    var route, psk := B64.Decode(r.value.route), B64.Decode(r.value.psk);
    if route.None? || psk.None? then None else
    var c := Code(url, route.value, psk.value);
    if ValidSizes(c) then Some(c) else None
  }

  datatype Pc =
    | Reading | Checking(text: Text) | Generating | Opening(code: Code)
    | Writing(code: Code) | Syncing(code: Code) | Closing(code: Code) | Done(result: Option<Code>) | Crashed

  datatype Caller = Caller(url: Bytes, target: Bytes, pc: Pc)

  /** `owner` is a history: the caller whose exclusive open succeeded, and its code. */
  datatype State = State(file: Option<File>, callers: map<nat, Caller>, owner: Option<(nat, Code)>)

  /** `Crash` ends the caller's process at any point. */
  datatype Event = Call(url: Bytes, target: Bytes) | Ok | Fail | Crash | Generated(route: Bytes, psk: Bytes)
    | Opened(size: nat) | Wrote(count: nat)

  /** The caller takes no further step. */
  predicate Ended(pc: Pc) {
    pc.Done? || pc.Crashed?
  }

  /** The steps that only look at the file. */
  function LookStep(file: Option<File>, c: Caller, ev: Event): Option<Pc> {
    if ev.Crash? then (if Ended(c.pc) then None else Some(Crashed)) else
    match c.pc
    case Reading => if ev.Fail? then Some(Done(None)) else if !ev.Ok? then None
      else Some(if file.None? then Generating else Checking(file.value.text))
    case Checking(text) => (
      if ev.Fail? then Some(Done(None)) else if !ev.Ok? then None
      else Some(Done(if file.Some? && Files.Private(file.value.mode) then Load(c.url, c.target, text) else None)))
    case Generating => (
      if ev.Fail? then Some(Done(None))
      else if ev.Generated? && |ev.route| == ROUTE_SIZE && |ev.psk| == PSK_SIZE
        then Some(Opening(Code(c.url, ev.route, ev.psk))) else None)
    case Opening(code) => if ev.Fail? || (ev.Ok? && file.Some?) then Some(Done(None)) else None
    case Writing(code) =>
      if ev.Fail? then Some(Done(None))
        else if ev.Ok? && file.Some? && file.value.text.Text? && file.value.text.written == file.value.text.size
          then Some(Syncing(code)) else None
    case Syncing(code) => if ev.Fail? then Some(Done(None)) else if ev.Ok? then Some(Closing(code)) else None
    case Closing(code) => if ev.Fail? then Some(Done(None)) else if ev.Ok? then Some(Done(Some(code))) else None
    case _ => None
  }

  /** The exclusive open succeeds. */
  function OpenStep(s: State, i: nat, size: nat): Option<State> {
    if i !in s.callers || !s.callers[i].pc.Opening? || s.file.Some? || size < 2 then None else
    var c := s.callers[i];
    Some(State(Some(File(Text(RecordOf(c.pc.code, c.target), 0, size), STATE_MODE)),
      s.callers[i := c.(pc := Writing(c.pc.code))], Some((i, c.pc.code))))
  }

  /** More of the record reaches the file. */
  function WriteStep(s: State, i: nat, count: nat): Option<State> {
    if i !in s.callers || !s.callers[i].pc.Writing? || s.file.None? || !s.file.value.text.Text? then None else
    var text := s.file.value.text;
    if text.written + count > text.size then None
      else Some(s.(file := Some(s.file.value.(text := text.(written := text.written + count)))))
  }

  function Step(s: State, i: nat, ev: Event): Option<State> {
    if ev.Call? then (if i in s.callers then None
      else Some(s.(callers := s.callers[i := Caller(ev.url, ev.target, Reading)])))
    else if ev.Opened? then OpenStep(s, i, ev.size)
    else if ev.Wrote? then WriteStep(s, i, ev.count)
    else if i !in s.callers then None
    else
      var pc := LookStep(s.file, s.callers[i], ev);
      if pc.None? then None else Some(s.(callers := s.callers[i := s.callers[i].(pc := pc.value)]))
  }

  function Run(s: State, evs: seq<(nat, Event)>): Option<State> {
    if evs == [] then Some(s) else
    var t := Run(s, evs[..|evs| - 1]);
    if t.None? then None else Step(t.value, evs[|evs| - 1].0, evs[|evs| - 1].1)
  }

  /** No callers yet; the path may hold any file. */
  ghost predicate Initial(s: State) {
    s.callers == map[] && s.owner.None? && (s.file.Some? ==> s.file.value.text.Foreign?)
  }

  ghost predicate Reachable(start: State, s: State) {
    Initial(start) && exists evs :: Run(start, evs) == Some(s)
  }

  // ---- Invariant ----

  /** Writing back and reading again gives the same code. */
  lemma RecordLoads(c: Code, target: Bytes, written: nat, size: nat)
    requires ValidSizes(c) && written + 1 >= size
    ensures Load(c.relayUrl, target, Text(RecordOf(c, target), written, size)) == Some(c)
  {
    hide B64.Encode, B64.Decode;
    B64.RoundTrip(c.routeId);
    B64.RoundTrip(c.psk);
  }

  predicate OwnerPc(pc: Pc) {
    pc.Writing? || pc.Syncing? || pc.Closing?
  }

  /** What a caller has seen or returned is what the file says, now and later. */
  ghost predicate CallerOk(file: Option<File>, owner: Option<(nat, Code)>, i: nat, c: Caller) {
    && (c.pc.Checking? && Decoded(c.pc.text).Some? ==> file.Some? && Decoded(file.value.text) == Decoded(c.pc.text))
    && (c.pc.Opening? ==> ValidSizes(c.pc.code) && c.pc.code.relayUrl == c.url)
    && (OwnerPc(c.pc) ==> owner == Some((i, c.pc.code)))
    && (c.pc.Syncing? || c.pc.Closing? ==> file.Some? && Decoded(file.value.text).Some?)
    && (c.pc.Done? && c.pc.result.Some? ==> file.Some? && Load(c.url, c.target, file.value.text) == c.pc.result)
  }

  ghost predicate FileOk(start: State, s: State) {
    if s.owner.None? then s.file == start.file else
    && start.file.None? && s.file.Some? && s.file.value.mode == STATE_MODE && s.file.value.text.Text?
    && var (i, code) := s.owner.value;
    && i in s.callers && ValidSizes(code) && code.relayUrl == s.callers[i].url
    && s.file.value.text.record == RecordOf(code, s.callers[i].target)
    && s.file.value.text.written <= s.file.value.text.size
  }

  ghost predicate Inv(start: State, s: State) {
    && FileOk(start, s)
    && (start.file.Some? ==> start.file.value.text.Foreign?)
    && forall i :: i in s.callers ==> CallerOk(s.file, s.owner, i, s.callers[i])
  }

  lemma LookStepOk(start: State, s: State, i: nat, ev: Event)
    requires Inv(start, s) && i in s.callers && LookStep(s.file, s.callers[i], ev).Some?
    ensures CallerOk(s.file, s.owner, i, s.callers[i].(pc := LookStep(s.file, s.callers[i], ev).value))
  {
    hide B64.Encode, B64.Decode;
    assert CallerOk(s.file, s.owner, i, s.callers[i]);
    if s.callers[i].pc.Closing? {
      var t := s.file.value.text;
      RecordLoads(s.callers[i].pc.code, s.callers[i].target, t.written, t.size);
    }
  }

  lemma OpenInv(start: State, s: State, i: nat, size: nat)
    requires Inv(start, s) && OpenStep(s, i, size).Some?
    ensures Inv(start, OpenStep(s, i, size).value)
  {
    hide Load, RecordOf;
    var t := OpenStep(s, i, size).value;
    assert CallerOk(s.file, s.owner, i, s.callers[i]);
    forall j | j in t.callers ensures CallerOk(t.file, t.owner, j, t.callers[j]) {
      assert CallerOk(s.file, s.owner, j, s.callers[j]);
    }
  }

  /** More text never changes what a file decodes to. */
  lemma GrowOk(f: File, count: nat, owner: Option<(nat, Code)>, i: nat, c: Caller)
    requires f.text.Text? && CallerOk(Some(f), owner, i, c)
    ensures CallerOk(Some(f.(text := f.text.(written := f.text.written + count))), owner, i, c)
  {
    hide B64.Decode;
  }

  lemma WriteInv(start: State, s: State, i: nat, count: nat)
    requires Inv(start, s) && WriteStep(s, i, count).Some?
    ensures Inv(start, WriteStep(s, i, count).value)
  {
    var t := WriteStep(s, i, count).value;
    assert s.owner.Some? by { assert CallerOk(s.file, s.owner, i, s.callers[i]); }
    forall j | j in t.callers ensures CallerOk(t.file, t.owner, j, t.callers[j]) {
      GrowOk(s.file.value, count, s.owner, j, s.callers[j]);
    }
    hide CallerOk, RecordOf;
  }

  lemma StepInv(start: State, s: State, i: nat, ev: Event)
    requires Inv(start, s) && Step(s, i, ev).Some?
    ensures Inv(start, Step(s, i, ev).value)
  {
    if ev.Opened? { OpenInv(start, s, i, ev.size); }
    else if ev.Wrote? { WriteInv(start, s, i, ev.count); }
    else if !ev.Call? {
      LookStepOk(start, s, i, ev);
      hide LookStep, CallerOk, RecordOf;
    }
  }

  lemma {:induction false} RunInv(start: State, evs: seq<(nat, Event)>)
    requires Initial(start)
    ensures Run(start, evs).Some? ==> Inv(start, Run(start, evs).value)
  {
    if evs != [] {
      hide Inv, Step, Initial;
      var most := evs[..|evs| - 1];
      RunInv(start, most);
      var t := Run(start, most);
      if t.Some? && Step(t.value, evs[|evs| - 1].0, evs[|evs| - 1].1).Some? {
        StepInv(start, t.value, evs[|evs| - 1].0, evs[|evs| - 1].1);
      }
    }
  }

  lemma ReachableInv(start: State, s: State)
    requires Reachable(start, s)
    ensures Inv(start, s)
  {
    hide Inv, Run, Initial;
    var evs :| Run(start, evs) == Some(s);
    RunInv(start, evs);
  }

  // ---- Results ----

  predicate Succeeded(s: State, i: nat) {
    i in s.callers && s.callers[i].pc.Done? && s.callers[i].pc.result.Some?
  }

  /** All callers that succeed hold the same route, key and URL, and named the same URL and target. */
  lemma CallersAgree(start: State, s: State, i: nat, j: nat)
    requires Reachable(start, s) && Succeeded(s, i) && Succeeded(s, j)
    ensures s.callers[i].pc.result == s.callers[j].pc.result && s.callers[i].target == s.callers[j].target
    ensures s.callers[i].pc.result.value.relayUrl == s.callers[i].url == s.callers[j].url
    ensures ValidSizes(s.callers[i].pc.result.value)
  {
    hide Reachable, B64.Decode;
    ReachableInv(start, s);
    assert CallerOk(s.file, s.owner, i, s.callers[i]) && CallerOk(s.file, s.owner, j, s.callers[j]);
  }

  /** The file changes only while its creator writes it; what it decodes to is then fixed for good. */
  lemma DecodedNeverChanges(s: State, i: nat, ev: Event)
    requires Step(s, i, ev).Some? && s.file.Some? && Decoded(s.file.value.text).Some?
    ensures var t := Step(s, i, ev).value; t.file.Some? && Decoded(t.file.value.text) == Decoded(s.file.value.text)
  {
  }

  // ---- Reading a file whose creator has ended ----

  /** How far a caller that meets no error has come, with the file as it is. */
  function ReadTo(f: File, c: Caller, steps: nat): Pc {
    if steps == 0 then Reading
    else if steps == 1 then Checking(f.text)
    else Done(if Files.Private(f.mode) then Load(c.url, c.target, f.text) else None)
  }

  /** The creator, if any, has ended, and caller `j` has taken `steps` steps without an error. */
  ghost predicate Settled(s: State, f: File, j: nat, c: Caller, steps: nat) {
    && s.file == Some(f)
    && (s.owner.Some? ==> s.owner.value.0 in s.callers && Ended(s.callers[s.owner.value.0].pc))
    && j in s.callers && s.callers[j] == c.(pc := ReadTo(f, c, steps))
  }

  lemma SettledStep(start: State, s: State, f: File, j: nat, c: Caller, steps: nat, i: nat, ev: Event)
    requires Inv(start, s) && Settled(s, f, j, c, steps) && Step(s, i, ev).Some? && steps <= 2
    requires i == j ==> ev == Event.Ok && steps < 2
    ensures Settled(Step(s, i, ev).value, f, j, c, if i == j then steps + 1 else steps)
  {
    hide Load, RecordOf;
    if i in s.callers { assert CallerOk(s.file, s.owner, i, s.callers[i]); }
  }

  lemma {:induction false} SettledRun(start: State, s: State, f: File, j: nat, c: Caller, evs: seq<(nat, Event)>)
    requires Inv(start, s) && Settled(s, f, j, c, 0) && Run(s, evs).Some?
    requires Own(evs, j) <= [Event.Ok, Event.Ok]
    ensures var t := Run(s, evs).value; Inv(start, t) && Settled(t, f, j, c, |Own(evs, j)|)
  {
    if evs != [] {
      hide Inv, Step, Settled;
      var most, last := evs[..|evs| - 1], evs[|evs| - 1];
      assert Own(most, j) <= Own(evs, j);
      SettledRun(start, s, f, j, c, most);
      StepInv(start, Run(s, most).value, last.0, last.1);
      if last.0 == j { assert Own(evs, j)[|Own(most, j)|] == last.1; }
      SettledStep(start, Run(s, most).value, f, j, c, |Own(most, j)|, last.0, last.1);
    }
  }

  /** The creator has ended before all but the last byte of the file was written. */
  ghost predicate Torn(s: State) {
    && s.owner.Some? && s.owner.value.0 in s.callers && Ended(s.callers[s.owner.value.0].pc)
    && s.file.Some? && s.file.value.text.Text? && s.file.value.text.written + 1 < s.file.value.text.size
  }

  /**
   When the creator has ended, by success, error or crash, a caller for the same URL and target that
   meets no error gets the creator's code, whatever others do meanwhile, exactly if the file is not torn;
   from a torn file it gets an error.
   */
  lemma LoadsIffNotTorn(start: State, s: State, j: nat, evs: seq<(nat, Event)>)
    requires Reachable(start, s) && s.owner.Some? && s.owner.value.0 in s.callers
    requires Ended(s.callers[s.owner.value.0].pc)
    requires j in s.callers && s.callers[j].pc.Reading?
    requires s.callers[j].url == s.callers[s.owner.value.0].url
    requires s.callers[j].target == s.callers[s.owner.value.0].target
    requires Run(s, evs).Some? && Own(evs, j) == [Event.Ok, Event.Ok]
    ensures var t := Run(s, evs).value;
      j in t.callers && t.callers[j].pc == Done(if Torn(s) then None else Some(s.owner.value.1))
  {
    hide Reachable, Run, Own, B64.Encode, B64.Decode;
    ReachableInv(start, s);
    var c := s.callers[j];
    SettledRun(start, s, s.file.value, j, c, evs);
    var text := s.file.value.text;
    if !Torn(s) { RecordLoads(s.owner.value.1, c.target, text.written, text.size); }
  }

  /** After a successful creation every such caller loads the same code. */
  lemma CreatedFileLoads(start: State, s: State, i: nat, j: nat, evs: seq<(nat, Event)>)
    requires Reachable(start, s) && s.owner.Some? && i == s.owner.value.0 && Succeeded(s, i)
    requires j in s.callers && s.callers[j].pc.Reading? && s.callers[j].url == s.callers[i].url
    requires s.callers[j].target == s.callers[i].target
    requires Run(s, evs).Some? && Own(evs, j) == [Event.Ok, Event.Ok]
    ensures j in Run(s, evs).value.callers && Run(s, evs).value.callers[j].pc == s.callers[i].pc
  {
    hide Reachable, Run, Own, B64.Encode, B64.Decode;
    ReachableInv(start, s);
    assert CallerOk(s.file, s.owner, i, s.callers[i]);
    var text := s.file.value.text;
    RecordLoads(s.owner.value.1, s.callers[i].target, text.written, text.size);
    LoadsIffNotTorn(start, s, j, evs);
  }

  // ---- A file from before ----

  /** A record that a caller for this URL and target can use. */
  predicate Usable(r: Record, url: Bytes, target: Bytes) {
    && r.version == 1 && r.url == url && r.target == target
    && B64.Decode(r.route).Some? && |B64.Decode(r.route).value| == 16
    && B64.Decode(r.psk).Some? && |B64.Decode(r.psk).value| == 32
  }

  lemma LoadIff(url: Bytes, target: Bytes, decoded: Option<Record>)
    ensures var code := Load(url, target, Foreign(decoded));
      && (code.Some? <==> decoded.Some? && Usable(decoded.value, url, target))
      && (code.Some? ==>
            code.value == Code(url, B64.Decode(decoded.value.route).value, B64.Decode(decoded.value.psk).value))
  {
    hide B64.Decode;
  }

  /**
   A caller that finds a file from an earlier run and meets no error gets that file's route and key, if and
   only if the file is private, decodes, and fits; otherwise it gets an error. The file stays as it is.
   */
  lemma ExistingFileLoadsIff(start: State, s: State, j: nat, evs: seq<(nat, Event)>)
    requires Reachable(start, s) && start.file.Some? && j in s.callers && s.callers[j].pc.Reading?
    requires Run(s, evs).Some? && Own(evs, j) == [Event.Ok, Event.Ok]
    ensures start.file.value.text.Foreign? && Run(s, evs).value.file == start.file
    ensures j in Run(s, evs).value.callers && Run(s, evs).value.callers[j].pc.Done?
    ensures var result := Run(s, evs).value.callers[j].pc.result;
      var f, c := start.file.value, s.callers[j];
      var r := f.text.decoded;
      && (result.Some? <==> f.mode % 64 == 0 && r.Some? && Usable(r.value, c.url, c.target))
      && (result.Some? ==> result.value == Code(c.url, B64.Decode(r.value.route).value, B64.Decode(r.value.psk).value))
  {
    hide Reachable, Run, Own, Load, RecordOf, B64.Decode;
    ReachableInv(start, s);
    var c := s.callers[j];
    SettledRun(start, s, s.file.value, j, c, evs);
    LoadIff(c.url, c.target, start.file.value.text.decoded);
    hide Inv;
  }

  // ---- A torn file stays torn ----

  lemma StepTorn(start: State, s: State, i: nat, ev: Event)
    requires Inv(start, s) && Torn(s) && Step(s, i, ev).Some?
    ensures Torn(Step(s, i, ev).value) && Step(s, i, ev).value.file == s.file
  {
    hide Load, RecordOf;
    if i in s.callers { assert CallerOk(s.file, s.owner, i, s.callers[i]); }
  }

  lemma {:induction false} RunTorn(start: State, s: State, evs: seq<(nat, Event)>)
    requires Inv(start, s) && Torn(s)
    ensures var t := Run(s, evs); t.Some? ==> Inv(start, t.value) && Torn(t.value) && t.value.file == s.file
  {
    if evs != [] {
      hide Inv, Step, Torn;
      var most := evs[..|evs| - 1];
      RunTorn(start, s, most);
      var t := Run(s, most);
      if t.Some? && Step(t.value, evs[|evs| - 1].0, evs[|evs| - 1].1).Some? {
        StepInv(start, t.value, evs[|evs| - 1].0, evs[|evs| - 1].1);
        StepTorn(start, t.value, evs[|evs| - 1].0, evs[|evs| - 1].1);
      }
    }
  }

  /** A torn file stays for good, and no caller ever loads a code from it: nothing removes or repairs it. */
  lemma TornFileNeverLoads(start: State, s: State, evs: seq<(nat, Event)>, i: nat)
    requires Reachable(start, s) && Torn(s) && Run(s, evs).Some?
    ensures Run(s, evs).value.file == s.file && !Succeeded(Run(s, evs).value, i)
  {
    hide Reachable, Run, B64.Decode;
    ReachableInv(start, s);
    RunTorn(start, s, evs);
    var t := Run(s, evs).value;
    if i in t.callers { assert CallerOk(t.file, t.owner, i, t.callers[i]); }
  }

  // ---- A torn file can happen, and so can a whole one ----

  const NOTHING := State(None, map[], None)
  const ROUTE: Bytes := [0, 0, 0, 0, 0, 0, 0, 0, 0, 0, 0, 0, 0, 0, 0, 0]
  const KEY := ROUTE + ROUTE
  const CODE := Code([1], ROUTE, KEY)

  function Only(pc: Pc): map<nat, Caller> {
    map[0 := Caller([1], [2], pc)]
  }

  function Partial(pc: Pc, written: nat): State {
    State(Some(File(Text(RecordOf(CODE, [2]), written, 10), STATE_MODE)), Only(pc), Some((0, CODE)))
  }

  lemma {:induction false} RunSnoc(s: State, evs: seq<(nat, Event)>, i: nat, ev: Event)
    ensures Run(s, evs).Some? ==> Run(s, evs + [(i, ev)]) == Step(Run(s, evs).value, i, ev)
  {
    hide Step;
    var all := evs + [(i, ev)];
    assert all[..|all| - 1] == evs;
  }

  lemma Overwritten(a: Pc, b: Pc)
    ensures Only(a)[0 := Caller([1], [2], b)] == Only(b)
  {
  }

  lemma CreatorWrites() returns (evs: seq<(nat, Event)>)
    ensures Run(NOTHING, evs) == Some(Partial(Writing(CODE), 3))
  {
    hide RecordOf;
    assert Run(NOTHING, []) == Some(NOTHING);
    RunSnoc(NOTHING, [], 0, Call([1], [2]));
    evs := [] + [(0, Call([1], [2]))];
    assert Run(NOTHING, evs) == Some(State(None, Only(Reading), None));
    RunSnoc(NOTHING, evs, 0, Event.Ok);
    evs := evs + [(0, Event.Ok)];
    Overwritten(Reading, Generating);
    assert Run(NOTHING, evs) == Some(State(None, Only(Generating), None));
    RunSnoc(NOTHING, evs, 0, Generated(ROUTE, KEY));
    evs := evs + [(0, Generated(ROUTE, KEY))];
    Overwritten(Generating, Opening(CODE));
    assert Run(NOTHING, evs) == Some(State(None, Only(Opening(CODE)), None));
    RunSnoc(NOTHING, evs, 0, Opened(10));
    evs := evs + [(0, Opened(10))];
    Overwritten(Opening(CODE), Writing(CODE));
    assert Run(NOTHING, evs) == Some(Partial(Writing(CODE), 0));
    RunSnoc(NOTHING, evs, 0, Wrote(3));
    evs := evs + [(0, Wrote(3))];
  }

  /** A caller that finds no file and meets no error creates one of mode 0600 and returns the code it made. */
  lemma CreatorFinishes() returns (evs: seq<(nat, Event)>)
    ensures Run(NOTHING, evs) == Some(Partial(Done(Some(CODE)), 10))
    ensures Partial(Done(Some(CODE)), 10).file.value.mode == 0x180
  {
    hide RecordOf;
    evs := CreatorWrites();
    hide Run;
    RunSnoc(NOTHING, evs, 0, Wrote(7));
    evs := evs + [(0, Wrote(7))];
    RunSnoc(NOTHING, evs, 0, Event.Ok);
    Overwritten(Writing(CODE), Syncing(CODE));
    evs := evs + [(0, Event.Ok)];
    RunSnoc(NOTHING, evs, 0, Event.Ok);
    Overwritten(Syncing(CODE), Closing(CODE));
    evs := evs + [(0, Event.Ok)];
    RunSnoc(NOTHING, evs, 0, Event.Ok);
    Overwritten(Closing(CODE), Done(Some(CODE)));
    evs := evs + [(0, Event.Ok)];
  }

  /** A creator that fails, or crashes, after three of ten bytes leaves a torn file. */
  lemma TornReachable()
    ensures Reachable(NOTHING, Partial(Done(None), 3)) && Torn(Partial(Done(None), 3))
    ensures Reachable(NOTHING, Partial(Crashed, 3)) && Torn(Partial(Crashed, 3))
  {
    hide Run, RecordOf, Load;
    var evs := CreatorWrites();
    RunSnoc(NOTHING, evs, 0, Fail);
    Overwritten(Writing(CODE), Done(None));
    assert Run(NOTHING, evs + [(0, Fail)]) == Some(Partial(Done(None), 3));
    RunSnoc(NOTHING, evs, 0, Crash);
    Overwritten(Writing(CODE), Crashed);
    assert Run(NOTHING, evs + [(0, Crash)]) == Some(Partial(Crashed, 3));
  }

  // ---- Errors are reported ----

  predicate Faultless(own: seq<Event>) {
    forall i :: 0 <= i < |own| ==> !own[i].Fail? && !own[i].Crash?
  }

  predicate Hurt(pc: Pc) {
    pc == Done(None) || pc.Crashed?
  }

  lemma UnhurtStep(s: State, i: nat, ev: Event, own: seq<Event>)
    requires Step(s, i, ev).Some?
    requires if i in s.callers then Hurt(s.callers[i].pc) || Faultless(own) else own == []
    ensures i in Step(s, i, ev).value.callers
    ensures Hurt(Step(s, i, ev).value.callers[i].pc) || Faultless(own + [ev])
  {
    hide Load;
    var more := own + [ev];
    assert forall i :: 0 <= i < |more| ==> more[i] == if i < |own| then own[i] else ev;
  }

  lemma OtherCaller(s: State, j: nat, ev: Event, i: nat)
    requires Step(s, j, ev).Some? && i != j
    ensures i in s.callers <==> i in Step(s, j, ev).value.callers
    ensures i in s.callers ==> Step(s, j, ev).value.callers[i] == s.callers[i]
  {
    hide LookStep;
  }

  lemma {:induction false} RunUnhurt(start: State, evs: seq<(nat, Event)>, i: nat)
    requires start.callers == map[] && Run(start, evs).Some?
    ensures var s := Run(start, evs).value;
      if i in s.callers then Hurt(s.callers[i].pc) || Faultless(Own(evs, i)) else Own(evs, i) == []
  {
    if evs != [] {
      hide Hurt, Faultless, Step;
      var most, last := evs[..|evs| - 1], evs[|evs| - 1];
      RunUnhurt(start, most, i);
      if last.0 == i {
        UnhurtStep(Run(start, most).value, i, last.1, Own(most, i));
      } else {
        OtherCaller(Run(start, most).value, last.0, last.1, i);
        assert Own(most, i) + [] == Own(most, i);
      }
    }
  }

  /** A caller that returns a code has met no error. */
  lemma SuccessMeansNoErrors(start: State, evs: seq<(nat, Event)>, i: nat)
    requires start.callers == map[] && Run(start, evs).Some? && i in Run(start, evs).value.callers
    requires Run(start, evs).value.callers[i].pc.Done? && Run(start, evs).value.callers[i].pc.result.Some?
    ensures forall k :: 0 <= k < |Own(evs, i)| ==> !Own(evs, i)[k].Fail? && !Own(evs, i)[k].Crash?
  {
    hide Run;
    RunUnhurt(start, evs, i);
  }
}
