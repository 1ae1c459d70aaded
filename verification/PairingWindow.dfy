/** The time-limited pairing window: one lease on the adapter, its properties put back when
    the window ends however it ends, and one candidate at a time. Admissions arrive while
    the guarded operations wait for their calls, so those are taken call by call. */
module Pairing {
  import opened Calls
  import opened Options

  datatype Name = Pairable | Discoverable | DiscoverableTimeout

  /** The adapter's properties the window changes; a flag is 0 or 1. */
  datatype Properties = Properties(pairable: nat, discoverable: nat, timeout: nat) {
    function Get(name: Name): nat {
      match name case Pairable => pairable case Discoverable => discoverable case DiscoverableTimeout => timeout
    }

    function Put(name: Name, value: nat): Properties {
      match name
      case Pairable => this.(pairable := value)
      case Discoverable => this.(discoverable := value)
      case DiscoverableTimeout => this.(timeout := value)
    }
  }

  /** What the holder of the guard waits for. */
  datatype Guard = Free | Setting(name: Name) | CleaningUp | Restoring

  /** `before` only remembers the adapter's properties from before the lease, and `spoiled`
      those the last restoring did not manage to write. */
  datatype Window = Window(
    active: bool, leased: bool, registered: bool, candidates: map<string, string>,
    kept: Option<Properties>, adapter: Properties, guard: Guard,
    before: Properties, spoiled: set<Name>)

  const NAMES: seq<Name> := [Pairable, Discoverable, DiscoverableTimeout]

  function Set(adapter: Properties, name: Name, value: nat, call: Call): Properties {
    if Took(call) then adapter.Put(name, value) else adapter
  }

  function Closed(adapter: Properties): Window {
    Window(false, false, false, map[], None, adapter, Free, adapter, {})
  }

  /** Up to the first property to set: the lease, the adapter's properties, the agent. */
  function Opening(w: Window, read: Call, powered: bool, register: Call, makeDefault: Call): Window {
    var held := w.(leased := true, before := w.adapter, spoiled := {});
    if read.Error? || !powered then held.(active := false, guard := Restoring)
    else
      var noted := held.(kept := Some(w.adapter));
      if register.Error? then noted.(active := false, guard := Restoring)
      else if makeDefault.Error? then noted.(registered := true, active := false, guard := Restoring)
      else noted.(registered := true, active := true, guard := Setting(Pairable))
  }

  function SetProperty(w: Window, name: Name, value: nat, call: Call, next: Guard): Window {
    var w' := w.(adapter := Set(w.adapter, name, value, call));
    if call.Error? then w'.(active := false, guard := Restoring) else w'.(guard := next)
  }

  /** How restoring goes: its first `tried` writes are made, each ending as `calls` says and
      a failure passed over; a cancellation ends it before the rest. */
  datatype Writes = Writes(calls: Name -> Call, tried: nat)

  function WrittenBack(adapter: Properties, kept: Properties, names: seq<Name>, calls: Name -> Call, tried: nat)
    : Properties
    decreases |names|
  {
    if names == [] || tried == 0 then adapter
    else WrittenBack(Set(adapter, names[0], kept.Get(names[0]), calls(names[0])), kept, names[1..], calls, tried - 1)
  }

  function Unwritten(names: seq<Name>, calls: Name -> Call, tried: nat): set<Name> {
    if names == [] then {}
    else if tried == 0 then {names[0]} + Unwritten(names[1..], calls, 0)
    else (if calls(names[0]).Error? then {names[0]} else {}) + Unwritten(names[1..], calls, tried - 1)
  }

  function Restored(w: Window, how: Writes): Window {
    w.(active := false, leased := false, registered := false, kept := None, guard := Free,
       adapter :=
         if w.kept.Some? then WrittenBack(w.adapter, w.kept.value, NAMES, how.calls, how.tried) else w.adapter,
       spoiled := if w.kept.Some? then Unwritten(NAMES, how.calls, how.tried) else w.spoiled)
  }

  function Admitted(w: Window, address: string, device: string): Window {
    if w.candidates == map[] then w.(candidates := map[address := device]) else w
  }

  function Dropped(candidates: map<string, string>, address: string): map<string, string> {
    map a | a in candidates && a != address :: candidates[a]
  }

  datatype Admission = Taken | Known | Busy | Expired

  // ----- the steps -----

  datatype Step =
    | Open(read: Call, powered: bool, register: Call, makeDefault: Call)
    | SetOne(seconds: nat, call: Call)
    | Restore(how: Writes)
    | Admit(address: string, device: string)
    | AdmissionFails(address: string)
    | Cancel(release: bool)
    | Close
    | CleanUpEnds
    | Others(adapter: Properties)     // whoever else takes the lease changes the adapter

  predicate Enabled(w: Window, e: Step) {
    match e
    case Open(_, _, _, _) => w.guard.Free? && !w.active
    case SetOne(_, _) => w.guard.Setting?
    case Restore(_) => w.guard.Restoring?
    case Admit(_, _) => w.active
    case AdmissionFails(_) | Cancel(_) => true
    case Close => w.guard.Free?
    case CleanUpEnds => w.guard.CleaningUp?
    case Others(_) => !w.leased
  }

  function Next(w: Window, e: Step): Window
    requires Enabled(w, e)
  {
    match e
    case Open(read, powered, register, makeDefault) => Opening(w, read, powered, register, makeDefault)
    case SetOne(seconds, call) =>
      (match w.guard.name
       case Pairable => SetProperty(w, Pairable, 1, call, Setting(DiscoverableTimeout))
       case DiscoverableTimeout => SetProperty(w, DiscoverableTimeout, seconds, call, Setting(Discoverable))
       case Discoverable => SetProperty(w, Discoverable, 1, call, Free))
    case Restore(how) => Restored(w, how)
    case Admit(address, device) => Admitted(w, address, device)
    case AdmissionFails(address) => w.(candidates := Dropped(w.candidates, address))
    case Cancel(release) => w.(candidates := map[], registered := w.registered && !release)
    case Close => w.(active := false, guard := CleaningUp)
    case CleanUpEnds => w.(candidates := map[], guard := Restoring)
    case Others(adapter) => w.(adapter := adapter, before := adapter, spoiled := {})
  }

  class PairingWindow {
    var active: bool
    var leased: bool
    var registered: bool
    var candidates: map<string, string>
    var kept: Option<Properties>
    var adapter: Properties
    var guard: Guard
    ghost var before: Properties
    ghost var spoiled: set<Name>

    ghost function View(): Window
      reads this
    {
      Window(active, leased, registered, candidates, kept, adapter, guard, before, spoiled)
    }

    constructor (adapter: Properties)
      ensures View() == Closed(adapter)
    {
      active, leased, registered, candidates, kept := false, false, false, map[], None;
      this.adapter, guard := adapter, Free;
      before, spoiled := adapter, {};
    }

    method Start(leaseFree: bool, read: Call, powered: bool, register: Call, makeDefault: Call) returns (busy: bool)
      requires guard.Free?
      modifies this
      ensures busy == (!old(active) && !leaseFree)
      ensures View() ==
        if old(active) || busy then old(View())
        else Next(old(View()), Open(read, powered, register, makeDefault))
    {
      if active { return false; }
      if !leaseFree { return true; }
      before, spoiled := adapter, {};
      leased, busy := true, false;
      if read.Error? || !powered {
        active, guard := false, Restoring;
        return;
      }
      kept := Some(adapter);
      if register.Error? {
        active, guard := false, Restoring;
        return;
      }
      registered := true;
      if makeDefault.Error? {
        active, guard := false, Restoring;
        return;
      }
      active, guard := true, Setting(Pairable);
    }

    method SetNext(seconds: nat, call: Call)
      requires guard.Setting?
      modifies this
      ensures View() == Next(old(View()), SetOne(seconds, call))
    {
      match guard.name {
        case Pairable =>
          adapter := Set(adapter, Pairable, 1, call);
          guard := Setting(DiscoverableTimeout);
        case DiscoverableTimeout =>
          adapter := Set(adapter, DiscoverableTimeout, seconds, call);
          guard := Setting(Discoverable);
        case Discoverable =>
          adapter := Set(adapter, Discoverable, 1, call);
          guard := Free;
      }
      if call.Error? { active, guard := false, Restoring; }
    }

    /** A write that fails is passed over; a cancellation ends the loop, and only that. */
    method Restore(how: Writes)
      requires guard.Restoring?
      modifies this
      ensures View() == Next(old(View()), Step.Restore(how))
    {
      active := false;
      registered := false;
      if kept.Some? {
        spoiled := {};
        var left, tried := NAMES, how.tried;
        while left != [] && tried > 0
          invariant kept == old(kept) && candidates == old(candidates) && before == old(before)
          invariant WrittenBack(adapter, kept.value, left, how.calls, tried)
                 == WrittenBack(old(adapter), kept.value, NAMES, how.calls, how.tried)
          invariant spoiled + Unwritten(left, how.calls, tried) == Unwritten(NAMES, how.calls, how.tried)
          invariant !active && !registered && leased == old(leased)
          decreases |left|
        {
          adapter := Set(adapter, left[0], kept.value.Get(left[0]), how.calls(left[0]));
          if how.calls(left[0]).Error? { spoiled := spoiled + {left[0]}; }
          left, tried := left[1..], tried - 1;
        }
        spoiled := spoiled + Unwritten(left, how.calls, tried);
      }
      kept := None;
      leased := false;
      guard := Free;
    }

    /** Only the first of several devices becomes the candidate. */
    method Admit(address: string, device: string, current: bool, allowed: bool) returns (admission: Admission)
      modifies this
      ensures admission ==
        if !active || !current then Expired
        else if allowed || (address in old(candidates) && old(candidates)[address] == device) then Known
        else if old(candidates) != map[] then Busy
        else Taken
      ensures View() ==
        if admission.Taken? && old(active) then Next(old(View()), Step.Admit(address, device)) else old(View())
    {
      if !active || !current { return Expired; }
      if allowed { return Known; }
      if address in candidates && candidates[address] == device { return Known; }
      if candidates != map[] { return Busy; }
      candidates := candidates[address := device];
      return Taken;
    }

    method AdmissionFailed(address: string)
      modifies this
      ensures View() == Next(old(View()), AdmissionFails(address))
    {
      candidates := Dropped(candidates, address);
    }

    method CancelRequests(release: bool)
      modifies this
      ensures View() == Next(old(View()), Cancel(release))
    {
      candidates := map[];
      if release { registered := false; }
    }

    method Close()
      requires guard.Free?
      modifies this
      ensures View() == Next(old(View()), Step.Close)
    {
      active, guard := false, CleaningUp;
    }

    /** The candidates' clean-up is over, completed or not. */
    method CleanedUp()
      requires guard.CleaningUp?
      modifies this
      ensures View() == Next(old(View()), CleanUpEnds)
    {
      candidates, guard := map[], Restoring;
    }
  }

  // ----- every run -----

  /** The lease is held exactly while the window is active, and while one ends. */
  predicate LeaseMatches(w: Window) {
    && (w.guard.Free? ==> (w.leased <==> w.active))
    && (w.guard.Setting? ==> w.leased && w.active)
    && (w.guard.CleaningUp? || w.guard.Restoring? ==> !w.active)
    && (w.active ==> w.kept.Some?)
    && (w.kept.Some? ==> w.leased)
    && (w.registered ==> w.leased)
  }

  /** What is kept to put back is what was there before the lease; until anything is kept
      nothing has been changed. */
  predicate KeepsBefore(w: Window) {
    && (w.kept.Some? ==> w.kept.value == w.before)
    && (w.leased && w.kept.None? ==> w.adapter == w.before)
    && (!w.leased ==> forall name :: name !in w.spoiled ==> w.adapter.Get(name) == w.before.Get(name))
  }

  predicate OneCandidate(w: Window) { forall a, b :: a in w.candidates && b in w.candidates ==> a == b }

  predicate Invariant(w: Window) { LeaseMatches(w) && KeepsBefore(w) && OneCandidate(w) }

  /** Every property whose write succeeds is back, whatever becomes of the others. */
  lemma {:induction false} WrittenBackIs(
    adapter: Properties, kept: Properties, names: seq<Name>, calls: Name -> Call, tried: nat, name: Name)
    ensures name in names && name !in Unwritten(names, calls, tried) ==>
      WrittenBack(adapter, kept, names, calls, tried).Get(name) == kept.Get(name)
    ensures adapter.Get(name) == kept.Get(name) ==>
      WrittenBack(adapter, kept, names, calls, tried).Get(name) == kept.Get(name)
    ensures name in Unwritten(names, calls, tried) ==> calls(name).Error? || tried < |names|
    decreases names
  {
    if names != [] {
      if tried > 0 {
        var next := Set(adapter, names[0], kept.Get(names[0]), calls(names[0]));
        WrittenBackIs(next, kept, names[1..], calls, tried - 1, name);
      } else {
        WrittenBackIs(adapter, kept, names[1..], calls, 0, name);
      }
    }
  }

  lemma RestoreKeeps(w: Window, how: Writes)
    requires Invariant(w) && w.guard.Restoring?
    ensures Invariant(Restored(w, how))
  {
    if w.kept.Some? {
      forall name | name !in Unwritten(NAMES, how.calls, how.tried)
        ensures Restored(w, how).adapter.Get(name) == w.before.Get(name)
      {
        assert NAMES[0] == Pairable && NAMES[1] == Discoverable && NAMES[2] == DiscoverableTimeout;
        WrittenBackIs(w.adapter, w.kept.value, NAMES, how.calls, how.tried, name);
      }
    }
  }

  lemma StepKeeps(w: Window, e: Step)
    requires Invariant(w) && Enabled(w, e)
    ensures Invariant(Next(w, e))
  {
    match e
    case Restore(how) => RestoreKeeps(w, how);
    case _ =>
  }

  predicate Runs(w: Window, steps: seq<Step>)
    decreases |steps|
  {
    steps == [] || (Enabled(w, steps[0]) && Runs(Next(w, steps[0]), steps[1..]))
  }

  function After(w: Window, steps: seq<Step>): Window
    requires Runs(w, steps)
    decreases |steps|
  {
    if steps == [] then w else After(Next(w, steps[0]), steps[1..])
  }

  lemma {:induction false} RunKeeps(w: Window, steps: seq<Step>)
    requires Invariant(w) && Runs(w, steps)
    ensures Invariant(After(w, steps))
    decreases |steps|
  {
    if steps != [] {
      StepKeeps(w, steps[0]);
      RunKeeps(Next(w, steps[0]), steps[1..]);
    }
  }

  /** In every run, whatever fails and whenever admissions arrive: there is at most one
      candidate, and while the guard is free the lease is held exactly if the window is
      active, the agent registered only then. */
  lemma EveryRun(adapter: Properties, steps: seq<Step>)
    requires Runs(Closed(adapter), steps)
    ensures var w := After(Closed(adapter), steps);
      && OneCandidate(w) && (w.guard.Free? ==> (w.leased <==> w.active))
      && (w.guard.Free? && w.registered ==> w.active)
  {
    RunKeeps(Closed(adapter), steps);
  }

  lemma RunsTwo(w: Window, a: Step, b: Step)
    requires Enabled(w, a) && Enabled(Next(w, a), b)
    ensures Runs(w, [a, b]) && After(w, [a, b]) == Next(Next(w, a), b)
  {
    assert [a, b][1..] == [b] && [b][1..] == [];
    hide Enabled, Next;
    assert Runs(Next(w, a), [b]) && After(Next(w, a), [b]) == Next(Next(w, a), b);
  }

  lemma {:induction false} RunsOn(w: Window, steps: seq<Step>, more: seq<Step>)
    requires Runs(w, steps) && Runs(After(w, steps), more)
    ensures Runs(w, steps + more) && After(w, steps + more) == After(After(w, steps), more)
    decreases |steps|
  {
    if steps == [] {
      assert steps + more == more;
    } else {
      RunsOn(Next(w, steps[0]), steps[1..], more);
      assert (steps + more)[1..] == steps[1..] + more;
    }
  }

  /** A start that nothing fails makes the adapter pairable and, for the time given, visible. */
  lemma StartOpens(w: Window, seconds: nat)
    requires w.guard.Free? && !w.active
    ensures
      var one := SetOne(seconds, Done);
      var steps := [Open(Done, true, Done, Done), one] + [one, one];
      && Runs(w, steps)
      && After(w, steps) == Window(true, true, true, w.candidates, Some(w.adapter), Properties(1, 1, seconds), Free,
                                   w.adapter, {})
  {
    var a, b := Open(Done, true, Done, Done), SetOne(seconds, Done);
    var half := Next(Next(w, a), b);
    assert half == Window(true, true, true, w.candidates, Some(w.adapter), w.adapter.(pairable := 1),
                          Setting(DiscoverableTimeout), w.adapter, {});
    RunsTwo(w, a, b);
    RunsTwo(half, b, b);
    hide Runs, After;
    RunsOn(w, [a, b], [b, b]);
  }

  /** One that fails before the first property, at whichever call, changes none; restoring,
      however it goes, ends it with everything as it was. */
  lemma FailedStartChangesNothing(
    w: Window, read: Call, powered: bool, register: Call, makeDefault: Call, how: Writes, name: Name)
    requires Invariant(w) && w.guard.Free? && !w.active
    requires read.Error? || !powered || register.Error? || makeDefault.Error?
    ensures
      var steps := [Open(read, powered, register, makeDefault), Restore(how)];
      && Runs(w, steps)
      && var end := After(w, steps);
        && !end.active && !end.leased && !end.registered && end.kept.None? && end.guard.Free?
        && end.candidates == w.candidates && end.adapter.Get(name) == w.adapter.Get(name)
  {
    var open := Open(read, powered, register, makeDefault);
    RunsTwo(w, open, Restore(how));
    if !read.Error? && powered { WrittenBackIs(w.adapter, w.adapter, NAMES, how.calls, how.tried, name); }
  }

  /** One that fails at a property is over, that property changed exactly if the failing call
      took effect, and no other. */
  lemma FailingPropertyEnds(w: Window, seconds: nat, took: bool, name: Name)
    requires w.guard.Setting?
    ensures
      var end := Next(w, SetOne(seconds, Error(took)));
      && !end.active && end.guard.Restoring? && end.leased == w.leased && end.kept == w.kept
      && end.adapter.Get(name) ==
        if took && name == w.guard.name then (if name.DiscoverableTimeout? then seconds else 1) else w.adapter.Get(name)
  {
    match w.guard.name case Pairable => case Discoverable => case DiscoverableTimeout =>
  }

  /** A close whose every write is made and succeeds leaves the window as if never opened. */
  lemma CloseTakesBack(w: Window, how: Writes)
    requires Invariant(w) && w.active && w.guard.Free?
    requires how.tried >= |NAMES| && forall name :: how.calls(name).Done?
    ensures
      var steps := [Close, CleanUpEnds] + [Restore(how)];
      Runs(w, steps) && After(w, steps) == Closed(w.before)
  {
    var half := Next(Next(w, Close), CleanUpEnds);
    RunsTwo(w, Close, CleanUpEnds);
    assert [Restore(how)][1..] == [] && Runs(half, [Restore(how)]);
    var end := Next(half, Restore(how));
    assert After(half, [Restore(how)]) == end;
    forall name ensures end.adapter.Get(name) == w.before.Get(name) && name !in end.spoiled {
      assert NAMES[0] == Pairable && NAMES[1] == Discoverable && NAMES[2] == DiscoverableTimeout;
      WrittenBackIs(w.adapter, w.before, NAMES, how.calls, how.tried, name);
    }
    assert end.adapter.Get(Pairable) == w.before.pairable && end.adapter.Get(Discoverable) == w.before.discoverable;
    assert end.adapter.Get(DiscoverableTimeout) == w.before.timeout && end.spoiled == {};
    hide Runs, After;
    RunsOn(w, [Close, CleanUpEnds], [Restore(how)]);
  }

  /** A device whose admission fails gives way to the next; a cancelled pairing gives way to
      any, and a released agent is no longer registered. */
  lemma GivesWay(w: Window, address: string, device: string, release: bool)
    requires w.active && w.candidates == map[]
    ensures
      var taken := Next(w, Admit(address, device));
      && taken == w.(candidates := map[address := device])
      && Next(taken, AdmissionFails(address)) == w
      && Next(taken, Cancel(release)) == w.(registered := w.registered && !release)
    ensures forall other :: other != address ==>
      Next(Next(w, Admit(address, device)), AdmissionFails(other)) == Next(w, Admit(address, device))
  {
    var one := map[address := device];
    assert Dropped(one, address) == map[];
    forall other | other != address ensures Dropped(one, other) == one {}
  }

  /** Steps of one window: no other is opened, and nobody else gets the lease in between. */
  predicate OneWindow(steps: seq<Step>) {
    steps == [] || (!steps[0].Open? && !steps[0].Others? && OneWindow(steps[1..]))
  }

  lemma {:induction false} BeforeIsKept(w: Window, steps: seq<Step>)
    requires Runs(w, steps) && OneWindow(steps)
    ensures After(w, steps).before == w.before
    decreases |steps|
  {
    if steps != [] { BeforeIsKept(Next(w, steps[0]), steps[1..]); }
  }

  /** A window that has ended, by a start that failed at any call or by a close, leaves every
      property whose restoring write succeeded as it was before the window was opened. */
  lemma WindowLeavesNothing(w: Window, open: Step, steps: seq<Step>, name: Name)
    requires Invariant(w) && Enabled(w, open) && open.Open? && Runs(Next(w, open), steps) && OneWindow(steps)
    requires var ended := After(Next(w, open), steps); ended.guard.Free? && !ended.active && name !in ended.spoiled
    ensures After(Next(w, open), steps).adapter.Get(name) == w.adapter.Get(name)
  {
    StepKeeps(w, open);
    RunKeeps(Next(w, open), steps);
    BeforeIsKept(Next(w, open), steps);
  }

  /** Steps that neither admit a device nor let one go. */
  predicate LeavesCandidates(steps: seq<Step>) {
    steps == []
    || (!steps[0].Admit? && !steps[0].AdmissionFails? && !steps[0].Cancel? && !steps[0].CleanUpEnds?
        && LeavesCandidates(steps[1..]))
  }

  lemma {:induction false} CandidatesStay(w: Window, steps: seq<Step>)
    requires Runs(w, steps) && LeavesCandidates(steps)
    ensures After(w, steps).candidates == w.candidates
    decreases |steps|
  {
    if steps != [] { CandidatesStay(Next(w, steps[0]), steps[1..]); }
  }

  /** A start that fails at any property, whatever restoring manages: the next window that is
      active admits another device if and only if no device was admitted before the failure. */
  lemma NextWindowAdmits(w: Window, seconds: nat, call: Call, steps: seq<Step>, address: string, device: string)
    requires w.guard.Setting? && call.Error? && address !in w.candidates
    requires Runs(Next(w, SetOne(seconds, call)), steps) && LeavesCandidates(steps)
    requires After(Next(w, SetOne(seconds, call)), steps).active
    ensures
      var next := After(Next(w, SetOne(seconds, call)), steps);
      address in Next(next, Admit(address, device)).candidates <==> w.candidates == map[]
  {
    CandidatesStay(Next(w, SetOne(seconds, call)), steps);
  }

  /** So a start that fails after admitting a device does not forget it: the next window opens
      with that candidate in place, and admits no other device. */
  lemma FailedStartKeepsCandidate(adapter: Properties, address: string, device: string, other: string, how: Writes)
    requires other != address
    ensures
      var starting := Next(Closed(adapter), Open(Done, true, Done, Done));
      var admitted := Next(starting, Admit(address, device));
      var failing := Next(admitted, SetOne(120, Error(false)));
      var failed := Next(failing, Restore(how));
      var again := Next(failed, Open(Done, true, Done, Done));
      && failed.guard.Free? && !failed.active && address in failed.candidates
      && Next(again, Admit(other, device)).candidates == map[address := device]
  {}
}
