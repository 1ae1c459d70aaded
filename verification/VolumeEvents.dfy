/** What clients are told of the volume: the events sent at once when the device is found or
    lost, and the debounced ones of its level, which remember what they last sent. */
module VolumeEvents {
  import opened MusicCast

  datatype Told = Told(level: int, supported: bool)

  /** `current` and `supported` are the device's, `told` the last event's, `last` the level
      the debounced sender last sent, `changed` that it has been woken. */
  datatype Teller = Teller(current: int, supported: bool, told: Told, last: Queued, changed: bool)

  const UNTOLD := Teller(0, false, Told(0, false), Empty, false)

  datatype Step = Cached(level: int) | Lost | Ready(level: int) | Settled

  predicate Enabled(t: Teller, e: Step) { e.Settled? ==> t.changed }

  function Next(t: Teller, e: Step): Teller {
    match e
    case Cached(level) => if level == t.current then t else t.(current := level, changed := true)
    case Lost => if t.supported then t.(supported := false, told := Told(t.current, false)) else t
    case Ready(level) => t.(current := level, supported := true, told := Told(level, true))
    case Settled =>
      if t.last == Level(t.current) then t.(changed := false)
      else t.(changed := false, told := Told(t.current, true), last := Level(t.current))
  }

  class EventSender {
    var current: int
    var supported: bool
    var told: Told
    var lastSent: Queued
    var changed: bool

    ghost function View(): Teller
      reads this
    {
      Teller(current, supported, told, lastSent, changed)
    }

    constructor ()
      ensures View() == UNTOLD
    {
      current, supported, told, lastSent, changed := 0, false, Told(0, false), Empty, false;
    }

    method Cache(level: int)
      modifies this
      ensures View() == Next(old(View()), Cached(level))
    {
      if level == current { return; }
      current := level;
      changed := true;
    }

    method MarkUnavailable()
      modifies this
      ensures View() == Next(old(View()), Lost)
    {
      if supported {
        supported := false;
        told := Told(current, false);
      }
    }

    method GetReady(level: int)
      modifies this
      ensures View() == Next(old(View()), Ready(level))
    {
      current, supported := level, true;
      told := Told(level, true);
    }

    /** No change has come for the length of the debounce. */
    method Settle()
      requires changed
      modifies this
      ensures View() == Next(old(View()), Settled)
    {
      changed := false;
      var target := current;
      if lastSent != Level(target) {
        told := Told(target, true);
        lastSent := Level(target);
      }
    }
  }

  predicate Runs(t: Teller, steps: seq<Step>)
    decreases |steps|
  {
    steps == [] || (Enabled(t, steps[0]) && Runs(Next(t, steps[0]), steps[1..]))
  }

  function After(t: Teller, steps: seq<Step>): Teller
    decreases |steps|
  {
    if steps == [] then t else After(Next(t, steps[0]), steps[1..])
  }

  /** Unless something waits to be sent, clients know the level and whether it can be set. */
  predicate Truthful(t: Teller) { !t.changed ==> t.told == Told(t.current, t.supported) }

  /** When settling tells what is so: a level already sent last is not sent again, so clients
      must have it; any other is announced as one that can be set, so it must be. */
  predicate Honest(t: Teller, e: Step) {
    e.Settled? ==> if t.last == Level(t.current) then t.told == Told(t.current, t.supported) else t.supported
  }

  lemma SettlingTells(t: Teller)
    requires t.changed
    ensures Next(t, Settled).told == Told(t.current, t.supported) <==> Honest(t, Settled)
  {}

  predicate AllHonest(t: Teller, steps: seq<Step>)
    decreases |steps|
  {
    steps == [] || (Honest(t, steps[0]) && AllHonest(Next(t, steps[0]), steps[1..]))
  }

  predicate AlwaysTruthful(t: Teller, steps: seq<Step>)
    decreases |steps|
  {
    Truthful(t) && (steps == [] || AlwaysTruthful(Next(t, steps[0]), steps[1..]))
  }

  lemma {:induction false} RunTells(t: Teller, steps: seq<Step>)
    requires Truthful(t) && Runs(t, steps)
    ensures AlwaysTruthful(t, steps) <==> AllHonest(t, steps)
    decreases |steps|
  {
    if steps != [] {
      assert Truthful(Next(t, steps[0])) <==> Honest(t, steps[0]);
      if Honest(t, steps[0]) { RunTells(Next(t, steps[0]), steps[1..]); }
    }
  }

  /** However the device is found and lost and its level changes: all through a run clients
      know what is so whenever nothing waits to be sent, if and only if every settling of
      the run is honest. No other step can mislead them. */
  lemma ClientsAreTold(steps: seq<Step>)
    requires Runs(UNTOLD, steps)
    ensures AlwaysTruthful(UNTOLD, steps) <==> AllHonest(UNTOLD, steps)
  {
    RunTells(UNTOLD, steps);
  }

  /** Back at the level sent last after a reconnection that told another, clients keep the
      other. */
  lemma ReconnectionHidesAChange(t: Teller, sent: int, found: int)
    requires t.last == Level(sent) && sent != found
    ensures var after := Next(Next(Next(t, Ready(found)), Cached(sent)), Settled);
      after.current == sent && after.told.level == found && !after.changed
  {}

  /** A change still waiting when the device is lost tells clients that its volume can be
      set, after they were told that it cannot. */
  lemma LateEventRevivesLostDevice(t: Teller, level: int)
    requires t.supported && level != t.current && t.last != Level(level)
    ensures var after := Next(Next(Next(t, Cached(level)), Lost), Settled);
      !after.supported && after.told.supported
  {}

  /** So does an echo that is handled after the loss. */
  lemma LateEchoRevivesLostDevice(t: Teller, level: int)
    requires level != t.current && t.last != Level(level)
    ensures var after := Next(Next(Next(t, Lost), Cached(level)), Settled);
      !after.supported && after.told == Told(level, true)
  {}
}
