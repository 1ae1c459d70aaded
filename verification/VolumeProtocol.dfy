/** The whole volume protocol as a machine over its steps: the device, an amplifier that
    applies commands late, its ordered echoes, changes made elsewhere, and failures. */
module VolumeProtocol {
  import opened MusicCast

  /** The device and what surrounds it. The last four fields only remember the run:
      `sent` the levels sent since all were last given up, `newest` the newest level asked
      for, `stale` that a report was lost which nothing has made up for, `disturbed` that
      something else than the newest request may decide the level. */
  datatype System = System(
    dev: Device, amp: int, ampMax: int, commands: seq<int>, echoes: seq<int>,
    sent: seq<int>, newest: int, stale: bool, disturbed: bool)

  datatype Step =
    | Ask(volume: int)                // a client sets the volume
    | Turn(level: int)                // the amplifier's own knob, or another app
    | Poll                            // the status polled once a minute
    | Start | Answered | Paced | Woken | EchoTimeout | Reconciled
    | Apply                           // the amplifier gets round to a command
    | Echo                            // an echo arrives
    | Connect                         // the device is probed after being unreachable
    | SendError | ReconcileError(network: bool) | NetworkError
    | Ignore                          // the amplifier drops a command
    | LoseEcho(at: nat)

  function Initial(amp: int, ampMax: int): System {
    System(UNPROBED, amp, ampMax, [], [], [], 0, false, true)
  }

  predicate Enabled(s: System, e: Step) {
    match e
    case Ask(_) | Turn(_) | NetworkError => true
    case Poll => s.dev.ready
    case Start => s.dev.sender.Scheduled?
    case Answered | SendError => s.dev.sender.Sending?
    case Paced => s.dev.sender.Pacing?
    case Woken => s.dev.sender.Waiting? && s.dev.wake
    case EchoTimeout => s.dev.sender.Waiting?
    case Reconciled | ReconcileError(_) => s.dev.sender.Reconciling?
    case Apply | Ignore => s.commands != []
    case Echo => s.echoes != []
    case Connect => !s.dev.ready
    case LoseEcho(at) => at < |s.echoes|
  }

  /** The sender runs to its next await; a request it makes reaches the amplifier. */
  function Resume(s: System, d: Device): System {
    if d.target.Level?
    then s.(dev := Resumed(d), commands := s.commands + [d.target.level], sent := s.sent + [d.target.level])
    else s.(dev := Resumed(d))
  }

  /** The amplifier's level becomes `level`; only a change is echoed. */
  function Change(s: System, level: int): System {
    if level == s.amp then s else s.(amp := level, echoes := s.echoes + [level], stale := false)
  }

  /** A status read and reported in one go. */
  function Probed(s: System): System {
    s.(dev := Reported(s.dev, s.amp), stale := s.stale && Newest(s.echoes, s.amp) != s.amp)
  }

  function Unreachable(s: System): System {
    s.(dev := Lost(s.dev), sent := if s.dev.ready then [] else s.sent,
       disturbed := s.disturbed || s.dev.target.Level?)
  }

  function Next(s: System, e: Step): System
    requires Enabled(s, e)
  {
    match e
    case Ask(volume) =>
      if s.dev.ready
      then s.(dev := Requested(s.dev, volume), newest := Clamp(volume, s.dev.maxVolume), disturbed := false)
      else s.(dev := Requested(s.dev, volume))
    case Turn(level) =>
      Change(s, level).(disturbed := s.disturbed || (s.dev.target.Empty? && s.commands == []))
    case Poll => Probed(s)
    case Start | Paced | Woken => Resume(s, s.dev)
    case Answered => s.(dev := MusicCast.Answered(s.dev))
    case EchoTimeout => s.(dev := TimedOut(s.dev), sent := [])
    case Reconciled => Resume(Probed(s), Probed(s).dev)
    case Apply => Change(s.(commands := s.commands[1..]), s.commands[0])
    case Echo => s.(dev := Reported(s.dev, s.echoes[0]), echoes := s.echoes[1..])
    case Connect =>
      s.(dev := Connected(s.dev, s.amp, s.ampMax), stale := s.stale && Newest(s.echoes, s.amp) != s.amp)
    case SendError =>
      s.(dev := SendFailed(s.dev), sent := [], disturbed := s.disturbed || s.dev.target.Level?)
    case ReconcileError(network) =>
      if network then Resume(Unreachable(s), Unreachable(s).dev)
      else Resume(s, s.dev).(stale := s.stale || s.dev.target.Empty?)
    case NetworkError => Unreachable(s)
    case Ignore => s.(commands := s.commands[1..], disturbed := true)
    case LoseEcho(at) =>
      s.(echoes := s.echoes[..at] + s.echoes[at + 1..], stale := s.stale || at == |s.echoes| - 1)
  }

  predicate Runs(s: System, steps: seq<Step>)
    decreases |steps|
  {
    steps == [] || (Enabled(s, steps[0]) && Runs(Next(s, steps[0]), steps[1..]))
  }

  function After(s: System, steps: seq<Step>): System
    requires Runs(s, steps)
    decreases |steps|
  {
    if steps == [] then s else After(Next(s, steps[0]), steps[1..])
  }

  // ----- what every step keeps -----

  predicate Outstanding(d: Device) { d.target.Level? || d.unconfirmed != [] }

  /** The last echo under way is the amplifier's level, unless a report was lost. */
  predicate EchoesEndAtLevel(s: System) {
    !s.stale ==> Newest(s.echoes, s.amp) == s.amp
  }

  predicate Synchronized(s: System) {
    s.dev.ready && !Outstanding(s.dev) && !s.dev.sender.Reconciling? && s.echoes == [] ==> s.dev.current == s.amp
  }

  predicate Converges(s: System) { !s.stale ==> Synchronized(s) }

  /** While anything is queued or unconfirmed, the level shown is the newest asked for,
      which is also the level that will be sent last. */
  predicate ShowsNewest(s: System) {
    && (Outstanding(s.dev) ==> s.dev.ready && s.dev.current == s.newest)
    && (s.dev.target.Level? ==> s.dev.target.level == s.newest)
    && (s.dev.target.Empty? ==> Newest(s.dev.unconfirmed, s.newest) == s.newest)
  }

  /** Whatever is outstanding has a sender, and one that waits will be woken exactly when
      there is something for it to do. */
  predicate SenderLives(s: System) {
    && (Outstanding(s.dev) ==> !s.dev.sender.Done?)
    && (s.dev.sender.Reconciling? ==> s.dev.unconfirmed == [])
    && (s.dev.sender.Waiting? ==> (s.dev.wake <==> s.dev.target.Level? || s.dev.unconfirmed == []))
  }

  predicate UnconfirmedEndSent(s: System) { EndOf(s.dev.unconfirmed, s.sent) }

  /** The newest request is still to be sent, or sent last of all still to be applied, or
      is the amplifier's level. */
  predicate NewestWins(s: System) {
    !s.disturbed ==>
      if s.dev.target.Level? then s.dev.target.level == s.newest else Newest(s.commands, s.amp) == s.newest
  }

  predicate Invariant(s: System) {
    EchoesEndAtLevel(s) && Converges(s) && ShowsNewest(s) && SenderLives(s) && UnconfirmedEndSent(s) && NewestWins(s)
  }

  lemma ReportKeeps(s: System, level: int)
    requires ShowsNewest(s) && SenderLives(s) && UnconfirmedEndSent(s)
    ensures var t := s.(dev := Reported(s.dev, level)); ShowsNewest(t) && SenderLives(t) && UnconfirmedEndSent(t)
    ensures var d := Reported(s.dev, level); !Outstanding(d) ==> d.current == level
  {
    var u := s.dev.unconfirmed;
    ConfirmKeepsEnd(u, level);
    if level in u {
      ConfirmNewest(u, level, s.newest);
      EndOfTransitive(Confirm(u, level), u, s.sent);
    }
  }

  lemma ResumeKeeps(s: System)
    requires EchoesEndAtLevel(s) && ShowsNewest(s) && SenderLives(s) && UnconfirmedEndSent(s) && NewestWins(s)
    ensures var t := Resume(s, s.dev);
      EchoesEndAtLevel(t) && ShowsNewest(t) && SenderLives(t) && UnconfirmedEndSent(t) && NewestWins(t)
  {
    if s.dev.target.Level? {
      EndOfAppend(s.dev.unconfirmed, s.sent, s.dev.target.level);
      NewestAppend(s.dev.unconfirmed, s.dev.target.level, s.newest);
      NewestAppend(s.commands, s.dev.target.level, s.amp);
    }
  }

  lemma DirectKeeps(s: System, e: Step)
    requires Invariant(s) && Enabled(s, e) && (e.Ask? || e.Answered? || e.EchoTimeout? || e.Connect? || e.Ignore?)
    ensures Invariant(Next(s, e))
  {}

  lemma LossKeeps(s: System, e: Step)
    requires Invariant(s) && Enabled(s, e) && (e.SendError? || e.NetworkError?)
    ensures Invariant(Next(s, e))
  {
    EmptyEnds(s.sent);
  }

  lemma TurnKeeps(s: System, level: int)
    requires Invariant(s) && Enabled(s, Turn(level))
    ensures Invariant(Next(s, Turn(level)))
  {
    NewestAppend(s.echoes, level, s.amp);
    NewestIgnores(s.commands, s.amp, level);
  }

  lemma ReconciledKeeps(s: System)
    requires Invariant(s) && Enabled(s, Reconciled)
    ensures Invariant(Next(s, Reconciled))
  {
    ReportKeeps(s, s.amp);
    ResumeKeeps(Probed(s));
  }

  lemma EchoKeeps(s: System)
    requires Invariant(s) && Enabled(s, Echo)
    ensures Invariant(Next(s, Echo))
  {
    ReportKeeps(s, s.echoes[0]);
    NewestIgnores(s.echoes[1..], s.echoes[0], s.amp);
    assert Newest(s.echoes, s.amp) == Newest(s.echoes[1..], s.echoes[0]);
  }

  lemma ResumingKeeps(s: System, e: Step)
    requires Invariant(s) && Enabled(s, e) && (e.Start? || e.Paced? || e.Woken?)
    ensures Invariant(Next(s, e))
  {
    ResumeKeeps(s);
  }

  lemma ReportingKeeps(s: System, e: Step)
    requires Invariant(s) && Enabled(s, e) && (e.Poll? || e.Apply? || e.LoseEcho?)
    ensures Invariant(Next(s, e))
  {
    match e
    case Poll => ReportKeeps(s, s.amp);
    case Apply => NewestAppend(s.echoes, s.commands[0], s.amp);
    case LoseEcho(at) => if at < |s.echoes| - 1 { LosingEarlier(s.echoes, at, s.amp); }
  }

  lemma ReconcileErrorKeeps(s: System, network: bool)
    requires Invariant(s) && Enabled(s, ReconcileError(network))
    ensures Invariant(Next(s, ReconcileError(network)))
  {
    EmptyEnds(s.sent);
    ResumeKeeps(if network then Unreachable(s) else s);
  }

  lemma StepKeeps(s: System, e: Step)
    requires Invariant(s) && Enabled(s, e)
    ensures Invariant(Next(s, e))
  {
    hide Invariant, Next;
    match e
    case Ask(_) | Answered | EchoTimeout | Connect | Ignore => DirectKeeps(s, e);
    case SendError | NetworkError => LossKeeps(s, e);
    case Turn(level) => TurnKeeps(s, level);
    case Start | Paced | Woken => ResumingKeeps(s, e);
    case Poll | Apply | LoseEcho(_) => ReportingKeeps(s, e);
    case Reconciled => ReconciledKeeps(s);
    case Echo => EchoKeeps(s);
    case ReconcileError(network) => ReconcileErrorKeeps(s, network);
  }

  lemma {:induction false} LosingEarlier(s: seq<int>, at: nat, otherwise: int)
    requires at < |s| - 1
    ensures s[..at] + s[at + 1..] != []
    ensures Newest(s[..at] + s[at + 1..], otherwise) == Newest(s, otherwise)
  {
    var rest := s[..at] + s[at + 1..];
    if at == 0 {
      assert rest == s[1..];
      NewestIgnores(s[1..], s[0], otherwise);
    } else {
      assert rest[1..] == s[1..][..at - 1] + s[1..][at..];
      LosingEarlier(s[1..], at - 1, s[0]);
    }
  }

  lemma {:induction false} RunKeeps(s: System, steps: seq<Step>)
    requires Invariant(s) && Runs(s, steps)
    ensures Invariant(After(s, steps))
    decreases |steps|
  {
    if steps != [] {
      StepKeeps(s, steps[0]);
      RunKeeps(Next(s, steps[0]), steps[1..]);
    }
  }

  // ----- safety over runs -----

  /** A failure of the network gives up everything: the device is lost, nothing is queued or
      waited for, nobody goes on sending, and what is shown stays until it is found again. */
  lemma FailureGivesUp(s: System, e: Step)
    requires Invariant(s) && s.dev.ready && Enabled(s, e)
    requires e.SendError? || e.NetworkError? || (e.ReconcileError? && e.network)
    ensures var t := Next(s, e);
      && !t.dev.ready && !t.dev.supported && !Outstanding(t.dev) && t.sent == []
      && t.dev.current == s.dev.current && t.amp == s.amp && t.commands == s.commands
      && (if e.NetworkError? then t.dev.sender == s.dev.sender && t.dev.wake else t.dev.sender.Done?)
  {}

  /** A reconciliation that fails by itself only ends the wait: a level queued meanwhile is
      sent, and otherwise nobody is sending. */
  lemma FailedReconciliationGoesOn(s: System)
    requires Invariant(s) && s.dev.ready && Enabled(s, ReconcileError(false))
    ensures var t := Next(s, ReconcileError(false));
      && t.dev.ready && t.dev.current == s.dev.current && t.dev.target.Empty?
      && t.commands == s.commands + (if s.dev.target.Level? then [s.newest] else [])
      && (if s.dev.target.Level? then t.dev.sender.Sending? else t.dev.sender.Done?)
  {}

  /** A step that loses neither an echo nor the answer of a status probe. */
  predicate Lossless(e: Step) { !e.LoseEcho? && !(e.ReconcileError? && !e.network) }

  predicate AllLossless(steps: seq<Step>) {
    steps == [] || (Lossless(steps[0]) && AllLossless(steps[1..]))
  }

  lemma {:induction false} NeverStale(s: System, steps: seq<Step>)
    requires !s.stale && Runs(s, steps) && AllLossless(steps)
    ensures !After(s, steps).stale
    decreases |steps|
  {
    if steps != [] { NeverStale(Next(s, steps[0]), steps[1..]); }
  }

  /** However sends, echoes, knob turns, timeouts, probes, failed sends and lost connections
      fall: once the device is ready with nothing queued, unconfirmed, reconciling or echoing,
      it shows the amplifier's level. */
  lemma VolumeConverges(amp: int, ampMax: int, steps: seq<Step>)
    requires Runs(Initial(amp, ampMax), steps) && AllLossless(steps)
    ensures Synchronized(After(Initial(amp, ampMax), steps))
  {
    RunKeeps(Initial(amp, ampMax), steps);
    NeverStale(Initial(amp, ampMax), steps);
  }

  /** In every run, losses included, what is shown while a level is outstanding is the
      newest one asked for, and it has a sender. */
  lemma OutstandingLevels(amp: int, ampMax: int, steps: seq<Step>)
    requires Runs(Initial(amp, ampMax), steps)
    ensures var s := After(Initial(amp, ampMax), steps);
      && (Outstanding(s.dev) ==> s.dev.ready && s.dev.current == s.newest && !s.dev.sender.Done?)
      && EndOf(s.dev.unconfirmed, s.sent)
      && (s.dev.sender.Waiting? ==> (s.dev.wake <==> s.dev.target.Level? || s.dev.unconfirmed == []))
  {
    RunKeeps(Initial(amp, ampMax), steps);
  }

  /** Losing the last echo does mislead: the run ends ready, with nothing under way, on a
      level the amplifier has left. */
  lemma LostEchoMisleads()
    ensures Runs(Initial(10, 100), [Connect, Turn(20), LoseEcho(0)])
    ensures var s := After(Initial(10, 100), [Connect, Turn(20), LoseEcho(0)]);
      s.dev.ready && !Outstanding(s.dev) && s.echoes == [] && s.dev.sender.Done? && s.dev.current != s.amp
  {
    var a := Next(Initial(10, 100), Connect);
    var b := Next(a, Turn(20));
    assert b.echoes == [20];
    assert [Connect, Turn(20), LoseEcho(0)][1..] == [Turn(20), LoseEcho(0)];
    assert [Turn(20), LoseEcho(0)][1..] == [LoseEcho(0)];
    assert [LoseEcho(0)][1..] == [];
    assert Runs(b, [LoseEcho(0)]);
    assert Runs(a, [Turn(20), LoseEcho(0)]);
  }

  /** The next poll makes up for any loss before it, once the echoes still under way are in:
      from any state a run can reach. */
  lemma PollMakesUp(s: System)
    requires Invariant(s) && s.dev.ready && s.echoes == []
    ensures !Next(s, Poll).stale && Invariant(Next(s, Poll))
    ensures !Outstanding(Next(s, Poll).dev) ==> Next(s, Poll).dev.current == s.amp
  {
    StepKeeps(s, Poll);
    ReportKeeps(s, s.amp);
  }

  /** So does the next change the amplifier makes, which is echoed. */
  lemma ChangeMakesUp(s: System, level: int)
    requires level != s.amp
    ensures !Next(s, Turn(level)).stale && Next(s, Turn(level)).echoes == s.echoes + [level]
  {}

  // ----- progress -----

  /** What the device and the amplifier do by themselves. */
  predicate Internal(e: Step) {
    e.Start? || e.Answered? || e.Paced? || e.Woken? || e.EchoTimeout? || e.Reconciled?
    || e.Apply? || e.Echo? || e.Connect?
  }

  predicate AllInternal(steps: seq<Step>) {
    steps == [] || (Internal(steps[0]) && AllInternal(steps[1..]))
  }

  predicate Quiet(s: System) {
    s.dev.ready && !Outstanding(s.dev) && s.dev.sender.Done? && s.commands == [] && s.echoes == []
  }

  function SenderWork(d: Device): nat {
    match d.sender
    case Done => 0
    case Waiting => if d.wake then 4 else 1
    case Reconciling => 3
    case Pacing => 5
    case Scheduled => 5
    case Sending => 6
  }

  /** How much is left to do: a queued level counts for the request, the command and the
      echo it will become. */
  function Work(s: System): nat {
    SenderWork(s.dev) + 5 * |s.dev.unconfirmed| + 3 * |s.commands| + 2 * |s.echoes|
    + (if s.dev.target.Level? then 15 else 0) + (if s.dev.ready then 0 else 1)
  }

  lemma ReportWork(d: Device, level: int)
    ensures |Reported(d, level).unconfirmed| <= |d.unconfirmed|
    ensures SenderWork(Reported(d, level)) + 5 * |Reported(d, level).unconfirmed| <= SenderWork(d) + 5 * |d.unconfirmed|
  {
    ConfirmKeepsEnd(d.unconfirmed, level);
    if level !in d.unconfirmed { assert Reported(d, level).unconfirmed == d.unconfirmed; }
  }

  lemma ResumeWork(s: System)
    requires SenderWork(s.dev) >= 3
    ensures Work(Resume(s, s.dev)) < Work(s)
  {}

  lemma EchoWork(s: System)
    requires s.echoes != []
    ensures Work(Next(s, Echo)) < Work(s)
  {
    ReportWork(s.dev, s.echoes[0]);
  }

  lemma ReconciledWork(s: System)
    requires s.dev.sender.Reconciling?
    ensures Work(Next(s, Reconciled)) < Work(s)
  {
    ReportWork(s.dev, s.amp);
    assert Reported(s.dev, s.amp).sender == s.dev.sender;
    ResumeWork(Probed(s));
  }

  lemma WorkShrinks(s: System, e: Step)
    requires Invariant(s) && Enabled(s, e) && Internal(e)
    ensures Work(Next(s, e)) < Work(s)
  {
    match e
    case Start | Paced | Woken => ResumeWork(s);
    case Answered | EchoTimeout | Connect | Apply =>
    case Reconciled => ReconciledWork(s);
    case Echo => EchoWork(s);
  }

  /** Left alone, the machine never does more steps than there is work. */
  lemma {:induction false} InternalRunsEnd(s: System, steps: seq<Step>)
    requires Invariant(s) && Runs(s, steps) && AllInternal(steps)
    ensures |steps| <= Work(s)
    decreases |steps|
  {
    if steps != [] {
      StepKeeps(s, steps[0]);
      WorkShrinks(s, steps[0]);
      InternalRunsEnd(Next(s, steps[0]), steps[1..]);
    }
  }

  /** It never stops with something left to do. */
  lemma SomeStep(s: System) returns (e: Step)
    requires Invariant(s) && !Quiet(s)
    ensures Enabled(s, e) && Internal(e)
  {
    e := if s.commands != [] then Apply
         else if s.echoes != [] then Echo
         else if !s.dev.ready then Connect
         else match s.dev.sender
              case Scheduled => Start
              case Sending => Answered
              case Pacing => Paced
              case Waiting => EchoTimeout
              case Reconciling => Reconciled
              case Done => Connect;
  }

  /** A run of internal steps that has come to its end: the machine is quiet and shows the
      amplifier's level, which is the newest one asked for unless something else came in. */
  lemma SettledRun(s: System, steps: seq<Step>)
    requires Invariant(s) && !s.stale && Runs(s, steps) && AllInternal(steps)
    requires forall e :: Internal(e) ==> !Enabled(After(s, steps), e)
    ensures var t := After(s, steps); Quiet(t) && t.dev.current == t.amp && (!t.disturbed ==> t.amp == t.newest)
  {
    RunKeeps(s, steps);
    InternalIsLossless(steps);
    NeverStale(s, steps);
    if !Quiet(After(s, steps)) {
      var e := SomeStep(After(s, steps));
      assert false;
    }
  }

  lemma {:induction false} InternalIsLossless(steps: seq<Step>)
    requires AllInternal(steps)
    ensures AllLossless(steps)
  {
    if steps != [] { InternalIsLossless(steps[1..]); }
  }

  lemma {:induction false} InternalUndisturbed(s: System, steps: seq<Step>)
    requires Runs(s, steps) && AllInternal(steps)
    ensures After(s, steps).disturbed == s.disturbed && After(s, steps).newest == s.newest
    decreases |steps|
  {
    if steps != [] { InternalUndisturbed(Next(s, steps[0]), steps[1..]); }
  }

  /** From every reachable state, whatever is under way, internal steps settle it. */
  lemma {:induction false} Settles(s: System) returns (steps: seq<Step>)
    requires Invariant(s)
    ensures Runs(s, steps) && AllInternal(steps) && Quiet(After(s, steps))
    decreases Work(s)
  {
    if Quiet(s) {
      steps := [];
    } else {
      var e := SomeStep(s);
      StepKeeps(s, e);
      WorkShrinks(s, e);
      var rest := Settles(Next(s, e));
      steps := [e] + rest;
      assert steps[1..] == rest;
    }
  }

  predicate Goes(s: System, e: Step, to: System) { Enabled(s, e) && Next(s, e) == to }

  lemma RunsOne(s: System, e: Step, to: System, rest: seq<Step>)
    requires Goes(s, e, to) && Runs(to, rest)
    ensures Runs(s, [e] + rest) && After(s, [e] + rest) == After(to, rest)
  {
    assert ([e] + rest)[1..] == rest;
  }

  lemma RunsThree(s: System, a: Step, t: System, b: Step, u: System, c: Step, end: System)
    requires Goes(s, a, t) && Goes(t, b, u) && Goes(u, c, end)
    ensures Runs(s, [a, b, c]) && After(s, [a, b, c]) == end
  {
    hide Next, Enabled;
    assert Runs(end, []) && After(end, []) == end;
    RunsOne(u, c, end, []);
    RunsOne(t, b, u, [c]);
    RunsOne(s, a, t, [b, c]);
    assert [c] + [] == [c] && [b] + [c] == [b, c] && [a] + [b, c] == [a, b, c];
  }

  lemma {:induction false} RunsOn(s: System, steps: seq<Step>, more: seq<Step>)
    requires Runs(s, steps) && Runs(After(s, steps), more)
    ensures Runs(s, steps + more) && After(s, steps + more) == After(After(s, steps), more)
    decreases |steps|
  {
    if steps == [] {
      assert steps + more == more;
    } else {
      RunsOn(Next(s, steps[0]), steps[1..], more);
      assert (steps + more)[1..] == steps[1..] + more;
    }
  }

  lemma AskIsSent(s: System, volume: int) returns (sent: System)
    requires Quiet(s)
    ensures Runs(s, [Ask(volume), Start, Step.Answered]) && After(s, [Ask(volume), Start, Step.Answered]) == sent
    ensures var level := Clamp(volume, s.dev.maxVolume);
      && sent.dev == s.dev.(wake := true, sender := Pacing, current := level, unconfirmed := [level])
      && sent.commands == [level] && sent.echoes == [] && sent.amp == s.amp
  {
    var level := Clamp(volume, s.dev.maxVolume);
    var a := s.(dev := s.dev.(target := Level(level), wake := true, sender := Scheduled, current := level),
                newest := level, disturbed := false);
    var b := a.(dev := a.dev.(target := Empty, unconfirmed := [level], sender := Sending),
                commands := [level], sent := s.sent + [level]);
    sent := b.(dev := b.dev.(sender := Pacing));
    hide Runs, After;
    RunsThree(s, Ask(volume), a, Start, b, Step.Answered, sent);
  }

  lemma SentIsEchoed(s: System, level: int) returns (echoed: System)
    requires s.dev.sender.Pacing? && s.dev.target.Empty? && s.dev.unconfirmed == [level]
    requires s.commands == [level] && s.echoes == [] && level != s.amp
    ensures Runs(s, [Paced, Apply, Echo]) && After(s, [Paced, Apply, Echo]) == echoed
    ensures echoed.dev == s.dev.(unconfirmed := [], wake := true, sender := Waiting)
    ensures echoed.amp == level && echoed.commands == [] && echoed.echoes == []
  {
    var d := s.(dev := s.dev.(wake := false, sender := Waiting));
    var e := d.(amp := level, commands := [], echoes := [level], stale := false);
    echoed := e.(dev := e.dev.(unconfirmed := [], wake := true), echoes := []);
    hide Runs, After;
    assert [level][1..] == [];
    assert Goes(e, Echo, echoed) by { ReportedMeans(e.dev, level, 0); }
    RunsThree(s, Paced, d, Apply, e, Echo, echoed);
  }

  /** Undisturbed, a request that changes the level is over with its echo: sent, applied, echoed
      and confirmed without a wait running out. */
  lemma EchoEndsTheWait(s: System, volume: int) returns (end: System)
    requires Quiet(s) && Clamp(volume, s.dev.maxVolume) != s.amp
    ensures var steps := [Ask(volume), Start, Step.Answered] + [Paced, Apply, Echo] + [Woken];
      Runs(s, steps) && After(s, steps) == end
    ensures Quiet(end) && end.amp == end.dev.current == Clamp(volume, s.dev.maxVolume)
  {
    var sent := AskIsSent(s, volume);
    var echoed := SentIsEchoed(sent, Clamp(volume, s.dev.maxVolume));
    end := echoed.(dev := echoed.dev.(sender := Done));
    hide Runs, After;
    WokenEnds(echoed, end);
    hide Goes, Next, Enabled;
    RunsOn(s, [Ask(volume), Start, Step.Answered], [Paced, Apply, Echo]);
    RunsOn(s, [Ask(volume), Start, Step.Answered] + [Paced, Apply, Echo], [Woken]);
  }

  lemma WokenEnds(s: System, end: System)
    requires Goes(s, Woken, end)
    ensures Runs(s, [Woken]) && After(s, [Woken]) == end
  {
    hide Next, Enabled;
    assert Runs(end, []) && After(end, []) == end;
    RunsOne(s, Woken, end, []);
    assert [Woken] + [] == [Woken];
  }

  /** The device's volume can be set exactly while it is ready, and then it knows the
      amplifier's own maximum. */
  predicate KnowsAmplifier(s: System) {
    s.dev.supported == s.dev.ready && (s.dev.ready ==> s.dev.maxVolume == s.ampMax)
  }

  lemma {:induction false} AmplifierIsKnown(s: System, steps: seq<Step>)
    requires KnowsAmplifier(s) && Runs(s, steps)
    ensures KnowsAmplifier(After(s, steps)) && After(s, steps).ampMax == s.ampMax
    decreases |steps|
  {
    if steps != [] {
      KeepsKnowing(s, steps[0]);
      AmplifierIsKnown(Next(s, steps[0]), steps[1..]);
    }
  }

  lemma ResumeKnows(s: System)
    requires KnowsAmplifier(s)
    ensures KnowsAmplifier(Resume(s, s.dev)) && Resume(s, s.dev).ampMax == s.ampMax
    ensures KnowsAmplifier(Probed(s)) && Probed(s).ampMax == s.ampMax
    ensures KnowsAmplifier(Unreachable(s)) && Unreachable(s).ampMax == s.ampMax
  {}

  lemma ResumingKnows(s: System, e: Step)
    requires KnowsAmplifier(s) && Enabled(s, e)
    requires e.Start? || e.Paced? || e.Woken? || e.Reconciled? || e.ReconcileError? || e.Poll? || e.NetworkError?
    ensures KnowsAmplifier(Next(s, e)) && Next(s, e).ampMax == s.ampMax
  {
    ResumeKnows(s);
    hide Newest, Resume, Probed, Unreachable, KnowsAmplifier;
    match e
    case Reconciled => ResumeKnows(Probed(s));
    case ReconcileError(_) => ResumeKnows(Unreachable(s));
    case _ =>
  }

  lemma KeepsKnowing(s: System, e: Step)
    requires KnowsAmplifier(s) && Enabled(s, e)
    ensures KnowsAmplifier(Next(s, e)) && Next(s, e).ampMax == s.ampMax
  {
    match e
    case Start | Paced | Woken | Reconciled | ReconcileError(_) | Poll | NetworkError => ResumingKnows(s, e);
    case Ask(_) | Turn(_) | Answered | EchoTimeout | Apply | Echo | Connect | SendError | Ignore | LoseEcho(_) =>
      hide Newest, Clamp, Confirm, Resume, Probed, Unreachable, Resumed;
  }

  /** The newest level asked for wins: in every run in which no report has been lost, a request
      made while the device is ready and disturbed by nothing ends, however its steps fall, set
      on the amplifier and shown: the level asked for, or the nearest the amplifier has. */
  lemma RequestIsSet(amp: int, ampMax: int, before: seq<Step>, volume: int, steps: seq<Step>)
    requires ampMax >= 0 && Runs(Initial(amp, ampMax), before)
    requires var s := After(Initial(amp, ampMax), before);
      && s.dev.ready && !s.stale && Runs(Next(s, Ask(volume)), steps) && AllInternal(steps)
      && forall e :: Internal(e) ==> !Enabled(After(Next(s, Ask(volume)), steps), e)
    ensures var t := After(Next(After(Initial(amp, ampMax), before), Ask(volume)), steps);
      Quiet(t) && t.amp == t.dev.current == if volume < 0 then 0 else if volume > ampMax then ampMax else volume
  {
    var s := After(Initial(amp, ampMax), before);
    RunKeeps(Initial(amp, ampMax), before);
    AmplifierIsKnown(Initial(amp, ampMax), before);
    StepKeeps(s, Ask(volume));
    SettledRun(Next(s, Ask(volume)), steps);
    InternalUndisturbed(Next(s, Ask(volume)), steps);
  }
}
