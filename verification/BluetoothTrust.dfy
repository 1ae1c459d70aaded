/** Every run of the receiver over one Bluetooth device and its access record, effect by
    effect, with a crash possible between any two: who is trusted, and who may be again. */
module BluetoothTrust {
  import opened AccessLog
  import opened Calls
  import opened Options

  datatype Bond = Bond(paired: bool, trusted: bool)

  /** The operation under way, by the effect it comes to next. */
  datatype Doing =
    | Nothing
    | Granting | Admitting          // `Trusted` is to be set
    | Committing                    // the grant is to be made lasting
    | Cleaning                      // `Trusted` is to be put back
    | Disconnecting                 // the audio profile is to be disconnected
    | Removing                      // the bond is to be removed
    | Clearing                      // the record is to be dropped

  /** One device: what BlueZ holds, what the last snapshot says, the record (the same in
      memory and on disk), and its place in the pairing window. `original` only remembers
      the `Trusted` value the device had when it appeared. */
  datatype Device = Device(
    bond: Option<Bond>, seen: Option<Bond>, record: Option<Record>,
    candidate: bool, live: bool, doing: Doing, original: bool)

  datatype Step =
    // the world
    | Appear(bond: Bond) | Pair | Unpair | Vanish | Refresh | Crash
    // the window
    | Open | Expire | Cancel | Close(written: bool) | Complete
    // operations, at their start
    | Grant | Admit(direct: bool) | Revoke | Forget | Rollback
    // their further effects; one that fails ends the operation
    | SetTrust(call: Call) | Commit | RestoreTrust(call: Call) | Disconnect(done: bool)
    | RemoveBond | RemovalSwallowed | RemovalFails(gone: bool) | Clear | WriteFails

  function Fresh(): Device { Device(None, None, None, false, false, Nothing, false) }

  predicate Standing(r: Option<Record>, state: State) { r.Some? && r.value.state == state }

  predicate Enabled(d: Device, e: Step) {
    match e
    case Appear(_) => d.bond.None?
    case Pair => d.bond.Some? && !d.bond.value.paired
    case Unpair => d.bond.Some? && d.bond.value.paired
    case Vanish => d.bond.Some?
    case Refresh | Crash | Expire | Cancel => true
    case Open | Close(_) | Grant | Revoke => d.doing.Nothing?
    case Complete => d.doing.Nothing? && d.candidate && d.live
    case Admit(direct) =>
      && d.doing.Nothing? && d.live && !d.candidate && !Standing(d.record, Allowed)
      && (if direct then d.bond.Some? else d.seen.Some? && d.seen.value.paired && !Denied(d.record))
    case Forget => d.doing.Nothing? && !d.candidate
    case Rollback => d.doing.Nothing? && d.record.Some? && !Standing(d.record, Allowed) && !(d.candidate && d.live)
    case SetTrust(call) =>
      (d.doing.Granting? || (d.doing.Admitting? && (call.Done? ==> d.live))) && (Took(call) ==> d.bond.Some?)
    case Commit => d.doing.Committing?
    case RestoreTrust(call) => d.doing.Cleaning? && (Restores(d) && Took(call) ==> d.bond.Some?)
    case Disconnect(_) => d.doing.Disconnecting?
    case RemoveBond | RemovalFails(_) => d.doing.Removing?
    case RemovalSwallowed => d.doing.Removing? && d.bond.Some? && !d.bond.value.paired
    case Clear => d.doing.Clearing?
    case WriteFails => d.doing.Committing? || d.doing.Clearing?
  }

  /** Whether cleaning up has something to take back. */
  predicate Acts(d: Device) { Standing(d.record, Pending) || Standing(d.record, Revoked) }

  /** Whether it writes `Trusted`, going by the snapshot. */
  predicate Restores(d: Device) {
    && Acts(d) && d.seen.Some? && d.record.value.baseline.Some?
    && d.record.value.baseline.value != d.seen.value.trusted
  }

  function Begin(d: Device, trusted: bool, next: Doing): Device {
    if Denied(d.record) then d
    else d.(record := Begun(d.record, "", Some(trusted)), doing := next)
  }

  function Trusting(d: Device, trusted: bool, call: Call): Device
    requires Took(call) ==> d.bond.Some?
  {
    if Took(call) then d.(bond := Some(d.bond.value.(trusted := trusted))) else d
  }

  function Next(d: Device, e: Step): Device
    requires Enabled(d, e)
  {
    match e
    case Appear(bond) => d.(bond := Some(bond), original := bond.trusted)
    case Pair => d.(bond := Some(d.bond.value.(paired := true)))
    case Unpair => d.(bond := Some(d.bond.value.(paired := false)))
    case Vanish => d.(bond := None)
    case Refresh => d.(seen := d.bond)
    case Crash => d.(seen := d.bond, candidate := false, live := false, doing := Nothing)
    case Open => d.(live := true)
    case Expire => d.(live := false)
    case Cancel => d.(candidate := false)
    case Close(written) =>
      var closed := d.(live := false, candidate := false);
      if d.candidate && !Standing(d.record, Allowed) && written
      then closed.(record := Moved(d.record, Revoked), doing := Cleaning)
      else closed
    case Complete => d.(record := Moved(d.record, Allowed), live := false, candidate := false)
    case Grant =>
      var refreshed := d.(seen := d.bond);
      if d.bond.None? || !d.bond.value.paired then refreshed
      else Begin(refreshed, d.bond.value.trusted, Granting)
    case Admit(direct) =>
      var props := if direct then d.bond.value else d.seen.value;
      var admitted := Begin(d, props.trusted, Admitting);
      admitted.(candidate := admitted.doing.Admitting?)
    case Revoke => d.(record := Moved(d.record, Revoked), candidate := false, doing := Cleaning)
    case Forget =>
      d.(seen := d.bond, record := ToForget(d.record, ""), doing := if d.bond.Some? then Removing else Clearing)
    case Rollback =>
      if !Standing(d.record, Forgetting) then d.(doing := Cleaning)
      else if d.seen.Some? && d.seen.value.paired then d
      else d.(doing := Clearing)
    case SetTrust(call) =>
      Trusting(d, true, call).(doing := if call.Done? && d.doing.Granting? then Committing else Nothing,
                               candidate := d.candidate && (call.Done? || d.doing.Granting?))
    case Commit => d.(record := Moved(d.record, Allowed), doing := Nothing)
    case RestoreTrust(call) =>
      if !Acts(d) then d.(doing := Nothing)
      else if d.seen.None? then d.(doing := Clearing)
      else if !Restores(d) then d.(doing := Disconnecting)
      else Trusting(d, d.record.value.baseline.value, call).(doing := if call.Done? then Disconnecting else Nothing)
    case Disconnect(done) => d.(doing := if done then Clearing else Nothing)
    case RemoveBond => d.(bond := None, seen := None, doing := Clearing)
    case RemovalSwallowed => d.(seen := d.bond, doing := Clearing)
    case RemovalFails(gone) => d.(bond := if gone then None else d.bond, doing := Nothing)
    case Clear => d.(record := Cleaned(d.record), doing := Nothing)
    case WriteFails => d.(doing := Nothing)
  }

  // ----- trust is put back -----

  /** Whatever the device's bond says of trust is as it was, or the file says how it was. */
  predicate Recoverable(d: Device) {
    d.bond.Some? && d.bond.value.paired ==>
      d.bond.value.trusted == d.original || (d.record.Some? && d.record.value.baseline == Some(d.original))
  }

  predicate TrustAsBefore(d: Device) { d.bond.Some? ==> d.bond.value.trusted == d.original }

  predicate BaselineIsOriginal(d: Device) {
    d.bond.Some? ==>
      if d.record.Some? && d.record.value.baseline.Some?
      then d.record.value.baseline.value == d.original
      else d.bond.value.trusted == d.original
  }

  /** A candidate's record is not denied, nor one that a grant under way will allow. */
  predicate GrantsFit(d: Device) {
    && (d.candidate ==> !Denied(d.record))
    && (d.doing.Granting? || d.doing.Admitting? || d.doing.Committing? ==> d.record.Some? && !Denied(d.record))
  }

  /** Records that may be acted on have a baseline, and only those are acted on. */
  predicate RecordsFit(d: Device) {
    && GrantsFit(d)
    && (d.record.Some? && d.record.value.baseline.None? ==> Denied(d.record))
    && (d.doing.Cleaning? ==> !Standing(d.record, Forgetting))
    && (d.doing.Disconnecting? || d.doing.Removing? || d.doing.Clearing? ==> !Standing(d.record, Allowed))
  }

  /** Whatever follows, the device's trust can be put back. */
  predicate Good(d: Device) {
    RecordsFit(d) && BaselineIsOriginal(d) && (d.doing.Disconnecting? || d.doing.Clearing? ==> TrustAsBefore(d))
  }

  /** The device is trusted as its record says it was. */
  predicate AsRecorded(d: Device) {
    d.bond.Some? && d.record.Some? && d.record.value.baseline.Some? ==>
      d.bond.value.trusted == d.record.value.baseline.value
  }

  /** What must be so for a step to keep the device's trust recoverable: a baseline read from
      the snapshot is the device's own, a record is dropped only once the device is trusted as
      it says, and no device appears with another trust than a record kept for it says. */
  predicate Exact(d: Device, e: Step) {
    match e
    case Admit(direct) =>
      direct || d.record.Some? || d.bond.None? || (d.seen.Some? && d.seen.value.trusted == d.bond.value.trusted)
    case RestoreTrust(_) => !Acts(d) || Restores(d) || AsRecorded(d)
    case Rollback => Standing(d.record, Forgetting) && !(d.seen.Some? && d.seen.value.paired) ==> AsRecorded(d)
    case RemovalSwallowed => AsRecorded(d)
    case Appear(bond) =>
      d.record.Some? && d.record.value.baseline.Some? ==> d.record.value.baseline.value == bond.trusted
    case _ => true
  }

  lemma PlainExact(d: Device, e: Step)
    requires Good(d) && Enabled(d, e)
    requires e.Appear? || e.Pair? || e.Unpair? || e.Vanish? || e.Refresh? || e.Crash? || e.Open? || e.Expire?
      || e.Cancel? || e.Close? || e.Complete? || e.SetTrust? || e.Commit?
    ensures Good(Next(d, e)) <==> Exact(d, e)
  {}

  lemma StartExact(d: Device, e: Step)
    requires Good(d) && Enabled(d, e)
    requires e.Grant? || e.Admit? || e.Revoke? || e.Forget? || e.Rollback?
    ensures Good(Next(d, e)) <==> Exact(d, e)
  {}

  lemma RestoringExact(d: Device, call: Call)
    requires Good(d) && Enabled(d, RestoreTrust(call))
    ensures Good(Next(d, RestoreTrust(call))) <==> Exact(d, RestoreTrust(call))
  {}

  lemma EndExact(d: Device, e: Step)
    requires Good(d) && Enabled(d, e)
    requires e.Disconnect? || e.RemoveBond? || e.RemovalSwallowed? || e.RemovalFails? || e.Clear? || e.WriteFails?
    ensures Good(Next(d, e)) <==> Exact(d, e)
  {}

  /** A step keeps trust recoverable exactly under its own condition. */
  lemma StepExact(d: Device, e: Step)
    requires Good(d) && Enabled(d, e)
    ensures Good(Next(d, e)) <==> Exact(d, e)
  {
    match e
    case Grant | Admit(_) | Revoke | Forget | Rollback => StartExact(d, e);
    case RestoreTrust(call) => RestoringExact(d, call);
    case Disconnect(_) | RemoveBond | RemovalSwallowed | RemovalFails(_) | Clear | WriteFails => EndExact(d, e);
    case _ => PlainExact(d, e);
  }

  predicate Runs(d: Device, steps: seq<Step>)
    decreases |steps|
  {
    steps == [] || (Enabled(d, steps[0]) && Runs(Next(d, steps[0]), steps[1..]))
  }

  function StepIf(d: Device, e: Step): Device { if Enabled(d, e) then Next(d, e) else d }

  function After(d: Device, steps: seq<Step>): Device
    decreases |steps|
  {
    if steps == [] then d else After(StepIf(d, steps[0]), steps[1..])
  }

  /** A run whose every step meets its condition. */
  predicate AllExact(d: Device, steps: seq<Step>)
    decreases |steps|
  {
    steps == [] || (Enabled(d, steps[0]) && Exact(d, steps[0]) && AllExact(Next(d, steps[0]), steps[1..]))
  }

  predicate AlwaysGood(d: Device, steps: seq<Step>)
    decreases |steps|
  {
    Good(d) && (steps == [] || AlwaysGood(StepIf(d, steps[0]), steps[1..]))
  }

  lemma {:induction false} RunExact(d: Device, steps: seq<Step>)
    requires Good(d) && Runs(d, steps)
    ensures AllExact(d, steps) <==> AlwaysGood(d, steps)
    ensures AllExact(d, steps) ==> Good(After(d, steps))
    decreases |steps|
  {
    if steps != [] {
      var e := steps[0];
      StepExact(d, e);
      hide Good, Exact, Enabled, Next;
      if Exact(d, e) { RunExact(Next(d, e), steps[1..]); }
    }
  }

  lemma {:induction false} ExactRuns(d: Device, steps: seq<Step>)
    requires AllExact(d, steps)
    ensures Runs(d, steps)
    decreases |steps|
  {
    if steps != [] { ExactRuns(Next(d, steps[0]), steps[1..]); }
  }

  /** Grants, admissions, revocations, closes, forgets and crashes in any order, each effect
      failing or not: a device still paired is trusted as it was when it appeared, or its
      record says how it was trusted then; without a record it is as it was. */
  lemma TrustIsRecoverable(steps: seq<Step>)
    requires AllExact(Fresh(), steps)
    ensures var d := After(Fresh(), steps); Recoverable(d) && (d.record.None? ==> TrustAsBefore(d))
  {
    ExactRuns(Fresh(), steps);
    RunExact(Fresh(), steps);
  }

  lemma ExactOne(d: Device, e: Step, rest: seq<Step>)
    requires Enabled(d, e) && Exact(d, e) && AllExact(Next(d, e), rest)
    ensures AllExact(d, [e] + rest) && After(d, [e] + rest) == After(Next(d, e), rest)
  {
    assert ([e] + rest)[1..] == rest;
  }

  /** A record about to be dropped while the device is trusted otherwise: what loses it. */
  lemma LosesRecord(d: Device) returns (steps: seq<Step>)
    requires RecordsFit(d) && !TrustAsBefore(d) && (d.doing.Disconnecting? || d.doing.Clearing?)
    ensures AllExact(d, steps) && !Recoverable(After(d, steps))
    decreases !d.bond.value.paired, d.doing.Disconnecting?
  {
    if !d.bond.value.paired {
      var rest := LosesRecord(Next(d, Pair));
      ExactOne(d, Pair, rest);
      steps := [Pair] + rest;
    } else if d.doing.Disconnecting? {
      var rest := LosesRecord(Next(d, Disconnect(true)));
      ExactOne(d, Disconnect(true), rest);
      steps := [Disconnect(true)] + rest;
    } else {
      ExactOne(d, Clear, []);
      steps := [Clear] + [];
    }
  }

  /** A record with another baseline than the device had: what writes it to the device. */
  lemma LosesBaseline(d: Device) returns (steps: seq<Step>)
    requires d.bond.Some? && d.bond.value.trusted == d.original
    requires d.record.Some? && d.record.value.baseline == Some(!d.original)
    ensures AllExact(d, steps) && !Recoverable(After(d, steps))
    decreases !d.bond.value.paired
  {
    if !d.bond.value.paired {
      var rest := LosesBaseline(Next(d, Pair));
      ExactOne(d, Pair, rest);
      steps := [Pair] + rest;
    } else {
      var crashed := Next(d, Crash);
      var revoked := Next(crashed, Revoke);
      ExactOne(revoked, RestoreTrust(Done), []);
      ExactOne(crashed, Revoke, [RestoreTrust(Done)] + []);
      ExactOne(d, Crash, [Revoke] + ([RestoreTrust(Done)] + []));
      steps := [Crash] + ([Revoke] + ([RestoreTrust(Done)] + []));
    }
  }

  /** The condition is exact: a step meets it if and only if no continuation that meets its
      own loses how the device was trusted. */
  lemma ExactIsSafe(d: Device, e: Step)
    requires Good(d) && Enabled(d, e)
    ensures Exact(d, e) <==>
      forall steps :: AllExact(Next(d, e), steps) ==> Recoverable(After(Next(d, e), steps))
  {
    StepExact(d, e);
    if Exact(d, e) {
      forall steps | AllExact(Next(d, e), steps) ensures Recoverable(After(Next(d, e), steps)) {
        ExactRuns(Next(d, e), steps);
        RunExact(Next(d, e), steps);
      }
    } else {
      var steps;
      if e.Admit? || e.Appear? { steps := LosesBaseline(Next(d, e)); }
      else { steps := LosesRecord(Next(d, e)); }
    }
  }

  /** Cleaning up leaves a device as its baseline says exactly when it already was so, or
      the snapshot shows it otherwise. */
  lemma CleaningRestores(d: Device)
    requires d.doing.Cleaning? && Enabled(d, RestoreTrust(Done)) && d.bond.Some?
    requires Acts(d) && d.record.value.baseline.Some?
    ensures var b := d.record.value.baseline.value;
      Next(d, RestoreTrust(Done)).bond.value.trusted == b <==>
        d.bond.value.trusted == b || (d.seen.Some? && d.seen.value.trusted != b)
  {}

  // ----- five ways to lose it -----

  const GRANTED := Device(Some(Bond(true, true)), Some(Bond(true, false)),
                          Some(Record("", Some(false), Allowed)), false, false, Nothing, false)

  lemma RunsOne(d: Device, e: Step, rest: seq<Step>)
    requires Enabled(d, e) && Runs(Next(d, e), rest)
    ensures Runs(d, [e] + rest) && After(d, [e] + rest) == After(Next(d, e), rest)
  {
    assert ([e] + rest)[1..] == rest;
  }

  lemma {:induction false} RunsOn(d: Device, steps: seq<Step>, more: seq<Step>)
    requires Runs(d, steps) && Runs(After(d, steps), more)
    ensures Runs(d, steps + more) && After(d, steps + more) == After(After(d, steps), more)
    decreases |steps|
  {
    if steps == [] {
      assert steps + more == more;
    } else {
      RunsOn(Next(d, steps[0]), steps[1..], more);
      assert (steps + more)[1..] == steps[1..] + more;
    }
  }

  predicate Goes(d: Device, e: Step, to: Device) { Enabled(d, e) && Next(d, e) == to }

  predicate Reaches(d: Device, steps: seq<Step>, to: Device) { Runs(d, steps) && After(d, steps) == to }

  lemma ReachOne(d: Device, e: Step, to: Device)
    requires Goes(d, e, to)
    ensures Reaches(d, [e], to)
  {
    assert Runs(to, []) && After(to, []) == to;
    RunsOne(d, e, []);
    assert [e] + [] == [e];
  }

  lemma ReachOn(d: Device, steps: seq<Step>, to: Device, more: seq<Step>, end: Device)
    requires Reaches(d, steps, to) && Reaches(to, more, end)
    ensures Reaches(d, steps + more, end)
  {
    hide Runs, After;
    RunsOn(d, steps, more);
  }

  lemma ReachTwo(d: Device, a: Step, to: Device, b: Step, end: Device)
    requires Goes(d, a, to) && Goes(to, b, end)
    ensures Reaches(d, [a, b], end)
  {
    hide Enabled, Next, Reaches;
    ReachOne(d, a, to);
    ReachOne(to, b, end);
    ReachOn(d, [a], to, [b], end);
    assert [a] + [b] == [a, b];
  }

  /** A device paired and not trusted, then granted. */
  lemma GrantedRun()
    ensures Reaches(Fresh(), [Appear(Bond(true, false)), Grant] + [SetTrust(Done), Commit], GRANTED)
  {
    var plain := Some(Bond(true, false));
    var found := Fresh().(bond := plain);
    var begun := Device(plain, plain, Some(Record("", Some(false), Pending)), false, false, Granting, false);
    var trusted := begun.(bond := Some(Bond(true, true)), doing := Committing);
    hide Reaches;
    assert Reaches(Fresh(), [Appear(plain.value), Grant], begun) by {
      ReachTwo(Fresh(), Appear(plain.value), found, Grant, begun);
    }
    assert Reaches(begun, [SetTrust(Done), Commit], GRANTED) by {
      ReachTwo(begun, SetTrust(Done), trusted, Commit, GRANTED);
    }
    hide Goes, Enabled, Next;
    ReachOn(Fresh(), [Appear(Bond(true, false)), Grant], begun, [SetTrust(Done), Commit], GRANTED);
  }

  const REVOKED := Device(Some(Bond(true, true)), Some(Bond(true, false)),
                          Some(Record("", Some(false), Revoked)), false, false, Cleaning, false)

  const STALE := REVOKED.(record := None, doing := Nothing)

  /** Revoked before the next refresh: cleaning up goes by a snapshot that never saw the
      grant, and the device stays trusted with no record. */
  lemma StaleSnapshotKeepsTrust()
    ensures Reaches(GRANTED, [Revoke, RestoreTrust(Done)] + [Disconnect(true), Clear], STALE) && !Recoverable(STALE)
  {
    hide Reaches;
    var kept, clearing := REVOKED.(doing := Disconnecting), REVOKED.(doing := Clearing);
    assert Reaches(GRANTED, [Revoke, RestoreTrust(Done)], kept) by {
      ReachTwo(GRANTED, Revoke, REVOKED, RestoreTrust(Done), kept);
    }
    assert Reaches(kept, [Disconnect(true), Clear], STALE) by {
      ReachTwo(kept, Disconnect(true), clearing, Clear, STALE);
    }
    hide Goes, Enabled, Next;
    ReachOn(GRANTED, [Revoke, RestoreTrust(Done)], kept, [Disconnect(true), Clear], STALE);
  }

  const CLEANED := Device(Some(Bond(true, false)), Some(Bond(true, true)), None, false, false, Nothing, false)

  /** Refreshed, revoked and cleaned up; the snapshot is the one from before. */
  lemma CleanedRun()
    ensures Reaches(GRANTED, [Refresh, Revoke] + ([RestoreTrust(Done), Disconnect(true)] + [Clear]), CLEANED)
  {
    hide Reaches;
    var refreshed := GRANTED.(seen := Some(Bond(true, true)));
    var revoked := REVOKED.(seen := Some(Bond(true, true)));
    var restored := revoked.(bond := Some(Bond(true, false)), doing := Disconnecting);
    var clearing := restored.(doing := Clearing);
    assert Reaches(GRANTED, [Refresh, Revoke], revoked) by {
      ReachTwo(GRANTED, Refresh, refreshed, Revoke, revoked);
    }
    assert Reaches(revoked, [RestoreTrust(Done), Disconnect(true)], clearing) by {
      ReachTwo(revoked, RestoreTrust(Done), restored, Disconnect(true), clearing);
    }
    assert Reaches(clearing, [Clear], CLEANED) by { ReachOne(clearing, Clear, CLEANED); }
    hide Goes, Enabled, Next;
    ReachOn(revoked, [RestoreTrust(Done), Disconnect(true)], clearing, [Clear], CLEANED);
    ReachOn(GRANTED, [Refresh, Revoke], revoked, [RestoreTrust(Done), Disconnect(true)] + [Clear], CLEANED);
  }

  const MISLED := Device(Some(Bond(true, true)), Some(Bond(true, false)),
                         Some(Record("", Some(true), Revoked)), false, false, Disconnecting, false)

  /** Admitted before the next refresh: the snapshot shows the trust of the grant before,
      which becomes the new record's baseline, and revoking sets a trust there never was. */
  lemma OldSnapshotMisleadsAdmission()
    ensures Reaches(CLEANED, [Open, Admit(false)] + ([Crash, Revoke] + [RestoreTrust(Done)]), MISLED)
    ensures !Recoverable(MISLED)
  {
    hide Reaches;
    var open := CLEANED.(live := true);
    var admitted := open.(record := Some(Record("", Some(true), Pending)), candidate := true, doing := Admitting);
    var crashed := CLEANED.(seen := CLEANED.bond, record := admitted.record);
    var revoked := crashed.(record := Some(Record("", Some(true), Revoked)), doing := Cleaning);
    assert Reaches(CLEANED, [Open, Admit(false)], admitted) by {
      ReachTwo(CLEANED, Open, open, Admit(false), admitted);
    }
    assert Reaches(admitted, [Crash, Revoke], revoked) by {
      ReachTwo(admitted, Crash, crashed, Revoke, revoked);
    }
    assert Reaches(revoked, [RestoreTrust(Done)], MISLED) by {
      ReachOne(revoked, RestoreTrust(Done), MISLED);
    }
    hide Goes, Enabled, Next;
    ReachOn(admitted, [Crash, Revoke], revoked, [RestoreTrust(Done)], MISLED);
    ReachOn(CLEANED, [Open, Admit(false)], admitted, [Crash, Revoke] + [RestoreTrust(Done)], MISLED);
  }

  const FORGETTING := Device(Some(Bond(true, true)), Some(Bond(true, true)),
                             Some(Record("", Some(false), Forgetting)), false, false, Removing, false)

  const UNPAIRED := FORGETTING.(bond := Some(Bond(false, true)))

  /** Trusted, unpaired, and nothing left that says it was not. */
  const FORGOTTEN := Device(Some(Bond(false, true)), Some(Bond(false, true)), None, false, false, Nothing, false)

  /** Pairing it again lets it in. */
  lemma ForgottenIsLost()
    ensures Reaches(FORGOTTEN, [Pair], FORGOTTEN.(bond := Some(Bond(true, true))))
    ensures !Recoverable(FORGOTTEN.(bond := Some(Bond(true, true))))
  {
    ReachOne(FORGOTTEN, Pair, FORGOTTEN.(bond := Some(Bond(true, true))));
  }

  /** A Forget interrupted, the device unpaired by itself: rolling it back drops the record
      of a device that is still there and trusted. */
  lemma RolledBackForgetKeepsTrust()
    ensures Reaches(GRANTED, [Forget, Crash] + ([Unpair, Refresh] + [Rollback, Clear]), FORGOTTEN)
  {
    hide Reaches;
    var crashed := FORGETTING.(doing := Nothing);
    var unpaired := UNPAIRED.(doing := Nothing);
    var refreshed := unpaired.(seen := UNPAIRED.bond);
    assert Reaches(GRANTED, [Forget, Crash], crashed) by {
      ReachTwo(GRANTED, Forget, FORGETTING, Crash, crashed);
    }
    assert Reaches(crashed, [Unpair, Refresh], refreshed) by {
      ReachTwo(crashed, Unpair, unpaired, Refresh, refreshed);
    }
    assert Reaches(refreshed, [Rollback, Clear], FORGOTTEN) by {
      ReachTwo(refreshed, Rollback, refreshed.(doing := Clearing), Clear, FORGOTTEN);
    }
    hide Goes, Enabled, Next;
    ReachOn(crashed, [Unpair, Refresh], refreshed, [Rollback, Clear], FORGOTTEN);
    ReachOn(GRANTED, [Forget, Crash], crashed, [Unpair, Refresh] + [Rollback, Clear], FORGOTTEN);
  }

  /** A removal that fails on a device unpaired by then counts as done: the record goes, the
      device and its trust stay. */
  lemma SwallowedRemovalKeepsTrust()
    ensures Reaches(GRANTED, [Forget, Unpair] + [RemovalSwallowed, Clear], FORGOTTEN)
  {
    hide Reaches;
    assert Reaches(GRANTED, [Forget, Unpair], UNPAIRED) by {
      ReachTwo(GRANTED, Forget, FORGETTING, Unpair, UNPAIRED);
    }
    assert Reaches(UNPAIRED, [RemovalSwallowed, Clear], FORGOTTEN) by {
      ReachTwo(UNPAIRED, RemovalSwallowed, UNPAIRED.(seen := UNPAIRED.bond, doing := Clearing), Clear, FORGOTTEN);
    }
    hide Goes, Enabled, Next;
    ReachOn(GRANTED, [Forget, Unpair], UNPAIRED, [RemovalSwallowed, Clear], FORGOTTEN);
  }

  const UNTRUSTED := Device(Some(Bond(true, false)), Some(Bond(true, true)),
                            Some(Record("", Some(false), Revoked)), false, false, Disconnecting, true)

  /** Removed and paired anew as trusted while its record stands: revoking puts back what the
      device was before, not what it is. */
  lemma ReappearedDeviceLosesTrust()
    ensures Reaches(GRANTED, [Vanish, Appear(Bond(true, true))] + ([Refresh, Revoke] + [RestoreTrust(Done)]), UNTRUSTED)
    ensures UNTRUSTED.original && !Recoverable(UNTRUSTED)
  {
    hide Reaches;
    var reappeared := GRANTED.(original := true);
    var refreshed := reappeared.(seen := reappeared.bond);
    var revoked := refreshed.(record := Some(Record("", Some(false), Revoked)), doing := Cleaning);
    assert Reaches(GRANTED, [Vanish, Appear(Bond(true, true))], reappeared) by {
      ReachTwo(GRANTED, Vanish, GRANTED.(bond := None), Appear(Bond(true, true)), reappeared);
    }
    assert Reaches(reappeared, [Refresh, Revoke], revoked) by {
      ReachTwo(reappeared, Refresh, refreshed, Revoke, revoked);
    }
    assert Reaches(revoked, [RestoreTrust(Done)], UNTRUSTED) by {
      ReachOne(revoked, RestoreTrust(Done), UNTRUSTED);
    }
    hide Goes, Enabled, Next;
    ReachOn(reappeared, [Refresh, Revoke], revoked, [RestoreTrust(Done)], UNTRUSTED);
    ReachOn(GRANTED, [Vanish, Appear(Bond(true, true))], reappeared,
            [Refresh, Revoke] + [RestoreTrust(Done)], UNTRUSTED);
  }

  // ----- what an operation comes to when nothing interrupts it -----

  function CleanUp(d: Device): seq<Step> {
    if d.seen.None? then [RestoreTrust(Done), Clear] else [RestoreTrust(Done), Disconnect(true)] + [Clear]
  }

  /** Cleaning up by a snapshot that shows the device as it is leaves it trusted as its record
      says, paired or not as it was, and no record. */
  lemma CleanUpRestores(d: Device)
    requires d.doing.Cleaning? && d.seen == d.bond
    requires d.record.Some? && (d.record.value.state.Pending? || d.record.value.state.Revoked?)
    requires d.record.value.baseline.Some?
    ensures
      var bond := if d.bond.None? then None else Some(Bond(d.bond.value.paired, d.record.value.baseline.value));
      Reaches(d, CleanUp(d), d.(bond := bond, record := None, doing := Nothing))
  {
    hide Reaches;
    if d.bond.None? {
      ReachTwo(d, RestoreTrust(Done), d.(doing := Clearing), Clear, d.(record := None, doing := Nothing));
    } else {
      var left := d.(bond := Some(Bond(d.bond.value.paired, d.record.value.baseline.value)));
      var clearing, clean := left.(doing := Clearing), left.(record := None, doing := Nothing);
      assert Reaches(d, [RestoreTrust(Done), Disconnect(true)], clearing) by {
        ReachTwo(d, RestoreTrust(Done), left.(doing := Disconnecting), Disconnect(true), clearing);
      }
      assert Reaches(clearing, [Clear], clean) by { ReachOne(clearing, Clear, clean); }
      hide Goes, Enabled, Next;
      ReachOn(d, [RestoreTrust(Done), Disconnect(true)], clearing, [Clear], clean);
    }
  }

  /** There is nothing to clean up without a record, or with an allowed one. */
  lemma NothingToCleanUp(d: Device, call: Call)
    requires d.doing.Cleaning? && (d.record.Some? ==> d.record.value.state.Allowed?)
    ensures Goes(d, RestoreTrust(call), d.(doing := Nothing))
  {}

  /** Closing the window on a device that was let in and never allowed denies it at once, the
      denial written before anything is cleaned up; not written, nothing is denied. */
  lemma CloseDenies(d: Device, written: bool)
    requires d.doing.Nothing? && d.candidate && d.record.Some? && !d.record.value.state.Allowed?
    ensures Goes(d, Close(written), d.(
      candidate := false, live := false, doing := if written then Cleaning else Nothing,
      record := Some(Record(d.record.value.alias, d.record.value.baseline,
                            if written then Revoked else d.record.value.state))))
  {}

  /** Nor is anything denied by closing the window on any other device. */
  lemma CloseSpares(d: Device, written: bool)
    requires d.doing.Nothing? && (!d.candidate || (d.record.Some? && d.record.value.state.Allowed?))
    ensures Goes(d, Close(written), d.(candidate := false, live := false))
  {}

  /** After every run that keeps trust recoverable: a window closed on a device that was let
      in and never allowed leaves it trusted as it was when it appeared, and no record. */
  lemma ClosedWindowTakesBack(steps: seq<Step>)
    requires AllExact(Fresh(), steps)
    requires
      var d := After(Fresh(), steps);
      d.doing.Nothing? && d.candidate && d.seen == d.bond && d.record.Some? && !d.record.value.state.Allowed?
    ensures
      var d := After(Fresh(), steps);
      var all := steps + ([Close(true)] + CleanUp(d));
      var end := After(Fresh(), all);
      && Runs(Fresh(), all) && end.record.None? && end.doing.Nothing? && !end.candidate && !end.live
      && end.original == d.original && (end.bond.Some? <==> d.bond.Some?)
      && (end.bond.Some? ==> end.bond.value == Bond(d.bond.value.paired, d.original))
  {
    var d := After(Fresh(), steps);
    ExactRuns(Fresh(), steps);
    RunExact(Fresh(), steps);
    var revoked := Some(Record(d.record.value.alias, d.record.value.baseline, Revoked));
    var closed := d.(record := revoked, candidate := false, live := false, doing := Cleaning);
    assert Reaches(d, [Close(true)], closed) by {
      CloseDenies(d, true);
      ReachOne(d, Close(true), closed);
    }
    CleanUpRestores(closed);
    var end := closed.(record := None, doing := Nothing, bond :=
      if d.bond.None? then None else Some(Bond(d.bond.value.paired, d.record.value.baseline.value)));
    assert Reaches(Fresh(), steps, d);
    hide Runs, After, Next, Enabled, Goes;
    ReachOn(d, [Close(true)], closed, CleanUp(d), end);
    ReachOn(Fresh(), steps, d, [Close(true)] + CleanUp(d), end);
  }

  /** Revoking an access takes it back the same way. */
  lemma RevokeTakesBack(d: Device)
    requires d.doing.Nothing? && d.seen == d.bond
    requires d.record.Some? && d.record.value.baseline.Some?
    ensures
      var bond := if d.bond.None? then None else Some(Bond(d.bond.value.paired, d.record.value.baseline.value));
      Reaches(d, [Revoke] + CleanUp(d), d.(bond := bond, record := None, candidate := false))
  {
    var revoked := Some(Record(d.record.value.alias, d.record.value.baseline, Revoked));
    var cleaning := d.(record := revoked, candidate := false, doing := Cleaning);
    hide Reaches;
    assert Reaches(d, [Revoke], cleaning) by { ReachOne(d, Revoke, cleaning); }
    CleanUpRestores(cleaning);
    hide Goes, Enabled, Next;
    var bond := if d.bond.None? then None else Some(Bond(d.bond.value.paired, d.record.value.baseline.value));
    ReachOn(d, [Revoke], cleaning, CleanUp(d), d.(bond := bond, record := None, candidate := false));
  }

  /** The record a grant leaves standing: the one there was, or a new one with the device's
      own trust for a baseline. */
  function Recorded(d: Device, state: State): Option<Record>
    requires d.bond.Some?
  {
    if d.record.None? then Some(Record("", Some(d.bond.value.trusted), state))
    else Some(Record(d.record.value.alias, d.record.value.baseline, state))
  }

  /** A grant to a paired device that is not denied trusts it and allows it for good. */
  lemma GrantAllows(d: Device)
    requires d.doing.Nothing? && d.bond.Some? && d.bond.value.paired
    requires d.record.Some? ==> d.record.value.state.Pending? || d.record.value.state.Allowed?
    ensures Reaches(d, [Grant] + [SetTrust(Done), Commit],
                    d.(bond := Some(Bond(true, true)), seen := d.bond, record := Recorded(d, Allowed)))
  {
    var state := if d.record.None? then Pending else d.record.value.state;
    var begun := d.(seen := d.bond, record := Recorded(d, state), doing := Granting);
    var trusted := begun.(bond := Some(Bond(true, true)), doing := Committing);
    var end := trusted.(record := Recorded(d, Allowed), doing := Nothing);
    hide Reaches;
    assert Reaches(d, [Grant], begun) by { ReachOne(d, Grant, begun); }
    assert Reaches(begun, [SetTrust(Done), Commit], end) by {
      ReachTwo(begun, SetTrust(Done), trusted, Commit, end);
    }
    hide Goes, Enabled, Next;
    ReachOn(d, [Grant], begun, [SetTrust(Done), Commit], end);
  }

  /** A denied device is granted nothing, nor let in, until it is cleaned up. */
  lemma DeniedIsRefused(d: Device, direct: bool)
    requires d.doing.Nothing? && d.record.Some? && (d.record.value.state.Revoked? || d.record.value.state.Forgetting?)
    ensures Goes(d, Grant, d.(seen := d.bond))
    ensures Enabled(d, Admit(direct)) ==> Goes(d, Admit(direct), d)
  {}

  /** Nor is a device granted anything that is not paired. */
  lemma UnpairedIsRefused(d: Device)
    requires d.doing.Nothing? && (d.bond.Some? ==> !d.bond.value.paired)
    ensures Goes(d, Grant, d.(seen := d.bond))
  {}

  /** A device let in by the window and completed in it is trusted and allowed for good, and
      the window is over. */
  lemma CompletingAllows(d: Device)
    requires d.doing.Nothing? && d.bond.Some? && d.live && !d.candidate
    requires d.record.Some? ==> d.record.value.state.Pending?
    ensures Reaches(d, [Admit(true), SetTrust(Done)] + [Complete],
                    d.(bond := Some(Bond(d.bond.value.paired, true)), record := Recorded(d, Allowed), live := false))
  {
    var begun := d.(record := Recorded(d, Pending), candidate := true, doing := Admitting);
    var trusted := begun.(bond := Some(Bond(d.bond.value.paired, true)), doing := Nothing);
    var end := trusted.(record := Recorded(d, Allowed), candidate := false, live := false);
    hide Reaches;
    assert Reaches(d, [Admit(true), SetTrust(Done)], trusted) by {
      ReachTwo(d, Admit(true), begun, SetTrust(Done), trusted);
    }
    assert Reaches(trusted, [Complete], end) by { ReachOne(trusted, Complete, end); }
    hide Goes, Enabled, Next;
    ReachOn(d, [Admit(true), SetTrust(Done)], trusted, [Complete], end);
  }

  /** What was cut short is taken up again: a grant not allowed is taken back, and a Forget of
      a device no longer paired is finished; one of a device still paired waits. */
  lemma RollbackTakesBack(d: Device)
    requires d.doing.Nothing? && d.seen == d.bond && !(d.candidate && d.live)
    requires d.record.Some? && d.record.value.baseline.Some? && !d.record.value.state.Allowed?
    ensures
      var bond := if d.bond.None? then None else Some(Bond(d.bond.value.paired, d.record.value.baseline.value));
      if !d.record.value.state.Forgetting? then
        Reaches(d, [Rollback] + CleanUp(d), d.(bond := bond, record := None))
      else if d.bond.Some? && d.bond.value.paired then Goes(d, Rollback, d)
      else Reaches(d, [Rollback, Clear], d.(record := None))
  {
    if !d.record.value.state.Forgetting? {
      var cleaning := d.(doing := Cleaning);
      hide Reaches;
      assert Reaches(d, [Rollback], cleaning) by { ReachOne(d, Rollback, cleaning); }
      CleanUpRestores(cleaning);
      hide Goes, Enabled, Next;
      var bond := if d.bond.None? then None else Some(Bond(d.bond.value.paired, d.record.value.baseline.value));
      ReachOn(d, [Rollback], cleaning, CleanUp(d), d.(bond := bond, record := None));
    } else if !(d.bond.Some? && d.bond.value.paired) {
      ReachTwo(d, Rollback, d.(doing := Clearing), Clear, d.(record := None));
    }
  }

  /** An effect that fails ends its operation and leaves the record as it is: what is not yet
      cleaned up stays denied, and what is not yet allowed stays pending. */
  lemma FailureKeepsRecord(d: Device, e: Step)
    requires Enabled(d, e)
    requires (e.SetTrust? && e.call.Error?) || (e.RestoreTrust? && e.call.Error? && Restores(d))
      || (e.Disconnect? && !e.done) || e.RemovalFails? || e.WriteFails?
    ensures var after := Next(d, e);
      && after.record == d.record && after.doing.Nothing?
      && after.candidate == (d.candidate && !d.doing.Admitting?)
      && after.bond == match e
         case SetTrust(call) => if Took(call) then Some(d.bond.value.(trusted := true)) else d.bond
         case RestoreTrust(call) =>
           if Took(call) then Some(d.bond.value.(trusted := d.record.value.baseline.value)) else d.bond
         case RemovalFails(gone) => if gone then None else d.bond
         case _ => d.bond
  {}

  /** A crash loses the window and the operation under way, nothing that was written. */
  lemma CrashKeepsRecord(d: Device)
    ensures Goes(d, Crash, Device(d.bond, d.bond, d.record, false, false, Nothing, d.original))
  {}

  /** A device is let in only while the window is live, when no operation on it is under way and
      it is neither denied nor allowed already; by the snapshot only if that shows it paired. */
  lemma LetInOnlyWhileLive(d: Device, e: Step)
    requires Enabled(d, e) && !d.candidate && Next(d, e).candidate
    ensures e.Admit? && d.live && d.doing.Nothing?
    ensures d.record.Some? ==> d.record.value.state.Pending?
    ensures if e.direct then d.bond.Some? else d.seen.Some? && d.seen.value.paired
  {}

  /** Nor is it once the window has expired, was closed or completed, or there was a crash. */
  lemma WindowEnds(d: Device, e: Step, direct: bool)
    requires Enabled(d, e) && (e.Expire? || e.Close? || e.Complete? || e.Crash?)
    ensures !Enabled(Next(d, e), Admit(direct))
  {}

  /** An agent's cancellation lets go of the candidate, and of nothing else. */
  lemma CancelLetsGo(d: Device)
    ensures Goes(d, Cancel, d.(candidate := false))
  {}

  /** Forgetting a device leaves neither a bond nor a record of it. */
  lemma ForgetDrops(d: Device)
    requires d.doing.Nothing? && !d.candidate
    ensures Reaches(d, if d.bond.Some? then [Forget] + [RemoveBond, Clear] else [Forget, Clear],
                    d.(bond := None, seen := None, record := None))
  {
    var baseline := if d.record.Some? then d.record.value.baseline else None;
    var alias := if d.record.Some? then d.record.value.alias else "";
    var forgetting := d.(seen := d.bond, record := Some(Record(alias, baseline, Forgetting)), doing := Removing);
    var removed := forgetting.(bond := None, seen := None, doing := Clearing);
    var end := removed.(record := None, doing := Nothing);
    hide Reaches;
    if d.bond.None? {
      ReachTwo(d, Forget, removed, Clear, end);
      return;
    }
    assert Reaches(d, [Forget], forgetting) by { ReachOne(d, Forget, forgetting); }
    assert Reaches(forgetting, [RemoveBond, Clear], end) by {
      ReachTwo(forgetting, RemoveBond, removed, Clear, end);
    }
    hide Goes, Enabled, Next;
    ReachOn(d, [Forget], forgetting, [RemoveBond, Clear], end);
  }

  // ----- denial is durable -----

  lemma FitKeeps(d: Device, e: Step)
    requires GrantsFit(d) && Enabled(d, e)
    ensures GrantsFit(Next(d, e))
  {}

  /** Access becomes allowed only from a pending record, by the end of a grant or of the
      window's own candidate. */
  lemma AllowedOnlyFromPending(d: Device, e: Step)
    requires GrantsFit(d) && Enabled(d, e)
    requires Standing(Next(d, e).record, Allowed) && !Standing(d.record, Allowed)
    ensures Standing(d.record, Pending)
    ensures (e.Commit? && d.doing.Committing?) || (e.Complete? && d.candidate && d.live)
  {}

  lemma BaselineNeverOverwritten(d: Device, e: Step)
    requires Enabled(d, e) && d.record.Some? && Next(d, e).record.Some?
    ensures Next(d, e).record.value.baseline == d.record.value.baseline
  {}

  /** A record is there before every step of the run and after it. */
  predicate AlwaysRecorded(d: Device, steps: seq<Step>)
    decreases |steps|
  {
    d.record.Some? && (steps == [] || AlwaysRecorded(StepIf(d, steps[0]), steps[1..]))
  }

  /** A denied device stays denied, crashes included, for as long as there is a record. */
  lemma {:induction false} DenialIsDurable(d: Device, steps: seq<Step>)
    requires GrantsFit(d) && Denied(d.record) && Runs(d, steps) && AlwaysRecorded(d, steps)
    ensures Denied(After(d, steps).record)
    ensures After(d, steps).record.value.baseline == d.record.value.baseline
    decreases |steps|
  {
    if steps != [] {
      FitKeeps(d, steps[0]);
      DeniedNext(d, steps[0]);
      BaselineNeverOverwritten(d, steps[0]);
      DenialIsDurable(Next(d, steps[0]), steps[1..]);
    }
  }

  /** Its first `n` steps lead somewhere. */
  lemma {:induction false} PrefixRuns(d: Device, steps: seq<Step>, n: nat)
    requires Runs(d, steps) && n <= |steps|
    ensures Runs(d, steps[..n])
    decreases n
  {
    if n > 0 {
      PrefixRuns(Next(d, steps[0]), steps[1..], n - 1);
      assert steps[..n][1..] == steps[1..][..n - 1];
    }
  }

  /** A device denied once and allowed later had its record dropped in between, and then
      began again pending. */
  lemma WayBackToAllowed(d: Device, steps: seq<Step>) returns (n: nat, m: nat)
    requires GrantsFit(d) && Denied(d.record) && Runs(d, steps) && Standing(After(d, steps).record, Allowed)
    ensures n < m < |steps|
    ensures Runs(d, steps[..n]) && After(d, steps[..n]).record.None?
    ensures Runs(d, steps[..m]) && Standing(After(d, steps[..m]).record, Pending)
    decreases |steps|
  {
    n, m := WayBack(d, steps);
  }

  /** The same from any state whose record is not allowed; a record dropped is reported
      unless one is pending from the start. */
  lemma {:induction false} WayBack(d: Device, steps: seq<Step>) returns (n: nat, m: nat)
    requires GrantsFit(d) && !Standing(d.record, Allowed)
    requires Runs(d, steps) && Standing(After(d, steps).record, Allowed)
    ensures m < |steps| && (n < m || Standing(d.record, Pending))
    ensures n <= |steps| && Runs(d, steps[..n]) && (After(d, steps[..n]).record.None? || Standing(d.record, Pending))
    ensures Runs(d, steps[..m]) && Standing(After(d, steps[..m]).record, Pending)
    decreases |steps|
  {
    var d' := Next(d, steps[0]);
    FitKeeps(d, steps[0]);
    PrefixRuns(d, steps, 0);
    if Standing(d.record, Pending) {
      n, m := 0, 0;
    } else {
      if Standing(d'.record, Allowed) { AllowedOnlyFromPending(d, steps[0]); }
      n, m := WayBack(d', steps[1..]);
      n, m := if d.record.None? then 0 else n + 1, m + 1;
      PrefixRuns(d, steps, n);
      PrefixRuns(d, steps, m);
      assert steps[..m][1..] == steps[1..][..m - 1];
      if n > 0 { assert steps[..n][1..] == steps[1..][..n - 1]; }
      if d.record.Some? { DeniedNext(d, steps[0]); }
    }
  }

  lemma DeniedNext(d: Device, e: Step)
    requires GrantsFit(d) && Enabled(d, e) && Denied(d.record)
    ensures Next(d, e).record.None? || Denied(Next(d, e).record)
  {}

  // ----- every device at once -----

  /** One device's step, or one that reaches them all. */
  datatype Event = At(address: string, step: Step) | Everywhere(step: Step)

  predicate Possible(w: string -> Device, ev: Event) {
    match ev
    case At(a, e) => Enabled(w(a), e)
    case Everywhere(e) => e.Refresh? || e.Crash? || e.Expire?
  }

  function Untouched(): string -> Device { _ => Fresh() }

  function Then(w: string -> Device, ev: Event): string -> Device {
    match ev
    case At(a, e) => x => if x == a then StepIf(w(x), e) else w(x)
    case Everywhere(e) => x => StepIf(w(x), e)
  }

  ghost predicate WorldRuns(w: string -> Device, events: seq<Event>)
    decreases |events|
  {
    events == [] || (Possible(w, events[0]) && WorldRuns(Then(w, events[0]), events[1..]))
  }

  function WorldAfter(w: string -> Device, events: seq<Event>): string -> Device
    decreases |events|
  {
    if events == [] then w else WorldAfter(Then(w, events[0]), events[1..])
  }

  /** What the run is to one device. */
  function Seen(a: string, events: seq<Event>): seq<Step> {
    if events == [] then []
    else if events[0].Everywhere? || events[0].address == a then [events[0].step] + Seen(a, events[1..])
    else Seen(a, events[1..])
  }

  lemma {:induction false} EachDeviceRuns(w: string -> Device, events: seq<Event>, a: string)
    requires WorldRuns(w, events)
    ensures Runs(w(a), Seen(a, events)) && After(w(a), Seen(a, events)) == WorldAfter(w, events)(a)
    decreases |events|
  {
    if events != [] {
      var after := Then(w, events[0]);
      EachDeviceRuns(after, events[1..], a);
      if events[0].Everywhere? || events[0].address == a {
        assert after(a) == Next(w(a), events[0].step);
        RunsOne(w(a), events[0].step, Seen(a, events[1..]));
      }
    }
  }

  /** In every run over any number of devices, each is a run of its own: what holds of one
      device's runs holds of them all, and no step for one touches another. */
  lemma EveryDeviceIsRecoverable(events: seq<Event>, a: string)
    requires WorldRuns(Untouched(), events) && AllExact(Fresh(), Seen(a, events))
    ensures Recoverable(WorldAfter(Untouched(), events)(a))
  {
    EachDeviceRuns(Untouched(), events, a);
    TrustIsRecoverable(Seen(a, events));
  }
}
