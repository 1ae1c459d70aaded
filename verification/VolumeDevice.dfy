/** The device side of the MusicCast volume protocol: an optimistic level, one sender
    that coalesces what is queued, and the levels sent but not yet echoed. A state is
    what holds between two awaits; a step is what runs from one to the next. */
module MusicCast {

  datatype Queued = Empty | Level(level: int)

  /** Where the one sending task stands. */
  datatype Sender =
    | Done                  // never created, or returned
    | Scheduled             // created, not yet run
    | Sending               // awaiting the answer to setVolume
    | Pacing                // asleep between two sends
    | Waiting               // awaiting an echo or a new level
    | Reconciling           // awaiting the amplifier's own status

  datatype Device = Device(
    ready: bool, supported: bool, maxVolume: int, current: int,
    target: Queued, unconfirmed: seq<int>, wake: bool, sender: Sender)

  const UNPROBED := Device(false, false, 0, 0, Empty, [], false, Done)

  function Clamp(volume: int, maxVolume: int): int {
    var low := if volume < maxVolume then volume else maxVolume;
    if low > 0 then low else 0
  }

  function Cache(d: Device, level: int): Device { d.(current := level) }

  function Requested(d: Device, volume: int): Device {
    if !d.ready then d
    else
      var clamped := Clamp(volume, d.maxVolume);
      Cache(d.(target := Level(clamped), wake := true,
               sender := if d.sender.Done? then Scheduled else d.sender), clamped)
  }

  /** What is left unconfirmed once `level` has confirmed itself and all before it. */
  function Confirm(unconfirmed: seq<int>, level: int): seq<int> {
    if unconfirmed == [] then []
    else if unconfirmed[0] == level then unconfirmed[1..]
    else Confirm(unconfirmed[1..], level)
  }

  function Reported(d: Device, level: int): Device {
    if level in d.unconfirmed then
      var rest := Confirm(d.unconfirmed, level);
      d.(unconfirmed := rest, wake := d.wake || rest == [])
    else if d.unconfirmed != [] || d.target.Level? then d
    else Cache(d, level)
  }

  function Unavailable(d: Device): Device {
    d.(target := Empty, unconfirmed := [], wake := true, supported := false)
  }

  function Lost(d: Device): Device {
    if d.ready then Unavailable(d.(ready := false)) else d
  }

  function Connected(d: Device, level: int, maxVolume: int): Device {
    d.(ready := true, supported := true, maxVolume := maxVolume, current := level)
  }

  /** The sender's loop from its head to the next await. */
  function Resumed(d: Device): Device {
    if d.target.Level? then
      d.(target := Empty, unconfirmed := d.unconfirmed + [d.target.level], sender := Sending)
    else if d.unconfirmed == [] then d.(sender := Done)
    else d.(wake := false, sender := Waiting)
  }

  function Answered(d: Device): Device { d.(sender := Pacing) }

  function SendFailed(d: Device): Device {
    Lost(d.(target := Empty, unconfirmed := [])).(sender := Done)
  }

  function TimedOut(d: Device): Device {
    d.(unconfirmed := [], sender := Reconciling)
  }

  class VolumeDevice {
    var ready: bool
    var supported: bool
    var maxVolume: int
    var current: int
    var target: Queued
    var unconfirmed: seq<int>
    var wake: bool
    var sender: Sender

    ghost function View(): Device
      reads this
    {
      Device(ready, supported, maxVolume, current, target, unconfirmed, wake, sender)
    }

    constructor ()
      ensures View() == UNPROBED
    {
      ready, supported, maxVolume, current := false, false, 0, 0;
      target, unconfirmed, wake, sender := Empty, [], false, Done;
    }

    method CacheVolume(level: int)
      modifies this`current
      ensures View() == Cache(old(View()), level)
    {
      if level == current { return; }
      current := level;
    }

    method SetVolume(volume: int)
      modifies this
      ensures View() == Requested(old(View()), volume)
    {
      if !ready { return; }
      var clamped := Clamp(volume, maxVolume);
      target := Level(clamped);
      wake := true;
      if sender.Done? { sender := Scheduled; }
      CacheVolume(clamped);
    }

    method OnReportedVolume(level: int)
      modifies this
      ensures View() == Reported(old(View()), level)
    {
      if level in unconfirmed {
        var first := unconfirmed[0];
        unconfirmed := unconfirmed[1..];
        while first != level
          invariant first != level ==> level in unconfirmed
          invariant first != level ==> Confirm(unconfirmed, level) == Confirm(old(unconfirmed), level)
          invariant first == level ==> unconfirmed == Confirm(old(unconfirmed), level)
          invariant ready == old(ready) && supported == old(supported) && maxVolume == old(maxVolume)
          invariant current == old(current) && target == old(target) && wake == old(wake) && sender == old(sender)
          decreases |unconfirmed|, if first == level then 0 else 1
        {
          first := unconfirmed[0];
          unconfirmed := unconfirmed[1..];
        }
        if unconfirmed == [] { wake := true; }
        return;
      }
      if unconfirmed != [] || target.Level? { return; }
      CacheVolume(level);
    }

    method MarkUnavailable()
      modifies this
      ensures View() == Unavailable(old(View()))
    {
      target := Empty;
      unconfirmed := [];
      wake := true;
      if supported { supported := false; }
    }

    method RediscoverDevice()
      modifies this
      ensures View() == Lost(old(View()))
    {
      if ready {
        ready := false;
        MarkUnavailable();
      }
    }

    method GetReady(level: int, maxVolume: int)
      modifies this
      ensures View() == Connected(old(View()), level, maxVolume)
    {
      this.maxVolume, current, supported := maxVolume, level, true;
      ready := true;
    }

    /** One pass of the sender's loop; `send` is the level to put in a setVolume request. */
    method SendVolume() returns (send: Queued)
      modifies this
      ensures View() == Resumed(old(View()))
      ensures send == if sender.Sending? then old(target) else Empty
    {
      send := Empty;
      if target.Level? {
        send, target := target, Empty;
        unconfirmed := unconfirmed + [send.level];
        sender := Sending;
      } else if unconfirmed == [] {
        sender := Done;
      } else {
        wake := false;
        sender := Waiting;
      }
    }

    method SendVolumeAnswered()
      modifies this
      ensures View() == Answered(old(View()))
    {
      sender := Pacing;
    }

    method SendVolumeFailed()
      modifies this
      ensures View() == SendFailed(old(View()))
    {
      target := Empty;
      unconfirmed := [];
      RediscoverDevice();
      sender := Done;
    }

    method EchoTimedOut()
      modifies this
      ensures View() == TimedOut(old(View()))
    {
      unconfirmed := [];
      sender := Reconciling;
    }

    /** The status a reconciliation asked for, and the sender's next pass. */
    method ReconcileVolume(level: Queued) returns (send: Queued)
      modifies this
      ensures View() == Resumed(if level.Level? then Reported(old(View()), level.level) else old(View()))
      ensures send.Level? ==> send == old(target)
    {
      if level.Level? { OnReportedVolume(level.level); }
      send := SendVolume();
    }
  }

  // ----- what confirming does -----

  /** `tail` ends `all`. */
  predicate EndOf(tail: seq<int>, all: seq<int>) {
    tail == all || (all != [] && EndOf(tail, all[1..]))
  }

  function Newest(s: seq<int>, otherwise: int): int {
    if s == [] then otherwise else Newest(s[1..], s[0])
  }

  lemma {:induction false} EndOfTransitive(a: seq<int>, b: seq<int>, c: seq<int>)
    requires EndOf(a, b) && EndOf(b, c)
    ensures EndOf(a, c)
    decreases |c|
  {
    if b != c { EndOfTransitive(a, b, c[1..]); }
  }

  lemma {:induction false} EmptyEnds(s: seq<int>)
    ensures EndOf([], s)
  {
    if s != [] { EmptyEnds(s[1..]); }
  }

  lemma {:induction false} EndOfAppend(a: seq<int>, b: seq<int>, x: int)
    requires EndOf(a, b)
    ensures EndOf(a + [x], b + [x])
  {
    if a != b {
      EndOfAppend(a, b[1..], x);
      assert (b + [x])[1..] == b[1..] + [x];
    }
  }

  /** A report confirms the oldest send of its level and every send before it, keeps the
      later ones in order, and confirms nothing if it was never sent. */
  lemma {:induction false} ConfirmKeepsEnd(unconfirmed: seq<int>, level: int)
    ensures EndOf(Confirm(unconfirmed, level), unconfirmed)
    ensures level in unconfirmed ==> |Confirm(unconfirmed, level)| < |unconfirmed|
  {
    if unconfirmed != [] && unconfirmed[0] != level { ConfirmKeepsEnd(unconfirmed[1..], level); }
    else if unconfirmed != [] { assert EndOf(unconfirmed[1..], unconfirmed[1..]); }
  }

  /** What is left is all that was sent after the oldest send of the level; a level that was
      never sent leaves nothing. */
  lemma {:induction false} ConfirmLeaves(unconfirmed: seq<int>, level: int, at: nat)
    requires at <= |unconfirmed| && forall i :: 0 <= i < at ==> unconfirmed[i] != level
    ensures at < |unconfirmed| && unconfirmed[at] == level ==> Confirm(unconfirmed, level) == unconfirmed[at + 1..]
    ensures at == |unconfirmed| ==> Confirm(unconfirmed, level) == []
  {
    if at > 0 {
      ConfirmLeaves(unconfirmed[1..], level, at - 1);
      if at < |unconfirmed| { assert unconfirmed[1..][at..] == unconfirmed[at + 1..]; }
    }
  }

  /** What a reported level does. One that was sent confirms its oldest send and all before it,
      shows nothing new, and wakes the sender once none is left; any other is shown, unless a
      newer level is queued or unconfirmed. */
  lemma ReportedMeans(d: Device, level: int, at: nat)
    requires at <= |d.unconfirmed| && forall i :: 0 <= i < at ==> d.unconfirmed[i] != level
    requires at < |d.unconfirmed| ==> d.unconfirmed[at] == level
    ensures Reported(d, level) ==
      if at < |d.unconfirmed| then
        d.(unconfirmed := d.unconfirmed[at + 1..], wake := d.wake || at + 1 == |d.unconfirmed|)
      else if d.unconfirmed != [] || d.target.Level? then d
      else d.(current := level)
  {
    ConfirmLeaves(d.unconfirmed, level, at);
  }

  /** What the newest send is does not change while one is left; if none is, the report
      was of the newest. */
  lemma {:induction false} ConfirmNewest(unconfirmed: seq<int>, level: int, otherwise: int)
    requires level in unconfirmed
    ensures Newest(unconfirmed, otherwise) ==
      if Confirm(unconfirmed, level) == [] then level else Newest(Confirm(unconfirmed, level), otherwise)
    decreases |unconfirmed|
  {
    if unconfirmed[0] != level {
      assert level in unconfirmed[1..];
      ConfirmNewest(unconfirmed[1..], level, unconfirmed[0]);
      NewestIgnores(Confirm(unconfirmed[1..], level), unconfirmed[0], otherwise);
    } else {
      NewestIgnores(unconfirmed[1..], unconfirmed[0], otherwise);
    }
  }

  lemma NewestIgnores(s: seq<int>, a: int, b: int)
    ensures s != [] ==> Newest(s, a) == Newest(s, b)
  {}

  lemma {:induction false} NewestAppend(s: seq<int>, x: int, otherwise: int)
    ensures Newest(s + [x], otherwise) == x
    ensures Newest(s, otherwise) in s || s == []
  {
    if s != [] {
      NewestAppend(s[1..], x, s[0]);
      assert (s + [x])[1..] == s[1..] + [x];
    }
  }

  /** A level asked for while ready is shown at once, in range, and queued with a sender, a new
      one only if there is none. */
  lemma SetVolumeShows(d: Device, volume: int)
    requires d.maxVolume >= 0
    ensures var after := Requested(d, volume);
      if d.ready then
        && after.target == Level(after.current) && 0 <= after.current <= d.maxVolume
        && after.current == (if volume < 0 then 0 else if volume > d.maxVolume then d.maxVolume else volume)
        && after.sender == (if d.sender.Done? then Scheduled else d.sender)
        && after.wake && after.unconfirmed == d.unconfirmed
      else after == d
  {}
}
