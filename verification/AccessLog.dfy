/** The durable record of audio access: what each operation writes, and that memory and
    the file on disk never disagree once an operation has ended, failed writes included. */
module AccessLog {
  import opened Options

  datatype State = Pending | Allowed | Revoked | Forgetting

  /** `baseline` is the device's `Trusted` value from before the grant. */
  datatype Record = Record(alias: string, baseline: Option<bool>, state: State)

  datatype Outcome = Ok | CleanupPending | RemovalPending | Failed

  type Log = map<string, Record>

  function Lookup(log: Log, address: string): Option<Record> {
    if address in log then Some(log[address]) else None
  }

  function Without(log: Log, address: string): Log {
    map a | a in log && a != address :: log[a]
  }

  // ----- one address's record -----

  predicate Denied(r: Option<Record>) { r.Some? && (r.value.state.Revoked? || r.value.state.Forgetting?) }

  function Begun(r: Option<Record>, alias: string, trusted: Option<bool>): Option<Record> {
    if r.None? then Some(Record(alias, trusted, Pending)) else r
  }

  function Moved(r: Option<Record>, state: State): Option<Record> {
    if r.Some? then Some(r.value.(state := state)) else None
  }

  function ToForget(r: Option<Record>, alias: string): Option<Record> {
    Some((if r.Some? then r.value else Record(alias, None, Pending)).(state := Forgetting))
  }

  function Cleaned(r: Option<Record>): Option<Record> {
    if r.Some? && !r.value.state.Allowed? then None else r
  }

  function Upper(address: string): string {
    if address == "" then ""
    else [if 'a' <= address[0] <= 'z' then address[0] - 'a' + 'A' else address[0]] + Upper(address[1..])
  }

  /** The same character, or the same letter of a to z in either case. */
  predicate SameLetter(a: char, b: char) {
    a == b || ('a' <= a <= 'z' && b as int == a as int - 32) || ('a' <= b <= 'z' && a as int == b as int - 32)
  }

  /** Two spellings of an address name one record exactly when they differ in case only. */
  lemma {:induction false} SameRecord(a: string, b: string)
    ensures Upper(a) == Upper(b) <==> |a| == |b| && forall i :: 0 <= i < |a| ==> SameLetter(a[i], b[i])
  {
    if a != "" && b != "" {
      SameRecord(a[1..], b[1..]);
      assert Upper(a)[0] == Upper(b)[0] <==> SameLetter(a[0], b[0]);
      assert Upper(a)[1..] == Upper(a[1..]) && Upper(b)[1..] == Upper(b[1..]);
      assert Upper(a) == [Upper(a)[0]] + Upper(a[1..]) && Upper(b) == [Upper(b)[0]] + Upper(b[1..]);
      if |a| == |b| && forall i :: 0 <= i < |a| ==> SameLetter(a[i], b[i]) {
        forall i | 0 <= i < |a[1..]| ensures SameLetter(a[1..][i], b[1..][i]) { assert SameLetter(a[i + 1], b[i + 1]); }
      }
      if |a| == |b| && SameLetter(a[0], b[0]) && forall i :: 0 <= i < |a[1..]| ==> SameLetter(a[1..][i], b[1..][i]) {
        forall i | 0 <= i < |a| ensures SameLetter(a[i], b[i]) {
          if i > 0 { assert SameLetter(a[1..][i - 1], b[1..][i - 1]); }
        }
      }
    }
  }

  /** Only the record of `address` becomes `r`. */
  ghost predicate OnlyChanges(before: Log, after: Log, address: string, r: Option<Record>) {
    && Lookup(after, address) == r
    && forall a :: a != address ==> Lookup(after, a) == Lookup(before, a)
  }

  class AudioAccess {
    var records: Log
    var file: Log

    ghost predicate Valid()
      reads this
    {
      records == file
    }

    constructor ()
      ensures Valid() && records == map[]
    {
      records, file := map[], map[];
    }

    /** What a start after a crash reads back. */
    method Load()
      modifies this
      ensures Valid() && file == old(file)
    {
      records := file;
    }

    /** The file is replaced whole or, when writing fails, not at all. */
    method Persist(next: Log, written: bool)
      requires Valid()
      modifies this
      ensures Valid() && records == if written then next else old(records)
    {
      if !written { return; }
      file := next;
      records := next;
    }

    method Begin(name: string, alias: string, trusted: Option<bool>, written: bool) returns (outcome: Outcome)
      requires Valid()
      modifies this
      ensures Valid()
      ensures outcome == CleanupPending <==> Denied(Lookup(old(records), Upper(name)))
      ensures outcome.Ok? ==>
        OnlyChanges(old(records), records, Upper(name), Begun(Lookup(old(records), Upper(name)), alias, trusted))
      ensures !outcome.Ok? ==> records == old(records)
      ensures outcome == Failed ==> !written
    {
      var address := Upper(name);
      if address in records {
        var existing := records[address];
        if existing.state.Revoked? || existing.state.Forgetting? { return CleanupPending; }
        return Ok;
      }
      Persist(records[address := Record(alias, trusted, Pending)], written);
      return if written then Ok else Failed;
    }

    method SetState(name: string, state: State, written: bool) returns (outcome: Outcome)
      requires Valid()
      modifies this
      ensures Valid()
      ensures outcome.Ok? ==>
        OnlyChanges(old(records), records, Upper(name), Moved(Lookup(old(records), Upper(name)), state))
      ensures !outcome.Ok? ==> outcome.Failed? && records == old(records) && !written
    {
      var address := Upper(name);
      if address !in records { return Ok; }
      Persist(records[address := records[address].(state := state)], written);
      return if written then Ok else Failed;
    }

    method Commit(address: string, written: bool) returns (outcome: Outcome)
      requires Valid()
      modifies this
      ensures Valid()
      ensures outcome.Ok? ==>
        OnlyChanges(old(records), records, Upper(address), Moved(Lookup(old(records), Upper(address)), Allowed))
      ensures !outcome.Ok? ==> outcome.Failed? && records == old(records) && !written
    {
      outcome := SetState(address, Allowed, written);
    }

    method Forget(address: string, written: bool) returns (outcome: Outcome)
      requires Valid()
      modifies this
      ensures Valid()
      ensures outcome.Ok? ==>
        OnlyChanges(old(records), records, Upper(address), Moved(Lookup(old(records), Upper(address)), Revoked))
      ensures !outcome.Ok? ==> outcome.Failed? && records == old(records) && !written
    {
      outcome := SetState(address, Revoked, written);
    }

    method ForgetBond(address: string, alias: string, written: bool) returns (outcome: Outcome)
      requires Valid()
      modifies this
      ensures Valid()
      ensures outcome.Ok? ==>
        OnlyChanges(old(records), records, address, ToForget(Lookup(old(records), address), alias))
      ensures !outcome.Ok? ==> outcome.Failed? && records == old(records) && !written
    {
      var record := if address in records then records[address] else Record(alias, None, Pending);
      Persist(records[address := record.(state := Forgetting)], written);
      return if written then Ok else Failed;
    }

    method RecordCleaned(address: string, written: bool) returns (outcome: Outcome)
      requires Valid()
      modifies this
      ensures Valid()
      ensures outcome.Ok? ==> OnlyChanges(old(records), records, address, Cleaned(Lookup(old(records), address)))
      ensures outcome.Ok? ==>
        (address in records <==> address in old(records) && old(records)[address].state.Allowed?)
      ensures !outcome.Ok? ==> outcome.Failed? && records == old(records) && !written
    {
      if address !in records || records[address].state.Allowed? { return Ok; }
      Persist(Without(records, address), written);
      return if written then Ok else Failed;
    }

    /** Takes back a grant: the device's trust first, then its audio, then the record.
        `trusted` is what the last snapshot says of the device, `restored` and
        `disconnected` how the two calls to it end, `write` the trust written. */
    method Cleanup(address: string, trusted: Option<bool>, restored: bool, disconnected: bool, written: bool)
      returns (outcome: Outcome, write: Option<bool>)
      requires Valid()
      modifies this
      ensures Valid()
      ensures var r := Lookup(old(records), address);
        && (write.Some? <==>
             (r.Some? && (r.value.state.Pending? || r.value.state.Revoked?) && trusted.Some?
              && r.value.baseline.Some? && r.value.baseline != trusted))
        && (write.Some? ==> write == r.value.baseline)
        && (outcome.RemovalPending? <==> r.Some? && r.value.state.Forgetting?)
        && (outcome.Ok? && r.Some? && !r.value.state.Allowed? ==>
             (write.Some? ==> restored) && (trusted.Some? ==> disconnected))
        && (outcome.Ok? ==> OnlyChanges(old(records), records, address, Cleaned(r)))
        && (!outcome.Ok? ==> records == old(records))
    {
      write := None;
      if address !in records || records[address].state.Allowed? { return Ok, None; }
      var record := records[address];
      if record.state.Forgetting? { return RemovalPending, None; }
      if trusted.Some? {
        if record.baseline.Some? && trusted != record.baseline {
          write := record.baseline;
          if !restored { return Failed, write; }
        }
        if !disconnected { return Failed, write; }
      }
      outcome := RecordCleaned(address, written);
    }
  }
}
