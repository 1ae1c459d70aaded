/** One lent connection to the library database against a connection of its own for every
    call: the same database, the same reads, the same row factory to start from. */
module SharedConnections {
  import opened Options

  /** What a call does at one point. `Raise` ends it early, and so does a change refused
      because other processes wrote past the snapshot the connection is reading. `Foreign`
      is such a write, coming in at that point. */
  datatype Op<!Db, Row> =
    | Query(rows: Db -> Row, partWay: bool)       // `partWay`: its cursor is left with rows to give
    | Change(change: Db -> Db)
    | Commit
    | Factory(factory: nat)
    | Foreign(change: Db -> Db)
    | Raise

  /** `base` is the snapshot held, by a transaction or by a cursor left part-way, `own` what
      an open transaction has made of it. `cursors` are the call's own, in opening order;
      `stuck` says that one of an earlier call was never closed. */
  datatype Connection<Db> = Connection(
    base: Option<Db>, own: Option<Db>, cursors: seq<bool>, stuck: bool, factory: Option<nat>)

  function Opened<Db>(): Connection<Db> { Connection(None, None, [], false, None) }

  datatype Read<Row> = Read(row: Row, factory: Option<nat>)

  datatype State<Db, Row> = State(file: Db, conn: Connection<Db>, results: seq<Read<Row>>)

  function Current<Db>(file: Db, conn: Connection<Db>): Db {
    if conn.own.Some? then conn.own.value else if conn.base.Some? then conn.base.value else file
  }

  function Held<Db>(file: Db, conn: Connection<Db>): Option<Db> {
    if conn.base.Some? then conn.base else Some(file)
  }

  /** A connection that reads an old snapshot may not begin to write. */
  predicate Refused<Db(==)>(file: Db, conn: Connection<Db>) {
    conn.own.None? && conn.base.Some? && conn.base.value != file
  }

  predicate Ends<Db(==), Row>(file: Db, conn: Connection<Db>, op: Op<Db, Row>) {
    op.Raise? || (op.Change? && Refused(file, conn))
  }

  function Do<Db(==), Row>(s: State<Db, Row>, op: Op<Db, Row>): State<Db, Row> {
    match op
    case Query(rows, partWay) =>
      var conn := s.conn.(cursors := s.conn.cursors + [partWay],
                          base := if partWay then Held(s.file, s.conn) else s.conn.base);
      s.(conn := conn, results := s.results + [Read(rows(Current(s.file, s.conn)), s.conn.factory)])
    case Change(change) =>
      if Refused(s.file, s.conn) then s
      else s.(conn := s.conn.(base := Held(s.file, s.conn), own := Some(change(Current(s.file, s.conn)))))
    case Commit =>
      if s.conn.own.None? then s
      else s.(file := s.conn.own.value,
              conn := s.conn.(own := None, base := if Reading(s.conn) then s.conn.own else None))
    case Factory(factory) => s.(conn := s.conn.(factory := Some(factory)))
    case Foreign(change) => if s.conn.own.Some? then s else s.(file := change(s.file))
    case Raise => s
  }

  predicate Any(flags: seq<bool>) { flags != [] && (flags[0] || Any(flags[1..])) }

  /** Whether some cursor holds the connection to its snapshot. */
  predicate Reading<Db>(conn: Connection<Db>) { conn.stuck || Any(conn.cursors) }

  /** A call: what it does next depends on what it has read, and it does no more than
      `steps` things. */
  datatype Call<!Db, !Row> = Call(steps: nat, next: (nat, seq<Read<Row>>) -> Op<Db, Row>)

  /** The call from its step `i` on. */
  function Exec<Db(==), Row>(s: State<Db, Row>, call: Call<Db, Row>, i: nat): State<Db, Row>
    decreases call.steps - i
  {
    if i >= call.steps || Ends(s.file, s.conn, call.next(i, s.results)) then s
    else Exec(Do(s, call.next(i, s.results)), call, i + 1)
  }

  /** `s[n..]`, or nothing past the end. */
  function Rest(flags: seq<bool>, n: nat): seq<bool> {
    if n == 0 || flags == [] then flags else Rest(flags[1..], n - 1)
  }

  /** Letting go: the cursors are closed in order until closing the one after `closed` fails,
      what is uncommitted is rolled back, and the row factory reset. */
  function Released<Db>(conn: Connection<Db>, closed: nat): Connection<Db> {
    var stuck := conn.stuck || Any(Rest(conn.cursors, closed));
    Connection(if stuck then conn.base else None, None, [], stuck, None)
  }

  class Database<Db> {
    var content: Db
    constructor (content: Db) ensures this.content == content { this.content := content; }
  }

  /** The connection as a call sees it, with what the driver keeps of it. */
  class LibraryConnection<Db(==)> {
    const file: Database<Db>
    var base: Option<Db>
    var own: Option<Db>
    var cursors: seq<bool>
    var stuck: bool
    var factory: Option<nat>

    ghost function View(): Connection<Db>
      reads this
    {
      Connection(base, own, cursors, stuck, factory)
    }

    constructor (file: Database<Db>)
      ensures this.file == file && View() == Opened()
    {
      this.file := file;
      base, own, cursors, stuck, factory := None, None, [], false, None;
    }

    method Fetch<Row>(rows: Db -> Row, partWay: bool) returns (read: Read<Row>)
      modifies this
      ensures State(file.content, View(), [read]) == Do(State(file.content, old(View()), []), Query(rows, partWay))
    {
      var current := if own.Some? then own.value else if base.Some? then base.value else file.content;
      read := Read(rows(current), factory);
      cursors := cursors + [partWay];
      if partWay && base.None? { base := Some(file.content); }
    }

    method Execute(change: Db -> Db) returns (refused: bool)
      modifies this
      ensures refused == Refused(file.content, old(View()))
      ensures State(file.content, View(), []) == Do<Db, ()>(State(file.content, old(View()), []), Change(change))
    {
      if own.None? && base.Some? && base.value != file.content { return true; }
      if base.None? { base := Some(file.content); }
      own := Some(change(if own.Some? then own.value else base.value));
      return false;
    }

    method CommitChanges()
      modifies this, file
      ensures State(file.content, View(), []) == Do<Db, ()>(State(old(file.content), old(View()), []), Commit)
    {
      if own.None? { return; }
      file.content := own.value;
      base := if stuck || Any(cursors) then own else None;
      own := None;
    }

    method SetRowFactory(factory: nat)
      modifies this
      ensures View() == old(View()).(factory := Some(factory))
    {
      this.factory := Some(factory);
    }

    method Release(closed: nat)
      modifies this
      ensures View() == Released(old(View()), closed)
    {
      var i, left := 0, cursors;
      while left != [] && i < closed
        invariant 0 <= i <= closed
        invariant Rest(left, closed - i) == Rest(cursors, closed)
        invariant unchanged(this)
        decreases |left|
      {
        left, i := left[1..], i + 1;
      }
      stuck := stuck || Any(left);
      cursors := [];
      if own.Some? { own := None; }
      if !stuck { base := None; }
      factory := None;
    }
  }

  // ----- one call -----

  /** A call on a connection of its own, closed when it ends. */
  function Separately<Db(==), Row>(file: Db, call: Call<Db, Row>): State<Db, Row> {
    Exec(State(file, Opened(), []), call, 0).(conn := Opened())
  }

  function OnLent<Db(==), Row>(file: Db, conn: Connection<Db>, call: Call<Db, Row>, closed: nat): State<Db, Row> {
    var s := Exec(State(file, conn, []), call, 0);
    s.(conn := Released(s.conn, closed))
  }

  lemma {:induction false} ExecKeepsStuck<Db, Row>(s: State<Db, Row>, call: Call<Db, Row>, i: nat)
    ensures Exec(s, call, i).conn.stuck == s.conn.stuck
    decreases call.steps - i
  {
    if i < call.steps && !Ends(s.file, s.conn, call.next(i, s.results)) {
      ExecKeepsStuck(Do(s, call.next(i, s.results)), call, i + 1);
    }
  }

  /** Whether letting go after closing `closed` cursors leaves none of the call's part-way. */
  predicate Reached<Db(==), Row>(file: Db, call: Call<Db, Row>, closed: nat) {
    var cursors := Exec(State(file, Opened(), []), call, 0).conn.cursors;
    forall i :: closed <= i < |cursors| ==> !cursors[i]
  }

  lemma {:induction false} AnyRest(flags: seq<bool>, n: nat)
    ensures Any(Rest(flags, n)) <==> exists i :: n <= i < |flags| && flags[i]
  {
    if flags != [] {
      AnyRest(flags[1..], if n == 0 then 0 else n - 1);
      if i :| n <= i < |flags| && flags[i] { assert i > 0 ==> flags[1..][i - 1]; }
      if i :| (if n == 0 then 0 else n - 1) <= i < |flags[1..]| && flags[1..][i] { assert flags[i + 1]; }
    }
  }

  /** A call on the lent connection is as on its own, the connection as just opened again,
      exactly when no cursor that letting go did not get to close was left part-way; closing
      them all is enough. */
  lemma ReleaseRestores<Db, Row>(file: Db, call: Call<Db, Row>, closed: nat)
    ensures OnLent(file, Opened(), call, closed) == Separately(file, call) <==> Reached(file, call, closed)
    ensures OnLent(file, Opened(), call, closed).conn == Opened() <==> Reached(file, call, closed)
    ensures closed >= |Exec(State(file, Opened(), []), call, 0).conn.cursors| ==> Reached(file, call, closed)
  {
    var s := Exec(State(file, Opened(), []), call, 0);
    ExecKeepsStuck(State(file, Opened(), []), call, 0);
    AnyRest(s.conn.cursors, closed);
  }

  /** A call that does the same whatever it reads. */
  function Fixed<Db, Row>(ops: seq<Op<Db, Row>>): Call<Db, Row> {
    Call(|ops|, (i: nat, results) => if i < |ops| then ops[i] else Raise)
  }

  /** What a call that was not let go of completely does to the next: it reads the old
      snapshot and cannot write. */
  lemma UnclosedCursorHoldsBack(first: int, second: int)
    requires first != second
    ensures
      var reading := Fixed([Query((db: int) => db, true), Foreign((db: int) => second)]);
      var after := OnLent(first, Opened(), reading, 0);
      var next := Fixed([Query((db: int) => db, false), Change((db: int) => db + 1), Commit]);
      && after.file == second
      && OnLent(after.file, after.conn, next, 9).results == [Read(first, None)]
      && OnLent(after.file, after.conn, next, 9).file == second
      && Separately(after.file, next).results == [Read(second, None)]
      && Separately(after.file, next).file == second + 1
  {}

  // ----- what the statements of a call come to -----

  /** The database with the changes among the first `n` statements made to it in order. */
  function Applied<Db, Row>(db: Db, ops: seq<Op<Db, Row>>, n: nat): Db
    requires n <= |ops|
  {
    if n == 0 then db
    else if ops[n - 1].Change? then ops[n - 1].change(Applied(db, ops, n - 1))
    else Applied(db, ops, n - 1)
  }

  /** The database as of the last commit among the first `n` statements. */
  function Saved<Db, Row>(db: Db, ops: seq<Op<Db, Row>>, n: nat): Db
    requires n <= |ops|
  {
    if n == 0 then db else if ops[n - 1].Commit? then Applied(db, ops, n - 1) else Saved(db, ops, n - 1)
  }

  function Queries<Db, Row>(ops: seq<Op<Db, Row>>, n: nat): nat
    requires n <= |ops|
  {
    if n == 0 then 0 else Queries(ops, n - 1) + if ops[n - 1].Query? then 1 else 0
  }

  /** The row factory set last, or none. */
  function Set<Db, Row>(ops: seq<Op<Db, Row>>, n: nat): Option<nat>
    requires n <= |ops|
  {
    if n == 0 then None else if ops[n - 1].Factory? then Some(ops[n - 1].factory) else Set(ops, n - 1)
  }

  /** None of the first `n` statements ends the call, and nobody else writes meanwhile. */
  ghost predicate Working<Db(!new), Row>(ops: seq<Op<Db, Row>>, n: nat)
    requires n <= |ops|
  {
    forall i :: 0 <= i < n ==> !ops[i].Raise? && !ops[i].Foreign?
  }

  /** Where a call is after its first `n` statements. */
  lemma {:induction false} Works<Db(!new), Row>(file: Db, ops: seq<Op<Db, Row>>, n: nat) returns (s: State<Db, Row>)
    requires n <= |ops| && Working(ops, n)
    ensures Exec(State(file, Opened(), []), Fixed(ops), 0) == Exec(s, Fixed(ops), n)
    ensures s.file == Saved(file, ops, n) && Current(s.file, s.conn) == Applied(file, ops, n)
    ensures |s.results| == Queries(ops, n) && s.conn.factory == Set(ops, n) && !Refused(s.file, s.conn)
    ensures s.conn.own.None? ==> Applied(file, ops, n) == s.file
  {
    if n == 0 {
      s := State(file, Opened(), []);
    } else {
      var before := Works(file, ops, n - 1);
      var op := ops[n - 1];
      assert Fixed(ops).next(n - 1, before.results) == op;
      s := Do(before, op);
    }
  }

  lemma {:induction false} ExecKeepsReads<Db, Row>(s: State<Db, Row>, call: Call<Db, Row>, i: nat, at: nat)
    requires at < |s.results|
    ensures at < |Exec(s, call, i).results| && Exec(s, call, i).results[at] == s.results[at]
    decreases call.steps - i
  {
    if i < call.steps && !Ends(s.file, s.conn, call.next(i, s.results)) {
      ExecKeepsReads(Do(s, call.next(i, s.results)), call, i + 1, at);
    }
  }

  /** A call reads its own changes: a query sees all made before it, in order, through the row
      factory set last. */
  lemma ReadsOwnChanges<Db(!new), Row>(file: Db, ops: seq<Op<Db, Row>>, n: nat)
    requires n < |ops| && Working(ops, n) && ops[n].Query?
    ensures var read := Separately(file, Fixed(ops)).results;
      && Queries(ops, n) < |read|
      && read[Queries(ops, n)] == Read(ops[n].rows(Applied(file, ops, n)), Set(ops, n))
  {
    var s := Works(file, ops, n);
    assert Fixed(ops).next(n, s.results) == ops[n];
    ExecKeepsReads(Do(s, ops[n]), Fixed(ops), n + 1, |s.results|);
  }

  /** What a call leaves is the database it found with the changes it made before its last
      commit, in order, and no other, whether it returns or raises. */
  lemma CommittedInOrder<Db(!new), Row>(file: Db, ops: seq<Op<Db, Row>>, n: nat)
    requires n <= |ops| && Working(ops, n) && (n == |ops| || ops[n].Raise?)
    ensures Separately(file, Fixed(ops)).file == Saved(file, ops, n)
    ensures |Separately(file, Fixed(ops)).results| == Queries(ops, n)
  {
    var s := Works(file, ops, n);
    assert n < |ops| ==> Fixed(ops).next(n, s.results) == ops[n];
  }

  lemma ExecNext<Db(!new), Row>(s: State<Db, Row>, ops: seq<Op<Db, Row>>, i: nat)
    requires i < |ops|
    ensures Exec(s, Fixed(ops), i) ==
      if Ends(s.file, s.conn, ops[i]) then s else Exec(Do(s, ops[i]), Fixed(ops), i + 1)
  {
    assert Fixed(ops).next(i, s.results) == ops[i];
  }

  /** A query left part-way keeps its snapshot, whatever is read after it: the call goes on
      reading that, and once others have written a change is refused, which ends the call. */
  lemma PartWayKeepsSnapshot<Db(!new), Row>(
    file: Db, first: Db -> Row, other: Db -> Db, second: Db -> Row, again: bool, own: Db -> Db)
    requires other(file) != file
    ensures
      var call := Fixed([Query(first, true), Foreign(other), Query(second, again), Query(second, false),
                         Change(own), Query(second, false), Commit]);
      var end := Separately(file, call);
      && end.file == other(file)
      && end.results == [Read(first(file), None), Read(second(file), None), Read(second(file), None)]
  {
    var ops := [Query(first, true), Foreign(other), Query(second, again), Query(second, false),
                Change(own), Query(second, false), Commit];
    var a := State(file, Opened(), []);
    var b := Do(a, ops[0]);
    var c := Do(b, ops[1]);
    var d := Do(c, ops[2]);
    var e := Do(d, ops[3]);
    assert b.conn.base == c.conn.base == d.conn.base == e.conn.base == Some(file) && Refused(other(file), e.conn);
    ExecNext(a, ops, 0);
    ExecNext(b, ops, 1);
    ExecNext(c, ops, 2);
    ExecNext(d, ops, 3);
    ExecNext(e, ops, 4);
  }

  /** One seen through to its end keeps nothing: the call reads what others write next, and its
      own changes build on it. */
  lemma SeenThroughKeepsNothing<Db(!new), Row>(
    file: Db, first: Db -> Row, other: Db -> Db, second: Db -> Row, own: Db -> Db)
    ensures
      var call := Fixed([Query(first, false), Foreign(other), Query(second, false), Change(own), Commit]);
      var end := Separately(file, call);
      end.file == own(other(file)) && end.results == [Read(first(file), None), Read(second(other(file)), None)]
  {
    var ops := [Query(first, false), Foreign(other), Query(second, false), Change(own), Commit];
    var a := State(file, Opened(), []);
    var b := Do(a, ops[0]);
    var c := Do(b, ops[1]);
    var d := Do(c, ops[2]);
    ExecNext(a, ops, 0);
    ExecNext(b, ops, 1);
    ExecNext(c, ops, 2);
    ExecNext(d, ops, 3);
    ExecNext(Do(d, ops[3]), ops, 4);
  }

  /** Nobody else writes while the call's changes are not committed. Then they do, and the call
      reads that too, unless a query was left part-way: its snapshot is the one committed. */
  lemma CommittingLetsOthersWrite<Db(!new), Row>(
    file: Db, first: Db -> Row, partWay: bool, own: Db -> Db, other: Db -> Db, second: Db -> Row)
    ensures
      var call := Fixed([Query(first, partWay), Change(own), Foreign(other), Commit, Foreign(other),
                         Query(second, false)]);
      var end := Separately(file, call);
      && end.file == other(own(file))
      && end.results == [Read(first(file), None), Read(second(if partWay then own(file) else other(own(file))), None)]
  {
    var ops := [Query(first, partWay), Change(own), Foreign(other), Commit, Foreign(other), Query(second, false)];
    var a := State(file, Opened(), []);
    var b := Do(a, ops[0]);
    var c := Do(b, ops[1]);
    var d := Do(c, ops[3]);
    var e := Do(d, ops[4]);
    assert b.conn.cursors == [partWay] && [partWay][1..] == [] && Any([partWay]) == partWay;
    assert Do(c, ops[2]) == c && d.file == own(file);
    assert e.file == other(own(file)) && e.conn.base == if partWay then Some(own(file)) else None;
    ExecNext(a, ops, 0);
    ExecNext(b, ops, 1);
    ExecNext(c, ops, 2);
    ExecNext(c, ops, 3);
    ExecNext(d, ops, 4);
    ExecNext(e, ops, 5);
  }

  // ----- any number of calls -----

  /** The calls one after the other, each on its own connection: the database left, and what
      each call read. */
  datatype Outcome<Db, Row> = Outcome(file: Db, results: seq<seq<Read<Row>>>)

  function Apart<Db(==), Row>(file: Db, calls: seq<Call<Db, Row>>): Outcome<Db, Row>
    decreases |calls|
  {
    if calls == [] then Outcome(file, [])
    else
      var first := Separately(file, calls[0]);
      var rest := Apart(first.file, calls[1..]);
      Outcome(rest.file, [first.results] + rest.results)
  }

  /** The same calls on one connection that is lent to each; letting go of it after the nth
      closes the first `closed[n]` of its cursors. */
  function Together<Db(==), Row>(file: Db, conn: Connection<Db>, calls: seq<Call<Db, Row>>, closed: seq<nat>)
    : Outcome<Db, Row>
    requires |closed| == |calls|
    decreases |calls|
  {
    if calls == [] then Outcome(file, [])
    else
      var first := OnLent(file, conn, calls[0], closed[0]);
      var rest := Together(first.file, first.conn, calls[1..], closed[1..]);
      Outcome(rest.file, [first.results] + rest.results)
  }

  /** The lent connection is as just opened after every call. */
  predicate AlwaysOpened<Db(==), Row>(file: Db, conn: Connection<Db>, calls: seq<Call<Db, Row>>, closed: seq<nat>)
    requires |closed| == |calls|
    decreases |calls|
  {
    conn == Opened()
    && (calls == [] ||
        var first := OnLent(file, conn, calls[0], closed[0]);
        AlwaysOpened(first.file, first.conn, calls[1..], closed[1..]))
  }

  /** Every call, made apart, leaves no cursor part-way that letting go will not reach. */
  predicate AllReached<Db(==), Row>(file: Db, calls: seq<Call<Db, Row>>, closed: seq<nat>)
    requires |closed| == |calls|
    decreases |calls|
  {
    calls == []
    || (Reached(file, calls[0], closed[0]) && AllReached(Separately(file, calls[0]).file, calls[1..], closed[1..]))
  }

  /** Calls that may react to what they read, each ending early or not: the lent connection is
      as just opened after every one if and only if letting go always reaches the cursors
      left part-way, and then database and reads are those of the calls apart. */
  lemma {:induction false} SharingIsNotSharing<Db, Row>(file: Db, calls: seq<Call<Db, Row>>, closed: seq<nat>)
    requires |closed| == |calls|
    ensures AlwaysOpened(file, Opened(), calls, closed) <==> AllReached(file, calls, closed)
    ensures AllReached(file, calls, closed) ==> Together(file, Opened(), calls, closed) == Apart(file, calls)
    decreases |calls|
  {
    if calls != [] {
      ReleaseRestores(file, calls[0], closed[0]);
      hide OnLent, Separately, Reached;
      if Reached(file, calls[0], closed[0]) {
        SharingIsNotSharing(Separately(file, calls[0]).file, calls[1..], closed[1..]);
      }
    }
  }

  // ----- tasks that take turns -----

  function Init<T>(s: seq<T>): seq<T>
    requires s != []
  {
    if |s| == 1 then [] else [s[0]] + Init(s[1..])
  }

  function Last<T>(s: seq<T>): T
    requires s != []
  {
    if |s| == 1 then s[0] else Last(s[1..])
  }

  /** Tasks gathered in the block: `holder` has the connection and has done the first `at`
      steps of its call, the last one taken; `todo` are the calls each task has yet to make.
      What ran is remembered by the calls taken, in order, and who took each. */
  datatype Gathered<!Db, !Row> = Gathered(
    state: State<Db, Row>, holder: Option<nat>, at: nat,
    todo: nat -> seq<Call<Db, Row>>, taken: seq<Call<Db, Row>>, takers: seq<nat>, done: seq<seq<Read<Row>>>)

  datatype Turn = Take(task: nat) | DoNext | LetGo

  /** `turn` waits while another task holds the connection and refuses its own holder. */
  datatype Asked = Granted | Waits | Refuses

  function Ask(holder: Option<nat>, task: nat): Asked {
    if holder == Some(task) then Refuses else if holder.Some? then Waits else Granted
  }

  predicate Enabled<Db, Row>(g: Gathered<Db, Row>, t: Turn) {
    match t
    case Take(task) => Ask(g.holder, task).Granted? && g.todo(task) != []
    case DoNext => g.holder.Some? && g.taken != [] && g.at < Last(g.taken).steps
    case LetGo => g.holder.Some? && g.taken != [] && g.at >= Last(g.taken).steps
  }

  function Next<Db(==), Row>(g: Gathered<Db, Row>, t: Turn): Gathered<Db, Row>
    requires Enabled(g, t)
  {
    match t
    case Take(task) =>
      var call := g.todo(task)[0];
      g.(holder := Some(task), at := 0, taken := g.taken + [call], takers := g.takers + [task],
         todo := (x: nat) => if x == task && g.todo(x) != [] then g.todo(x)[1..] else g.todo(x))
    case DoNext =>
      var call := Last(g.taken);
      var op := call.next(g.at, g.state.results);
      if Ends(g.state.file, g.state.conn, op) then g.(at := call.steps)
      else g.(state := Do(g.state, op), at := g.at + 1)
    case LetGo =>
      g.(holder := None, done := g.done + [g.state.results],
         state := State(g.state.file, Released(g.state.conn, |g.state.conn.cursors|), []))
  }

  ghost predicate Runs<Db, Row>(g: Gathered<Db, Row>, turns: seq<Turn>)
    decreases |turns|
  {
    turns == [] || (Enabled(g, turns[0]) && Runs(Next(g, turns[0]), turns[1..]))
  }

  ghost function After<Db, Row>(g: Gathered<Db, Row>, turns: seq<Turn>): Gathered<Db, Row>
    requires Runs(g, turns)
    decreases |turns|
  {
    if turns == [] then g else After(Next(g, turns[0]), turns[1..])
  }

  /** Between turns everything is as after the calls taken, in that order, apart; during one,
      what is left of it will leave things as the whole of it would have. */
  ghost predicate Serial<Db, Row>(file: Db, g: Gathered<Db, Row>) {
    && (g.holder.None? ==>
          g.state.conn == Opened() && g.state.results == [] && Apart(file, g.taken) == Outcome(g.state.file, g.done))
    && (g.holder.Some? ==>
          g.taken != [] && !g.state.conn.stuck &&
          var before := Apart(file, Init(g.taken));
          && g.done == before.results
          && Exec(g.state, Last(g.taken), g.at) == Exec(State(before.file, Opened(), []), Last(g.taken), 0))
  }

  lemma {:induction false} InitLast<T>(s: seq<T>, x: T)
    ensures Init(s + [x]) == s && Last(s + [x]) == x
  {
    if s != [] {
      InitLast(s[1..], x);
      assert (s + [x])[1..] == s[1..] + [x];
    }
  }

  lemma {:induction false} ApartAppend<Db, Row>(file: Db, calls: seq<Call<Db, Row>>)
    requires calls != []
    ensures var before := Apart(file, Init(calls));
      var last := Separately(before.file, Last(calls));
      Apart(file, calls) == Outcome(last.file, before.results + [last.results])
    decreases |calls|
  {
    if |calls| > 1 {
      ApartAppend(Separately(file, calls[0]).file, calls[1..]);
      assert Init(calls)[1..] == Init(calls[1..]);
    } else {
      assert calls[1..] == [];
    }
  }

  lemma TakeIsSerial<Db, Row>(file: Db, g: Gathered<Db, Row>, task: nat)
    requires Serial(file, g) && Enabled(g, Take(task))
    ensures Serial(file, Next(g, Take(task)))
  {
    InitLast(g.taken, g.todo(task)[0]);
  }

  lemma DoIsSerial<Db, Row>(file: Db, g: Gathered<Db, Row>)
    requires Serial(file, g) && Enabled(g, DoNext)
    ensures Serial(file, Next(g, DoNext))
  {
  }

  lemma LetGoIsSerial<Db, Row>(file: Db, g: Gathered<Db, Row>)
    requires Serial(file, g) && Enabled(g, LetGo)
    ensures Serial(file, Next(g, LetGo))
  {
    ApartAppend(file, g.taken);
    AnyRest(g.state.conn.cursors, |g.state.conn.cursors|);
  }

  /** What a turn leaves to be done of the call under way. */
  function Left<Db, Row>(g: Gathered<Db, Row>): nat {
    if g.holder.None? || g.taken == [] then 0
    else if g.at < Last(g.taken).steps then Last(g.taken).steps - g.at + 1 else 1
  }

  /** Turns go on: while a task has a call to make or has one under way some turn is possible,
      and a call under way comes to its end. A task is refused the connection only if it would
      be waiting for itself. */
  lemma TurnsGoOn<Db(!new), Row>(file: Db, g: Gathered<Db, Row>, task: nat) returns (t: Turn)
    requires Serial(file, g) && (g.holder.Some? || g.todo(task) != [])
    ensures Enabled(g, t) && (g.holder.Some? ==> Left(Next(g, t)) < Left(g))
    ensures Ask(g.holder, task).Refuses? <==> g.holder.Some? && g.holder.value == task
    ensures Ask(g.holder, task).Waits? <==> g.holder.Some? && g.holder.value != task
  {
    t := if g.holder.None? then Take(task) else if g.at < Last(g.taken).steps then DoNext else LetGo;
  }

  function Start<Db, Row>(file: Db, programs: nat -> seq<Call<Db, Row>>): Gathered<Db, Row> {
    Gathered(State(file, Opened(), []), None, 0, programs, [], [], [])
  }

  /** The calls one task took, in order. */
  function TakenBy<Db, Row>(taken: seq<Call<Db, Row>>, takers: seq<nat>, task: nat): seq<Call<Db, Row>>
    requires |taken| == |takers|
  {
    if taken == [] then []
    else (if takers[0] == task then [taken[0]] else []) + TakenBy(taken[1..], takers[1..], task)
  }

  ghost predicate InOrder<Db, Row>(programs: nat -> seq<Call<Db, Row>>, g: Gathered<Db, Row>) {
    |g.taken| == |g.takers| && forall task :: TakenBy(g.taken, g.takers, task) + g.todo(task) == programs(task)
  }

  lemma {:induction false} TakenByAppend<Db, Row>(
    taken: seq<Call<Db, Row>>, takers: seq<nat>, call: Call<Db, Row>, taker: nat, task: nat)
    requires |taken| == |takers|
    ensures TakenBy(taken + [call], takers + [taker], task)
         == TakenBy(taken, takers, task) + if taker == task then [call] else []
  {
    if taken != [] {
      TakenByAppend(taken[1..], takers[1..], call, taker, task);
      assert (taken + [call])[1..] == taken[1..] + [call] && (takers + [taker])[1..] == takers[1..] + [taker];
    } else {
      assert (taken + [call])[1..] == [] && (takers + [taker])[1..] == [];
    }
  }

  lemma TakeInOrder<Db, Row>(programs: nat -> seq<Call<Db, Row>>, g: Gathered<Db, Row>, taker: nat)
    requires InOrder(programs, g) && Enabled(g, Take(taker))
    ensures InOrder(programs, Next(g, Take(taker)))
  {
    var g' := Next(g, Take(taker));
    var call := g.todo(taker)[0];
    forall task: nat ensures TakenBy(g'.taken, g'.takers, task) + g'.todo(task) == programs(task) {
      TakenByAppend(g.taken, g.takers, call, taker, task);
      assert TakenBy(g.taken, g.takers, task) + g.todo(task) == programs(task);
      if task == taker { assert g.todo(task) == [call] + g'.todo(task); }
    }
  }

  lemma {:induction false} RunIsSerial<Db, Row>(
    file: Db, programs: nat -> seq<Call<Db, Row>>, g: Gathered<Db, Row>, turns: seq<Turn>)
    requires Serial(file, g) && InOrder(programs, g) && Runs(g, turns)
    ensures Serial(file, After(g, turns)) && InOrder(programs, After(g, turns))
    decreases |turns|
  {
    if turns != [] {
      match turns[0] {
        case Take(task) =>
          TakeIsSerial(file, g, task);
          TakeInOrder(programs, g, task);
        case DoNext => DoIsSerial(file, g);
        case LetGo => LetGoIsSerial(file, g);
      }
      RunIsSerial(file, programs, Next(g, turns[0]), turns[1..]);
    }
  }

  /** However gathered tasks take turns: whenever no call holds the connection it is as just
      opened, and the database and every read are those of the calls taken, one after the
      other on connections of their own, which keeps each task's calls in its order. */
  lemma GatheredTasksAreSerial<Db, Row>(file: Db, programs: nat -> seq<Call<Db, Row>>, turns: seq<Turn>)
    requires Runs(Start(file, programs), turns) && After(Start(file, programs), turns).holder.None?
    ensures var g := After(Start(file, programs), turns);
      && g.state.conn == Opened() && Apart(file, g.taken) == Outcome(g.state.file, g.done)
      && |g.taken| == |g.takers|
      && forall task :: TakenBy(g.taken, g.takers, task) + g.todo(task) == programs(task)
  {
    RunIsSerial(file, programs, Start(file, programs), turns);
  }
}
