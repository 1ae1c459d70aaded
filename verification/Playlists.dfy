/** Playlists kept as rows with positions: adding and removing tracks, in one transaction
    each, over a table that holds every playlist's rows. */
module Playlists {
  import opened Orders

  datatype Row = Row(id: string, playlist: string, track: string, position: nat)

  datatype Stats = Stats(count: nat, duration: nat)

  /** One entry of a playlist: the row's own id and the track it plays. */
  datatype Entry = Entry(id: string, track: string)

  datatype Outcome = Changed(count: nat) | Failed

  // ----- the table -----

  /** `WHERE playlist_id = ?`, in table order */
  function Of(rows: seq<Row>, playlist: string): seq<Row> {
    if rows == [] then []
    else if rows[0].playlist == playlist then [rows[0]] + Of(rows[1..], playlist)
    else Of(rows[1..], playlist)
  }

  function Entries(rows: seq<Row>): seq<Entry> {
    if rows == [] then [] else [Entry(rows[0].id, rows[0].track)] + Entries(rows[1..])
  }

  /** `COALESCE(MAX(position), -1) + 1` */
  function NextPosition(rows: seq<Row>): nat {
    if rows == [] then 0
    else
      var next := NextPosition(rows[1..]);
      if rows[0].position + 1 > next then rows[0].position + 1 else next
  }

  function Duration(tracks: map<string, nat>, rows: seq<Row>): nat {
    if rows == [] then 0
    else (if rows[0].track in tracks then tracks[rows[0].track] else 0) + Duration(tracks, rows[1..])
  }

  /** `DELETE … WHERE playlist_id = ? AND playlist_track_id IN (…)` */
  function Deleted(rows: seq<Row>, playlist: string, ids: seq<string>): seq<Row> {
    if rows == [] then []
    else if rows[0].playlist == playlist && rows[0].id in ids then Deleted(rows[1..], playlist, ids)
    else [rows[0]] + Deleted(rows[1..], playlist, ids)
  }

  function Without(rows: seq<Row>, playlist: string): seq<Row> {
    if rows == [] then []
    else if rows[0].playlist == playlist then Without(rows[1..], playlist)
    else [rows[0]] + Without(rows[1..], playlist)
  }

  predicate Earlier(a: Row, b: Row) { a.position < b.position }

  /** Positions run from `at` without a gap. */
  predicate Numbered(rows: seq<Row>, at: nat) {
    rows != [] ==> rows[0].position == at && Numbered(rows[1..], at + 1)
  }

  function Renumbered(entries: seq<Entry>, playlist: string, at: nat): seq<Row> {
    if entries == [] then []
    else [Row(entries[0].id, playlist, entries[0].track, at)] + Renumbered(entries[1..], playlist, at + 1)
  }

  // ----- what an operation asks for -----

  function Known(tracks: map<string, nat>, ids: seq<string>): seq<string> {
    if ids == [] then []
    else if ids[0] in tracks then [ids[0]] + Known(tracks, ids[1..])
    else Known(tracks, ids[1..])
  }

  predicate Plays(rows: seq<Row>, track: string) { rows != [] && (rows[0].track == track || Plays(rows[1..], track)) }

  function NotYet(rows: seq<Row>, ids: seq<string>): seq<string> {
    if ids == [] then []
    else if Plays(rows, ids[0]) then NotYet(rows, ids[1..])
    else [ids[0]] + NotYet(rows, ids[1..])
  }

  /** The tracks an add puts in: the known ones in the order given and, unless duplicates
      are allowed, only those the playlist does not play yet. */
  function Accepted(tracks: map<string, nat>, rows: seq<Row>, ids: seq<string>, allowDuplicates: bool): seq<string> {
    if allowDuplicates then Known(tracks, ids) else NotYet(rows, Known(tracks, ids))
  }

  /** The rows the accepted tracks become. */
  function NewRows(playlist: string, ids: seq<string>, generate: nat -> string, at: nat, i: nat): seq<Row> {
    if ids == [] then []
    else [Row(generate(i), playlist, ids[0], at + i)] + NewRows(playlist, ids[1..], generate, at, i + 1)
  }

  function Kept(entries: seq<Entry>, ids: seq<string>): seq<Entry> {
    if entries == [] then []
    else if entries[0].id in ids then Kept(entries[1..], ids)
    else [entries[0]] + Kept(entries[1..], ids)
  }

  function Tracks(entries: seq<Entry>): seq<string> {
    if entries == [] then [] else [entries[0].track] + Tracks(entries[1..])
  }

  // ----- lemmas about the table -----

  lemma OfCons(row: Row, rows: seq<Row>, playlist: string)
    ensures Of([row] + rows, playlist)
         == if row.playlist == playlist then [row] + Of(rows, playlist) else Of(rows, playlist)
    ensures row.playlist == playlist ==>
      Entries(Of([row] + rows, playlist)) == [Entry(row.id, row.track)] + Entries(Of(rows, playlist))
  {
    assert ([row] + rows)[1..] == rows;
    if row.playlist == playlist { assert ([row] + Of(rows, playlist))[1..] == Of(rows, playlist); }
  }

  lemma {:induction false} OfAppend(rows: seq<Row>, more: seq<Row>, playlist: string)
    ensures Of(rows + more, playlist) == Of(rows, playlist) + Of(more, playlist)
  {
    if rows == [] {
      assert rows + more == more;
    } else {
      var row, rest := rows[0], rows[1..];
      OfAppend(rest, more, playlist);
      assert rows == [row] + rest && rows + more == [row] + (rest + more);
      OfCons(row, rest, playlist);
      OfCons(row, rest + more, playlist);
    }
  }

  lemma {:induction false} NumberedAppend(rows: seq<Row>, more: seq<Row>, at: nat)
    requires Numbered(rows, at) && Numbered(more, at + |rows|)
    ensures Numbered(rows + more, at)
  {
    if rows == [] {
      assert rows + more == more;
    } else {
      NumberedAppend(rows[1..], more, at + 1);
      assert (rows + more)[1..] == rows[1..] + more;
    }
  }

  lemma {:induction false} NextIsCount(rows: seq<Row>, at: nat)
    requires Numbered(rows, at)
    ensures rows != [] ==> NextPosition(rows) == at + |rows|
  {
    if rows != [] { NextIsCount(rows[1..], at + 1); }
  }

  predicate Rising(rows: seq<Row>, at: nat) {
    rows != [] ==> rows[0].position >= at && Rising(rows[1..], rows[0].position + 1)
  }

  /** Rows in order of position are not moved by sorting them. */
  lemma {:induction false} RisingIsSorted(rows: seq<Row>, at: nat)
    requires Rising(rows, at)
    ensures Sort(Earlier, rows) == rows
  {
    if rows != [] {
      RisingIsSorted(rows[1..], rows[0].position + 1);
      assert rows == [rows[0]] + rows[1..];
    }
  }

  lemma {:induction false} NumberedRises(rows: seq<Row>, at: nat)
    requires Numbered(rows, at)
    ensures Rising(rows, at)
  {
    if rows != [] { NumberedRises(rows[1..], at + 1); }
  }

  /** What deleting leaves of a playlist is still in order. */
  lemma {:induction false} DeletedRises(rows: seq<Row>, playlist: string, ids: seq<string>, at: nat)
    requires Rising(Of(rows, playlist), at)
    ensures Rising(Of(Deleted(rows, playlist, ids), playlist), at)
    decreases |rows|
  {
    if rows != [] {
      var row, rest := rows[0], Deleted(rows[1..], playlist, ids);
      OfCons(row, rows[1..], playlist);
      assert [row] + rows[1..] == rows;
      if row.playlist == playlist {
        assert Of(rows, playlist)[1..] == Of(rows[1..], playlist);
        DeletedRises(rows[1..], playlist, ids, row.position + 1);
        if row.id in ids {
        } else {
          OfCons(row, rest, playlist);
          assert ([row] + Of(rest, playlist))[1..] == Of(rest, playlist);
        }
      } else {
        DeletedRises(rows[1..], playlist, ids, at);
        OfCons(row, rest, playlist);
      }
    }
  }

  lemma {:induction false} KeptLength(entries: seq<Entry>, ids: seq<string>)
    ensures |Kept(entries, ids)| <= |entries|
    ensures |Kept(entries, ids)| == |entries| ==> Kept(entries, ids) == entries
  {
    if entries != [] {
      KeptLength(entries[1..], ids);
      assert entries == [entries[0]] + entries[1..];
    }
  }

  lemma {:induction false} NothingRemoved(entries: seq<Entry>)
    ensures Kept(entries, []) == entries
  {
    if entries != [] {
      NothingRemoved(entries[1..]);
      assert entries == [entries[0]] + entries[1..];
    }
  }

  lemma {:induction false} NewRowsAre(
    playlist: string, ids: seq<string>, generate: nat -> string, at: nat, i: nat, other: string)
    ensures var made := NewRows(playlist, ids, generate, at, i);
      && |made| == |ids| && Numbered(made, at + i) && Tracks(Entries(made)) == ids
      && Of(made, other) == if other == playlist then made else []
  {
    if ids != [] {
      var made := NewRows(playlist, ids, generate, at, i);
      NewRowsAre(playlist, ids[1..], generate, at, i + 1, other);
      assert made[1..] == NewRows(playlist, ids[1..], generate, at, i + 1);
      assert Entries(made)[1..] == Entries(made[1..]);
    }
  }

  lemma {:induction false} RenumberedAre(entries: seq<Entry>, playlist: string, at: nat, other: string)
    ensures var made := Renumbered(entries, playlist, at);
      && Numbered(made, at) && Entries(made) == entries
      && Of(made, other) == if other == playlist then made else []
  {
    if entries != [] {
      RenumberedAre(entries[1..], playlist, at + 1, other);
      assert Renumbered(entries, playlist, at)[1..] == Renumbered(entries[1..], playlist, at + 1);
    }
  }

  lemma {:induction false} WithoutIs(rows: seq<Row>, playlist: string, other: string)
    ensures Of(Without(rows, playlist), other) == if other == playlist then [] else Of(rows, other)
  {
    if rows != [] {
      WithoutIs(rows[1..], playlist, other);
      if rows[0].playlist != playlist { assert Without(rows, playlist)[1..] == Without(rows[1..], playlist); }
    }
  }

  lemma {:induction false} DeletedIs(rows: seq<Row>, playlist: string, ids: seq<string>)
    ensures Entries(Of(Deleted(rows, playlist, ids), playlist)) == Kept(Entries(Of(rows, playlist)), ids)
    ensures |rows| - |Deleted(rows, playlist, ids)|
         == |Of(rows, playlist)| - |Of(Deleted(rows, playlist, ids), playlist)|
  {
    if rows != [] {
      var rest := Deleted(rows[1..], playlist, ids);
      DeletedIs(rows[1..], playlist, ids);
      OfCons(rows[0], rows[1..], playlist);
      if !(rows[0].playlist == playlist && rows[0].id in ids) { OfCons(rows[0], rest, playlist); }
    }
  }

  lemma {:induction false} DeletedLeaves(rows: seq<Row>, playlist: string, ids: seq<string>, other: string)
    requires other != playlist
    ensures Of(Deleted(rows, playlist, ids), other) == Of(rows, other)
  {
    if rows != [] {
      DeletedLeaves(rows[1..], playlist, ids, other);
      if !(rows[0].playlist == playlist && rows[0].id in ids) {
        assert Deleted(rows, playlist, ids)[1..] == Deleted(rows[1..], playlist, ids);
      }
    }
  }

  lemma {:induction false} EntriesLength(rows: seq<Row>)
    ensures |Entries(rows)| == |rows|
  {
    if rows != [] { EntriesLength(rows[1..]); }
  }

  function StatsOf(tracks: map<string, nat>, rows: seq<Row>): Stats { Stats(|rows|, Duration(tracks, rows)) }

  /** How long the tracks asked for play. */
  function Total(tracks: map<string, nat>, ids: seq<string>): nat {
    if ids == [] then 0 else (if ids[0] in tracks then tracks[ids[0]] else 0) + Total(tracks, ids[1..])
  }

  lemma {:induction false} StatsAre(tracks: map<string, nat>, rows: seq<Row>)
    ensures StatsOf(tracks, rows) == Stats(|Entries(rows)|, Total(tracks, Tracks(Entries(rows))))
  {
    if rows != [] {
      StatsAre(tracks, rows[1..]);
      assert Entries(rows)[1..] == Entries(rows[1..]);
      assert Tracks(Entries(rows))[1..] == Tracks(Entries(rows[1..]));
    }
  }

  lemma {:induction false} DurationAppend(tracks: map<string, nat>, rows: seq<Row>, more: seq<Row>)
    ensures Duration(tracks, rows + more) == Duration(tracks, rows) + Duration(tracks, more)
  {
    if rows == [] {
      assert rows + more == more;
    } else {
      DurationAppend(tracks, rows[1..], more);
      assert (rows + more)[1..] == rows[1..] + more;
    }
  }

  /** The rows of an add take the next positions and the generated ids in turn, and raise the
      playlist's count and duration by the tracks put in. */
  lemma {:induction false} NewRowsAt(
    playlist: string, ids: seq<string>, generate: nat -> string, at: nat, i: nat, j: nat)
    requires j < |ids|
    ensures |NewRows(playlist, ids, generate, at, i)| == |ids|
    ensures NewRows(playlist, ids, generate, at, i)[j] == Row(generate(i + j), playlist, ids[j], at + i + j)
  {
    NewRowsAre(playlist, ids, generate, at, i, playlist);
    if j > 0 { NewRowsAt(playlist, ids[1..], generate, at, i + 1, j - 1); }
  }

  lemma AddedCounts(
    tracks: map<string, nat>, rows: seq<Row>, playlist: string, ids: seq<string>, generate: nat -> string, at: nat)
    ensures var (before, after) := (StatsOf(tracks, rows),
                                    StatsOf(tracks, rows + NewRows(playlist, ids, generate, at, 0)));
      after == Stats(before.count + |ids|, before.duration + Total(tracks, ids))
  {
    var made := NewRows(playlist, ids, generate, at, 0);
    NewRowsAre(playlist, ids, generate, at, 0, playlist);
    StatsAre(tracks, made);
    DurationAppend(tracks, rows, made);
  }

  // ----- the tables an operation leaves -----

  /** The playlists' rows, and what their table says of each playlist. */
  datatype Tables = Tables(rows: seq<Row>, lists: map<string, Stats>)

  /** Every playlist's positions are 0 to n - 1. */
  ghost predicate Ordered(rows: seq<Row>) { forall p :: Numbered(Of(rows, p), 0) }

  /** A playlist's statistics are its rows'. */
  predicate Counted(tracks: map<string, nat>, t: Tables, p: string) {
    p in t.lists ==> t.lists[p] == StatsOf(tracks, Of(t.rows, p))
  }

  ghost predicate AllCounted(tracks: map<string, nat>, t: Tables) { forall p :: Counted(tracks, t, p) }

  predicate Same(t: Tables, after: Tables, p: string) {
    && Of(after.rows, p) == Of(t.rows, p)
    && (p in t.lists <==> p in after.lists) && (p in t.lists ==> after.lists[p] == t.lists[p])
  }

  ghost predicate OthersSame(t: Tables, after: Tables, playlist: string) {
    forall p :: p != playlist ==> Same(t, after, p)
  }

  /** The statistics recounted for one playlist, if there is such a playlist. */
  function Recounted(tracks: map<string, nat>, t: Tables, playlist: string): Tables {
    if playlist !in t.lists then t
    else t.(lists := t.lists[playlist := StatsOf(tracks, Of(t.rows, playlist))])
  }

  lemma RecountedIs(tracks: map<string, nat>, t: Tables, table: seq<Row>, playlist: string)
    requires Ordered(t.rows) && Numbered(Of(table, playlist), 0)
    requires forall p :: p != playlist ==> Of(table, p) == Of(t.rows, p)
    ensures var after := Recounted(tracks, t.(rows := table), playlist);
      && Ordered(table) && OthersSame(t, after, playlist)
      && forall p :: p == playlist || Counted(tracks, t, p) ==> Counted(tracks, after, p)
  {
    forall p ensures Numbered(Of(table, p), 0) { assert Numbered(Of(t.rows, p), 0); }
  }

  function Added(rows: seq<Row>, playlist: string, ids: seq<string>, generate: nat -> string): seq<Row> {
    rows + NewRows(playlist, ids, generate, |Of(rows, playlist)|, 0)
  }

  lemma AddedFits(
    tracks: map<string, nat>, t: Tables, playlist: string, ids: seq<string>, generate: nat -> string)
    requires Ordered(t.rows)
    ensures var table := Added(t.rows, playlist, ids, generate);
      var after := Recounted(tracks, t.(rows := table), playlist);
      && Ordered(table) && OthersSame(t, after, playlist)
      && (forall p :: p == playlist || Counted(tracks, t, p) ==> Counted(tracks, after, p))
      && Of(table, playlist) == Of(t.rows, playlist) + NewRows(playlist, ids, generate, |Of(t.rows, playlist)|, 0)
  {
    var rows := t.rows;
    var at := |Of(rows, playlist)|;
    var more := NewRows(playlist, ids, generate, at, 0);
    forall p: string ensures Of(rows + more, p) == if p == playlist then Of(rows, p) + more else Of(rows, p) {
      OfAppend(rows, more, p);
      NewRowsAre(playlist, ids, generate, at, 0, p);
    }
    NewRowsAre(playlist, ids, generate, at, 0, playlist);
    NumberedAppend(Of(rows, playlist), more, 0);
    RecountedIs(tracks, t, rows + more, playlist);
  }

  function Removed(rows: seq<Row>, playlist: string, ids: seq<string>): seq<Row> {
    Without(Deleted(rows, playlist, ids), playlist)
    + Renumbered(Entries(Sort(Earlier, Of(Deleted(rows, playlist, ids), playlist))), playlist, 0)
  }

  lemma RemovedOf(rows: seq<Row>, playlist: string, ids: seq<string>, p: string)
    requires Numbered(Of(rows, playlist), 0)
    ensures p != playlist ==> Of(Removed(rows, playlist, ids), p) == Of(rows, p)
    ensures p == playlist ==>
      Of(Removed(rows, playlist, ids), p) == Renumbered(Kept(Entries(Of(rows, playlist)), ids), playlist, 0)
  {
    var deleted := Deleted(rows, playlist, ids);
    NumberedRises(Of(rows, playlist), 0);
    DeletedRises(rows, playlist, ids, 0);
    RisingIsSorted(Of(deleted, playlist), 0);
    DeletedIs(rows, playlist, ids);
    var remaining := Kept(Entries(Of(rows, playlist)), ids);
    OfAppend(Without(deleted, playlist), Renumbered(remaining, playlist, 0), p);
    WithoutIs(deleted, playlist, p);
    RenumberedAre(remaining, playlist, 0, p);
    if p != playlist { DeletedLeaves(rows, playlist, ids, p); }
  }

  lemma RemovedFits(tracks: map<string, nat>, t: Tables, playlist: string, ids: seq<string>)
    requires Ordered(t.rows)
    ensures var table := Removed(t.rows, playlist, ids);
      var after := Recounted(tracks, t.(rows := table), playlist);
      && Ordered(table) && OthersSame(t, after, playlist)
      && (forall p :: p == playlist || Counted(tracks, t, p) ==> Counted(tracks, after, p))
      && Entries(Of(table, playlist)) == Kept(Entries(Of(t.rows, playlist)), ids)
  {
    var table := Removed(t.rows, playlist, ids);
    forall p: string | p != playlist ensures Of(table, p) == Of(t.rows, p) {
      RemovedOf(t.rows, playlist, ids, p);
    }
    RemovedOf(t.rows, playlist, ids, playlist);
    RenumberedAre(Kept(Entries(Of(t.rows, playlist)), ids), playlist, 0, playlist);
    RecountedIs(tracks, t, table, playlist);
  }

  // ----- operations -----

  datatype Operation =
    | Create(playlist: string)
    | Delete(playlist: string)
    | Add(playlist: string, ids: seq<string>, allowDuplicates: bool, generate: nat -> string)
    | Remove(playlist: string, ids: seq<string>)

  /** What an operation that does not fail leaves. Deleting a playlist leaves its rows. */
  function Next(tracks: map<string, nat>, t: Tables, op: Operation): Tables {
    match op
    case Create(p) => if p in t.lists then t else t.(lists := t.lists[p := Stats(0, 0)])
    case Delete(p) => t.(lists := t.lists - {p})
    case Add(p, ids, allowDuplicates, generate) =>
      var accepted := Accepted(tracks, Of(t.rows, p), ids, allowDuplicates);
      if accepted == [] then t else Recounted(tracks, t.(rows := Added(t.rows, p, accepted, generate)), p)
    case Remove(p, ids) =>
      if |Deleted(t.rows, p, ids)| == |t.rows| then t
      else Recounted(tracks, t.(rows := Removed(t.rows, p, ids)), p)
  }

  /** Creating a playlist counts no rows: there must be none. */
  predicate Clean(t: Tables, op: Operation) {
    op.Create? && op.playlist !in t.lists ==> Of(t.rows, op.playlist) == []
  }

  lemma OperationKeeps(tracks: map<string, nat>, t: Tables, op: Operation)
    requires Ordered(t.rows)
    ensures var after := Next(tracks, t, op);
      && Ordered(after.rows) && OthersSame(t, after, op.playlist)
      && (forall p :: Counted(tracks, t, p) && (p == op.playlist ==> Clean(t, op)) ==> Counted(tracks, after, p))
      && (!Clean(t, op) ==> !Counted(tracks, after, op.playlist))
  {
    match op
    case Add(p, ids, allowDuplicates, generate) =>
      AddedFits(tracks, t, p, Accepted(tracks, Of(t.rows, p), ids, allowDuplicates), generate);
    case Remove(p, ids) => RemovedFits(tracks, t, p, ids);
    case _ =>
  }

  function After(tracks: map<string, nat>, t: Tables, ops: seq<Operation>): Tables
    decreases |ops|
  {
    if ops == [] then t else After(tracks, Next(tracks, t, ops[0]), ops[1..])
  }

  ghost predicate AlwaysCounted(tracks: map<string, nat>, t: Tables, ops: seq<Operation>)
    decreases |ops|
  {
    AllCounted(tracks, t) && (ops == [] || AlwaysCounted(tracks, Next(tracks, t, ops[0]), ops[1..]))
  }

  predicate AllClean(tracks: map<string, nat>, t: Tables, ops: seq<Operation>)
    decreases |ops|
  {
    ops == [] || (Clean(t, ops[0]) && AllClean(tracks, Next(tracks, t, ops[0]), ops[1..]))
  }

  /** In every run positions are 0 to n - 1; if the statistics are right to begin with they are
      so throughout if and only if no playlist is created under an id that still has rows. */
  lemma {:induction false} RunsCount(tracks: map<string, nat>, t: Tables, ops: seq<Operation>)
    requires Ordered(t.rows)
    ensures Ordered(After(tracks, t, ops).rows)
    ensures AllCounted(tracks, t) ==> (AlwaysCounted(tracks, t, ops) <==> AllClean(tracks, t, ops))
    decreases |ops|
  {
    if ops != [] {
      var after := Next(tracks, t, ops[0]);
      OperationKeeps(tracks, t, ops[0]);
      hide Next, Clean;
      RunsCount(tracks, after, ops[1..]);
      if !Clean(t, ops[0]) { assert !Counted(tracks, after, ops[0].playlist); }
    }
  }

  /** A playlist deleted and created again is counted rightly if and only if it was empty:
      its rows are still there. */
  lemma RecreatedIsCounted(tracks: map<string, nat>, t: Tables, playlist: string)
    requires Ordered(t.rows) && AllCounted(tracks, t)
    ensures var after := Next(tracks, Next(tracks, t, Delete(playlist)), Create(playlist));
      && after.rows == t.rows && playlist in after.lists && after.lists[playlist] == Stats(0, 0)
      && (AllCounted(tracks, after) <==> Of(t.rows, playlist) == [])
  {
    var deleted := Next(tracks, t, Delete(playlist));
    OperationKeeps(tracks, t, Delete(playlist));
    OperationKeeps(tracks, deleted, Create(playlist));
    assert !Clean(deleted, Create(playlist)) ==>
      !Counted(tracks, Next(tracks, deleted, Create(playlist)), playlist);
  }

  /** A playlist of one track, deleted and created again: the track is back and not counted. */
  lemma DeletedTrackReturns(tracks: map<string, nat>, playlist: string, row: Row)
    requires row.playlist == playlist && row.position == 0
    ensures var t := Tables([row], map[playlist := StatsOf(tracks, [row])]);
      var after := Next(tracks, Next(tracks, t, Delete(playlist)), Create(playlist));
      && Ordered(t.rows) && AllCounted(tracks, t)
      && Of(after.rows, playlist) == [row] && after.lists[playlist] == Stats(0, 0)
  {
    assert [row][1..] == [];
    forall p ensures Of([row], p) == if p == playlist then [row] else [] {}
  }

  class Library {
    const tracks: map<string, nat>
    var rows: seq<Row>
    var lists: map<string, Stats>

    ghost function View(): Tables
      reads this
    {
      Tables(rows, lists)
    }

    ghost predicate Valid()
      reads this
    {
      Ordered(rows)
    }

    constructor (tracks: map<string, nat>)
      ensures Valid() && this.tracks == tracks && View() == Tables([], map[])
    {
      this.tracks, rows, lists := tracks, [], map[];
    }

    /** The table takes no id twice. `fails` is any statement raising before the commit: the
        transaction is rolled back. */
    method CreatePlaylist(playlist: string, fails: bool) returns (outcome: Outcome)
      requires Valid()
      modifies this
      ensures Valid() && OthersSame(old(View()), View(), playlist)
      ensures outcome == if fails || playlist in old(lists) then Failed else Changed(1)
      ensures View() == if outcome.Failed? then old(View()) else Next(tracks, old(View()), Create(playlist))
      ensures outcome.Changed? ==> (Counted(tracks, View(), playlist) <==> Of(rows, playlist) == [])
    {
      if fails || playlist in lists { return Failed; }
      lists := lists[playlist := Stats(0, 0)];
      return Changed(1);
    }

    /** Foreign keys are off on the connection, so the rows stay. */
    method DeletePlaylist(playlist: string, fails: bool) returns (outcome: Outcome)
      requires Valid()
      modifies this
      ensures Valid() && OthersSame(old(View()), View(), playlist) && rows == old(rows)
      ensures outcome == if fails then Failed else Changed(if playlist in old(lists) then 1 else 0)
      ensures View() == if outcome.Failed? then old(View()) else Next(tracks, old(View()), Delete(playlist))
    {
      if fails { return Failed; }
      var deleted := if playlist in lists then 1 else 0;
      lists := lists - {playlist};
      return Changed(deleted);
    }

    method AddTracks(playlist: string, ids: seq<string>, allowDuplicates: bool, generate: nat -> string, fails: bool)
      returns (outcome: Outcome)
      requires Valid()
      modifies this
      ensures Valid() && OthersSame(old(View()), View(), playlist)
      ensures var accepted := Accepted(tracks, Of(old(rows), playlist), ids, allowDuplicates);
        && outcome == (if fails && accepted != [] then Failed else Changed(|accepted|))
        && Of(rows, playlist) == Of(old(rows), playlist) +
             if fails then [] else NewRows(playlist, accepted, generate, |Of(old(rows), playlist)|, 0)
      ensures outcome != Failed && outcome != Changed(0) ==> Counted(tracks, View(), playlist)
      ensures View() ==
        if outcome.Failed? then old(View())
        else Next(tracks, old(View()), Add(playlist, ids, allowDuplicates, generate))
    {
      if ids == [] { return Changed(0); }
      var accepted := Known(tracks, ids);
      if accepted == [] { return Changed(0); }
      if !allowDuplicates {
        accepted := NotYet(Of(rows, playlist), accepted);
        if accepted == [] { return Changed(0); }
      }
      if fails { return Failed; }
      var next := NextPosition(Of(rows, playlist));
      assert next == |Of(rows, playlist)| by { NextIsCount(Of(rows, playlist), 0); }
      var table := rows;
      for i := 0 to |accepted|
        invariant table + NewRows(playlist, accepted[i..], generate, next, i)
               == Added(rows, playlist, accepted, generate)
      {
        assert accepted[i..][1..] == accepted[i + 1..];
        table := table + [Row(generate(i), playlist, accepted[i], next + i)];
      }
      assert accepted[|accepted|..] == [] && table == Added(rows, playlist, accepted, generate);
      AddedFits(tracks, View(), playlist, accepted, generate);
      rows := table;
      Recount(playlist);
      return Changed(|accepted|);
    }

    method RemoveTracks(playlist: string, ids: seq<string>, fails: bool) returns (outcome: Outcome)
      requires Valid()
      modifies this
      ensures Valid() && OthersSame(old(View()), View(), playlist)
      ensures var before, kept := Entries(Of(old(rows), playlist)), Kept(Entries(Of(old(rows), playlist)), ids);
        && |kept| <= |before|
        && outcome == (if ids == [] then Changed(0) else if fails then Failed else Changed(|before| - |kept|))
        && Entries(Of(rows, playlist)) == if outcome.Failed? then before else kept
      ensures outcome != Failed && outcome != Changed(0) ==> Counted(tracks, View(), playlist)
      ensures View() == if outcome.Failed? then old(View()) else Next(tracks, old(View()), Remove(playlist, ids))
    {
      ghost var before := Entries(Of(rows, playlist));
      KeptLength(before, ids);
      DeletedIs(rows, playlist, ids);
      EntriesLength(Of(rows, playlist));
      EntriesLength(Of(Deleted(rows, playlist, ids), playlist));
      if ids == [] {
        NothingRemoved(before);
        return Changed(0);
      }
      if fails { return Failed; }
      var deleted := Deleted(rows, playlist, ids);
      var removed := |rows| - |deleted|;
      if removed == 0 { return Changed(0); }
      var remaining := Entries(Sort(Earlier, Of(deleted, playlist)));
      var table := Without(deleted, playlist);
      for position := 0 to |remaining|
        invariant table + Renumbered(remaining[position..], playlist, position) == Removed(rows, playlist, ids)
      {
        assert remaining[position..][1..] == remaining[position + 1..];
        table := table + [Row(remaining[position].id, playlist, remaining[position].track, position)];
      }
      assert remaining[|remaining|..] == [] && table == Removed(rows, playlist, ids);
      RemovedFits(tracks, View(), playlist, ids);
      rows := table;
      Recount(playlist);
      return Changed(removed);
    }

    /** `UPDATE playlists SET track_count = ..., duration = ... WHERE id = ?` */
    method Recount(playlist: string)
      modifies this`lists
      ensures View() == Recounted(tracks, old(View()), playlist)
    {
      if playlist in lists { lists := lists[playlist := StatsOf(tracks, Of(rows, playlist))]; }
    }
  }

  // ----- what the operations mean -----

  lemma {:induction false} KnownIs(tracks: map<string, nat>, ids: seq<string>, track: string)
    ensures track in Known(tracks, ids) <==> track in ids && track in tracks
  {
    if ids != [] {
      KnownIs(tracks, ids[1..], track);
      assert track in ids <==> track == ids[0] || track in ids[1..];
    }
  }

  lemma {:induction false} NotYetIs(rows: seq<Row>, ids: seq<string>, track: string)
    ensures track in NotYet(rows, ids) <==> track in ids && !Plays(rows, track)
  {
    if ids != [] {
      NotYetIs(rows, ids[1..], track);
      assert track in ids <==> track == ids[0] || track in ids[1..];
    }
  }

  /** Without duplicates an add takes a track exactly if it is asked for, known and not yet
      in the playlist: one already there gains no entry. */
  lemma AcceptedIs(tracks: map<string, nat>, rows: seq<Row>, ids: seq<string>, track: string)
    ensures track in Accepted(tracks, rows, ids, false) <==> track in ids && track in tracks && !Plays(rows, track)
    ensures track in Accepted(tracks, rows, ids, true) <==> track in ids && track in tracks
  {
    KnownIs(tracks, ids, track);
    NotYetIs(rows, Known(tracks, ids), track);
  }

  lemma {:induction false} PlaysIs(rows: seq<Row>, track: string)
    ensures Plays(rows, track) <==> track in Tracks(Entries(rows))
  {
    if rows != [] {
      PlaysIs(rows[1..], track);
      assert Entries(rows)[1..] == Entries(rows[1..]);
      assert track in Tracks(Entries(rows)) <==> track == rows[0].track || track in Tracks(Entries(rows[1..]));
    }
  }

  lemma DistinctJoin(a: seq<string>, b: seq<string>)
    ensures Distinct(a + b) <==> Distinct(a) && Distinct(b) && forall x :: x in a ==> x !in b
  {
    var s := a + b;
    if Distinct(s) {
      forall i, j | 0 <= i < j < |a| ensures a[i] != a[j] { assert s[i] != s[j]; }
      forall i, j | 0 <= i < j < |b| ensures b[i] != b[j] { assert s[|a| + i] != s[|a| + j]; }
      forall x | x in a ensures x !in b {
        var i :| 0 <= i < |a| && a[i] == x;
        assert forall j :: 0 <= j < |b| ==> s[i] != s[|a| + j] && s[|a| + j] == b[j];
      }
    } else {
      var i, j :| 0 <= i < j < |s| && s[i] == s[j];
      if j < |a| {
        assert a[i] == a[j];
      } else if i < |a| {
        assert a[i] in a && b[j - |a|] == a[i];
      } else {
        assert b[i - |a|] == b[j - |a|];
      }
    }
  }

  /** Every id the call names twice is unknown or played already. */
  ghost predicate NamedOnce(tracks: map<string, nat>, rows: seq<Row>, ids: seq<string>) {
    forall i, j :: 0 <= i < j < |ids| && ids[i] == ids[j] ==> ids[i] !in tracks || Plays(rows, ids[i])
  }

  lemma NamedOnceCons(tracks: map<string, nat>, rows: seq<Row>, id: string, ids: seq<string>)
    ensures NamedOnce(tracks, rows, [id] + ids) <==>
      NamedOnce(tracks, rows, ids) && (id in ids ==> id !in tracks || Plays(rows, id))
  {
    var all := [id] + ids;
    if NamedOnce(tracks, rows, all) {
      forall i, j | 0 <= i < j < |ids| && ids[i] == ids[j] ensures ids[i] !in tracks || Plays(rows, ids[i]) {
        assert all[i + 1] == all[j + 1];
      }
      if id in ids {
        var j :| 0 <= j < |ids| && ids[j] == id;
        assert all[0] == all[j + 1];
      }
    }
  }

  /** The check is against the playlist, not within the call: what an add without duplicates
      puts in repeats nothing if and only if no id it takes is named twice. */
  lemma {:induction false} AcceptedRepeats(tracks: map<string, nat>, rows: seq<Row>, ids: seq<string>)
    ensures Distinct(Accepted(tracks, rows, ids, false)) <==> NamedOnce(tracks, rows, ids)
  {
    if ids != [] {
      var id, rest := ids[0], ids[1..];
      var accepted := Accepted(tracks, rows, rest, false);
      assert ids == [id] + rest;
      AcceptedRepeats(tracks, rows, rest);
      NamedOnceCons(tracks, rows, id, rest);
      AcceptedIs(tracks, rows, rest, id);
      if id in tracks {
        assert ([id] + Known(tracks, rest))[1..] == Known(tracks, rest);
        if !Plays(rows, id) { DistinctJoin([id], accepted); }
      }
    }
  }

  /** So an add without duplicates leaves a playlist that repeats nothing if and only if it
      repeated nothing before and no id the add takes is named twice. */
  lemma AddRepeatsNothing(tracks: map<string, nat>, rows: seq<Row>, ids: seq<string>)
    ensures var before := Tracks(Entries(rows));
      Distinct(before + Accepted(tracks, rows, ids, false)) <==> Distinct(before) && NamedOnce(tracks, rows, ids)
  {
    var before, accepted := Tracks(Entries(rows)), Accepted(tracks, rows, ids, false);
    AcceptedRepeats(tracks, rows, ids);
    DistinctJoin(before, accepted);
    forall track | track in before ensures track !in accepted {
      PlaysIs(rows, track);
      AcceptedIs(tracks, rows, ids, track);
    }
  }

  /** A track named twice at once is added twice. */
  lemma NamedTwiceIsAddedTwice(tracks: map<string, nat>, track: string)
    requires track in tracks
    ensures Accepted(tracks, [], [track, track], false) == [track, track]
  {
    var one, two := [track], [track, track];
    assert two[1..] == one && one[1..] == [];
    assert Known(tracks, []) == [] && Known(tracks, one) == one + Known(tracks, []) && Known(tracks, two) == two;
    assert NotYet([], []) == [] && NotYet([], one) == one;
  }

  lemma {:induction false} KeptIs(entries: seq<Entry>, ids: seq<string>, entry: Entry)
    ensures entry in Kept(entries, ids) <==> entry in entries && entry.id !in ids
  {
    if entries != [] {
      KeptIs(entries[1..], ids, entry);
      assert entry in entries <==> entry == entries[0] || entry in entries[1..];
    }
  }

  lemma {:induction false} KnownLast(tracks: map<string, nat>, ids: seq<string>, id: string)
    ensures Known(tracks, ids + [id]) == Known(tracks, ids) + if id in tracks then [id] else []
  {
    if ids == [] {
      assert ids + [id] == [id] && [id][1..] == [];
    } else {
      assert (ids + [id])[1..] == ids[1..] + [id];
      KnownLast(tracks, ids[1..], id);
    }
  }

  lemma {:induction false} NotYetLast(rows: seq<Row>, ids: seq<string>, id: string)
    ensures NotYet(rows, ids + [id]) == NotYet(rows, ids) + if Plays(rows, id) then [] else [id]
  {
    if ids == [] {
      assert ids + [id] == [id] && [id][1..] == [];
    } else {
      assert (ids + [id])[1..] == ids[1..] + [id];
      NotYetLast(rows, ids[1..], id);
    }
  }

  /** An add goes by the order asked for: each id taken follows those taken before it. */
  lemma AcceptedLast(
    tracks: map<string, nat>, rows: seq<Row>, ids: seq<string>, id: string, allowDuplicates: bool)
    ensures Accepted(tracks, rows, [], allowDuplicates) == []
    ensures Accepted(tracks, rows, ids + [id], allowDuplicates) == Accepted(tracks, rows, ids, allowDuplicates)
      + if id in tracks && (allowDuplicates || id !in Tracks(Entries(rows))) then [id] else []
  {
    KnownLast(tracks, ids, id);
    PlaysIs(rows, id);
    if id in tracks {
      NotYetLast(rows, Known(tracks, ids), id);
    } else {
      assert Known(tracks, ids) + [] == Known(tracks, ids);
    }
  }

  /** A remove leaves what stays in the order it was. */
  lemma {:induction false} KeptLast(entries: seq<Entry>, ids: seq<string>, entry: Entry)
    ensures Kept([], ids) == []
    ensures Kept(entries + [entry], ids) == Kept(entries, ids) + if entry.id in ids then [] else [entry]
  {
    if entries == [] {
      assert entries + [entry] == [entry] && [entry][1..] == [];
    } else {
      assert (entries + [entry])[1..] == entries[1..] + [entry];
      KeptLast(entries[1..], ids, entry);
    }
  }
}
