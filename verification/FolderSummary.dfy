/** What each folder holds: the one grouped pass of a folder listing against a
    summary query per subfolder. */
module FolderSummaries {
  import opened Orders
  import opened Text
  import opened FolderRanges
  import opened FolderWalk
  import opened Paging

  /** A row of the `below` query. A duration the database does not know counts 0,
      as it adds nothing to a SUM. */
  datatype Row = Row(rest: string, duration: nat, matched: bool)

  datatype Summary = Summary(directFolders: nat, directTracks: nat, directDuration: nat, totalTracks: nat)

  /** Each track in the folder's range, as its path below the folder and whether
      the filter keeps it. */
  function BelowRows(lib: seq<Track>, folder: string, keeps: Track -> bool): seq<Row> {
    if lib == [] then [] else
      var rest := BelowRows(lib[1..], folder, keeps);
      if InRange(RangeOf(folder), lib[0].path) then
        [Row(Substr(lib[0].path, RangeOf(folder).tailStart), lib[0].duration, keeps(lib[0]))] + rest
      else rest
  }

  /** The rows of the `nested` query grouped under `name`, each with its path below it. */
  function Group(rows: seq<Row>, name: string): seq<Row> {
    if rows == [] then [] else
      var rest := Group(rows[1..], name);
      var row := rows[0];
      if '/' in row.rest && Head(row.rest, '/') == name then [row.(rest := Tail(row.rest, '/'))] + rest else rest
  }

  function Direct(rows: seq<Row>): seq<Row> {
    if rows == [] then [] else
      if '/' in rows[0].rest then Direct(rows[1..]) else [rows[0]] + Direct(rows[1..])
  }

  function Duration(rows: seq<Row>): nat {
    if rows == [] then 0 else rows[0].duration + Duration(rows[1..])
  }

  /** `COUNT(DISTINCT name)`, `GROUP BY name`: the names of the nested rows, each once. */
  function GroupNames(rows: seq<Row>): seq<string> {
    if rows == [] then [] else
      var rest := GroupNames(rows[1..]);
      if '/' !in rows[0].rest || Head(rows[0].rest, '/') in rest then rest else [Head(rows[0].rest, '/')] + rest
  }

  function SummaryOf(rows: seq<Row>): Summary {
    Summary(|GroupNames(rows)|, |Direct(rows)|, Duration(Direct(rows)), |rows|)
  }

  function KeepsAll(): Track -> bool { (t: Track) => true }

  function FolderSummary(lib: seq<Track>, folder: string): Summary {
    SummaryOf(BelowRows(lib, folder, KeepsAll()))
  }

  predicate AnyMatched(rows: seq<Row>) {
    rows != [] && (rows[0].matched || AnyMatched(rows[1..]))
  }

  predicate HoldsTracks(lib: seq<Track>, folder: string, keeps: Track -> bool) {
    AnyMatched(BelowRows(lib, folder, keeps))
  }

  // ----- a group is the subfolder -----

  function RowOf(folder: string, t: Track, keeps: Track -> bool): Row {
    Row(Below(FolderPrefix(folder), t), t.duration, keeps(t))
  }

  lemma RowsCons(lib: seq<Track>, folder: string, keeps: Track -> bool)
    requires lib != []
    ensures BelowRows(lib, folder, keeps)
         == (if Extends(FolderPrefix(folder), lib[0].path) then [RowOf(folder, lib[0], keeps)] else [])
            + BelowRows(lib[1..], folder, keeps)
  {
    RangeIsExact(folder, lib[0].path);
  }

  lemma GroupCons(row: Row, rows: seq<Row>, name: string)
    ensures Group([row] + rows, name)
         == (if '/' in row.rest && Head(row.rest, '/') == name then [row.(rest := Tail(row.rest, '/'))] else [])
            + Group(rows, name)
  {
    assert ([row] + rows)[1..] == rows;
  }

  lemma RowInside(folder: string, name: string, t: Track, keeps: Track -> bool)
    requires Canonical(Below(FolderPrefix(folder), t)) || !Extends(FolderPrefix(folder), t.path)
    requires name != "" && '/' !in name
    ensures var row := RowOf(folder, t, keeps);
      Extends(FolderPrefix(Subfolder(folder, name)), t.path) <==>
        Extends(FolderPrefix(folder), t.path) && '/' in row.rest && Head(row.rest, '/') == name
    ensures Extends(FolderPrefix(Subfolder(folder, name)), t.path) ==>
      RowOf(Subfolder(folder, name), t, keeps)
      == RowOf(folder, t, keeps).(rest := Tail(Below(FolderPrefix(folder), t), '/'))
  {
    InSubfolder(folder, name, t);
    var rest := Below(FolderPrefix(folder), t);
    if Extends(FolderPrefix(folder), t.path) && '/' in rest { CanonicalSplit(rest); }
  }

  /** The rows grouped under a name are the rows the subfolder's own query reads. */
  lemma {:induction false} GroupIsSubfolder(lib: seq<Track>, folder: string, name: string, keeps: Track -> bool)
    requires CanonicalUnder(lib, folder) && name != "" && '/' !in name
    ensures Group(BelowRows(lib, folder, keeps), name) == BelowRows(lib, Subfolder(folder, name), keeps)
  {
    if lib != [] {
      GroupIsSubfolder(lib[1..], folder, name, keeps);
      RowsCons(lib, folder, keeps);
      RowsCons(lib, Subfolder(folder, name), keeps);
      RowInside(folder, name, lib[0], keeps);
      if Extends(FolderPrefix(folder), lib[0].path) {
        GroupCons(RowOf(folder, lib[0], keeps), BelowRows(lib[1..], folder, keeps), name);
      }
    }
  }

  /** Which rows a filter keeps does not touch what a summary counts. */
  lemma {:induction false} SummaryIgnoresFilter(lib: seq<Track>, folder: string, a: Track -> bool, b: Track -> bool)
    ensures SummaryOf(BelowRows(lib, folder, a)) == SummaryOf(BelowRows(lib, folder, b))
    ensures GroupNames(BelowRows(lib, folder, a)) == GroupNames(BelowRows(lib, folder, b))
  {
    if lib != [] {
      SummaryIgnoresFilter(lib[1..], folder, a, b);
      if InRange(RangeOf(folder), lib[0].path) {
        assert BelowRows(lib, folder, a)[1..] == BelowRows(lib[1..], folder, a);
        assert BelowRows(lib, folder, b)[1..] == BelowRows(lib[1..], folder, b);
      }
    }
  }

  lemma GroupSummary(lib: seq<Track>, folder: string, name: string, keeps: Track -> bool)
    requires CanonicalUnder(lib, folder) && name != "" && '/' !in name
    ensures SummaryOf(Group(BelowRows(lib, folder, keeps), name)) == FolderSummary(lib, Subfolder(folder, name))
    ensures AnyMatched(Group(BelowRows(lib, folder, keeps), name)) <==> HoldsTracks(lib, Subfolder(folder, name), keeps)
  {
    GroupIsSubfolder(lib, folder, name, keeps);
    SummaryIgnoresFilter(lib, Subfolder(folder, name), keeps, KeepsAll());
  }

  // ----- the names a listing shows -----

  lemma {:induction false} GroupNamesAre(rows: seq<Row>)
    ensures Distinct(GroupNames(rows))
    ensures forall n :: n in GroupNames(rows) <==> Group(rows, n) != []
  {
    if rows != [] {
      GroupNamesAre(rows[1..]);
    }
  }

  lemma {:induction false} RowsCanonical(lib: seq<Track>, folder: string, keeps: Track -> bool, row: Row)
    requires CanonicalUnder(lib, folder) && row in BelowRows(lib, folder, keeps)
    ensures Canonical(row.rest)
  {
    RangeIsExact(folder, lib[0].path);
    if row in BelowRows(lib[1..], folder, keeps) { RowsCanonical(lib[1..], folder, keeps, row); }
  }

  lemma {:induction false} GroupHas(rows: seq<Row>, name: string) returns (row: Row)
    requires Group(rows, name) != []
    ensures row in rows && '/' in row.rest && Head(row.rest, '/') == name
  {
    if '/' in rows[0].rest && Head(rows[0].rest, '/') == name {
      row := rows[0];
    } else {
      row := GroupHas(rows[1..], name);
    }
  }

  lemma NamedGroup(lib: seq<Track>, folder: string, keeps: Track -> bool, name: string)
    requires CanonicalUnder(lib, folder) && Group(BelowRows(lib, folder, keeps), name) != []
    ensures name != "" && '/' !in name
  {
    var row := GroupHas(BelowRows(lib, folder, keeps), name);
    RowsCanonical(lib, folder, keeps, row);
    CanonicalSplit(row.rest);
  }

  function Kept(rows: seq<Row>, names: seq<string>): seq<string> {
    if names == [] then [] else
      (if AnyMatched(Group(rows, names[0])) then [names[0]] else []) + Kept(rows, names[1..])
  }

  lemma {:induction false} KeptAre(rows: seq<Row>, names: seq<string>)
    requires Distinct(names)
    ensures Distinct(Kept(rows, names))
    ensures forall n :: n in Kept(rows, names) <==> n in names && AnyMatched(Group(rows, n))
  {
    if names != [] {
      assert names == [names[0]] + names[1..];
      KeptAre(rows, names[1..]);
    }
  }

  function Summaries(rows: seq<Row>, names: seq<string>): seq<(string, Summary)> {
    if names == [] then [] else [(names[0], SummaryOf(Group(rows, names[0])))] + Summaries(rows, names[1..])
  }

  /** What the page should be: the names with each subfolder's own summary. */
  function OwnSummaries(lib: seq<Track>, folder: string, names: seq<string>): seq<(string, Summary)> {
    if names == [] then []
    else [(names[0], FolderSummary(lib, Subfolder(folder, names[0])))] + OwnSummaries(lib, folder, names[1..])
  }

  lemma {:induction false} SummariesAgree(lib: seq<Track>, folder: string, keeps: Track -> bool, names: seq<string>)
    requires CanonicalUnder(lib, folder) && forall n :: n in names ==> n != "" && '/' !in n
    ensures Summaries(BelowRows(lib, folder, keeps), names) == OwnSummaries(lib, folder, names)
  {
    if names != [] {
      assert names[0] in names && forall n :: n in names[1..] ==> n in names;
      GroupSummary(lib, folder, names[0], keeps);
      SummariesAgree(lib, folder, keeps, names[1..]);
    }
  }

  lemma {:induction false} HoldsIs(lib: seq<Track>, folder: string, keeps: Track -> bool)
    ensures HoldsTracks(lib, folder, keeps) <==> exists t :: t in lib && keeps(t) && FolderPrefix(folder) < t.path
  {
    if lib != [] {
      HoldsIs(lib[1..], folder, keeps);
      RangeIsExact(folder, lib[0].path);
      assert forall t :: t in lib <==> t == lib[0] || t in lib[1..];
      if InRange(RangeOf(folder), lib[0].path) {
        assert BelowRows(lib, folder, keeps)[1..] == BelowRows(lib[1..], folder, keeps);
      }
    }
  }

  /** The whole listing under a filter: every subfolder holding a track it keeps, by folded
      name, then by the name as it is. */
  ghost predicate AreListed(
    lib: seq<Track>, folder: string, keeps: Track -> bool, fold: string -> string, names: seq<string>)
  {
    && (forall n :: n in names <==>
          n != "" && '/' !in n && exists t :: t in lib && keeps(t) && FolderPrefix(folder) + n + "/" < t.path)
    && (forall i, j :: 0 <= i < j < |names| ==>
          StrLess(fold(names[i]), fold(names[j])) || (fold(names[i]) == fold(names[j]) && StrLess(names[i], names[j])))
  }

  function OrderedKept(lib: seq<Track>, folder: string, keeps: Track -> bool, fold: string -> string): seq<string> {
    var rows := BelowRows(lib, folder, keeps);
    Sort(ByName(fold), Kept(rows, GroupNames(rows)))
  }

  lemma KeptAreListed(lib: seq<Track>, folder: string, keeps: Track -> bool, fold: string -> string)
    requires CanonicalUnder(lib, folder)
    ensures AreListed(lib, folder, keeps, fold, OrderedKept(lib, folder, keeps, fold))
  {
    var rows := BelowRows(lib, folder, keeps);
    var kept := Kept(rows, GroupNames(rows));
    GroupNamesAre(rows);
    KeptAre(rows, GroupNames(rows));
    NamesOrder(fold, Elems(kept));
    SortSorts(ByName(fold), kept);
    SortKeeps(ByName(fold), kept);
    var names := OrderedKept(lib, folder, keeps, fold);
    AscendingIsSorted(ByName(fold), names);
    forall i, j | 0 <= i < j < |names|
      ensures StrLess(fold(names[i]), fold(names[j]))
        || (fold(names[i]) == fold(names[j]) && StrLess(names[i], names[j]))
    {
      assert ByName(fold)(names[i], names[j]);
    }
    forall n
      ensures n in names <==>
        n != "" && '/' !in n && exists t :: t in lib && keeps(t) && FolderPrefix(folder) + n + "/" < t.path
    {
      ListedName(lib, folder, keeps, n);
      if n != "" && '/' !in n {
        SubfolderPrefix(folder, n);
        HoldsIs(lib, Subfolder(folder, n), keeps);
      }
    }
  }

  /** `WHERE matched` */
  function MatchedRows(rows: seq<Row>): seq<Row> {
    if rows == [] then []
    else if rows[0].matched then [rows[0]] + MatchedRows(rows[1..])
    else MatchedRows(rows[1..])
  }

  lemma {:induction false} MatchedGroup(rows: seq<Row>, name: string)
    ensures Group(MatchedRows(rows), name) != [] <==> AnyMatched(Group(rows, name))
  {
    if rows != [] {
      MatchedGroup(rows[1..], name);
      GroupCons(rows[0], rows[1..], name);
      GroupCons(rows[0], MatchedRows(rows[1..]), name);
      assert rows == [rows[0]] + rows[1..];
      if '/' in rows[0].rest && Head(rows[0].rest, '/') == name {
        var below := rows[0].(rest := Tail(rows[0].rest, '/'));
        assert ([below] + Group(rows[1..], name))[1..] == Group(rows[1..], name);
      }
    }
  }

  /** Counting the names of matched rows counts the groups that hold one: the two queries
      agree on how many subfolders there are. */
  lemma CountsAgree(rows: seq<Row>)
    ensures |GroupNames(MatchedRows(rows))| == |Kept(rows, GroupNames(rows))|
  {
    var counted, kept := GroupNames(MatchedRows(rows)), Kept(rows, GroupNames(rows));
    GroupNamesAre(rows);
    GroupNamesAre(MatchedRows(rows));
    KeptAre(rows, GroupNames(rows));
    forall n ensures n in counted <==> n in kept {
      MatchedGroup(rows, n);
      if Group(rows, n) == [] { assert !AnyMatched(Group(rows, n)); }
    }
    DistinctSize(counted);
    DistinctSize(kept);
    assert Elems(counted) == Elems(kept);
  }

  /** One page of a folder's subfolders, from one grouped pass, and how many there are, from
      a count of the names of matched rows. */
  function SubfolderPage(
    lib: seq<Track>, folder: string, keeps: Track -> bool, fold: string -> string, offset: nat, limit: nat)
    : (seq<(string, Summary)>, nat)
  {
    var rows := BelowRows(lib, folder, keeps);
    (Window(Summaries(rows, OrderedKept(lib, folder, keeps, fold)), offset, limit), |GroupNames(MatchedRows(rows))|)
  }

  function SubfolderPager(lib: seq<Track>, folder: string, keeps: Track -> bool, fold: string -> string)
    : Pager<(string, Summary)>
  {
    (offset: nat, limit: nat) => SubfolderPage(lib, folder, keeps, fold, offset, limit)
  }

  /** The pages are those of the whole listing, each subfolder with the summary its
      own query would give. */
  lemma SubfolderPages(lib: seq<Track>, folder: string, keeps: Track -> bool, fold: string -> string)
    returns (names: seq<string>)
    requires CanonicalUnder(lib, folder)
    ensures AreListed(lib, folder, keeps, fold, names)
    ensures Pages(SubfolderPager(lib, folder, keeps, fold), OwnSummaries(lib, folder, names))
  {
    var rows := BelowRows(lib, folder, keeps);
    names := OrderedKept(lib, folder, keeps, fold);
    KeptAreListed(lib, folder, keeps, fold);
    SortKeeps(ByName(fold), Kept(rows, GroupNames(rows)));
    SummariesAgree(lib, folder, keeps, names);
    SummariesCount(lib, folder, names);
    CountsAgree(rows);
  }

  lemma {:induction false} SummariesCount(lib: seq<Track>, folder: string, names: seq<string>)
    ensures |OwnSummaries(lib, folder, names)| == |names|
  {
    if names != [] { SummariesCount(lib, folder, names[1..]); }
  }

  /** The tracks directly in a folder that a filter keeps, by folded file name, then path. */
  function KeptOwn(lib: seq<Track>, folder: string, keeps: Track -> bool): seq<Track> {
    if lib == [] then []
    else if InRange(RangeOf(folder), lib[0].path) && '/' !in Below(FolderPrefix(folder), lib[0]) && keeps(lib[0]) then
      [lib[0]] + KeptOwn(lib[1..], folder, keeps)
    else KeptOwn(lib[1..], folder, keeps)
  }

  predicate FileBefore(prefix: string, fold: string -> string, a: Track, b: Track) {
    var (x, y) := (fold(Below(prefix, a)), fold(Below(prefix, b)));
    StrLess(x, y) || (x == y && StrLess(a.path, b.path))
  }

  function FolderTracks(lib: seq<Track>, folder: string, keeps: Track -> bool, fold: string -> string): seq<Track> {
    Sort((a, b) => FileBefore(FolderPrefix(folder), fold, a, b), KeptOwn(lib, folder, keeps))
  }

  function TrackPage(
    lib: seq<Track>, folder: string, keeps: Track -> bool, fold: string -> string, offset: nat, limit: nat)
    : (seq<Track>, nat)
  {
    (Window(FolderTracks(lib, folder, keeps, fold), offset, limit), |KeptOwn(lib, folder, keeps)|)
  }

  function TrackPager(lib: seq<Track>, folder: string, keeps: Track -> bool, fold: string -> string): Pager<Track> {
    (offset: nat, limit: nat) => TrackPage(lib, folder, keeps, fold, offset, limit)
  }

  lemma TrackPages(lib: seq<Track>, folder: string, keeps: Track -> bool, fold: string -> string)
    ensures Pages(TrackPager(lib, folder, keeps, fold), FolderTracks(lib, folder, keeps, fold))
  {
    SortKeeps((a, b) => FileBefore(FolderPrefix(folder), fold, a, b), KeptOwn(lib, folder, keeps));
  }

  /** `path` is that of a file called `name` directly in the folder. */
  predicate IsFile(folder: string, name: string, path: string) {
    name != "" && '/' !in name && path == FolderPrefix(folder) + name
  }

  /** The tracks a listing shows: those directly in the folder that the filter keeps; each once,
      by folded file name and then by path, as no two tracks have the same path. */
  ghost predicate AreShown(
    lib: seq<Track>, folder: string, keeps: Track -> bool, fold: string -> string, tracks: seq<Track>)
  {
    && (forall t :: t in tracks <==> t in lib && keeps(t) && exists name :: IsFile(folder, name, t.path))
    && (DistinctPaths(lib) ==> Distinct(tracks))
    && (DistinctPaths(lib) ==>
          forall i, j, a, b | 0 <= i < j < |tracks| && IsFile(folder, a, tracks[i].path)
                              && IsFile(folder, b, tracks[j].path) ::
            StrLess(fold(a), fold(b)) || (fold(a) == fold(b) && StrLess(tracks[i].path, tracks[j].path)))
  }

  lemma FileIs(folder: string, t: Track)
    ensures InRange(RangeOf(folder), t.path) && '/' !in Below(FolderPrefix(folder), t) <==>
      exists name :: IsFile(folder, name, t.path)
    ensures forall name :: IsFile(folder, name, t.path) ==> Below(FolderPrefix(folder), t) == name
  {
    var prefix := FolderPrefix(folder);
    RangeIsExact(folder, t.path);
    forall name | IsFile(folder, name, t.path)
      ensures Extends(prefix, t.path) && Below(prefix, t) == name
    {
      BelowIs(prefix, name, t);
    }
    if Extends(prefix, t.path) && '/' !in Below(prefix, t) {
      IsBelow(prefix, t);
      assert IsFile(folder, Below(prefix, t), t.path);
    }
  }

  lemma {:induction false} KeptOwnAre(lib: seq<Track>, folder: string, keeps: Track -> bool)
    ensures forall t :: t in KeptOwn(lib, folder, keeps) <==>
      t in lib && keeps(t) && exists name :: IsFile(folder, name, t.path)
    ensures Distinct(lib) ==> Distinct(KeptOwn(lib, folder, keeps))
  {
    if lib != [] {
      assert lib == [lib[0]] + lib[1..];
      FileIs(folder, lib[0]);
      KeptOwnAre(lib[1..], folder, keeps);
      assert Distinct(lib) ==> Distinct(lib[1..]) && lib[0] !in lib[1..];
    }
  }

  /** File names, folded and then by path, are an order on tracks with different paths. */
  lemma FilesOrder(prefix: string, fold: string -> string, lib: seq<Track>, all: set<Track>)
    requires DistinctPaths(lib) && forall t :: t in all ==> t in lib
    ensures IsOrderOn((a, b) => FileBefore(prefix, fold, a, b), all)
  {
    StrLessIsStrictTotal();
    forall x, y | x in all && y in all && x != y
      ensures FileBefore(prefix, fold, x, y) || FileBefore(prefix, fold, y, x)
    {
      if x.path == y.path { PathTells(lib, x, y); }
    }
  }

  lemma FolderTracksAre(lib: seq<Track>, folder: string, keeps: Track -> bool, fold: string -> string)
    ensures AreShown(lib, folder, keeps, fold, FolderTracks(lib, folder, keeps, fold))
  {
    var own, tracks := KeptOwn(lib, folder, keeps), FolderTracks(lib, folder, keeps, fold);
    var less := (a, b) => FileBefore(FolderPrefix(folder), fold, a, b);
    KeptOwnAre(lib, folder, keeps);
    SortKeeps(less, own);
    if DistinctPaths(lib) {
      DistinctTracks(lib);
      FilesOrder(FolderPrefix(folder), fold, lib, Elems(own));
      SortSorts(less, own);
      AscendingIsSorted(less, tracks);
      forall i, j | 0 <= i < j < |tracks| ensures tracks[i] != tracks[j] {
        assert less(tracks[i], tracks[j]) && tracks[i] in Elems(own);
      }
      forall i, j, a, b | 0 <= i < j < |tracks| && IsFile(folder, a, tracks[i].path)
                          && IsFile(folder, b, tracks[j].path)
        ensures StrLess(fold(a), fold(b)) || (fold(a) == fold(b) && StrLess(tracks[i].path, tracks[j].path))
      {
        FileIs(folder, tracks[i]);
        FileIs(folder, tracks[j]);
        assert less(tracks[i], tracks[j]);
      }
    }
  }

  function FolderListing(
    lib: seq<Track>, folder: string, keeps: Track -> bool, fold: string -> string, offset: nat, limit: nat)
    : (seq<Entry<(string, Summary), Track>>, nat)
  {
    var (folders, tracks, total) := ConcatenatedPages(
      SubfolderPager(lib, folder, keeps, fold), TrackPager(lib, folder, keeps, fold), offset, limit);
    (Shown(folders, tracks), total)
  }

  /** A folder listing pages as one list: every subfolder holding a kept track, with its own
      summary, then every kept track of its own, each shown once however the list is cut. */
  lemma FolderListingPages(lib: seq<Track>, folder: string, keeps: Track -> bool, fold: string -> string)
    returns (names: seq<string>, tracks: seq<Track>)
    requires CanonicalUnder(lib, folder)
    ensures AreListed(lib, folder, keeps, fold, names) && AreShown(lib, folder, keeps, fold, tracks)
    ensures Pages((offset: nat, limit: nat) => FolderListing(lib, folder, keeps, fold, offset, limit),
                  Shown(OwnSummaries(lib, folder, names), tracks))
  {
    names := SubfolderPages(lib, folder, keeps, fold);
    tracks := FolderTracks(lib, folder, keeps, fold);
    FolderTracksAre(lib, folder, keeps, fold);
    TrackPages(lib, folder, keeps, fold);
    hide AreListed, AreShown, FolderTracks, CanonicalUnder;
    forall offset: nat, limit: nat
      ensures FolderListing(lib, folder, keeps, fold, offset, limit)
           == (Window(Shown(OwnSummaries(lib, folder, names), tracks), offset, limit),
               |Shown(OwnSummaries(lib, folder, names), tracks)|)
    {
      PagesAsOne(SubfolderPager(lib, folder, keeps, fold), TrackPager(lib, folder, keeps, fold),
                 OwnSummaries(lib, folder, names), tracks, offset, limit);
    }
  }

  lemma ListedName(lib: seq<Track>, folder: string, keeps: Track -> bool, name: string)
    requires CanonicalUnder(lib, folder)
    ensures AnyMatched(Group(BelowRows(lib, folder, keeps), name)) <==>
      name != "" && '/' !in name && HoldsTracks(lib, Subfolder(folder, name), keeps)
    ensures AnyMatched(Group(BelowRows(lib, folder, keeps), name)) ==> name in GroupNames(BelowRows(lib, folder, keeps))
  {
    var rows := BelowRows(lib, folder, keeps);
    if AnyMatched(Group(rows, name)) { NamedGroup(lib, folder, keeps, name); }
    if name != "" && '/' !in name { GroupSummary(lib, folder, name, keeps); }
    GroupNamesAre(rows);
  }

  // ----- what a summary counts -----

  /** `Extends` the prefix, and directly so. */
  predicate Inside(folder: string, t: Track) { FolderPrefix(folder) < t.path }

  predicate DirectlyInside(folder: string, t: Track) {
    Inside(folder, t) && '/' !in t.path[|FolderPrefix(folder)|..]
  }

  function CountInside(lib: seq<Track>, folder: string): nat {
    if lib == [] then 0 else (if Inside(folder, lib[0]) then 1 else 0) + CountInside(lib[1..], folder)
  }

  function CountDirect(lib: seq<Track>, folder: string): nat {
    if lib == [] then 0 else (if DirectlyInside(folder, lib[0]) then 1 else 0) + CountDirect(lib[1..], folder)
  }

  function PlaysDirect(lib: seq<Track>, folder: string): nat {
    if lib == [] then 0
    else (if DirectlyInside(folder, lib[0]) then lib[0].duration else 0) + PlaysDirect(lib[1..], folder)
  }

  /** A summary's totals are over the tracks in the folder, its direct figures over those
      directly in it. */
  lemma {:induction false} SummaryCounts(lib: seq<Track>, folder: string)
    ensures var summary := FolderSummary(lib, folder);
      && summary.totalTracks == CountInside(lib, folder)
      && summary.directTracks == CountDirect(lib, folder)
      && summary.directDuration == PlaysDirect(lib, folder)
  {
    if lib != [] {
      var prefix := FolderPrefix(folder);
      SummaryCounts(lib[1..], folder);
      RangeIsExact(folder, lib[0].path);
      if prefix < lib[0].path {
        assert lib[0].path == prefix + lib[0].path[|prefix|..];
        SubstrDrops(prefix, lib[0].path[|prefix|..]);
        var row := Row(lib[0].path[|prefix|..], lib[0].duration, true);
        var rest := BelowRows(lib[1..], folder, KeepsAll());
        assert BelowRows(lib, folder, KeepsAll()) == [row] + rest && ([row] + rest)[1..] == rest;
        assert '/' !in row.rest ==> Direct([row] + rest) == [row] + Direct(rest);
        assert ([row] + Direct(rest))[1..] == Direct(rest);
      }
    }
  }

  // ----- conservation -----

  function SumTotals(rows: seq<Row>, names: seq<string>): nat {
    if names == [] then 0 else |Group(rows, names[0])| + SumTotals(rows, names[1..])
  }

  lemma {:induction false} SumStep(rows: seq<Row>, names: seq<string>)
    requires rows != [] && Distinct(names)
    ensures SumTotals(rows, names) == SumTotals(rows[1..], names)
      + (if '/' in rows[0].rest && Head(rows[0].rest, '/') in names then 1 else 0)
  {
    if names != [] {
      assert names == [names[0]] + names[1..];
      SumStep(rows, names[1..]);
    }
  }

  lemma {:induction false} SumNothing(names: seq<string>)
    ensures SumTotals([], names) == 0
  {
    if names != [] { SumNothing(names[1..]); }
  }

  lemma {:induction false} RowsSplit(rows: seq<Row>, names: seq<string>)
    requires Distinct(names) && forall r :: r in rows && '/' in r.rest ==> Head(r.rest, '/') in names
    ensures |rows| == |Direct(rows)| + SumTotals(rows, names)
  {
    if rows == [] {
      SumNothing(names);
    } else {
      assert rows == [rows[0]] + rows[1..];
      SumStep(rows, names);
      RowsSplit(rows[1..], names);
    }
  }

  function SumSubfolders(lib: seq<Track>, folder: string, names: seq<string>): nat {
    if names == [] then 0
    else FolderSummary(lib, Subfolder(folder, names[0])).totalTracks + SumSubfolders(lib, folder, names[1..])
  }

  lemma {:induction false} SumsAgree(lib: seq<Track>, folder: string, names: seq<string>)
    requires CanonicalUnder(lib, folder) && forall n :: n in names ==> n != "" && '/' !in n
    ensures SumTotals(BelowRows(lib, folder, KeepsAll()), names) == SumSubfolders(lib, folder, names)
  {
    if names != [] {
      assert names[0] in names && forall n :: n in names[1..] ==> n in names;
      GroupSummary(lib, folder, names[0], KeepsAll());
      SumsAgree(lib, folder, names[1..]);
    }
  }

  lemma {:induction false} RowNamed(rows: seq<Row>, row: Row)
    requires row in rows && '/' in row.rest
    ensures Head(row.rest, '/') in GroupNames(rows)
  {
    if row != rows[0] {
      assert rows == [rows[0]] + rows[1..];
      RowNamed(rows[1..], row);
    }
  }

  /** Nothing is lost or counted twice: a folder's total is its direct tracks and
      its subfolders' totals, and it shows as many subfolders as it counts. */
  lemma TotalsAddUp(lib: seq<Track>, folder: string, names: seq<string>)
    requires CanonicalUnder(lib, folder) && names == GroupNames(BelowRows(lib, folder, KeepsAll()))
    ensures var whole := FolderSummary(lib, folder);
      whole.totalTracks == whole.directTracks + SumSubfolders(lib, folder, names) && whole.directFolders == |names|
    ensures Distinct(names)
    ensures forall n :: n in names <==> n != "" && '/' !in n && FolderSummary(lib, Subfolder(folder, n)).totalTracks > 0
  {
    var rows := BelowRows(lib, folder, KeepsAll());
    GroupNamesAre(rows);
    forall r | r in rows && '/' in r.rest ensures Head(r.rest, '/') in names { RowNamed(rows, r); }
    RowsSplit(rows, names);
    forall n ensures n in names <==> n != "" && '/' !in n && FolderSummary(lib, Subfolder(folder, n)).totalTracks > 0 {
      if Group(rows, n) != [] { NamedGroup(lib, folder, KeepsAll(), n); }
      if n != "" && '/' !in n { GroupSummary(lib, folder, n, KeepsAll()); }
    }
    SumsAgree(lib, folder, names);
  }
}
