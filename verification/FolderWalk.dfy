/** The tracks below a folder in the order its listings show them: the recursive,
    limit-bounded walk against "sort everything, take a prefix". */
module FolderWalk {
  import opened Orders
  import opened Text
  import opened FolderRanges

  datatype Track = Track(id: string, path: string, duration: nat)

  // ----- the order of a listing -----

  /** One step of a listing key: subfolders (0) before own tracks (1), then the
      folded name, then the name as it is. */
  datatype Step = Step(kind: nat, folded: string, name: string)

  predicate StepLess(a: Step, b: Step) {
    || a.kind < b.kind
    || (a.kind == b.kind
        && (StrLess(a.folded, b.folded) || (a.folded == b.folded && StrLess(a.name, b.name))))
  }

  predicate KeyLess(a: seq<Step>, b: seq<Step>) { LexLess(StepLess, a, b) }

  function StepsOf(parts: seq<string>, fold: string -> string): (key: seq<Step>)
    requires parts != []
    ensures key != []
  {
    if |parts| == 1 then [Step(1, fold(parts[0]), parts[0])]
    else [Step(0, fold(parts[0]), parts[0])] + StepsOf(parts[1..], fold)
  }

  function ListingOrder(rest: string, fold: string -> string): seq<Step> {
    StepsOf(Split(rest, '/'), fold)
  }

  function NameStep(name: string, fold: string -> string): Step { Step(0, fold(name), name) }

  predicate NameLess(fold: string -> string, a: string, b: string) {
    StepLess(NameStep(a, fold), NameStep(b, fold))
  }

  lemma StepLessIsStrictTotal()
    ensures StrictTotal(StepLess)
  {
    StrLessIsStrictTotal();
    forall a, b, c | StepLess(a, b) && StepLess(b, c) ensures StepLess(a, c) {
      assert StrLess(a.folded, b.folded) && StrLess(b.folded, c.folded) ==> StrLess(a.folded, c.folded);
      assert StrLess(a.name, b.name) && StrLess(b.name, c.name) ==> StrLess(a.name, c.name);
    }
    forall a, b | a != b ensures StepLess(a, b) || StepLess(b, a) {
      assert a.folded != b.folded ==> StrLess(a.folded, b.folded) || StrLess(b.folded, a.folded);
      assert a.name != b.name ==> StrLess(a.name, b.name) || StrLess(b.name, a.name);
    }
    forall a ensures !StepLess(a, a) {
      assert !StrLess(a.folded, a.folded) && !StrLess(a.name, a.name);
    }
  }

  lemma {:induction false} KeyDetermines(a: string, b: string, fold: string -> string)
    requires ListingOrder(a, fold) == ListingOrder(b, fold)
    ensures a == b
    decreases |a|
  {
    var ka, kb := ListingOrder(a, fold), ListingOrder(b, fold);
    assert ka[0] == kb[0];
    if '/' in a {
      assert '/' in b;
      HeadTail(a, '/');
      HeadTail(b, '/');
      assert ka[1..] == ListingOrder(Tail(a, '/'), fold);
      assert kb[1..] == ListingOrder(Tail(b, '/'), fold);
      KeyDetermines(Tail(a, '/'), Tail(b, '/'), fold);
    }
  }

  /** How the listing of the folder with this prefix compares two tracks in it. */
  predicate TrackLess(prefix: string, fold: string -> string, a: Track, b: Track) {
    KeyLess(ListingOrder(Below(prefix, a), fold), ListingOrder(Below(prefix, b), fold))
  }

  function Below(prefix: string, t: Track): string { Substr(t.path, |prefix| + 1) }

  function ListingLess(prefix: string, fold: string -> string): (Track, Track) -> bool {
    (a, b) => TrackLess(prefix, fold, a, b)
  }

  /** `a` comes before `b` by folded name, or by the name as it is where they fold alike. */
  predicate NamedBefore(fold: string -> string, a: string, b: string) {
    StrLess(fold(a), fold(b)) || (fold(a) == fold(b) && StrLess(a, b))
  }

  /** How a listing orders two paths below its folder: everything in subfolders before the
      folder's own files; subfolders, and files, by name; and within one subfolder as that
      subfolder's own listing does. */
  lemma ListingCompares(fold: string -> string, m: string, n: string, x: string, y: string)
    requires '/' !in m && '/' !in n
    ensures var less := (a, b) => KeyLess(ListingOrder(a, fold), ListingOrder(b, fold));
      && less(m + "/" + x, n + "/" + y) == (if m == n then less(x, y) else NamedBefore(fold, m, n))
      && less(m + "/" + x, n) && !less(n, m + "/" + x)
      && less(m, n) == NamedBefore(fold, m, n)
  {
    SplitAppend(m, '/', x);
    SplitAppend(n, '/', y);
    StrLessIsStrictTotal();
    var mx, ny := Split(m + "/" + x, '/'), Split(n + "/" + y, '/');
    assert mx[1..] == Split(x, '/') && ny[1..] == Split(y, '/') && |mx| > 1 && |ny| > 1;
    var kx, ky := ListingOrder(m + "/" + x, fold), ListingOrder(n + "/" + y, fold);
    assert kx[0] == Step(0, fold(m), m) && kx[1..] == ListingOrder(x, fold);
    assert ky[0] == Step(0, fold(n), n) && ky[1..] == ListingOrder(y, fold);
    var km, kn := ListingOrder(m, fold), ListingOrder(n, fold);
    assert km == [Step(1, fold(m), m)] && kn == [Step(1, fold(n), n)] && km[1..] == [] && kn[1..] == [];
    assert !KeyLess(km[1..], kn[1..]);
    assert !StrLess(fold(m), fold(m)) && !StrLess(m, m);
  }

  // ----- what the queries read -----

  function Paths(lib: seq<Track>): seq<string> {
    if lib == [] then [] else [lib[0].path] + Paths(lib[1..])
  }

  predicate DistinctPaths(lib: seq<Track>) {
    lib != [] ==> lib[0].path !in Paths(lib[1..]) && DistinctPaths(lib[1..])
  }

  lemma {:induction false} PathsHold(lib: seq<Track>, t: Track)
    requires t in lib
    ensures t.path in Paths(lib)
  {
    assert lib == [lib[0]] + lib[1..];
    if t != lib[0] { PathsHold(lib[1..], t); }
  }

  lemma {:induction false} PathTells(lib: seq<Track>, x: Track, y: Track)
    requires DistinctPaths(lib) && x in lib && y in lib && x.path == y.path
    ensures x == y
  {
    assert lib == [lib[0]] + lib[1..];
    if x in lib[1..] { PathsHold(lib[1..], x); }
    if y in lib[1..] { PathsHold(lib[1..], y); }
    if x != lib[0] && y != lib[0] { PathTells(lib[1..], x, y); }
  }

  lemma {:induction false} DistinctTracks(lib: seq<Track>)
    requires DistinctPaths(lib)
    ensures Distinct(lib)
  {
    if lib != [] {
      DistinctTracks(lib[1..]);
      if lib[0] in lib[1..] { PathsHold(lib[1..], lib[0]); }
      assert lib == [lib[0]] + lib[1..];
    }
  }

  /** The range query: every track below the folder, in table order. */
  function Under(lib: seq<Track>, folder: string): seq<Track> {
    if lib == [] then []
    else if InRange(RangeOf(folder), lib[0].path) then [lib[0]] + Under(lib[1..], folder)
    else Under(lib[1..], folder)
  }

  /** The same, for the tracks directly in the folder. */
  function Own(lib: seq<Track>, folder: string): seq<Track> {
    if lib == [] then []
    else if InRange(RangeOf(folder), lib[0].path) && '/' !in Below(FolderPrefix(folder), lib[0]) then
      [lib[0]] + Own(lib[1..], folder)
    else Own(lib[1..], folder)
  }

  lemma {:induction false} UnderIs(lib: seq<Track>, folder: string)
    ensures forall t :: t in Under(lib, folder) <==> t in lib && Extends(FolderPrefix(folder), t.path)
    ensures Distinct(lib) ==> Distinct(Under(lib, folder))
  {
    if lib != [] {
      assert lib == [lib[0]] + lib[1..];
      RangeIsExact(folder, lib[0].path);
      UnderIs(lib[1..], folder);
      assert Distinct(lib) ==> Distinct(lib[1..]) && lib[0] !in lib[1..];
    }
  }

  lemma {:induction false} OwnIs(lib: seq<Track>, folder: string)
    ensures forall t :: t in Own(lib, folder) <==>
      t in lib && Extends(FolderPrefix(folder), t.path) && '/' !in Below(FolderPrefix(folder), t)
    ensures Distinct(lib) ==> Distinct(Own(lib, folder))
  {
    if lib != [] {
      assert lib == [lib[0]] + lib[1..];
      RangeIsExact(folder, lib[0].path);
      OwnIs(lib[1..], folder);
      assert Distinct(lib) ==> Distinct(lib[1..]) && lib[0] !in lib[1..];
    }
  }

  lemma ListingHolds(lib: seq<Track>, folder: string, fold: string -> string, rows: seq<Track>)
    requires IsListing(lib, folder, fold, rows)
    ensures forall t :: t in rows <==> t in lib && Extends(FolderPrefix(folder), t.path)
  {
    UnderIs(lib, folder);
    forall t ensures t in rows <==> t in Under(lib, folder) {
      assert t in rows <==> t in Elems(rows);
      assert t in Under(lib, folder) <==> t in Elems(Under(lib, folder));
    }
  }

  /** No empty segment in what is left of a path below the folder. */
  predicate Canonical(rest: string)
    decreases |rest|
  {
    if '/' in rest then Head(rest, '/') != "" && Canonical(Tail(rest, '/')) else rest != ""
  }

  lemma {:induction false} CanonicalIs(rest: string)
    ensures Canonical(rest) <==> "" !in Split(rest, '/')
    decreases |rest|
  {
    if '/' in rest {
      CanonicalIs(Tail(rest, '/'));
      assert Split(rest, '/')[0] == Head(rest, '/') && Split(rest, '/')[1..] == Split(Tail(rest, '/'), '/');
      assert "" in Split(rest, '/') <==> Head(rest, '/') == "" || "" in Split(Tail(rest, '/'), '/');
    }
  }

  predicate CanonicalUnder(lib: seq<Track>, folder: string) {
    lib != [] ==>
      && (Extends(FolderPrefix(folder), lib[0].path) ==> Canonical(Below(FolderPrefix(folder), lib[0])))
      && CanonicalUnder(lib[1..], folder)
  }

  lemma {:induction false} CanonicalAt(lib: seq<Track>, folder: string, t: Track)
    requires CanonicalUnder(lib, folder) && t in lib && Extends(FolderPrefix(folder), t.path)
    ensures Canonical(Below(FolderPrefix(folder), t))
  {
    assert lib == [lib[0]] + lib[1..];
    if t != lib[0] { CanonicalAt(lib[1..], folder, t); }
  }

  function Subfolder(folder: string, name: string): string { FolderPrefix(folder) + name }

  lemma SegmentOf(name: string, deeper: string)
    requires '/' !in name
    ensures var rest := name + "/" + deeper; '/' in rest && Head(rest, '/') == name && Tail(rest, '/') == deeper
  {
    HeadTailAppend(name, '/', deeper);
    assert (name + "/" + deeper)[|name|] == '/';
  }

  lemma BelowIs(prefix: string, rest: string, t: Track)
    requires t.path == prefix + rest
    ensures Below(prefix, t) == rest
    ensures Extends(prefix, t.path) <==> rest != ""
  {
    SubstrDrops(prefix, rest);
    ExtendsIs(prefix, t.path);
  }

  lemma IsBelow(prefix: string, t: Track)
    requires Extends(prefix, t.path)
    ensures t.path == prefix + Below(prefix, t) && Below(prefix, t) != ""
  {
    ExtendsIs(prefix, t.path);
    assert t.path == prefix + t.path[|prefix|..];
    BelowIs(prefix, t.path[|prefix|..], t);
  }

  lemma Regroup(prefix: string, name: string, deeper: string)
    ensures prefix + name + "/" + deeper == prefix + (name + "/" + deeper)
  {}

  lemma SubfolderPrefix(folder: string, name: string)
    requires name != "" && '/' !in name
    ensures FolderPrefix(Subfolder(folder, name)) == FolderPrefix(folder) + name + "/"
  {
    EndsWithAppend(FolderPrefix(folder), name, '/');
    if EndsWith(name, '/') { LastIsIn(name, '/'); }
  }

  predicate FirstSegmentIs(rest: string, name: string) {
    '/' in rest && Head(rest, '/') == name && Tail(rest, '/') != ""
  }

  /** A track is inside the subfolder called `name` exactly when the first segment
      of its path below the folder is `name`. */
  lemma InSubfolder(folder: string, name: string, t: Track)
    requires name != "" && '/' !in name
    ensures FolderPrefix(Subfolder(folder, name)) == FolderPrefix(folder) + name + "/"
    ensures Extends(FolderPrefix(Subfolder(folder, name)), t.path) <==>
      Extends(FolderPrefix(folder), t.path) && FirstSegmentIs(Below(FolderPrefix(folder), t), name)
    ensures Extends(FolderPrefix(Subfolder(folder, name)), t.path) ==>
      Below(FolderPrefix(Subfolder(folder, name)), t) == Tail(Below(FolderPrefix(folder), t), '/')
  {
    SubfolderPrefix(folder, name);
    var prefix := FolderPrefix(folder);
    var inner, rest := prefix + name + "/", Below(prefix, t);
    if Extends(inner, t.path) {
      IsBelow(inner, t);
      Regroup(prefix, name, Below(inner, t));
      BelowIs(prefix, name + "/" + Below(inner, t), t);
      SegmentOf(name, Below(inner, t));
    }
    if Extends(prefix, t.path) && FirstSegmentIs(rest, name) {
      IsBelow(prefix, t);
      HeadTail(rest, '/');
      Regroup(prefix, name, Tail(rest, '/'));
      BelowIs(inner, Tail(rest, '/'), t);
    }
  }

  lemma CanonicalSplit(rest: string)
    requires Canonical(rest) && '/' in rest
    ensures Head(rest, '/') != "" && '/' !in Head(rest, '/')
    ensures Tail(rest, '/') != "" && Canonical(Tail(rest, '/'))
  {
    HeadTail(rest, '/');
    assert Canonical(Tail(rest, '/'));
  }

  lemma {:induction false} CanonicalInside(lib: seq<Track>, folder: string, name: string)
    requires CanonicalUnder(lib, folder) && name != "" && '/' !in name
    ensures CanonicalUnder(lib, Subfolder(folder, name))
  {
    if lib != [] {
      CanonicalInside(lib[1..], folder, name);
      InSubfolder(folder, name, lib[0]);
      if Extends(FolderPrefix(Subfolder(folder, name)), lib[0].path) {
        CanonicalSplit(Below(FolderPrefix(folder), lib[0]));
      }
    }
  }

  // ----- the simple form -----

  /** `rows` is everything below the folder, in listing order. */
  ghost predicate IsListing(lib: seq<Track>, folder: string, fold: string -> string, rows: seq<Track>) {
    && Ascending(ListingLess(FolderPrefix(folder), fold), rows)
    && Elems(rows) == Elems(Under(lib, folder))
  }

  lemma ListingOrders(lib: seq<Track>, folder: string, fold: string -> string, all: set<Track>)
    requires DistinctPaths(lib) && forall t :: t in all ==> t in lib && Extends(FolderPrefix(folder), t.path)
    ensures IsOrderOn(ListingLess(FolderPrefix(folder), fold), all)
  {
    var prefix := FolderPrefix(folder);
    var less := ListingLess(prefix, fold);
    StepLessIsStrictTotal();
    forall x | x in all ensures !less(x, x) {
      LexIrreflexive(StepLess, ListingOrder(Below(prefix, x), fold));
    }
    forall x, y, z | x in all && y in all && z in all && less(x, y) && less(y, z) ensures less(x, z) {
      LexTransitive(StepLess, ListingOrder(Below(prefix, x), fold), ListingOrder(Below(prefix, y), fold),
                    ListingOrder(Below(prefix, z), fold));
    }
    forall x, y | x in all && y in all && x != y ensures less(x, y) || less(y, x) {
      KeysDiffer(lib, prefix, fold, x, y);
      LexTotal(StepLess, ListingOrder(Below(prefix, x), fold), ListingOrder(Below(prefix, y), fold));
    }
  }

  lemma KeysDiffer(lib: seq<Track>, prefix: string, fold: string -> string, x: Track, y: Track)
    requires DistinctPaths(lib) && x in lib && y in lib && x != y && Extends(prefix, x.path) && Extends(prefix, y.path)
    ensures ListingOrder(Below(prefix, x), fold) != ListingOrder(Below(prefix, y), fold)
  {
    IsBelow(prefix, x);
    IsBelow(prefix, y);
    if x.path == y.path { PathTells(lib, x, y); }
    if ListingOrder(Below(prefix, x), fold) == ListingOrder(Below(prefix, y), fold) {
      KeyDetermines(Below(prefix, x), Below(prefix, y), fold);
    }
  }

  lemma SortedIsListing(lib: seq<Track>, folder: string, fold: string -> string)
    requires DistinctPaths(lib)
    ensures IsListing(lib, folder, fold, Sort(ListingLess(FolderPrefix(folder), fold), Under(lib, folder)))
  {
    var less := ListingLess(FolderPrefix(folder), fold);
    UnderIs(lib, folder);
    DistinctTracks(lib);
    ListingOrders(lib, folder, fold, Elems(Under(lib, folder)));
    SortSorts(less, Under(lib, folder));
    SortKeeps(less, Under(lib, folder));
  }

  lemma ListingIsUnique(lib: seq<Track>, folder: string, fold: string -> string, a: seq<Track>, b: seq<Track>)
    requires DistinctPaths(lib) && IsListing(lib, folder, fold, a) && IsListing(lib, folder, fold, b)
    ensures a == b
  {
    ListingHolds(lib, folder, fold, a);
    ListingOrders(lib, folder, fold, Elems(a));
    AscendingUnique(ListingLess(FolderPrefix(folder), fold), a, b);
  }

  /** The one arrangement of a folder's whole subtree in listing order. */
  ghost function Listing(lib: seq<Track>, folder: string, fold: string -> string): seq<Track>
    requires DistinctPaths(lib)
  {
    SortedIsListing(lib, folder, fold);
    var rows :| IsListing(lib, folder, fold, rows);
    rows
  }

  /** The ids of the first `n` rows. */
  function FirstIds(rows: seq<Track>, n: nat): seq<string> {
    if n == 0 || rows == [] then [] else [rows[0].id] + FirstIds(rows[1..], n - 1)
  }

  lemma {:induction false} FirstIdsAre(rows: seq<Track>, n: nat)
    ensures |FirstIds(rows, n)| == if n <= |rows| then n else |rows|
    ensures forall i :: 0 <= i < |FirstIds(rows, n)| ==> FirstIds(rows, n)[i] == rows[i].id
  {
    if n > 0 && rows != [] { FirstIdsAre(rows[1..], n - 1); }
  }

  lemma {:induction false} FirstIdsAppend(a: seq<Track>, b: seq<Track>, n: nat)
    ensures |FirstIds(a, n)| <= n
    ensures FirstIds(a + b, n) == FirstIds(a, n) + FirstIds(b, n - |FirstIds(a, n)|)
    decreases n
  {
    if a == [] {
      assert a + b == b;
      assert FirstIds(a, n) == [] && n - 0 == n;
    } else if n > 0 {
      var first, more := [a[0].id], FirstIds(a[1..], n - 1);
      FirstIdsAppend(a[1..], b, n - 1);
      assert (a + b)[1..] == a[1..] + b && (a + b)[0] == a[0];
      assert FirstIds(a + b, n) == first + (more + FirstIds(b, n - 1 - |more|));
      ConcatAssociates(first, more, FirstIds(b, n - 1 - |more|));
      assert FirstIds(a, n) == first + more;
    }
  }

  // ----- the listing is its subfolders' listings, then its own tracks -----

  predicate InNamed(lib: seq<Track>, folder: string, name: string, t: Track) {
    && t in lib && Extends(FolderPrefix(folder), t.path)
    && '/' in Below(FolderPrefix(folder), t) && Head(Below(FolderPrefix(folder), t), '/') == name
  }

  function ByName(fold: string -> string): (string, string) -> bool {
    (a, b) => NameLess(fold, a, b)
  }

  /** The folder's direct subfolders, each once, as the listing orders them. */
  ghost predicate AreSubfolders(lib: seq<Track>, folder: string, fold: string -> string, names: seq<string>) {
    Ascending(ByName(fold), names) && Elems(names) == SubfolderSet(lib, folder)
  }

  function SubfolderSet(lib: seq<Track>, folder: string): set<string> {
    if lib == [] then {} else
      var rest := Below(FolderPrefix(folder), lib[0]);
      (if Extends(FolderPrefix(folder), lib[0].path) && '/' in rest then {Head(rest, '/')} else {})
      + SubfolderSet(lib[1..], folder)
  }

  lemma {:induction false} SubfolderSetIs(lib: seq<Track>, folder: string, name: string)
    ensures name in SubfolderSet(lib, folder) <==> exists t :: InNamed(lib, folder, name, t)
  {
    if lib != [] {
      assert lib == [lib[0]] + lib[1..];
      SubfolderSetIs(lib[1..], folder, name);
      if t :| InNamed(lib, folder, name, t) {
        assert t == lib[0] || InNamed(lib[1..], folder, name, t);
      }
      if name in SubfolderSet(lib[1..], folder) {
        var t :| InNamed(lib[1..], folder, name, t);
        assert InNamed(lib, folder, name, t);
      } else if name in SubfolderSet(lib, folder) {
        assert InNamed(lib, folder, name, lib[0]);
      }
    }
  }

  lemma SubfolderTrack(lib: seq<Track>, folder: string, fold: string -> string, names: seq<string>, k: nat)
    returns (t: Track)
    requires AreSubfolders(lib, folder, fold, names) && k < |names|
    ensures InNamed(lib, folder, names[k], t)
  {
    assert names[k] in Elems(names);
    SubfolderSetIs(lib, folder, names[k]);
    t :| InNamed(lib, folder, names[k], t);
  }

  /** The tracks directly in the folder, as the listing orders them. */
  ghost predicate AreOwn(lib: seq<Track>, folder: string, fold: string -> string, rows: seq<Track>) {
    && Ascending(ListingLess(FolderPrefix(folder), fold), rows)
    && Elems(rows) == Elems(Own(lib, folder))
  }

  lemma SubfolderName(lib: seq<Track>, folder: string, name: string, t: Track)
    requires CanonicalUnder(lib, folder) && InNamed(lib, folder, name, t)
    ensures name != "" && '/' !in name && Tail(Below(FolderPrefix(folder), t), '/') != ""
  {
    CanonicalAt(lib, folder, t);
    CanonicalSplit(Below(FolderPrefix(folder), t));
  }

  /** The tracks listed under a subfolder are those the folder files under its name. */
  lemma ListedUnder(lib: seq<Track>, folder: string, name: string, fold: string -> string, rows: seq<Track>)
    requires CanonicalUnder(lib, folder) && name != "" && '/' !in name
    requires IsListing(lib, Subfolder(folder, name), fold, rows)
    ensures forall t :: t in rows <==> InNamed(lib, folder, name, t)
    ensures forall t :: t in rows ==>
      Below(FolderPrefix(Subfolder(folder, name)), t) == Tail(Below(FolderPrefix(folder), t), '/')
  {
    ListingHolds(lib, Subfolder(folder, name), fold, rows);
    forall t
      ensures t in rows <==> InNamed(lib, folder, name, t)
      ensures t in rows ==> Below(FolderPrefix(Subfolder(folder, name)), t) == Tail(Below(FolderPrefix(folder), t), '/')
    {
      InSubfolder(folder, name, t);
      if InNamed(lib, folder, name, t) { SubfolderName(lib, folder, name, t); }
    }
  }

  /** The key of a nested track starts with its subfolder's name step. */
  lemma NestedKey(rest: string, fold: string -> string)
    requires '/' in rest
    ensures ListingOrder(rest, fold) == [NameStep(Head(rest, '/'), fold)] + ListingOrder(Tail(rest, '/'), fold)
  {}

  lemma LexAfterSame(step: Step, a: seq<Step>, b: seq<Step>)
    requires KeyLess(a, b)
    ensures KeyLess([step] + a, [step] + b)
  {
    assert ([step] + a)[1..] == a && ([step] + b)[1..] == b;
  }

  lemma AscendingInParent(lib: seq<Track>, folder: string, name: string, fold: string -> string, rows: seq<Track>)
    requires CanonicalUnder(lib, folder) && name != "" && '/' !in name
    requires IsListing(lib, Subfolder(folder, name), fold, rows)
    ensures Ascending(ListingLess(FolderPrefix(folder), fold), rows)
  {
    var prefix, inner := FolderPrefix(folder), FolderPrefix(Subfolder(folder, name));
    AscendingIsSorted(ListingLess(inner, fold), rows);
    ListedUnder(lib, folder, name, fold, rows);
    forall i, j | 0 <= i < j < |rows| ensures ListingLess(prefix, fold)(rows[i], rows[j]) {
      assert ListingLess(inner, fold)(rows[i], rows[j]);
      assert InNamed(lib, folder, name, rows[i]) && InNamed(lib, folder, name, rows[j]);
      NestedKey(Below(prefix, rows[i]), fold);
      NestedKey(Below(prefix, rows[j]), fold);
      LexAfterSame(NameStep(name, fold), ListingOrder(Below(inner, rows[i]), fold),
                   ListingOrder(Below(inner, rows[j]), fold));
    }
    AscendingIsSorted(ListingLess(prefix, fold), rows);
  }

  lemma EarlierSubfolderFirst(prefix: string, fold: string -> string, a: Track, b: Track)
    requires '/' in Below(prefix, a) && '/' in Below(prefix, b)
    requires NameLess(fold, Head(Below(prefix, a), '/'), Head(Below(prefix, b), '/'))
    ensures TrackLess(prefix, fold, a, b)
  {
    NestedKey(Below(prefix, a), fold);
    NestedKey(Below(prefix, b), fold);
  }

  lemma NestedBeforeOwn(prefix: string, fold: string -> string, a: Track, b: Track)
    requires '/' in Below(prefix, a) && '/' !in Below(prefix, b)
    ensures TrackLess(prefix, fold, a, b)
  {
    NestedKey(Below(prefix, a), fold);
    assert ListingOrder(Below(prefix, b), fold)[0].kind == 1;
  }

  /** The first `i` of `lists`, one after the other. */
  function Chain(lists: seq<seq<Track>>, i: nat): seq<Track>
    requires i <= |lists|
  {
    if i == 0 then [] else Chain(lists, i - 1) + lists[i - 1]
  }

  lemma {:induction false} ChainHolds(lists: seq<seq<Track>>, i: nat, t: Track)
    requires i <= |lists|
    ensures t in Chain(lists, i) <==> exists k :: 0 <= k < i && t in lists[k]
  {
    if i > 0 { ChainHolds(lists, i - 1, t); }
  }

  lemma {:induction false} ChainAscending(less: (Track, Track) -> bool, lists: seq<seq<Track>>, i: nat)
    requires i <= |lists|
    requires forall k :: 0 <= k < i ==> Ascending(less, lists[k])
    requires forall k, l, a, b :: 0 <= k < l < i && a in lists[k] && b in lists[l] ==> less(a, b)
    ensures Ascending(less, Chain(lists, i))
  {
    if i > 0 {
      ChainAscending(less, lists, i - 1);
      forall a, b | a in Chain(lists, i - 1) && b in lists[i - 1] ensures less(a, b) {
        ChainHolds(lists, i - 1, a);
      }
      AscendingJoin(less, Chain(lists, i - 1), lists[i - 1]);
    }
  }

  /** `lists[k]` is the listing of the subfolder `names[k]`. */
  ghost predicate AreListings(
    lib: seq<Track>, folder: string, fold: string -> string, names: seq<string>, lists: seq<seq<Track>>)
  {
    |lists| == |names| && forall k :: 0 <= k < |names| ==> IsListing(lib, Subfolder(folder, names[k]), fold, lists[k])
  }

  lemma SubfoldersNamed(lib: seq<Track>, folder: string, fold: string -> string, names: seq<string>)
    requires CanonicalUnder(lib, folder) && AreSubfolders(lib, folder, fold, names)
    ensures forall k :: 0 <= k < |names| ==> names[k] != "" && '/' !in names[k]
    ensures forall k, l :: 0 <= k < l < |names| ==> NameLess(fold, names[k], names[l])
  {
    forall k | 0 <= k < |names| ensures names[k] != "" && '/' !in names[k] {
      var t := SubfolderTrack(lib, folder, fold, names, k);
      SubfolderName(lib, folder, names[k], t);
    }
    AscendingIsSorted(ByName(fold), names);
    forall k, l | 0 <= k < l < |names| ensures NameLess(fold, names[k], names[l]) {
      assert ByName(fold)(names[k], names[l]);
    }
  }

  lemma SubfolderLists(
    lib: seq<Track>, folder: string, fold: string -> string, names: seq<string>, lists: seq<seq<Track>>)
    requires CanonicalUnder(lib, folder) && AreSubfolders(lib, folder, fold, names)
    requires AreListings(lib, folder, fold, names, lists)
    ensures forall k :: 0 <= k < |lists| ==> Ascending(ListingLess(FolderPrefix(folder), fold), lists[k])
    ensures forall k, t :: 0 <= k < |lists| ==> (t in lists[k] <==> InNamed(lib, folder, names[k], t))
  {
    SubfoldersNamed(lib, folder, fold, names);
    forall k | 0 <= k < |lists|
      ensures Ascending(ListingLess(FolderPrefix(folder), fold), lists[k])
      ensures forall t :: t in lists[k] <==> InNamed(lib, folder, names[k], t)
    {
      ListedUnder(lib, folder, names[k], fold, lists[k]);
      AscendingInParent(lib, folder, names[k], fold, lists[k]);
    }
  }

  lemma AllChained(lib: seq<Track>, folder: string, fold: string -> string, names: seq<string>, lists: seq<seq<Track>>)
    requires CanonicalUnder(lib, folder) && AreSubfolders(lib, folder, fold, names)
    requires AreListings(lib, folder, fold, names, lists)
    ensures Ascending(ListingLess(FolderPrefix(folder), fold), Chain(lists, |lists|))
  {
    var less := ListingLess(FolderPrefix(folder), fold);
    SubfoldersNamed(lib, folder, fold, names);
    SubfolderLists(lib, folder, fold, names, lists);
    forall k, l, a, b | 0 <= k < l < |lists| && a in lists[k] && b in lists[l] ensures less(a, b) {
      EarlierSubfolderFirst(FolderPrefix(folder), fold, a, b);
    }
    ChainAscending(less, lists, |lists|);
  }

  lemma AllChainedHolds(
    lib: seq<Track>, folder: string, fold: string -> string, names: seq<string>, lists: seq<seq<Track>>, t: Track)
    requires CanonicalUnder(lib, folder) && AreSubfolders(lib, folder, fold, names)
    requires AreListings(lib, folder, fold, names, lists)
    ensures t in Chain(lists, |lists|) <==>
      t in lib && Extends(FolderPrefix(folder), t.path) && '/' in Below(FolderPrefix(folder), t)
  {
    SubfolderLists(lib, folder, fold, names, lists);
    ChainHolds(lists, |lists|, t);
    var name := Head(Below(FolderPrefix(folder), t), '/');
    if InNamed(lib, folder, name, t) {
      SubfolderSetIs(lib, folder, name);
      assert name in Elems(names);
      var k :| 0 <= k < |names| && names[k] == name;
      assert t in lists[k];
    }
  }

  /** The walk's shape: the subfolders' listings in name order, then the folder's
      own tracks, is the whole subtree in listing order. */
  lemma ListingSplits(lib: seq<Track>, folder: string, fold: string -> string,
                      names: seq<string>, lists: seq<seq<Track>>, own: seq<Track>)
    requires CanonicalUnder(lib, folder)
    requires AreSubfolders(lib, folder, fold, names) && AreListings(lib, folder, fold, names, lists)
    requires AreOwn(lib, folder, fold, own)
    ensures IsListing(lib, folder, fold, Chain(lists, |lists|) + own)
  {
    var prefix := FolderPrefix(folder);
    var less := ListingLess(prefix, fold);
    var chain := Chain(lists, |lists|);
    AllChained(lib, folder, fold, names, lists);
    forall t ensures t in chain <==> t in lib && Extends(prefix, t.path) && '/' in Below(prefix, t) {
      AllChainedHolds(lib, folder, fold, names, lists, t);
    }
    OwnIs(lib, folder);
    forall t ensures t in own <==> t in lib && Extends(prefix, t.path) && '/' !in Below(prefix, t) {
      assert t in Elems(own) <==> t in Elems(Own(lib, folder));
    }
    forall a, b | a in chain && b in own ensures less(a, b) { NestedBeforeOwn(prefix, fold, a, b); }
    AscendingJoin(less, chain, own);
    UnderIs(lib, folder);
    forall t ensures t in Elems(chain + own) <==> t in Elems(Under(lib, folder)) {
      assert t in chain + own <==> t in chain || t in own;
    }
  }

  // ----- the walk -----

  /** The length of the longest path below the folder. */
  function LongestBelow(lib: seq<Track>, folder: string): nat {
    if lib == [] then 0 else
      var n := LongestBelow(lib[1..], folder);
      var rest := Below(FolderPrefix(folder), lib[0]);
      if Extends(FolderPrefix(folder), lib[0].path) && n < |rest| then |rest| else n
  }

  lemma {:induction false} LongestBelowBounds(lib: seq<Track>, folder: string, t: Track)
    requires t in lib && Extends(FolderPrefix(folder), t.path)
    ensures |Below(FolderPrefix(folder), t)| <= LongestBelow(lib, folder)
  {
    if t != lib[0] {
      assert lib == [lib[0]] + lib[1..];
      LongestBelowBounds(lib[1..], folder, t);
    }
  }

  lemma {:induction false} LongestBelowIs(lib: seq<Track>, folder: string) returns (t: Track)
    requires LongestBelow(lib, folder) > 0
    ensures t in lib && Extends(FolderPrefix(folder), t.path)
    ensures |Below(FolderPrefix(folder), t)| == LongestBelow(lib, folder)
  {
    var prefix := FolderPrefix(folder);
    if Extends(prefix, lib[0].path) && |Below(prefix, lib[0])| == LongestBelow(lib, folder) {
      t := lib[0];
    } else {
      t := LongestBelowIs(lib[1..], folder);
    }
  }

  /** What is still to come after `i` subfolders. */
  ghost function Rest(
    lib: seq<Track>, folder: string, fold: string -> string, names: seq<string>, own: seq<Track>, i: nat): seq<Track>
    requires DistinctPaths(lib) && i <= |names|
    decreases |names| - i
  {
    if i == |names| then own
    else Listing(lib, Subfolder(folder, names[i]), fold) + Rest(lib, folder, fold, names, own, i + 1)
  }

  function RestOf(lists: seq<seq<Track>>, own: seq<Track>, i: nat): seq<Track>
    requires i <= |lists|
    decreases |lists| - i
  {
    if i == |lists| then own else lists[i] + RestOf(lists, own, i + 1)
  }

  lemma {:induction false} RestIs(lib: seq<Track>, folder: string, fold: string -> string,
                                  names: seq<string>, own: seq<Track>, lists: seq<seq<Track>>, i: nat)
    requires DistinctPaths(lib) && |lists| == |names| && i <= |names|
    requires forall k :: 0 <= k < |names| ==> lists[k] == Listing(lib, Subfolder(folder, names[k]), fold)
    ensures Rest(lib, folder, fold, names, own, i) == RestOf(lists, own, i)
    decreases |names| - i
  {
    hide DistinctPaths, Listing, Subfolder;
    if i < |names| { RestIs(lib, folder, fold, names, own, lists, i + 1); }
  }

  lemma {:induction false} ChainThenRest(lists: seq<seq<Track>>, own: seq<Track>, i: nat)
    requires i <= |lists|
    ensures Chain(lists, i) + RestOf(lists, own, i) == Chain(lists, |lists|) + own
    decreases |lists| - i
  {
    if i < |lists| {
      ChainThenRest(lists, own, i + 1);
      ConcatAssociates(Chain(lists, i), lists[i], RestOf(lists, own, i + 1));
    }
  }

  /** `ids` with the first rows of `rest` after it, `limit` in all. */
  function Filled(ids: seq<string>, rest: seq<Track>, limit: nat): seq<string>
    requires |ids| <= limit
  {
    ids + FirstIds(rest, limit - |ids|)
  }

  lemma AllFilled(ids: seq<string>, rest: seq<Track>, limit: nat)
    requires |ids| == limit
    ensures Filled(ids, rest, limit) == ids
  {
    assert FirstIds(rest, 0) == [];
  }

  lemma NothingFilled(rest: seq<Track>, limit: nat)
    ensures Filled([], rest, limit) == FirstIds(rest, limit)
  {}

  lemma FilledStep(ids: seq<string>, rows: seq<Track>, rest: seq<Track>, limit: nat)
    requires |ids| <= limit
    ensures |Filled(ids, rows, limit)| <= limit
    ensures Filled(Filled(ids, rows, limit), rest, limit) == Filled(ids, rows + rest, limit)
  {
    var room := limit - |ids|;
    var more := FirstIds(rows, room);
    FirstIdsAppend(rows, rest, room);
    ConcatAssociates(ids, more, FirstIds(rest, room - |more|));
  }

  /** The whole subtree in listing order, taken apart as the walk takes it. */
  lemma WalkPlan(lib: seq<Track>, folder: string, fold: string -> string, names: seq<string>, own: seq<Track>)
    requires DistinctPaths(lib) && CanonicalUnder(lib, folder)
    requires AreSubfolders(lib, folder, fold, names) && AreOwn(lib, folder, fold, own)
    ensures Listing(lib, folder, fold) == Rest(lib, folder, fold, names, own, 0)
  {
    hide AreSubfolders, AreOwn, DistinctPaths, CanonicalUnder;
    var lists := seq(|names|, k requires 0 <= k < |names| => Listing(lib, Subfolder(folder, names[k]), fold));
    ListingSplits(lib, folder, fold, names, lists, own);
    ListingIsUnique(lib, folder, fold, Listing(lib, folder, fold), Chain(lists, |lists|) + own);
    RestIs(lib, folder, fold, names, own, lists, 0);
    ChainThenRest(lists, own, 0);
    assert [] + RestOf(lists, own, 0) == RestOf(lists, own, 0);
  }

  // The queries the walk makes. Each answers with rows of the table; what a query
  // leaves in no particular order is sorted here, as the walk does.

  function OrderedUnder(lib: seq<Track>, folder: string, fold: string -> string): seq<Track> {
    Sort(ListingLess(FolderPrefix(folder), fold), Under(lib, folder))
  }

  lemma OrderedUnderIs(lib: seq<Track>, folder: string, fold: string -> string)
    requires DistinctPaths(lib)
    ensures OrderedUnder(lib, folder, fold) == Listing(lib, folder, fold)
  {
    SortedIsListing(lib, folder, fold);
    ListingIsUnique(lib, folder, fold, OrderedUnder(lib, folder, fold), Listing(lib, folder, fold));
  }

  /** `SELECT DISTINCT` over the first segments of the nested tracks. */
  function DistinctNames(rows: seq<Track>, prefix: string): seq<string> {
    if rows == [] then [] else
      var rest := DistinctNames(rows[1..], prefix);
      var name := Head(Below(prefix, rows[0]), '/');
      if '/' !in Below(prefix, rows[0]) || name in rest then rest else [name] + rest
  }

  lemma {:induction false} DistinctNamesAre(rows: seq<Track>, prefix: string)
    ensures Distinct(DistinctNames(rows, prefix))
    ensures forall n :: n in DistinctNames(rows, prefix) <==>
      exists t :: t in rows && '/' in Below(prefix, t) && Head(Below(prefix, t), '/') == n
  {
    if rows != [] {
      assert rows == [rows[0]] + rows[1..];
      DistinctNamesAre(rows[1..], prefix);
    }
  }

  lemma NamesOrder(fold: string -> string, all: set<string>)
    ensures IsOrderOn(ByName(fold), all)
  {
    var less := ByName(fold);
    StepLessIsStrictTotal();
    forall x, y, z | less(x, y) && less(y, z) ensures less(x, z) {
      assert StepLess(NameStep(x, fold), NameStep(y, fold)) && StepLess(NameStep(y, fold), NameStep(z, fold));
    }
    forall x, y | x != y ensures less(x, y) || less(y, x) { assert NameStep(x, fold) != NameStep(y, fold); }
    forall x ensures !less(x, x) { assert !StepLess(NameStep(x, fold), NameStep(x, fold)); }
  }

  function OrderedSubfolders(lib: seq<Track>, folder: string, fold: string -> string): seq<string> {
    Sort(ByName(fold), DistinctNames(Under(lib, folder), FolderPrefix(folder)))
  }

  lemma OrderedSubfoldersAre(lib: seq<Track>, folder: string, fold: string -> string)
    ensures AreSubfolders(lib, folder, fold, OrderedSubfolders(lib, folder, fold))
  {
    var found, names := DistinctNames(Under(lib, folder), FolderPrefix(folder)), OrderedSubfolders(lib, folder, fold);
    DistinctNamesAre(Under(lib, folder), FolderPrefix(folder));
    UnderIs(lib, folder);
    NamesOrder(fold, Elems(found));
    SortSorts(ByName(fold), found);
    SortKeeps(ByName(fold), found);
    forall name ensures name in Elems(names) <==> name in SubfolderSet(lib, folder) {
      SubfolderSetIs(lib, folder, name);
      if t :| InNamed(lib, folder, name, t) { assert t in Under(lib, folder) && name in found; }
      if name in names {
        var t :| t in Under(lib, folder) && '/' in Below(FolderPrefix(folder), t)
                 && Head(Below(FolderPrefix(folder), t), '/') == name;
        assert InNamed(lib, folder, name, t);
      }
    }
  }

  lemma OwnKeys(a: string, b: string, fold: string -> string)
    requires '/' !in a && '/' !in b
    ensures KeyLess(ListingOrder(a, fold), ListingOrder(b, fold)) <==> NameLess(fold, a, b)
  {
    var ka, kb := ListingOrder(a, fold), ListingOrder(b, fold);
    assert ka == [Step(1, fold(a), a)] && kb == [Step(1, fold(b), b)];
    assert ka[1..] == [] && kb[1..] == [] && !KeyLess(ka[1..], kb[1..]);
  }

  function OwnLess(prefix: string, fold: string -> string): (Track, Track) -> bool {
    (a, b) => OwnBefore(prefix, fold, a, b)
  }

  predicate OwnBefore(prefix: string, fold: string -> string, a: Track, b: Track) {
    NameLess(fold, Below(prefix, a), Below(prefix, b))
  }

  function OrderedOwn(lib: seq<Track>, folder: string, fold: string -> string): seq<Track> {
    Sort(OwnLess(FolderPrefix(folder), fold), Own(lib, folder))
  }

  lemma OwnSorted(lib: seq<Track>, folder: string, fold: string -> string)
    requires DistinctPaths(lib)
    ensures AreOwn(lib, folder, fold, OrderedOwn(lib, folder, fold))
  {
    var prefix := FolderPrefix(folder);
    var own, less := Own(lib, folder), ListingLess(prefix, fold);
    OwnIs(lib, folder);
    DistinctTracks(lib);
    forall a, b | a in own && b in own ensures OwnLess(prefix, fold)(a, b) == less(a, b) {
      OwnKeys(Below(prefix, a), Below(prefix, b), fold);
    }
    SortCongruent(OwnLess(prefix, fold), less, own);
    ListingOrders(lib, folder, fold, Elems(own));
    SortSorts(less, own);
  }

  /** What makes the recursion into a subfolder sound and finite. */
  predicate Deeper(lib: seq<Track>, folder: string, name: string) {
    && CanonicalUnder(lib, Subfolder(folder, name))
    && LongestBelow(lib, Subfolder(folder, name)) < LongestBelow(lib, folder)
  }

  lemma SubfolderDeeper(lib: seq<Track>, folder: string, fold: string -> string, names: seq<string>, i: nat)
    requires CanonicalUnder(lib, folder) && AreSubfolders(lib, folder, fold, names) && i < |names|
    ensures Deeper(lib, folder, names[i])
  {
    var t := SubfolderTrack(lib, folder, fold, names, i);
    SubfolderName(lib, folder, names[i], t);
    CanonicalInside(lib, folder, names[i]);
    if LongestBelow(lib, Subfolder(folder, names[i])) > 0 {
      t := LongestBelowIs(lib, Subfolder(folder, names[i]));
      InSubfolder(folder, names[i], t);
    }
    IsBelow(FolderPrefix(folder), t);
    LongestBelowBounds(lib, folder, t);
  }

  /** The two queries a larger folder is walked with. */
  method WalkQueries(lib: seq<Track>, folder: string, fold: string -> string)
    returns (names: seq<string>, own: seq<Track>)
    requires DistinctPaths(lib)
    ensures AreSubfolders(lib, folder, fold, names) && AreOwn(lib, folder, fold, own)
  {
    names, own := OrderedSubfolders(lib, folder, fold), OrderedOwn(lib, folder, fold);
    OrderedSubfoldersAre(lib, folder, fold);
    OwnSorted(lib, folder, fold);
  }

  /** The walk. `orderedInOne` is the size up to which a folder is sorted in one go. */
  method TrackIdsUnder(lib: seq<Track>, folder: string, limit: nat, fold: string -> string, orderedInOne: nat)
    returns (ids: seq<string>)
    requires DistinctPaths(lib) && CanonicalUnder(lib, folder)
    ensures ids == FirstIds(Listing(lib, folder, fold), limit)
    decreases LongestBelow(lib, folder), 1
  {
    if |Under(lib, folder)| <= orderedInOne {
      OrderedUnderIs(lib, folder, fold);
      return FirstIds(OrderedUnder(lib, folder, fold), limit);
    }
    var names, own := WalkQueries(lib, folder, fold);
    WalkPlan(lib, folder, fold, names, own);
    forall i | 0 <= i < |names| ensures Deeper(lib, folder, names[i]) { SubfolderDeeper(lib, folder, fold, names, i); }
    NothingFilled(Rest(lib, folder, fold, names, own, 0), limit);
    ids := WalkSubfolders(lib, folder, names, own, limit, fold, orderedInOne);
  }

  lemma WalkStep(lib: seq<Track>, folder: string, fold: string -> string, names: seq<string>, own: seq<Track>,
                 i: nat, ids: seq<string>, more: seq<string>, limit: nat)
    requires DistinctPaths(lib) && i < |names| && |ids| <= limit
    requires more == FirstIds(Listing(lib, Subfolder(folder, names[i]), fold), limit - |ids|)
    ensures |ids + more| <= limit
    ensures Filled(ids + more, Rest(lib, folder, fold, names, own, i + 1), limit)
         == Filled(ids, Rest(lib, folder, fold, names, own, i), limit)
  {
    FilledStep(ids, Listing(lib, Subfolder(folder, names[i]), fold), Rest(lib, folder, fold, names, own, i + 1), limit);
  }

  /** The walk of a larger folder: a subfolder at a time, then its own tracks. */
  method WalkSubfolders(lib: seq<Track>, folder: string, names: seq<string>, own: seq<Track>,
                        limit: nat, fold: string -> string, orderedInOne: nat)
    returns (ids: seq<string>)
    requires DistinctPaths(lib) && forall i :: 0 <= i < |names| ==> Deeper(lib, folder, names[i])
    ensures ids == Filled([], Rest(lib, folder, fold, names, own, 0), limit)
    decreases LongestBelow(lib, folder), 0
  {
    hide DistinctPaths, CanonicalUnder, LongestBelow, Subfolder, FirstIds, Under, FolderPrefix;
    ghost var all := Filled([], Rest(lib, folder, fold, names, own, 0), limit);
    ids := [];
    for i := 0 to |names|
      invariant |ids| <= limit && Filled(ids, Rest(lib, folder, fold, names, own, i), limit) == all
    {
      if |ids| >= limit {
        AllFilled(ids, Rest(lib, folder, fold, names, own, i), limit);
        return ids;
      }
      var more := TrackIdsUnder(lib, Subfolder(folder, names[i]), limit - |ids|, fold, orderedInOne);
      WalkStep(lib, folder, fold, names, own, i, ids, more, limit);
      ids := ids + more;
    }
    if |ids| < limit {
      ids := ids + FirstIds(own, limit - |ids|);
    } else {
      AllFilled(ids, own, limit);
    }
  }

  /** Why an empty segment is excluded: its "subfolder" is the folder itself. */
  lemma EmptySegmentIsTheFolder(folder: string)
    ensures RangeOf(Subfolder(folder, "")) == RangeOf(folder)
  {
    assert FolderPrefix(folder) + "" == FolderPrefix(folder);
    PrefixEnds(folder);
  }
}
