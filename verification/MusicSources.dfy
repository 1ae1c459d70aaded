/** Music is configured as sources, local or shared, and again as a plain list of folders for
    older apps; a written list of folders is matched against the local sources. */
module MusicSources {
  import opened Orders
  import opened Text

  datatype Source = Local(id: string, path: string) | Share(id: string, host: string, path: string)

  function Locals(sources: seq<Source>): seq<Source> {
    if sources == [] then []
    else if sources[0].Local? then [sources[0]] + Locals(sources[1..])
    else Locals(sources[1..])
  }

  function Shares(sources: seq<Source>): seq<Source> {
    if sources == [] then []
    else if sources[0].Share? then [sources[0]] + Shares(sources[1..])
    else Shares(sources[1..])
  }

  function Paths(sources: seq<Source>): seq<string> {
    if sources == [] then [] else [sources[0].path] + Paths(sources[1..])
  }

  predicate HasPath(sources: seq<Source>, path: string) {
    sources != [] && (sources[0].path == path || HasPath(sources[1..], path))
  }

  function First(sources: seq<Source>, path: string): Source
    requires HasPath(sources, path)
  {
    if sources[0].path == path then sources[0] else First(sources[1..], path)
  }

  function Minus(sources: seq<Source>, path: string): seq<Source> {
    if sources == [] then []
    else if sources[0].path == path then sources[1..]
    else [sources[0]] + Minus(sources[1..], path)
  }

  /** For each folder the first record still unused that has it, or a new one with the next
      of the new ids. */
  function Matched(unused: seq<Source>, folders: seq<string>, newId: nat -> string, made: nat): seq<Source>
    decreases |folders|
  {
    if folders == [] then []
    else if HasPath(unused, folders[0])
    then [First(unused, folders[0])] + Matched(Minus(unused, folders[0]), folders[1..], newId, made)
    else [Local(newId(made), folders[0])] + Matched(unused, folders[1..], newId, made + 1)
  }

  /** The local places of `sources` taken by `local` in turn, the rest of it at the end. */
  function Placed(sources: seq<Source>, local: seq<Source>): seq<Source> {
    if sources == [] then local
    else if sources[0].Share? then [sources[0]] + Placed(sources[1..], local)
    else if local == [] then Placed(sources[1..], [])
    else [local[0]] + Placed(sources[1..], local[1..])
  }

  function Followed(sources: seq<Source>, folders: seq<string>, newId: nat -> string): seq<Source> {
    Placed(sources, Matched(Locals(sources), folders, newId, 0))
  }

  lemma {:induction false} FirstAt(sources: seq<Source>, path: string, at: nat)
    requires at <= |sources| && forall i :: 0 <= i < at ==> sources[i].path != path
    ensures at < |sources| && sources[at].path == path ==>
      HasPath(sources, path) && First(sources, path) == sources[at]
      && Minus(sources, path) == sources[..at] + sources[at + 1..]
    ensures at == |sources| ==> !HasPath(sources, path)
  {
    if at > 0 {
      FirstAt(sources[1..], path, at - 1);
      if at < |sources| && sources[at].path == path {
        assert sources[..at] + sources[at + 1..] == [sources[0]] + (sources[1..][..at - 1] + sources[1..][at..]);
      }
    }
  }

  lemma MatchStep(local: seq<Source>, unused: seq<Source>, rest: seq<string>, newId: nat -> string, made: nat)
    requires rest != []
    ensures local + Matched(unused, rest, newId, made) ==
      if HasPath(unused, rest[0])
      then (local + [First(unused, rest[0])]) + Matched(Minus(unused, rest[0]), rest[1..], newId, made)
      else (local + [Local(newId(made), rest[0])]) + Matched(unused, rest[1..], newId, made + 1)
  {
    if HasPath(unused, rest[0]) {
      ConcatAssociates(local, [First(unused, rest[0])], Matched(Minus(unused, rest[0]), rest[1..], newId, made));
    } else {
      ConcatAssociates(local, [Local(newId(made), rest[0])], Matched(unused, rest[1..], newId, made + 1));
    }
  }

  method Match(sources: seq<Source>, folders: seq<string>, newId: nat -> string) returns (local: seq<Source>)
    ensures local == Matched(sources, folders, newId, 0)
  {
    var unused, rest, made := sources, folders, 0;
    local := [];
    while rest != []
      invariant local + Matched(unused, rest, newId, made) == Matched(sources, folders, newId, 0)
      decreases |rest|
    {
      hide Matched, HasPath, First, Minus;
      var at := 0;
      while at < |unused| && unused[at].path != rest[0]
        invariant at <= |unused| && forall j :: 0 <= j < at ==> unused[j].path != rest[0]
      {
        at := at + 1;
      }
      FirstAt(unused, rest[0], at);
      MatchStep(local, unused, rest, newId, made);
      if at < |unused| {
        local, unused := local + [unused[at]], unused[..at] + unused[at + 1..];
      } else {
        local, made := local + [Local(newId(made), rest[0])], made + 1;
      }
      rest := rest[1..];
    }
  }

  /** One turn of the loop: what is rebuilt so far and what is still to be placed. */
  lemma PlaceStep(rebuilt: seq<Source>, rest: seq<Source>, local: seq<Source>)
    requires rest != []
    ensures rebuilt + Placed(rest, local) ==
      if rest[0].Share? then (rebuilt + [rest[0]]) + Placed(rest[1..], local)
      else if local == [] then rebuilt + Placed(rest[1..], local)
      else (rebuilt + [local[0]]) + Placed(rest[1..], local[1..])
  {
    if rest[0].Share? {
      ConcatAssociates(rebuilt, [rest[0]], Placed(rest[1..], local));
    } else if local != [] {
      ConcatAssociates(rebuilt, [local[0]], Placed(rest[1..], local[1..]));
    }
  }

  method Place(sources: seq<Source>, local: seq<Source>) returns (rebuilt: seq<Source>)
    ensures rebuilt == Placed(sources, local)
  {
    var rest, unplaced := sources, local;
    rebuilt := [];
    while rest != []
      invariant rebuilt + Placed(rest, unplaced) == Placed(sources, local)
      decreases |rest|
    {
      hide Placed;
      PlaceStep(rebuilt, rest, unplaced);
      if rest[0].Share? {
        rebuilt := rebuilt + [rest[0]];
      } else if unplaced != [] {
        rebuilt, unplaced := rebuilt + [unplaced[0]], unplaced[1..];
      }
      rest := rest[1..];
    }
    rebuilt := rebuilt + unplaced;
  }

  method Following(sources: seq<Source>, folders: seq<string>, newId: nat -> string) returns (rebuilt: seq<Source>)
    ensures rebuilt == Followed(sources, folders, newId)
  {
    var local := Match(Locals(sources), folders, newId);
    rebuilt := Place(sources, local);
  }

  class LocalFilesConfig {
    var musicSources: seq<Source>
    var musicFolders: seq<string>

    constructor (sources: seq<Source>, folders: seq<string>)
      ensures musicSources == sources && musicFolders == folders
    {
      musicSources, musicFolders := sources, folders;
    }

    /** Afterwards the folders are the local sources' either way. */
    method Reconcile(written: seq<string>, newId: nat -> string)
      modifies this
      ensures var asked := exists i :: 0 <= i < |written| && Head(written[i], '.') == "music_folders";
        && musicSources == (if asked then Followed(old(musicSources), old(musicFolders), newId) else old(musicSources))
        && musicFolders == (if asked then old(musicFolders) else Paths(Locals(old(musicSources))))
      ensures musicFolders == Paths(Locals(musicSources))
    {
      var asked := exists i :: 0 <= i < |written| && Head(written[i], '.') == "music_folders";
      if asked {
        PathsFollow(musicSources, musicFolders, newId);
        musicSources := Following(musicSources, musicFolders, newId);
      }
      musicFolders := Paths(Locals(musicSources));
    }
  }

  // ----- what following means -----

  lemma {:induction false} MatchedPaths(unused: seq<Source>, folders: seq<string>, newId: nat -> string, made: nat)
    ensures Paths(Matched(unused, folders, newId, made)) == folders
    decreases |folders|
  {
    if folders != [] {
      var rest := if HasPath(unused, folders[0])
                  then Matched(Minus(unused, folders[0]), folders[1..], newId, made)
                  else Matched(unused, folders[1..], newId, made + 1);
      if HasPath(unused, folders[0]) {
        FirstHasPath(unused, folders[0]);
        MatchedPaths(Minus(unused, folders[0]), folders[1..], newId, made);
      } else {
        MatchedPaths(unused, folders[1..], newId, made + 1);
      }
      assert Matched(unused, folders, newId, made)[1..] == rest;
    }
  }

  lemma {:induction false} FirstHasPath(sources: seq<Source>, path: string)
    requires HasPath(sources, path)
    ensures First(sources, path).path == path && First(sources, path) in sources
  {
    if sources[0].path != path { FirstHasPath(sources[1..], path); }
  }

  predicate AllLocal(sources: seq<Source>) { sources != [] ==> sources[0].Local? && AllLocal(sources[1..]) }

  lemma {:induction false} LocalsAreLocal(sources: seq<Source>)
    ensures AllLocal(Locals(sources))
  {
    if sources != [] {
      LocalsAreLocal(sources[1..]);
      if sources[0].Local? { assert Locals(sources)[1..] == Locals(sources[1..]); }
    }
  }

  lemma {:induction false} MinusLocal(sources: seq<Source>, path: string)
    requires AllLocal(sources)
    ensures AllLocal(Minus(sources, path)) && (HasPath(sources, path) ==> First(sources, path).Local?)
  {
    if sources != [] && sources[0].path != path {
      MinusLocal(sources[1..], path);
      assert Minus(sources, path)[1..] == Minus(sources[1..], path);
    }
  }

  lemma {:induction false} MatchedLocal(unused: seq<Source>, folders: seq<string>, newId: nat -> string, made: nat)
    requires AllLocal(unused)
    ensures AllLocal(Matched(unused, folders, newId, made))
    decreases |folders|
  {
    if folders != [] {
      if HasPath(unused, folders[0]) {
        MinusLocal(unused, folders[0]);
        MatchedLocal(Minus(unused, folders[0]), folders[1..], newId, made);
        assert Matched(unused, folders, newId, made)[1..]
            == Matched(Minus(unused, folders[0]), folders[1..], newId, made);
      } else {
        MatchedLocal(unused, folders[1..], newId, made + 1);
        assert Matched(unused, folders, newId, made)[1..] == Matched(unused, folders[1..], newId, made + 1);
      }
    }
  }

  lemma {:induction false} LocalsOfLocal(sources: seq<Source>)
    requires AllLocal(sources)
    ensures Locals(sources) == sources && Shares(sources) == []
  {
    if sources != [] {
      LocalsOfLocal(sources[1..]);
      assert sources == [sources[0]] + sources[1..];
    }
  }

  /** Placing puts in every local record, in order, and leaves every share, in order. */
  lemma {:induction false} PlacedParts(sources: seq<Source>, local: seq<Source>)
    requires AllLocal(local)
    ensures Locals(Placed(sources, local)) == local && Shares(Placed(sources, local)) == Shares(sources)
    decreases |sources|
  {
    if sources == [] {
      LocalsOfLocal(local);
    } else if sources[0].Share? {
      PlacedParts(sources[1..], local);
      assert Placed(sources, local)[1..] == Placed(sources[1..], local);
    } else if local == [] {
      PlacedParts(sources[1..], []);
    } else {
      PlacedParts(sources[1..], local[1..]);
      assert Placed(sources, local)[1..] == Placed(sources[1..], local[1..]);
      assert local == [local[0]] + local[1..];
    }
  }

  /** The local sources' folders become exactly the list written, and the shares stay. */
  lemma PathsFollow(sources: seq<Source>, folders: seq<string>, newId: nat -> string)
    ensures Paths(Locals(Followed(sources, folders, newId))) == folders
    ensures Shares(Followed(sources, folders, newId)) == Shares(sources)
  {
    LocalsAreLocal(sources);
    MatchedLocal(Locals(sources), folders, newId, 0);
    MatchedPaths(Locals(sources), folders, newId, 0);
    PlacedParts(sources, Matched(Locals(sources), folders, newId, 0));
  }

  /** How many of the first `n` sources are local. */
  function LocalsBefore(sources: seq<Source>, n: nat): nat
    requires n <= |sources|
  {
    if n == 0 then 0 else (if sources[0].Local? then 1 else 0) + LocalsBefore(sources[1..], n - 1)
  }

  function Excess(have: nat, want: nat): nat { if have > want then have - want else 0 }

  lemma {:induction false} SharePlace(sources: seq<Source>, local: seq<Source>, i: nat)
    requires i < |sources| && sources[i].Share?
    ensures LocalsBefore(sources, i) <= i
    ensures var at := i - Excess(LocalsBefore(sources, i), |local|);
      at < |Placed(sources, local)| && Placed(sources, local)[at] == sources[i]
    decreases |sources|
  {
    if i > 0 {
      SharePlace(sources[1..], if sources[0].Local? && local != [] then local[1..] else local, i - 1);
    }
  }

  lemma {:induction false} MatchedLength(unused: seq<Source>, folders: seq<string>, newId: nat -> string, made: nat)
    ensures |Matched(unused, folders, newId, made)| == |folders|
    decreases |folders|
  {
    if folders != [] {
      if HasPath(unused, folders[0]) { MatchedLength(Minus(unused, folders[0]), folders[1..], newId, made); }
      else { MatchedLength(unused, folders[1..], newId, made + 1); }
    }
  }

  /** A share moves up by as many places as local sources before it have gone: not at all
      while there are as many folders as local sources before it. */
  lemma SharesKeepTheirPlaces(sources: seq<Source>, folders: seq<string>, newId: nat -> string, i: nat)
    requires i < |sources| && sources[i].Share?
    ensures LocalsBefore(sources, i) <= i
    ensures var at := i - Excess(LocalsBefore(sources, i), |folders|);
      at < |Followed(sources, folders, newId)| && Followed(sources, folders, newId)[at] == sources[i]
  {
    MatchedLength(Locals(sources), folders, newId, 0);
    SharePlace(sources, Matched(Locals(sources), folders, newId, 0), i);
  }

  // ----- which records are kept -----

  /** The records matching takes over, in order. */
  function Reused(unused: seq<Source>, folders: seq<string>): seq<Source>
    decreases |folders|
  {
    if folders == [] then []
    else if HasPath(unused, folders[0])
    then [First(unused, folders[0])] + Reused(Minus(unused, folders[0]), folders[1..])
    else Reused(unused, folders[1..])
  }

  /** The records it makes. */
  function Made(unused: seq<Source>, folders: seq<string>, newId: nat -> string, made: nat): seq<Source>
    decreases |folders|
  {
    if folders == [] then []
    else if HasPath(unused, folders[0]) then Made(Minus(unused, folders[0]), folders[1..], newId, made)
    else [Local(newId(made), folders[0])] + Made(unused, folders[1..], newId, made + 1)
  }

  function Count(paths: seq<string>, path: string): nat {
    if paths == [] then 0 else (if paths[0] == path then 1 else 0) + Count(paths[1..], path)
  }

  function Min(a: nat, b: nat): nat { if a <= b then a else b }

  lemma {:induction false} MinusIs(sources: seq<Source>, path: string)
    requires HasPath(sources, path)
    ensures multiset(sources) == multiset{First(sources, path)} + multiset(Minus(sources, path))
  {
    assert sources == [sources[0]] + sources[1..];
    if sources[0].path != path { MinusIs(sources[1..], path); }
  }

  lemma {:induction false} MinusCount(sources: seq<Source>, path: string, other: string)
    ensures Count(Paths(Minus(sources, path)), other) ==
      Count(Paths(sources), other) - if other == path && HasPath(sources, path) then 1 else 0
    ensures HasPath(sources, other) <==> Count(Paths(sources), other) > 0
  {
    if sources != [] {
      MinusCount(sources[1..], path, other);
      assert Paths(sources)[1..] == Paths(sources[1..]);
      if sources[0].path != path {
        assert Minus(sources, path)[1..] == Minus(sources[1..], path);
        assert Paths(Minus(sources, path))[1..] == Paths(Minus(sources[1..], path));
      }
    }
  }

  /** Matching uses each old record at most once, and what it does not take over it makes. */
  lemma {:induction false} MatchedParts(unused: seq<Source>, folders: seq<string>, newId: nat -> string, made: nat)
    ensures multiset(Matched(unused, folders, newId, made)) ==
      multiset(Reused(unused, folders)) + multiset(Made(unused, folders, newId, made))
    ensures multiset(Reused(unused, folders)) <= multiset(unused)
    decreases |folders|
  {
    if folders != [] {
      if HasPath(unused, folders[0]) {
        MatchedParts(Minus(unused, folders[0]), folders[1..], newId, made);
        MinusIs(unused, folders[0]);
      } else {
        MatchedParts(unused, folders[1..], newId, made + 1);
      }
    }
  }

  /** For each path as many old records are kept as both lists have of it. */
  lemma {:induction false} ReusedCount(unused: seq<Source>, folders: seq<string>, path: string)
    ensures Count(Paths(Reused(unused, folders)), path) == Min(Count(Paths(unused), path), Count(folders, path))
    decreases |folders|
  {
    if folders != [] {
      MinusCount(unused, folders[0], path);
      if HasPath(unused, folders[0]) {
        var rest := Minus(unused, folders[0]);
        ReusedCount(rest, folders[1..], path);
        FirstHasPath(unused, folders[0]);
        assert Reused(unused, folders)[1..] == Reused(rest, folders[1..]);
        assert Paths(Reused(unused, folders))[1..] == Paths(Reused(rest, folders[1..]));
      } else {
        ReusedCount(unused, folders[1..], path);
      }
    }
  }

  lemma RecordsAreKept(sources: seq<Source>, folders: seq<string>, newId: nat -> string, path: string)
    ensures var kept := Reused(Locals(sources), folders);
      && multiset(Locals(Followed(sources, folders, newId)))
         == multiset(kept) + multiset(Made(Locals(sources), folders, newId, 0))
      && multiset(kept) <= multiset(Locals(sources))
      && Count(Paths(kept), path) == Min(Count(Paths(Locals(sources)), path), Count(folders, path))
  {
    LocalsAreLocal(sources);
    MatchedLocal(Locals(sources), folders, newId, 0);
    PlacedParts(sources, Matched(Locals(sources), folders, newId, 0));
    MatchedParts(Locals(sources), folders, newId, 0);
    ReusedCount(Locals(sources), folders, path);
  }

  // ----- nothing to do -----

  lemma {:induction false} MatchedItself(sources: seq<Source>, newId: nat -> string, made: nat)
    ensures Matched(sources, Paths(sources), newId, made) == sources
    decreases |sources|
  {
    if sources != [] {
      assert Paths(sources)[1..] == Paths(sources[1..]);
      MatchedItself(sources[1..], newId, made);
      assert sources == [sources[0]] + sources[1..];
    }
  }

  lemma {:induction false} PlacedItself(sources: seq<Source>)
    ensures Placed(sources, Locals(sources)) == sources
  {
    if sources != [] {
      PlacedItself(sources[1..]);
      if sources[0].Local? { assert Locals(sources)[1..] == Locals(sources[1..]); }
      assert sources == [sources[0]] + sources[1..];
    }
  }

  /** Folders that already are the local sources' change nothing, ids included. */
  lemma MatchingChangesNothing(sources: seq<Source>, newId: nat -> string)
    ensures Followed(sources, Paths(Locals(sources)), newId) == sources
  {
    MatchedItself(Locals(sources), newId, 0);
    PlacedItself(sources);
  }

  /** So following twice is following once. */
  lemma FollowingTwice(sources: seq<Source>, folders: seq<string>, newId: nat -> string, again: nat -> string)
    ensures Followed(Followed(sources, folders, newId), folders, again) == Followed(sources, folders, newId)
  {
    PathsFollow(sources, folders, newId);
    MatchingChangesNothing(Followed(sources, folders, newId), again);
  }
}
