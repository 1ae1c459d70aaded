/** A folder as a range of `tracks.file_path`. */
module FolderRanges {
  import opened Orders
  import opened Text

  function FolderPrefix(folder: string): string {
    if EndsWith(folder, '/') then folder else folder + "/"
  }

  lemma PrefixEnds(folder: string)
    ensures EndsWith(FolderPrefix(folder), '/')
    ensures FolderPrefix(folder) == Init(FolderPrefix(folder)) + "/"
  {
    EndsWithAppend(folder, "/", '/');
    InitAndLast(FolderPrefix(folder), '/');
  }

  /** `tailStart` counts characters from 1, as SQL's `substr` does. */
  datatype FolderRange = FolderRange(lo: string, hi: string, tailStart: nat)

  function RangeOf(folder: string): FolderRange {
    var prefix := FolderPrefix(folder);
    FolderRange(prefix, Init(prefix) + "0", |prefix| + 1)
  }

  /** SQL's `substr(s, start)` for a start of at least 1. */
  function Substr(s: string, start: nat): string {
    if start <= 1 || s == "" then s else Substr(s[1..], start - 1)
  }

  lemma {:induction false} SubstrDrops(a: string, b: string)
    ensures Substr(a + b, |a| + 1) == b
  {
    if a == "" {
      assert a + b == b;
    } else {
      assert (a + b)[1..] == a[1..] + b;
      SubstrDrops(a[1..], b);
    }
  }

  predicate InRange(r: FolderRange, path: string) {
    StrLess(r.lo, path) && StrLess(path, r.hi)
  }

  /** `path` is `prefix` followed by at least one character. */
  predicate Extends(prefix: string, path: string) {
    path != "" && (prefix != "" ==> prefix[0] == path[0] && Extends(prefix[1..], path[1..]))
  }

  lemma {:induction false} ExtendsIs(prefix: string, path: string)
    ensures Extends(prefix, path) <==> prefix < path
  {
    if prefix != "" && path != "" && prefix[0] == path[0] {
      ExtendsIs(prefix[1..], path[1..]);
      assert prefix == [prefix[0]] + prefix[1..] && path == [prefix[0]] + path[1..];
      if prefix[1..] < path[1..] { assert path[..|prefix|] == [prefix[0]] + path[1..][..|prefix| - 1]; }
      if prefix < path { assert path[1..][..|prefix| - 1] == path[..|prefix|][1..]; }
    }
  }

  lemma {:induction false} ExtensionsBetween(stem: string, path: string)
    ensures StrLess(stem + "/", path) && StrLess(path, stem + "0") <==> Extends(stem + "/", path)
  {
    if stem == "" {
      assert '/' as int + 1 == '0' as int;
      if path != "" {
        assert "/"[1..] == "" && "0"[1..] == "";
        assert LexLess(CharLess, "", path[1..]) <==> path[1..] != "";
        assert !LexLess(CharLess, path[1..], "");
      }
      assert stem + "/" == "/" && stem + "0" == "0";
    } else if path != "" {
      var lo, hi := stem + "/", stem + "0";
      assert lo[1..] == stem[1..] + "/" && hi[1..] == stem[1..] + "0";
      ExtensionsBetween(stem[1..], path[1..]);
    }
  }

  /** The index range holds exactly the paths that strictly extend the folder's
      prefix, the root included, and `tailStart` cuts each down to its remainder. */
  lemma RangeIsExact(folder: string, path: string)
    ensures InRange(RangeOf(folder), path) <==> FolderPrefix(folder) < path
    ensures InRange(RangeOf(folder), path) <==> Extends(FolderPrefix(folder), path)
    ensures InRange(RangeOf(folder), path) ==> Substr(path, RangeOf(folder).tailStart) != ""
    ensures InRange(RangeOf(folder), path) ==>
              path == FolderPrefix(folder) + Substr(path, RangeOf(folder).tailStart)
  {
    var prefix := FolderPrefix(folder);
    var stem := Init(prefix);
    PrefixEnds(folder);
    ExtensionsBetween(stem, path);
    ExtendsIs(prefix, path);
    if prefix < path {
      assert path == prefix + path[|prefix|..];
      SubstrDrops(prefix, path[|prefix|..]);
    }
  }
}
