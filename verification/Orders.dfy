/** Strict orders on sequences and stable sorting, as Python compares tuples and
    strings and as `sorted` arranges a list. */
module Orders {

  ghost predicate StrictTotal<T(!new)>(lt: (T, T) -> bool) {
    && (forall x :: !lt(x, x))
    && (forall x, y, z :: lt(x, y) && lt(y, z) ==> lt(x, z))
    && (forall x, y :: x != y ==> lt(x, y) || lt(y, x))
  }

  /** Lexicographic order: a proper prefix comes first. */
  predicate LexLess<T(==)>(lt: (T, T) -> bool, a: seq<T>, b: seq<T>) {
    && b != []
    && (a == [] || lt(a[0], b[0]) || (a[0] == b[0] && LexLess(lt, a[1..], b[1..])))
  }

  lemma {:induction false} LexIrreflexive<T(!new)>(lt: (T, T) -> bool, a: seq<T>)
    requires StrictTotal(lt)
    ensures !LexLess(lt, a, a)
  {
    if a != [] { LexIrreflexive(lt, a[1..]); }
  }

  lemma {:induction false} LexTransitive<T(!new)>(lt: (T, T) -> bool, a: seq<T>, b: seq<T>, c: seq<T>)
    requires StrictTotal(lt) && LexLess(lt, a, b) && LexLess(lt, b, c)
    ensures LexLess(lt, a, c)
  {
    if a != [] && a[0] == b[0] && b[0] == c[0] {
      if LexLess(lt, a[1..], b[1..]) && LexLess(lt, b[1..], c[1..]) {
        LexTransitive(lt, a[1..], b[1..], c[1..]);
      }
    }
  }

  lemma {:induction false} LexTotal<T(!new)>(lt: (T, T) -> bool, a: seq<T>, b: seq<T>)
    requires StrictTotal(lt) && a != b
    ensures LexLess(lt, a, b) || LexLess(lt, b, a)
  {
    if a != [] && b != [] && a[0] == b[0] {
      assert a == [a[0]] + a[1..] && b == [b[0]] + b[1..];
      LexTotal(lt, a[1..], b[1..]);
    }
  }

  predicate CharLess(a: char, b: char) { a < b }

  /** Code-point order: what SQLite's BINARY collation and Python's `<` agree on. */
  predicate StrLess(a: string, b: string) { LexLess(CharLess, a, b) }

  lemma StrLessIsStrictTotal()
    ensures StrictTotal(StrLess)
  {
    assert StrictTotal(CharLess);
    forall a ensures !StrLess(a, a) { LexIrreflexive(CharLess, a); }
    forall a, b, c | StrLess(a, b) && StrLess(b, c) ensures StrLess(a, c) {
      LexTransitive(CharLess, a, b, c);
    }
    forall a: string, b: string | a != b ensures StrLess(a, b) || StrLess(b, a) {
      LexTotal(CharLess, a, b);
    }
  }

  /** One string is before another that it begins, or that has the greater character where they
      first differ. */
  lemma {:induction false} StrLessIs(a: string, b: string)
    ensures StrLess(a, b) <==>
      a < b || exists i :: 0 <= i < |a| && i < |b| && a[..i] == b[..i] && a[i] < b[i]
  {
    if a != "" && b != "" && a[0] == b[0] {
      StrLessIs(a[1..], b[1..]);
      assert a == [a[0]] + a[1..] && b == [a[0]] + b[1..];
      if a[1..] < b[1..] { assert a == b[..|a|]; }
      if i :| 0 <= i < |a[1..]| && i < |b[1..]| && a[1..][..i] == b[1..][..i] && a[1..][i] < b[1..][i] {
        assert a[..i + 1] == [a[0]] + a[1..][..i] && b[..i + 1] == [a[0]] + b[1..][..i];
        assert a[i + 1] < b[i + 1];
      }
      if a < b { assert a[1..] == b[1..][..|a| - 1]; }
      if i :| 0 <= i < |a| && i < |b| && a[..i] == b[..i] && a[i] < b[i] {
        assert i > 0;
        assert a[1..][..i - 1] == a[..i][1..] && b[1..][..i - 1] == b[..i][1..];
        assert a[1..][i - 1] < b[1..][i - 1];
      }
    } else if a != "" && b != "" {
      if a[0] < b[0] { assert a[..0] == b[..0]; }
      forall i | 0 < i < |a| && i < |b| ensures a[..i] != b[..i] { assert a[..i][0] != b[..i][0]; }
    }
  }

  // ----- sorting -----

  function Insert<T>(less: (T, T) -> bool, x: T, s: seq<T>): seq<T> {
    if s == [] || !less(s[0], x) then [x] + s else [s[0]] + Insert(less, x, s[1..])
  }

  /** Python's `sorted`: a stable rearrangement. */
  function Sort<T>(less: (T, T) -> bool, s: seq<T>): seq<T> {
    if s == [] then [] else Insert(less, s[0], Sort(less, s[1..]))
  }

  lemma {:induction false} InsertKeeps<T>(less: (T, T) -> bool, x: T, s: seq<T>)
    ensures multiset(Insert(less, x, s)) == multiset(s) + multiset{x}
  {
    if s != [] && less(s[0], x) {
      assert s == [s[0]] + s[1..];
      InsertKeeps(less, x, s[1..]);
    }
  }

  lemma {:induction false} SortKeeps<T>(less: (T, T) -> bool, s: seq<T>)
    ensures multiset(Sort(less, s)) == multiset(s)
    ensures |Sort(less, s)| == |s|
    ensures forall x :: x in Sort(less, s) <==> x in s
  {
    if s != [] {
      assert s == [s[0]] + s[1..];
      SortKeeps(less, s[1..]);
      InsertKeeps(less, s[0], Sort(less, s[1..]));
    }
    assert |multiset(Sort(less, s))| == |Sort(less, s)| && |multiset(s)| == |s|;
    forall x ensures x in Sort(less, s) <==> x in s {
      assert x in Sort(less, s) <==> x in multiset(Sort(less, s));
      assert x in s <==> x in multiset(s);
    }
  }

  ghost predicate Sorted<T>(less: (T, T) -> bool, s: seq<T>) {
    forall i, j :: 0 <= i < j < |s| ==> less(s[i], s[j])
  }

  function Nth<T>(s: seq<T>, i: nat): T
    requires i < |s|
  {
    s[i]
  }

  /** `Sorted`, in a form the verifier consults only where an element is named by `Nth`. */
  ghost predicate Ascending<T>(less: (T, T) -> bool, s: seq<T>) {
    forall i: nat, j: nat {:trigger Nth(s, i), Nth(s, j)} :: i < j < |s| ==> less(Nth(s, i), Nth(s, j))
  }

  lemma AscendingIsSorted<T>(less: (T, T) -> bool, s: seq<T>)
    ensures Ascending(less, s) <==> Sorted(less, s)
  {
    if Ascending(less, s) {
      forall i, j | 0 <= i < j < |s| ensures less(s[i], s[j]) { assert less(Nth(s, i), Nth(s, j)); }
    }
  }

  ghost predicate Distinct<T>(s: seq<T>) {
    forall i, j :: 0 <= i < j < |s| ==> s[i] != s[j]
  }

  /** `less` is a strict order that tells any two different elements of `s` apart. */
  ghost predicate IsOrderOn<T>(less: (T, T) -> bool, s: set<T>) {
    && (forall x :: x in s ==> !less(x, x))
    && (forall x, y, z :: x in s && y in s && z in s && less(x, y) && less(y, z) ==> less(x, z))
    && (forall x, y :: x in s && y in s && x != y ==> less(x, y) || less(y, x))
  }

  function Elems<T(!new)>(s: seq<T>): (r: set<T>)
    ensures forall x :: x in r <==> x in s
  {
    set x | x in s
  }

  lemma {:induction false} InsertSorted<T(!new)>(less: (T, T) -> bool, x: T, s: seq<T>, all: set<T>)
    requires IsOrderOn(less, all) && x in all && Elems(s) <= all && x !in s && Sorted(less, s)
    ensures Sorted(less, Insert(less, x, s))
  {
    if s != [] && less(s[0], x) {
      var t := s[1..];
      forall y | y in t ensures y in s { var k :| 0 <= k < |t| && t[k] == y; assert s[k + 1] == y; }
      InsertSorted(less, x, t, all);
      var r := Insert(less, x, t);
      InsertKeeps(less, x, t);
      forall y | y in r ensures less(s[0], y) {
        assert y in multiset(r);
        if y != x {
          assert y in t;
          var k :| 0 <= k < |t| && t[k] == y;
          assert s[k + 1] == y;
        }
      }
    } else {
      forall y | y in s ensures less(x, y) {
        assert y in all;
        var k :| 0 <= k < |s| && s[k] == y;
        assert s[0] in s;
        assert s[0] in all;
        if k > 0 { assert less(s[0], s[k]); }
      }
    }
  }

  lemma {:induction false} SortSorts<T(!new)>(less: (T, T) -> bool, s: seq<T>)
    requires Distinct(s) && IsOrderOn(less, Elems(s))
    ensures Ascending(less, Sort(less, s))
    ensures Elems(Sort(less, s)) == Elems(s)
  {
    SortKeeps(less, s);
    if s != [] {
      var t := s[1..];
      forall y | y in t ensures y in s { var k :| 0 <= k < |t| && t[k] == y; assert s[k + 1] == y; }
      assert Elems(t) <= Elems(s);
      SortSorts(less, t);
      AscendingIsSorted(less, Sort(less, t));
      InsertSorted(less, s[0], Sort(less, t), Elems(s));
    }
    AscendingIsSorted(less, Sort(less, s));
  }

  lemma {:induction false} DistinctSize<T(!new)>(s: seq<T>)
    requires Distinct(s)
    ensures |Elems(s)| == |s|
  {
    if s != [] {
      assert s == [s[0]] + s[1..] && s[0] !in s[1..];
      DistinctSize(s[1..]);
      assert Elems(s) == Elems(s[1..]) + {s[0]};
    }
  }

  /** A strictly sorted arrangement is determined by what it holds. */
  lemma {:induction false} SortedUnique<T(!new)>(less: (T, T) -> bool, s: seq<T>, t: seq<T>)
    requires Elems(s) == Elems(t) && IsOrderOn(less, Elems(s))
    requires Sorted(less, s) && Sorted(less, t)
    ensures s == t
  {
    assert forall k :: 0 <= k < |s| ==> s[k] in Elems(s);
    assert forall k :: 0 <= k < |t| ==> t[k] in Elems(t);
    if s != [] && t != [] {
      var a, b := s[0], t[0];
      var i :| 0 <= i < |t| && t[i] == a;
      var j :| 0 <= j < |s| && s[j] == b;
      assert i == 0 || less(b, a);
      assert j == 0 || less(a, b);
      TailElems(less, s, Elems(s));
      TailElems(less, t, Elems(s));
      SortedUnique(less, s[1..], t[1..]);
      assert s == [s[0]] + s[1..] && t == [t[0]] + t[1..];
    }
  }

  lemma TailElems<T(!new)>(less: (T, T) -> bool, s: seq<T>, all: set<T>)
    requires s != [] && Elems(s) == all && IsOrderOn(less, all) && Sorted(less, s)
    ensures Elems(s[1..]) == all - {s[0]}
  {
    forall y ensures y in s[1..] <==> y in s && y != s[0] {
      if y in s[1..] {
        var k :| 0 <= k < |s[1..]| && s[1..][k] == y;
        assert s[k + 1] == y && less(s[0], s[k + 1]);
        assert s[0] in all;
      }
      if y in s && y != s[0] {
        var k :| 0 <= k < |s| && s[k] == y;
        assert s[1..][k - 1] == y;
      }
    }
  }

  lemma AscendingUnique<T(!new)>(less: (T, T) -> bool, s: seq<T>, t: seq<T>)
    requires Elems(s) == Elems(t) && IsOrderOn(less, Elems(s))
    requires Ascending(less, s) && Ascending(less, t)
    ensures s == t
  {
    AscendingIsSorted(less, s);
    AscendingIsSorted(less, t);
    SortedUnique(less, s, t);
  }

  lemma AscendingJoin<T(!new)>(less: (T, T) -> bool, s: seq<T>, t: seq<T>)
    requires Ascending(less, s) && Ascending(less, t)
    requires forall x, y :: x in s && y in t ==> less(x, y)
    ensures Ascending(less, s + t)
  {
    AscendingIsSorted(less, s);
    AscendingIsSorted(less, t);
    AscendingIsSorted(less, s + t);
  }

  lemma {:induction false} SortCongruent<T>(less: (T, T) -> bool, other: (T, T) -> bool, s: seq<T>)
    requires forall x, y :: x in s && y in s ==> less(x, y) == other(x, y)
    ensures Sort(less, s) == Sort(other, s)
  {
    if s != [] {
      assert s == [s[0]] + s[1..];
      SortCongruent(less, other, s[1..]);
      SortKeeps(less, s[1..]);
      InsertCongruent(less, other, s[0], Sort(less, s[1..]), multiset(s));
    }
  }

  lemma {:induction false} InsertCongruent<T>(
    less: (T, T) -> bool, other: (T, T) -> bool, x: T, s: seq<T>, all: multiset<T>)
    requires forall y, z :: y in all && z in all ==> less(y, z) == other(y, z)
    requires x in all && multiset(s) <= all
    ensures Insert(less, x, s) == Insert(other, x, s)
  {
    if s != [] {
      assert s == [s[0]] + s[1..];
      assert s[0] in multiset(s);
      InsertCongruent(less, other, x, s[1..], all);
    }
  }

  lemma ConcatAssociates<T>(a: seq<T>, b: seq<T>, c: seq<T>)
    ensures (a + b) + c == a + (b + c)
  {}
}
