/** The few string operations the queries and identifiers use. */
module Text {

  /** What comes before the first `c`: `substr(s, 1, instr(s, c) - 1)`. */
  function Head(s: string, c: char): string {
    if s == "" || s[0] == c then "" else [s[0]] + Head(s[1..], c)
  }

  /** What comes after the first `c`: `substr(s, instr(s, c) + 1)`. */
  function Tail(s: string, c: char): (t: string)
    ensures |t| <= |s| && (s != "" ==> |t| < |s|)
  {
    if s == "" then "" else if s[0] == c then s[1..] else Tail(s[1..], c)
  }

  lemma {:induction false} HeadTail(s: string, c: char)
    requires c in s
    ensures s == Head(s, c) + [c] + Tail(s, c) && c !in Head(s, c)
  {
    assert s == [s[0]] + s[1..];
    if s[0] != c {
      HeadTail(s[1..], c);
      assert Head(s, c) + [c] + Tail(s, c) == [s[0]] + (Head(s[1..], c) + [c] + Tail(s[1..], c));
    }
  }

  lemma {:induction false} HeadTailAppend(a: string, c: char, b: string)
    requires c !in a
    ensures Head(a + [c] + b, c) == a && Tail(a + [c] + b, c) == b
  {
    if a == "" {
      assert a + [c] + b == [c] + b;
    } else {
      assert (a + [c] + b)[1..] == a[1..] + [c] + b;
      HeadTailAppend(a[1..], c, b);
    }
  }

  /** Python's `s.split(c)`. */
  function Split(s: string, c: char): (parts: seq<string>)
    ensures parts != []
    decreases |s|
  {
    if c in s then [Head(s, c)] + Split(Tail(s, c), c) else [s]
  }

  lemma SplitAppend(a: string, c: char, b: string)
    requires c !in a
    ensures Split(a + [c] + b, c) == [a] + Split(b, c)
  {
    HeadTailAppend(a, c, b);
    assert (a + [c] + b)[|a|] == c;
  }

  predicate EndsWith(s: string, c: char) {
    s != "" && (if |s| == 1 then s[0] == c else EndsWith(s[1..], c))
  }

  function Init(s: string): string {
    if |s| <= 1 then "" else [s[0]] + Init(s[1..])
  }

  lemma {:induction false} InitAndLast(s: string, c: char)
    requires EndsWith(s, c)
    ensures s == Init(s) + [c]
  {
    if |s| > 1 {
      InitAndLast(s[1..], c);
      assert s == [s[0]] + s[1..];
    }
  }

  lemma {:induction false} EndsWithAppend(a: string, b: string, c: char)
    requires b != ""
    ensures EndsWith(a + b, c) <==> EndsWith(b, c)
  {
    if a == "" {
      assert a + b == b;
    } else {
      assert (a + b)[1..] == a[1..] + b;
      EndsWithAppend(a[1..], b, c);
    }
  }

  lemma {:induction false} LastIsIn(s: string, c: char)
    requires EndsWith(s, c)
    ensures c in s
  {
    InitAndLast(s, c);
  }
}
