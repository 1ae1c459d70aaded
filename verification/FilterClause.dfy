/** Listing filters compiled to SQL conditions with positional parameters: the
    generated text, read back as SQL reads it, means what the filter asks. */
module FilterClauses {
  import opened Orders

  datatype Param = Str(s: string) | Num(n: int)

  /** The pieces of generated SQL. `Mark` is a `?`, `Named(k)` a `:pk`, `Val` a
      placeholder whose value is known; `Like(f)` is `f LIKE` before its operand,
      `Genre(p)` a genre predicate up to its placeholder and `GenreEnd` what is
      left of it; `Sql` is text without conditions or placeholders. */
  datatype Tok =
    | LParen | RParen | And | Or | Not | True | Union
    | Like(field: string) | Genre(test: string) | GenreEnd
    | Mark | Named(k: nat) | Val(v: Param) | Sql(text: string)

  /** What one row answers: whether a field is `LIKE` a pattern, and whether a genre
      predicate holds of it for a genre. */
  datatype Row = Row(like: (string, Param) -> bool, hasGenre: (string, Param) -> bool)

  // ----- how SQL reads a condition -----

  datatype Read = Error | Got(value: bool, rest: seq<Tok>)

  function ReadOr(ts: seq<Tok>, row: Row): (r: Read)
    ensures r.Got? ==> |r.rest| < |ts|
    decreases |ts|, 3
  {
    match ReadAnd(ts, row)
    case Error => Error
    case Got(v, rest) =>
      if rest != [] && rest[0] == Or then
        match ReadOr(rest[1..], row)
        case Error => Error
        case Got(w, more) => Got(v || w, more)
      else Got(v, rest)
  }

  function ReadAnd(ts: seq<Tok>, row: Row): (r: Read)
    ensures r.Got? ==> |r.rest| < |ts|
    decreases |ts|, 2
  {
    match ReadNot(ts, row)
    case Error => Error
    case Got(v, rest) =>
      if rest != [] && rest[0] == And then
        match ReadAnd(rest[1..], row)
        case Error => Error
        case Got(w, more) => Got(v && w, more)
      else Got(v, rest)
  }

  function ReadNot(ts: seq<Tok>, row: Row): (r: Read)
    ensures r.Got? ==> |r.rest| < |ts|
    decreases |ts|, 1
  {
    if ts != [] && ts[0] == Not then
      match ReadNot(ts[1..], row)
      case Error => Error
      case Got(v, rest) => Got(!v, rest)
    else ReadPrimary(ts, row)
  }

  function ReadPrimary(ts: seq<Tok>, row: Row): (r: Read)
    ensures r.Got? ==> |r.rest| < |ts|
    decreases |ts|, 0
  {
    if ts == [] then Error else
      match ts[0]
      case True => Got(true, ts[1..])
      case Like(field) =>
        if |ts| >= 2 && ts[1].Val? then Got(row.like(field, ts[1].v), ts[1..][1..]) else Error
      case Genre(test) =>
        if |ts| >= 3 && ts[1].Val? && ts[2] == GenreEnd then
          Got(row.hasGenre(test, ts[1].v), ts[1..][1..][1..])
        else Error
      case LParen =>
        (match ReadOr(ts[1..], row)
         case Error => Error
         case Got(v, rest) => if rest != [] && rest[0] == RParen then Got(v, rest[1..]) else Error)
      case _ => Error
  }

  // ----- placeholders -----

  /** SQLite's positional binding: each `?` takes the next parameter. */
  function Bind(ts: seq<Tok>, params: seq<Param>): seq<Tok> {
    if ts == [] then []
    else if ts[0] == Mark && params != [] then [Val(params[0])] + Bind(ts[1..], params[1..])
    else [ts[0]] + Bind(ts[1..], params)
  }

  function Marks(ts: seq<Tok>): nat {
    if ts == [] then 0 else (if ts[0] == Mark then 1 else 0) + Marks(ts[1..])
  }

  lemma BindConsAppend(t: Tok, rest: seq<Tok>, b: seq<Tok>, p: seq<Param>, q: seq<Param>)
    requires t == Mark ==> p != [] && Bind(rest + b, p[1..] + q) == Bind(rest, p[1..]) + Bind(b, q)
    requires t != Mark ==> Bind(rest + b, p + q) == Bind(rest, p) + Bind(b, q)
    ensures Bind([t] + (rest + b), p + q) == Bind([t] + rest, p) + Bind(b, q)
  {
    BindCons(t, rest, p);
    BindCons(t, rest + b, p + q);
    hide Bind;
    if t == Mark {
      assert (p + q)[0] == p[0] && (p + q)[1..] == p[1..] + q;
      ConcatAssociates([Val(p[0])], Bind(rest, p[1..]), Bind(b, q));
    } else {
      ConcatAssociates([t], Bind(rest, p), Bind(b, q));
    }
  }

  lemma {:induction false} BindAppend(a: seq<Tok>, b: seq<Tok>, p: seq<Param>, q: seq<Param>)
    requires Marks(a) == |p|
    ensures Marks(a + b) == Marks(a) + Marks(b)
    ensures Bind(a + b, p + q) == Bind(a, p) + Bind(b, q)
  {
    if a == [] {
      assert a + b == b && p + q == q;
    } else {
      hide Bind, Marks;
      var t, rest := a[0], a[1..];
      assert a == [t] + rest && a + b == [t] + (rest + b);
      BindCons(t, rest, p);
      BindCons(t, rest + b, p);
      BindAppend(rest, b, if t == Mark then p[1..] else p, q);
      BindConsAppend(t, rest, b, p, q);
    }
  }

  /** A stretch of SQL with the parameters its placeholders take. */
  datatype Clause = Clause(sql: seq<Tok>, params: seq<Param>) {
    predicate Fits() { Marks(sql) == |params| }

    function Bound(): seq<Tok> { Bind(sql, params) }

    function Then(next: Clause): Clause { Clause(sql + next.sql, params + next.params) }
  }

  lemma ThenBinds(a: Clause, b: Clause)
    requires a.Fits() && b.Fits()
    ensures a.Then(b).Fits() && a.Then(b).Bound() == a.Bound() + b.Bound()
  {
    BindAppend(a.sql, b.sql, a.params, b.params);
  }

  function Plain(tok: Tok): Clause { Clause([tok], []) }

  lemma PlainBinds(tok: Tok)
    requires tok != Mark
    ensures Plain(tok).Fits() && Plain(tok).Bound() == [tok]
  {
    var rest := [tok][1..];
    assert rest == [] && Marks(rest) == 0 && Bind(rest, []) == [];
    assert Marks([tok]) == 0 && Bind([tok], []) == [tok] + Bind(rest, []);
  }

  /** `sep.join(...)`, and the parameters in the same order. */
  function Joined(sep: Tok, parts: seq<Clause>): Clause {
    if parts == [] then Clause([], [])
    else if |parts| == 1 then parts[0]
    else parts[0].Then(Plain(sep)).Then(Joined(sep, parts[1..]))
  }

  function JoinBounds(sep: Tok, parts: seq<Clause>): seq<Tok> {
    if parts == [] then []
    else if |parts| == 1 then parts[0].Bound()
    else parts[0].Bound() + [sep] + JoinBounds(sep, parts[1..])
  }

  lemma {:induction false} JoinedBinds(sep: Tok, parts: seq<Clause>)
    requires sep != Mark && forall c :: c in parts ==> c.Fits()
    ensures Joined(sep, parts).Fits() && Joined(sep, parts).Bound() == JoinBounds(sep, parts)
  {
    if |parts| > 1 {
      assert parts[0] in parts && forall c :: c in parts[1..] ==> c in parts;
      JoinedBinds(sep, parts[1..]);
      PlainBinds(sep);
      ThenBinds(parts[0], Plain(sep));
      ThenBinds(parts[0].Then(Plain(sep)), Joined(sep, parts[1..]));
    } else if |parts| == 1 {
      assert parts[0] in parts;
    }
  }

  function AllParams(parts: seq<Clause>): seq<Param> {
    if parts == [] then [] else parts[0].params + AllParams(parts[1..])
  }

  function Sqls(parts: seq<Clause>): seq<seq<Tok>> {
    if parts == [] then [] else [parts[0].sql] + Sqls(parts[1..])
  }

  function Parens(c: Clause): Clause { Plain(LParen).Then(c).Then(Plain(RParen)) }

  lemma ParensBinds(c: Clause)
    requires c.Fits()
    ensures Parens(c).Fits() && Parens(c).Bound() == [LParen] + c.Bound() + [RParen]
  {
    PlainBinds(LParen);
    PlainBinds(RParen);
    ThenBinds(Plain(LParen), c);
    ThenBinds(Plain(LParen).Then(c), Plain(RParen));
  }

  // ----- what a stretch of bound SQL means -----

  predicate Stops(rest: seq<Tok>) { rest != [] ==> rest[0] != And && rest[0] != Or }

  /** `ts` reads as one operand of AND or OR, whatever follows it. */
  ghost predicate Operand(ts: seq<Tok>, row: Row, v: bool) {
    forall rest :: ReadNot(ts + rest, row) == Got(v, rest)
  }

  /** `ts` reads as a whole condition, up to anything that is not AND or OR. */
  ghost predicate Condition(ts: seq<Tok>, row: Row, v: bool) {
    forall rest :: Stops(rest) ==> ReadOr(ts + rest, row) == Got(v, rest)
  }

  lemma OperandIsCondition(ts: seq<Tok>, row: Row, v: bool)
    requires Operand(ts, row, v)
    ensures Condition(ts, row, v)
  {
    forall rest | Stops(rest) ensures ReadOr(ts + rest, row) == Got(v, rest) {
      assert ReadNot(ts + rest, row) == Got(v, rest);
    }
  }

  lemma ParensRead(all: seq<Tok>, after: seq<Tok>, row: Row, v: bool)
    requires all != [] && all[0] == LParen && ReadOr(all[1..], row) == Got(v, after)
    requires after != [] && after[0] == RParen
    ensures ReadNot(all, row) == Got(v, after[1..])
  {
    hide ReadOr;
  }

  lemma ParensOperand(ts: seq<Tok>, row: Row, v: bool)
    requires Condition(ts, row, v)
    ensures Operand([LParen] + ts + [RParen], row, v)
  {
    hide ReadOr, ReadNot;
    forall rest ensures ReadNot([LParen] + ts + [RParen] + rest, row) == Got(v, rest) {
      var all, after := [LParen] + ts + [RParen] + rest, [RParen] + rest;
      assert all[1..] == ts + after && after[1..] == rest;
      ParensRead(all, after, row, v);
    }
  }

  lemma NotOperand(ts: seq<Tok>, row: Row, v: bool)
    requires Operand(ts, row, v)
    ensures Operand([Not] + ts, row, !v)
  {
    forall rest ensures ReadNot([Not] + ts + rest, row) == Got(!v, rest) {
      assert ([Not] + ts + rest)[1..] == ts + rest;
    }
  }

  function AllOf(vs: seq<bool>): bool { vs == [] || (vs[0] && AllOf(vs[1..])) }

  function AnyOf(vs: seq<bool>): bool { vs != [] && (vs[0] || AnyOf(vs[1..])) }

  ghost predicate Operands(parts: seq<Clause>, row: Row, vs: seq<bool>) {
    && |parts| == |vs|
    && (parts != [] ==>
          parts[0].Fits() && Operand(parts[0].Bound(), row, vs[0]) && Operands(parts[1..], row, vs[1..]))
  }

  lemma {:induction false} OperandsFit(parts: seq<Clause>, row: Row, vs: seq<bool>)
    requires Operands(parts, row, vs)
    ensures forall c :: c in parts ==> c.Fits()
  {
    if parts != [] {
      OperandsFit(parts[1..], row, vs[1..]);
      assert forall c :: c in parts ==> c == parts[0] || c in parts[1..];
    }
  }

  lemma Regroup(first: seq<Tok>, sep: Tok, tail: seq<Tok>, rest: seq<Tok>)
    ensures first + [sep] + tail + rest == first + ([sep] + (tail + rest))
    ensures ([sep] + (tail + rest))[1..] == tail + rest
  {}

  lemma OperandReads(ts: seq<Tok>, row: Row, v: bool, rest: seq<Tok>)
    requires Operand(ts, row, v)
    ensures ReadNot(ts + rest, row) == Got(v, rest)
  {}

  lemma {:induction false} OrReads(parts: seq<Clause>, row: Row, vs: seq<bool>, rest: seq<Tok>)
    requires parts != [] && Operands(parts, row, vs) && Stops(rest)
    ensures ReadOr(JoinBounds(Or, parts) + rest, row) == Got(AnyOf(vs), rest)
  {
    hide ReadNot, ReadPrimary, Operand;
    if |parts| == 1 {
      assert vs[1..] == [];
      OperandReads(parts[0].Bound(), row, vs[0], rest);
    } else {
      var tail := JoinBounds(Or, parts[1..]);
      OrReads(parts[1..], row, vs[1..], rest);
      Regroup(parts[0].Bound(), Or, tail, rest);
      OperandReads(parts[0].Bound(), row, vs[0], [Or] + (tail + rest));
    }
  }

  lemma {:induction false} AndReads(parts: seq<Clause>, row: Row, vs: seq<bool>, rest: seq<Tok>)
    requires parts != [] && Operands(parts, row, vs) && Stops(rest)
    ensures ReadAnd(JoinBounds(And, parts) + rest, row) == Got(AllOf(vs), rest)
  {
    hide ReadNot, ReadPrimary, Operand;
    if |parts| == 1 {
      assert vs[1..] == [];
      OperandReads(parts[0].Bound(), row, vs[0], rest);
    } else {
      var tail := JoinBounds(And, parts[1..]);
      AndReads(parts[1..], row, vs[1..], rest);
      Regroup(parts[0].Bound(), And, tail, rest);
      OperandReads(parts[0].Bound(), row, vs[0], [And] + (tail + rest));
    }
  }

  lemma OrMeans(parts: seq<Clause>, row: Row, vs: seq<bool>)
    requires parts != [] && Operands(parts, row, vs)
    ensures Joined(Or, parts).Fits() && Condition(Joined(Or, parts).Bound(), row, AnyOf(vs))
  {
    OperandsFit(parts, row, vs);
    JoinedBinds(Or, parts);
    forall rest | Stops(rest) ensures ReadOr(JoinBounds(Or, parts) + rest, row) == Got(AnyOf(vs), rest) {
      OrReads(parts, row, vs, rest);
    }
  }

  lemma AndMeans(parts: seq<Clause>, row: Row, vs: seq<bool>)
    requires parts != [] && Operands(parts, row, vs)
    ensures Joined(And, parts).Fits() && Condition(Joined(And, parts).Bound(), row, AllOf(vs))
  {
    OperandsFit(parts, row, vs);
    JoinedBinds(And, parts);
    forall rest | Stops(rest) ensures ReadOr(JoinBounds(And, parts) + rest, row) == Got(AllOf(vs), rest) {
      AndReads(parts, row, vs, rest);
    }
  }

  // ----- the filter -----

  /** `words` is the folded query split at spaces. */
  datatype Filter = Filter(words: seq<string>, genreAny: seq<string>, genreAll: seq<string>, genreNone: seq<string>)

  function Pattern(word: string): Param { Str("%" + word + "%") }

  /** What a filter asks of a row, in its own terms. */
  ghost predicate Keeps(filter: Filter, fields: seq<string>, test: string, row: Row) {
    && (forall w :: w in filter.words ==> exists f :: f in fields && row.like(f, Str("%" + w + "%")))
    && (filter.genreAny != [] ==> exists g :: g in filter.genreAny && row.hasGenre(test, Str(g)))
    && (forall g :: g in filter.genreAll ==> row.hasGenre(test, Str(g)))
    && (forall g :: g in filter.genreNone ==> !row.hasGenre(test, Str(g)))
  }

  // ----- the text and the parameters, put together apart from each other -----

  function JoinedText(sep: Tok, parts: seq<seq<Tok>>): seq<Tok> {
    if parts == [] then []
    else if |parts| == 1 then parts[0]
    else parts[0] + [sep] + JoinedText(sep, parts[1..])
  }

  function InParens(ts: seq<Tok>): seq<Tok> { [LParen] + ts + [RParen] }

  function LikeTexts(fields: seq<string>): seq<seq<Tok>> {
    if fields == [] then [] else [[Like(fields[0]), Mark]] + LikeTexts(fields[1..])
  }

  /** The same text for every word: only the parameters tell them apart. */
  function WordTexts(words: seq<string>, fields: seq<string>): seq<seq<Tok>> {
    if words == [] then [] else [InParens(JoinedText(Or, LikeTexts(fields)))] + WordTexts(words[1..], fields)
  }

  function TokenText(words: seq<string>, fields: seq<string>): seq<Tok> {
    if words == [] then [True] else JoinedText(And, WordTexts(words, fields))
  }

  function ForEach(pattern: Param, fields: seq<string>): seq<Param> {
    if fields == [] then [] else [pattern] + ForEach(pattern, fields[1..])
  }

  /** `[f"%{t}%" for t in tokens for _ in fields]` */
  function TokenParams(words: seq<string>, fields: seq<string>): seq<Param> {
    if words == [] then [] else ForEach(Pattern(words[0]), fields) + TokenParams(words[1..], fields)
  }

  function GenreTexts(test: string, genres: seq<string>): seq<seq<Tok>> {
    if genres == [] then [] else [[Genre(test), Mark, GenreEnd]] + GenreTexts(test, genres[1..])
  }

  function AnyText(filter: Filter, test: string): seq<seq<Tok>> {
    if filter.genreAny == [] then [] else [InParens(JoinedText(Or, GenreTexts(test, filter.genreAny)))]
  }

  function NoneText(filter: Filter, test: string): seq<seq<Tok>> {
    if filter.genreNone == [] then [] else [[Not] + InParens(JoinedText(Or, GenreTexts(test, filter.genreNone)))]
  }

  function GenreParts(filter: Filter, test: string): seq<seq<Tok>> {
    AnyText(filter, test) + GenreTexts(test, filter.genreAll) + NoneText(filter, test)
  }

  function GenreText(filter: Filter, test: string): seq<Tok> {
    if GenreParts(filter, test) == [] then [True] else JoinedText(And, GenreParts(filter, test))
  }

  function Strs(genres: seq<string>): seq<Param> {
    if genres == [] then [] else [Str(genres[0])] + Strs(genres[1..])
  }

  function GenreParams(filter: Filter): seq<Param> {
    Strs(filter.genreAny) + Strs(filter.genreAll) + Strs(filter.genreNone)
  }

  function ListingText(filter: Filter, fields: seq<string>, test: string): seq<Tok> {
    InParens(TokenText(filter.words, fields)) + [And] + InParens(GenreText(filter, test))
  }

  function ListingParams(filter: Filter, fields: seq<string>): seq<Param> {
    TokenParams(filter.words, fields) + GenreParams(filter)
  }

  /** Both lists built up constraint by constraint. */
  method GenreWhere(filter: Filter, test: string) returns (text: seq<Tok>, params: seq<Param>)
    ensures text == GenreText(filter, test) && params == GenreParams(filter)
  {
    hide JoinedText, InParens;
    var clauses: seq<seq<Tok>> := [];
    params := [];
    if filter.genreAny != [] {
      clauses := clauses + [InParens(JoinedText(Or, GenreTexts(test, filter.genreAny)))];
      params := params + Strs(filter.genreAny);
    }
    assert clauses == AnyText(filter, test) && params == Strs(filter.genreAny);
    ghost var any, anyParams := clauses, params;
    var rest := filter.genreAll;
    while rest != []
      invariant clauses + GenreTexts(test, rest) == any + GenreTexts(test, filter.genreAll)
      invariant params + Strs(rest) == anyParams + Strs(filter.genreAll)
      decreases |rest|
    {
      ConcatAssociates(clauses, [[Genre(test), Mark, GenreEnd]], GenreTexts(test, rest[1..]));
      ConcatAssociates(params, [Str(rest[0])], Strs(rest[1..]));
      clauses := clauses + [[Genre(test), Mark, GenreEnd]];
      params := params + [Str(rest[0])];
      rest := rest[1..];
    }
    if filter.genreNone != [] {
      clauses := clauses + [[Not] + InParens(JoinedText(Or, GenreTexts(test, filter.genreNone)))];
      params := params + Strs(filter.genreNone);
    }
    assert clauses == GenreParts(filter, test) && params == GenreParams(filter);
    if clauses == [] {
      return [True], [];
    }
    text := JoinedText(And, clauses);
  }

  // ----- each placeholder with its own parameter -----

  function LikeAtom(field: string, pattern: Param): Clause { Clause([Like(field), Mark], [pattern]) }

  function GenreAtom(test: string, genre: string): Clause {
    Clause([Genre(test), Mark, GenreEnd], [Str(genre)])
  }

  lemma LikeAtomMeans(field: string, pattern: Param, row: Row)
    ensures LikeAtom(field, pattern).Fits() && Operand(LikeAtom(field, pattern).Bound(), row, row.like(field, pattern))
  {
    var c := LikeAtom(field, pattern);
    assert c.sql[1..] == [Mark] && [Mark][1..] == [] && c.params[1..] == [];
    assert Bind([Mark], c.params) == [Val(pattern)] + Bind([], []);
    assert c.Bound() == [Like(field)] + [Val(pattern)];
    forall rest ensures ReadNot(c.Bound() + rest, row) == Got(row.like(field, pattern), rest) {
      assert (c.Bound() + rest)[1..][1..] == rest;
    }
  }

  lemma GenreAtomMeans(test: string, genre: string, row: Row)
    ensures GenreAtom(test, genre).Fits()
    ensures Operand(GenreAtom(test, genre).Bound(), row, row.hasGenre(test, Str(genre)))
  {
    var c := GenreAtom(test, genre);
    assert c.sql[1..] == [Mark, GenreEnd] && [Mark, GenreEnd][1..] == [GenreEnd] && [GenreEnd][1..] == [];
    assert c.params[1..] == [];
    assert Bind([GenreEnd], []) == [GenreEnd] + Bind([], []);
    assert Bind([Mark, GenreEnd], c.params) == [Val(Str(genre))] + [GenreEnd];
    assert c.Bound() == [Genre(test)] + ([Val(Str(genre))] + [GenreEnd]);
    forall rest ensures ReadNot(c.Bound() + rest, row) == Got(row.hasGenre(test, Str(genre)), rest) {
      assert (c.Bound() + rest)[1..][1..][1..] == rest;
    }
  }

  // ----- text -----

  function LikeAtoms(fields: seq<string>, word: string): seq<Clause> {
    if fields == [] then [] else [LikeAtom(fields[0], Pattern(word))] + LikeAtoms(fields[1..], word)
  }

  function LikeValues(fields: seq<string>, word: string, row: Row): seq<bool> {
    if fields == [] then [] else [row.like(fields[0], Pattern(word))] + LikeValues(fields[1..], word, row)
  }

  function WordClause(fields: seq<string>, word: string): Clause { Parens(Joined(Or, LikeAtoms(fields, word))) }

  function WordClauses(words: seq<string>, fields: seq<string>): seq<Clause> {
    if words == [] then [] else [WordClause(fields, words[0])] + WordClauses(words[1..], fields)
  }

  function WordValues(words: seq<string>, fields: seq<string>, row: Row): seq<bool> {
    if words == [] then [] else [AnyOf(LikeValues(fields, words[0], row))] + WordValues(words[1..], fields, row)
  }

  function TokenClause(words: seq<string>, fields: seq<string>): Clause {
    if words == [] then Plain(True) else Joined(And, WordClauses(words, fields))
  }

  lemma {:induction false} LikeAtomsMean(fields: seq<string>, word: string, row: Row)
    ensures Operands(LikeAtoms(fields, word), row, LikeValues(fields, word, row))
    ensures AnyOf(LikeValues(fields, word, row)) <==> exists f :: f in fields && row.like(f, Pattern(word))
  {
    if fields != [] {
      LikeAtomsMean(fields[1..], word, row);
      LikeAtomMeans(fields[0], Pattern(word), row);
      assert forall f :: f in fields <==> f == fields[0] || f in fields[1..];
    }
  }

  lemma WordMeans(fields: seq<string>, word: string, row: Row)
    requires fields != []
    ensures WordClause(fields, word).Fits()
    ensures Operand(WordClause(fields, word).Bound(), row, AnyOf(LikeValues(fields, word, row)))
  {
    LikeAtomsMean(fields, word, row);
    OrMeans(LikeAtoms(fields, word), row, LikeValues(fields, word, row));
    ParensBinds(Joined(Or, LikeAtoms(fields, word)));
    ParensOperand(Joined(Or, LikeAtoms(fields, word)).Bound(), row, AnyOf(LikeValues(fields, word, row)));
  }

  lemma {:induction false} WordsMean(words: seq<string>, fields: seq<string>, row: Row)
    requires fields != []
    ensures Operands(WordClauses(words, fields), row, WordValues(words, fields, row))
    ensures AllOf(WordValues(words, fields, row)) <==>
      forall w :: w in words ==> exists f :: f in fields && row.like(f, Pattern(w))
  {
    if words != [] {
      WordsMean(words[1..], fields, row);
      WordMeans(fields, words[0], row);
      LikeAtomsMean(fields, words[0], row);
      assert forall w :: w in words <==> w == words[0] || w in words[1..];
    }
  }

  lemma TrueMeans(row: Row)
    ensures Plain(True).Fits() && Condition(Plain(True).Bound(), row, true)
  {
    PlainBinds(True);
    forall rest ensures ReadNot([True] + rest, row) == Got(true, rest) { assert ([True] + rest)[1..] == rest; }
    OperandIsCondition([True], row, true);
  }

  /** The text clause by itself. */
  lemma TextMeans(words: seq<string>, fields: seq<string>, row: Row)
    requires fields != []
    ensures Marks(TokenText(words, fields)) == |TokenParams(words, fields)|
    ensures Condition(Bind(TokenText(words, fields), TokenParams(words, fields)), row,
                      forall w :: w in words ==> exists f :: f in fields && row.like(f, Str("%" + w + "%")))
  {
    TokenClauseIs(words, fields);
    if words == [] {
      TrueMeans(row);
    } else {
      WordsMean(words, fields, row);
      AndMeans(WordClauses(words, fields), row, WordValues(words, fields, row));
    }
  }

  // ----- genres -----

  function GenreAtoms(test: string, genres: seq<string>): seq<Clause> {
    if genres == [] then [] else [GenreAtom(test, genres[0])] + GenreAtoms(test, genres[1..])
  }

  function GenreValues(test: string, genres: seq<string>, row: Row): seq<bool> {
    if genres == [] then [] else [row.hasGenre(test, Str(genres[0]))] + GenreValues(test, genres[1..], row)
  }

  lemma {:induction false} GenreAtomsMean(test: string, genres: seq<string>, row: Row)
    ensures Operands(GenreAtoms(test, genres), row, GenreValues(test, genres, row))
    ensures AnyOf(GenreValues(test, genres, row)) <==> exists g :: g in genres && row.hasGenre(test, Str(g))
    ensures AllOf(GenreValues(test, genres, row)) <==> forall g :: g in genres ==> row.hasGenre(test, Str(g))
  {
    if genres != [] {
      GenreAtomsMean(test, genres[1..], row);
      GenreAtomMeans(test, genres[0], row);
      assert forall g :: g in genres <==> g == genres[0] || g in genres[1..];
    }
  }

  function AnyClauses(filter: Filter, test: string): seq<Clause> {
    if filter.genreAny == [] then [] else [Parens(Joined(Or, GenreAtoms(test, filter.genreAny)))]
  }

  function NoneClauses(filter: Filter, test: string): seq<Clause> {
    if filter.genreNone == [] then []
    else [Plain(Not).Then(Parens(Joined(Or, GenreAtoms(test, filter.genreNone))))]
  }

  function GenreClauses(filter: Filter, test: string): seq<Clause> {
    AnyClauses(filter, test) + GenreAtoms(test, filter.genreAll) + NoneClauses(filter, test)
  }

  function GenreClause(filter: Filter, test: string): Clause {
    if GenreClauses(filter, test) == [] then Plain(True) else Joined(And, GenreClauses(filter, test))
  }

  lemma ParensGenres(test: string, genres: seq<string>, row: Row)
    requires genres != []
    ensures Parens(Joined(Or, GenreAtoms(test, genres))).Fits()
    ensures Operand(Parens(Joined(Or, GenreAtoms(test, genres))).Bound(), row, AnyOf(GenreValues(test, genres, row)))
  {
    GenreAtomsMean(test, genres, row);
    OrMeans(GenreAtoms(test, genres), row, GenreValues(test, genres, row));
    ParensBinds(Joined(Or, GenreAtoms(test, genres)));
    ParensOperand(Joined(Or, GenreAtoms(test, genres)).Bound(), row, AnyOf(GenreValues(test, genres, row)));
  }

  lemma {:induction false} OperandsJoin(a: seq<Clause>, b: seq<Clause>, row: Row, vs: seq<bool>, ws: seq<bool>)
    requires Operands(a, row, vs) && Operands(b, row, ws)
    ensures Operands(a + b, row, vs + ws) && AllOf(vs + ws) == (AllOf(vs) && AllOf(ws))
  {
    if a == [] {
      assert a + b == b && vs + ws == ws;
    } else {
      OperandsJoin(a[1..], b, row, vs[1..], ws);
      assert (a + b)[1..] == a[1..] + b && (vs + ws)[1..] == vs[1..] + ws;
    }
  }

  lemma AnyClausesMean(filter: Filter, test: string, row: Row) returns (vs: seq<bool>)
    ensures Operands(AnyClauses(filter, test), row, vs)
    ensures AllOf(vs) <==> (filter.genreAny != [] ==> exists g :: g in filter.genreAny && row.hasGenre(test, Str(g)))
  {
    vs := [];
    if filter.genreAny != [] {
      ParensGenres(test, filter.genreAny, row);
      GenreAtomsMean(test, filter.genreAny, row);
      assert AnyClauses(filter, test)[1..] == [];
      vs := [AnyOf(GenreValues(test, filter.genreAny, row))];
    }
  }

  lemma NoneClausesMean(filter: Filter, test: string, row: Row) returns (vs: seq<bool>)
    ensures Operands(NoneClauses(filter, test), row, vs)
    ensures AllOf(vs) <==> forall g :: g in filter.genreNone ==> !row.hasGenre(test, Str(g))
  {
    vs := [];
    if filter.genreNone != [] {
      var inner := Parens(Joined(Or, GenreAtoms(test, filter.genreNone)));
      var v := AnyOf(GenreValues(test, filter.genreNone, row));
      ParensGenres(test, filter.genreNone, row);
      GenreAtomsMean(test, filter.genreNone, row);
      PlainBinds(Not);
      ThenBinds(Plain(Not), inner);
      NotOperand(inner.Bound(), row, v);
      assert NoneClauses(filter, test)[1..] == [];
      vs := [!v];
    }
  }

  /** The genre clause by itself. */
  lemma GenresMean(filter: Filter, test: string, row: Row) returns (v: bool)
    ensures Marks(GenreText(filter, test)) == |GenreParams(filter)|
    ensures Condition(Bind(GenreText(filter, test), GenreParams(filter)), row, v)
    ensures v <==>
      && (filter.genreAny != [] ==> exists g :: g in filter.genreAny && row.hasGenre(test, Str(g)))
      && (forall g :: g in filter.genreAll ==> row.hasGenre(test, Str(g)))
      && (forall g :: g in filter.genreNone ==> !row.hasGenre(test, Str(g)))
  {
    GenreClauseIs(filter, test);
    var any := AnyClausesMean(filter, test, row);
    var none := NoneClausesMean(filter, test, row);
    var every := GenreValues(test, filter.genreAll, row);
    GenreAtomsMean(test, filter.genreAll, row);
    OperandsJoin(AnyClauses(filter, test), GenreAtoms(test, filter.genreAll), row, any, every);
    OperandsJoin(AnyClauses(filter, test) + GenreAtoms(test, filter.genreAll), NoneClauses(filter, test), row,
                 any + every, none);
    v := AllOf(any + every + none);
    if GenreClauses(filter, test) == [] {
      TrueMeans(row);
    } else {
      AndMeans(GenreClauses(filter, test), row, any + every + none);
    }
  }

  // ----- the whole filter -----

  function Both(text: Clause, genre: Clause): Clause { Parens(text).Then(Plain(And)).Then(Parens(genre)) }

  function ListingClause(filter: Filter, fields: seq<string>, test: string): Clause {
    Both(TokenClause(filter.words, fields), GenreClause(filter, test))
  }

  lemma BothMean(text: Clause, genre: Clause, row: Row, a: bool, b: bool)
    requires text.Fits() && Condition(text.Bound(), row, a)
    requires genre.Fits() && Condition(genre.Bound(), row, b)
    ensures Both(text, genre).Fits() && Condition(Both(text, genre).Bound(), row, a && b)
  {
    ParensBinds(text);
    ParensBinds(genre);
    ParensOperand(text.Bound(), row, a);
    ParensOperand(genre.Bound(), row, b);
    var parts := [Parens(text), Parens(genre)];
    assert parts[1..] == [Parens(genre)] && [Parens(genre)][1..] == [];
    assert [a, b][1..] == [b] && [b][1..] == [];
    assert Operands([Parens(genre)], row, [b]);
    assert Operands(parts, row, [a, b]);
    assert AllOf([b]) == b;
    assert [a, b][0] == a;
    assert AllOf([a, b]) == (a && b);
    assert Joined(And, [Parens(genre)]) == Parens(genre);
    assert Joined(And, parts) == Both(text, genre);
    AndMeans(parts, row, [a, b]);
  }

  lemma {:induction false} JoinedSql(sep: Tok, parts: seq<Clause>)
    ensures Joined(sep, parts).sql == JoinedText(sep, Sqls(parts)) && |Sqls(parts)| == |parts|
  {
    if parts != [] { JoinedSql(sep, parts[1..]); }
  }

  lemma {:induction false} JoinedParams(sep: Tok, parts: seq<Clause>)
    ensures Joined(sep, parts).params == AllParams(parts)
  {
    if |parts| == 1 {
      assert parts[1..] == [];
    } else if |parts| > 1 {
      JoinedParams(sep, parts[1..]);
    }
  }

  lemma JoinedIs(sep: Tok, parts: seq<Clause>)
    ensures Joined(sep, parts) == Clause(JoinedText(sep, Sqls(parts)), AllParams(parts))
  {
    JoinedSql(sep, parts);
    JoinedParams(sep, parts);
  }

  lemma ParensAre(c: Clause)
    ensures Parens(c) == Clause(InParens(c.sql), c.params)
  {}

  lemma PartsCons(c: Clause, rest: seq<Clause>)
    ensures Sqls([c] + rest) == [c.sql] + Sqls(rest) && AllParams([c] + rest) == c.params + AllParams(rest)
  {
    assert ([c] + rest)[1..] == rest;
  }

  lemma {:induction false} PartsAppend(a: seq<Clause>, b: seq<Clause>)
    ensures Sqls(a + b) == Sqls(a) + Sqls(b) && AllParams(a + b) == AllParams(a) + AllParams(b)
  {
    if a == [] {
      assert a + b == b;
    } else {
      var c, rest := a[0], a[1..];
      assert a == [c] + rest && a + b == [c] + (rest + b);
      PartsCons(c, rest);
      PartsCons(c, rest + b);
      hide Sqls, AllParams;
      PartsAppend(rest, b);
      ConcatAssociates([c.sql], Sqls(rest), Sqls(b));
      ConcatAssociates(c.params, AllParams(rest), AllParams(b));
    }
  }

  lemma {:induction false} LikeAtomsAre(fields: seq<string>, word: string)
    ensures Sqls(LikeAtoms(fields, word)) == LikeTexts(fields)
    ensures AllParams(LikeAtoms(fields, word)) == ForEach(Pattern(word), fields)
  {
    if fields != [] {
      LikeAtomsAre(fields[1..], word);
      assert LikeAtoms(fields, word)[1..] == LikeAtoms(fields[1..], word);
    }
  }

  lemma {:induction false} WordClausesAre(words: seq<string>, fields: seq<string>)
    ensures Sqls(WordClauses(words, fields)) == WordTexts(words, fields)
    ensures AllParams(WordClauses(words, fields)) == TokenParams(words, fields)
  {
    if words != [] {
      LikeAtomsAre(fields, words[0]);
      JoinedIs(Or, LikeAtoms(fields, words[0]));
      ParensAre(Joined(Or, LikeAtoms(fields, words[0])));
      WordClausesAre(words[1..], fields);
      assert WordClauses(words, fields)[1..] == WordClauses(words[1..], fields);
    }
  }

  lemma TokenClauseIs(words: seq<string>, fields: seq<string>)
    ensures TokenClause(words, fields) == Clause(TokenText(words, fields), TokenParams(words, fields))
  {
    WordClausesAre(words, fields);
    JoinedIs(And, WordClauses(words, fields));
  }

  lemma {:induction false} GenreAtomsAre(test: string, genres: seq<string>)
    ensures Sqls(GenreAtoms(test, genres)) == GenreTexts(test, genres)
    ensures AllParams(GenreAtoms(test, genres)) == Strs(genres)
  {
    if genres != [] {
      GenreAtomsAre(test, genres[1..]);
      assert GenreAtoms(test, genres)[1..] == GenreAtoms(test, genres[1..]);
    }
  }

  lemma ParensGenresAre(test: string, genres: seq<string>)
    ensures Parens(Joined(Or, GenreAtoms(test, genres)))
         == Clause(InParens(JoinedText(Or, GenreTexts(test, genres))), Strs(genres))
  {
    GenreAtomsAre(test, genres);
    JoinedIs(Or, GenreAtoms(test, genres));
    ParensAre(Joined(Or, GenreAtoms(test, genres)));
  }

  lemma OnePart(c: Clause)
    ensures Sqls([c]) == [c.sql] && AllParams([c]) == c.params
  {
    PartsCons(c, []);
    assert [c] + [] == [c];
  }

  lemma GenreClausesAre(filter: Filter, test: string)
    ensures Sqls(GenreClauses(filter, test)) == GenreParts(filter, test)
    ensures AllParams(GenreClauses(filter, test)) == GenreParams(filter)
  {
    var any, every, none := AnyClauses(filter, test), GenreAtoms(test, filter.genreAll), NoneClauses(filter, test);
    GenreAtomsAre(test, filter.genreAll);
    ParensGenresAre(test, filter.genreAny);
    ParensGenresAre(test, filter.genreNone);
    PartsAppend(any, every);
    PartsAppend(any + every, none);
    if filter.genreAny != [] { OnePart(any[0]); }
    if filter.genreNone != [] {
      OnePart(none[0]);
      assert none[0].params == Strs(filter.genreNone);
    }
  }

  lemma GenreClauseIs(filter: Filter, test: string)
    ensures GenreClause(filter, test) == Clause(GenreText(filter, test), GenreParams(filter))
  {
    GenreClausesAre(filter, test);
    JoinedIs(And, GenreClauses(filter, test));
  }

  lemma BothIs(text: Clause, genre: Clause)
    ensures Both(text, genre)
         == Clause(InParens(text.sql) + [And] + InParens(genre.sql), text.params + genre.params)
  {
    ParensAre(text);
    ParensAre(genre);
    hide Parens, InParens;
    assert text.params + [] == text.params;
  }

  lemma ListingClauseIs(filter: Filter, fields: seq<string>, test: string)
    ensures ListingClause(filter, fields, test)
         == Clause(ListingText(filter, fields, test), ListingParams(filter, fields))
  {
    TokenClauseIs(filter.words, fields);
    GenreClauseIs(filter, test);
    hide TokenClause, TokenText, TokenParams, GenreClause, GenreText, GenreParams, Both, InParens;
    BothIs(TokenClause(filter.words, fields), GenreClause(filter, test));
  }

  /** The generated text, its placeholders filled left to right from the list of parameters
      put together beside it, holds of a row exactly when the filter keeps it. */
  lemma FilterMeaning(filter: Filter, fields: seq<string>, test: string, row: Row)
    requires fields != []
    ensures Marks(ListingText(filter, fields, test)) == |ListingParams(filter, fields)|
    ensures Condition(Bind(ListingText(filter, fields, test), ListingParams(filter, fields)), row,
                      Keeps(filter, fields, test, row))
  {
    var a := forall w :: w in filter.words ==> exists f :: f in fields && row.like(f, Pattern(w));
    TextMeans(filter.words, fields, row);
    var b := GenresMean(filter, test, row);
    TokenClauseIs(filter.words, fields);
    GenreClauseIs(filter, test);
    hide TokenClause, TokenText, TokenParams, GenreClause, GenreText, GenreParams;
    hide Both, Condition, ListingText, ListingParams;
    BothMean(TokenClause(filter.words, fields), GenreClause(filter, test), row, a, b);
    ListingClauseIs(filter, fields, test);
  }

  // ----- placeholders named -----

  /** `_named`: every `?` becomes the next of `:p0`, `:p1`, ... */
  function Renamed(ts: seq<Tok>, k: nat): seq<Tok> {
    if ts == [] then []
    else if ts[0] == Mark then [Named(k)] + Renamed(ts[1..], k + 1)
    else [ts[0]] + Renamed(ts[1..], k)
  }

  function Names(params: seq<Param>): map<nat, Param> {
    map k: nat | k < |params| :: params[k]
  }

  /** Binding by name: a name with no value is left unbound. */
  function BindNamed(ts: seq<Tok>, values: map<nat, Param>): seq<Tok> {
    if ts == [] then []
    else if ts[0].Named? && ts[0].k in values then [Val(values[ts[0].k])] + BindNamed(ts[1..], values)
    else [ts[0]] + BindNamed(ts[1..], values)
  }

  predicate Positional(ts: seq<Tok>) { forall t :: t in ts ==> !t.Named? }

  predicate AllPositional(parts: seq<seq<Tok>>) { forall ts :: ts in parts ==> Positional(ts) }

  lemma {:induction false} JoinedPositional(sep: Tok, parts: seq<seq<Tok>>)
    requires !sep.Named? && AllPositional(parts)
    ensures Positional(JoinedText(sep, parts))
  {
    if parts != [] {
      assert parts[0] in parts && forall ts :: ts in parts[1..] ==> ts in parts;
      JoinedPositional(sep, parts[1..]);
    }
  }

  lemma {:induction false} LikesPositional(fields: seq<string>)
    ensures AllPositional(LikeTexts(fields))
  {
    if fields != [] { LikesPositional(fields[1..]); }
  }

  lemma {:induction false} WordsPositional(words: seq<string>, fields: seq<string>)
    ensures AllPositional(WordTexts(words, fields))
  {
    if words != [] {
      LikesPositional(fields);
      JoinedPositional(Or, LikeTexts(fields));
      WordsPositional(words[1..], fields);
    }
  }

  lemma {:induction false} GenresPositional(test: string, genres: seq<string>)
    ensures AllPositional(GenreTexts(test, genres)) && Positional(JoinedText(Or, GenreTexts(test, genres)))
  {
    if genres != [] { GenresPositional(test, genres[1..]); }
    JoinedPositional(Or, GenreTexts(test, genres));
  }

  lemma ListingPositional(filter: Filter, fields: seq<string>, test: string)
    ensures Positional(ListingText(filter, fields, test))
  {
    assert Positional(TokenText(filter.words, fields)) by {
      WordsPositional(filter.words, fields);
      JoinedPositional(And, WordTexts(filter.words, fields));
    }
    assert Positional(GenreText(filter, test)) by {
      GenresPositional(test, filter.genreAny);
      GenresPositional(test, filter.genreAll);
      GenresPositional(test, filter.genreNone);
      JoinedPositional(And, GenreParts(filter, test));
    }
    hide TokenText, GenreText;
  }

  lemma BindNamedCons(t: Tok, ts: seq<Tok>, values: map<nat, Param>)
    ensures BindNamed([t] + ts, values) ==
      [if t.Named? && t.k in values then Val(values[t.k]) else t] + BindNamed(ts, values)
  {
    assert ([t] + ts)[1..] == ts;
  }

  lemma BindCons(t: Tok, ts: seq<Tok>, params: seq<Param>)
    ensures Bind([t] + ts, params) ==
      if t == Mark && params != [] then [Val(params[0])] + Bind(ts, params[1..]) else [t] + Bind(ts, params)
    ensures Marks([t] + ts) == (if t == Mark then 1 else 0) + Marks(ts)
  {
    assert ([t] + ts)[1..] == ts;
  }

  lemma RenamedCons(t: Tok, ts: seq<Tok>, k: nat)
    ensures Renamed([t] + ts, k) == if t == Mark then [Named(k)] + Renamed(ts, k + 1) else [t] + Renamed(ts, k)
  {
    assert ([t] + ts)[1..] == ts;
  }

  lemma {:induction false} NamedFrom(ts: seq<Tok>, params: seq<Param>, k: nat)
    requires Positional(ts) && k + Marks(ts) == |params|
    ensures BindNamed(Renamed(ts, k), Names(params)) == Bind(ts, params[k..])
  {
    if ts != [] {
      var t, rest := ts[0], ts[1..];
      assert ts == [t] + rest && t in ts && forall u :: u in rest ==> u in ts;
      BindCons(t, rest, params[k..]);
      RenamedCons(t, rest, k);
      hide Bind, BindNamed, Renamed, Marks;
      if t == Mark {
        NamedFrom(rest, params, k + 1);
        assert params[k..][1..] == params[k + 1..] && params[k..][0] == params[k];
        BindNamedCons(Named(k), Renamed(rest, k + 1), Names(params));
      } else {
        NamedFrom(rest, params, k);
        BindNamedCons(t, Renamed(rest, k), Names(params));
      }
    }
  }

  /** Naming placeholders binds each to the same parameter. */
  lemma NamingKeepsMeaning(ts: seq<Tok>, params: seq<Param>)
    requires Marks(ts) == |params| && Positional(ts)
    ensures BindNamed(Renamed(ts, 0), Names(params)) == Bind(ts, params)
  {
    NamedFrom(ts, params, 0);
    assert params[0..] == params;
  }

  /** So the filter's text with its placeholders named means what the filter says. */
  lemma NamedMeaning(filter: Filter, fields: seq<string>, test: string, row: Row)
    requires fields != []
    ensures
      var named := Renamed(ListingText(filter, fields, test), 0);
      Condition(BindNamed(named, Names(ListingParams(filter, fields))), row, Keeps(filter, fields, test, row))
  {
    FilterMeaning(filter, fields, test, row);
    ListingPositional(filter, fields, test);
    NamingKeepsMeaning(ListingText(filter, fields, test), ListingParams(filter, fields));
  }

  // ----- one statement over several kinds -----

  datatype Kind = Kind(name: string, fields: seq<string>, genreTest: string, arrivalTest: string)

  function Test(kind: Kind, arrivals: bool): string { if arrivals then kind.arrivalTest else kind.genreTest }

  /** A kind's branch of the library listing selects its name, a placeholder, before the
      filter in the kind's own terms; of the recent arrivals, also leaves out the id that
      stands for "unknown", another placeholder. */
  function Opening(arrivals: bool): seq<Tok> {
    if arrivals then [Sql("SELECT"), Mark, Sql("FROM"), Mark, Sql("GROUP BY")]
    else [Sql("SELECT"), Mark, Sql("FROM")]
  }

  function BranchText(kind: Kind, filter: Filter, arrivals: bool): seq<Tok> {
    Opening(arrivals) + ListingText(filter, kind.fields, Test(kind, arrivals))
  }

  function OpeningParams(kind: Kind, arrivals: bool): seq<Param> {
    if arrivals then [Str(kind.name), Str("unknown_" + kind.name)] else [Str(kind.name)]
  }

  function BranchParams(kind: Kind, filter: Filter, arrivals: bool): seq<Param> {
    OpeningParams(kind, arrivals) + ListingParams(filter, kind.fields)
  }

  function BranchTexts(kinds: seq<Kind>, filter: Filter, arrivals: bool): seq<seq<Tok>> {
    if kinds == [] then [] else [BranchText(kinds[0], filter, arrivals)] + BranchTexts(kinds[1..], filter, arrivals)
  }

  function UnionText(kinds: seq<Kind>, filter: Filter, arrivals: bool): seq<Tok> {
    JoinedText(Union, BranchTexts(kinds, filter, arrivals))
  }

  function UnionParams(kinds: seq<Kind>, filter: Filter, arrivals: bool): seq<Param> {
    if kinds == [] then [] else BranchParams(kinds[0], filter, arrivals) + UnionParams(kinds[1..], filter, arrivals)
  }

  /** The loop over the kinds: a list of branches and, apart from it, a list of parameters. */
  method UnionQuery(kinds: seq<Kind>, filter: Filter, arrivals: bool) returns (union: seq<Tok>, params: seq<Param>)
    ensures union == UnionText(kinds, filter, arrivals) && params == UnionParams(kinds, filter, arrivals)
  {
    var branches: seq<seq<Tok>> := [];
    params := [];
    hide BranchText, ListingParams, OpeningParams;
    var rest := kinds;
    while rest != []
      invariant branches + BranchTexts(rest, filter, arrivals) == BranchTexts(kinds, filter, arrivals)
      invariant params + UnionParams(rest, filter, arrivals) == UnionParams(kinds, filter, arrivals)
      decreases |rest|
    {
      var kind, where := rest[0], ListingParams(filter, rest[0].fields);
      ConcatAssociates(branches, [BranchText(kind, filter, arrivals)], BranchTexts(rest[1..], filter, arrivals));
      ConcatAssociates(params, BranchParams(kind, filter, arrivals), UnionParams(rest[1..], filter, arrivals));
      ConcatAssociates(params, OpeningParams(kind, arrivals), where);
      branches := branches + [BranchText(kind, filter, arrivals)];
      params := params + OpeningParams(kind, arrivals) + where;
      rest := rest[1..];
    }
    assert branches == BranchTexts(kinds, filter, arrivals) && params == UnionParams(kinds, filter, arrivals);
    union := JoinedText(Union, branches);
  }

  /** What a branch says once bound. */
  function BoundBranch(kind: Kind, filter: Filter, arrivals: bool): seq<Tok> {
    var test := if arrivals then kind.arrivalTest else kind.genreTest;
    var where := Bind(ListingText(filter, kind.fields, test), ListingParams(filter, kind.fields));
    if arrivals then
      [Sql("SELECT"), Val(Str(kind.name)), Sql("FROM"), Val(Str("unknown_" + kind.name)), Sql("GROUP BY")] + where
    else [Sql("SELECT"), Val(Str(kind.name)), Sql("FROM")] + where
  }

  lemma MarkBinds(p: Param)
    ensures Marks([Mark]) == 1 && Bind([Mark], [p]) == [Val(p)]
  {
    assert [Mark][1..] == [] && [p][1..] == [];
    assert Bind([Mark], [p]) == [Val(p)] + Bind([], []);
  }

  lemma AroundBinds(a: Tok, p: Param, b: Tok)
    requires a != Mark && b != Mark
    ensures Marks([a, Mark, b]) == 1 && Bind([a, Mark, b], [p]) == [a, Val(p), b]
  {
    PlainBinds(a);
    PlainBinds(b);
    MarkBinds(p);
    hide Bind, Marks;
    BindAppend([a], [Mark], [], [p]);
    BindAppend([a] + [Mark], [b], [] + [p], []);
    assert [] + [p] == [p] && [p] + [] == [p] && [a] + [Mark] + [b] == [a, Mark, b];
  }

  lemma OpeningBinds(kind: Kind, arrivals: bool)
    ensures Marks(Opening(arrivals)) == |OpeningParams(kind, arrivals)|
    ensures Bind(Opening(arrivals), OpeningParams(kind, arrivals)) ==
      if arrivals then
        [Sql("SELECT"), Val(Str(kind.name)), Sql("FROM"), Val(Str("unknown_" + kind.name)), Sql("GROUP BY")]
      else [Sql("SELECT"), Val(Str(kind.name)), Sql("FROM")]
  {
    var select, from, group := Sql("SELECT"), Sql("FROM"), Sql("GROUP BY");
    var name, unknown := Str(kind.name), Str("unknown_" + kind.name);
    AroundBinds(select, name, from);
    MarkBinds(unknown);
    PlainBinds(group);
    hide Bind, Marks;
    if arrivals {
      BindAppend([select, Mark, from], [Mark], [name], [unknown]);
      BindAppend([select, Mark, from] + [Mark], [group], [name] + [unknown], []);
      assert [name] + [unknown] + [] == OpeningParams(kind, true);
      assert [select, Mark, from] + [Mark] + [group] == Opening(true);
    }
  }

  lemma BranchBinds(kind: Kind, filter: Filter, arrivals: bool, row: Row)
    requires kind.fields != []
    ensures Marks(BranchText(kind, filter, arrivals)) == |BranchParams(kind, filter, arrivals)|
    ensures Bind(BranchText(kind, filter, arrivals), BranchParams(kind, filter, arrivals))
         == BoundBranch(kind, filter, arrivals)
  {
    var where, params := ListingText(filter, kind.fields, Test(kind, arrivals)), ListingParams(filter, kind.fields);
    FilterMeaning(filter, kind.fields, Test(kind, arrivals), row);
    OpeningBinds(kind, arrivals);
    hide Bind, Marks, ListingText, ListingParams;
    BindAppend(Opening(arrivals), where, OpeningParams(kind, arrivals), params);
  }

  function BoundUnion(kinds: seq<Kind>, filter: Filter, arrivals: bool): seq<Tok> {
    if kinds == [] then []
    else if |kinds| == 1 then BoundBranch(kinds[0], filter, arrivals)
    else BoundBranch(kinds[0], filter, arrivals) + [Union] + BoundUnion(kinds[1..], filter, arrivals)
  }

  lemma UnionStep(text: seq<Tok>, params: seq<Param>, rest: seq<Tok>, others: seq<Param>)
    requires Marks(text) == |params| && Marks(rest) == |others|
    ensures Marks(text + [Union] + rest) == |params + others|
    ensures Bind(text + [Union] + rest, params + others) == Bind(text, params) + [Union] + Bind(rest, others)
  {
    PlainBinds(Union);
    hide Bind, Marks;
    assert params + [] == params;
    BindAppend(text, [Union], params, []);
    BindAppend(text + [Union], rest, params, others);
  }

  lemma UnionTextCons(kinds: seq<Kind>, filter: Filter, arrivals: bool)
    requires kinds != []
    ensures UnionText(kinds, filter, arrivals) ==
      if |kinds| == 1 then BranchText(kinds[0], filter, arrivals)
      else BranchText(kinds[0], filter, arrivals) + [Union] + UnionText(kinds[1..], filter, arrivals)
  {
    hide BranchText;
    assert BranchTexts(kinds, filter, arrivals)[1..] == BranchTexts(kinds[1..], filter, arrivals);
    if |kinds| > 1 { assert BranchTexts(kinds[1..], filter, arrivals) != []; }
  }

  lemma {:induction false} UnionBinds(kinds: seq<Kind>, filter: Filter, arrivals: bool, row: Row)
    requires forall k :: k in kinds ==> k.fields != []
    ensures Marks(UnionText(kinds, filter, arrivals)) == |UnionParams(kinds, filter, arrivals)|
    ensures Bind(UnionText(kinds, filter, arrivals), UnionParams(kinds, filter, arrivals))
         == BoundUnion(kinds, filter, arrivals)
  {
    if kinds != [] {
      assert kinds[0] in kinds && forall k :: k in kinds[1..] ==> k in kinds;
      var text, params := BranchText(kinds[0], filter, arrivals), BranchParams(kinds[0], filter, arrivals);
      BranchBinds(kinds[0], filter, arrivals, row);
      UnionTextCons(kinds, filter, arrivals);
      hide Bind, Marks, BranchText, BranchParams, BoundBranch, UnionText;
      if |kinds| > 1 {
        UnionBinds(kinds[1..], filter, arrivals, row);
        UnionStep(text, params, UnionText(kinds[1..], filter, arrivals), UnionParams(kinds[1..], filter, arrivals));
      } else {
        assert kinds[1..] == [] && params + [] == params;
      }
    }
  }

  lemma PageBinds(limit: int, offset: int)
    ensures Bind([Sql("ORDER BY LIMIT"), Mark, Sql("OFFSET"), Mark], [Num(limit), Num(offset)])
         == [Sql("ORDER BY LIMIT"), Val(Num(limit)), Sql("OFFSET"), Val(Num(offset))]
  {
    var order, offsets := Sql("ORDER BY LIMIT"), Sql("OFFSET");
    AroundBinds(order, Num(limit), offsets);
    MarkBinds(Num(offset));
    hide Bind, Marks;
    BindAppend([order, Mark, offsets], [Mark], [Num(limit)], [Num(offset)]);
    assert [order, Mark, offsets] + [Mark] == [order, Mark, offsets, Mark];
    assert [Num(limit)] + [Num(offset)] == [Num(limit), Num(offset)];
  }

  /** For any list of kinds, the one flat list of parameters gives every placeholder of the
      paged UNION its own branch's value, and LIMIT and OFFSET the page's. */
  lemma UnionLinesUp(kinds: seq<Kind>, filter: Filter, arrivals: bool, row: Row, limit: int, offset: int)
    requires forall k :: k in kinds ==> k.fields != []
    ensures Bind(UnionText(kinds, filter, arrivals) + [Sql("ORDER BY LIMIT"), Mark, Sql("OFFSET"), Mark],
                 UnionParams(kinds, filter, arrivals) + [Num(limit), Num(offset)])
         == BoundUnion(kinds, filter, arrivals)
            + [Sql("ORDER BY LIMIT"), Val(Num(limit)), Sql("OFFSET"), Val(Num(offset))]
  {
    var order, offsets := Sql("ORDER BY LIMIT"), Sql("OFFSET");
    UnionBinds(kinds, filter, arrivals, row);
    hide UnionText, UnionParams, BoundUnion;
    PageBinds(limit, offset);
    hide Bind, Marks;
    BindAppend(UnionText(kinds, filter, arrivals), [order, Mark, offsets, Mark],
               UnionParams(kinds, filter, arrivals), [Num(limit), Num(offset)]);
  }
}
