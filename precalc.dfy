/**
 * `runForDeprel` and `RunPg` of engine/precalc.go: two passes over the
 * token rows of a vertical file (edges, then co-occurrences of the seeded
 * pairs), followed by the transaction that replaces the corpus' stored
 * tables. The rows are given as a sequence (the parser is not part of the
 * model) and the database calls are returned as a trace.
 */
module Precalc {
  import opened Wrappers
  import opened Conf
  import opened Tables
  import opened Passes
  import opened BulkWrite

  /** One token as the vertical-file parser hands it to a processor: its columns, its line and a parse error. */
  datatype Row = Row(attrs: seq<string>, line: int, err: Option<string>)

  /** A row the processors count: no parse error and at least `MinColumns` columns. */
  predicate Counted(r: Row)
  {
    r.err.None? && |r.attrs| >= MinColumns
  }

  /**
   * What a processor reports for a row: the parse error, a panic when a
   * counted row lacks a configured column, and success otherwise.
   */
  function RowStatus(r: Row, columnsIn: bool): (s: Status)
    ensures s == Ok <==> r.err.None? && (|r.attrs| < MinColumns || columnsIn)
    ensures s == Panic <==> Counted(r) && !columnsIn
  {
    if r.err.Some? then Err(r.err.value)
    else if |r.attrs| >= MinColumns && !columnsIn then Panic
    else Ok
  }

  /** The two passes over the file: they need different columns. */
  datatype Pass = EdgePass | TokenPass

  /** The columns a pass reads are within the first `n`. */
  predicate ColumnsIn(pass: Pass, conf: SyntaxProps, n: int)
  {
    match pass
    case EdgePass => EdgeColumnsIn(conf, n)
    case TokenPass => TokenColumnsIn(conf, n)
  }

  /** What the pass's processor reports for a row. */
  function Outcome(pass: Pass, conf: SyntaxProps, r: Row): Status
  {
    RowStatus(r, ColumnsIn(pass, conf, |r.attrs|))
  }

  /** The index of the first row whose status is not `Ok` (the row the parser stops at), or `|rows|`. */
  function FirstFailure(pass: Pass, conf: SyntaxProps, rows: seq<Row>): (n: nat)
    ensures n <= |rows|
    ensures forall k :: 0 <= k < n ==> Outcome(pass, conf, rows[k]) == Ok
    ensures n < |rows| ==> Outcome(pass, conf, rows[n]) != Ok
  {
    if |rows| == 0 then 0
    else if Outcome(pass, conf, rows[0]) != Ok then 0
    else 1 + FirstFailure(pass, conf, rows[1..])
  }

  /** The status of a pass: that of the first failing row, if any. */
  function PassStatus(pass: Pass, conf: SyntaxProps, rows: seq<Row>): (s: Status)
    ensures s == Ok <==> forall k :: 0 <= k < |rows| ==> Outcome(pass, conf, rows[k]) == Ok
  {
    var n := FirstFailure(pass, conf, rows);
    if n == |rows| then Ok else Outcome(pass, conf, rows[n])
  }

  lemma FirstFailureAt(pass: Pass, conf: SyntaxProps, rows: seq<Row>, k: nat)
    requires k <= |rows|
    requires forall j :: 0 <= j < k ==> Outcome(pass, conf, rows[j]) == Ok
    requires k < |rows| ==> Outcome(pass, conf, rows[k]) != Ok
    ensures FirstFailure(pass, conf, rows) == k
    ensures PassStatus(pass, conf, rows) == if k == |rows| then Ok else Outcome(pass, conf, rows[k])
  {
  }

  /** A row with all edge columns in range also has its token columns in range. */
  lemma EdgeOkTokenOk(conf: SyntaxProps, rows: seq<Row>)
    requires forall k :: 0 <= k < |rows| ==> Outcome(EdgePass, conf, rows[k]) == Ok
    ensures forall k :: 0 <= k < |rows| ==> Outcome(TokenPass, conf, rows[k]) == Ok
    ensures FirstFailure(TokenPass, conf, rows) == |rows|
  {
    FirstFailureAt(TokenPass, conf, rows, |rows|);
  }

  /** The edges the counted rows contribute, in row order. */
  function PassEdges(conf: SyntaxProps, types: seq<string>, rows: seq<Row>, n: nat): seq<CtKey>
    requires n <= |rows|
  {
    if n == 0 then [] else PassEdges(conf, types, rows, n - 1) + RowEdgesOf(conf, types, rows[n - 1])
  }

  /** The edges of one row: none unless it is counted (and a row it panics on is never reached). */
  function RowEdgesOf(conf: SyntaxProps, types: seq<string>, r: Row): seq<CtKey>
  {
    if Counted(r) && EdgeColumnsIn(conf, |r.attrs|) then RowEdges(conf, types, r.attrs) else []
  }

  /** The (lemma, upos) positions of the counted rows, in row order. */
  function Positions(conf: SyntaxProps, rows: seq<Row>, n: nat): (xs: seq<Pos>)
    requires n <= |rows|
    ensures |xs| <= n
  {
    if n == 0 then [] else Positions(conf, rows, n - 1) + PositionOf(conf, rows[n - 1])
  }

  /** The position of one row: none unless it is counted. */
  function PositionOf(conf: SyntaxProps, r: Row): (xs: seq<Pos>)
    ensures |xs| <= 1
  {
    if Counted(r) && TokenColumnsIn(conf, |r.attrs|) then [(r.attrs[conf.lemmaAttr.verticalCol - 1], r.attrs[conf.posAttr.verticalCol - 1])] else []
  }

  /** One more position: the token table and the pair table take one step each. */
  lemma CoStep(t0: map<FyKey, int>, w0: seq<Pos>, c0: map<CoKey, int>, xs: seq<Pos>, x: Pos, span: int,
               tokens: map<FyKey, int>, window: seq<Pos>, pairs: map<CoKey, int>)
    requires tokens == CountTokens(t0, xs) && (window, pairs) == CoCount(c0, w0, xs, span)
    ensures CountTokens(t0, xs + [x]) == CountIfSeeded(tokens, FyKey(x.0, x.1, ""))
    ensures var w := Slide(window, x, span);
      CoCount(c0, w0, xs + [x], span) == (w, if |w| == 2 * span + 1 then CountNear(pairs, w, span, |w|) else pairs)
  {
    assert (xs + [x])[..|xs|] == xs;
  }

  /** Adding `a` and then `b` is adding `a + b`. */
  lemma {:induction false} AddEachAppend<K>(m: map<K, int>, a: seq<K>, b: seq<K>)
    ensures AddEach(AddEach(m, a), b) == AddEach(m, a + b)
    decreases |b|
  {
    if |b| > 0 {
      AddEachAppend(m, a, b[..|b| - 1]);
      assert (a + b)[..|a + b| - 1] == a + b[..|b| - 1];
    } else {
      assert a + b == a;
    }
  }

  lemma {:induction false} ParentsAppend(a: seq<CtKey>, b: seq<CtKey>)
    ensures ParentsOf(a + b) == ParentsOf(a) + ParentsOf(b)
    decreases |b|
  {
    if |b| > 0 {
      var b' := b[..|b| - 1];
      ParentsAppend(a, b');
      assert (a + b)[..|a + b| - 1] == a + b';
      assert ParentsOf(a + b) == ParentsOf(a + b') + [ParentOf(b[|b| - 1])];
    } else {
      assert a + b == a;
    }
  }

  lemma {:induction false} ChildrenAppend(a: seq<CtKey>, b: seq<CtKey>)
    ensures ChildrenOf(a + b) == ChildrenOf(a) + ChildrenOf(b)
    decreases |b|
  {
    if |b| > 0 {
      var b' := b[..|b| - 1];
      ChildrenAppend(a, b');
      assert (a + b)[..|a + b| - 1] == a + b';
      assert ChildrenOf(a + b) == ChildrenOf(a + b') + [ChildOf(b[|b| - 1])];
    } else {
      assert a + b == a;
    }
  }

  /** The three tables of the edge pass after the first `n` rows, from `t0`, `p0` and `c0`. */
  ghost predicate EdgePassDone(conf: SyntaxProps, types: seq<string>, t0: map<CtKey, int>, p0: map<FyKey, int>,
                               c0: map<FyKey, int>, rows: seq<Row>, n: nat,
                               table: map<CtKey, int>, parents: map<FyKey, int>, children: map<FyKey, int>)
    requires n <= |rows|
  {
    var es := PassEdges(conf, types, rows, n);
    table == AddEach(t0, es) && parents == AddEach(p0, ParentsOf(es)) && children == AddEach(c0, ChildrenOf(es))
  }

  /** One more row: each table takes the row's edges (or their images) in order. */
  lemma EdgePassStep(conf: SyntaxProps, types: seq<string>, t0: map<CtKey, int>, p0: map<FyKey, int>,
                     c0: map<FyKey, int>, rows: seq<Row>, k: nat,
                     table: map<CtKey, int>, parents: map<FyKey, int>, children: map<FyKey, int>)
    requires k < |rows|
    requires EdgePassDone(conf, types, t0, p0, c0, rows, k, table, parents, children)
    ensures var rs := RowEdgesOf(conf, types, rows[k]);
      EdgePassDone(conf, types, t0, p0, c0, rows, k + 1,
                   AddEach(table, rs), AddEach(parents, ParentsOf(rs)), AddEach(children, ChildrenOf(rs)))
  {
    var es := PassEdges(conf, types, rows, k);
    var rs := RowEdgesOf(conf, types, rows[k]);
    AddEachAppend(t0, es, rs);
    ParentsAppend(es, rs);
    ChildrenAppend(es, rs);
    AddEachAppend(p0, ParentsOf(es), ParentsOf(rs));
    AddEachAppend(c0, ChildrenOf(es), ChildrenOf(rs));
  }

  /**
   * `vertigo.ParseVerticalFile` with a `VertProcessor`: the rows in order
   * until one fails. The tables then hold every edge of the counted rows
   * before it, and stay consistent.
   */
  method RunEdgePass(proc: VertProcessor, rows: seq<Row>) returns (status: Status)
    requires proc.Valid()
    modifies proc.table, proc.parentCounts, proc.childCounts
    ensures proc.Valid()
    ensures status == PassStatus(EdgePass, proc.conf, rows)
    ensures EdgePassDone(proc.conf, proc.deprelTypes, old(proc.table.items), old(proc.parentCounts.items),
                         old(proc.childCounts.items), rows, FirstFailure(EdgePass, proc.conf, rows),
                         proc.table.items, proc.parentCounts.items, proc.childCounts.items)
  {
    ghost var t0, p0, c0 := proc.table.items, proc.parentCounts.items, proc.childCounts.items;
    var k := 0;
    while k < |rows|
      invariant 0 <= k <= |rows|
      invariant proc.Valid()
      invariant forall j :: 0 <= j < k ==> Outcome(EdgePass, proc.conf, rows[j]) == Ok
      invariant EdgePassDone(proc.conf, proc.deprelTypes, t0, p0, c0, rows, k,
                             proc.table.items, proc.parentCounts.items, proc.childCounts.items)
    {
      status := EdgeRow(proc, rows, k, t0, p0, c0);
      if status != Ok {
        FirstFailureAt(EdgePass, proc.conf, rows, k);
        return;
      }
      k := k + 1;
    }
    FirstFailureAt(EdgePass, proc.conf, rows, |rows|);
    status := Ok;
  }

  /** One row of the edge pass. */
  method EdgeRow(proc: VertProcessor, rows: seq<Row>, k: nat, ghost t0: map<CtKey, int>, ghost p0: map<FyKey, int>,
                 ghost c0: map<FyKey, int>) returns (status: Status)
    requires k < |rows| && proc.Valid()
    requires EdgePassDone(proc.conf, proc.deprelTypes, t0, p0, c0, rows, k,
                          proc.table.items, proc.parentCounts.items, proc.childCounts.items)
    modifies proc.table, proc.parentCounts, proc.childCounts
    ensures proc.Valid()
    ensures status == Outcome(EdgePass, proc.conf, rows[k])
    ensures status != Ok ==> unchanged(proc.table, proc.parentCounts, proc.childCounts)
    ensures status == Ok ==>
      EdgePassDone(proc.conf, proc.deprelTypes, t0, p0, c0, rows, k + 1,
                   proc.table.items, proc.parentCounts.items, proc.childCounts.items)
  {
    var r := rows[k];
    ghost var t, p, c := proc.table.items, proc.parentCounts.items, proc.childCounts.items;
    status := proc.ProcToken(r.attrs, r.line, r.err);
    if status == Ok {
      EdgePassStep(proc.conf, proc.deprelTypes, t0, p0, c0, rows, k, t, p, c);
    }
  }

  /**
   * The co-occurrence pass over positions `xs`, from window `window` and
   * pair table `pairs`: the window slides at each position and, when full,
   * the seeded pairs of its middle are counted.
   */
  ghost function CoCount(pairs: map<CoKey, int>, window: seq<Pos>, xs: seq<Pos>, span: int): (seq<Pos>, map<CoKey, int>)
  {
    if |xs| == 0 then (window, pairs)
    else
      var prev := CoCount(pairs, window, xs[..|xs| - 1], span);
      var w := Slide(prev.0, xs[|xs| - 1], span);
      (w, if |w| == 2 * span + 1 then CountNear(prev.1, w, span, |w|) else prev.1)
  }

  /** The token table after the positions `xs`: each seeded key gains one per occurrence. */
  function CountTokens(m: map<FyKey, int>, xs: seq<Pos>): map<FyKey, int>
  {
    if |xs| == 0 then m
    else
      var x := xs[|xs| - 1];
      CountIfSeeded(CountTokens(m, xs[..|xs| - 1]), FyKey(x.0, x.1, ""))
  }

  /** The token keys of the positions `xs`. */
  function TokenKeys(xs: seq<Pos>): (ks: seq<FyKey>)
    ensures |ks| == |xs|
    ensures forall i :: 0 <= i < |xs| ==> ks[i] == FyKey(xs[i].0, xs[i].1, "")
  {
    seq(|xs|, i requires 0 <= i < |xs| => FyKey(xs[i].0, xs[i].1, ""))
  }

  /** The token pass adds no key and counts each seeded key once per occurrence. */
  lemma {:induction false} CountTokensOccurrences(m: map<FyKey, int>, xs: seq<Pos>)
    ensures CountTokens(m, xs).Keys == m.Keys
    ensures forall k :: k in m ==> CountTokens(m, xs)[k] == m[k] + multiset(TokenKeys(xs))[k]
  {
    if |xs| > 0 {
      var init := xs[..|xs| - 1];
      var x := xs[|xs| - 1];
      CountTokensOccurrences(m, init);
      assert TokenKeys(xs) == TokenKeys(init) + [FyKey(x.0, x.1, "")];
    }
  }

  /** The co-occurrence pass adds no key and never lowers a count. */
  lemma {:induction false} CoCountKeys(pairs: map<CoKey, int>, window: seq<Pos>, xs: seq<Pos>, span: int)
    ensures CoCount(pairs, window, xs, span).1.Keys == pairs.Keys
    ensures forall k :: k in pairs ==> CoCount(pairs, window, xs, span).1[k] >= pairs[k]
  {
    if |xs| > 0 {
      var prev := CoCount(pairs, window, xs[..|xs| - 1], span);
      CoCountKeys(pairs, window, xs[..|xs| - 1], span);
      var w := Slide(prev.0, xs[|xs| - 1], span);
      if |w| == 2 * span + 1 {
        forall k | k in prev.1
          ensures CountNear(prev.1, w, span, |w|)[k] >= prev.1[k]
        {
          CountNearHits(prev.1, w, span, |w|, k);
        }
      }
    }
  }

  /** The window alone after the positions `xs`. */
  ghost function WindowAfter(window: seq<Pos>, xs: seq<Pos>, span: int): seq<Pos>
  {
    if |xs| == 0 then window else Slide(WindowAfter(window, xs[..|xs| - 1], span), xs[|xs| - 1], span)
  }

  lemma {:induction false} CoCountWindowAfter(pairs: map<CoKey, int>, window: seq<Pos>, xs: seq<Pos>, span: int)
    ensures CoCount(pairs, window, xs, span).0 == WindowAfter(window, xs, span)
  {
    if |xs| > 0 {
      CoCountWindowAfter(pairs, window, xs[..|xs| - 1], span);
    }
  }

  lemma {:induction false} WindowAfterLast(window: seq<Pos>, xs: seq<Pos>, span: int)
    requires span >= 0 && |window| <= 2 * span + 1
    ensures WindowAfter(window, xs, span) == Last(window + xs, 2 * span + 1)
  {
    if |xs| == 0 {
      assert window + xs == window;
    } else {
      var init := xs[..|xs| - 1];
      WindowAfterLast(window, init, span);
      SlideKeepsLast(window + init, xs[|xs| - 1], span);
      assert window + init + [xs[|xs| - 1]] == window + xs;
    }
  }

  /** From a window of at most `2 * span + 1` entries, the window ends as the last `2 * span + 1` entries seen. */
  lemma CoCountWindow(pairs: map<CoKey, int>, window: seq<Pos>, xs: seq<Pos>, span: int)
    requires span >= 0 && |window| <= 2 * span + 1
    ensures CoCount(pairs, window, xs, span).0 == Last(window + xs, 2 * span + 1)
  {
    CoCountWindowAfter(pairs, window, xs, span);
    WindowAfterLast(window, xs, span);
  }

  /** The state of the co-occurrence pass after `rows`, from token table `t0`, window `w0` and pair table `c0`. */
  ghost predicate CoPassDone(conf: SyntaxProps, span: int, t0: map<FyKey, int>, w0: seq<Pos>, c0: map<CoKey, int>,
                             rows: seq<Row>, n: nat, tokens: map<FyKey, int>, window: seq<Pos>, pairs: map<CoKey, int>)
    requires n <= |rows|
  {
    var xs := Positions(conf, rows, n);
    tokens == CountTokens(t0, xs) && (window, pairs) == CoCount(c0, w0, xs, span)
  }

  /** One more row that is not counted: the pass state stays. */
  lemma CoPassSkip(conf: SyntaxProps, span: int, t0: map<FyKey, int>, w0: seq<Pos>, c0: map<CoKey, int>,
                   rows: seq<Row>, k: int, tokens: map<FyKey, int>, window: seq<Pos>, pairs: map<CoKey, int>)
    requires 0 <= k < |rows| && !Counted(rows[k])
    requires CoPassDone(conf, span, t0, w0, c0, rows, k, tokens, window, pairs)
    ensures CoPassDone(conf, span, t0, w0, c0, rows, k + 1, tokens, window, pairs)
  {
    var xs := Positions(conf, rows, k);
    assert Positions(conf, rows, k + 1) == xs + [] == xs;
  }

  /** One more counted row with its token columns in range: the pass state takes the step `ProcToken` takes. */
  lemma CoPassCount(conf: SyntaxProps, span: int, t0: map<FyKey, int>, w0: seq<Pos>, c0: map<CoKey, int>,
                    rows: seq<Row>, k: int, tokens: map<FyKey, int>, window: seq<Pos>, pairs: map<CoKey, int>)
    requires 0 <= k < |rows| && Counted(rows[k]) && TokenColumnsIn(conf, |rows[k].attrs|)
    requires CoPassDone(conf, span, t0, w0, c0, rows, k, tokens, window, pairs)
    ensures var a := rows[k].attrs;
      var x := (a[conf.lemmaAttr.verticalCol - 1], a[conf.posAttr.verticalCol - 1]);
      var w := Slide(window, x, span);
      CoPassDone(conf, span, t0, w0, c0, rows, k + 1, CountIfSeeded(tokens, FyKey(x.0, x.1, "")), w,
                 if |w| == 2 * span + 1 then CountNear(pairs, w, span, |w|) else pairs)
  {
    var xs := Positions(conf, rows, k);
    var a := rows[k].attrs;
    var x := (a[conf.lemmaAttr.verticalCol - 1], a[conf.posAttr.verticalCol - 1]);
    assert Positions(conf, rows, k + 1) == xs + [x];
    CoStep(t0, w0, c0, xs, x, span, tokens, window, pairs);
  }

  /** `vertigo.ParseVerticalFile` with a `CoVertProcessor`: the rows in order until one fails. */
  method RunCoPass(proc: CoVertProcessor, rows: seq<Row>) returns (status: Status)
    requires proc.Valid()
    modifies proc, proc.coOccTable, proc.tokenCounts
    ensures proc.Valid()
    ensures status == PassStatus(TokenPass, proc.conf, rows)
    ensures CoPassDone(proc.conf, proc.span, old(proc.tokenCounts.items), old(proc.window), old(proc.coOccTable.items),
                       rows, FirstFailure(TokenPass, proc.conf, rows),
                       proc.tokenCounts.items, proc.window, proc.coOccTable.items)
  {
    ghost var t0, w0, c0 := proc.tokenCounts.items, proc.window, proc.coOccTable.items;
    var k := 0;
    while k < |rows|
      invariant 0 <= k <= |rows|
      invariant proc.Valid()
      invariant forall j :: 0 <= j < k ==> Outcome(TokenPass, proc.conf, rows[j]) == Ok
      invariant CoPassDone(proc.conf, proc.span, t0, w0, c0, rows, k, proc.tokenCounts.items, proc.window, proc.coOccTable.items)
    {
      status := CoRow(proc, rows, k, t0, w0, c0);
      if status != Ok {
        FirstFailureAt(TokenPass, proc.conf, rows, k);
        assert FirstFailure(TokenPass, proc.conf, rows) == k;
        return;
      }
      k := k + 1;
    }
    FirstFailureAt(TokenPass, proc.conf, rows, |rows|);
    assert FirstFailure(TokenPass, proc.conf, rows) == |rows|;
    status := Ok;
  }

  /** One row of the co-occurrence pass. */
  method CoRow(proc: CoVertProcessor, rows: seq<Row>, k: int, ghost t0: map<FyKey, int>, ghost w0: seq<Pos>,
               ghost c0: map<CoKey, int>) returns (status: Status)
    requires 0 <= k < |rows| && proc.Valid()
    requires CoPassDone(proc.conf, proc.span, t0, w0, c0, rows, k, proc.tokenCounts.items, proc.window, proc.coOccTable.items)
    modifies proc, proc.coOccTable, proc.tokenCounts
    ensures proc.Valid()
    ensures status == Outcome(TokenPass, proc.conf, rows[k])
    ensures status != Ok ==> proc.window == old(proc.window) && unchanged(proc.coOccTable, proc.tokenCounts)
    ensures status == Ok ==>
      CoPassDone(proc.conf, proc.span, t0, w0, c0, rows, k + 1, proc.tokenCounts.items, proc.window, proc.coOccTable.items)
  {
    var r := rows[k];
    ghost var tokens, window, pairs := proc.tokenCounts.items, proc.window, proc.coOccTable.items;
    status := proc.ProcToken(r.attrs, r.line, r.err);
    if status == Ok {
      CoRowStep(proc.conf, proc.span, t0, w0, c0, rows, k, tokens, window, pairs,
                proc.tokenCounts.items, proc.window, proc.coOccTable.items);
    }
  }

  /** The pass state after a row that `ProcToken` accepted, whether it was counted or skipped. */
  lemma CoRowStep(conf: SyntaxProps, span: int, t0: map<FyKey, int>, w0: seq<Pos>, c0: map<CoKey, int>,
                  rows: seq<Row>, k: int, tokens: map<FyKey, int>, window: seq<Pos>, pairs: map<CoKey, int>,
                  tokens': map<FyKey, int>, window': seq<Pos>, pairs': map<CoKey, int>)
    requires 0 <= k < |rows| && rows[k].err.None?
    requires CoPassDone(conf, span, t0, w0, c0, rows, k, tokens, window, pairs)
    requires !Counted(rows[k]) ==> window' == window && tokens' == tokens && pairs' == pairs
    requires Counted(rows[k]) ==> TokenColumnsIn(conf, |rows[k].attrs|)
    requires Counted(rows[k]) ==>
      var a := rows[k].attrs;
      var x := (a[conf.lemmaAttr.verticalCol - 1], a[conf.posAttr.verticalCol - 1]);
      tokens' == CountIfSeeded(tokens, FyKey(x.0, x.1, "")) && window' == Slide(window, x, span) &&
      pairs' == (if |window'| == 2 * span + 1 then CountNear(pairs, window', span, |window'|) else pairs)
    ensures CoPassDone(conf, span, t0, w0, c0, rows, k + 1, tokens', window', pairs')
  {
    if Counted(rows[k]) {
      CoPassCount(conf, span, t0, w0, c0, rows, k, tokens, window, pairs);
    } else {
      CoPassSkip(conf, span, t0, w0, c0, rows, k, tokens, window, pairs);
    }
  }

  /** `order` lists the keys of `s` in some order (Go's map iteration order is unspecified). */
  method Enumerate<K>(s: set<K>) returns (order: seq<K>)
    ensures IsEnumeration(order, s)
  {
    order := [];
    var rest := s;
    while rest != {}
      invariant rest <= s
      invariant forall i :: 0 <= i < |order| ==> order[i] in s && order[i] !in rest
      invariant forall k :: k in s ==> k in rest || k in order
      invariant forall i, j :: 0 <= i < j < |order| ==> order[i] != order[j]
      decreases |rest|
    {
      var k :| k in rest;
      order := order + [k];
      rest := rest - {k};
    }
  }

  /** A database call of `runForDeprel`. */
  datatype DbCall = BeginTx | ExecOnDb(sql: string) | ExecInTx(insert: Insert) | Commit

  function InTx(inserts: seq<Insert>): (calls: seq<DbCall>)
    ensures |calls| == |inserts|
    ensures forall i :: 0 <= i < |inserts| ==> calls[i] == ExecInTx(inserts[i])
  {
    seq(|inserts|, i requires 0 <= i < |inserts| => ExecInTx(inserts[i]))
  }

  /** `DELETE FROM <corpus>_fcolls`. */
  function DeleteFcolls(corpusID: string): string
  {
    "DELETE FROM " + corpusID + "_fcolls"
  }

  /**
   * The calls of a successful run: the transaction is opened, the old
   * `_fcolls` rows are deleted (on the connection pool, not inside the
   * transaction), the edges, child sums and parent sums are inserted
   * within it, and it is committed.
   */
  ghost predicate WriteTrace(calls: seq<DbCall>, corpusID: string, table: map<CtKey, int>, pairs: map<CoKey, int>,
                             tokens: map<FyKey, int>, children: map<FyKey, int>, parents: map<FyKey, int>)
  {
    LookupsHit(table.Keys, pairs, tokens) &&
    exists fo: seq<CtKey>, co: seq<FyKey>, po: seq<FyKey> ::
      IsEnumeration(fo, table.Keys) && IsEnumeration(co, children.Keys) && IsEnumeration(po, parents.Keys) &&
      calls == TxCalls(corpusID, FxyInserts(corpusID, table, pairs, tokens, fo),
                       SumsInserts(ChildrenHead(corpusID), children, co), SumsInserts(ParentsHead(corpusID), parents, po))
  }

  /** Begin, the pool DELETE, every INSERT in the transaction in writer order, then commit. */
  function TxCalls(corpusID: string, fxy: seq<Insert>, children: seq<Insert>, parents: seq<Insert>): (r: seq<DbCall>)
    ensures |r| == |fxy| + |children| + |parents| + 3
    ensures r[0] == BeginTx && r[1] == ExecOnDb(DeleteFcolls(corpusID)) && r[|r| - 1] == Commit
    ensures forall i :: 0 <= i < |fxy + children + parents| ==> r[i + 2] == ExecInTx((fxy + children + parents)[i])
  {
    [BeginTx, ExecOnDb(DeleteFcolls(corpusID))] + InTx(fxy) + InTx(children) + InTx(parents) + [Commit]
  }

  /** The relation types counted under `conf`. */
  function DeprelTypes(conf: SyntaxProps): seq<string>
  {
    ExpandDeprelMultivalues([conf.nounModifiedValue, conf.nounSubjectValue, conf.nounObjectValue])
  }

  /**
   * The outcome of a successful run: its calls write the edge table of
   * the whole file, its exact marginals, and the pair and token counts of
   * the co-occurrence pass over the pairs and tokens the edges seeded.
   */
  ghost predicate Precalculated(corpusID: string, rows: seq<Row>, coOccSpan: int, conf: SyntaxProps, calls: seq<DbCall>)
  {
    var es := PassEdges(conf, DeprelTypes(conf), rows, |rows|);
    var table := AddEach(map[], es);
    var xs := Positions(conf, rows, |rows|);
    var parents := AddEach(map[], ParentsOf(es));
    var children := AddEach(map[], ChildrenOf(es));
    Consistent(table, parents, children) &&
    WriteTrace(calls, corpusID, table,
               CoCount(SeedPairs(table.Keys), [], xs, coOccSpan).1,
               CountTokens(SeedTokens(table.Keys), xs), children, parents)
  }

  /**
   * `runForDeprel`: a failing row ends the run with its status before any
   * database call, and so does a negative span (the window's capacity
   * `2 * span + 1` is negative, and `make` panics). Otherwise the trace
   * writes the edge table of the whole file, its exact marginals, and the
   * pair and token counts of the co-occurrence pass over the pairs and
   * tokens the edges seeded.
   */
  method RunForDeprel(corpusID: string, rows: seq<Row>, coOccSpan: int, conf: SyntaxProps)
    returns (status: Status, calls: seq<DbCall>)
    ensures status == (if PassStatus(EdgePass, conf, rows) != Ok then PassStatus(EdgePass, conf, rows)
                       else if coOccSpan < 0 then Panic else Ok)
    ensures status != Ok ==> calls == []
    ensures status == Ok ==> |calls| >= 3 && calls[0] == BeginTx && calls[1] == ExecOnDb(DeleteFcolls(corpusID)) &&
                             calls[|calls| - 1] == Commit
    ensures status == Ok ==> Precalculated(corpusID, rows, coOccSpan, conf, calls)
  {
    var proc := new VertProcessor(DeprelTypes(conf), conf);
    status := RunEdgePass(proc, rows);
    if status != Ok {
      return status, [];
    }
    if coOccSpan < 0 {
      return Panic, [];
    }
    var coOccTable, tokenCounts := CoPhase(proc.table, conf, coOccSpan, rows);
    calls := WriteAll(corpusID, proc.table, coOccTable, tokenCounts, proc.childCounts, proc.parentCounts);
  }

  /** Seeding from the edge table, then the co-occurrence pass over the same rows. */
  method CoPhase(table: CounterTable, conf: SyntaxProps, coOccSpan: int, rows: seq<Row>)
    returns (coOccTable: CoOccTable, tokenCounts: FyTable)
    requires forall k :: 0 <= k < |rows| ==> Outcome(EdgePass, conf, rows[k]) == Ok
    ensures LookupsHit(table.items.Keys, coOccTable.items, tokenCounts.items)
    ensures coOccTable.items == CoCount(SeedPairs(table.items.Keys), [], Positions(conf, rows, |rows|), coOccSpan).1
    ensures tokenCounts.items == CountTokens(SeedTokens(table.items.Keys), Positions(conf, rows, |rows|))
  {
    coOccTable, tokenCounts := Seed(table);
    SeedingCoversEdges(table.items.Keys);
    var coProc := new CoVertProcessor(coOccSpan, conf, coOccTable, tokenCounts);
    EdgeOkTokenOk(conf, rows);
    var coStatus := RunCoPass(coProc, rows);
    ghost var xs := Positions(conf, rows, |rows|);
    CoCountKeys(SeedPairs(table.items.Keys), [], xs, coOccSpan);
    CountTokensOccurrences(SeedTokens(table.items.Keys), xs);
  }

  /** The transaction of a successful run. */
  method WriteAll(corpusID: string, table: CounterTable, coOccTable: CoOccTable, tokenCounts: FyTable,
                  childCounts: FyTable, parentCounts: FyTable) returns (calls: seq<DbCall>)
    requires LookupsHit(table.items.Keys, coOccTable.items, tokenCounts.items)
    ensures |calls| >= 3 && calls[0] == BeginTx && calls[1] == ExecOnDb(DeleteFcolls(corpusID)) &&
            calls[|calls| - 1] == Commit
    ensures WriteTrace(calls, corpusID, table.items, coOccTable.items, tokenCounts.items, childCounts.items, parentCounts.items)
  {
    var fo := Enumerate(table.items.Keys);
    var fxy := WriteFxy(table, coOccTable, tokenCounts, corpusID, fo);
    var co := Enumerate(childCounts.items.Keys);
    var ch := WriteChildren(childCounts, corpusID, co);
    var po := Enumerate(parentCounts.items.Keys);
    var pa := WriteParents(parentCounts, corpusID, po);
    calls := TxCalls(corpusID, fxy, ch, pa);
  }

  /** `RunPg`: `runForDeprel` with the same arguments. */
  method RunPg(corpusID: string, rows: seq<Row>, coOccSpan: int, conf: SyntaxProps)
    returns (status: Status, calls: seq<DbCall>)
    ensures status == Ok <==> coOccSpan >= 0 && forall k :: 0 <= k < |rows| ==> Outcome(EdgePass, conf, rows[k]) == Ok
    ensures status != Ok ==> calls == []
    ensures status == Ok ==> |calls| >= 3 && calls[0] == BeginTx && calls[1] == ExecOnDb(DeleteFcolls(corpusID)) &&
                             calls[|calls| - 1] == Commit
    ensures status == Ok ==> Precalculated(corpusID, rows, coOccSpan, conf, calls)
  {
    status, calls := RunForDeprel(corpusID, rows, coOccSpan, conf);
  }
}
