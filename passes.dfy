/**
 * The two passes over the vertical file (engine/precalc.go): the edge pass
 * (`VertProcessor`), which counts dependency edges and their parent and
 * child marginals, the seeding of the co-occurrence tables from the edge
 * table, and the co-occurrence pass (`CoVertProcessor`), which slides a
 * window over the tokens and counts seeded pairs only.
 *
 * A token row is the sequence of its attributes (the word column excluded),
 * so the attribute configured at column `k` is `attrs[k - 1]`.
 */
module Passes {
  import opened Wrappers
  import Strings
  import opened Conf
  import opened Tables

  /** What a `ProcToken` call leads to: nil, an error that stops the parse, or a Go panic. */
  datatype Status = Ok | Err(msg: string) | Panic

  /** Minimal number of attributes of a row that is processed. */
  const MinColumns: int := 12

  /**
   * `expandDeprelMultivalue`: with three or more `|`-separated parts the
   * parts and then the whole value, otherwise the value alone (so a
   * two-part value such as `obj|iobj` is not split).
   */
  function ExpandDeprelMultivalue(value: string): (r: seq<string>)
    ensures |r| >= 1 && r[|r| - 1] == value
    ensures |r| == 1 || |r| >= 4
    ensures forall i :: 0 <= i < |r| - 1 ==> '|' !in r[i]
  {
    var tmp := Strings.Split(value, '|');
    if |tmp| > 2 then tmp + [value] else [value]
  }

  /**
   * The expansion always ends with the value itself; below two separators
   * it is the value alone; from two separators on, the elements before it
   * are separator-free pieces that join back to the value.
   */
  lemma ExpandDeprelMultivalueShape(value: string)
    ensures var r := ExpandDeprelMultivalue(value);
      |r| >= 1 && r[|r| - 1] == value &&
      (Strings.Count(value, '|') < 2 ==> r == [value]) &&
      (Strings.Count(value, '|') >= 2 ==>
        |r| == Strings.Count(value, '|') + 2 &&
        Strings.Join(r[..|r| - 1], "|") == value &&
        forall i :: 0 <= i < |r| - 1 ==> '|' !in r[i])
  {
    var tmp := Strings.Split(value, '|');
    Strings.JoinSplit(value, '|');
    assert (tmp + [value])[..|tmp|] == tmp;
  }

  /** The object relation value `obj|iobj` is kept whole, not split into `obj` and `iobj`. */
  lemma ObjIobjStaysWhole()
    ensures ExpandDeprelMultivalue("obj|iobj") == ["obj|iobj"]
  {
    assert "obj|iobj" == "obj" + ['|'] + "iobj";
    Strings.SplitAfterPiece("obj", "iobj", '|');
    Strings.SplitWithoutSeparator("iobj", '|');
  }

  /** A value without `|` expands to itself alone. */
  lemma SingleValueStaysWhole(v: string)
    requires '|' !in v
    ensures ExpandDeprelMultivalue(v) == [v]
  {
    Strings.SplitWithoutSeparator(v, '|');
  }

  /** The images of `xs` under `f`, concatenated in order. */
  function FlatMap(xs: seq<string>, f: string -> seq<string>): seq<string>
  {
    if |xs| == 0 then [] else FlatMap(xs[..|xs| - 1], f) + f(xs[|xs| - 1])
  }

  /** Mapping two lists one after the other is mapping their concatenation. */
  lemma {:induction false} FlatMapAppend(a: seq<string>, b: seq<string>, f: string -> seq<string>)
    ensures FlatMap(a + b, f) == FlatMap(a, f) + FlatMap(b, f)
  {
    if |b| > 0 {
      var b' := b[..|b| - 1];
      var ab := a + b;
      assert ab[..|ab| - 1] == a + b';
      assert ab[|ab| - 1] == b[|b| - 1];
      FlatMapAppend(a, b', f);
    } else {
      assert a + b == a;
    }
  }

  /** Every value is among its list's expansion, and the expansion is at least as long as the list. */
  lemma {:induction false} ExpansionKeepsValues(values: seq<string>)
    ensures |FlatMap(values, ExpandDeprelMultivalue)| >= |values|
    ensures forall i :: 0 <= i < |values| ==> values[i] in FlatMap(values, ExpandDeprelMultivalue)
  {
    if |values| > 0 {
      var init := values[..|values| - 1];
      ExpansionKeepsValues(init);
      var e := ExpandDeprelMultivalue(values[|values| - 1]);
      assert FlatMap(values, ExpandDeprelMultivalue) == FlatMap(init, ExpandDeprelMultivalue) + e;
      assert e[|e| - 1] == values[|values| - 1];
      forall i | 0 <= i < |values|
        ensures values[i] in FlatMap(values, ExpandDeprelMultivalue)
      {
        if i < |values| - 1 {
          assert values[i] == init[i];
        }
      }
    }
  }

  /** `expandDeprelMultivalues`: the expansions of the values, concatenated in order. */
  function ExpandDeprelMultivalues(values: seq<string>): (r: seq<string>)
    ensures |r| >= |values|
    ensures forall i :: 0 <= i < |values| ==> values[i] in r
  {
    ExpansionKeepsValues(values);
    FlatMap(values, ExpandDeprelMultivalue)
  }

  /** Expanding two lists one after the other is expanding their concatenation. */
  lemma ExpandDeprelMultivaluesAppend(a: seq<string>, b: seq<string>)
    ensures ExpandDeprelMultivalues(a + b) == ExpandDeprelMultivalues(a) + ExpandDeprelMultivalues(b)
  {
    FlatMapAppend(a, b, ExpandDeprelMultivalue);
  }

  /** A single value expands as `expandDeprelMultivalue` does. */
  lemma ExpandDeprelMultivaluesSingle(v: string)
    ensures ExpandDeprelMultivalues([v]) == ExpandDeprelMultivalue(v)
  {
    var f := ExpandDeprelMultivalue;
    assert [v][..0] == [];
    assert FlatMap([v], f) == FlatMap([], f) + f(v);
    assert f(v) == ExpandDeprelMultivalue(v);
  }

  /**
   * With the relation values `nmod`, `nsubj` and `obj|iobj` (those the
   * handlers query at actions.go:61, 193 and 259, and the sample
   * configuration of engine/conf.go:87-94) the relation types counted are
   * exactly the three values, so a token whose relation is plain `obj`
   * is never counted.
   */
  lemma HandlerDeprelTypes()
    ensures ExpandDeprelMultivalues(["nmod", "nsubj", "obj|iobj"]) == ["nmod", "nsubj", "obj|iobj"]
    ensures "obj" !in ExpandDeprelMultivalues(["nmod", "nsubj", "obj|iobj"])
  {
    var d := ["nmod", "nsubj", "obj|iobj"];
    assert Strings.Count("nmod", '|') == 0 && Strings.Count("nsubj", '|') == 0;
    assert Strings.Count("obj|iobj", '|') == 1;
    FewSeparatorsStayWhole(d);
  }

  /** Values with fewer than two separators each expand to themselves. */
  lemma {:induction false} FewSeparatorsStayWhole(values: seq<string>)
    requires forall i :: 0 <= i < |values| ==> Strings.Count(values[i], '|') < 2
    ensures ExpandDeprelMultivalues(values) == values
  {
    if |values| > 0 {
      var init := values[..|values| - 1];
      var v := values[|values| - 1];
      FewSeparatorsStayWhole(init);
      ExpandDeprelMultivalueShape(v);
      assert values == init + [v];
    }
  }

  /** The expanded relations that are among the counted types, in order (duplicates kept). */
  function Matching(expanded: seq<string>, types: seq<string>): (r: seq<string>)
    ensures |r| <= |expanded|
    ensures forall i :: 0 <= i < |r| ==> r[i] in types && r[i] in expanded
  {
    if |expanded| == 0 then []
    else
      var init := expanded[..|expanded| - 1];
      var d := expanded[|expanded| - 1];
      var r := Matching(init, types) + (if d in types then [d] else []);
      assert forall x :: x in init ==> x in expanded;
      r
  }

  /** The edges a row contributes: one per matching relation. */
  function Edges(lem: string, upos: string, pLemma: string, pUpos: string, deprels: seq<string>): (r: seq<CtKey>)
    ensures |r| == |deprels|
    ensures forall i :: 0 <= i < |r| ==> r[i] == CtKey(lem, upos, pLemma, pUpos, deprels[i])
  {
    if |deprels| == 0 then []
    else Edges(lem, upos, pLemma, pUpos, deprels[..|deprels| - 1]) + [CtKey(lem, upos, pLemma, pUpos, deprels[|deprels| - 1])]
  }

  /** The parent-sum key of an edge. */
  function ParentOf(c: CtKey): FyKey
  {
    FyKey(c.pLemma, c.pUpos, c.deprel)
  }

  /** The child-sum key of an edge. */
  function ChildOf(c: CtKey): FyKey
  {
    FyKey(c.lem, c.upos, c.deprel)
  }

  function ParentsOf(es: seq<CtKey>): (r: seq<FyKey>)
    ensures |r| == |es|
  {
    if |es| == 0 then [] else ParentsOf(es[..|es| - 1]) + [ParentOf(es[|es| - 1])]
  }

  function ChildrenOf(es: seq<CtKey>): (r: seq<FyKey>)
    ensures |r| == |es|
  {
    if |es| == 0 then [] else ChildrenOf(es[..|es| - 1]) + [ChildOf(es[|es| - 1])]
  }

  /** The entries of `m` whose key satisfies `keep`. */
  function Restrict<K>(m: map<K, int>, keep: K -> bool): (r: map<K, int>)
    ensures r.Keys == set c | c in m && keep(c)
    ensures forall c :: c in r ==> r[c] == m[c]
  {
    map c | c in m && keep(c) :: m[c]
  }

  /** Adding under a key commutes with a restriction that keeps it, and is invisible to one that drops it. */
  lemma RestrictAddFreq<K>(m: map<K, int>, keep: K -> bool, k: K, val: int)
    ensures Restrict(AddFreq(m, k, val), keep) == if keep(k) then AddFreq(Restrict(m, keep), k, val) else Restrict(m, keep)
  {
    var after := Restrict(AddFreq(m, k, val), keep);
    var expected := if keep(k) then AddFreq(Restrict(m, keep), k, val) else Restrict(m, keep);
    assert after.Keys == expected.Keys;
    forall c | c in after
      ensures after[c] == expected[c]
    {
    }
  }

  /** The sum of the edge frequencies whose image under `f` is `j`. */
  ghost function SumWhere(m: map<CtKey, int>, f: CtKey -> FyKey, j: FyKey): int
  {
    Total(Restrict(m, c => f(c) == j))
  }

  /** Adding to one edge adds to the one marginal it belongs to. */
  lemma SumWhereAddFreq(m: map<CtKey, int>, f: CtKey -> FyKey, j: FyKey, k: CtKey, val: int)
    ensures SumWhere(AddFreq(m, k, val), f, j) == SumWhere(m, f, j) + (if f(k) == j then val else 0)
  {
    var keep := c => f(c) == j;
    RestrictAddFreq(m, keep, k, val);
    if f(k) == j {
      TotalAddFreq(Restrict(m, keep), k, val);
    }
  }

  /**
   * The parent and child tables hold exactly the marginals of the edge
   * table: the frequency of a parent (child) key is the sum of the
   * frequencies of the edges with that parent (child) and relation.
   */
  ghost predicate Marginals(table: map<CtKey, int>, parents: map<FyKey, int>, children: map<FyKey, int>)
  {
    MarginalOf(table, ParentOf, parents) && MarginalOf(table, ChildOf, children)
  }

  /** `sums` holds, for every key, the sum of the edges that `f` maps to it. */
  ghost predicate MarginalOf(table: map<CtKey, int>, f: CtKey -> FyKey, sums: map<FyKey, int>)
  {
    forall k :: Freq(sums, k) == SumWhere(table, f, k)
  }

  /** Three totals that agree: the number of edges counted so far. */
  ghost predicate Balanced(table: map<CtKey, int>, parents: map<FyKey, int>, children: map<FyKey, int>)
  {
    Total(table) == Total(parents) && Total(table) == Total(children)
  }

  lemma MarginalAddFreq(table: map<CtKey, int>, f: CtKey -> FyKey, sums: map<FyKey, int>, e: CtKey)
    requires MarginalOf(table, f, sums)
    ensures MarginalOf(AddFreq(table, e, 1), f, AddFreq(sums, f(e), 1))
  {
    forall k
      ensures Freq(AddFreq(sums, f(e), 1), k) == SumWhere(AddFreq(table, e, 1), f, k)
    {
      SumWhereAddFreq(table, f, k, e, 1);
    }
  }

  /** Everything the edge pass keeps true of its three tables. */
  ghost predicate Consistent(table: map<CtKey, int>, parents: map<FyKey, int>, children: map<FyKey, int>)
  {
    Marginals(table, parents, children) && Balanced(table, parents, children) &&
    AllPositive(table) && AllPositive(parents) && AllPositive(children)
  }

  /**
   * Counting each edge once in the edge table and once in each marginal
   * table keeps the marginals exact, the three totals equal and all
   * counts positive.
   */
  lemma {:induction false} CountEdges(table: map<CtKey, int>, parents: map<FyKey, int>, children: map<FyKey, int>, es: seq<CtKey>)
    requires Consistent(table, parents, children)
    ensures Consistent(AddEach(table, es), AddEach(parents, ParentsOf(es)), AddEach(children, ChildrenOf(es)))
  {
    BalancedAddEach(table, parents, children, es);
    PositiveAddEach(table, parents, children, es);
    MarginalsAddEach(table, parents, children, es);
  }

  /** Counting an edge with its parent and child keeps the three totals equal. */
  lemma BalancedAddEach(table: map<CtKey, int>, parents: map<FyKey, int>, children: map<FyKey, int>, es: seq<CtKey>)
    requires Balanced(table, parents, children)
    ensures Balanced(AddEach(table, es), AddEach(parents, ParentsOf(es)), AddEach(children, ChildrenOf(es)))
  {
    TotalAddEach(table, es);
    TotalAddEach(parents, ParentsOf(es));
    TotalAddEach(children, ChildrenOf(es));
  }

  lemma PositiveAddEach(table: map<CtKey, int>, parents: map<FyKey, int>, children: map<FyKey, int>, es: seq<CtKey>)
    requires AllPositive(table) && AllPositive(parents) && AllPositive(children)
    ensures AllPositive(AddEach(table, es)) && AllPositive(AddEach(parents, ParentsOf(es))) &&
            AllPositive(AddEach(children, ChildrenOf(es)))
  {
    AddEachPositive(table, es);
    AddEachPositive(parents, ParentsOf(es));
    AddEachPositive(children, ChildrenOf(es));
  }

  lemma {:induction false} MarginalsAddEach(table: map<CtKey, int>, parents: map<FyKey, int>, children: map<FyKey, int>, es: seq<CtKey>)
    requires Marginals(table, parents, children)
    ensures Marginals(AddEach(table, es), AddEach(parents, ParentsOf(es)), AddEach(children, ChildrenOf(es)))
  {
    if |es| > 0 {
      var init := es[..|es| - 1];
      var e := es[|es| - 1];
      MarginalsAddEach(table, parents, children, init);
      assert ParentsOf(es)[..|es| - 1] == ParentsOf(init);
      assert ChildrenOf(es)[..|es| - 1] == ChildrenOf(init);
      MarginalAddFreq(AddEach(table, init), ParentOf, AddEach(parents, ParentsOf(init)), e);
      MarginalAddFreq(AddEach(table, init), ChildOf, AddEach(children, ChildrenOf(init)), e);
    }
  }

  /** One more key counted is one more `AddFreq(_, k, 1)`. */
  lemma AddEachSnoc<K>(m: map<K, int>, ks: seq<K>, k: K)
    ensures AddEach(m, ks + [k]) == AddFreq(AddEach(m, ks), k, 1)
  {
    assert (ks + [k])[..|ks|] == ks;
  }

  lemma EdgeImagesSnoc(es: seq<CtKey>, e: CtKey)
    ensures ParentsOf(es + [e]) == ParentsOf(es) + [ParentOf(e)]
    ensures ChildrenOf(es + [e]) == ChildrenOf(es) + [ChildOf(e)]
  {
    assert (es + [e])[..|es|] == es;
  }

  /** One more relation of the expansion looked at: one more edge exactly when it is a counted type. */
  lemma RowStep(expanded: seq<string>, i: int, types: seq<string>, lem: string, upos: string, pLemma: string, pUpos: string)
    requires 0 <= i < |expanded|
    ensures var es := Edges(lem, upos, pLemma, pUpos, Matching(expanded[..i], types));
      var es' := Edges(lem, upos, pLemma, pUpos, Matching(expanded[..i + 1], types));
      es' == if expanded[i] in types then es + [CtKey(lem, upos, pLemma, pUpos, expanded[i])] else es
  {
    var ms := Matching(expanded[..i], types);
    assert expanded[..i + 1][..i] == expanded[..i];
    if expanded[i] in types {
      assert Matching(expanded[..i + 1], types) == ms + [expanded[i]];
      assert (ms + [expanded[i]])[..|ms|] == ms;
    }
  }

  /** The edge pass's columns exist in a row of `n` attributes (a Go index panic otherwise). */
  predicate EdgeColumnsIn(conf: SyntaxProps, n: int)
  {
    1 <= conf.funcAttr.verticalCol <= n && 1 <= conf.lemmaAttr.verticalCol <= n &&
    1 <= conf.posAttr.verticalCol <= n && 1 <= conf.parLemmaAttr.verticalCol <= n &&
    1 <= conf.parPosAttr.verticalCol <= n
  }

  /** The co-occurrence pass's columns exist in a row of `n` attributes. */
  predicate TokenColumnsIn(conf: SyntaxProps, n: int)
  {
    1 <= conf.lemmaAttr.verticalCol <= n && 1 <= conf.posAttr.verticalCol <= n
  }

  /** The relations of a row that are counted: its expanded relation filtered by the types. */
  function RowMatches(conf: SyntaxProps, deprelTypes: seq<string>, attrs: seq<string>): seq<string>
    requires EdgeColumnsIn(conf, |attrs|)
  {
    Matching(ExpandDeprelMultivalue(attrs[conf.funcAttr.verticalCol - 1]), deprelTypes)
  }

  /** The edges a row contributes. */
  function RowEdges(conf: SyntaxProps, deprelTypes: seq<string>, attrs: seq<string>): seq<CtKey>
    requires EdgeColumnsIn(conf, |attrs|)
  {
    Edges(attrs[conf.lemmaAttr.verticalCol - 1], attrs[conf.posAttr.verticalCol - 1],
          attrs[conf.parLemmaAttr.verticalCol - 1], attrs[conf.parPosAttr.verticalCol - 1],
          RowMatches(conf, deprelTypes, attrs))
  }

  /** `VertProcessor`: the edge pass. (`DeprelCol` is never read by the source and is not a field here.) */
  class VertProcessor {
    const deprelTypes: seq<string>
    const conf: SyntaxProps
    const table: CounterTable
    const parentCounts: FyTable
    const childCounts: FyTable

    /** The marginals are exact, the totals agree and every stored count is positive. */
    ghost predicate Valid()
      reads this, table, parentCounts, childCounts
    {
      parentCounts != childCounts && Consistent(table.items, parentCounts.items, childCounts.items)
    }

    /** The processor of `runForDeprel`, over three fresh empty tables. */
    constructor (deprelTypes: seq<string>, conf: SyntaxProps)
      ensures this.deprelTypes == deprelTypes && this.conf == conf
      ensures fresh(table) && fresh(parentCounts) && fresh(childCounts)
      ensures table.items == map[] && parentCounts.items == map[] && childCounts.items == map[]
      ensures Valid()
    {
      this.deprelTypes := deprelTypes;
      this.conf := conf;
      table := new CounterTable();
      parentCounts := new FyTable();
      childCounts := new FyTable();
    }

    /**
     * `VertProcessor.ProcToken`: a parse error is passed on and a short row
     * is skipped, both without touching the tables; otherwise every
     * expanded relation of the row that is a counted type adds 1 to the
     * edge, to its parent sum and to its child sum.
     */
    method ProcToken(attrs: seq<string>, line: int, err: Option<string>) returns (status: Status)
      requires Valid()
      modifies table, parentCounts, childCounts
      ensures Valid()
      ensures err.Some? ==> status == Err(err.value)
      ensures err.None? ==> status == (if |attrs| >= MinColumns && !EdgeColumnsIn(conf, |attrs|) then Panic else Ok)
      ensures status != Ok || err.Some? || |attrs| < MinColumns ==>
        unchanged(table, parentCounts, childCounts)
      ensures status == Ok && err.None? && |attrs| >= MinColumns ==>
        var es := RowEdges(conf, deprelTypes, attrs);
        table.items == AddEach(old(table.items), es) &&
        parentCounts.items == AddEach(old(parentCounts.items), ParentsOf(es)) &&
        childCounts.items == AddEach(old(childCounts.items), ChildrenOf(es))
    {
      if err.Some? {
        return Err(err.value);
      }
      if |attrs| < MinColumns {
        return Ok;
      }
      if !EdgeColumnsIn(conf, |attrs|) {
        return Panic;
      }
      var deprelTmp := attrs[conf.funcAttr.verticalCol - 1];
      var lem := attrs[conf.lemmaAttr.verticalCol - 1];
      var upos := attrs[conf.posAttr.verticalCol - 1];
      var pLemma := attrs[conf.parLemmaAttr.verticalCol - 1];
      var pUpos := attrs[conf.parPosAttr.verticalCol - 1];
      ghost var t0, p0, c0 := table.items, parentCounts.items, childCounts.items;
      CountRow(lem, upos, pLemma, pUpos, ExpandDeprelMultivalue(deprelTmp));
      CountEdges(t0, p0, c0, RowEdges(conf, deprelTypes, attrs));
      return Ok;
    }

    /** The loop of `ProcToken` over the expanded relations of one row. */
    method CountRow(lem: string, upos: string, pLemma: string, pUpos: string, expanded: seq<string>)
      requires parentCounts != childCounts
      modifies table, parentCounts, childCounts
      ensures var es := Edges(lem, upos, pLemma, pUpos, Matching(expanded, deprelTypes));
        table.items == AddEach(old(table.items), es) &&
        parentCounts.items == AddEach(old(parentCounts.items), ParentsOf(es)) &&
        childCounts.items == AddEach(old(childCounts.items), ChildrenOf(es))
    {
      for i := 0 to |expanded|
        invariant var es := Edges(lem, upos, pLemma, pUpos, Matching(expanded[..i], deprelTypes));
          table.items == AddEach(old(table.items), es) &&
          parentCounts.items == AddEach(old(parentCounts.items), ParentsOf(es)) &&
          childCounts.items == AddEach(old(childCounts.items), ChildrenOf(es))
      {
        ghost var es := Edges(lem, upos, pLemma, pUpos, Matching(expanded[..i], deprelTypes));
        RowStep(expanded, i, deprelTypes, lem, upos, pLemma, pUpos);
        var deprel := expanded[i];
        if deprel in deprelTypes {
          ghost var e := CtKey(lem, upos, pLemma, pUpos, deprel);
          EdgeImagesSnoc(es, e);
          AddEachSnoc(old(table.items), es, e);
          AddEachSnoc(old(parentCounts.items), ParentsOf(es), ParentOf(e));
          AddEachSnoc(old(childCounts.items), ChildrenOf(es), ChildOf(e));
          AddEdge(lem, upos, pLemma, pUpos, deprel);
        }
      }
      assert expanded[..|expanded|] == expanded;
    }

    /** The three `Add` calls for one counted relation. */
    method AddEdge(lem: string, upos: string, pLemma: string, pUpos: string, deprel: string)
      requires parentCounts != childCounts
      modifies table, parentCounts, childCounts
      ensures var e := CtKey(lem, upos, pLemma, pUpos, deprel);
        table.items == AddFreq(old(table.items), e, 1) &&
        parentCounts.items == AddFreq(old(parentCounts.items), ParentOf(e), 1) &&
        childCounts.items == AddFreq(old(childCounts.items), ChildOf(e), 1)
    {
      table.Add(lem, upos, pLemma, pUpos, deprel, 1);
      parentCounts.Add(pLemma, pUpos, deprel, 1);
      childCounts.Add(lem, upos, deprel, 1);
    }
  }

  /** A (lemma, upos) entry of the co-occurrence window. */
  type Pos = (string, string)

  /** The last `n` elements of `s` (all of them when there are fewer). */
  function Last<T>(s: seq<T>, n: nat): (r: seq<T>)
    ensures |r| <= n && |r| <= |s|
  {
    if |s| <= n then s else s[|s| - n..]
  }

  /**
   * The window after one more token: when it already holds `2 * span + 1`
   * entries the oldest is dropped, then the new entry goes at the end.
   */
  function Slide(window: seq<Pos>, x: Pos, span: int): (r: seq<Pos>)
    ensures span >= 0 && |window| <= 2 * span + 1 ==> |r| <= 2 * span + 1
    ensures |r| >= 1 && r[|r| - 1] == x
  {
    if |window| == 2 * span + 1 then window[1..] + [x] else window + [x]
  }

  /** Sliding over a stream keeps the window equal to the stream's last `2 * span + 1` entries. */
  lemma SlideKeepsLast(s: seq<Pos>, x: Pos, span: int)
    requires span >= 0
    ensures Slide(Last(s, 2 * span + 1), x, span) == Last(s + [x], 2 * span + 1)
  {
    var n := 2 * span + 1;
    var w := Last(s, n);
    if |s| >= n {
      assert w == s[|s| - n..];
      assert w[1..] + [x] == (s + [x])[|s| + 1 - n..];
    }
  }

  /** The `CoOccTable` key of a (middle, near) pair. */
  function PairKey(middle: Pos, near: Pos): CoKey
  {
    CoKey(middle.0, middle.1, near.0, near.1)
  }

  /** Positions `i < n` other than the middle whose (middle, near) pair is `k`. */
  function Hits(window: seq<Pos>, span: int, k: CoKey, n: int): nat
    requires 0 <= span < |window| && 0 <= n <= |window|
  {
    if n == 0 then 0
    else Hits(window, span, k, n - 1) + (if n - 1 != span && PairKey(window[span], window[n - 1]) == k then 1 else 0)
  }

  /**
   * The counting loop over the first `n` window positions: every seeded
   * (middle, near) pair gains one per position other than the middle,
   * and no key is added.
   */
  function CountNear(m: map<CoKey, int>, window: seq<Pos>, span: int, n: int): (r: map<CoKey, int>)
    requires 0 <= span < |window| && 0 <= n <= |window|
    ensures r.Keys == m.Keys
  {
    if n == 0 then m
    else
      var r := CountNear(m, window, span, n - 1);
      if n - 1 != span then CountIfSeeded(r, PairKey(window[span], window[n - 1])) else r
  }

  /** Every seeded pair gains exactly its number of hits among the first `n` positions. */
  lemma {:induction false} CountNearHits(m: map<CoKey, int>, window: seq<Pos>, span: int, n: int, k: CoKey)
    requires 0 <= span < |window| && 0 <= n <= |window|
    requires k in m
    ensures CountNear(m, window, span, n)[k] == m[k] + Hits(window, span, k, n)
  {
    if n > 0 {
      CountNearHits(m, window, span, n - 1, k);
    }
  }

  /** `CoVertProcessor`: the co-occurrence pass. */
  class CoVertProcessor {
    const span: int
    var window: seq<Pos>
    const conf: SyntaxProps
    const coOccTable: CoOccTable
    const tokenCounts: FyTable

    /** The window never grows beyond `2 * span + 1` entries. */
    ghost predicate Valid()
      reads this
    {
      span >= 0 ==> |window| <= 2 * span + 1
    }

    constructor (span: int, conf: SyntaxProps, coOccTable: CoOccTable, tokenCounts: FyTable)
      ensures this.span == span && this.conf == conf
      ensures this.coOccTable == coOccTable && this.tokenCounts == tokenCounts
      ensures window == []
      ensures Valid()
    {
      this.span := span;
      this.conf := conf;
      this.coOccTable := coOccTable;
      this.tokenCounts := tokenCounts;
      window := [];
    }

    /**
     * `CoVertProcessor.ProcToken`: a parse error is passed on and a short
     * row is skipped, both without any change; otherwise a seeded token key
     * gains one, the window slides, and when it is full every seeded
     * (middle, near) pair gains one per position other than the middle.
     */
    method ProcToken(attrs: seq<string>, line: int, err: Option<string>) returns (status: Status)
      requires Valid()
      modifies this, coOccTable, tokenCounts
      ensures Valid()
      ensures err.Some? ==> status == Err(err.value)
      ensures err.None? ==> status == (if |attrs| >= MinColumns && !TokenColumnsIn(conf, |attrs|) then Panic else Ok)
      ensures status != Ok || err.Some? || |attrs| < MinColumns ==>
        window == old(window) && unchanged(coOccTable, tokenCounts)
      ensures status == Ok && err.None? && |attrs| >= MinColumns ==>
        var x := (attrs[conf.lemmaAttr.verticalCol - 1], attrs[conf.posAttr.verticalCol - 1]);
        tokenCounts.items == CountIfSeeded(old(tokenCounts.items), FyKey(x.0, x.1, "")) &&
        window == Slide(old(window), x, span) &&
        coOccTable.items == (if |window| == 2 * span + 1 then CountNear(old(coOccTable.items), window, span, |window|)
                             else old(coOccTable.items))
    {
      if err.Some? {
        return Err(err.value);
      }
      if |attrs| < MinColumns {
        return Ok;
      }
      if !TokenColumnsIn(conf, |attrs|) {
        return Panic;
      }
      var lem := attrs[conf.lemmaAttr.verticalCol - 1];
      var upos := attrs[conf.posAttr.verticalCol - 1];
      if tokenCounts.Has(lem, upos, "") {
        tokenCounts.Add(lem, upos, "", 1);
      }
      var w: seq<Pos>;
      if |window| == 2 * span + 1 {
        w := window[1..] + [(lem, upos)];
      } else {
        w := window + [(lem, upos)];
      }
      window := w;
      if |w| == 2 * span + 1 {
        CountWindow(w);
      }
      return Ok;
    }

    /** The loop over a full window: each seeded (middle, near) pair gains one. */
    method CountWindow(w: seq<Pos>)
      requires |w| == 2 * span + 1
      modifies coOccTable
      ensures coOccTable.items == CountNear(old(coOccTable.items), w, span, |w|)
    {
      var middle := w[span];
      for i := 0 to |w|
        invariant coOccTable.items == CountNear(old(coOccTable.items), w, span, i)
      {
        var near := w[i];
        if i != span && coOccTable.Has(middle.0, middle.1, near.0, near.1) {
          coOccTable.Add(middle.0, middle.1, near.0, near.1, 1);
        }
      }
    }
  }

  /** The `CoOccTable` key an edge seeds. */
  function PairOf(c: CtKey): CoKey
  {
    CoKey(c.lem, c.upos, c.pLemma, c.pUpos)
  }

  /** The `TokenCounts` keys an edge seeds: its child token and its parent token. */
  function ChildToken(c: CtKey): FyKey
  {
    FyKey(c.lem, c.upos, "")
  }

  function ParentToken(c: CtKey): FyKey
  {
    FyKey(c.pLemma, c.pUpos, "")
  }

  /** The (child, parent) pairs of a set of edges. */
  function PairsOf(edges: set<CtKey>): set<CoKey>
  {
    set c | c in edges :: PairOf(c)
  }

  /** The child and parent tokens of a set of edges. */
  function TokensOf(edges: set<CtKey>): set<FyKey>
  {
    (set c | c in edges :: ChildToken(c)) + (set c | c in edges :: ParentToken(c))
  }

  /** The pair table seeded from a set of edges: one zero entry per (child, parent) pair. */
  function SeedPairs(edges: set<CtKey>): map<CoKey, int>
  {
    map k | k in PairsOf(edges) :: 0
  }

  /** The token table seeded from a set of edges: one zero entry per child or parent token. */
  function SeedTokens(edges: set<CtKey>): map<FyKey, int>
  {
    map k | k in TokensOf(edges) :: 0
  }

  /** The three lookups `writeFxy` makes for every edge find an entry. */
  ghost predicate LookupsHit(edges: set<CtKey>, pairs: map<CoKey, int>, tokens: map<FyKey, int>)
  {
    forall c :: c in edges ==> PairOf(c) in pairs && ChildToken(c) in tokens && ParentToken(c) in tokens
  }

  /**
   * After seeding every edge's lookups hit, every seeded entry is 0, and
   * nothing but an edge's pair or tokens is seeded.
   */
  lemma SeedingCoversEdges(edges: set<CtKey>)
    ensures LookupsHit(edges, SeedPairs(edges), SeedTokens(edges))
    ensures forall k :: k in SeedPairs(edges) ==> SeedPairs(edges)[k] == 0 && exists c :: c in edges && PairOf(c) == k
    ensures forall k :: k in SeedTokens(edges) ==>
      SeedTokens(edges)[k] == 0 && exists c :: c in edges && (ChildToken(c) == k || ParentToken(c) == k)
  {
    forall c | c in edges
      ensures PairOf(c) in SeedPairs(edges) && ChildToken(c) in SeedTokens(edges) && ParentToken(c) in SeedTokens(edges)
    {
      assert PairOf(c) in PairsOf(edges);
      assert ChildToken(c) in (set c | c in edges :: ChildToken(c));
      assert ParentToken(c) in (set c | c in edges :: ParentToken(c));
    }
  }

  lemma SeedNothing()
    ensures SeedPairs({}) == map[] && SeedTokens({}) == map[]
  {
    assert PairsOf({}) == {} && TokensOf({}) == {};
  }

  /** Seeding one more edge adds its pair with frequency 0 ... */
  lemma SeedPairsStep(done: set<CtKey>, v: CtKey)
    ensures SeedPairs(done + {v}) == AddFreq(SeedPairs(done), PairOf(v), 0)
  {
    assert PairsOf(done + {v}) == PairsOf(done) + {PairOf(v)};
  }

  /** ... and its two tokens with frequency 0. */
  lemma SeedTokensStep(done: set<CtKey>, v: CtKey)
    ensures SeedTokens(done + {v}) == AddFreq(AddFreq(SeedTokens(done), ChildToken(v), 0), ParentToken(v), 0)
  {
    assert TokensOf(done + {v}) == TokensOf(done) + {ChildToken(v), ParentToken(v)} by {
      assert (set c | c in done + {v} :: ChildToken(c)) == (set c | c in done :: ChildToken(c)) + {ChildToken(v)};
      assert (set c | c in done + {v} :: ParentToken(c)) == (set c | c in done :: ParentToken(c)) + {ParentToken(v)};
    }
  }

  /**
   * The seeding loop of `runForDeprel`: fresh pair and token tables holding
   * a zero entry for every edge's (child, parent) pair and for both of its
   * tokens. The edges are visited in an unspecified order, as Go's map
   * iteration does; the result does not depend on it.
   */
  method Seed(table: CounterTable) returns (coOccTable: CoOccTable, tokenCounts: FyTable)
    ensures fresh(coOccTable) && fresh(tokenCounts)
    ensures coOccTable.items == SeedPairs(table.items.Keys)
    ensures tokenCounts.items == SeedTokens(table.items.Keys)
  {
    coOccTable := new CoOccTable();
    tokenCounts := new FyTable();
    var rest := table.items.Keys;
    ghost var done: set<CtKey> := {};
    SeedNothing();
    while rest != {}
      invariant done + rest == table.items.Keys && done !! rest
      invariant fresh(coOccTable) && fresh(tokenCounts)
      invariant coOccTable.items == SeedPairs(done)
      invariant tokenCounts.items == SeedTokens(done)
      decreases |rest|
    {
      var v :| v in rest;
      SeedEdge(coOccTable, tokenCounts, v, done);
      done := done + {v};
      rest := rest - {v};
    }
  }

  /** The body of the seeding loop for one edge. */
  method SeedEdge(coOccTable: CoOccTable, tokenCounts: FyTable, v: CtKey, ghost done: set<CtKey>)
    requires coOccTable.items == SeedPairs(done) && tokenCounts.items == SeedTokens(done)
    modifies coOccTable, tokenCounts
    ensures coOccTable.items == SeedPairs(done + {v}) && tokenCounts.items == SeedTokens(done + {v})
  {
    SeedPairsStep(done, v);
    SeedTokensStep(done, v);
    coOccTable.Add(v.lem, v.upos, v.pLemma, v.pUpos, 0);
    tokenCounts.Add(v.lem, v.upos, "", 0);
    tokenCounts.Add(v.pLemma, v.pUpos, "", 0);
  }
}
