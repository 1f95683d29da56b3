/**
 * Query-side predicate building (engine/query.go): the WHERE-clause lists
 * and named-argument maps of the marginal-frequency query and of the two
 * candidate queries, and the choice between the materialized view and the
 * plain edge table with a correlated sub-query. Running the SQL is not part
 * of this model; each builder returns the statement it would send.
 */
module Query {
  import Strings

  /** `CollDatabase` as far as the builders use it: the source switch and the corpus. */
  datatype CollDatabase = CollDatabase(useMatViews: bool, corpusID: string)

  /** A named-argument value. */
  datatype ArgValue = Text(s: string) | Number(n: int)

  /** One comparison `column op @param`. */
  datatype Cond = Cond(column: string, op: string, param: string)

  /** A WHERE-list entry: one comparison, or a parenthesised OR-group of comparisons. */
  datatype Clause = Single(cond: Cond) | AnyOf(alts: seq<Cond>)

  /** A statement as handed to the database driver. */
  datatype Statement = Statement(sql: string, where: seq<Clause>, args: map<string, ArgValue>)

  /** `CollDatabase.TableName`: the corpus's edge table. */
  function TableName(cdb: CollDatabase): (r: string)
    ensures |r| == |cdb.corpusID| + 7 && r[..|cdb.corpusID|] == cdb.corpusID && r[|cdb.corpusID|..] == "_fcolls"
  {
    cdb.corpusID + "_fcolls"
  }

  function CondSql(c: Cond): string
  {
    c.column + " " + c.op + " @" + c.param
  }

  function ClauseSql(c: Clause): string
  {
    match c
    case Single(d) => CondSql(d)
    case AnyOf(alts) => "(" + Strings.Join(seq(|alts|, i requires 0 <= i < |alts| => CondSql(alts[i])), " OR ") + ")"
  }

  /** The WHERE text: the clauses joined by ` AND `. */
  function WhereSql(where: seq<Clause>): string
  {
    Strings.Join(seq(|where|, i requires 0 <= i < |where| => ClauseSql(where[i])), " AND ")
  }

  /** The named placeholders one clause uses. */
  function ClauseParams(c: Clause): set<string>
  {
    match c
    case Single(d) => {d.param}
    case AnyOf(alts) => set i | 0 <= i < |alts| :: alts[i].param
  }

  /** The named placeholders a clause list uses. */
  function Params(where: seq<Clause>): set<string>
  {
    if |where| == 0 then {} else Params(where[..|where| - 1]) + ClauseParams(where[|where| - 1])
  }

  lemma {:induction false} ParamsAppend(a: seq<Clause>, b: seq<Clause>)
    ensures Params(a + b) == Params(a) + Params(b)
    decreases |b|
  {
    if |b| == 0 {
      assert a + b == a;
    } else {
      assert (a + b)[..|a + b| - 1] == a + b[..|b| - 1];
      ParamsAppend(a, b[..|b| - 1]);
    }
  }

  lemma ParamsSingleton(c: Clause)
    ensures Params([c]) == ClauseParams(c)
  {
    assert [c][..0] == [];
  }

  /** The name of the `i`-th relation placeholder, `deprel_<i>`. */
  function DeprelParam(i: nat): string
  {
    "deprel_" + Strings.NatToString(i)
  }

  lemma DeprelParamInjective(i: nat, j: nat)
    requires i != j
    ensures DeprelParam(i) != DeprelParam(j)
  {
    if DeprelParam(i) == DeprelParam(j) {
      assert DeprelParam(i)[7..] == Strings.NatToString(i);
      assert DeprelParam(j)[7..] == Strings.NatToString(j);
      Strings.NatToStringInjective(i, j);
    }
  }

  /** A relation placeholder never clashes with a column placeholder. */
  lemma DeprelParamIsNotColumn(i: nat)
    ensures DeprelParam(i) !in {"lemma", "upos", "p_lemma", "p_upos", "freq"}
  {
    assert DeprelParam(i)[0] == 'd';
  }

  /** The group for the relation values `parts`: `deprel = @deprel_<i>` for each. */
  function DeprelConds(parts: seq<string>): (conds: seq<Cond>)
    ensures |conds| == |parts|
  {
    seq(|parts|, i requires 0 <= i < |parts| => Cond("deprel", "=", DeprelParam(i)))
  }

  /** Column equality `column = @column`, present only when the value is non-empty. */
  function Optional(column: string, value: string): seq<Clause>
  {
    if value != "" then [Single(Cond(column, "=", column))] else []
  }

  /**
   * The OR-group for a `|`-separated relation value: one clause per part and
   * the arguments `deprel_0 .. deprel_<n-1>` bound to the parts in order.
   */
  method DeprelGroup(deprel: string) returns (clause: Clause, args: map<string, ArgValue>)
    ensures var parts := Strings.Split(deprel, '|');
            && clause == AnyOf(DeprelConds(parts))
            && args.Keys == ClauseParams(clause)
            && forall i :: 0 <= i < |parts| ==> DeprelParam(i) in args && args[DeprelParam(i)] == Text(parts[i])
  {
    var parsed := Strings.Split(deprel, '|');
    var conds: seq<Cond> := [];
    args := map[];
    for i := 0 to |parsed|
      invariant |conds| == i
      invariant forall j :: 0 <= j < i ==> conds[j] == Cond("deprel", "=", DeprelParam(j))
      invariant args.Keys == set j | 0 <= j < i :: DeprelParam(j)
      invariant forall j :: 0 <= j < i ==> args[DeprelParam(j)] == Text(parsed[j])
    {
      forall j | 0 <= j < i ensures DeprelParam(j) != DeprelParam(i) {
        DeprelParamInjective(j, i);
      }
      conds := conds + [Cond("deprel", "=", DeprelParam(i))];
      args := args[DeprelParam(i) := Text(parsed[i])];
      assert (set j | 0 <= j < i + 1 :: DeprelParam(j)) == (set j | 0 <= j < i :: DeprelParam(j)) + {DeprelParam(i)};
    }
    clause := AnyOf(conds);
    assert conds == DeprelConds(parsed);
    assert ClauseParams(clause) == set j | 0 <= j < |parsed| :: DeprelParam(j) by {
      forall p | p in ClauseParams(clause) ensures p in set j | 0 <= j < |parsed| :: DeprelParam(j) {
        var j :| 0 <= j < |conds| && conds[j].param == p;
      }
    }
  }

  /** The relation group, present only when the relation value is non-empty. */
  function DeprelPart(deprel: string): seq<Clause>
  {
    if deprel != "" then [AnyOf(DeprelConds(Strings.Split(deprel, '|')))] else []
  }

  /** True when `args` binds exactly the placeholders of `where`. */
  predicate Coherent(where: seq<Clause>, args: map<string, ArgValue>)
  {
    args.Keys == Params(where)
  }

  /** The argument bound to `key` when it is there. */
  predicate Binds(args: map<string, ArgValue>, key: string, v: ArgValue)
  {
    key in args && args[key] == v
  }

  /** The relation group's arguments: `deprel_<i>` bound to the `i`-th part. */
  predicate BindsDeprels(args: map<string, ArgValue>, deprel: string)
  {
    deprel != "" ==>
      var parts := Strings.Split(deprel, '|');
      forall i :: 0 <= i < |parts| ==> Binds(args, DeprelParam(i), Text(parts[i]))
  }

  /** Updating a column argument keeps the relation arguments. */
  lemma BindsDeprelsUpdate(args: map<string, ArgValue>, deprel: string, column: string, v: ArgValue)
    requires BindsDeprels(args, deprel)
    requires column in {"lemma", "upos", "p_lemma", "p_upos", "freq"}
    ensures BindsDeprels(args[column := v], deprel)
  {
    if deprel != "" {
      var parts := Strings.Split(deprel, '|');
      forall i | 0 <= i < |parts| ensures Binds(args[column := v], DeprelParam(i), Text(parts[i])) {
        DeprelParamIsNotColumn(i);
      }
    }
  }

  /**
   * One optional column filter: appends `column = @column` and binds the
   * argument when the value is non-empty, and does nothing otherwise. The
   * other arguments, among them the relation group's, stay as they were.
   */
  method AddOptional(where: seq<Clause>, args: map<string, ArgValue>, column: string, value: string,
                     ghost deprel: string)
    returns (where': seq<Clause>, args': map<string, ArgValue>)
    requires column in {"lemma", "upos", "p_lemma", "p_upos"}
    ensures where' == where + Optional(column, value)
    ensures value != "" ==> Binds(args', column, Text(value))
    ensures forall k :: k in args && k != column ==> Binds(args', k, args[k])
    ensures Coherent(where, args) ==> Coherent(where', args')
    ensures BindsDeprels(args, deprel) ==> BindsDeprels(args', deprel)
  {
    where', args' := where, args;
    if value != "" {
      ParamsAppend(where, [Single(Cond(column, "=", column))]);
      where' := where + [Single(Cond(column, "=", column))];
      args' := args[column := Text(value)];
      if BindsDeprels(args, deprel) {
        BindsDeprelsUpdate(args, deprel, column, Text(value));
      }
    }
  }

  /**
   * The relation filter: when the relation value is non-empty, appends its
   * OR-group and binds the group's arguments, keeping the column arguments
   * already bound.
   */
  method AddDeprelGroup(where: seq<Clause>, args: map<string, ArgValue>, deprel: string)
    returns (where': seq<Clause>, args': map<string, ArgValue>)
    requires forall k :: k in args ==> k in {"lemma", "upos", "p_lemma", "p_upos", "freq"}
    ensures where' == where + DeprelPart(deprel)
    ensures forall k :: k in args ==> Binds(args', k, args[k])
    ensures Coherent(where, args) ==> Coherent(where', args')
    ensures BindsDeprels(args', deprel)
  {
    where', args' := where, args;
    if deprel != "" {
      var group, deprelArgs := DeprelGroup(deprel);
      forall k | k in deprelArgs ensures k !in args {
        var i :| 0 <= i < |Strings.Split(deprel, '|')| && DeprelConds(Strings.Split(deprel, '|'))[i].param == k;
        DeprelParamIsNotColumn(i);
      }
      ParamsAppend(where, [group]);
      ParamsSingleton(group);
      where' := where + [group];
      args' := args + deprelArgs;
    } else {
      assert where + DeprelPart(deprel) == where;
    }
  }

  /**
   * `CollDatabase.GetFreq`: the summed frequency of the edge rows matching
   * the non-empty parameters (`lem` is the Go parameter `lemma`). The
   * relation group comes first, then lemma, upos, p_lemma and p_upos, each
   * exactly when given; the arguments bind exactly the placeholders used.
   */
  method GetFreq(cdb: CollDatabase, lem: string, upos: string, pLemma: string, pUpos: string, deprel: string)
    returns (stmt: Statement)
    ensures stmt.where == DeprelPart(deprel) + Optional("lemma", lem) + Optional("upos", upos)
                          + Optional("p_lemma", pLemma) + Optional("p_upos", pUpos)
    ensures Coherent(stmt.where, stmt.args)
    ensures BindsDeprels(stmt.args, deprel)
    ensures lem != "" ==> Binds(stmt.args, "lemma", Text(lem))
    ensures upos != "" ==> Binds(stmt.args, "upos", Text(upos))
    ensures pLemma != "" ==> Binds(stmt.args, "p_lemma", Text(pLemma))
    ensures pUpos != "" ==> Binds(stmt.args, "p_upos", Text(pUpos))
    ensures stmt.sql == "SELECT SUM(freq) FROM " + TableName(cdb) + " WHERE " + WhereSql(stmt.where)
  {
    var where: seq<Clause>, args: map<string, ArgValue> := AddDeprelGroup([], map[], deprel);
    assert [] + DeprelPart(deprel) == DeprelPart(deprel);
    where, args := AddOptional(where, args, "lemma", lem, deprel);
    where, args := AddOptional(where, args, "upos", upos, deprel);
    where, args := AddOptional(where, args, "p_lemma", pLemma, deprel);
    where, args := AddOptional(where, args, "p_upos", pUpos, deprel);
    stmt := Statement("SELECT SUM(freq) FROM " + TableName(cdb) + " WHERE " + WhereSql(where), where, args);
  }

  /**
   * The WHERE list shared by the two candidate queries: the fixed side's
   * lemma and the frequency threshold always, then the relation group when
   * a relation is given, then the fixed side's PoS when given.
   */
  method CandidateWhere(lemmaColumn: string, lemmaValue: string, posColumn: string, pos: string,
                        deprel: string, minFreq: int)
    returns (where: seq<Clause>, args: map<string, ArgValue>)
    requires (lemmaColumn, posColumn) in {("p_lemma", "p_upos"), ("lemma", "upos")}
    ensures where == [Single(Cond(lemmaColumn, "=", lemmaColumn)), Single(Cond("freq", ">=", "freq"))]
                     + DeprelPart(deprel) + Optional(posColumn, pos)
    ensures Coherent(where, args)
    ensures BindsDeprels(args, deprel)
    ensures Binds(args, lemmaColumn, Text(lemmaValue))
    ensures Binds(args, "freq", Number(minFreq))
    ensures pos != "" ==> Binds(args, posColumn, Text(pos))
  {
    assert lemmaColumn != "freq" && lemmaColumn != posColumn && posColumn != "freq";
    where := [Single(Cond(lemmaColumn, "=", lemmaColumn)), Single(Cond("freq", ">=", "freq"))];
    args := map[lemmaColumn := Text(lemmaValue), "freq" := Number(minFreq)];
    assert Params(where) == {lemmaColumn, "freq"} by {
      ParamsSingleton(Single(Cond(lemmaColumn, "=", lemmaColumn)));
      ParamsSingleton(Single(Cond("freq", ">=", "freq")));
      ParamsAppend([Single(Cond(lemmaColumn, "=", lemmaColumn))], [Single(Cond("freq", ">=", "freq"))]);
    }
    ghost var fixedArgs := args;
    where, args := AddDeprelGroup(where, args, deprel);
    assert Binds(args, lemmaColumn, fixedArgs[lemmaColumn]) && Binds(args, "freq", fixedArgs["freq"]);
    where, args := AddOptional(where, args, posColumn, pos, deprel);
  }

  /** The `SELECT ... FROM` part of a candidate query: the materialized view, or the edge table with a sub-query. */
  function CandidatesSource(cdb: CollDatabase, children: bool): string
  {
    if children then
      if cdb.useMatViews then "SELECT lemma, upos, freq, fy FROM " + cdb.corpusID + "_lemma_candidates "
      else "SELECT a.lemma, a.upos, a.freq, (SELECT SUM(freq) FROM " + cdb.corpusID + "_fcolls AS b "
           + " WHERE b.lemma = a.lemma AND b.upos = a.upos AND b.deprel = a.deprel) FROM "
           + cdb.corpusID + "_fcolls AS a "
    else
      if cdb.useMatViews then "SELECT p_lemma, p_upos, freq, fy FROM " + cdb.corpusID + "_p_lemma_candidates "
      else "SELECT p_lemma, p_upos, freq, (SELECT SUM(freq) FROM " + cdb.corpusID + "_fcolls AS b "
           + " WHERE b.p_lemma = a.p_lemma AND b.p_upos = a.p_upos AND b.deprel = a.deprel) FROM "
           + cdb.corpusID + "_fcolls AS a "
  }

  /**
   * `CollDatabase.GetChildCandidates`: the children of `pLemma` (optionally
   * of PoS `pUpos`) in the given relations with frequency at least `minFreq`.
   * The WHERE list does not depend on the source the switch selects.
   */
  method GetChildCandidates(cdb: CollDatabase, pLemma: string, pUpos: string, deprel: string, minFreq: int)
    returns (stmt: Statement)
    ensures stmt.where == [Single(Cond("p_lemma", "=", "p_lemma")), Single(Cond("freq", ">=", "freq"))]
                          + DeprelPart(deprel) + Optional("p_upos", pUpos)
    ensures Coherent(stmt.where, stmt.args)
    ensures BindsDeprels(stmt.args, deprel)
    ensures Binds(stmt.args, "p_lemma", Text(pLemma)) && Binds(stmt.args, "freq", Number(minFreq))
    ensures pUpos != "" ==> Binds(stmt.args, "p_upos", Text(pUpos))
    ensures stmt.sql == CandidatesSource(cdb, true) + "WHERE " + WhereSql(stmt.where) + " "
  {
    var where, args := CandidateWhere("p_lemma", pLemma, "p_upos", pUpos, deprel, minFreq);
    stmt := Statement(CandidatesSource(cdb, true) + "WHERE " + WhereSql(where) + " ", where, args);
  }

  /**
   * `CollDatabase.GetParentCandidates`: the parents of `lem` (optionally of
   * PoS `upos`) in the given relations with frequency at least `minFreq`.
   */
  method GetParentCandidates(cdb: CollDatabase, lem: string, upos: string, deprel: string, minFreq: int)
    returns (stmt: Statement)
    ensures stmt.where == [Single(Cond("lemma", "=", "lemma")), Single(Cond("freq", ">=", "freq"))]
                          + DeprelPart(deprel) + Optional("upos", upos)
    ensures Coherent(stmt.where, stmt.args)
    ensures BindsDeprels(stmt.args, deprel)
    ensures Binds(stmt.args, "lemma", Text(lem)) && Binds(stmt.args, "freq", Number(minFreq))
    ensures upos != "" ==> Binds(stmt.args, "upos", Text(upos))
    ensures stmt.sql == CandidatesSource(cdb, false) + "WHERE " + WhereSql(stmt.where) + " "
  {
    var where, args := CandidateWhere("lemma", lem, "upos", upos, deprel, minFreq);
    stmt := Statement(CandidatesSource(cdb, false) + "WHERE " + WhereSql(where) + " ", where, args);
  }
}
