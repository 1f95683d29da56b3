/**
 * The chunked bulk writers of engine/precalc.go (`writeFxy`,
 * `writeParents`, `writeChildren`): each walks its table once, in the
 * table's iteration order, and emits one multi-row INSERT per chunk of
 * at most 1000 rows. The writers here return the INSERT statements
 * instead of executing them.
 */
module BulkWrite {
  import Strings
  import opened Tables
  import opened Passes

  /** `bulkInsertChunkSize`. */
  const BulkInsertChunkSize: nat := 1000

  /** 3.4e38, the substitute for an infinite score. */
  const MaxFloatSubstitute: real := 340000000000000000000000000000000000000.0

  /**
   * The value written to `co_occurrence_score`: the finite float
   * `14 + log2(2 * fxy / (fx + fy))`, kept symbolic, or the substitute for
   * an infinite or NaN result.
   */
  datatype Score = LogDice(fxy: int, fx: int, fy: int) | Substitute(r: real)

  /** A bound INSERT argument. */
  datatype Arg = Text(s: string) | Int(n: int) | Float(score: Score)

  /** One INSERT statement: its SQL text and its positional arguments. */
  datatype Insert = Insert(sql: string, args: seq<Arg>)

  /**
   * The score with the source's substitutions: +Inf becomes 3.4e38, -Inf
   * becomes -3.4e38 and NaN becomes 0. With a zero denominator the float
   * quotient is NaN (zero numerator), +Inf or -Inf (whose logarithm is NaN);
   * otherwise a zero quotient has logarithm -Inf and a negative one NaN.
   */
  function CoOccurrenceScore(fxy: int, fx: int, fy: int): (s: Score)
    ensures s.LogDice? <==> fxy != 0 && fx + fy != 0 && (fxy > 0 <==> fx + fy > 0)
    ensures s.LogDice? ==> s == LogDice(fxy, fx, fy)
    ensures s.Substitute? ==> s.r == MaxFloatSubstitute || s.r == -MaxFloatSubstitute || s.r == 0.0
    ensures fx + fy == 0 && fxy > 0 ==> s == Substitute(MaxFloatSubstitute)
    ensures fx + fy == 0 && fxy <= 0 ==> s == Substitute(0.0)
    ensures fx + fy != 0 && fxy == 0 ==> s == Substitute(-MaxFloatSubstitute)
    ensures fxy != 0 && fx + fy != 0 && (fxy > 0) != (fx + fy > 0) ==> s == Substitute(0.0)
  {
    if fx + fy == 0 then
      if fxy > 0 then Substitute(MaxFloatSubstitute) else Substitute(0.0)
    else if fxy == 0 then Substitute(-MaxFloatSubstitute)
    else if (fxy > 0) != (fx + fy > 0) then Substitute(0.0)
    else LogDice(fxy, fx, fy)
  }

  /** The concatenation of a sequence of sequences. */
  function Flatten<T>(xss: seq<seq<T>>): seq<T>
  {
    if |xss| == 0 then [] else xss[0] + Flatten(xss[1..])
  }

  lemma {:induction false} FlattenSnoc<T>(xss: seq<seq<T>>, xs: seq<T>)
    ensures Flatten(xss + [xs]) == Flatten(xss) + xs
  {
    if |xss| == 0 {
      assert [] + [xs] == [xs];
      assert [xs][1..] == [];
    } else {
      assert (xss + [xs])[1..] == xss[1..] + [xs];
      FlattenSnoc(xss[1..], xs);
    }
  }

  /** Rows that all carry at least one argument flatten to nothing only when there are none. */
  lemma {:induction false} FlattenNonEmpty<T>(xss: seq<seq<T>>)
    requires forall i :: 0 <= i < |xss| ==> |xss[i]| > 0
    ensures |Flatten(xss)| > 0 <==> |xss| > 0
  {
  }

  /** Rows of one width `w` flatten to `w` arguments per row. */
  lemma {:induction false} FlattenWidth<T>(xss: seq<seq<T>>, w: nat)
    requires forall i :: 0 <= i < |xss| ==> |xss[i]| == w
    ensures |Flatten(xss)| == w * |xss|
  {
    if |xss| > 0 {
      FlattenWidth(xss[1..], w);
    }
  }

  /** Consecutive chunks of `n` rows, the last one possibly shorter. */
  function Chunks<T>(xs: seq<T>, n: nat): (r: seq<seq<T>>)
    requires n > 0
    ensures Flatten(r) == xs
    ensures forall j :: 0 <= j < |r| ==> 0 < |r[j]| <= n
    decreases |xs|
  {
    if |xs| == 0 then []
    else if |xs| <= n then
      assert [xs][1..] == [];
      [xs]
    else
      var rest := Chunks(xs[n..], n);
      assert ([xs[..n]] + rest)[1..] == rest;
      assert xs[..n] + xs[n..] == xs;
      [xs[..n]] + rest
  }

  /**
   * The chunks concatenate back to the rows; every chunk but the last has
   * exactly `n` rows and the last is non-empty with at most `n`.
   */
  lemma {:induction false} ChunksPartition<T>(xs: seq<T>, n: nat)
    requires n > 0
    ensures Flatten(Chunks(xs, n)) == xs
    ensures |Chunks(xs, n)| == 0 <==> |xs| == 0
    ensures forall j :: 0 <= j < |Chunks(xs, n)| - 1 ==> |Chunks(xs, n)[j]| == n
    ensures |Chunks(xs, n)| > 0 ==> 0 < |Chunks(xs, n)[|Chunks(xs, n)| - 1]| <= n
    decreases |xs|
  {
    if |xs| > n {
      var rest := Chunks(xs[n..], n);
      ChunksPartition(xs[n..], n);
      assert Chunks(xs, n) == [xs[..n]] + rest;
      assert ([xs[..n]] + rest)[1..] == rest;
      assert xs[..n] + xs[n..] == xs;
    } else if |xs| > 0 {
      assert [xs][1..] == [];
    }
  }

  /** A partition with full chunks and a non-empty, not too long last chunk is the chunking. */
  lemma {:induction false} ChunksUnique<T>(cs: seq<seq<T>>, n: nat)
    requires n > 0
    requires forall j :: 0 <= j < |cs| - 1 ==> |cs[j]| == n
    requires |cs| > 0 ==> 0 < |cs[|cs| - 1]| <= n
    ensures cs == Chunks(Flatten(cs), n)
  {
    if |cs| == 1 {
      assert cs[1..] == [];
      assert Flatten(cs) == cs[0];
    } else if |cs| > 1 {
      var xs := Flatten(cs);
      ChunksUnique(cs[1..], n);
      var rest := Flatten(cs[1..]);
      assert |rest| > 0 by {
        FlattenLast(cs[1..]);
      }
      assert xs == cs[0] + rest;
      assert xs[..n] == cs[0] && xs[n..] == rest;
      assert cs == [cs[0]] + cs[1..];
    }
  }

  lemma {:induction false} FlattenLast<T>(cs: seq<seq<T>>)
    requires |cs| > 0 && |cs[|cs| - 1]| > 0
    ensures |Flatten(cs)| > 0
  {
    if |cs| > 1 {
      FlattenLast(cs[1..]);
    }
  }

  /** The placeholder list of an INSERT for `count` rows. */
  function Placeholders(placeholder: string, count: nat): seq<string>
  {
    seq(count, _ => placeholder)
  }

  /** The INSERT for one chunk: one placeholder per row and the rows' arguments in order. */
  function InsertFor(head: string, placeholder: string, chunk: seq<seq<Arg>>): Insert
  {
    Insert(head + Strings.Join(Placeholders(placeholder, |chunk|), ", "), Flatten(chunk))
  }

  function Inserts(head: string, placeholder: string, chunks: seq<seq<seq<Arg>>>): (r: seq<Insert>)
    ensures |r| == |chunks|
    ensures forall j :: 0 <= j < |chunks| ==> r[j] == InsertFor(head, placeholder, chunks[j])
  {
    if |chunks| == 0 then []
    else Inserts(head, placeholder, chunks[..|chunks| - 1]) + [InsertFor(head, placeholder, chunks[|chunks| - 1])]
  }

  /**
   * The loop shared by the three writers: accumulate rows and their
   * placeholders, flush when `BulkInsertChunkSize` rows are pending before
   * the next row, and flush what is left at the end if any argument is
   * pending.
   */
  method BulkInsert(head: string, placeholder: string, rows: seq<seq<Arg>>) returns (inserts: seq<Insert>)
    requires forall k :: 0 <= k < |rows| ==> |rows[k]| > 0
    ensures inserts == Inserts(head, placeholder, Chunks(rows, BulkInsertChunkSize))
  {
    var i := 0;
    var args: seq<Arg> := [];
    var insertPlaceholders: seq<string> := [];
    inserts := [];
    ghost var done: seq<seq<seq<Arg>>> := [];
    ghost var cur: seq<seq<Arg>> := [];
    for k := 0 to |rows|
      invariant Pending(head, placeholder, rows[..k], done, cur, i, args, insertPlaceholders, inserts)
    {
      assert rows[..k + 1] == rows[..k] + [rows[k]];
      i, args, insertPlaceholders, inserts, done, cur :=
        AddRow(head, placeholder, rows[..k], rows[k], done, cur, i, args, insertPlaceholders, inserts);
    }
    assert rows[..|rows|] == rows;
    if |args| > 0 {
      CloseChunk(head, placeholder, done, cur);
      inserts := inserts + [Insert(head + Strings.Join(insertPlaceholders, ", "), args)];
      done := done + [cur];
    }
    ChunksUnique(done, BulkInsertChunkSize);
  }

  /**
   * The state of the loop after the rows of `seen`: the closed chunks `done`
   * (all full) with their INSERTs, and the pending chunk `cur` of `i` rows
   * with its arguments and placeholders.
   */
  ghost predicate Pending(head: string, placeholder: string, seen: seq<seq<Arg>>,
                          done: seq<seq<seq<Arg>>>, cur: seq<seq<Arg>>, i: nat,
                          args: seq<Arg>, insertPlaceholders: seq<string>, inserts: seq<Insert>)
  {
    Flatten(done) + cur == seen &&
    (forall j :: 0 <= j < |done| ==> |done[j]| == BulkInsertChunkSize) &&
    |cur| == i <= BulkInsertChunkSize &&
    (|args| > 0 <==> i > 0) &&
    args == Flatten(cur) &&
    insertPlaceholders == Placeholders(placeholder, i) &&
    inserts == Inserts(head, placeholder, done)
  }

  /** One iteration of the loop: flush a full chunk, then take the row. */
  method AddRow(head: string, placeholder: string, seen: seq<seq<Arg>>, row: seq<Arg>,
                ghost done: seq<seq<seq<Arg>>>, ghost cur: seq<seq<Arg>>, i: nat,
                args: seq<Arg>, insertPlaceholders: seq<string>, inserts: seq<Insert>)
    returns (i': nat, args': seq<Arg>, insertPlaceholders': seq<string>, inserts': seq<Insert>,
             ghost done': seq<seq<seq<Arg>>>, ghost cur': seq<seq<Arg>>)
    requires |row| > 0
    requires Pending(head, placeholder, seen, done, cur, i, args, insertPlaceholders, inserts)
    ensures Pending(head, placeholder, seen + [row], done', cur', i', args', insertPlaceholders', inserts')
  {
    i', args', insertPlaceholders', inserts', done', cur' := i, args, insertPlaceholders, inserts, done, cur;
    if i' == BulkInsertChunkSize {
      CloseChunk(head, placeholder, done', cur');
      inserts' := inserts' + [Insert(head + Strings.Join(insertPlaceholders', ", "), args')];
      done' := done' + [cur'];
      args' := [];
      insertPlaceholders' := [];
      i' := 0;
      cur' := [];
    }
    FlattenSnoc(cur', row);
    PlaceholdersSnoc(placeholder, i');
    args' := args' + row;
    insertPlaceholders' := insertPlaceholders' + [placeholder];
    cur' := cur' + [row];
    i' := i' + 1;
  }

  /** Closing the pending chunk appends its rows and its INSERT. */
  lemma CloseChunk(head: string, placeholder: string, done: seq<seq<seq<Arg>>>, cur: seq<seq<Arg>>)
    ensures Flatten(done + [cur]) == Flatten(done) + cur
    ensures Inserts(head, placeholder, done + [cur]) == Inserts(head, placeholder, done) + [InsertFor(head, placeholder, cur)]
  {
    FlattenSnoc(done, cur);
    assert (done + [cur])[..|done|] == done;
  }

  lemma PlaceholdersSnoc(placeholder: string, i: nat)
    ensures Placeholders(placeholder, i + 1) == Placeholders(placeholder, i) + [placeholder]
  {
  }

  /**
   * What one statement of a writer carries: at most 1000 rows, one
   * placeholder per row and `w` arguments per row, and no INSERT at all
   * for an empty table.
   */
  lemma InsertsShape(head: string, placeholder: string, rows: seq<seq<Arg>>, w: nat)
    requires forall k :: 0 <= k < |rows| ==> |rows[k]| == w
    ensures var cs := Chunks(rows, BulkInsertChunkSize);
      var ins := Inserts(head, placeholder, cs);
      (|ins| == 0 <==> |rows| == 0) &&
      forall j :: 0 <= j < |ins| ==>
        |cs[j]| <= BulkInsertChunkSize &&
        ins[j].sql == head + Strings.Join(Placeholders(placeholder, |cs[j]|), ", ") &&
        |ins[j].args| == w * |cs[j]|
  {
    var cs := Chunks(rows, BulkInsertChunkSize);
    ChunksPartition(rows, BulkInsertChunkSize);
    forall j | 0 <= j < |cs|
      ensures |Flatten(cs[j])| == w * |cs[j]|
    {
      ChunkRowsWidth(rows, BulkInsertChunkSize, w, j);
      FlattenWidth(cs[j], w);
    }
  }

  /** Every row of every chunk is a row of the input. */
  lemma {:induction false} ChunkRowsWidth(rows: seq<seq<Arg>>, n: nat, w: nat, j: int)
    requires n > 0
    requires forall k :: 0 <= k < |rows| ==> |rows[k]| == w
    requires 0 <= j < |Chunks(rows, n)|
    ensures forall k :: 0 <= k < |Chunks(rows, n)[j]| ==> |Chunks(rows, n)[j][k]| == w
    decreases |rows|
  {
    if |rows| > n && j > 0 {
      ChunkRowsWidth(rows[n..], n, w, j - 1);
    }
  }

  /** `order` lists every key of `keys` exactly once (Go's unspecified map iteration order). */
  predicate IsEnumeration<K>(order: seq<K>, keys: set<K>)
  {
    (forall i :: 0 <= i < |order| ==> order[i] in keys) &&
    (forall k :: k in keys ==> k in order) &&
    (forall i, j :: 0 <= i < j < |order| ==> order[i] != order[j])
  }

  const FxyPlaceholder: string := "(?, ?, ?, ?, ?, ?, ?)"
  const SumsPlaceholder: string := "(?, ?, ?, ?)"

  /** The columns of each table, in the order the rows bind them. */
  const FxyColumns: seq<string> := ["lemma", "upos", "p_lemma", "p_upos", "deprel", "freq", "co_occurrence_score"]
  const ParentsColumns: seq<string> := ["p_lemma", "p_upos", "deprel", "freq"]
  const ChildrenColumns: seq<string> := ["lemma", "upos", "deprel", "freq"]

  /** `INSERT INTO <table> (<columns>) VALUES `, the text before the placeholders. */
  function InsertHead(table: string, columns: seq<string>): string
  {
    "INSERT INTO " + table + " (" + Strings.Join(columns, ", ") + ") VALUES "
  }

  /**
   * The head of `writeFxy`'s INSERTs: the corpus's `_fcolls` table and the
   * seven columns, which render to the source's column text.
   */
  function FxyHead(corpusID: string): (r: string)
    ensures r == "INSERT INTO " + corpusID + "_fcolls ("
                 + ("lemma" + ", " + ("upos" + ", " + ("p_lemma" + ", " + ("p_upos" + ", "
                 + ("deprel" + ", " + ("freq" + ", " + "co_occurrence_score"))))))
                 + ") VALUES "
  {
    assert FxyColumns[1..][1..][1..][1..][1..][1..] == ["co_occurrence_score"];
    InsertHead(corpusID + "_fcolls", FxyColumns)
  }

  /** The head of `writeParents`'s INSERTs: the `_parent_sums` table and its four columns. */
  function ParentsHead(corpusID: string): (r: string)
    ensures r == "INSERT INTO " + corpusID + "_parent_sums ("
                 + ("p_lemma" + ", " + ("p_upos" + ", " + ("deprel" + ", " + "freq"))) + ") VALUES "
  {
    assert ParentsColumns[1..][1..][1..] == ["freq"];
    InsertHead(corpusID + "_parent_sums", ParentsColumns)
  }

  /** The head of `writeChildren`'s INSERTs: the `_child_sums` table and its four columns. */
  function ChildrenHead(corpusID: string): (r: string)
    ensures r == "INSERT INTO " + corpusID + "_child_sums ("
                 + ("lemma" + ", " + ("upos" + ", " + ("deprel" + ", " + "freq"))) + ") VALUES "
  {
    assert ChildrenColumns[1..][1..][1..] == ["freq"];
    InsertHead(corpusID + "_child_sums", ChildrenColumns)
  }

  /** The `_fcolls` row of an edge: its fields, its frequency and its co-occurrence score. */
  function FxyRow(c: CtKey, table: map<CtKey, int>, pairs: map<CoKey, int>, tokens: map<FyKey, int>): (r: seq<Arg>)
    requires c in table && PairOf(c) in pairs && ChildToken(c) in tokens && ParentToken(c) in tokens
    ensures |r| == 7
  {
    [Text(c.lem), Text(c.upos), Text(c.pLemma), Text(c.pUpos), Text(c.deprel), Int(table[c]),
     Float(CoOccurrenceScore(pairs[PairOf(c)], tokens[ChildToken(c)], tokens[ParentToken(c)]))]
  }

  function FxyRows(order: seq<CtKey>, table: map<CtKey, int>, pairs: map<CoKey, int>, tokens: map<FyKey, int>): (r: seq<seq<Arg>>)
    requires forall i :: 0 <= i < |order| ==> order[i] in table
    requires LookupsHit(table.Keys, pairs, tokens)
    ensures |r| == |order|
    ensures forall i :: 0 <= i < |order| ==> r[i] == FxyRow(order[i], table, pairs, tokens)
  {
    seq(|order|, i requires 0 <= i < |order| => FxyRow(order[i], table, pairs, tokens))
  }

  /** A sums row: the key's fields and its frequency. */
  function SumsRow(k: FyKey, table: map<FyKey, int>): (r: seq<Arg>)
    requires k in table
    ensures |r| == 4
  {
    [Text(k.lem), Text(k.upos), Text(k.deprel), Int(table[k])]
  }

  /** Each row binds one argument per column its INSERT head names. */
  lemma ColumnsMatchRows(c: CtKey, table: map<CtKey, int>, pairs: map<CoKey, int>, tokens: map<FyKey, int>,
                         k: FyKey, sums: map<FyKey, int>)
    requires c in table && PairOf(c) in pairs && ChildToken(c) in tokens && ParentToken(c) in tokens
    requires k in sums
    ensures |FxyRow(c, table, pairs, tokens)| == |FxyColumns|
    ensures |SumsRow(k, sums)| == |ParentsColumns| == |ChildrenColumns|
  {
  }

  function SumsRows(order: seq<FyKey>, table: map<FyKey, int>): (r: seq<seq<Arg>>)
    requires forall i :: 0 <= i < |order| ==> order[i] in table
    ensures |r| == |order|
    ensures forall i :: 0 <= i < |order| ==> r[i] == SumsRow(order[i], table)
  {
    seq(|order|, i requires 0 <= i < |order| => SumsRow(order[i], table))
  }

  /** The INSERTs of `writeFxy` when the table is walked in `order`. */
  function FxyInserts(corpusID: string, table: map<CtKey, int>, pairs: map<CoKey, int>, tokens: map<FyKey, int>,
                      order: seq<CtKey>): seq<Insert>
    requires IsEnumeration(order, table.Keys)
    requires LookupsHit(table.Keys, pairs, tokens)
  {
    Inserts(FxyHead(corpusID), FxyPlaceholder, Chunks(FxyRows(order, table, pairs, tokens), BulkInsertChunkSize))
  }

  /** The INSERTs of `writeParents` or `writeChildren` (by `head`) when the table is walked in `order`. */
  function SumsInserts(head: string, table: map<FyKey, int>, order: seq<FyKey>): seq<Insert>
    requires IsEnumeration(order, table.Keys)
  {
    Inserts(head, SumsPlaceholder, Chunks(SumsRows(order, table), BulkInsertChunkSize))
  }

  /**
   * `writeFxy`: the edge rows in chunks. The three lookups per edge must
   * hit (in the source a miss dereferences a nil item); seeding makes sure
   * of it.
   */
  method WriteFxy(table: CounterTable, coOccTable: CoOccTable, tokenCounts: FyTable, corpusID: string, order: seq<CtKey>)
    returns (inserts: seq<Insert>)
    requires IsEnumeration(order, table.items.Keys)
    requires LookupsHit(table.items.Keys, coOccTable.items, tokenCounts.items)
    ensures inserts == FxyInserts(corpusID, table.items, coOccTable.items, tokenCounts.items, order)
  {
    var rows := FxyRows(order, table.items, coOccTable.items, tokenCounts.items);
    inserts := BulkInsert(FxyHead(corpusID), FxyPlaceholder, rows);
  }

  /** `writeParents`: the parent sums in chunks. */
  method WriteParents(table: FyTable, corpusID: string, order: seq<FyKey>) returns (inserts: seq<Insert>)
    requires IsEnumeration(order, table.items.Keys)
    ensures inserts == SumsInserts(ParentsHead(corpusID), table.items, order)
  {
    var rows := SumsRows(order, table.items);
    inserts := BulkInsert(ParentsHead(corpusID), SumsPlaceholder, rows);
  }

  /** `writeChildren`: the child sums in chunks. */
  method WriteChildren(table: FyTable, corpusID: string, order: seq<FyKey>) returns (inserts: seq<Insert>)
    requires IsEnumeration(order, table.items.Keys)
    ensures inserts == SumsInserts(ChildrenHead(corpusID), table.items, order)
  {
    var rows := SumsRows(order, table.items);
    inserts := BulkInsert(ChildrenHead(corpusID), SumsPlaceholder, rows);
  }

  /** The arguments of all the INSERTs together are the rows in iteration order. */
  lemma {:induction false} InsertsCarryRows(head: string, placeholder: string, chunks: seq<seq<seq<Arg>>>)
    ensures Flatten(seq(|chunks|, j requires 0 <= j < |chunks| => Inserts(head, placeholder, chunks)[j].args)) == Flatten(Flatten(chunks))
  {
    var ins := Inserts(head, placeholder, chunks);
    if |chunks| > 0 {
      var tail := chunks[1..];
      InsertsCarryRows(head, placeholder, tail);
      var tins := Inserts(head, placeholder, tail);
      var l := seq(|chunks|, j requires 0 <= j < |chunks| => ins[j].args);
      var tl := seq(|tail|, j requires 0 <= j < |tail| => tins[j].args);
      assert l[1..] == tl;
      FlattenAppend(chunks[0], Flatten(tail));
    }
  }

  lemma {:induction false} FlattenAppend<T>(a: seq<seq<T>>, b: seq<seq<T>>)
    ensures Flatten(a + b) == Flatten(a) + Flatten(b)
  {
    if |a| > 0 {
      assert (a + b)[1..] == a[1..] + b;
      FlattenAppend(a[1..], b);
    } else {
      assert a + b == b;
    }
  }
}
