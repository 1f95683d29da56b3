# scollex core in Dafny

scollex computes syntactic collocations ("which nouns modify *team*", "which
verbs take *team* as subject") from a dependency-parsed corpus. Its core is
modelled here:

- **Precalculation** (`engine/precalc.go`). The edge pass reads every token row of a vertical
  file. It counts each (child, parent, relation) edge in a `CounterTable` and counts parent and
  child sums in two `FyTable`s.
- **Seeding.** The edge table seeds a `CoOccTable` of (child, parent) pairs and a token table,
  all at frequency 0.
- **Co-occurrence pass.** A second pass slides a window of `2 * span + 1` tokens over the
  same rows. It counts the seeded tokens, and the seeded pairs between the window's middle and
  each other position.
- **Bulk writers.** The three tables are written to the database by bulk INSERTs of at most
  1000 rows each.
- **Query builders** (`engine/query.go`). These build the WHERE-clause list and the
  named-argument map of the frequency and candidate queries.
- **Ranking handler** (`actions.go`, `engine/common.go`). It validates the word, reads
  `maxItems`, looks up the corpus, builds one item per candidate, sorts stably by descending
  weight, cuts the list, and attaches the example CQL query.
- **Configuration** (`engine/conf.go`). This covers corpus lookup and validation of the syntax
  configuration.
- **CQL example queries** (`cql/querygen.go`).

Files:

- `wrappers.dfy`: `Option` and `Result`.
- `strings.dfy`: `strings.Split` and `strings.Join`, with their round trips, and decimal
  rendering.
- `common.dfy`: `Word`, `FreqDistribItem`, `Cut`.
- `conf.dfy`: `GetCorpusProps` and `ValidateAndDefaults`.
- `querygen.dfy`: the four CQL templates.
- `query.dfy`: the query builders, as methods that extend the clause list and the argument map
  step by step.
- `tables.dfy`: the three tables, as classes whose `items` map is updated in place. Tuple keys
  stand in for the source's `"%s:%s:%s"` key strings. The key strings are proved injective when
  no field (except the last) contains `:`, and a concrete collision is shown for when one does.
- `passes.dfy`: the relation expansion, the two token processors as classes, and the seeding
  loop.
- `bulkwrite.dfy`: the chunking loops and the three writers.
- `precalc.dfy`: the two passes over the rows, and `runForDeprel` with the trace of database
  calls it makes.
- `actions.dfy`: the handler, with array-based item building and an in-place stable insertion
  sort.

Rows are given as a sequence `Row(attrs, line, err)`, where `err` is the parser's error for
that row. A pass stops at the first row whose `ProcToken` returns a non-nil error, and the run
returns that error. Go's index-out-of-range panics are the status `Panic`. This happens when a
configured column is 0 or less, when it lies beyond a row of 12 or more attributes, or when the
span is negative (a negative `make` capacity). `Cut` with a negative `maxItems` also panics.

Go maps are unordered. The writers take an arbitrary enumeration of a table's keys and are
proved for every enumeration. Seeding picks the edges in an unspecified order, and its result
does not depend on that order.

`expandDeprelMultivalue` splits a relation value only when it has three or more `|`-separated
parts (`engine/precalc.go:138`). So `obj|iobj` stays whole. With the relation values `nmod`,
`nsubj` and `obj|iobj` (the values the handlers query at `actions.go:61`, `193` and `259`, and
the sample configuration of `engine/conf.go:87-94`), a token whose relation is plain `obj` is not
counted at all. `Passes.ObjIobjStaysWhole` and `Passes.HandlerDeprelTypes` state this. None of
these values has a default: `ValidateAndDefaults` rejects an empty one.

## Model

| member | source | states |
|---|---|---|
| Common.Cut | engine/common.go:42-47 | a negative `maxItems` panics (None); otherwise the result is the prefix of length min(len, maxItems), and the list unchanged when it is no longer than `maxItems` |
| Common.CutIdempotent | engine/common.go:42-47 | cutting twice with the same `maxItems` gives the same list as cutting once |
| Conf.GetCorpusProps | engine/conf.go:37-44 | None exactly when no corpus has the name; otherwise the corpus at the first index with that name |
| Conf.GetCorpusPropsFirstWins | engine/conf.go:37-44 | a corpus whose name occurs at no earlier index is the one found for its name |
| Conf.FirstMissing | engine/conf.go:97-132 | None exactly when every field from the start index is non-empty; otherwise names the first empty one |
| Conf.ValidateSyntaxReportsFirstMissing | engine/conf.go:97-132 | validation succeeds exactly when all eleven required fields are non-empty; otherwise the error is "missing `<ctx>.<field>`" for the first empty field in check order |
| Conf.ValidateSyntax | engine/conf.go:97-132 | no error exactly when every one of the eleven required fields is non-empty; an error is "missing `<ctx>.<field>`" for a field that is empty |
| Conf.ValidateCorpus | engine/conf.go:52-54 | no error when every required field of the corpus's syntax configuration is set; otherwise "missing `<ctx>.<field>`" naming the first empty field in check order |
| Strings.Split | engine/query.go:83 | one piece more than separators, and no piece contains the separator |
| Strings.JoinSplit | engine/query.go:83 | joining the pieces with the separator gives the input back |
| Strings.SplitJoin | engine/query.go:83 | splitting separator-free pieces joined by the separator gives the pieces back |
| Cql.NounsModifiedBy | cql/querygen.go:25-43 | `[` + the relation's `name="value"` clauses joined by ` & ` + `]`, values inserted unescaped |
| Cql.ModifiersOf | cql/querygen.go:45-63 | the same rendering of the `ModifiersOf` clauses |
| Cql.VerbsObject | cql/querygen.go:65-83 | the same rendering of the `VerbsObject` clauses |
| Cql.VerbsSubject | cql/querygen.go:85-103 | the same rendering of the `VerbsSubject` clauses |
| Cql.Generate | cql/querygen.go:25-103 | whatever the relation, its query is the bracketed ` & `-joined rendering of that relation's clauses |
| Cql.RenderFourOrFive | cql/querygen.go:25-43 | the rendering of four or five clauses, written out with the ` & ` separators and brackets |
| Cql.PosClauseOnlyWithPos | cql/querygen.go:25-103 | with a PoS there are five clauses and the second is the word's PoS clause (child or parent PoS attribute by relation); without one the output is the same list with that clause removed |
| Cql.ClauseRoles | cql/querygen.go:28-31 | the first clause carries the word on the lemma (or, for `ModifiersOf`, parent-lemma) attribute; the candidate placeholder sits on the parent-lemma clause (lemma clause for `ModifiersOf`); the relation clause carries the relation's configured value |
| Query.TableName | engine/query.go:49-51 | the corpus ID followed by `_fcolls` |
| Query.DeprelGroup | engine/query.go:82-92 | one OR-group with one `deprel = @deprel_i` clause per part of the bar-separated value, and exactly the args `deprel_0..` bound to the parts in order |
| Query.DeprelParamInjective | engine/query.go:87-88 | distinct part indices give distinct parameter names |
| Query.DeprelParamIsNotColumn | engine/query.go:87-88 | a deprel parameter never collides with a column parameter |
| Query.BindsDeprelsUpdate | engine/query.go:91-108 | binding a column parameter keeps every deprel binding |
| Query.AddOptional | engine/query.go:93-108 | a clause and its arg are added exactly when the value is non-empty, other args kept, clauses and args stay in correspondence |
| Query.AddDeprelGroup | engine/query.go:82-92 | the deprel group is appended only for a non-empty relation and all its args are bound, earlier args kept |
| Query.GetFreq | engine/query.go:78-110 | clause list = deprel group, then each of lemma/upos/p_lemma/p_upos iff non-empty, in that order; arg keys are exactly the clause parameters, each bound to its value; the SQL is the sum over the `_fcolls` table |
| Query.CandidateWhere | engine/query.go:124-145 | the lemma and `freq >= @freq` clauses first with their args, then the optional deprel group and PoS clause |
| Query.GetChildCandidates | engine/query.go:123-163 | `p_lemma` and `freq` always present, deprel group iff non-empty, `p_upos` iff non-empty; the same clauses under either source (materialised view or `_fcolls` subquery) |
| Query.GetParentCandidates | engine/query.go:183-223 | the mirror with `lemma`/`freq` always present and `upos` optional |
| Tables.SplitAfterField | engine/precalc.go:45-47 | splitting at `:` a colon-free field followed by `:` and a tail gives the field, then the tail's pieces |
| Tables.FyKeyString | engine/precalc.go:45-47 | when lemma and upos hold no colon, splitting the key string at `:` gives lemma, upos, then the relation's pieces |
| Tables.CtKeyString | engine/precalc.go:80-82 | when no field but the last holds a colon, splitting at `:` gives lemma, upos, relation, parent lemma, then the parent PoS's pieces |
| Tables.CoKeyString | engine/precalc.go:110-112 | when no field but the last holds a colon, splitting at `:` gives lemma, upos, an empty third field, co-lemma, then the co-PoS's pieces |
| Tables.FyKeyStringInjective | engine/precalc.go:45-47 | distinct keys give distinct key strings when lemma and upos hold no colon |
| Tables.CtKeyStringInjective | engine/precalc.go:80-82 | distinct keys give distinct key strings when no field but the last holds a colon |
| Tables.CoKeyStringInjective | engine/precalc.go:110-112 | distinct keys give distinct key strings when no field but the last holds a colon |
| Tables.CtKeyStringCollision | engine/precalc.go:80-82 | two different edges whose fields contain colons share one key string |
| Tables.AddFreq | engine/precalc.go:49-61 | the key becomes present with frequency old (0 if absent) + val; every other key unchanged; no other key added |
| Tables.TotalAddFreq | engine/precalc.go:60 | the table's total grows by exactly `val` |
| Tables.TotalAddEach | engine/precalc.go:228-234 | counting a sequence of keys grows the total by its length |
| Tables.AddEachKeys | engine/precalc.go:228-234 | counting keys adds exactly those keys |
| Tables.AddEachPositive | engine/precalc.go:228-234 | counting keeps every stored frequency positive |
| Tables.CountIfSeeded | engine/precalc.go:176-178 | no key is added; a present key grows by 1, others unchanged |
| Tables.FyTable.constructor | engine/precalc.go:389-390 | an empty table |
| Tables.FyTable.Add | engine/precalc.go:49-61 | the items become `AddFreq(old, key, val)` |
| Tables.FyTable.Has | engine/precalc.go:63-67 | true exactly when the key is present (also for frequency 0) |
| Tables.CounterTable.constructor | engine/precalc.go:388 | an empty table |
| Tables.CounterTable.Add | engine/precalc.go:84-98 | the items become `AddFreq(old, key, val)` |
| Tables.CoOccTable.constructor | engine/precalc.go:413 | an empty table |
| Tables.CoOccTable.Add | engine/precalc.go:114-127 | the items become `AddFreq(old, key, val)` |
| Tables.CoOccTable.Has | engine/precalc.go:129-133 | true exactly when the key is present |
| Passes.ExpandDeprelMultivalue | engine/precalc.go:135-148 | the value itself comes last; either it is the only element or at least three bar-free parts precede it |
| Passes.ExpansionKeepsValues | engine/precalc.go:150-156 | the expansion is at least as long as the input and contains every input value |
| Passes.ExpandDeprelMultivalues | engine/precalc.go:150-156 | no configured relation is lost: every input value is in the expansion, which is at least as long |
| Passes.ExpandDeprelMultivalueShape | engine/precalc.go:135-148 | the last element is the value; fewer than two bar separators gives exactly `[value]`; otherwise the separator-free parts (which join back to the value) followed by the value |
| Passes.ObjIobjStaysWhole | engine/precalc.go:135-148 | the two-part value of `obj` and `iobj` expands to itself alone |
| Passes.SingleValueStaysWhole | engine/precalc.go:135-148 | a value without a bar separator expands to itself |
| Passes.ExpandDeprelMultivaluesAppend | engine/precalc.go:150-156 | the expansion of a concatenation is the concatenation of expansions |
| Passes.ExpandDeprelMultivaluesSingle | engine/precalc.go:150-156 | the expansion of one value is that value's expansion |
| Passes.FewSeparatorsStayWhole | engine/precalc.go:150-156 | values with fewer than two bar separators are kept as they are |
| Passes.HandlerDeprelTypes | engine/precalc.go:392-398 | the relation values the handlers query (`nmod`, `nsubj` and the two-part value of `obj` and `iobj`) expand to themselves, so `obj` is not among the counted types |
| Passes.Matching | engine/precalc.go:228-229 | only expanded relations that are among the counted types are kept |
| Passes.Edges | engine/precalc.go:230 | one edge per matched relation, carrying the token's lemma, PoS and parent data |
| Passes.RestrictAddFreq | engine/precalc.go:230-232 | restricting a table commutes with counting a key inside the restriction |
| Passes.SumWhereAddFreq | engine/precalc.go:230-232 | the sum of edges over a parent (child) grows by the count exactly when the edge maps to it |
| Passes.MarginalAddFreq | engine/precalc.go:230-232 | counting one edge and its parent (child) keeps each sum equal to the sum of its edges |
| Passes.CountEdges | engine/precalc.go:228-234 | counting edges with their parents and children keeps the tables consistent: exact marginals, equal totals, positive counts |
| Passes.MarginalsAddEach | engine/precalc.go:228-234 | counting edges keeps the parent and child sums exact |
| Passes.RowStep | engine/precalc.go:228-234 | each examined relation adds one edge exactly when it is a counted type |
| Passes.VertProcessor.constructor | engine/precalc.go:388-403 | three fresh empty tables, consistent |
| Passes.VertProcessor.ProcToken | engine/precalc.go:214-238 | a parse error is returned and a short row skipped with nothing changed; a missing configured column panics; otherwise the three tables grow by exactly the row's edges, their parents and their children, and stay consistent |
| Passes.VertProcessor.CountRow | engine/precalc.go:228-234 | the loop adds each matched relation's edge, parent and child |
| Passes.VertProcessor.AddEdge | engine/precalc.go:230-232 | one edge and its parent and child counted once |
| Passes.Last | engine/precalc.go:180-184 | at most n elements, and no more than the input has |
| Passes.Slide | engine/precalc.go:180-184 | the new token is last, and a window within `2 * span + 1` stays within it |
| Passes.SlideKeepsLast | engine/precalc.go:180-184 | sliding keeps the window equal to the last `2 * span + 1` tokens of the stream (FIFO) |
| Passes.CountNear | engine/precalc.go:186-193 | no key is added |
| Passes.CountNearHits | engine/precalc.go:186-193 | each seeded pair grows by the number of non-middle positions whose (middle, near) pair it is |
| Passes.CoVertProcessor.constructor | engine/precalc.go:420-426 | an empty window over the given tables |
| Passes.CoVertProcessor.ProcToken | engine/precalc.go:166-195 | errors and short rows change nothing; a missing column panics; otherwise the token is counted if seeded, the window slides, and pairs are counted only when the window is full; the window never exceeds `2 * span + 1` |
| Passes.CoVertProcessor.CountWindow | engine/precalc.go:186-193 | the loop over the window counts exactly the seeded (middle, near) pairs |
| Passes.SeedingCoversEdges | engine/precalc.go:413-419 | after seeding every edge's pair and both tokens are present at 0, and nothing else is seeded |
| Passes.SeedPairsStep | engine/precalc.go:416 | seeding one more edge adds its pair at 0 |
| Passes.SeedTokensStep | engine/precalc.go:417-418 | seeding one more edge adds its child and parent tokens at 0 |
| Passes.Seed | engine/precalc.go:413-419 | fresh tables holding exactly the seeded pairs and tokens, whatever order the edges are visited in |
| Passes.SeedEdge | engine/precalc.go:416-418 | the loop body adds one edge's entries |
| BulkWrite.CoOccurrenceScore | engine/precalc.go:269-281 | the score is logDice exactly when the float result is finite; +Inf, -Inf and NaN are replaced by 3.4e38, -3.4e38 and 0; a zero joint count with a non-zero denominator gives -3.4e38 |
| BulkWrite.Chunks | engine/precalc.go:253-298 | the chunks concatenate back to the rows, and every chunk is non-empty and holds at most the given chunk size |
| BulkWrite.FxyHead | engine/precalc.go:255-257 | `INSERT INTO <corpus>_fcolls (lemma, upos, p_lemma, p_upos, deprel, freq, co_occurrence_score) VALUES ` |
| BulkWrite.ParentsHead | engine/precalc.go:309-311 | `INSERT INTO <corpus>_parent_sums (p_lemma, p_upos, deprel, freq) VALUES ` |
| BulkWrite.ChildrenHead | engine/precalc.go:349-351 | `INSERT INTO <corpus>_child_sums (lemma, upos, deprel, freq) VALUES ` |
| BulkWrite.ColumnsMatchRows | engine/precalc.go:256-284 | an edge row has one argument per `_fcolls` column, a sum row one per `_parent_sums`/`_child_sums` column |
| BulkWrite.ChunksPartition | engine/precalc.go:253-298 | the chunks concatenate to the rows; none for no rows; all but the last have exactly 1000 rows (the chunk size), and the last is non-empty |
| BulkWrite.ChunksUnique | engine/precalc.go:253-298 | any partition of that shape is the chunking |
| BulkWrite.Inserts | engine/precalc.go:255-257 | one INSERT per chunk, with one placeholder per row and the chunk's arguments |
| BulkWrite.BulkInsert | engine/precalc.go:249-298 | the loop with its counter, argument and placeholder buffers emits exactly the INSERTs of the chunking |
| BulkWrite.AddRow | engine/precalc.go:253-285 | flushes a full chunk before adding the row, keeping the loop's buffers in step |
| BulkWrite.CloseChunk | engine/precalc.go:288-298 | closing the last chunk appends its INSERT |
| BulkWrite.InsertsShape | engine/precalc.go:253-298 | no INSERT for no rows; each INSERT has at most 1000 rows, the head followed by one placeholder per row, and width × rows arguments |
| BulkWrite.InsertsCarryRows | engine/precalc.go:253-298 | the INSERTs' arguments concatenate to all rows' arguments in order |
| BulkWrite.FxyRow | engine/precalc.go:269-284 | seven arguments per edge |
| BulkWrite.FxyRows | engine/precalc.go:253-284 | one row per enumerated edge |
| BulkWrite.SumsRow | engine/precalc.go:323-324 | four arguments per sum |
| BulkWrite.SumsRows | engine/precalc.go:307-324 | one row per enumerated sum |
| BulkWrite.WriteFxy | engine/precalc.go:248-300 | the INSERTs of the edge rows of the given enumeration into `_fcolls` |
| BulkWrite.WriteParents | engine/precalc.go:302-340 | the INSERTs of the parent sums into `_parent_sums` |
| BulkWrite.WriteChildren | engine/precalc.go:342-380 | the INSERTs of the child sums into `_child_sums` |
| Precalc.RowStatus | engine/precalc.go:214-221 | Ok exactly for rows without error that are short or have the columns; Panic exactly for counted rows missing a column |
| Precalc.FirstFailure | engine/precalc.go:404-407 | every row before it succeeds and the row at it (if any) fails |
| Precalc.FirstFailureAt | engine/precalc.go:404-407 | the first failing row is unique |
| Precalc.PassStatus | engine/precalc.go:404-407 | a pass succeeds exactly when every row does |
| Precalc.EdgeOkTokenOk | engine/precalc.go:427-430 | when the edge pass succeeds, the co-occurrence pass over the same rows succeeds |
| Precalc.Positions | engine/precalc.go:174-175 | at most one token per row |
| Precalc.CoStep | engine/precalc.go:166-195 | one more token counted, slid and paired |
| Precalc.AddEachAppend | engine/precalc.go:228-234 | counting in two steps is counting the concatenation |
| Precalc.ParentsAppend | engine/precalc.go:231 | the parents of a concatenation are the concatenated parents |
| Precalc.ChildrenAppend | engine/precalc.go:232 | the children of a concatenation are the concatenated children |
| Precalc.EdgePassStep | engine/precalc.go:214-234 | processing a row adds exactly its edges |
| Precalc.RunEdgePass | engine/precalc.go:404-407 | the status is that of the first failing row (or Ok); the tables hold the edges of all rows before it; consistency is kept |
| Precalc.EdgeRow | engine/precalc.go:214-238 | one row of the edge pass through `ProcToken` |
| Precalc.TokenKeys | engine/precalc.go:176 | one token key per position |
| Precalc.CountTokensOccurrences | engine/precalc.go:176-178 | no key added; each seeded token grows by the number of its occurrences |
| Precalc.CoCountKeys | engine/precalc.go:176-193 | no pair key added, and no count decreases |
| Precalc.CoCountWindow | engine/precalc.go:180-184 | the window is the last `2 * span + 1` tokens of the stream |
| Precalc.CoPassSkip | engine/precalc.go:167-173 | an error or short row is skipped |
| Precalc.CoPassCount | engine/precalc.go:174-193 | a counted row counts its token, slides the window and counts the pairs |
| Precalc.RunCoPass | engine/precalc.go:427-430 | the status is that of the first failing row; tables and window are those of the pass over the rows before it |
| Precalc.CoRow | engine/precalc.go:166-195 | one row of the co-occurrence pass through `ProcToken` |
| Precalc.Enumerate | engine/precalc.go:253 | an order listing every key exactly once |
| Precalc.InTx | engine/precalc.go:258 | one in-transaction call per INSERT |
| Precalc.RunForDeprel | engine/precalc.go:382-466 | a failing row, or a negative span, returns before any database call; otherwise the transaction is opened, `_fcolls` is cleared, then the edges, child sums and parent sums of the whole file are written and committed; the sums are exact marginals, and the pair and token counts are those of the co-occurrence pass over the seeded pairs |
| Precalc.CoPhase | engine/precalc.go:413-430 | seeding and the co-occurrence pass; every lookup of the writer hits |
| Precalc.TxCalls | engine/precalc.go:436-462 | the transaction opens, `_fcolls` is cleared on the pool, every given INSERT runs inside the transaction in order, and the commit comes last |
| Precalc.WriteAll | engine/precalc.go:436-462 | begin, delete, the three writers in order, commit |
| Precalc.RunPg | engine/precalc.go:468-476 | succeeds exactly when the span is non-negative and every row succeeds; no call on failure; on success the same transaction and written tables as `runForDeprel` |
| Actions.FreqQuery | actions.go:61 | the frequency query for a relation: the word as child (lemma, PoS) with parent PoS `NOUN` or `VERB`, or for `ModifiersOf` (line 126) as parent with child PoS `NOUN`; always the relation's value |
| Actions.CandidatesQuery | actions.go:67 | candidates of the word as child, or as parent for `ModifiersOf` (line 133), with the word's lemma and PoS, the relation of the frequency query and the minimum frequency `CandidatesFreqLimit` |
| Actions.InsertDesc | actions.go:85-90 | inserting adds exactly one element |
| Actions.SortDesc | actions.go:85-90 | the sort keeps the length |
| Actions.MultisetInitLast | actions.go:85-90 | a non-empty list holds its prefix and its last element |
| Actions.SortDescSorted | actions.go:85-90 | the sort has non-increasing weights |
| Actions.SortDescPermutation | actions.go:85-90 | the sort holds exactly the input items |
| Actions.Items | actions.go:73-84 | one item per candidate, in order, with the candidate's lemma, joint frequency and weight |
| Actions.BuildItems | actions.go:73-84 | the array filled index by index holds those items |
| Actions.InsertDescPermutation | actions.go:85-90 | inserting adds exactly the new item |
| Actions.InsertDescSorted | actions.go:85-90 | inserting into a non-increasing sequence keeps it non-increasing |
| Actions.InsertDescStable | actions.go:85-90 | inserting keeps the order of each weight's items and puts the new one last among its weight |
| Actions.SortDescSortedPermutation | actions.go:85-90 | the sort is a permutation with non-increasing weights |
| Actions.SortDescStable | actions.go:85-90 | items of equal weight keep their candidate order |
| Actions.SortDescUnique | actions.go:85-90 | any non-increasing order that keeps every weight's items in order is this sort, so `sort.SliceStable` gives the same result |
| Actions.SortStable | actions.go:85-90 | the in-place sort leaves the array holding the stable descending sort of its old contents |
| Actions.Insert | actions.go:85-90 | one step of the in-place insertion |
| Actions.Handle | actions.go:38-299 | empty word: 422 with no call; malformed `maxItems`: the argument error with no call; unknown corpus: 500 "corpus not found" with no call; a failing frequency or candidate query: 500 with that error after exactly the calls made; otherwise the first `maxItems` (default 10) items of the stable descending sort, the corpus size and that relation's CQL query with `%s` (a panic for a negative `maxItems`) |
| Actions.DistribShape | actions.go:73-91 | a successful list has min(candidates, maxItems) items with non-increasing weights, drawn from the built items; all of them when none is cut |

## Left out

- Database I/O is left out: the `tx.Exec`, `QueryRow`, `Query` and `Scan` round trips, `TestTableReady`, the DDL in `engine/init.go` and the connection setup in `engine/postgres.go`. The handler takes the query outcomes as parameters, and the precalculation returns the list of calls it would make.
- Precalc.RunForDeprel: does not model a failing database call (`BeginTx`, the DELETE, an INSERT, the commit) or the `Rollback` that follows it, because those are foreign calls. The trace is that of a run in which every call succeeds. The DELETE runs on the connection pool, outside the transaction, and clears only `_fcolls`; the model shows it as a separate kind of call and claims no atomicity.
- The vertigo parser (`ParseVerticalFile`) is an external library. Rows are given as a sequence, with the parser's per-row error, and structures are not modelled. The passes stop at the first row whose `ProcToken` returns an error, and return that error.
- BulkWrite.CoOccurrenceScore: the logDice formula is kept symbolic as `LogDice(fxy, fx, fy)` because Dafny has no floating point. Only the case split into finite, +Inf, -Inf and NaN, with the source's substitutes, is modelled.
- Actions.Handle: the association weight `14 + log2(2 * fxy / (fx + fy))` is an abstract integer produced by the parameter `weigh`. Float rounding, and NaN weights (which would break the sort's total order), are not modelled. The IPM field is not modelled either.
- Tables.FyTable.Add, Tables.CounterTable.Add, Tables.CoOccTable.Add: frequencies are unbounded integers, so the int64 wrap-around of `Freq` is not modelled.
- The HTTP layer is not modelled: gin, JSON writing, `GetURLIntArgOrFail` (an abstract `MaxItemsArg`: absent, an integer, or malformed) and the recovery middleware that answers a panic. Nor are the CLI, the server and the signal code in `scollex.go`.
- `cnf/conf.go` is not modelled: file reading, JSON decoding, time zones and `log.Fatal`.
- Logging is not modelled anywhere.
- `actions.go` calls names that `engine/query.go` and `engine/common.go` do not define: `GetCollCandidatesOfChild`, `GetCollCandidatesOfParent`, a two-argument `NewCollDatabase`, and a `CoOccScore` field. The handler is modelled over an abstract candidate list. Its calls are recorded as `FreqCall` and `CandidatesCall`, and the co-occurrence score is not an item field.
- `VertProcessor.DeprelCol` is never read by the source and is not modelled.
- `ProcStruct` and `ProcStructClose` return nil without looking at their arguments, and are not modelled.
- The CQL templates insert values unescaped, as the source does. No property about quoting is claimed.
- `sort.SliceStable` is modelled by an in-place insertion sort. Go's algorithm differs, but a stable sort by a total order has exactly one result (`Actions.SortDescUnique`).
