/**
 * The handler pipeline shared by the four HTTP actions of actions.go
 * (`NounsModifiedBy`, `ModifiersOf`, `VerbsSubject`, `VerbsObject`):
 * validate the word, read `maxItems`, look up the corpus, fetch the word's
 * frequency and the collocation candidates, build one item per candidate,
 * sort the items stably by descending weight and cut the list.
 *
 * The database answers are parameters, and the handler returns the calls
 * it makes, so that what happens before any database access is visible.
 * The association weight is an abstract ordered key computed by `weigh`
 * from the joint frequency, the word's frequency and the candidate's
 * frequency.
 */
module Actions {
  import opened Wrappers
  import opened Conf
  import opened Common
  import Cql

  /** A candidate row: the candidate lemma, the joint frequency and the candidate's own frequency. */
  datatype Candidate = Candidate(lem: string, freqXY: int, freqY: int)

  /** The `maxItems` URL argument: absent (default 10), an integer, or not an integer. */
  datatype MaxItemsArg = Absent | Given(n: int) | Malformed

  /** `maxItems` when the argument parsed. */
  function MaxItems(arg: MaxItemsArg): int
    requires !arg.Malformed?
  {
    if arg.Given? then arg.n else 10
  }

  /** A database call of the handler. */
  datatype Call =
    | FreqCall(lem: string, upos: string, pLemma: string, pUpos: string, deprel: string)
    | CandidatesCall(ofChild: bool, lem: string, pos: string, deprel: string, minFreq: int)

  /** What the client receives. */
  datatype Response =
    | ErrorResponse(code: int, message: string)
      /** the URL-argument helper has already answered with its own error */
    | ArgumentError
      /** a panic inside the handler, answered by the server's recovery */
    | Panicked
    | Distrib(freqs: seq<FreqDistribItem>, corpusSize: int, examplesQueryTpl: string)

  /** The relation value of the hard-coded queries. */
  function Deprel(rel: Cql.Relation): string
  {
    match rel
    case NounsModifiedByRel => "nmod"
    case ModifiersOfRel => "nmod"
    case VerbsSubjectRel => "nsubj"
    case VerbsObjectRel => "obj|iobj"
  }

  /**
   * The frequency the handler asks for: the word as child with a fixed
   * parent PoS, or (`ModifiersOf`) the word as parent with a noun child.
   */
  function FreqQuery(rel: Cql.Relation, w: Word): (r: Call)
    ensures r.FreqCall? && r.deprel == Deprel(rel)
    ensures Cql.WordIsChild(rel) ==>
              r.lem == w.v && r.upos == w.pos && r.pLemma == ""
              && r.pUpos == (if rel.NounsModifiedByRel? then "NOUN" else "VERB")
    ensures !Cql.WordIsChild(rel) ==> r.pLemma == w.v && r.pUpos == w.pos && r.lem == "" && r.upos == "NOUN"
  {
    match rel
    case NounsModifiedByRel => FreqCall(w.v, w.pos, "", "NOUN", "nmod")
    case ModifiersOfRel => FreqCall("", "NOUN", w.v, w.pos, "nmod")
    case VerbsSubjectRel => FreqCall(w.v, w.pos, "", "VERB", "nsubj")
    case VerbsObjectRel => FreqCall(w.v, w.pos, "", "VERB", "obj|iobj")
  }

  /** The candidates the handler asks for, at the candidate frequency threshold. */
  function CandidatesQuery(rel: Cql.Relation, w: Word): (r: Call)
    ensures r.CandidatesCall? && r.ofChild == Cql.WordIsChild(rel)
    ensures r.lem == w.v && r.pos == w.pos && r.minFreq == CandidatesFreqLimit
    ensures r.deprel == FreqQuery(rel, w).deprel
  {
    CandidatesCall(!rel.ModifiersOfRel?, w.v, w.pos, Deprel(rel), CandidatesFreqLimit)
  }

  /** The item built for each candidate, in candidate order. */
  function Items(cands: seq<Candidate>, fx: int, weigh: (int, int, int) -> int): (items: seq<FreqDistribItem>)
    ensures |items| == |cands|
    ensures forall i :: 0 <= i < |cands| ==>
      items[i] == FreqDistribItem(cands[i].lem, cands[i].freqXY, weigh(cands[i].freqXY, fx, cands[i].freqY))
  {
    seq(|cands|, i requires 0 <= i < |cands| => FreqDistribItem(cands[i].lem, cands[i].freqXY, weigh(cands[i].freqXY, fx, cands[i].freqY)))
  }

  /** The loop that fills `result` index by index. */
  method BuildItems(cands: seq<Candidate>, fx: int, weigh: (int, int, int) -> int) returns (result: array<FreqDistribItem>)
    ensures fresh(result)
    ensures result[..] == Items(cands, fx, weigh)
  {
    result := new FreqDistribItem[|cands|](_ => FreqDistribItem("", 0, 0));
    for i := 0 to |cands|
      invariant forall k :: 0 <= k < i ==> result[k] == Items(cands, fx, weigh)[k]
    {
      var cand := cands[i];
      result[i] := FreqDistribItem(cand.lem, cand.freqXY, weigh(cand.freqXY, fx, cand.freqY));
    }
  }

  /** Non-increasing weights. */
  predicate SortedDesc(s: seq<FreqDistribItem>)
  {
    forall i, j :: 0 <= i < j < |s| ==> s[i].collWeight >= s[j].collWeight
  }

  /** `x` placed after every item of at least its weight: the step of a stable insertion. */
  function InsertDesc(sorted: seq<FreqDistribItem>, x: FreqDistribItem): (r: seq<FreqDistribItem>)
    ensures |r| == |sorted| + 1
  {
    if |sorted| == 0 then [x]
    else if sorted[|sorted| - 1].collWeight >= x.collWeight then sorted + [x]
    else InsertDesc(sorted[..|sorted| - 1], x) + [sorted[|sorted| - 1]]
  }

  /** The stable sort by descending weight (`sort.SliceStable` with `result[j].CollWeight < result[i].CollWeight`). */
  function SortDesc(s: seq<FreqDistribItem>): (r: seq<FreqDistribItem>)
    ensures |r| == |s|
  {
    if |s| == 0 then [] else InsertDesc(SortDesc(s[..|s| - 1]), s[|s| - 1])
  }

  /** The items of weight `k`, in order. */
  function OfWeight(s: seq<FreqDistribItem>, k: int): seq<FreqDistribItem>
  {
    if |s| == 0 then []
    else OfWeight(s[..|s| - 1], k) + (if s[|s| - 1].collWeight == k then [s[|s| - 1]] else [])
  }

  /** Inserting adds exactly `x`. */
  lemma {:induction false} InsertDescPermutation(sorted: seq<FreqDistribItem>, x: FreqDistribItem)
    ensures multiset(InsertDesc(sorted, x)) == multiset(sorted) + multiset{x}
    decreases |sorted|
  {
    if |sorted| > 0 && sorted[|sorted| - 1].collWeight < x.collWeight {
      InsertDescPermutation(sorted[..|sorted| - 1], x);
      assert sorted == sorted[..|sorted| - 1] + [sorted[|sorted| - 1]];
    }
  }

  /** Appending an item no heavier than any before it keeps the order. */
  lemma SortedSnoc(r: seq<FreqDistribItem>, last: FreqDistribItem)
    requires SortedDesc(r)
    requires forall y :: y in r ==> y.collWeight >= last.collWeight
    ensures SortedDesc(r + [last])
  {
    forall i, j | 0 <= i < j < |r| + 1
      ensures (r + [last])[i].collWeight >= (r + [last])[j].collWeight
    {
      if j == |r| {
        assert (r + [last])[i] == r[i];
      }
    }
  }

  /** Inserting into a sorted sequence keeps it sorted. */
  lemma {:induction false} InsertDescSorted(sorted: seq<FreqDistribItem>, x: FreqDistribItem)
    requires SortedDesc(sorted)
    ensures SortedDesc(InsertDesc(sorted, x))
    decreases |sorted|
  {
    if |sorted| == 0 {
    } else if sorted[|sorted| - 1].collWeight >= x.collWeight {
      SortedSnoc(sorted, x);
    } else {
      var init := sorted[..|sorted| - 1];
      var last := sorted[|sorted| - 1];
      assert SortedDesc(init);
      InsertDescSorted(init, x);
      InsertDescPermutation(init, x);
      var r := InsertDesc(init, x);
      forall y | y in r
        ensures y.collWeight >= last.collWeight
      {
        assert y in multiset(r);
        if y != x {
          assert y in multiset(init);
          var j :| 0 <= j < |init| && init[j] == y;
          assert sorted[j] == y;
        }
      }
      SortedSnoc(r, last);
    }
  }

  /** Inserting keeps the order among items of each weight and puts `x` last among its own. */
  lemma {:induction false} InsertDescStable(sorted: seq<FreqDistribItem>, x: FreqDistribItem, k: int)
    ensures OfWeight(InsertDesc(sorted, x), k) == OfWeight(sorted, k) + (if x.collWeight == k then [x] else [])
    decreases |sorted|
  {
    if |sorted| == 0 {
      assert [x][..0] == [];
    } else if sorted[|sorted| - 1].collWeight >= x.collWeight {
      assert (sorted + [x])[..|sorted|] == sorted;
    } else {
      var init := sorted[..|sorted| - 1];
      var last := sorted[|sorted| - 1];
      InsertDescStable(init, x, k);
      var r := InsertDesc(init, x);
      assert (r + [last])[..|r|] == r;
    }
  }

  /** The sort returns a permutation of its input, in non-increasing weight order. */
  lemma SortDescSortedPermutation(s: seq<FreqDistribItem>)
    ensures SortedDesc(SortDesc(s))
    ensures multiset(SortDesc(s)) == multiset(s)
  {
    SortDescSorted(s);
    SortDescPermutation(s);
  }

  lemma {:induction false} SortDescSorted(s: seq<FreqDistribItem>)
    ensures SortedDesc(SortDesc(s))
  {
    if |s| > 0 {
      SortDescSorted(s[..|s| - 1]);
      InsertDescSorted(SortDesc(s[..|s| - 1]), s[|s| - 1]);
    }
  }

  lemma {:induction false} SortDescPermutation(s: seq<FreqDistribItem>)
    ensures multiset(SortDesc(s)) == multiset(s)
  {
    if |s| > 0 {
      SortDescPermutation(s[..|s| - 1]);
      InsertDescPermutation(SortDesc(s[..|s| - 1]), s[|s| - 1]);
      MultisetInitLast(s);
    }
  }

  lemma MultisetInitLast(s: seq<FreqDistribItem>)
    requires |s| > 0
    ensures multiset(s) == multiset(s[..|s| - 1]) + multiset{s[|s| - 1]}
  {
    assert s == s[..|s| - 1] + [s[|s| - 1]];
  }

  /** Stability: the items of each weight keep their input order. */
  lemma {:induction false} SortDescStable(s: seq<FreqDistribItem>, k: int)
    ensures OfWeight(SortDesc(s), k) == OfWeight(s, k)
  {
    if |s| > 0 {
      SortDescStable(s[..|s| - 1], k);
      InsertDescStable(SortDesc(s[..|s| - 1]), s[|s| - 1], k);
    }
  }

  /**
   * The stable sort is the only order with these two properties: a sorted
   * sequence that keeps every weight's items in input order is `SortDesc`.
   */
  lemma {:induction false} SortDescUnique(s: seq<FreqDistribItem>, t: seq<FreqDistribItem>)
    requires SortedDesc(t)
    requires forall k :: OfWeight(t, k) == OfWeight(s, k)
    ensures t == SortDesc(s)
  {
    var u := SortDesc(s);
    SortDescSortedPermutation(s);
    forall k
      ensures OfWeight(t, k) == OfWeight(u, k)
    {
      SortDescStable(s, k);
    }
    SortedSameWeightsEqual(t, u);
  }

  /** Two sorted sequences with the same items of every weight, in the same order, are equal. */
  lemma {:induction false} SortedSameWeightsEqual(t: seq<FreqDistribItem>, u: seq<FreqDistribItem>)
    requires SortedDesc(t) && SortedDesc(u)
    requires forall k :: OfWeight(t, k) == OfWeight(u, k)
    ensures t == u
    decreases |t|
  {
    LastWeightsAgree(t, u);
    if |t| > 0 {
      var t', u' := t[..|t| - 1], u[..|u| - 1];
      DropLastSameWeights(t, u, t', u');
      assert SortedDesc(t') && SortedDesc(u');
      SortedSameWeightsEqual(t', u');
      assert t == t' + [t[|t| - 1]] && u == u' + [u[|u| - 1]];
    }
  }

  /** Sorted sequences with the same items of every weight end at the same weight. */
  lemma LastWeightsAgree(t: seq<FreqDistribItem>, u: seq<FreqDistribItem>)
    requires SortedDesc(t) && SortedDesc(u)
    requires forall k :: OfWeight(t, k) == OfWeight(u, k)
    ensures |t| == 0 <==> |u| == 0
    ensures |t| > 0 ==> t[|t| - 1].collWeight == u[|u| - 1].collWeight
  {
    if |t| > 0 {
      OfWeightLast(t, t[|t| - 1].collWeight);
      if |u| > 0 && u[|u| - 1].collWeight > t[|t| - 1].collWeight {
        OfWeightBelow(u, t[|t| - 1].collWeight);
      }
    }
    if |u| > 0 {
      OfWeightLast(u, u[|u| - 1].collWeight);
      if |t| > 0 && t[|t| - 1].collWeight > u[|u| - 1].collWeight {
        OfWeightBelow(t, u[|u| - 1].collWeight);
      }
    }
  }

  /** Equal last weights: the last items are equal, and so are the weights of what precedes them. */
  lemma DropLastSameWeights(t: seq<FreqDistribItem>, u: seq<FreqDistribItem>, t': seq<FreqDistribItem>, u': seq<FreqDistribItem>)
    requires |t| > 0 && |u| > 0 && t[|t| - 1].collWeight == u[|u| - 1].collWeight
    requires t' == t[..|t| - 1] && u' == u[..|u| - 1]
    requires forall k :: OfWeight(t, k) == OfWeight(u, k)
    ensures t[|t| - 1] == u[|u| - 1]
    ensures forall k :: OfWeight(t', k) == OfWeight(u', k)
  {
    var w := t[|t| - 1].collWeight;
    OfWeightLast(t, w);
    OfWeightLast(u, w);
    SnocInjective(OfWeight(t', w), t[|t| - 1], OfWeight(u', w), u[|u| - 1]);
    forall k | k != w
      ensures OfWeight(t', k) == OfWeight(u', k)
    {
      assert OfWeight(t, k) == OfWeight(t', k);
      assert OfWeight(u, k) == OfWeight(u', k);
    }
  }

  lemma SnocInjective<T>(p: seq<T>, x: T, q: seq<T>, y: T)
    requires p + [x] == q + [y]
    ensures p == q && x == y
  {
    assert p == (p + [x])[..|p|];
    assert x == (p + [x])[|p|];
  }

  /** The last item of a sequence is the last of its weight. */
  lemma OfWeightLast(s: seq<FreqDistribItem>, k: int)
    requires |s| > 0 && s[|s| - 1].collWeight == k
    ensures OfWeight(s, k) == OfWeight(s[..|s| - 1], k) + [s[|s| - 1]]
    ensures |OfWeight(s, k)| > 0 && OfWeight(s, k)[|OfWeight(s, k)| - 1] == s[|s| - 1]
  {
  }

  /** In a sorted sequence ending above `k`, no item has weight `k`. */
  lemma {:induction false} OfWeightBelow(s: seq<FreqDistribItem>, k: int)
    requires SortedDesc(s) && |s| > 0 && s[|s| - 1].collWeight > k
    ensures OfWeight(s, k) == []
  {
    if |s| > 1 {
      assert SortedDesc(s[..|s| - 1]);
      OfWeightBelow(s[..|s| - 1], k);
    }
  }

  lemma PrefixSorted(s: seq<FreqDistribItem>, n: nat)
    requires SortedDesc(s) && n <= |s|
    ensures SortedDesc(s[..n])
  {
  }

  lemma PrefixMultiset(s: seq<FreqDistribItem>, n: nat)
    requires n <= |s|
    ensures multiset(s[..n]) <= multiset(s)
    ensures n == |s| ==> multiset(s[..n]) == multiset(s)
  {
    assert s == s[..n] + s[n..];
  }

  /** `sort.SliceStable` on `result`, as an in-place insertion sort. */
  method SortStable(a: array<FreqDistribItem>)
    modifies a
    ensures a[..] == SortDesc(old(a[..]))
  {
    ghost var s := a[..];
    for i := 0 to a.Length
      invariant a[..i] == SortDesc(s[..i])
      invariant a[i..] == s[i..]
    {
      ghost var pre := a[..];
      assert pre[i] == s[i] && pre[i + 1..] == s[i + 1..] by {
        assert pre[i..][0] == s[i..][0] && pre[i..][1..] == s[i..][1..];
      }
      Insert(a, i);
      assert s[..i + 1][..i] == s[..i];
    }
    assert a[..] == a[..a.Length] && s == s[..a.Length];
  }

  /** Moves `a[i]` left past every lighter item before it. */
  method Insert(a: array<FreqDistribItem>, i: int)
    requires 0 <= i < a.Length
    modifies a
    ensures a[..i + 1] == InsertDesc(old(a[..i]), old(a[i]))
    ensures a[i + 1..] == old(a[i + 1..])
  {
    ghost var sorted := a[..i];
    var x := a[i];
    var j := i;
    while j > 0 && a[j - 1].collWeight < x.collWeight
      invariant 0 <= j <= i
      invariant a[j] == x
      invariant InsertDesc(sorted, x) == InsertDesc(a[..j], x) + a[j + 1..i + 1]
      invariant a[i + 1..] == old(a[i + 1..])
      decreases j
    {
      ghost var before := a[..j];
      ghost var after := a[j + 1..i + 1];
      assert before[..j - 1] == a[..j - 1];
      assert InsertDesc(before, x) == InsertDesc(before[..j - 1], x) + [before[j - 1]];
      a[j - 1], a[j] := a[j], a[j - 1];
      assert a[..j - 1] == before[..j - 1];
      assert a[j..i + 1] == [before[j - 1]] + after;
      j := j - 1;
    }
    assert a[..i + 1] == a[..j] + [x] + a[j + 1..i + 1];
  }

  /**
   * The handler: every early exit answers before any database access
   * except the ones that report a failed database call; a successful
   * answer holds the first `maxItems` items of the stably sorted list.
   */
  method Handle(rel: Cql.Relation, corpora: CorporaConf, corpusID: string, w: Word, maxItemsArg: MaxItemsArg,
                fx: Result<int, string>, candidates: Result<seq<Candidate>, string>, weigh: (int, int, int) -> int)
    returns (resp: Response, calls: seq<Call>)
    ensures !IsValid(w) ==> resp == ErrorResponse(422, "invalid word value") && calls == []
    ensures IsValid(w) && maxItemsArg.Malformed? ==> resp == ArgumentError && calls == []
    ensures IsValid(w) && !maxItemsArg.Malformed? && GetCorpusProps(corpora, corpusID).None? ==>
      resp == ErrorResponse(500, "corpus not found") && calls == []
    ensures IsValid(w) && !maxItemsArg.Malformed? && GetCorpusProps(corpora, corpusID).Some? ==>
      var corpus := GetCorpusProps(corpora, corpusID).value;
      if fx.Failure? then
        resp == ErrorResponse(500, fx.error) && calls == [FreqQuery(rel, w)]
      else if candidates.Failure? then
        resp == ErrorResponse(500, candidates.error) && calls == [FreqQuery(rel, w), CandidatesQuery(rel, w)]
      else
        var sorted := SortDesc(Items(candidates.value, fx.value, weigh));
        calls == [FreqQuery(rel, w), CandidatesQuery(rel, w)] &&
        match Cut(sorted, MaxItems(maxItemsArg))
        case None => resp == Panicked
        case Some(freqs) => resp == Distrib(freqs, corpus.size, Cql.Generate(rel, corpus.syntax, w, "%s"))
  {
    calls := [];
    if !IsValid(w) {
      return ErrorResponse(422, "invalid word value"), calls;
    }
    if maxItemsArg.Malformed? {
      return ArgumentError, calls;
    }
    var maxItems := MaxItems(maxItemsArg);
    var corpusConf := GetCorpusProps(corpora, corpusID);
    if corpusConf.None? {
      return ErrorResponse(500, "corpus not found"), calls;
    }
    calls := calls + [FreqQuery(rel, w)];
    if fx.Failure? {
      return ErrorResponse(500, fx.error), calls;
    }
    calls := calls + [CandidatesQuery(rel, w)];
    if candidates.Failure? {
      return ErrorResponse(500, candidates.error), calls;
    }
    var result := BuildItems(candidates.value, fx.value, weigh);
    SortStable(result);
    var cut := Cut(result[..], maxItems);
    if cut.None? {
      return Panicked, calls;
    }
    resp := Distrib(cut.value, corpusConf.value.size, Cql.Generate(rel, corpusConf.value.syntax, w, "%s"));
  }

  /**
   * What a successful answer holds: at most `maxItems` items, with
   * non-increasing weights, each built from a candidate, and, when the
   * list was not cut, exactly the built items rearranged.
   */
  lemma DistribShape(cands: seq<Candidate>, fx: int, weigh: (int, int, int) -> int, maxItems: int)
    requires maxItems >= 0
    ensures var items := Items(cands, fx, weigh);
      var freqs := Cut(SortDesc(items), maxItems).value;
      |freqs| == Min(|cands|, maxItems) &&
      SortedDesc(freqs) &&
      multiset(freqs) <= multiset(items) &&
      (|cands| <= maxItems ==> multiset(freqs) == multiset(items))
  {
    var items := Items(cands, fx, weigh);
    var sorted := SortDesc(items);
    SortDescSortedPermutation(items);
    var freqs := Cut(sorted, maxItems).value;
    PrefixSorted(sorted, |freqs|);
    PrefixMultiset(sorted, |freqs|);
  }
}
