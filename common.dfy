/**
 * Shared query-side values (engine/common.go): the query word, the result
 * item, the result truncation and the candidate frequency threshold.
 */
module Common {
  import opened Wrappers

  /** Minimal joint frequency asked of candidate rows. */
  const CandidatesFreqLimit: int := 1

  /** A query word and its optional part of speech ("" when absent). */
  datatype Word = Word(v: string, pos: string)

  /** `Word.IsValid`: the word itself must be non-empty; the part of speech does not matter. */
  predicate IsValid(w: Word)
  {
    w.v != ""
  }

  /**
   * A result item. The per-million frequency and the association weight are
   * floating point in the source; the weight is an abstract ordered key
   * here and the per-million figure is not modelled.
   */
  datatype FreqDistribItem = FreqDistribItem(word: string, freq: int, collWeight: int)

  function Min(a: int, b: int): int
  {
    if a < b then a else b
  }

  /**
   * `FreqDistribItemList.Cut`: the first `maxItems` items when the list is
   * longer, else the list itself. A negative `maxItems` makes the Go slice
   * expression `flist[:maxItems]` panic, because every length exceeds it;
   * that panic is None here.
   */
  function Cut<T>(flist: seq<T>, maxItems: int): (r: Option<seq<T>>)
    ensures r.None? <==> maxItems < 0
    ensures r.Some? ==> |r.value| == Min(|flist|, maxItems)
    ensures r.Some? ==> r.value == flist[..|r.value|]
  {
    if |flist| > maxItems then
      if maxItems < 0 then None else Some(flist[..maxItems])
    else Some(flist)
  }

  /** Cutting again at the same limit changes nothing. */
  lemma CutIdempotent<T>(flist: seq<T>, maxItems: int)
    requires maxItems >= 0
    ensures Cut(flist, maxItems).Some?
    ensures Cut(Cut(flist, maxItems).value, maxItems) == Cut(flist, maxItems)
  {
  }
}
