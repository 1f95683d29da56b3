/**
 * The accumulating frequency tables of the aggregation pass
 * (engine/precalc.go): `FyTable` (marginal sums and token counts),
 * `CounterTable` (dependency edges) and `CoOccTable` (window
 * co-occurrences). A Go map is a reference that `Add` updates in place, so
 * each table is an object whose `items` map is reassigned by `Add`.
 *
 * The source keys its maps by the `:`-joined fields; here the key is the
 * tuple of fields. The two agree exactly when the fields other than the
 * last contain no `:` (the injectivity lemmas below); the collision lemma
 * shows what happens otherwise.
 */
module Tables {
  import Strings

  /** Key of `FyTable`: `lemma:upos:deprel`. (`lem` stands for the Go field `Lemma`.) */
  datatype FyKey = FyKey(lem: string, upos: string, deprel: string)

  /** Key of `CounterTable`: `lemma:upos:deprel:pLemma:pUpos`. */
  datatype CtKey = CtKey(lem: string, upos: string, pLemma: string, pUpos: string, deprel: string)

  /** Key of `CoOccTable`: `lemma:upos::coLemma:coUpos`. */
  datatype CoKey = CoKey(lem: string, upos: string, coLemma: string, coUpos: string)

  /**
   * `FyTable.mkKey`'s `%s:%s:%s`. Splitting it at `:` gives back the
   * fields, the last one in its own pieces, when lemma and PoS hold no `:`.
   */
  function FyKeyString(k: FyKey): (r: string)
    ensures NoColon(k.lem) && NoColon(k.upos) ==>
              Strings.Split(r, ':') == [k.lem, k.upos] + Strings.Split(k.deprel, ':')
  {
    SplitAfterField(k.upos, k.deprel);
    SplitAfterField(k.lem, k.upos + ":" + k.deprel);
    k.lem + ":" + (k.upos + ":" + k.deprel)
  }

  /** `CounterTable.mkKey`'s `%s:%s:%s:%s:%s`, which splits back into its fields likewise. */
  function CtKeyString(k: CtKey): (r: string)
    ensures NoColon(k.lem) && NoColon(k.upos) && NoColon(k.deprel) && NoColon(k.pLemma) ==>
              Strings.Split(r, ':') == [k.lem, k.upos, k.deprel, k.pLemma] + Strings.Split(k.pUpos, ':')
  {
    SplitAfterField(k.pLemma, k.pUpos);
    SplitAfterField(k.deprel, k.pLemma + ":" + k.pUpos);
    SplitAfterField(k.upos, k.deprel + ":" + (k.pLemma + ":" + k.pUpos));
    SplitAfterField(k.lem, k.upos + ":" + (k.deprel + ":" + (k.pLemma + ":" + k.pUpos)));
    k.lem + ":" + (k.upos + ":" + (k.deprel + ":" + (k.pLemma + ":" + k.pUpos)))
  }

  /**
   * `CoOccTable.mkKey`'s `%s:%s::%s:%s`: with an empty field between the
   * two tokens, which splits back likewise.
   */
  function CoKeyString(k: CoKey): (r: string)
    ensures NoColon(k.lem) && NoColon(k.upos) && NoColon(k.coLemma) ==>
              Strings.Split(r, ':') == [k.lem, k.upos, "", k.coLemma] + Strings.Split(k.coUpos, ':')
  {
    var tail := k.coLemma + ":" + k.coUpos;
    SplitAfterField(k.coLemma, k.coUpos);
    SplitAfterField("", tail);
    SplitAfterField(k.upos, "" + ":" + tail);
    SplitAfterField(k.lem, k.upos + ":" + ("" + ":" + tail));
    k.lem + ":" + (k.upos + ":" + ("" + ":" + tail))
  }

  /** A colon-free field before a `:` is the first piece of the split. */
  lemma SplitAfterField(a: string, t: string)
    ensures NoColon(a) ==> Strings.Split(a + ":" + t, ':') == [a] + Strings.Split(t, ':')
  {
    if NoColon(a) {
      Strings.SplitAfterPiece(a, t, ':');
    }
  }

  predicate NoColon(s: string)
  {
    ':' !in s
  }

  /** A colon-free head before a `:` is determined by the joined string. */
  lemma ColonSplit(a: string, x: string, b: string, y: string)
    requires NoColon(a) && NoColon(b)
    requires a + ":" + x == b + ":" + y
    ensures a == b && x == y
  {
    var s := a + ":" + x;
    FirstColon(a, x);
    FirstColon(b, y);
    assert |a| == |b|;
    assert a == s[..|a|];
    assert b == (b + ":" + y)[..|b|];
    assert x == s[|a| + 1..];
    assert y == (b + ":" + y)[|b| + 1..];
  }

  /** In `a + ":" + x` with colon-free `a`, the first `:` is at index `|a|`. */
  lemma FirstColon(a: string, x: string)
    requires NoColon(a)
    ensures (a + ":" + x)[|a|] == ':'
    ensures forall i :: 0 <= i < |a| ==> (a + ":" + x)[i] != ':'
  {
    forall i | 0 <= i < |a|
      ensures (a + ":" + x)[i] != ':'
    {
      assert (a + ":" + x)[i] == a[i];
    }
  }

  lemma FyKeyStringInjective(a: FyKey, b: FyKey)
    requires NoColon(a.lem) && NoColon(a.upos) && NoColon(b.lem) && NoColon(b.upos)
    requires FyKeyString(a) == FyKeyString(b)
    ensures a == b
  {
    assert FyKeyString(a) == a.lem + ":" + (a.upos + ":" + a.deprel);
    assert FyKeyString(b) == b.lem + ":" + (b.upos + ":" + b.deprel);
    ColonSplit(a.lem, a.upos + ":" + a.deprel, b.lem, b.upos + ":" + b.deprel);
    ColonSplit(a.upos, a.deprel, b.upos, b.deprel);
  }

  lemma CtKeyStringInjective(a: CtKey, b: CtKey)
    requires NoColon(a.lem) && NoColon(a.upos) && NoColon(a.deprel) && NoColon(a.pLemma)
    requires NoColon(b.lem) && NoColon(b.upos) && NoColon(b.deprel) && NoColon(b.pLemma)
    requires CtKeyString(a) == CtKeyString(b)
    ensures a == b
  {
    var ta := a.pLemma + ":" + a.pUpos;
    var tb := b.pLemma + ":" + b.pUpos;
    assert CtKeyString(a) == a.lem + ":" + (a.upos + ":" + (a.deprel + ":" + ta));
    assert CtKeyString(b) == b.lem + ":" + (b.upos + ":" + (b.deprel + ":" + tb));
    ColonSplit(a.lem, a.upos + ":" + (a.deprel + ":" + ta), b.lem, b.upos + ":" + (b.deprel + ":" + tb));
    ColonSplit(a.upos, a.deprel + ":" + ta, b.upos, b.deprel + ":" + tb);
    ColonSplit(a.deprel, ta, b.deprel, tb);
    ColonSplit(a.pLemma, a.pUpos, b.pLemma, b.pUpos);
  }

  lemma CoKeyStringInjective(a: CoKey, b: CoKey)
    requires NoColon(a.lem) && NoColon(a.upos) && NoColon(a.coLemma)
    requires NoColon(b.lem) && NoColon(b.upos) && NoColon(b.coLemma)
    requires CoKeyString(a) == CoKeyString(b)
    ensures a == b
  {
    var ta := a.coLemma + ":" + a.coUpos;
    var tb := b.coLemma + ":" + b.coUpos;
    assert CoKeyString(a) == a.lem + ":" + (a.upos + ":" + ("" + ":" + ta));
    assert CoKeyString(b) == b.lem + ":" + (b.upos + ":" + ("" + ":" + tb));
    ColonSplit(a.lem, a.upos + ":" + ("" + ":" + ta), b.lem, b.upos + ":" + ("" + ":" + tb));
    ColonSplit(a.upos, "" + ":" + ta, b.upos, "" + ":" + tb);
    ColonSplit("", ta, "", tb);
    ColonSplit(a.coLemma, a.coUpos, b.coLemma, b.coUpos);
  }

  /**
   * Without the assumption the string keys collide: a relation subtype
   * such as `a:b` and a parent lemma holding `:` give two different edges
   * the same Go key.
   */
  lemma CtKeyStringCollision()
    ensures CtKey("l", "u", "c", "d", "a:b") != CtKey("l", "u", "b:c", "d", "a")
    ensures CtKeyString(CtKey("l", "u", "c", "d", "a:b")) == CtKeyString(CtKey("l", "u", "b:c", "d", "a"))
  {
  }

  /** The frequency stored under `k`, 0 when absent (the zero value of a missing item). */
  function Freq<K>(m: map<K, int>, k: K): int
  {
    if k in m then m[k] else 0
  }

  /**
   * `Add(k, val)` on the map of a table: `k` is present afterwards with its
   * old frequency (0 if it was absent) plus `val`, and every other entry is
   * as it was. The key is present even when `val` is 0.
   */
  function AddFreq<K>(m: map<K, int>, k: K, val: int): (r: map<K, int>)
    ensures r.Keys == m.Keys + {k}
    ensures r[k] == Freq(m, k) + val
    ensures forall j :: j in m && j != k ==> r[j] == m[j]
  {
    m[k := Freq(m, k) + val]
  }

  /** The sum of all frequencies in a table. */
  ghost function Total<K>(m: map<K, int>): int
    decreases |m|
  {
    if |m| == 0 then 0
    else
      var k :| k in m;
      RemoveCard(m, k);
      m[k] + Total(m - {k})
  }

  lemma RemoveCard<K>(m: map<K, int>, k: K)
    requires k in m
    ensures |m - {k}| == |m| - 1
  {
    assert (m - {k}).Keys == m.Keys - {k};
  }

  /** The total is the frequency of any one key plus the total of the rest. */
  lemma {:induction false} TotalRemove<K>(m: map<K, int>, k: K)
    requires k in m
    ensures Total(m) == m[k] + Total(m - {k})
    decreases |m|, 1
  {
    var j :| j in m && Total(m) == m[j] + Total(m - {j});
    if j != k {
      TotalSwap(m, j, k);
    }
  }

  /** Taking out either of two keys first leaves the same total. */
  lemma {:induction false} TotalSwap<K>(m: map<K, int>, j: K, k: K)
    requires j in m && k in m && j != k
    ensures m[j] + Total(m - {j}) == m[k] + Total(m - {k})
    decreases |m|, 0
  {
    RemoveCard(m, j);
    RemoveCard(m, k);
    TotalRemove(m - {j}, k);
    TotalRemove(m - {k}, j);
    assert (m - {j}) - {k} == (m - {k}) - {j};
  }

  /** Adding `val` under any key raises the total by `val`. */
  lemma TotalAddFreq<K>(m: map<K, int>, k: K, val: int)
    ensures Total(AddFreq(m, k, val)) == Total(m) + val
  {
    var r := AddFreq(m, k, val);
    TotalRemove(r, k);
    if k in m {
      TotalRemove(m, k);
      assert r - {k} == m - {k};
    } else {
      assert r - {k} == m;
    }
  }

  /** One `Add(k, 1)` per key of `ks`, in order. */
  function AddEach<K>(m: map<K, int>, ks: seq<K>): map<K, int>
  {
    if |ks| == 0 then m else AddFreq(AddEach(m, ks[..|ks| - 1]), ks[|ks| - 1], 1)
  }

  /** Each `Add(k, 1)` raises the total by one. */
  lemma {:induction false} TotalAddEach<K>(m: map<K, int>, ks: seq<K>)
    ensures Total(AddEach(m, ks)) == Total(m) + |ks|
  {
    if |ks| > 0 {
      TotalAddEach(m, ks[..|ks| - 1]);
      TotalAddFreq(AddEach(m, ks[..|ks| - 1]), ks[|ks| - 1], 1);
    }
  }

  /** All stored frequencies are positive. */
  ghost predicate AllPositive<K>(m: map<K, int>)
  {
    forall k :: k in m ==> m[k] > 0
  }

  /** Counting keys one by one adds exactly those keys. */
  lemma {:induction false} AddEachKeys<K>(m: map<K, int>, ks: seq<K>)
    ensures AddEach(m, ks).Keys == m.Keys + set k | k in ks
  {
    if |ks| > 0 {
      var init := ks[..|ks| - 1];
      AddEachKeys(m, init);
      assert (set k | k in ks) == (set k | k in init) + {ks[|ks| - 1]} by {
        assert ks == init + [ks[|ks| - 1]];
      }
    }
  }

  /** Counting keys keeps every frequency positive. */
  lemma {:induction false} AddEachPositive<K>(m: map<K, int>, ks: seq<K>)
    requires AllPositive(m)
    ensures AllPositive(AddEach(m, ks))
  {
    if |ks| > 0 {
      AddEachPositive(m, ks[..|ks| - 1]);
    }
  }

  /** `if Has(k) { Add(k, 1) }`: count a key only when it was seeded. */
  function CountIfSeeded<K>(m: map<K, int>, k: K): (r: map<K, int>)
    ensures r.Keys == m.Keys
    ensures k in m ==> r[k] == m[k] + 1
    ensures forall j :: j in m && j != k ==> r[j] == m[j]
  {
    if k in m then AddFreq(m, k, 1) else m
  }

  /** `FyTable`: marginal sums (parent or child side) and token counts. */
  class FyTable {
    var items: map<FyKey, int>

    constructor ()
      ensures items == map[]
    {
      items := map[];
    }

    method Add(lem: string, upos: string, deprel: string, val: int)
      modifies this
      ensures items == AddFreq(old(items), FyKey(lem, upos, deprel), val)
    {
      var key := FyKey(lem, upos, deprel);
      items := items[key := Freq(items, key) + val];
    }

    function Has(lem: string, upos: string, deprel: string): (b: bool)
      reads this
      ensures b <==> FyKey(lem, upos, deprel) in items
    {
      FyKey(lem, upos, deprel) in items
    }
  }

  /** `CounterTable`: the dependency-edge frequencies. */
  class CounterTable {
    var items: map<CtKey, int>

    constructor ()
      ensures items == map[]
    {
      items := map[];
    }

    method Add(lem: string, upos: string, pLemma: string, pUpos: string, deprel: string, val: int)
      modifies this
      ensures items == AddFreq(old(items), CtKey(lem, upos, pLemma, pUpos, deprel), val)
    {
      var key := CtKey(lem, upos, pLemma, pUpos, deprel);
      items := items[key := Freq(items, key) + val];
    }
  }

  /** `CoOccTable`: window co-occurrence counts of seeded pairs. */
  class CoOccTable {
    var items: map<CoKey, int>

    constructor ()
      ensures items == map[]
    {
      items := map[];
    }

    method Add(lem: string, upos: string, coLemma: string, coUpos: string, val: int)
      modifies this
      ensures items == AddFreq(old(items), CoKey(lem, upos, coLemma, coUpos), val)
    {
      var key := CoKey(lem, upos, coLemma, coUpos);
      items := items[key := Freq(items, key) + val];
    }

    function Has(lem: string, upos: string, coLemma: string, coUpos: string): (b: bool)
      reads this
      ensures b <==> CoKey(lem, upos, coLemma, coUpos) in items
    {
      CoKey(lem, upos, coLemma, coUpos) in items
    }
  }
}
