/**
 * Python dictionaries keyed by strings, as the processor uses them: an
 * association list in insertion order. Assigning to a key that is already
 * present replaces its value in place; a new key goes to the end.
 */
module OrderedDict {
  import opened Wrappers

  datatype Entry<V> = Entry(key: string, value: V)

  type Dict<V> = seq<Entry<V>>

  function Keys<V>(d: Dict<V>): (ks: seq<string>)
    ensures |ks| == |d|
    ensures forall i :: 0 <= i < |d| ==> ks[i] == d[i].key
  {
    if |d| == 0 then [] else [d[0].key] + Keys(d[1..])
  }

  predicate Distinct(ks: seq<string>) {
    forall i, j :: 0 <= i < j < |ks| ==> ks[i] != ks[j]
  }

  /** The value stored under key `k`, if any. */
  function Get<V>(d: Dict<V>, k: string): Option<V>
  {
    if |d| == 0 then None
    else if d[0].key == k then Some(d[0].value)
    else Get(d[1..], k)
  }

  /** The value stored under key `k`, or `default` when there is none. */
  function GetOr<V>(d: Dict<V>, k: string, default: V): V
  {
    match Get(d, k)
    case Some(v) => v
    case None => default
  }

  /** Assignment to key `k`: replaces its value in place, or appends a new entry. */
  function Put<V>(d: Dict<V>, k: string, v: V): Dict<V>
  {
    if |d| == 0 then [Entry(k, v)]
    else if d[0].key == k then [Entry(k, v)] + d[1..]
    else [d[0]] + Put(d[1..], k, v)
  }

  lemma {:induction false} PutKeys<V>(d: Dict<V>, k: string, v: V)
    ensures Keys(Put(d, k, v)) == if k in Keys(d) then Keys(d) else Keys(d) + [k]
  {
    if |d| > 0 && d[0].key != k {
      var rest := d[1..];
      PutKeys(rest, k, v);
      assert k in Keys(d) <==> k in Keys(rest);
      assert [d[0].key] + (Keys(rest) + [k]) == Keys(d) + [k];
    }
  }

  lemma {:induction false} PutGet<V>(d: Dict<V>, k: string, v: V, k': string)
    ensures Get(Put(d, k, v), k') == if k' == k then Some(v) else Get(d, k')
  {
    if |d| > 0 && d[0].key != k {
      PutGet(d[1..], k, v, k');
    }
  }

  /** A key not yet present is appended. */
  lemma {:induction false} PutFresh<V>(d: Dict<V>, k: string, v: V)
    requires k !in Keys(d)
    ensures Put(d, k, v) == d + [Entry(k, v)]
  {
    if |d| > 0 {
      PutFresh(d[1..], k, v);
      assert d == [d[0]] + d[1..];
    }
  }

  /** Keys in the order of their first occurrence in `ks`. */
  function Dedup(ks: seq<string>): seq<string>
  {
    if |ks| == 0 then []
    else
      var d := Dedup(ks[..|ks| - 1]);
      if ks[|ks| - 1] in d then d else d + [ks[|ks| - 1]]
  }

  lemma {:induction false} DedupProperties(ks: seq<string>)
    ensures forall k :: k in Dedup(ks) <==> k in ks
    ensures Distinct(Dedup(ks))
    ensures Distinct(ks) ==> Dedup(ks) == ks
  {
    if |ks| > 0 {
      var init := ks[..|ks| - 1];
      DedupProperties(init);
      assert ks == init + [ks[|ks| - 1]];
      if Distinct(ks) {
        assert Distinct(init);
        assert ks[|ks| - 1] !in init;
      }
    }
  }

  /**
   * The dictionary built by assigning each `vs[i]` to key `ks[i]`, in order, starting from
   * an empty one.
   */
  function Assemble<V>(ks: seq<string>, vs: seq<V>): Dict<V>
    requires |ks| == |vs|
  {
    if |ks| == 0 then []
    else Put(Assemble(ks[..|ks| - 1], vs[..|vs| - 1]), ks[|ks| - 1], vs[|vs| - 1])
  }

  /** Every key appears once, in the order of its first assignment. */
  lemma {:induction false} AssembleKeys<V>(ks: seq<string>, vs: seq<V>)
    requires |ks| == |vs|
    ensures Keys(Assemble(ks, vs)) == Dedup(ks)
  {
    if |ks| > 0 {
      AssembleKeys(ks[..|ks| - 1], vs[..|vs| - 1]);
      PutKeys(Assemble(ks[..|ks| - 1], vs[..|vs| - 1]), ks[|ks| - 1], vs[|vs| - 1]);
    }
  }

  /** The value under a key is the one of its last assignment. */
  lemma {:induction false} AssembleGet<V>(ks: seq<string>, vs: seq<V>, j: nat)
    requires |ks| == |vs| && j < |ks|
    requires ks[j] !in ks[j + 1..]
    ensures Get(Assemble(ks, vs), ks[j]) == Some(vs[j])
  {
    var n := |ks| - 1;
    var init := Assemble(ks[..n], vs[..n]);
    PutGet(init, ks[n], vs[n], ks[j]);
    if j < n {
      assert ks[n] in ks[j + 1..];
      assert ks[..n][j + 1..] == ks[j + 1..n];
      AssembleGet(ks[..n], vs[..n], j);
    }
  }

  /** A key never assigned is absent. */
  lemma {:induction false} AssembleAbsent<V>(ks: seq<string>, vs: seq<V>, k: string)
    requires |ks| == |vs| && k !in ks
    ensures Get(Assemble(ks, vs), k) == None
  {
    if |ks| > 0 {
      var n := |ks| - 1;
      assert k !in ks[..n];
      PutGet(Assemble(ks[..n], vs[..n]), ks[n], vs[n], k);
      AssembleAbsent(ks[..n], vs[..n], k);
    }
  }

  lemma DistinctInit(ks: seq<string>)
    requires |ks| > 0 && Distinct(ks)
    ensures Distinct(ks[..|ks| - 1]) && ks[|ks| - 1] !in ks[..|ks| - 1]
  {
    var pre := ks[..|ks| - 1];
    forall i, j | 0 <= i < j < |pre| ensures pre[i] != pre[j] {
      assert pre[i] == ks[i] && pre[j] == ks[j];
    }
    forall i | 0 <= i < |pre| ensures pre[i] != ks[|ks| - 1] {
      assert pre[i] == ks[i];
    }
  }

  /** The entries `(ks[i], vs[i])`, in order. */
  function Pairs<V>(ks: seq<string>, vs: seq<V>): (d: Dict<V>)
    requires |ks| == |vs|
    ensures |d| == |ks|
    ensures forall i :: 0 <= i < |ks| ==> d[i] == Entry(ks[i], vs[i])
  {
    seq(|ks|, i requires 0 <= i < |ks| => Entry(ks[i], vs[i]))
  }

  lemma PairsKeys<V>(ks: seq<string>, vs: seq<V>)
    requires |ks| == |vs|
    ensures Keys(Pairs(ks, vs)) == ks
  {
  }

  lemma PairsSnoc<V>(ks: seq<string>, vs: seq<V>)
    requires |ks| == |vs| && |ks| > 0
    ensures Pairs(ks, vs) == Pairs(ks[..|ks| - 1], vs[..|vs| - 1]) + [Entry(ks[|ks| - 1], vs[|vs| - 1])]
  {
  }

  /** With distinct keys the dictionary is the pairs themselves, in order. */
  lemma {:induction false} AssembleDistinct<V>(ks: seq<string>, vs: seq<V>)
    requires |ks| == |vs| && Distinct(ks)
    ensures Assemble(ks, vs) == Pairs(ks, vs)
  {
    if |ks| > 0 {
      var n := |ks| - 1;
      var pre, vpre := ks[..n], vs[..n];
      DistinctInit(ks);
      AssembleDistinct(pre, vpre);
      PairsKeys(pre, vpre);
      PutFresh(Pairs(pre, vpre), ks[n], vs[n]);
      PairsSnoc(ks, vs);
    }
  }
}
