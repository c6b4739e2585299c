/**
 * OpenSearchVectorDB.vectorize_and_store: one document per chunk, embedded in
 * parallel; the results arrive in any order and are sorted back by their
 * index, so the i-th stored pair holds the i-th chunk's text and embedding.
 */
module Vectorize {
  import opened Wrappers

  /** What json.loads made of the stored chunk file. */
  datatype ChunkData = Unparsable | Chunks(chunks: seq<map<string, string>>)

  const ErrorPrefix: string := "Error occurred during vectorization: "

  // ---------------------------------------------------------------------
  // Sorting the results by index (results.sort(key=lambda x: x[0])).
  // ---------------------------------------------------------------------

  predicate SortedByIndex<E>(rs: seq<(int, E)>)
  {
    forall i, j :: 0 <= i < j < |rs| ==> rs[i].0 <= rs[j].0
  }

  /** Inserts r before the first result with a larger index. */
  function Insert<E>(r: (int, E), rs: seq<(int, E)>): seq<(int, E)>
  {
    if rs == [] then [r]
    else if r.0 <= rs[0].0 then [r] + rs
    else [rs[0]] + Insert(r, rs[1..])
  }

  /** Insertion adds exactly r. */
  lemma {:induction false} InsertPermutes<E>(r: (int, E), rs: seq<(int, E)>)
    ensures multiset(Insert(r, rs)) == multiset(rs) + multiset{r}
    ensures |Insert(r, rs)| == |rs| + 1
    decreases |rs|
  {
    if rs != [] && r.0 > rs[0].0 {
      InsertPermutes(r, rs[1..]);
      assert rs == [rs[0]] + rs[1..];
    }
  }

  /** Inserting into a sorted list keeps it sorted. */
  lemma {:induction false} InsertSorted<E>(r: (int, E), rs: seq<(int, E)>)
    requires SortedByIndex(rs)
    ensures SortedByIndex(Insert(r, rs))
    decreases |rs|
  {
    if rs != [] && r.0 > rs[0].0 {
      var tail := Insert(r, rs[1..]);
      InsertSorted(r, rs[1..]);
      InsertPermutes(r, rs[1..]);
      forall k | 0 <= k < |tail| ensures rs[0].0 <= tail[k].0 {
        assert tail[k] in multiset(tail);
        if tail[k] != r {
          assert tail[k] in multiset(rs[1..]);
          var l :| 0 <= l < |rs[1..]| && rs[1..][l] == tail[k];
          assert rs[l + 1] == tail[k];
        }
      }
      var out := [rs[0]] + tail;
      forall i, j | 0 <= i < j < |out| ensures out[i].0 <= out[j].0 {
        if i > 0 {
          assert out[i] == tail[i - 1] && out[j] == tail[j - 1];
        } else {
          assert out[j] == tail[j - 1];
        }
      }
    }
  }

  /** A stable sort by index (an insertion sort). */
  function SortByIndex<E>(rs: seq<(int, E)>): seq<(int, E)>
  {
    if rs == [] then [] else Insert(rs[0], SortByIndex(rs[1..]))
  }

  /** The sort returns the results sorted by index and as a permutation of its input. */
  lemma {:induction false} SortFacts<E>(rs: seq<(int, E)>)
    ensures SortedByIndex(SortByIndex(rs)) && multiset(SortByIndex(rs)) == multiset(rs)
    ensures |SortByIndex(rs)| == |rs|
  {
    if rs != [] {
      SortFacts(rs[1..]);
      InsertPermutes(rs[0], SortByIndex(rs[1..]));
      InsertSorted(rs[0], SortByIndex(rs[1..]));
      assert rs == [rs[0]] + rs[1..];
    }
  }

  // ---------------------------------------------------------------------
  // Order restoration.
  // ---------------------------------------------------------------------

  /** The arrival order of the futures: every document index in 0..n-1 exactly once. */
  predicate Arrival(order: seq<int>, n: int)
  {
    |order| == n &&
    (forall j :: 0 <= j < |order| ==> 0 <= order[j] < n) &&
    (forall j, k :: 0 <= j < k < |order| ==> order[j] != order[k])
  }

  predicate Distinct<T(==)>(s: seq<T>)
  {
    forall i, j :: 0 <= i < j < |s| ==> s[i] != s[j]
  }

  /** The results as as_completed yields them: the j-th to finish is document order[j] with its embedding. */
  function Arrived<E>(texts: seq<string>, embed: string -> E, order: seq<int>): (rs: seq<(int, E)>)
    requires Arrival(order, |texts|)
    ensures |rs| == |order|
  {
    seq(|order|, j requires 0 <= j < |order| => (order[j], embed(texts[order[j]])))
  }

  lemma {:induction false} DistinctCount<T>(s: seq<T>, x: T)
    requires Distinct(s)
    ensures multiset(s)[x] <= 1
    decreases |s|
  {
    if s != [] {
      assert s == [s[0]] + s[1..];
      assert Distinct(s[1..]);
      DistinctCount(s[1..], x);
      if x == s[0] {
        assert x !in s[1..];
      }
    }
  }

  lemma RepeatCount<T>(s: seq<T>, i: int, j: int)
    requires 0 <= i < j < |s| && s[i] == s[j]
    ensures multiset(s)[s[i]] >= 2
  {
    assert s == s[..j] + [s[j]] + s[j + 1..];
    assert s[i] in s[..j];
  }

  /** A permutation of a sequence without repeats has no repeats. */
  lemma PermutationDistinct<T>(s: seq<T>, t: seq<T>)
    requires Distinct(s) && multiset(t) == multiset(s)
    ensures Distinct(t)
  {
    forall i, j | 0 <= i < j < |t| ensures t[i] != t[j] {
      if t[i] == t[j] {
        RepeatCount(t, i, j);
        DistinctCount(s, t[i]);
        assert false;
      }
    }
  }

  /** Strictly increasing indices drawn from 0..n-1, n of them, are exactly 0..n-1. */
  lemma {:induction false} IndicesExact<E>(rs: seq<(int, E)>, n: int)
    requires |rs| == n
    requires forall i :: 0 <= i < n ==> 0 <= rs[i].0 < n
    requires forall i, j :: 0 <= i < j < n ==> rs[i].0 < rs[j].0
    ensures forall i :: 0 <= i < n ==> rs[i].0 == i
  {
    forall i | 0 <= i < n ensures rs[i].0 == i {
      AtLeast(rs, n, i);
      AtMost(rs, n, i);
    }
  }

  lemma {:induction false} AtLeast<E>(rs: seq<(int, E)>, n: int, i: int)
    requires |rs| == n && 0 <= i < n
    requires forall k :: 0 <= k < n ==> 0 <= rs[k].0 < n
    requires forall k, l :: 0 <= k < l < n ==> rs[k].0 < rs[l].0
    ensures rs[i].0 >= i
    decreases i
  {
    if i > 0 {
      AtLeast(rs, n, i - 1);
    }
  }

  lemma {:induction false} AtMost<E>(rs: seq<(int, E)>, n: int, i: int)
    requires |rs| == n && 0 <= i < n
    requires forall k :: 0 <= k < n ==> 0 <= rs[k].0 < n
    requires forall k, l :: 0 <= k < l < n ==> rs[k].0 < rs[l].0
    ensures rs[i].0 <= i
    decreases n - i
  {
    if i < n - 1 {
      AtMost(rs, n, i + 1);
    }
  }

  /** Every arrived result is some document's index with the embedding of that document's text, and none repeats. */
  lemma ArrivedFacts<E>(texts: seq<string>, embed: string -> E, order: seq<int>)
    requires Arrival(order, |texts|)
    ensures Distinct(Arrived(texts, embed, order))
    ensures forall x :: x in Arrived(texts, embed, order) ==> 0 <= x.0 < |texts| && x.1 == embed(texts[x.0])
  {
    var rs := Arrived(texts, embed, order);
    forall i, j | 0 <= i < j < |rs| ensures rs[i] != rs[j] {
      assert rs[i].0 == order[i] && rs[j].0 == order[j];
    }
  }

  /**
   * Whatever order the embeddings arrive in, after sorting by index the i-th result is
   * document i with the embedding of its text.
   */
  lemma OrderRestored<E>(texts: seq<string>, embed: string -> E, order: seq<int>)
    requires Arrival(order, |texts|)
    ensures var sorted := SortByIndex(Arrived(texts, embed, order));
      |sorted| == |texts| && forall i :: 0 <= i < |texts| ==> sorted[i] == (i, embed(texts[i]))
  {
    var rs := Arrived(texts, embed, order);
    var sorted := SortByIndex(rs);
    var n := |texts|;
    SortFacts(rs);
    ArrivedFacts(texts, embed, order);
    PermutationDistinct(rs, sorted);
    forall i | 0 <= i < n
      ensures 0 <= sorted[i].0 < n && sorted[i].1 == embed(texts[sorted[i].0])
    {
      assert sorted[i] in multiset(sorted);
      assert sorted[i] in rs;
    }
    forall i, j | 0 <= i < j < n ensures sorted[i].0 < sorted[j].0 {
      assert sorted[i] != sorted[j];
    }
    IndicesExact(sorted, n);
  }

  // ---------------------------------------------------------------------
  // vectorize_and_store.
  // ---------------------------------------------------------------------

  /** Every chunk dictionary carries the "chunk" key the document is built from. */
  predicate AllHaveText(chunks: seq<map<string, string>>)
  {
    forall i :: 0 <= i < |chunks| ==> "chunk" in chunks[i]
  }

  /** The arrival order is a valid one whenever the data parses to a list of chunks. */
  predicate ArrivalFor(data: Option<ChunkData>, order: seq<int>)
  {
    data.Some? && data.value.Chunks? ==> Arrival(order, |data.value.chunks|)
  }

  /**
   * vectorize_and_store: returns the (text, vector) pairs handed to add_embeddings, in chunk
   * order.  No data leaves the chunk list unbound, and an unparsable file or a chunk without
   * "chunk" raises; every error is re-raised with the vectorization prefix.
   */
  method VectorizeAndStore<E(==)>(data: Option<ChunkData>, embed: string -> E, order: seq<int>) returns (r: Result<seq<(string, E)>, string>)
    requires ArrivalFor(data, order)
    ensures r.Err? <==> data.None? || data.value.Unparsable? || !AllHaveText(data.value.chunks)
    ensures r.Err? ==> |r.error| >= |ErrorPrefix| && r.error[..|ErrorPrefix|] == ErrorPrefix
    ensures r.Ok? ==> (|r.value| == |data.value.chunks| &&
      forall i :: 0 <= i < |r.value| ==> r.value[i] == (data.value.chunks[i]["chunk"], embed(data.value.chunks[i]["chunk"])))
  {
    if data.None? {
      return Err(ErrorPrefix + "cannot access local variable 'chunks' where it is not associated with a value");
    }
    if data.value.Unparsable? {
      return Err(ErrorPrefix + "invalid JSON");
    }
    var chunks := data.value.chunks;
    // one document per chunk, holding the chunk's "chunk" text
    var docs: seq<string> := [];
    for i := 0 to |chunks|
      invariant |docs| == i && forall k :: 0 <= k < i ==> "chunk" in chunks[k] && docs[k] == chunks[k]["chunk"]
    {
      if "chunk" !in chunks[i] {
        return Err(ErrorPrefix + "'chunk'");
      }
      docs := docs + [chunks[i]["chunk"]];
    }
    var results := Arrived(docs, embed, order);
    results := SortByIndex(results);
    OrderRestored(docs, embed, order);
    var vectors := seq(|results|, i requires 0 <= i < |results| => results[i].1);
    var pairs: seq<(string, E)> := [];
    for i := 0 to |docs|
      invariant |pairs| == i && forall k :: 0 <= k < i ==> pairs[k] == (docs[k], embed(docs[k]))
    {
      pairs := pairs + [(docs[i], vectors[i])];
    }
    r := Ok(pairs);
  }
}
