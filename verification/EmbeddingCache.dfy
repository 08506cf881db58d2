/** The cached path of embed_texts_async in incidentops/retrieval/embeddings.py with the embedding
    part of incidentops/retrieval/cache.py. Every cache call may fail. */
module EmbeddingCache {
  import opened Prelude

  type Vector = seq<real>

  // The uncached computation.
  function Direct(embed: string -> Vector, texts: seq<string>): seq<Vector> {
    seq(|texts|, i requires 0 <= i < |texts| => embed(texts[i]))
  }

  // remote_embed raises on a wrong number of vectors; otherwise it answers what it is asked.
  ghost predicate Answers(remote: seq<string> -> Option<seq<Vector>>, embed: string -> Vector) {
    forall texts: seq<string> :: remote(texts).Some? ==> remote(texts).value == Direct(embed, texts)
  }

  predicate ValidEntries(entries: map<string, Vector>, embed: string -> Vector) {
    forall t | t in entries :: entries[t] == embed(t)
  }

  // The texts at the given indices.
  function Picked(texts: seq<string>, indices: seq<nat>): seq<string>
    requires forall j | 0 <= j < |indices| :: indices[j] < |texts|
  {
    seq(|indices|, j requires 0 <= j < |indices| => texts[indices[j]])
  }

  // The cached vectors of all texts, where there is one.
  function Known(cached: seq<Option<Vector>>): seq<Vector> {
    if cached == [] then []
    else if cached[0].Some? then [cached[0].value] + Known(cached[1..])
    else Known(cached[1..])
  }

  lemma {:induction false} KnownOfFull(cached: seq<Option<Vector>>, vectors: seq<Vector>)
    requires |cached| == |vectors| && forall i | 0 <= i < |cached| :: cached[i] == Some(vectors[i])
    ensures Known(cached) == vectors
  {
    if cached != [] {
      KnownOfFull(cached[1..], vectors[1..]);
    }
  }

  class EmbeddingCache {
    var entries: map<string, Vector>

    constructor ()
      ensures entries == map[]
    {
      entries := map[];
    }

    // get_embedding: a failure reads as a miss.
    method GetEmbedding(text: string, available: bool) returns (r: Option<Vector>)
      ensures r == if available && text in entries then Some(entries[text]) else None
    {
      if !available || text !in entries {
        return None;
      }
      r := Some(entries[text]);
    }

    method SetEmbedding(text: string, vector: Vector, available: bool)
      modifies this
      ensures entries == if available then old(entries)[text := vector] else old(entries)
    {
      if available {
        entries := entries[text := vector];
      }
    }

    /** For any valid cache contents and any pattern of failing cache calls, the texts are embedded
        as without a cache, or the backend's failure is reported; it is asked only for texts the
        cache did not answer, and the cache stays valid. */
    method EmbedTexts(texts: seq<string>, ghost embed: string -> Vector, remote: seq<string> -> Option<seq<Vector>>,
                      getOk: seq<bool>, setOk: seq<bool>)
      returns (r: Option<seq<Vector>>, asked: seq<string>)
      requires Answers(remote, embed) && ValidEntries(entries, embed) && |getOk| == |texts| == |setOk|
      modifies this
      ensures r.Some? ==> r.value == Direct(embed, texts)
      ensures r.None? <==> asked != [] && remote(asked).None?
      ensures forall t :: t in asked <==> exists i | 0 <= i < |texts| ::
          texts[i] == t && !(getOk[i] && t in old(entries))
      ensures ValidEntries(entries, embed)
      // a generated vector is stored exactly if its cache call succeeds
      ensures |asked| <= |texts|
      ensures entries.Keys
              == old(entries).Keys + if r.Some? then set j | 0 <= j < |asked| && setOk[j] :: asked[j] else {}
    {
      var cached: seq<Option<Vector>>, missing: seq<nat> := [], [];
      var i := 0;
      while i < |texts|
        invariant 0 <= i <= |texts| && |cached| == i && |missing| <= i
        invariant forall k | 0 <= k < i ::
                    cached[k] == if getOk[k] && texts[k] in entries then Some(entries[texts[k]]) else None
        invariant forall k: nat :: k in missing <==> k < i && cached[k].None?
        invariant forall j | 0 <= j < |missing| :: missing[j] < i
        invariant entries == old(entries)
      {
        var v := GetEmbedding(texts[i], getOk[i]);
        cached := cached + [v];
        if v.None? {
          missing := missing + [i];
        }
        i := i + 1;
      }
      asked := Picked(texts, missing);
      AskedAreMissing(texts, missing, cached, getOk, entries);
      if missing != [] {
        var generated := remote(asked);
        if generated.None? {
          return None, asked;
        }
        StoreGenerated(asked, generated.value, embed, setOk);
        cached := Fill(cached, texts, missing, generated.value, embed);
      }
      KnownOfFull(cached, Direct(embed, texts));
      r := Some(Known(cached));
    }

    method StoreGenerated(asked: seq<string>, generated: seq<Vector>, ghost embed: string -> Vector, setOk: seq<bool>)
      requires generated == Direct(embed, asked) && ValidEntries(entries, embed) && |setOk| >= |asked|
      modifies this
      ensures ValidEntries(entries, embed)
      ensures entries.Keys == old(entries).Keys + set j | 0 <= j < |asked| && setOk[j] :: asked[j]
    {
      var j := 0;
      while j < |asked|
        invariant 0 <= j <= |asked| && ValidEntries(entries, embed)
        invariant entries.Keys == old(entries).Keys + set i | 0 <= i < j && setOk[i] :: asked[i]
      {
        SetEmbedding(asked[j], generated[j], setOk[j]);
        j := j + 1;
      }
    }
  }

  lemma AskedAreMissing(texts: seq<string>, missing: seq<nat>, cached: seq<Option<Vector>>, getOk: seq<bool>,
          entries: map<string, Vector>)
    requires |cached| == |texts| == |getOk|
    requires forall k | 0 <= k < |texts| :: cached[k].None? <==> !(getOk[k] && texts[k] in entries)
    requires forall k: nat :: k in missing <==> k < |texts| && cached[k].None?
    requires forall j | 0 <= j < |missing| :: missing[j] < |texts|
    ensures forall t :: t in Picked(texts, missing) <==> exists i | 0 <= i < |texts| ::
        texts[i] == t && !(getOk[i] && t in entries)
  {
    forall i | 0 <= i < |texts| && !(getOk[i] && texts[i] in entries)
      ensures texts[i] in Picked(texts, missing)
    {
      assert i in missing;
      var j :| 0 <= j < |missing| && missing[j] == i;
      assert Picked(texts, missing)[j] == texts[i];
    }
    forall t | t in Picked(texts, missing)
      ensures exists i | 0 <= i < |texts| :: texts[i] == t && !(getOk[i] && t in entries)
    {
      var j :| 0 <= j < |missing| && Picked(texts, missing)[j] == t;
      assert missing[j] in missing;
    }
  }

  // The loop that puts the generated vectors at the missing indices.
  method Fill(cached: seq<Option<Vector>>, texts: seq<string>, missing: seq<nat>, generated: seq<Vector>,
          ghost embed: string -> Vector)
    returns (filled: seq<Option<Vector>>)
    requires |cached| == |texts| && forall k: nat :: k in missing <==> k < |texts| && cached[k].None?
    requires forall j | 0 <= j < |missing| :: missing[j] < |texts|
    requires forall k | 0 <= k < |texts| && cached[k].Some? :: cached[k].value == embed(texts[k])
    requires generated == Direct(embed, Picked(texts, missing))
    ensures |filled| == |texts| && forall k | 0 <= k < |texts| :: filled[k] == Some(embed(texts[k]))
  {
    filled := cached;
    var j := 0;
    while j < |missing|
      invariant 0 <= j <= |missing| && |filled| == |texts|
      invariant forall k | 0 <= k < |texts| :: filled[k].Some? ==> filled[k].value == embed(texts[k])
      invariant forall k: nat | k < |texts| && filled[k].None? :: k in missing[j..]
    {
      assert missing[j] in missing;
      filled := filled[missing[j] := Some(generated[j])];
      j := j + 1;
    }
  }
}
