/** The embedding generator: instruction prefixes for E5 models, the on-disk
    cache keyed by a digest of the text, and the scatter/gather of `embed_texts`,
    which sends only cache misses to the encoder and fills every output slot once.
    The encoder and the SHA-256 digest are opaque functions held by the generator. */
module Embeddings {
  import opened Text

  type Embedding = seq<real>

  /** A file of the cache directory: loadable, or present but failing to load. */
  datatype CacheFile = Saved(embedding: Embedding) | Damaged

  type Store = map<string, CacheFile>

  // ---- keys and prefixes -----------------------------------------------------------

  /** `_get_cache_key`: the hex digest of the text followed by ".npy". */
  function CacheKey(digest: string -> string, text: string): (key: string)
    ensures |key| == |digest(text)| + 4
    ensures key[|key| - 4..] == ".npy"
  {
    digest(text) + ".npy"
  }

  /** Two texts share a cache file exactly when they share a digest. */
  lemma CacheKeyInjective(digest: string -> string, a: string, b: string)
    ensures CacheKey(digest, a) == CacheKey(digest, b) <==> digest(a) == digest(b)
  {
    if CacheKey(digest, a) == CacheKey(digest, b) {
      assert digest(a) == CacheKey(digest, a)[..|digest(a)|];
      assert digest(b) == CacheKey(digest, b)[..|digest(b)|];
    }
  }

  /** Model names mentioning "e5" in any case are instruction-tuned E5 models. */
  predicate IsE5(modelName: string) {
    Contains(Lower(modelName), "e5")
  }

  /** What the encoder sees for a document text. */
  function PassageInput(modelName: string, text: string): string {
    if IsE5(modelName) then "passage: " + text else text
  }

  /** What the encoder sees for a query. */
  function QueryInput(modelName: string, query: string): string {
    if IsE5(modelName) then "query: " + query else query
  }

  /** Both prefixes keep the text itself as a suffix; for E5 the two inputs of the
      same text always differ, and for other models both are the text unchanged. */
  lemma InputPrefixes(modelName: string, text: string)
    ensures var p := PassageInput(modelName, text);
      |p| >= |text| && p[|p| - |text|..] == text
    ensures var q := QueryInput(modelName, text);
      |q| >= |text| && q[|q| - |text|..] == text
    ensures IsE5(modelName) <==> PassageInput(modelName, text) != QueryInput(modelName, text)
    ensures !IsE5(modelName) ==> PassageInput(modelName, text) == text == QueryInput(modelName, text)
    ensures IsE5(modelName) ==> PassageInput(modelName, text)[..9] == "passage: "
    ensures IsE5(modelName) ==> QueryInput(modelName, text)[..7] == "query: "
  {
    if IsE5(modelName) {
      assert PassageInput(modelName, text)[0] == 'p' != 'q' == QueryInput(modelName, text)[0];
    }
  }

  // ---- the cache --------------------------------------------------------------------

  /** `_load_from_cache`: nothing without a cache directory, nothing for a missing
      file, nothing for a file that fails to load. */
  function Lookup(store: Store, enabled: bool, key: string): (r: Option<Embedding>)
    ensures r.Some? <==> enabled && key in store && store[key].Saved?
    ensures r.Some? ==> store[key] == Saved(r.value)
  {
    if enabled && key in store && store[key].Saved? then Some(store[key].embedding) else None
  }

  /** Whether `embed_texts` finds `text` in the cache. */
  function Cached(store: Store, caching: bool, digest: string -> string, text: string): Option<Embedding> {
    Lookup(store, caching, CacheKey(digest, text))
  }

  /** Positions of the texts the cache cannot serve, in input order. */
  function Misses(store: Store, caching: bool, digest: string -> string, texts: seq<string>): (m: seq<nat>)
    ensures |m| <= |texts|
    ensures forall j :: 0 <= j < |m| ==> m[j] < |texts|
  {
    if texts == [] then []
    else
      var front := texts[..|texts| - 1];
      Misses(store, caching, digest, front)
      + (if Cached(store, caching, digest, texts[|texts| - 1]).None? then [|texts| - 1] else [])
  }

  /** One more text extends the misses by its position exactly when it is a miss. */
  lemma MissesSnoc(store: Store, caching: bool, digest: string -> string, texts: seq<string>, i: nat)
    requires i < |texts|
    ensures Misses(store, caching, digest, texts[..i + 1])
      == Misses(store, caching, digest, texts[..i])
         + (if Cached(store, caching, digest, texts[i]).None? then [i] else [])
  {
    assert texts[..i + 1][..i] == texts[..i];
  }

  /** Misses are listed in strictly increasing input order. */
  lemma {:induction false} MissesIncreasing(store: Store, caching: bool, digest: string -> string, texts: seq<string>)
    ensures forall j, k :: 0 <= j < k < |Misses(store, caching, digest, texts)| ==>
      Misses(store, caching, digest, texts)[j] < Misses(store, caching, digest, texts)[k]
  {
    if texts != [] {
      var front := texts[..|texts| - 1];
      MissesIncreasing(store, caching, digest, front);
      var mf := Misses(store, caching, digest, front);
      var m := Misses(store, caching, digest, texts);
      assert m == mf + (if Cached(store, caching, digest, texts[|texts| - 1]).None? then [|texts| - 1] else []);
      forall j, k | 0 <= j < k < |m| ensures m[j] < m[k] {
        if k < |mf| {
          assert m[j] == mf[j] && m[k] == mf[k];
          assert mf[j] < mf[k];
        } else {
          assert m[j] == mf[j] < |front|;
          assert m[k] == |texts| - 1;
        }
      }
    }
  }

  /** A position is listed as a miss exactly when the cache cannot serve its text. */
  lemma {:induction false} MissesHas(store: Store, caching: bool, digest: string -> string, texts: seq<string>, i: nat)
    requires i < |texts|
    ensures i in Misses(store, caching, digest, texts) <==> Cached(store, caching, digest, texts[i]).None?
  {
    var front := texts[..|texts| - 1];
    if i < |front| {
      MissesHas(store, caching, digest, front, i);
      assert front[i] == texts[i];
    }
  }

  /** Without caching every text is encoded. */
  lemma {:induction false} NoCacheEncodesAll(store: Store, digest: string -> string, texts: seq<string>)
    ensures var m := Misses(store, false, digest, texts);
      |m| == |texts| && forall j :: 0 <= j < |m| ==> m[j] == j
  {
    if texts != [] {
      NoCacheEncodesAll(store, digest, texts[..|texts| - 1]);
    }
  }

  /** The encoder's batch: the misses, prefixed, in their original order. */
  function EncoderBatch(modelName: string, texts: seq<string>, misses: seq<nat>): (b: seq<string>)
    requires forall j :: 0 <= j < |misses| ==> misses[j] < |texts|
    ensures |b| == |misses|
  {
    seq(|misses|, j requires 0 <= j < |misses| => PassageInput(modelName, texts[misses[j]]))
  }

  /** Row `i` of the result: the cached embedding, else the encoding of the text. */
  function EmbeddingOf(store: Store, caching: bool, digest: string -> string, encode: string -> Embedding,
                       modelName: string, text: string): Embedding
  {
    match Cached(store, caching, digest, text)
    case Some(e) => e
    case None => encode(PassageInput(modelName, text))
  }

  /** The rows `embed_texts` returns (before any normalisation). */
  function Embedded(store: Store, caching: bool, digest: string -> string, encode: string -> Embedding,
                    modelName: string, texts: seq<string>): (r: seq<Embedding>)
    ensures |r| == |texts|
  {
    seq(|texts|, i requires 0 <= i < |texts| => EmbeddingOf(store, caching, digest, encode, modelName, texts[i]))
  }

  /** The slots after the cache pass: filled where the cache serves the text. */
  function CacheSlots(store: Store, caching: bool, digest: string -> string, texts: seq<string>)
    : (slots: seq<Option<Embedding>>)
    ensures |slots| == |texts|
  {
    seq(|texts|, p requires 0 <= p < |texts| => Cached(store, caching, digest, texts[p]))
  }

  /** Extending the input by one text extends the slots by that text's lookup. */
  lemma CacheSlotsSnoc(store: Store, caching: bool, digest: string -> string, texts: seq<string>, i: nat)
    requires i < |texts|
    ensures CacheSlots(store, caching, digest, texts[..i + 1])
      == CacheSlots(store, caching, digest, texts[..i]) + [Cached(store, caching, digest, texts[i])]
  {
  }

  /** The texts at the listed positions, in list order. */
  function Picked(texts: seq<string>, indices: seq<nat>): (r: seq<string>)
    requires forall j :: 0 <= j < |indices| ==> indices[j] < |texts|
    ensures |r| == |indices|
  {
    seq(|indices|, j requires 0 <= j < |indices| => texts[indices[j]])
  }

  /** The encoder's outputs, one per batch entry. */
  function EncodeAll(encode: string -> Embedding, batch: seq<string>): (out: seq<Embedding>)
    ensures |out| == |batch|
  {
    seq(|batch|, j requires 0 <= j < |batch| => encode(batch[j]))
  }

  /** The slots after the write-back pass: every listed position holds the encoding
      of its text, the others are as before. */
  function Scattered(slots: seq<Option<Embedding>>, encode: string -> Embedding, modelName: string,
                     texts: seq<string>, indices: seq<nat>): (filled: seq<Option<Embedding>>)
    requires |slots| == |texts|
    ensures |filled| == |texts|
  {
    seq(|texts|, p requires 0 <= p < |texts| =>
      if p in indices then Some(encode(PassageInput(modelName, texts[p]))) else slots[p])
  }

  /** Scattering one more position overwrites exactly that slot. */
  lemma ScatteredStep(slots: seq<Option<Embedding>>, encode: string -> Embedding, modelName: string,
                      texts: seq<string>, indices: seq<nat>, j: nat)
    requires |slots| == |texts| && j < |indices| && indices[j] < |texts|
    ensures Scattered(slots, encode, modelName, texts, indices[..j + 1])
      == Scattered(slots, encode, modelName, texts, indices[..j])
           [indices[j] := Some(encode(PassageInput(modelName, texts[indices[j]])))]
  {
    assert indices[..j + 1] == indices[..j] + [indices[j]];
  }

  /** `np.array(embeddings)` over slots that are all filled. */
  function Rows(slots: seq<Option<Embedding>>): (rows: seq<Embedding>)
    ensures |rows| == |slots|
  {
    seq(|slots|, p requires 0 <= p < |slots| => if slots[p].Some? then slots[p].value else [])
  }

  /** The two passes together fill every slot exactly with the row `Embedded` names:
      a cache hit or the encoding of a miss, never both and never neither. */
  lemma ScatterGather(store: Store, caching: bool, digest: string -> string, encode: string -> Embedding,
                      modelName: string, texts: seq<string>)
    ensures var filled := Scattered(CacheSlots(store, caching, digest, texts), encode, modelName, texts,
                                    Misses(store, caching, digest, texts));
      && (forall p :: 0 <= p < |texts| ==> filled[p].Some?)
      && Rows(filled) == Embedded(store, caching, digest, encode, modelName, texts)
  {
    var filled := Scattered(CacheSlots(store, caching, digest, texts), encode, modelName, texts,
                            Misses(store, caching, digest, texts));
    forall p | 0 <= p < |texts|
      ensures filled[p].Some?
      ensures Rows(filled)[p] == EmbeddingOf(store, caching, digest, encode, modelName, texts[p])
    {
      MissesHas(store, caching, digest, texts, p);
    }
  }

  /** The cache after writing each encoded miss, in order. */
  function SaveAll(store: Store, digest: string -> string, encode: string -> Embedding,
                   modelName: string, texts: seq<string>, misses: seq<nat>): Store
    requires forall j :: 0 <= j < |misses| ==> misses[j] < |texts|
  {
    if misses == [] then store
    else
      var t := texts[misses[|misses| - 1]];
      SaveAll(store, digest, encode, modelName, texts, misses[..|misses| - 1])
        [CacheKey(digest, t) := Saved(encode(PassageInput(modelName, t)))]
  }

  /** Saving one more miss writes exactly its file on top of the earlier saves. */
  lemma SaveAllStep(store: Store, digest: string -> string, encode: string -> Embedding,
                    modelName: string, texts: seq<string>, misses: seq<nat>, j: nat)
    requires forall j :: 0 <= j < |misses| ==> misses[j] < |texts|
    requires j < |misses|
    ensures var t := texts[misses[j]];
      SaveAll(store, digest, encode, modelName, texts, misses[..j + 1])
        == SaveAll(store, digest, encode, modelName, texts, misses[..j])[CacheKey(digest, t) := Saved(encode(PassageInput(modelName, t)))]
  {
    assert misses[..j + 1][..j] == misses[..j];
  }

  /** After saving, every saved text is served by the cache. */
  lemma {:induction false} SaveAllSaved(store: Store, digest: string -> string, encode: string -> Embedding,
                                        modelName: string, texts: seq<string>, misses: seq<nat>, j: nat)
    requires forall j :: 0 <= j < |misses| ==> misses[j] < |texts|
    requires j < |misses|
    ensures Cached(SaveAll(store, digest, encode, modelName, texts, misses), true, digest, texts[misses[j]]).Some?
  {
    if j < |misses| - 1 {
      SaveAllSaved(store, digest, encode, modelName, texts, misses[..|misses| - 1], j);
    }
  }

  /** Saving leaves every other cache file as it was. */
  lemma {:induction false} SaveAllOther(store: Store, digest: string -> string, encode: string -> Embedding,
                                        modelName: string, texts: seq<string>, misses: seq<nat>, key: string)
    requires forall j :: 0 <= j < |misses| ==> misses[j] < |texts|
    requires forall j :: 0 <= j < |misses| ==> key != CacheKey(digest, texts[misses[j]])
    ensures Lookup(SaveAll(store, digest, encode, modelName, texts, misses), true, key) == Lookup(store, true, key)
  {
    if misses != [] {
      SaveAllOther(store, digest, encode, modelName, texts, misses[..|misses| - 1], key);
    }
  }

  /** With an injective digest, a saved file holds the encoding of its own text. */
  lemma {:induction false} SaveAllContents(store: Store, digest: string -> string, encode: string -> Embedding,
                                           modelName: string, texts: seq<string>, misses: seq<nat>, j: nat)
    requires forall j :: 0 <= j < |misses| ==> misses[j] < |texts|
    requires forall a, b :: digest(a) == digest(b) ==> a == b
    requires j < |misses|
    ensures var t := texts[misses[j]];
      Cached(SaveAll(store, digest, encode, modelName, texts, misses), true, digest, t)
        == Some(encode(PassageInput(modelName, t)))
  {
    var t := texts[misses[j]];
    var last := texts[misses[|misses| - 1]];
    if j < |misses| - 1 && CacheKey(digest, last) != CacheKey(digest, t) {
      SaveAllContents(store, digest, encode, modelName, texts, misses[..|misses| - 1], j);
    } else if j < |misses| - 1 {
      CacheKeyInjective(digest, last, t);
    }
  }

  /** A text the cache serves shares its file with none of the misses of the same call. */
  lemma HitKeyIsNoMissKey(store: Store, digest: string -> string, texts: seq<string>, i: nat)
    requires i < |texts| && Cached(store, true, digest, texts[i]).Some?
    ensures var m := Misses(store, true, digest, texts);
      forall j :: 0 <= j < |m| ==> CacheKey(digest, texts[i]) != CacheKey(digest, texts[m[j]])
  {
    var m := Misses(store, true, digest, texts);
    forall j | 0 <= j < |m| ensures CacheKey(digest, texts[i]) != CacheKey(digest, texts[m[j]]) {
      MissesHas(store, true, digest, texts, m[j]);
    }
  }

  /** Row `i` of a second call after a caching call is served by the cache; with an
      injective digest it is the same row as before. */
  lemma RepeatCallRow(store: Store, digest: string -> string, encode: string -> Embedding,
                      modelName: string, texts: seq<string>, i: nat)
    requires i < |texts|
    ensures var s := SaveAll(store, digest, encode, modelName, texts, Misses(store, true, digest, texts));
      && Cached(s, true, digest, texts[i]).Some?
      && ((forall a, b :: digest(a) == digest(b) ==> a == b) ==>
            EmbeddingOf(s, true, digest, encode, modelName, texts[i])
              == EmbeddingOf(store, true, digest, encode, modelName, texts[i]))
  {
    var m := Misses(store, true, digest, texts);
    MissesHas(store, true, digest, texts, i);
    if Cached(store, true, digest, texts[i]).None? {
      var j :| 0 <= j < |m| && m[j] == i;
      SaveAllSaved(store, digest, encode, modelName, texts, m, j);
      if forall a, b :: digest(a) == digest(b) ==> a == b {
        SaveAllContents(store, digest, encode, modelName, texts, m, j);
      }
    } else {
      HitKeyIsNoMissKey(store, digest, texts, i);
      SaveAllOther(store, digest, encode, modelName, texts, m, CacheKey(digest, texts[i]));
    }
  }

  /** A second call on the same texts after a caching call encodes nothing. */
  lemma RepeatCallHits(store: Store, digest: string -> string, encode: string -> Embedding,
                       modelName: string, texts: seq<string>)
    ensures var m := Misses(store, true, digest, texts);
      Misses(SaveAll(store, digest, encode, modelName, texts, m), true, digest, texts) == []
  {
    var s := SaveAll(store, digest, encode, modelName, texts, Misses(store, true, digest, texts));
    forall i | 0 <= i < |texts| ensures Cached(s, true, digest, texts[i]).Some? {
      RepeatCallRow(store, digest, encode, modelName, texts, i);
    }
    NoMissesWhenAllCached(s, digest, texts);
  }

  lemma {:induction false} NoMissesWhenAllCached(s: Store, digest: string -> string, texts: seq<string>)
    requires forall i :: 0 <= i < |texts| ==> Cached(s, true, digest, texts[i]).Some?
    ensures Misses(s, true, digest, texts) == []
  {
    if texts != [] {
      NoMissesWhenAllCached(s, digest, texts[..|texts| - 1]);
    }
  }

  /** With an injective digest, the second call also returns the same rows. */
  lemma RepeatCallSameResult(store: Store, digest: string -> string, encode: string -> Embedding,
                             modelName: string, texts: seq<string>)
    requires forall a, b :: digest(a) == digest(b) ==> a == b
    ensures var m := Misses(store, true, digest, texts);
      Embedded(SaveAll(store, digest, encode, modelName, texts, m), true, digest, encode, modelName, texts)
        == Embedded(store, true, digest, encode, modelName, texts)
  {
    var s := SaveAll(store, digest, encode, modelName, texts, Misses(store, true, digest, texts));
    forall i | 0 <= i < |texts|
      ensures EmbeddingOf(s, true, digest, encode, modelName, texts[i])
           == EmbeddingOf(store, true, digest, encode, modelName, texts[i])
    {
      RepeatCallRow(store, digest, encode, modelName, texts, i);
    }
  }

  // ---- the generator ----------------------------------------------------------------

  /** `EmbeddingGenerator`: the model name, whether a cache directory was given, the
      files of that directory, and the opaque encoder and digest. */
  class EmbeddingGenerator {
    const modelName: string
    const hasCacheDir: bool
    const digest: string -> string
    const encode: string -> Embedding
    var store: Store

    constructor (modelName: string, hasCacheDir: bool, digest: string -> string,
                 encode: string -> Embedding, files: Store)
      ensures this.modelName == modelName && this.hasCacheDir == hasCacheDir
      ensures this.digest == digest && this.encode == encode && store == files
    {
      this.modelName := modelName;
      this.hasCacheDir := hasCacheDir;
      this.digest := digest;
      this.encode := encode;
      store := files;
    }

    /** `_load_from_cache` on the generator's own directory. */
    function LoadFromCache(key: string): Option<Embedding>
      reads this
    {
      Lookup(store, hasCacheDir, key)
    }

    /** `_save_to_cache`: writes the file when there is a cache directory. */
    method SaveToCache(key: string, e: Embedding)
      modifies this
      ensures store == if hasCacheDir then old(store)[key := Saved(e)] else old(store)
      ensures hasCacheDir ==> LoadFromCache(key) == Some(e)
    {
      if hasCacheDir {
        store := store[key := Saved(e)];
      }
    }

    /** The cache pass of `embed_texts`: the slots the cache fills, and the texts
        left to encode with their positions. */
    method CheckCache(texts: seq<string>, useCache: bool)
      returns (slots: seq<Option<Embedding>>, toEncode: seq<string>, indices: seq<nat>)
      ensures var caching := useCache && hasCacheDir;
        && indices == Misses(store, caching, digest, texts)
        && toEncode == Picked(texts, indices)
        && slots == CacheSlots(store, caching, digest, texts)
    {
      var caching := useCache && hasCacheDir;
      slots := [];
      toEncode := [];
      indices := [];
      var i := 0;
      while i < |texts|
        invariant 0 <= i <= |texts|
        invariant indices == Misses(store, caching, digest, texts[..i])
        invariant toEncode == Picked(texts, indices)
        invariant slots == CacheSlots(store, caching, digest, texts[..i])
      {
        MissesSnoc(store, caching, digest, texts, i);
        CacheSlotsSnoc(store, caching, digest, texts, i);
        var cached := if caching then LoadFromCache(CacheKey(digest, texts[i])) else None;
        assert cached == Cached(store, caching, digest, texts[i]);
        slots := slots + [cached];
        if cached.None? {
          toEncode := toEncode + [texts[i]];
          indices := indices + [i];
        }
        i := i + 1;
      }
      assert texts[..i] == texts;
    }

    /** The write-back pass of `embed_texts`: each fresh embedding is saved under its
        text's key when caching, and put into its slot. */
    method WriteBack(texts: seq<string>, caching: bool, slots: seq<Option<Embedding>>,
                     indices: seq<nat>, encoded: seq<Embedding>)
      returns (filled: seq<Option<Embedding>>)
      requires caching ==> hasCacheDir
      requires |slots| == |texts|
      requires forall j :: 0 <= j < |indices| ==> indices[j] < |texts|
      requires encoded == EncodeAll(encode, EncoderBatch(modelName, texts, indices))
      modifies this
      ensures store == if caching then SaveAll(old(store), digest, encode, modelName, texts, indices) else old(store)
      ensures filled == Scattered(slots, encode, modelName, texts, indices)
    {
      filled := slots;
      ghost var store0 := store;
      var j := 0;
      while j < |encoded|
        invariant 0 <= j <= |encoded|
        invariant store == if caching then SaveAll(store0, digest, encode, modelName, texts, indices[..j]) else store0
        invariant filled == Scattered(slots, encode, modelName, texts, indices[..j])
      {
        var idx := indices[j];
        SaveAllStep(store0, digest, encode, modelName, texts, indices, j);
        ScatteredStep(slots, encode, modelName, texts, indices, j);
        if caching {
          SaveToCache(CacheKey(digest, texts[idx]), encoded[j]);
        }
        filled := filled[idx := Some(encoded[j])];
        j := j + 1;
      }
      assert indices[..j] == indices;
    }

    /** `embed_texts`: one row per input; `batch` is what the encoder was given. */
    method EmbedTexts(texts: seq<string>, useCache: bool) returns (rows: seq<Embedding>, batch: seq<string>)
      modifies this
      ensures var caching := useCache && hasCacheDir;
        var m := Misses(old(store), caching, digest, texts);
        && rows == Embedded(old(store), caching, digest, encode, modelName, texts)
        && batch == EncoderBatch(modelName, texts, m)
        && store == (if caching then SaveAll(old(store), digest, encode, modelName, texts, m) else old(store))
    {
      if texts == [] {
        return [], [];
      }
      var caching := useCache && hasCacheDir;
      ScatterGather(store, caching, digest, encode, modelName, texts);
      var slots, toEncode, indices := CheckCache(texts, useCache);
      batch := seq(|toEncode|, j requires 0 <= j < |toEncode| => PassageInput(modelName, toEncode[j]));
      assert batch == EncoderBatch(modelName, texts, indices);
      var encoded := seq(|batch|, j requires 0 <= j < |batch| => encode(batch[j]));
      assert encoded == EncodeAll(encode, batch);
      slots := WriteBack(texts, caching, slots, indices, encoded);
      rows := seq(|slots|, p requires 0 <= p < |slots| => if slots[p].Some? then slots[p].value else []);
      assert rows == Rows(slots);
    }

    /** `embed_query`: the query, prefixed for E5 models, through the encoder. */
    method EmbedQuery(query: string) returns (e: Embedding)
      ensures e == encode(QueryInput(modelName, query))
    {
      var input := if IsE5(modelName) then "query: " + query else query;
      e := encode(input);
    }
  }
}
