/** The FAISS index manager: building the docstore and the position-to-id mapping,
    post-processing of the nearest-neighbour hits, the manifest written beside the
    index, and loading the four index files back. The HNSW graph itself, its search
    and the embedding model are opaque. */
module FaissIndex {
  import opened Text
  import opened Schema
  import opened Embeddings

  /** An HNSW index: the vectors added to it and its parameters; `efSearch` is None
      while the library default is in force. */
  datatype HnswIndex = HnswIndex(vectors: seq<Embedding>, dimension: nat, m: int,
                                 efConstruction: int, efSearch: Option<int>)

  /** A squared L2 distance, as the index reports it. */
  type Distance = d: real | 0.0 <= d

  /** One raw result of the index search: a distance and a vector position, -1 when
      the index had fewer results than asked for. */
  datatype Hit = Hit(distance: Distance, position: int)

  datatype Scored = Scored(doc: Document, similarity: real)

  /** A return value, or the message of the `ValueError` raised instead. */
  datatype Outcome<T> = Done(value: T) | Raised(message: string)

  /** A JSON value of the manifest. */
  datatype Json = JInt(n: int) | JStr(s: string) | JNull

  type Manifest = map<string, Json>

  /** One file of the index directory: absent, present but failing to load, or holding
      what was written. */
  datatype Stored<T> = Missing | Unreadable | Written(content: T)

  /** The four files `save_index` writes and `load_index` reads. */
  datatype Files = Files(index: Stored<HnswIndex>, docstore: Stored<map<string, Document>>,
                         mapping: Stored<map<int, string>>, manifest: Stored<Manifest>)

  // ---- build ------------------------------------------------------------------------

  function DocumentsOf(events: seq<Event>, isoFormat: Instant -> string): (ds: seq<Document>)
    ensures |ds| == |events|
  {
    seq(|events|, i requires 0 <= i < |events| => DocumentOf(events[i], isoFormat))
  }

  /** `{str(i): doc for i, doc in enumerate(documents)}` */
  function DocstoreOf(documents: seq<Document>): map<string, Document> {
    if documents == [] then map[]
    else DocstoreOf(documents[..|documents| - 1])[NatToString(|documents| - 1) := documents[|documents| - 1]]
  }

  /** `{i: str(i) for i in range(n)}` */
  function IdMapOf(n: nat): map<int, string> {
    map i | 0 <= i < n :: NatToString(i)
  }

  /** The id of position `i` names the `i`-th document. */
  lemma {:induction false} DocstoreValues(documents: seq<Document>)
    ensures forall i :: 0 <= i < |documents| ==>
      NatToString(i) in DocstoreOf(documents) && DocstoreOf(documents)[NatToString(i)] == documents[i]
  {
    if documents != [] {
      var n := |documents| - 1;
      var front := documents[..n];
      DocstoreValues(front);
      forall i | 0 <= i < n
        ensures NatToString(i) in DocstoreOf(documents) && DocstoreOf(documents)[NatToString(i)] == documents[i]
      {
        NatToStringInjective(i, n);
        assert front[i] == documents[i];
      }
    }
  }

  /** The docstore holds no ids but "0".."n-1". */
  lemma {:induction false} DocstoreKeys(documents: seq<Document>)
    ensures forall key :: key in DocstoreOf(documents) ==> exists i :: 0 <= i < |documents| && key == NatToString(i)
  {
    if documents != [] {
      var n := |documents| - 1;
      var front := documents[..n];
      DocstoreKeys(front);
      assert DocstoreOf(documents) == DocstoreOf(front)[NatToString(n) := documents[n]];
      forall key | key in DocstoreOf(documents)
        ensures exists i :: 0 <= i < |documents| && key == NatToString(i)
      {
        if key == NatToString(n) {
          assert 0 <= n < |documents| && key == NatToString(n);
        } else {
          assert key in DocstoreOf(front);
          var i :| 0 <= i < |front| && key == NatToString(i);
          assert 0 <= i < |documents| && key == NatToString(i);
        }
      }
      assert forall key :: key in DocstoreOf(documents) ==> exists i :: 0 <= i < |documents| && key == NatToString(i);
    }
  }

  // ---- search -----------------------------------------------------------------------

  /** `1.0 / (1.0 + distance)` */
  function Similarity(d: Distance): (s: real)
    ensures 0.0 < s <= 1.0
  {
    1.0 / (1.0 + d)
  }

  /** A smaller distance gives exactly a larger similarity, so ranking by either agrees. */
  lemma SimilarityDecreasing(d1: Distance, d2: Distance)
    ensures d1 < d2 <==> Similarity(d1) > Similarity(d2)
  {
    var s1, s2 := Similarity(d1), Similarity(d2);
    assert s1 * (1.0 + d1) == 1.0 && s2 * (1.0 + d2) == 1.0;
    assert s1 * s2 > 0.0;
    assert s1 - s2 == s1 * s2 * (d2 - d1) by {
      calc {
        s1 * s2 * (d2 - d1);
        s1 * (s2 * (1.0 + d2)) - s2 * (s1 * (1.0 + d1));
        s1 - s2;
      }
    }
    var p := s1 * s2;
    if d1 < d2 {
      PositiveProduct(p, d2 - d1);
    } else if d2 < d1 {
      PositiveProduct(p, d1 - d2);
    }
  }

  lemma PositiveProduct(a: real, b: real)
    requires a > 0.0 && b > 0.0
    ensures a * b > 0.0
  {
  }

  /** The document a hit stands for: none for position -1, for a position without a
      mapped id, for an empty id or for an id missing from the docstore. */
  function Resolve(h: Hit, ids: map<int, string>, docstore: map<string, Document>): Option<Scored> {
    if h.position == -1 then None
    else if h.position in ids && ids[h.position] != "" && ids[h.position] in docstore then
      Some(Scored(docstore[ids[h.position]], Similarity(h.distance)))
    else None
  }

  /** The results of `search` for the raw hits, in hit order. */
  function SearchResults(hits: seq<Hit>, ids: map<int, string>, docstore: map<string, Document>): (r: seq<Scored>)
    ensures |r| <= |hits|
  {
    if hits == [] then []
    else
      var front := SearchResults(hits[..|hits| - 1], ids, docstore);
      match Resolve(hits[|hits| - 1], ids, docstore)
      case Some(s) => front + [s]
      case None => front
  }

  /** Every result scores at least the similarity of the farthest hit. */
  lemma {:induction false} ResultsAtLeast(hits: seq<Hit>, ids: map<int, string>, docstore: map<string, Document>, d: Distance)
    requires forall i :: 0 <= i < |hits| ==> hits[i].distance <= d
    ensures forall j :: 0 <= j < |SearchResults(hits, ids, docstore)| ==>
      SearchResults(hits, ids, docstore)[j].similarity >= Similarity(d)
  {
    if hits != [] {
      var front := hits[..|hits| - 1];
      ResultsAtLeast(front, ids, docstore, d);
      SimilarityDecreasing(hits[|hits| - 1].distance, d);
    }
  }

  /** Hits in order of increasing distance give results in order of non-increasing
      similarity: the rank order survives the skipping. */
  lemma {:induction false} SearchKeepsRank(hits: seq<Hit>, ids: map<int, string>, docstore: map<string, Document>)
    requires forall i, j :: 0 <= i < j < |hits| ==> hits[i].distance <= hits[j].distance
    ensures forall i, j :: 0 <= i < j < |SearchResults(hits, ids, docstore)| ==>
      SearchResults(hits, ids, docstore)[i].similarity >= SearchResults(hits, ids, docstore)[j].similarity
  {
    if hits != [] {
      var n := |hits| - 1;
      var front := hits[..n];
      assert forall i, j :: 0 <= i < j < |front| ==> front[i].distance <= front[j].distance;
      SearchKeepsRank(front, ids, docstore);
      assert forall i :: 0 <= i < |front| ==> front[i].distance <= hits[n].distance;
      ResultsAtLeast(front, ids, docstore, hits[n].distance);
      var rf := SearchResults(front, ids, docstore);
      match Resolve(hits[n], ids, docstore)
      case None =>
        assert SearchResults(hits, ids, docstore) == rf;
      case Some(sc) =>
        assert SearchResults(hits, ids, docstore) == rf + [sc];
        assert sc.similarity == Similarity(hits[n].distance);
    }
  }

  /** Against a freshly built docstore and mapping, a hit names the document at its
      position when that position is in range, and nothing otherwise. */
  lemma ResolveAfterBuild(h: Hit, documents: seq<Document>)
    ensures Resolve(h, IdMapOf(|documents|), DocstoreOf(documents))
      == if 0 <= h.position < |documents| then Some(Scored(documents[h.position], Similarity(h.distance))) else None
  {
    DocstoreValues(documents);
    if 0 <= h.position < |documents| {
      NatToStringShape(h.position);
    }
  }

  /** `str(i)` of a position is never the empty string. */
  lemma NatToStringShape(n: nat)
    ensures NatToString(n) != ""
  {
    ParseNatToString(n);
  }

  /** Against a freshly built index, hits whose positions are all in range give one
      result per hit, naming the document at that position. */
  lemma {:induction false} SearchAfterBuild(hits: seq<Hit>, documents: seq<Document>)
    requires forall i :: 0 <= i < |hits| ==> 0 <= hits[i].position < |documents|
    ensures var r := SearchResults(hits, IdMapOf(|documents|), DocstoreOf(documents));
      && |r| == |hits|
      && forall j :: 0 <= j < |r| ==>
           r[j] == Scored(documents[hits[j].position], Similarity(hits[j].distance))
  {
    if hits != [] {
      var n := |hits| - 1;
      SearchAfterBuild(hits[..n], documents);
      ResolveAfterBuild(hits[n], documents);
    }
  }

  /** A hit at position -1 adds nothing, wherever it occurs. */
  lemma EmptyHitSkipped(hits: seq<Hit>, d: Distance, ids: map<int, string>, docstore: map<string, Document>)
    ensures SearchResults(hits + [Hit(d, -1)], ids, docstore) == SearchResults(hits, ids, docstore)
  {
    assert (hits + [Hit(d, -1)])[..|hits|] == hits;
  }

  // ---- manifest ---------------------------------------------------------------------

  /** The manifest before the caller's metadata and the timestamp. */
  function BaseManifest(index: HnswIndex, m: int, efConstruction: int, efSearch: int, model: string): Manifest {
    map["total_documents" := JInt(|index.vectors|), "dimension" := JInt(index.dimension),
        "hnsw_m" := JInt(m), "hnsw_ef_construction" := JInt(efConstruction),
        "hnsw_ef_search" := JInt(efSearch), "embedding_model" := JStr(model), "created_at" := JNull]
  }

  /** Non-empty caller metadata, which is what `if metadata:` lets through. */
  predicate MetadataGiven(metadata: Option<Manifest>) {
    metadata.Some? && metadata.value != map[]
  }

  /** The manifest `save_index` writes. */
  function ManifestOf(base: Manifest, metadata: Option<Manifest>, now: string): Manifest {
    (if MetadataGiven(metadata) then base + metadata.value else base)["created_at" := JStr(now)]
  }

  /** The manifest carries the base keys and the caller's keys; the caller's values win
      over the base values, and `created_at` is the save time whatever the caller gave. */
  lemma ManifestKeys(base: Manifest, metadata: Option<Manifest>, now: string)
    ensures var mf := ManifestOf(base, metadata, now);
      && mf.Keys == base.Keys + (if MetadataGiven(metadata) then metadata.value.Keys else {}) + {"created_at"}
      && mf["created_at"] == JStr(now)
      && (forall k :: k in mf && k != "created_at" && MetadataGiven(metadata) && k in metadata.value ==>
            mf[k] == metadata.value[k])
      && (forall k :: k in base && k != "created_at" && !(MetadataGiven(metadata) && k in metadata.value) ==>
            mf[k] == base[k])
  {
  }

  // ---- load -------------------------------------------------------------------------

  predicate AllPresent(files: Files) {
    !files.index.Missing? && !files.docstore.Missing? && !files.mapping.Missing? && !files.manifest.Missing?
  }

  /** Whether `load_index` gets through every read. */
  predicate LoadSucceeds(files: Files) {
    files.index.Written? && files.docstore.Written? && files.mapping.Written? && files.manifest.Written?
  }

  /** The index field after `load_index`: replaced once the index file was read. */
  function IndexAfterLoad(files: Files, efSearch: int, current: Option<HnswIndex>): Option<HnswIndex> {
    if AllPresent(files) && files.index.Written? then Some(files.index.content.(efSearch := Some(efSearch)))
    else current
  }

  /** The docstore field after `load_index`: replaced once its file was read too. */
  function DocstoreAfterLoad(files: Files, current: map<string, Document>): map<string, Document> {
    if AllPresent(files) && files.index.Written? && files.docstore.Written? then files.docstore.content
    else current
  }

  /** The mapping field after `load_index`: replaced once the three earlier reads passed. */
  function MappingAfterLoad(files: Files, current: map<int, string>): map<int, string> {
    if AllPresent(files) && files.index.Written? && files.docstore.Written? && files.mapping.Written? then
      files.mapping.content
    else current
  }

  /** The files `save_index` leaves behind. */
  function SavedFiles(index: HnswIndex, docstore: map<string, Document>, ids: map<int, string>, manifest: Manifest): Files {
    Files(Written(index), Written(docstore), Written(ids), Written(manifest))
  }

  /** Loading what was saved succeeds and restores the index (with the configured
      `efSearch`), the docstore and the mapping, whatever the fields held before. */
  lemma SaveThenLoad(index: HnswIndex, docstore: map<string, Document>, ids: map<int, string>, manifest: Manifest,
                     efSearch: int, curIndex: Option<HnswIndex>, curDocstore: map<string, Document>, curIds: map<int, string>)
    ensures var files := SavedFiles(index, docstore, ids, manifest);
      && LoadSucceeds(files)
      && IndexAfterLoad(files, efSearch, curIndex) == Some(index.(efSearch := Some(efSearch)))
      && DocstoreAfterLoad(files, curDocstore) == docstore
      && MappingAfterLoad(files, curIds) == ids
  {
  }

  /** A missing file fails the load and leaves every field as it was. */
  lemma MissingFileKeepsState(files: Files, efSearch: int, curIndex: Option<HnswIndex>,
                              curDocstore: map<string, Document>, curIds: map<int, string>)
    requires !AllPresent(files)
    ensures !LoadSucceeds(files)
    ensures IndexAfterLoad(files, efSearch, curIndex) == curIndex
    ensures DocstoreAfterLoad(files, curDocstore) == curDocstore
    ensures MappingAfterLoad(files, curIds) == curIds
  {
  }

  // ---- the manager ------------------------------------------------------------------

  class FaissIndexManager {
    const generator: EmbeddingGenerator
    const hnswM: int
    const hnswEfConstruction: int
    const hnswEfSearch: int
    var index: Option<HnswIndex>
    var docstore: map<string, Document>
    var indexToDocstoreId: map<int, string>
    /** The index directory. */
    var files: Files

    constructor (generator: EmbeddingGenerator, hnswM: int, hnswEfConstruction: int, hnswEfSearch: int, files: Files)
      ensures this.generator == generator && this.hnswM == hnswM
      ensures this.hnswEfConstruction == hnswEfConstruction && this.hnswEfSearch == hnswEfSearch
      ensures index == None && docstore == map[] && indexToDocstoreId == map[] && this.files == files
    {
      this.generator := generator;
      this.hnswM := hnswM;
      this.hnswEfConstruction := hnswEfConstruction;
      this.hnswEfSearch := hnswEfSearch;
      index := None;
      docstore := map[];
      indexToDocstoreId := map[];
      this.files := files;
    }

    /** `build_index`: embeds the documents of the events (with the cache), adds the
        vectors to a new index and numbers the documents by position. */
    method BuildIndex(events: seq<Event>, isoFormat: Instant -> string)
      returns (r: Outcome<(HnswIndex, map<string, Document>)>)
      modifies this, generator
      ensures events == [] ==> r == Raised("No events to index")
      ensures events == [] ==>
        (index == old(index) && docstore == old(docstore)
         && indexToDocstoreId == old(indexToDocstoreId) && generator.store == old(generator.store))
      ensures events != [] ==>
        var documents := DocumentsOf(events, isoFormat);
        var texts := seq(|documents|, i requires 0 <= i < |documents| => documents[i].pageContent);
        var rows := Embedded(old(generator.store), generator.hasCacheDir, generator.digest, generator.encode,
                             generator.modelName, texts);
        && index == Some(HnswIndex(rows, |rows[0]|, hnswM, hnswEfConstruction, None))
        && docstore == DocstoreOf(documents)
        && indexToDocstoreId == IdMapOf(|events|)
        && r == Done((index.value, docstore))
        && generator.store
           == (if generator.hasCacheDir
               then SaveAll(old(generator.store), generator.digest, generator.encode, generator.modelName,
                            texts, Misses(old(generator.store), true, generator.digest, texts))
               else old(generator.store))
      ensures files == old(files)
    {
      if events == [] {
        return Raised("No events to index");
      }
      var documents: seq<Document> := [];
      var i := 0;
      while i < |events|
        invariant 0 <= i <= |events|
        invariant documents == DocumentsOf(events[..i], isoFormat)
      {
        documents := documents + [DocumentOf(events[i], isoFormat)];
        i := i + 1;
      }
      assert events[..i] == events;
      var texts := seq(|documents|, j requires 0 <= j < |documents| => documents[j].pageContent);
      var embeddings, _ := generator.EmbedTexts(texts, true);
      var built := HnswIndex(embeddings, |embeddings[0]|, hnswM, hnswEfConstruction, None);
      index := Some(built);
      docstore := DocstoreOf(documents);
      indexToDocstoreId := IdMapOf(|documents|);
      r := Done((built, docstore));
    }

    /** `search`: the query embedding goes to the index (`nearest` stands for the HNSW
        search), and the hits are turned into documents with similarities. */
    method Search(query: string, k: int, nearest: (HnswIndex, Embedding, int) -> seq<Hit>)
      returns (r: Outcome<seq<Scored>>)
      ensures index.None? ==> r == Raised("Index not loaded")
      ensures index.Some? ==>
        r == Done(SearchResults(nearest(index.value, generator.encode(QueryInput(generator.modelName, query)), k),
                                indexToDocstoreId, docstore))
    {
      if index.None? {
        return Raised("Index not loaded");
      }
      var embedding := generator.EmbedQuery(query);
      var hits := nearest(index.value, embedding, k);
      var results: seq<Scored> := [];
      var i := 0;
      while i < |hits|
        invariant 0 <= i <= |hits|
        invariant results == SearchResults(hits[..i], indexToDocstoreId, docstore)
      {
        assert hits[..i + 1][..i] == hits[..i];
        var h := hits[i];
        if h.position != -1 {
          var docId := if h.position in indexToDocstoreId then Some(indexToDocstoreId[h.position]) else None;
          if Truthy(docId) && docId.value in docstore {
            results := results + [Scored(docstore[docId.value], Similarity(h.distance))];
          }
        }
        i := i + 1;
      }
      assert hits[..i] == hits;
      r := Done(results);
    }

    /** `save_index`: writes the index, the docstore, the mapping and the manifest;
        `now` is the UTC time in ISO form. */
    method SaveIndex(metadata: Option<Manifest>, now: string) returns (r: Outcome<Manifest>)
      modifies this
      ensures index == old(index) && docstore == old(docstore) && indexToDocstoreId == old(indexToDocstoreId)
      ensures index.None? ==> r == Raised("No index to save") && files == old(files)
      ensures index.Some? ==>
        var mf := ManifestOf(BaseManifest(index.value, hnswM, hnswEfConstruction, hnswEfSearch, generator.modelName),
                             metadata, now);
        && r == Done(mf)
        && files == SavedFiles(index.value, docstore, indexToDocstoreId, mf)
    {
      if index.None? {
        return Raised("No index to save");
      }
      var saved := index.value;
      files := files.(index := Written(saved));
      files := files.(docstore := Written(docstore));
      files := files.(mapping := Written(indexToDocstoreId));
      var manifest := map["total_documents" := JInt(|saved.vectors|), "dimension" := JInt(saved.dimension),
                          "hnsw_m" := JInt(hnswM), "hnsw_ef_construction" := JInt(hnswEfConstruction),
                          "hnsw_ef_search" := JInt(hnswEfSearch), "embedding_model" := JStr(generator.modelName),
                          "created_at" := JNull];
      if MetadataGiven(metadata) {
        manifest := manifest + metadata.value;
      }
      manifest := manifest["created_at" := JStr(now)];
      files := files.(manifest := Written(manifest));
      r := Done(manifest);
    }

    /** `load_index`: false when a file is missing or a read fails; each read that
        succeeds has already replaced its field. */
    method LoadIndex() returns (ok: bool)
      modifies this
      ensures ok == LoadSucceeds(files)
      ensures index == IndexAfterLoad(files, hnswEfSearch, old(index))
      ensures docstore == DocstoreAfterLoad(files, old(docstore))
      ensures indexToDocstoreId == MappingAfterLoad(files, old(indexToDocstoreId))
      ensures files == old(files)
    {
      if !AllPresent(files) {
        return false;
      }
      if files.index.Unreadable? {
        return false;
      }
      index := Some(files.index.content.(efSearch := Some(hnswEfSearch)));
      if files.docstore.Unreadable? {
        return false;
      }
      docstore := files.docstore.content;
      if files.mapping.Unreadable? {
        return false;
      }
      indexToDocstoreId := files.mapping.content;
      if files.manifest.Unreadable? {
        return false;
      }
      return true;
    }
  }
}
