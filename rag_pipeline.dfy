/** The pipeline that answers one question: query understanding, the caller's
    overrides, retrieval in Paris under the merged constraints, answer generation, and
    the three timings added to the generator's result. The services the stages use are
    opaque functions gathered in `Components`; the clock is given as its readings. */
module Pipeline {
  import opened Text
  import opened Schema
  import QueryProcessor
  import Retriever
  import Generator

  /** The optional arguments of `query`. */
  datatype Overrides = Overrides(
    fromDate: Option<string>, toDate: Option<string>, category: Option<string>,
    price: Option<string>, arrondissement: Option<int>, language: Option<string>)

  /** The entries of the `processed` dict the pipeline reads and overwrites. */
  datatype Processed = Processed(
    language: string, startDate: Option<Instant>, endDate: Option<Instant>,
    category: Option<string>, priceConstraint: Option<string>, arrondissement: Option<int>)

  /** A return value, or the message of the exception raised instead. */
  datatype Outcome<T> = Done(value: T) | Raised(message: string)

  /** What `query` returns: the generator's result and the three timings it adds. */
  datatype Answer = Answer(generation: Generator.Generation, latencyMs: int, retrievalMs: int, generationMs: int)

  /** The six readings of `time.time()`, in seconds, in the order `query` takes them. */
  datatype Readings = Readings(start: real, retrievalStart: real, retrievalEnd: real,
                               generationStart: real, generationEnd: real, finish: real)

  /** The stages' configuration and opaque services: the clock and language detector of
      the query processor, the retriever's configuration, index search and embedder,
      `fromIso` for `datetime.fromisoformat` on an override (None when it raises), the
      chat model, and the renderings of a datetime for the context and for `str()`. */
  datatype Components = Components(
    defaultLanguage: string, now: QueryProcessor.Clock,
    detect: string -> Option<string>, searchDates: string -> Option<Instant>,
    config: Retriever.Config, search: (string, nat) -> seq<(Document, real)>,
    embedPassages: seq<string> -> seq<seq<real>>, embedQuery: string -> seq<real>,
    parseIso: string -> Option<Instant>, fromIso: string -> Option<Instant>,
    llm: (Generator.Instructions, string) -> Generator.LlmReply,
    formatDate: string -> Option<string>, showInstant: Instant -> string)

  /** The embedder returns one row per text. */
  ghost predicate EmbedderSound(c: Components) {
    forall texts :: |c.embedPassages(texts)| == |texts|
  }

  // ---- overrides --------------------------------------------------------------------

  /** The `processed` dict as `process_query` builds it. */
  function FromQuery(p: QueryProcessor.ProcessedQuery): (r: Processed)
    ensures r.language == p.language && r.category == p.category && r.priceConstraint == p.priceConstraint
    ensures r.startDate.Some? <==> p.window.Window?
    ensures r.startDate.Some? <==> r.endDate.Some?
  {
    var start := if p.window.Window? then Some(p.window.start) else None;
    var end := if p.window.Window? then Some(p.window.end) else None;
    var arr := if p.arrondissement.Some? then Some(p.arrondissement.value as int) else None;
    Processed(p.language, start, end, p.category, p.priceConstraint, arr)
  }

  /** A truthy arrondissement override: given and not 0. */
  predicate ArrondissementGiven(a: Option<int>) {
    a.Some? && a.value != 0
  }

  /** An override date that `fromisoformat` rejects. */
  predicate BadDate(d: Option<string>, fromIso: string -> Option<Instant>) {
    Truthy(d) && fromIso(d.value).None?
  }

  /** The `processed` dict after the overrides: each truthy override replaces its
      entry, and a date `fromisoformat` rejects raises. */
  function Merged(p: Processed, o: Overrides, fromIso: string -> Option<Instant>): Outcome<Processed> {
    if BadDate(o.fromDate, fromIso) || (!BadDate(o.fromDate, fromIso) && BadDate(o.toDate, fromIso)) then
      Raised("Invalid isoformat string")
    else
      Done(Processed(
        language := if Truthy(o.language) then o.language.value else p.language,
        startDate := if Truthy(o.fromDate) then fromIso(o.fromDate.value) else p.startDate,
        endDate := if Truthy(o.toDate) then fromIso(o.toDate.value) else p.endDate,
        category := if Truthy(o.category) then o.category else p.category,
        priceConstraint := if Truthy(o.price) then o.price else p.priceConstraint,
        arrondissement := if ArrondissementGiven(o.arrondissement) then o.arrondissement else p.arrondissement))
  }

  /** Merging raises exactly when an override date is rejected; otherwise an entry
      differs from the inferred one only where a truthy override gave it, and every
      truthy override's value is what the entry holds. */
  lemma MergeRule(p: Processed, o: Overrides, fromIso: string -> Option<Instant>)
    ensures Merged(p, o, fromIso).Raised? <==> BadDate(o.fromDate, fromIso) || BadDate(o.toDate, fromIso)
    ensures Merged(p, o, fromIso).Done? ==>
      var m := Merged(p, o, fromIso).value;
      && (m.language != p.language ==> Truthy(o.language))
      && (Truthy(o.language) ==> m.language == o.language.value)
      && (m.startDate != p.startDate ==> Truthy(o.fromDate))
      && (Truthy(o.fromDate) ==> m.startDate.Some? && m.startDate == fromIso(o.fromDate.value))
      && (m.endDate != p.endDate ==> Truthy(o.toDate))
      && (Truthy(o.toDate) ==> m.endDate.Some? && m.endDate == fromIso(o.toDate.value))
      && (m.category != p.category ==> Truthy(o.category))
      && (Truthy(o.category) ==> m.category == o.category)
      && (m.priceConstraint != p.priceConstraint ==> Truthy(o.price))
      && (Truthy(o.price) ==> m.priceConstraint == o.price)
      && (m.arrondissement != p.arrondissement ==> ArrondissementGiven(o.arrondissement))
      && (ArrondissementGiven(o.arrondissement) ==> m.arrondissement == o.arrondissement)
  {
  }

  /** None, empty and zero overrides leave the inferred entries as they are. */
  lemma FalsyOverridesKeep(p: Processed, fromIso: string -> Option<Instant>)
    ensures Merged(p, Overrides(None, Some(""), Some(""), None, Some(0), Some("")), fromIso) == Done(p)
    ensures Merged(p, Overrides(None, None, None, None, None, None), fromIso) == Done(p)
  {
  }

  /** Applying the same overrides again changes nothing more. */
  lemma MergeIdempotent(p: Processed, o: Overrides, fromIso: string -> Option<Instant>)
    requires Merged(p, o, fromIso).Done?
    ensures Merged(Merged(p, o, fromIso).value, o, fromIso) == Merged(p, o, fromIso)
  {
  }

  // ---- requests to the stages -------------------------------------------------------

  /** The constraints `retrieve` is called with: always Paris, then the merged entries. */
  function RetrievalConstraints(m: Processed): (c: Retriever.Constraints)
    ensures c.city == Some("Paris")
    ensures c.startDate == m.startDate && c.endDate == m.endDate
    ensures c.category == m.category && c.priceConstraint == m.priceConstraint
    ensures c.arrondissement == m.arrondissement
  {
    Retriever.Constraints(Some("Paris"), m.startDate, m.endDate, m.category, m.priceConstraint, m.arrondissement)
  }

  function DateValue(d: Option<Instant>, showInstant: Instant -> string): Generator.Value {
    if d.Some? then Generator.Moment(showInstant(d.value)) else Generator.Null
  }

  function TextValue(s: Option<string>): Generator.Value {
    if s.Some? then Generator.Str(s.value) else Generator.Null
  }

  /** The constraints dict handed to `generate`. */
  function GenerationConstraints(m: Processed, showInstant: Instant -> string): Generator.ConstraintDict {
    map["start_date" := DateValue(m.startDate, showInstant),
        "end_date" := DateValue(m.endDate, showInstant),
        "category" := TextValue(m.category),
        "price_constraint" := TextValue(m.priceConstraint),
        "arrondissement" := if m.arrondissement.Some? then Generator.Num(m.arrondissement.value) else Generator.Null]
  }

  /** The dict has exactly the five constraint keys, and an entry is truthy exactly
      when the merged value is set (and, for text and numbers, not empty or zero). */
  lemma GenerationConstraintsShape(m: Processed, showInstant: Instant -> string)
    ensures var c := GenerationConstraints(m, showInstant);
      && c.Keys == {"start_date", "end_date", "category", "price_constraint", "arrondissement"}
      && (Generator.TruthyValue(c["start_date"]) <==> m.startDate.Some?)
      && (Generator.TruthyValue(c["end_date"]) <==> m.endDate.Some?)
      && (Generator.TruthyValue(c["category"]) <==> Truthy(m.category))
      && (Generator.TruthyValue(c["price_constraint"]) <==> Truthy(m.priceConstraint))
      && (Generator.TruthyValue(c["arrondissement"]) <==> ArrondissementGiven(m.arrondissement))
  {
  }

  // ---- timings ----------------------------------------------------------------------

  /** `int(seconds * 1000)`: milliseconds, truncated toward zero. */
  function Millis(seconds: real): int {
    var ms := seconds * 1000.0;
    if ms >= 0.0 then ms.Floor else -((-ms).Floor)
  }

  predicate Monotone(t: Readings) {
    t.start <= t.retrievalStart <= t.retrievalEnd <= t.generationStart <= t.generationEnd <= t.finish
  }

  /** Adds the three timings to the generator's result, which is otherwise unchanged. */
  function Timed(g: Generator.Generation, t: Readings): Answer {
    Answer(g, Millis(t.finish - t.start), Millis(t.retrievalEnd - t.retrievalStart),
           Millis(t.generationEnd - t.generationStart))
  }

  /** With a clock that never goes back, every timing is non-negative and the total is
      at least the retrieval and generation timings together. */
  lemma TimingsConsistent(g: Generator.Generation, t: Readings)
    requires Monotone(t)
    ensures var a := Timed(g, t);
      && a.generation == g
      && 0 <= a.retrievalMs && 0 <= a.generationMs
      && a.retrievalMs + a.generationMs <= a.latencyMs
  {
    var r := (t.retrievalEnd - t.retrievalStart) * 1000.0;
    var q := (t.generationEnd - t.generationStart) * 1000.0;
    var total := (t.finish - t.start) * 1000.0;
    assert r + q <= total;
    assert (r.Floor + q.Floor) as real <= r + q;
  }

  // ---- query ------------------------------------------------------------------------

  /** The `processed` dict `query` starts from. */
  function Inferred(question: string, c: Components): Processed {
    FromQuery(QueryProcessor.ProcessQuery(question, c.defaultLanguage, c.now, c.detect, c.searchDates))
  }

  /** What `query` returns once the overrides are merged into `m`. */
  function AnswerOf(question: string, m: Processed, c: Components, t: Readings): Answer
    requires EmbedderSound(c)
  {
    var documents := Retriever.Retrieved(c.config, question, RetrievalConstraints(m), c.search,
                                         c.embedPassages, c.embedQuery, c.parseIso);
    Timed(Generator.Generated(question, documents, m.language, Some(GenerationConstraints(m, c.showInstant)),
                              c.llm, c.formatDate), t)
  }

  /** What `query` returns for `question`. */
  function Answered(question: string, o: Overrides, c: Components, t: Readings): Outcome<Answer>
    requires EmbedderSound(c)
  {
    match Merged(Inferred(question, c), o, c.fromIso)
    case Raised(e) => Raised(e)
    case Done(m) => Done(AnswerOf(question, m, c, t))
  }

  /** `query` raises exactly when an override date is rejected. */
  lemma AnsweredRaises(question: string, o: Overrides, c: Components, t: Readings)
    requires EmbedderSound(c)
    ensures Answered(question, o, c, t).Raised? <==> BadDate(o.fromDate, c.fromIso) || BadDate(o.toDate, c.fromIso)
    ensures Answered(question, o, c, t).Done? ==>
      Answered(question, o, c, t) == Done(AnswerOf(question, Merged(Inferred(question, c), o, c.fromIso).value, c, t))
  {
    MergeRule(Inferred(question, c), o, c.fromIso);
  }

  /** Once merged, the question is answered from at most `k_final` documents retrieved
      in Paris under the merged entries; the result's filters are the five-key dict,
      and without documents the answer lists no events. */
  lemma AnswerStages(question: string, m: Processed, c: Components, t: Readings)
    requires EmbedderSound(c)
    ensures var documents := Retriever.Retrieved(c.config, question, RetrievalConstraints(m), c.search,
                                                 c.embedPassages, c.embedQuery, c.parseIso);
      var a := AnswerOf(question, m, c, t);
      && |documents| <= c.config.kFinal
      && a.generation.filtersApplied == GenerationConstraints(m, c.showInstant)
      && (documents == [] ==> a.generation.events == [] && a.generation.error.None?)
  {
    Retriever.RetrievedProperties(c.config, question, RetrievalConstraints(m), c.search,
                                  c.embedPassages, c.embedQuery, c.parseIso);
    assert Generator.DictTruthy(Some(GenerationConstraints(m, c.showInstant))) by {
      assert "category" in GenerationConstraints(m, c.showInstant);
    }
  }

  /** The overrides block of `query`, overwriting the `processed` entries one by one. */
  method ApplyOverrides(p: Processed, o: Overrides, fromIso: string -> Option<Instant>) returns (r: Outcome<Processed>)
    ensures r == Merged(p, o, fromIso)
  {
    var processed := p;
    if Truthy(o.fromDate) {
      var d := fromIso(o.fromDate.value);
      if d.None? {
        return Raised("Invalid isoformat string");
      }
      processed := processed.(startDate := d);
    }
    if Truthy(o.toDate) {
      var d := fromIso(o.toDate.value);
      if d.None? {
        return Raised("Invalid isoformat string");
      }
      processed := processed.(endDate := d);
    }
    if Truthy(o.category) {
      processed := processed.(category := o.category);
    }
    if Truthy(o.price) {
      processed := processed.(priceConstraint := o.price);
    }
    if ArrondissementGiven(o.arrondissement) {
      processed := processed.(arrondissement := o.arrondissement);
    }
    if Truthy(o.language) {
      processed := processed.(language := o.language.value);
    }
    r := Done(processed);
  }

  /** Retrieval, generation and the timings, for the merged entries `m`. */
  method AnswerMerged(question: string, m: Processed, c: Components, t: Readings) returns (a: Answer)
    requires EmbedderSound(c)
    ensures a == AnswerOf(question, m, c, t)
  {
    var documents := Retriever.Retrieve(c.config, question, RetrievalConstraints(m), c.search,
                                        c.embedPassages, c.embedQuery, c.parseIso);
    var g := Generator.Generate(question, documents, m.language, Some(GenerationConstraints(m, c.showInstant)),
                                c.llm, c.formatDate);
    a := Timed(g, t);
  }

  /** `query`: process, override, retrieve, generate, add the timings. */
  method Query(question: string, o: Overrides, c: Components, t: Readings) returns (r: Outcome<Answer>)
    requires EmbedderSound(c)
    ensures r == Answered(question, o, c, t)
  {
    var processed := Inferred(question, c);
    var merged := ApplyOverrides(processed, o, c.fromIso);
    if merged.Raised? {
      return Raised(merged.message);
    }
    var a := AnswerMerged(question, merged.value, c, t);
    r := Done(a);
  }
}
