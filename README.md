# AgendaFlow rule layers in Dafny

AgendaFlow answers questions about Paris events. It ingests OpenAgenda records and
indexes them with FAISS and a sentence-embedding model. It then answers a question by
retrieving events and asking a Mistral chat model. This project models the
deterministic rule layers around those three services and proves what they promise.
One module per source file:

- `Schema` (schema.dfy): the `Event` record and its derivations, namely the
  deduplication title, the embedded document text, the stored metadata and the list
  validator.
- `Cleaning` (cleaning.dfy): `strip_html`, category normalisation, price bucketing,
  arrondissement extraction, and the accept/reject and derivation rules of
  `clean_event`.
- `Deduplication` (deduplication.dfy): the sort-then-scan deduplication loop.
- `QueryProcessor` (query_processor.dfy): the category and price keyword tables, the
  arrondissement in the question, the relative date windows, the language fallback
  and `process_query`.
- `Retriever` (retriever.dfy):
  - the metadata filter loop;
  - MMR re-ranking over given relevance and similarity values;
  - the venue/date concentration check;
  - the `retrieve` flow.
- `Embeddings` (embeddings.dfy): the `EmbeddingGenerator` class. Its on-disk cache is a
  `map` field. `embed_texts` is modelled as a cache scan, one encoder call for the
  misses, and a scatter/write-back.
- `FaissIndex` (faiss_index.dfy): the `FaissIndexManager` class, covering build (docstore
  and position mapping), search post-processing, manifest construction, and load
  with its readiness result.
- `Generator` (generator.dfy): context formatting, the prompts, and the three paths of
  `generate` (no documents, model reply, model failure).
- `Pipeline` (rag_pipeline.dfy): `RAGPipeline.query`. It covers the override merge, the
  retrieval and generation requests, and the timings added to the result.
- `Text` and `Seqs` (text.dfy, seqs.dfy): shared helpers for strings and subsequences.
  These include `str.lower`, `strip`, `join`, substring search and decimal rendering.

Each loop of the source is a `method` proved equal to a specification function. The
properties are proved about that function: ordering, bounds, iff-rules, round trips,
and "nothing else changes". Foreign code appears as function-valued parameters or
`const` fields with no axioms. This covers the encoder, SHA-256, the FAISS HNSW
search, the chat model, langdetect, dateparser, `html.unescape`, difflib's ratio, and
ISO parsing and formatting.

Where the code and its documentation differ, the model follows the code:

- `_apply_mmr` with `k = 0` still returns one document, because the first pick is
  made before the loop. `Retriever.MmrSize` states this, and `retrieve` then cuts the
  result to `k_final`.
- `query` passes `processed.get("language", "fr")`. `process_query` always sets the
  language, so the model passes the merged language and the "fr" default never
  applies.
- The three defects under "## Findings" stay in the main path as the code has them:
  `clean_event` keeps a record without uid, `process_query` reads "le mois prochain"
  as this month, and the context shows "Price: None". Each corrected version is a
  separate definition with its intended property proved, and nothing else uses it.

## Model

| member | source | states |
|---|---|---|
| Text.LowerIdempotent | rag/ingest/schema.py:85-87 | `str.lower` (on the modelled letters) maps each character and lower-casing twice changes nothing |
| Text.Strip | rag/ingest/schema.py:85-87 | `str.strip` leaves no whitespace at either end and never lengthens the text |
| Text.StripIsSlice | rag/ingest/cleaning.py:94 | `str.strip` returns a contiguous part of its input |
| Text.NatToStringInjective | rag/index/faiss_index.py:95-98 | distinct positions get distinct `str(i)` keys |
| Schema.NormalizedTitleShape | rag/ingest/schema.py:85-87 | the deduplication title has no surrounding whitespace and no capital letter |
| Schema.DescriptionExcerpt | rag/ingest/schema.py:96-101 | a long description of at most 800 characters is embedded whole; a longer one as its first 800 characters followed by "..." |
| Schema.LocationLineParts | rag/ingest/schema.py:103-107 | the location line contains the venue, the city and a set arrondissement, and is exactly "venue, city" when both are present and there is no arrondissement |
| Schema.ShownTags | rag/ingest/schema.py:112-113 | at most five tags are shown, a prefix of the event's tags, and all of them when there are at most five |
| Schema.MetadataLineContents | rag/ingest/schema.py:115-126 | the metadata line shows "price: free" for a free event, otherwise "price: <bucket>" when a bucket is set, and always ends with "city: <city>" |
| Schema.DocumentTextShape | rag/ingest/schema.py:89-128 | the embedded text starts with the title line, contains the description excerpt when there is a long description, and contains the metadata line |
| Schema.MetadataOf | rag/ingest/schema.py:130-147 | the stored metadata carries the start as ISO text, and an end exactly when the event has one |
| Cleaning.ReplaceTags | rag/ingest/cleaning.py:88-89 | after tag replacement no complete `<…>` tag is left, and no '>' appears that was not in the input |
| Cleaning.CollapseSpace | rag/ingest/cleaning.py:91-92 | after whitespace collapsing only single plain spaces separate words, and tag-freeness is kept |
| Cleaning.StripKeepsClean | rag/ingest/cleaning.py:94 | trimming a single-spaced, tag-free text keeps it single-spaced and tag-free |
| Cleaning.StripHtml | rag/ingest/cleaning.py:82-94 | empty input gives ""; the result has no surrounding whitespace, no two whitespace characters in a row and no tag |
| Cleaning.CategoryAt | rag/ingest/cleaning.py:19-70 | every key of the category table maps to a value of the taxonomy |
| Cleaning.FirstKey | rag/ingest/cleaning.py:110-112 | the key found is the first, in table order, that occurs in the term; no earlier key occurs |
| Cleaning.FirstMatchingTerm | rag/ingest/cleaning.py:109-112 | the term found is the first in which some key occurs; no earlier term contains any key |
| Cleaning.LowerAll | rag/ingest/cleaning.py:107 | each term is lower-cased, position by position |
| Cleaning.KeyMatch | rag/ingest/cleaning.py:109-114 | there is no match exactly when no key occurs in any term; otherwise the key returned is the first key of the first matching term |
| Cleaning.NormalizeCategory | rag/ingest/cleaning.py:97-114 | the result is None or a taxonomy value, and it is the value of the key the scan over lower-cased categories then tags finds first |
| Cleaning.FirstTermMatch | rag/ingest/cleaning.py:109-112 | categories are scanned before tags: when the first term matches, its first key decides |
| Cleaning.NormalizeCategoryMusicExample | rag/ingest/cleaning.py:97-114 | ["Concert", "Live Music"] with tag "jazz" normalises to "music" |
| Cleaning.NormalizeCategoryTheaterExample | rag/ingest/cleaning.py:97-114 | ["Théâtre"] normalises to "theater" through its accented key |
| Cleaning.AmountValue | rag/ingest/cleaning.py:139 | the value of an amount lies between its integer part and the next integer |
| Cleaning.AmountAt | rag/ingest/cleaning.py:136 | a match of the euro pattern ends with '€' and starts with the maximal run of digits at that position |
| Cleaning.EuroAmounts | rag/ingest/cleaning.py:136 | every amount found is well formed, and a text without '€' yields none |
| Cleaning.Values | rag/ingest/cleaning.py:139 | one number per amount, in order |
| Cleaning.Min | rag/ingest/cleaning.py:140 | the minimum is one of the values and no value is smaller |
| Cleaning.PriceBucket | rag/ingest/cleaning.py:117-153 | free events are "free"; no price text gives None; otherwise any euro amount decides by the cheapest (<10 low, <30 medium, else high), and only without amounts do the keywords "gratuit"/"free"/"libre" give "free" |
| Cleaning.SingleAmountBucket | rag/ingest/cleaning.py:136-147 | a price text that is one whole euro amount falls in that amount's bucket |
| Cleaning.BucketOfTwoDigitPrice | rag/ingest/cleaning.py:136-147 | a two-digit euro amount is bucketed by its numeric value |
| Cleaning.LowPriceExample | rag/ingest/cleaning.py:142-143 | "5€" is low |
| Cleaning.MediumPriceExample | rag/ingest/cleaning.py:144-145 | "15€" is medium |
| Cleaning.FirstPostalMatch | rag/ingest/cleaning.py:168 | the first position where `750NN` matches; none matches before it |
| Cleaning.FirstAddressMatch | rag/ingest/cleaning.py:176 | the first position where the address pattern matches, with its one or two digits; none matches before it |
| Cleaning.PostalArrondissement | rag/ingest/cleaning.py:167-172 | a number from the postal code is always in 1..20 |
| Cleaning.AddressArrondissement | rag/ingest/cleaning.py:175-178 | the address gives one or two digits, unchecked |
| Cleaning.ExtractArrondissement | rag/ingest/cleaning.py:156-180 | an in-range postal code wins with "<n>e" (no leading zero); otherwise the address digits followed by "e"; None exactly when neither gives a number |
| Cleaning.PostalCodeOnly | rag/ingest/cleaning.py:168-172 | "750NN" names NN exactly when 1 <= NN <= 20 |
| Cleaning.PostalExample | rag/ingest/cleaning.py:167-172 | postal code "75011" gives "11e" |
| Cleaning.PostalLeadingZeroExample | rag/ingest/cleaning.py:170-172 | postal code "75001" gives "1e" |
| Cleaning.AddressFallbackUnchecked | rag/ingest/cleaning.py:175-178 | the address fallback is not range-checked: "99e arrondissement" gives "99e" |
| Cleaning.OrElse | rag/ingest/cleaning.py:220 | `a or b` is truthy exactly when one of them is, and is `a` when `a` is truthy |
| Cleaning.PresentItems | rag/ingest/cleaning.py:282 | the None entries are dropped and every other entry kept |
| Cleaning.PresentItemsAppend | rag/ingest/cleaning.py:282 | dropping the null entries keeps the order: a concatenation's entries are those of its first part followed by those of its second |
| Cleaning.PresentItemsFirst | rag/ingest/cleaning.py:282 | the first kept entry is the first non-null one, so `normalize_category`'s first match sees the entries in the record's order |
| Cleaning.ListItems | rag/ingest/cleaning.py:275-279 | a scalar becomes a one-element list when truthy, else the empty list |
| Cleaning.Truncated | rag/ingest/cleaning.py:346-347 | an empty text becomes None; otherwise a prefix of at most n characters |
| Cleaning.FreeFlag | rag/ingest/cleaning.py:302-307 | price text containing "gratuit" (any case) makes the event free |
| Cleaning.EventIdAsWritten | rag/ingest/cleaning.py:213 | a missing uid becomes the identifier "None" |
| Cleaning.MissingUidAcceptedAsWritten | rag/ingest/cleaning.py:213-216 | as written, a record without uid is not rejected by the identifier check and is kept with identifier "None" |
| Cleaning.CleanEventAsWrittenAcceptance | rag/ingest/cleaning.py:202-377 | `clean_event` as written drops a record exactly when its uid is the empty text or a rule of `CleanFieldsRejects` applies; an accepted event carries `str(uid)` ("None" for a missing uid) and the properties of `CleanFieldsDerived` |
| Cleaning.CleanFieldsRejects | rag/ingest/cleaning.py:218-377 | after the identifier check, a record is dropped exactly when its title is empty after stripping, it has no timings, its first timing has no start, its location is null or has no real venue name, a date does not parse, or the `Event` constructor refuses a null `city`, `countryCode`, `allDay` or `lang` |
| Cleaning.CleanFieldsDerived | rag/ingest/cleaning.py:218-373 | every event built after the identifier check carries that identifier, a non-empty single-spaced title, descriptions of at most 500 and 2000 characters (never empty), a real venue, the free bucket when free, free when the price says "gratuit", a taxonomy category or none, the extracted arrondissement, and the defaults "Paris", "FR", not all-day and ["fr"] exactly where the key is missing |
| Cleaning.CleanEventAcceptance | rag/ingest/cleaning.py:202-377 | for the corrected identifier check only: a record is dropped exactly when its uid is missing or empty or a rule of `CleanFieldsRejects` applies |
| Cleaning.CleanEventDerived | rag/ingest/cleaning.py:213-373 | for the corrected identifier check only: an accepted event carries its non-empty uid and the properties of `CleanFieldsDerived` |
| Deduplication.IdLeTotal | rag/ingest/deduplication.py:39 | string order on identifiers is total |
| Deduplication.IdLeTransitive | rag/ingest/deduplication.py:39 | string order on identifiers is transitive |
| Deduplication.Insert | rag/ingest/deduplication.py:39 | inserting into a sorted list keeps it sorted and adds exactly that event |
| Deduplication.SortById | rag/ingest/deduplication.py:39 | sorting by `event_id` gives a sorted permutation of the input |
| Deduplication.KeySetAppend | rag/ingest/deduplication.py:51-75 | the set of seen keys after keeping an event is the old set plus that event's key |
| Deduplication.DedupSubsequence | rag/ingest/deduplication.py:44-76 | the kept events are an order-preserving subsequence of the scanned ones |
| Deduplication.DedupNoDuplicates | rag/ingest/deduplication.py:44-76 | no kept event is a duplicate of an earlier kept one |
| Deduplication.DedupDroppedHasWitness | rag/ingest/deduplication.py:52-72 | every dropped event has an earlier kept event it duplicates |
| Deduplication.DedupKeepsFirst | rag/ingest/deduplication.py:44-76 | the first scanned event is always kept |
| Deduplication.DedupStep | rag/ingest/deduplication.py:44-76 | one loop iteration keeps the event exactly when it duplicates no kept event |
| Deduplication.FindSimilar | rag/ingest/deduplication.py:57-72 | the fuzzy scan reports a duplicate exactly when some kept event has the same start date, the same normalised venue and title similarity at least the threshold |
| Deduplication.DuplicateChecks | rag/ingest/deduplication.py:50-72 | an event is skipped exactly when its exact key was seen or the fuzzy scan finds a similar kept event |
| Deduplication.DeduplicateEvents | rag/ingest/deduplication.py:25-83 | the loop's result is the specification's deduplicated list |
| Deduplication.DeduplicatedProperties | rag/ingest/deduplication.py:35-76 | empty input gives [] and only then; the result is sorted by `event_id`, no longer than the input, drawn from it, holds no two duplicates, and starts with the smallest identifier |
| Deduplication.DroppedHasSmallerKept | rag/ingest/deduplication.py:39-76 | a dropped event is a duplicate of a kept event with an identifier no larger, so the smallest identifier of a duplicate group survives |
| Deduplication.AloneInSlotKept | rag/ingest/deduplication.py:47-61 | an event no other event shares its start date and venue with is always kept: events differing in date or venue are never merged |
| QueryProcessor.FirstEntry | rag/pipeline/query_processor.py:236-239 | the entry found is the first, in table order, with a keyword in the text; no earlier entry has one |
| QueryProcessor.FirstMatch | rag/pipeline/query_processor.py:234-241 | None exactly when no keyword of any entry occurs in the lower-cased query; otherwise the name of the first entry with one |
| QueryProcessor.ExtractCategory | rag/pipeline/query_processor.py:225-241 | the category returned is one of the table's names, or None |
| QueryProcessor.CategoryIsFirstMatch | rag/pipeline/query_processor.py:225-241 | the category is the first in table order with a keyword that is a substring of the lower-cased query, and None when no keyword occurs (lines 18-91 of the same file give the data it uses) |
| QueryProcessor.PriceConstraintCases | rag/pipeline/query_processor.py:243-259 | "free" exactly when a free keyword occurs; "cheap" exactly when no free keyword but a cheap one occurs; None when neither (lines 94-97 of the same file give the data it uses) |
| QueryProcessor.ExtractPriceConstraint | rag/pipeline/query_processor.py:243-259 | the price constraint is "free", "cheap" or None |
| QueryProcessor.HipHopIsMusic | rag/pipeline/query_processor.py:236-239 | "hip-hop" is a dance keyword too, yet yields music (lines 18-91 of the same file give the data it uses) |
| QueryProcessor.MusicFirst | rag/pipeline/query_processor.py:236-239 | any music keyword settles the category as music (lines 18-19 of the same file give the data it uses) |
| QueryProcessor.DigitRun | rag/pipeline/query_processor.py:100-102 | the number group is one or two digits |
| QueryProcessor.FirstInRange | rag/pipeline/query_processor.py:270-275 | the first match position whose number is in 1..20; no earlier match is in range |
| QueryProcessor.FirstArrondissement | rag/pipeline/query_processor.py:261-277 | the result is in 1..20, is the number of the first in-range match (out-of-range matches are skipped), and is None exactly when no match is in range |
| QueryProcessor.ExtractQueryArrondissement | rag/pipeline/query_processor.py:261-277 | the arrondissement is in 1..20, and is None exactly when no match in the lower-cased query is in range |
| QueryProcessor.SuffixAtEnd | rag/pipeline/query_processor.py:100-102 | a number followed by an ordinal suffix that ends the query matches the pattern |
| QueryProcessor.ElevenExample | rag/pipeline/query_processor.py:261-277 | "11e" names the eleventh arrondissement |
| QueryProcessor.SkipsOutOfRangeExample | rag/pipeline/query_processor.py:272-275 | in "75 1er" the out-of-range 75 is skipped and 1 is returned |
| QueryProcessor.Epoch | rag/pipeline/query_processor.py:147 | the civil-date day numbering puts 1970-01-01 at day 0 |
| QueryProcessor.DaysWithinMonth | rag/pipeline/query_processor.py:197-204 | the days of a month have consecutive day numbers |
| QueryProcessor.MonthStep | rag/pipeline/query_processor.py:197-204 | the first of the following month comes exactly the month's length after the first of this month, for every month including February of leap and common years |
| QueryProcessor.FebruaryStep | rag/pipeline/query_processor.py:197-204 | March 1st comes 29 days after February 1st in a Gregorian leap year and 28 days otherwise |
| QueryProcessor.DaysUntilSaturday | rag/pipeline/query_processor.py:162-164 | the weekend offset is 0 to 7 days |
| QueryProcessor.DaysUntilMonday | rag/pipeline/query_processor.py:181-183 | the next-week offset is 1 to 7 days, never 0 |
| QueryProcessor.BranchWindow | rag/pipeline/query_processor.py:150-223 | every branch gives no window or a window whose start is before its end |
| QueryProcessor.ParseTemporalConstraints | rag/pipeline/query_processor.py:135-223 | the branch order as written (this-month before next-month) gives both bounds with start < end, or neither |
| QueryProcessor.NextMonthFrenchUnreachableAsWritten | rag/pipeline/query_processor.py:190-206 | as written, a query containing "mois prochain" never reaches the next-month branch; only the English "next month" does |
| QueryProcessor.ThisMonthFirstAsWritten | rag/pipeline/query_processor.py:190-195 | as written, the next-month branch needs no this-month phrase to occur |
| QueryProcessor.MoisInside | rag/pipeline/query_processor.py:190-195 | a query holding any phrase that starts with "mois" ("mois prochain", the tail of "le mois prochain") holds the this-month phrase "mois" |
| QueryProcessor.ParseTemporalIntended | rag/pipeline/query_processor.py:135-223 | the corrected half only: with the next-month group tried first, the result is both bounds with start < end, or neither |
| QueryProcessor.TemporalBranchCorrected | rag/pipeline/query_processor.py:190-206 | the corrected order agrees with the written one except on queries holding both a this-month and a next-month phrase, and sends "mois prochain" to next month |
| QueryProcessor.TodayAndTomorrow | rag/pipeline/query_processor.py:150-158 | "today" is the local day containing now, one day long from local midnight; "tomorrow" is the following day |
| QueryProcessor.WeekendWindow | rag/pipeline/query_processor.py:160-169 | the weekend starts at the local midnight of a Saturday `(5 − weekday) mod 7` days ahead, a full week ahead exactly when today is Saturday past noon, and lasts two days |
| QueryProcessor.NextWeekWindow | rag/pipeline/query_processor.py:176-188 | next week starts at the local midnight of a Monday 1 to 7 days ahead and lasts seven days |
| QueryProcessor.ThisWeekAndMonth | rag/pipeline/query_processor.py:171-193 | "this week" and "this month" start at today's midnight, contain now and last 7 and 30 days |
| QueryProcessor.NextMonthWindow | rag/pipeline/query_processor.py:195-206 | next month starts at the local midnight of the first of the following month (December rolls to January of the next year), lasts 30 days and starts after now |
| QueryProcessor.DetectLanguage | rag/pipeline/query_processor.py:118-133 | the language is "fr", "en" or the default; a detected "fr"/"en" is kept, a failed detection gives the default |
| QueryProcessor.ProcessQuery | rag/pipeline/query_processor.py:279-306 | the result keeps the original query and carries exactly the detected language, the window of the branch order as written, the first table category, the price constraint and the arrondissement; so the language is "fr", "en" or the default, the window is well formed, the price is "free"/"cheap" and the arrondissement is in 1..20 when present |
| Retriever.Check | rag/pipeline/retriever.py:65-107 | one loop body keeps a document exactly when it passes the city, date, category, price and arrondissement rules |
| Retriever.FilterByMetadata | rag/pipeline/retriever.py:42-109 | the filter loop returns the documents that pass, in input order |
| Retriever.KeptIsOrderedSelection | rag/pipeline/retriever.py:62-109 | the result is an order-preserving subsequence of the input holding exactly the documents that pass every rule |
| Retriever.NoConstraintKeepsAll | rag/pipeline/retriever.py:62-109 | with every constraint unset every document is kept |
| Retriever.DateWindowKept | rag/pipeline/retriever.py:72-82 | with a date bound set, a kept document's start parses and satisfies `start_date <= start < end_date` for the bounds present; a document whose start cannot be parsed or compared is dropped |
| Retriever.FieldRulesKept | rag/pipeline/retriever.py:67-105 | a kept document matches the city exactly, has the category as `category_norm` or as a lower-cased raw category, is free for "free", free or bucket free/low for "cheap", and has arrondissement "<n>e" for a non-zero n |
| Retriever.Range | rag/pipeline/retriever.py:145 | `list(range(n))` |
| Retriever.RemainingHas | rag/pipeline/retriever.py:145-173 | an index remains exactly when it is in range and not yet selected |
| Retriever.RemainingSize | rag/pipeline/retriever.py:145-173 | after selecting distinct indices, n minus their number remain |
| Retriever.RemoveFromRemaining | rag/pipeline/retriever.py:150-173 | removing the pick from the remaining list leaves the remaining list of the new selection |
| Retriever.BestPosition | rag/pipeline/retriever.py:148-171 | the position of the first maximal score: no score is larger and every earlier one is smaller |
| Retriever.MaxSimilarity | rag/pipeline/retriever.py:161-164 | the largest similarity to a selected document, attained by one of them |
| Retriever.MmrScoreAt | rag/pipeline/retriever.py:158-167 | the MMR score of a candidate is `λ·relevance − (1−λ)·max similarity to the selection` |
| Retriever.NextPick | rag/pipeline/retriever.py:153-173 | each later pick is a fresh index in range |
| Retriever.MmrPicks | rag/pipeline/retriever.py:144-173 | after r rounds, r + 1 distinct in-range indices are selected |
| Retriever.MmrPicksStep | rag/pipeline/retriever.py:153-173 | each round appends the next pick to the selection |
| Retriever.Pick | rag/pipeline/retriever.py:175 | the selected documents in selection order |
| Retriever.MaxSimilarityOf | rag/pipeline/retriever.py:161-164 | the loop computing the maximum similarity agrees with its specification |
| Retriever.BestRemaining | rag/pipeline/retriever.py:154-171 | one round's scan over the remaining indices returns the next pick |
| Retriever.FirstRound | rag/pipeline/retriever.py:144-150 | the first round selects the most relevant index and leaves the others remaining |
| Retriever.ApplyMmr | rag/pipeline/retriever.py:111-175 | the selection loop returns the specification's MMR ranking |
| Retriever.MmrSize | rag/pipeline/retriever.py:144-175 | at most k documents come back unchanged; otherwise k distinct picks (one when k is 0), all drawn from the input (lines 131-132 of the same file give the data it uses) |
| Retriever.MmrFirstPick | rag/pipeline/retriever.py:148 | the first pick has maximal relevance, the earliest on ties |
| Retriever.MmrLaterPick | rag/pipeline/retriever.py:153-173 | each later pick is unselected and has the maximal MMR score among unselected indices, the earliest on ties |
| Retriever.MmrTake | rag/pipeline/retriever.py:264-278 | after MMR, the first k of the ranking are exactly k documents from the input |
| Retriever.Occurrences | rag/pipeline/retriever.py:189-195 | a venue/start key occurs at most once per document |
| Retriever.MaxCount | rag/pipeline/retriever.py:198 | the largest count, attained by some key, or 0 for no keys |
| Retriever.CheckVenueDiversity | rag/pipeline/retriever.py:177-199 | true for at most two documents; otherwise true exactly when no venue/start key occurs more than `len // 2` times |
| Retriever.Relevance | rag/pipeline/retriever.py:141 | one relevance per document |
| Retriever.Similarity | rag/pipeline/retriever.py:162 | a square similarity matrix, one row and column per document |
| Retriever.HitDocuments | rag/pipeline/retriever.py:233 | the documents of the search hits, in order |
| Retriever.Retrieve | rag/pipeline/retriever.py:201-278 | the `retrieve` flow returns the specification's result |
| Retriever.RetrievedFromProperties | rag/pipeline/retriever.py:252-278 | MMR runs only when more than `k_final` documents passed; at most `k_final` pass through unchanged, more are cut to exactly `k_final`, all drawn from the filtered list |
| Retriever.RetrievedProperties | rag/pipeline/retriever.py:225-278 | no hits or nothing left after filtering gives []; never more than `k_final` documents; every document returned is a hit that passes the filter |
| Embeddings.CacheKey | rag/index/embeddings.py:49-59 | the cache key is the text's hex digest followed by ".npy" |
| Embeddings.CacheKeyInjective | rag/index/embeddings.py:49-59 | two texts share a cache key exactly when their digests agree, so the key is a deterministic function of the text |
| Embeddings.InputPrefixes | rag/index/embeddings.py:184-186 | E5 models get "passage: " before documents and "query: " before queries; other models get the text unchanged; the text always ends the input (lines 139-143 of the same file give the data it uses) |
| Embeddings.Lookup | rag/index/embeddings.py:61-82 | a cached row is found exactly when caching is on and the file exists and loads; a file that fails to load is a miss |
| Embeddings.Misses | rag/index/embeddings.py:118-130 | the indices sent to the encoder are in range and no more than the texts |
| Embeddings.MissesSnoc | rag/index/embeddings.py:119-130 | the cache scan appends an index exactly when that text is a miss |
| Embeddings.MissesIncreasing | rag/index/embeddings.py:119-130 | misses keep their original relative order |
| Embeddings.MissesHas | rag/index/embeddings.py:119-130 | a text is sent to the encoder exactly when it is a cache miss |
| Embeddings.NoCacheEncodesAll | rag/index/embeddings.py:120 | without caching every text is sent, in order |
| Embeddings.EncoderBatch | rag/index/embeddings.py:139-152 | the encoder is called once, with one (prefixed) input per miss |
| Embeddings.Embedded | rag/index/embeddings.py:101-173 | one embedding per input text; no texts give no rows |
| Embeddings.CacheSlotsSnoc | rag/index/embeddings.py:119-126 | the scan fills a slot from the cache exactly for a hit |
| Embeddings.ScatteredStep | rag/index/embeddings.py:155-163 | each encoded row goes to the slot of its original index |
| Embeddings.ScatterGather | rag/index/embeddings.py:114-166 | after the scatter every slot is filled, and the rows are the cached row for a hit and the encoder's row for a miss |
| Embeddings.SaveAllStep | rag/index/embeddings.py:155-161 | each freshly encoded row is written under its text's key |
| Embeddings.SaveAllSaved | rag/index/embeddings.py:155-161 | after writing back, every miss is a cache hit |
| Embeddings.SaveAllOther | rag/index/embeddings.py:155-161 | writing back leaves keys of other texts untouched |
| Embeddings.SaveAllContents | rag/index/embeddings.py:155-161 | with an injective digest, a miss is later found with exactly the row the encoder gave it |
| Embeddings.RepeatCallHits | rag/index/embeddings.py:119-161 | a second call on the same texts with caching sends nothing to the encoder |
| Embeddings.RepeatCallRow | rag/index/embeddings.py:119-161 | after a caching call each text is a hit and, with an injective digest, embeds the same as before |
| Embeddings.RepeatCallSameResult | rag/index/embeddings.py:101-173 | with an injective digest, a repeat caching call returns the same rows |
| Embeddings.EmbeddingGenerator.constructor | rag/index/embeddings.py:17-41 | a new generator records the model name and whether a cache directory was given, and starts from the files already in that directory |
| Embeddings.EmbeddingGenerator.SaveToCache | rag/index/embeddings.py:84-99 | the file is written under its key only when there is a cache directory, and then loads back |
| Embeddings.EmbeddingGenerator.CheckCache | rag/index/embeddings.py:114-130 | the scan loop returns the cache slots, the miss indices and the texts to encode |
| Embeddings.EmbeddingGenerator.WriteBack | rag/index/embeddings.py:154-163 | the write-back loop fills the miss slots and, when caching, writes each fresh row to the cache; nothing else changes |
| Embeddings.EmbeddingGenerator.EmbedTexts | rag/index/embeddings.py:101-173 | `embed_texts` returns the specification's rows, sends exactly the misses to the encoder, and writes them to the cache only when caching |
| Embeddings.EmbeddingGenerator.EmbedQuery | rag/index/embeddings.py:175-194 | the query is encoded with the "query: " prefix for E5 models, unchanged otherwise |
| FaissIndex.DocumentsOf | rag/index/faiss_index.py:65-72 | one document per event, in event order |
| FaissIndex.DocstoreValues | rag/index/faiss_index.py:95 | after build the docstore maps "0".."n−1" to the documents in event order |
| FaissIndex.DocstoreKeys | rag/index/faiss_index.py:95 | the docstore has no other keys than "0".."n−1" |
| FaissIndex.Similarity | rag/index/faiss_index.py:236 | `1/(1+distance)` lies in (0, 1] |
| FaissIndex.SimilarityDecreasing | rag/index/faiss_index.py:236 | a smaller distance gives a larger similarity, and conversely, so rank order is kept |
| FaissIndex.SearchResults | rag/index/faiss_index.py:226-239 | at most one result per raw position |
| FaissIndex.ResultsAtLeast | rag/index/faiss_index.py:226-239 | when every raw distance is at most d, every result's similarity is at least that of d |
| FaissIndex.SearchKeepsRank | rag/index/faiss_index.py:226-239 | results keep the raw order: raw distances in ascending order give similarities in descending order |
| FaissIndex.ResolveAfterBuild | rag/index/faiss_index.py:227-237 | against a freshly built mapping and docstore, a position in range gives its document with its similarity, and -1 or an unknown position gives nothing (lines 95-98 of the same file give the data it uses) |
| FaissIndex.SearchAfterBuild | rag/index/faiss_index.py:226-239 | after build, raw positions all in range give one result each, the document at that position, in raw order (lines 95-98 of the same file give the data it uses) |
| FaissIndex.EmptyHitSkipped | rag/index/faiss_index.py:228-229 | a trailing -1 position adds no result |
| FaissIndex.ManifestKeys | rag/index/faiss_index.py:132-148 | the manifest has the six recorded keys plus the caller's keys plus `created_at`; caller metadata overrides recorded values, but `created_at` is always the save time |
| FaissIndex.SaveThenLoad | rag/index/faiss_index.py:156-199 | loading what was saved succeeds and restores the index (with efSearch set), the docstore and the mapping (lines 112-129 of the same file give the data it uses) |
| FaissIndex.MissingFileKeepsState | rag/index/faiss_index.py:167-169 | with a file missing, loading returns false and changes nothing |
| FaissIndex.FaissIndexManager.constructor | rag/index/faiss_index.py:43-49 | a new manager has no index, an empty docstore and an empty mapping |
| FaissIndex.FaissIndexManager.BuildIndex | rag/index/faiss_index.py:51-104 | empty input raises "No events to index" and changes nothing; otherwise the index holds the rows of the documents' texts, the docstore and mapping are set as built, the index and docstore are returned, and the embedding cache gains a file for every text that missed it when caching is on |
| FaissIndex.FaissIndexManager.Search | rag/index/faiss_index.py:205-239 | raises "Index not loaded" without an index; otherwise returns the post-processed hits for the prefixed query's embedding |
| FaissIndex.FaissIndexManager.SaveIndex | rag/index/faiss_index.py:106-154 | raises "No index to save" without an index and writes nothing; otherwise writes the index, docstore, mapping and the manifest built from the recorded values, the caller's metadata and the save time |
| FaissIndex.FaissIndexManager.LoadIndex | rag/index/faiss_index.py:156-203 | returns true exactly when all four files are present and load; the fields read before a failing file keep their new value, the others their old one |
| Generator.FiltersApplied | rag/pipeline/generator.py:291 | `constraints or {}`: the dict when it is present and non-empty, else the empty dict (the same expression is returned at lines 219 and 268 of the same file) |
| Generator.ConcatContains | rag/pipeline/generator.py:167-186 | every part of a concatenation occurs in it |
| Generator.ContextExcerpt | rag/pipeline/generator.py:106-109 | the description is shown whole up to 300 characters, otherwise as its first 300 followed by "..." |
| Generator.PriceNotSpecifiedUnreachableAsWritten | rag/pipeline/generator.py:67-71 | as written, a paying event without a bucket shows the price "None", never "Price not specified" |
| Generator.ContextPriceMatchesSummary | rag/pipeline/generator.py:67-71 | the corrected half only: the corrected context price is "Free" for a free event, agrees with the structured entry's price (lines 250-252 of the same file) whenever that is set, and is "Price not specified" exactly when it is not |
| Generator.PriceLineShown | rag/pipeline/generator.py:67-97 | the price line as written shows the structured entry's price when it has one, and "None" for a paying event without a bucket |
| Generator.EntrySplit | rag/pipeline/generator.py:87-109 | an entry is its number, title, date and venue lines, then its price line, then the categories, URL and description |
| Generator.ContextEntryShape | rag/pipeline/generator.py:88-109 | an entry opens with "Event i:" and the title, ends with the description excerpt, and shows at most the first three categories |
| Generator.ContextEntries | rag/pipeline/generator.py:56-111 | one entry per document |
| Generator.ContextHasEveryEntry | rag/pipeline/generator.py:56-113 | the context contains the entry of every document |
| Generator.ContextNumbersEveryDocument | rag/pipeline/generator.py:58-90 | entries are numbered from 1: document k appears as "Event k+1:" with its title |
| Generator.ContextShowsPrice | rag/pipeline/generator.py:56-113 | the context carries every document's price line as written |
| Generator.FormatContext | rag/pipeline/generator.py:45-113 | the formatting loop returns the specification's context, whose price lines are those of the code as written |
| Generator.ConstraintLine | rag/pipeline/generator.py:171-180 | a constraint line starts with "- " and its heading |
| Generator.ConstraintLines | rag/pipeline/generator.py:171-180 | at most one line per field |
| Generator.ConstraintLineIff | rag/pipeline/generator.py:171-180 | a field's line appears exactly when the field's value is truthy |
| Generator.UserPromptWithConstraints | rag/pipeline/generator.py:167-170 | the prompt starts with "User question:" and the query, followed by the "Constraints:" header when the constraints are truthy |
| Generator.UserPromptWithoutConstraints | rag/pipeline/generator.py:167-183 | without truthy constraints there is no header: "Available events:" follows the question directly |
| Generator.UserPromptHasContext | rag/pipeline/generator.py:183 | the prompt always contains "Available events:" followed by the context |
| Generator.UserPromptClosing | rag/pipeline/generator.py:184-186 | the prompt always ends with the closing request |
| Generator.BlockHasLine | rag/pipeline/generator.py:171-180 | the constraint block contains the line of every truthy field |
| Generator.UserPromptHasConstraintLine | rag/pipeline/generator.py:169-180 | with truthy constraints, the prompt contains the line of every truthy field |
| Generator.ConstraintTextStep | rag/pipeline/generator.py:171-180 | each field adds its line to the block exactly when its value is truthy |
| Generator.ConstraintText | rag/pipeline/generator.py:171-180 | the field loop returns the specification's constraint block |
| Generator.BuildUserPrompt | rag/pipeline/generator.py:151-188 | the prompt builder returns the specification's prompt |
| Generator.Summaries | rag/pipeline/generator.py:240-256 | one structured entry per document |
| Generator.Sources | rag/pipeline/generator.py:258-262 | no more sources than documents, and no source is the empty string |
| Generator.SourcesShape | rag/pipeline/generator.py:258-262 | the sources are the truthy URLs of the documents, in document order: a subsequence of the URLs, none empty, and every truthy URL included |
| Generator.FallbackItems | rag/pipeline/generator.py:281-286 | one item for each of the first three documents at most |
| Generator.FallbackAnswerShape | rag/pipeline/generator.py:274-286 | the fallback answer opens with the error header and lists each of the first three documents as "i. title - venue" |
| Generator.NoDocumentsAnswer | rag/pipeline/generator.py:208-220 | without documents the answer is the canned not-found text for the language, with no events, no sources and no error, whatever the model would answer |
| Generator.ReplyResult | rag/pipeline/generator.py:222-269 | on a reply the answer is the model's text, with one event per document in order (price "Free" when free, else the bucket), at most one source per document and no error |
| Generator.FailureResult | rag/pipeline/generator.py:271-294 | on a failure the answer is the fallback list, events and sources are empty and the error message is recorded |
| Generator.FiltersOnEveryPath | rag/pipeline/generator.py:291 | `filters_applied` is `constraints or {}` on every path (the same expression is returned at lines 219 and 268 of the same file) |
| Generator.ExtractEvents | rag/pipeline/generator.py:240-256 | the events loop returns one summary per document, in order |
| Generator.AppendFallbackItems | rag/pipeline/generator.py:281-286 | the fallback loop appends the items of the first three documents to the header |
| Generator.Generate | rag/pipeline/generator.py:190-294 | `generate` returns the specification's result on every path |
| Generator.Respond | rag/pipeline/generator.py:236-294 | the reply path and the failure path of `generate` return the specification's result for the model's answer |
| Pipeline.FromQuery | rag/pipeline/query_processor.py:294-302 | the processed dict carries the query processor's language, category and price, and both dates or neither |
| Pipeline.MergeRule | rag/pipeline/rag_pipeline.py:68-83 | merging raises exactly when a given date is rejected by `fromisoformat`; every truthy override replaces its entry, and an entry changes only where a truthy override gave it |
| Pipeline.FalsyOverridesKeep | rag/pipeline/rag_pipeline.py:68-83 | None, empty and zero overrides leave the inferred entries untouched |
| Pipeline.MergeIdempotent | rag/pipeline/rag_pipeline.py:68-83 | applying the same overrides again changes nothing more |
| Pipeline.RetrievalConstraints | rag/pipeline/rag_pipeline.py:88-96 | retrieval receives city "Paris" and the merged dates, category, price and arrondissement |
| Pipeline.GenerationConstraintsShape | rag/pipeline/rag_pipeline.py:104-110 | the generator's constraints dict has exactly the five keys, each truthy exactly when the merged value is set |
| Pipeline.TimingsConsistent | rag/pipeline/rag_pipeline.py:98-127 | with a clock that never goes back, the timings are non-negative, the total is at least retrieval plus generation, and the generator's result is unchanged |
| Pipeline.AnsweredRaises | rag/pipeline/rag_pipeline.py:62-83 | `query` raises exactly when a date override is rejected, and otherwise answers from the merged entries; the inferred entries are `process_query`'s as written |
| Pipeline.AnswerStages | rag/pipeline/rag_pipeline.py:85-129 | once merged, the question is answered from at most `k_final` documents retrieved under the merged constraints, the filters reported are the five-key dict, and no documents means no events |
| Pipeline.ApplyOverrides | rag/pipeline/rag_pipeline.py:68-83 | the override block gives the merged entries or the raised error |
| Pipeline.AnswerMerged | rag/pipeline/rag_pipeline.py:85-127 | retrieval, generation (with the context as written) and the timings give the specification's answer |
| Pipeline.Query | rag/pipeline/rag_pipeline.py:38-129 | `query` returns the specification's answer or error, built from `process_query` and `generate` as written |

## Left out

- Foreign services are opaque parameters with no axioms: the SentenceTransformer encoder, SHA-256, the FAISS HNSW search (`nearest`, `search`), the chat model, langdetect, dateparser's `search_dates`, dateutil parsing (`normalize_datetime`), `html.unescape`, difflib's ratio and `datetime.fromisoformat`. Their failures are `Option`/`Failure` results.
- Deduplication.DeduplicateEvents: the similarity function is unconstrained. The property that identical titles score 1.0 is not needed, because identical normalised keys are already caught by the exact-key set.
- Floating point: embeddings are sequences of reals, and the `+1e-8` normalisation and `float32` conversion in `embed_texts` and `_apply_mmr` are not modelled. MMR runs on given relevance and similarity reals, built with an exact dot product.
- Time zones: the current time is an instant with a fixed UTC offset and its local date. A daylight-saving change inside a window is not modelled. pytz `localize` and `astimezone` are folded into the offset, and the Paris-time `strftime` of the context is the `formatDate` parameter.
- Naive versus aware datetimes: an override date from `fromisoformat` is an instant. Comparing a naive datetime with an aware one raises `TypeError`, and the retriever catches this and drops the document. That outcome is part of what `parseIso` returning None stands for.
- Cleaning.CleanFieldsDerived: `normalize_datetime` is the `parseDatetime` parameter. Coordinates are taken as reals, and an unparsable start raises inside the source's `try`, which is modelled as a rejection.
- Retriever.Retrieve: the documents' embeddings come from an `embedPassages` function. It stands for `embed_texts` with its cache, whose stateful model is `Embeddings.EmbeddingGenerator.EmbedTexts`; the retriever does not thread the cache state through.
- Retriever.CheckVenueDiversity: `retrieve` only logs the result, so `Retriever.Retrieved` does not depend on it.
- Generator.NoDocumentsAnswer: the canned texts are those of the source. That the English and French texts differ, and so "English iff the language is en", is not stated as a lemma. The system prompt is likewise modelled as the tag `EnglishInstructions`/`FrenchInstructions`, chosen exactly when the language is "en". The chat model receives the tag in place of the prompt text.
- Generator.ConstraintText: the five `if` statements of `_build_user_prompt` are one loop over the five (key, heading) pairs, in the same order and with the same lines.
- Generator.Generate: an exception raised while building `events` or `sources` inside the `try` is not modelled. Only the model call can fail.
- FaissIndex.FaissIndexManager.SaveIndex: writing the files cannot fail in the model, and the `self.docstore is None` check is absent because the docstore is always a map.
- FaissIndex.FaissIndexManager.LoadIndex: a file read is present-and-loadable, present-but-unreadable, or missing. The `isinstance` check on the loaded index always holds.
- Embeddings.EmbeddingGenerator.SaveToCache: a failing `np.save` is not modelled, so the write always succeeds.
- Pipeline.TimingsConsistent: `time.time()` readings are a given record of six reals; the clock itself is not modelled.
- Text.LowerIdempotent: `Text.LowerChar` lower-cases only the ASCII and Latin-1 capitals. Python's `str.lower` covers all of Unicode (for example 'Œ' to 'œ'), so text with other capitals is lower-cased less in the model. This affects the keyword tables, the normalised titles and `re.IGNORECASE` matching.
- Text.IsDigit: `\d` is the ASCII digits only, and `Text.IsLetter`/`Text.IsWordChar` behind `\w` and `\b` cover ASCII and Latin-1 letters only. Python's `re` classes are Unicode-wide, so a word character such as 'œ' does not count as one here. This affects the arrondissement boundaries, the address pattern and the digits of euro amounts.
- Cleaning.AmountValue: a euro amount is an exact decimal real; the rounding of `float(...)` is not modelled.
- Cleaning.CleanFieldsRejects: only the null values the `Event` constructor refuses are modelled as rejections. Raw values are given by their `str()`, so pydantic's other coercion failures are not modelled, for example a number where a string is required or a `lang` list with non-string entries.
- Logging throughout, the web layer, the OpenAgenda HTTP client, file loading, evaluation and scripts are not part of this model.

## Findings

| source | as written | input that shows it | evidently intended | confidence | as-written member | corrected member |
|---|---|---|---|---|---|---|
| rag/ingest/cleaning.py:213-216 | `str(raw_event.get("uid"))` turns a missing uid into the string "None", which is truthy, so the check never rejects | a record with no `uid` key and otherwise valid fields is kept with event id "None" | a record without uid is skipped | high, not executed | Cleaning.MissingUidAcceptedAsWritten | Cleaning.CleanEventAcceptance |
| rag/pipeline/query_processor.py:190-206 | the this-month group contains "mois", which also occurs in "mois prochain" and "le mois prochain", so the this-month branch catches them first | "concerts le mois prochain" gives the 30 days from today, not next month | French next-month phrases reach the next-month branch | high, not executed | QueryProcessor.NextMonthFrenchUnreachableAsWritten | QueryProcessor.TemporalBranchCorrected |
| rag/pipeline/generator.py:67-71 | `metadata.get("price_bucket", "Price not specified")` returns None, because the key is always present, so the context shows "Price: None" | a paying event whose `price_bucket` is None | "Price: Price not specified" | medium, not executed | Generator.PriceNotSpecifiedUnreachableAsWritten | Generator.ContextPriceMatchesSummary |
