/** The answer generator around the chat model: the context and prompt builders, the
    answer when nothing was retrieved, the structured result on success, and the
    fallback answer when the model call fails. The model is an opaque function from
    the (system, user) prompt pair to a reply or a failure. */
module Generator {
  import opened Text
  import opened Schema
  import Seqs

  /** A value of the constraints dictionary. `Moment` is a datetime, always truthy,
      carried with the text `str()` gives for it. */
  datatype Value = Str(s: string) | Num(n: int) | Moment(shown: string) | Null

  type ConstraintDict = map<string, Value>

  predicate TruthyValue(v: Value) {
    match v
    case Str(s) => s != ""
    case Num(n) => n != 0
    case Moment(_) => true
    case Null => false
  }

  /** `constraints.get(key)` */
  function Get(c: ConstraintDict, key: string): Value {
    if key in c then c[key] else Null
  }

  /** What an f-string shows for a value. */
  function Show(v: Value): string {
    match v
    case Str(s) => s
    case Num(n) => IntToString(n)
    case Moment(shown) => shown
    case Null => "None"
  }

  /** Truthiness of the optional dictionary: given and non-empty. */
  predicate DictTruthy(c: Option<ConstraintDict>) {
    c.Some? && c.value != map[]
  }

  /** `constraints or {}` */
  function FiltersApplied(c: Option<ConstraintDict>): (f: ConstraintDict)
    ensures DictTruthy(c) ==> f == c.value
    ensures !DictTruthy(c) ==> f == map[]
  {
    if DictTruthy(c) then c.value else map[]
  }

  /** One entry of the structured `events` list. */
  datatype EventSummary = EventSummary(
    title: string, startDatetime: string, venueName: string, city: string,
    arrondissement: Option<string>, price: Option<string>, url: Option<string>,
    categories: seq<string>)

  /** What the chat model returns: the reply text, or the exception it raised. */
  datatype LlmReply = Reply(content: string) | Failure(message: string)

  /** The dictionary `generate` returns; `error` is present only on the fallback path. */
  datatype Generation = Generation(
    answer: string, events: seq<EventSummary>, sources: seq<string>,
    filtersApplied: ConstraintDict, error: Option<string>)

  /** Concatenation of a list of strings, built from the front. */
  function Concat(parts: seq<string>): string {
    if parts == [] then "" else Concat(parts[..|parts| - 1]) + parts[|parts| - 1]
  }

  lemma {:induction false} ConcatContains(parts: seq<string>, i: nat)
    requires i < |parts|
    ensures Contains(Concat(parts), parts[i])
  {
    var front := parts[..|parts| - 1];
    if i == |parts| - 1 {
      ContainsSuffix(Concat(front), parts[i]);
    } else {
      ConcatContains(front, i);
      ContainsGrow([], Concat(front), parts[|parts| - 1], parts[i]);
      assert [] + Concat(front) + parts[|parts| - 1] == Concat(parts);
    }
  }

  // ---- context ----------------------------------------------------------------------

  /** The description shown to the model: at most 300 characters, then "..." when cut. */
  function ContextExcerpt(content: string): (r: string)
    ensures |content| <= 300 ==> r == content
    ensures |content| > 300 ==> |r| == 303 && r[..300] == content[..300] && r[300..] == "..."
  {
    if |content| > 300 then content[..300] + "..." else content
  }

  /** The price line of a context entry as written: a stored bucket of None is shown
      as "None", since the metadata always has the key and the default never applies. */
  function ContextPriceAsWritten(m: Metadata): string {
    if m.isFree then "Free"
    else match m.priceBucket
      case Some(b) => b
      case None => "None"
  }

  /** The price a context entry is meant to show: "Free", the bucket, or "Price not
      specified" when there is no bucket. `PriceLine` uses the price as written. */
  function ContextPrice(m: Metadata): string {
    if m.isFree then "Free"
    else match m.priceBucket
      case Some(b) => b
      case None => "Price not specified"
  }

  /** The price of the structured event entry. */
  function SummaryPrice(m: Metadata): Option<string> {
    if m.isFree then Some("Free") else m.priceBucket
  }

  /** An event without a price bucket is shown to the model as costing "None". */
  lemma PriceNotSpecifiedUnreachableAsWritten(m: Metadata)
    requires !m.isFree && m.priceBucket.None?
    ensures ContextPriceAsWritten(m) == "None"
    ensures ContextPriceAsWritten(m) != "Price not specified"
  {
  }

  /** The corrected context price agrees with the structured entry's price, and falls
      back to "Price not specified" exactly when that price is missing. */
  lemma ContextPriceMatchesSummary(m: Metadata)
    ensures SummaryPrice(m).Some? ==> ContextPrice(m) == SummaryPrice(m).value
    ensures SummaryPrice(m).None? <==> (!m.isFree && m.priceBucket.None?)
    ensures SummaryPrice(m).None? ==> ContextPrice(m) == "Price not specified"
    ensures m.isFree ==> ContextPrice(m) == "Free"
  {
  }

  /** The opening of a context entry: its number and the title. */
  function EntryHead(i: nat, m: Metadata): string {
    "\nEvent " + NatToString(i) + ":\nTitle: " + m.title
  }

  /** The date and venue lines of a context entry; `formatDate` stands for the ISO parse
      and Paris-time rendering, None when the parse raises (the raw text is then shown). */
  function EntryWhere(m: Metadata, formatDate: string -> Option<string>): string {
    var dateText := match formatDate(m.startDatetime) case Some(t) => t case None => m.startDatetime;
    "\nDate: " + dateText
    + "\nVenue: " + m.venueName + ", " + m.city
    + (if Truthy(m.arrondissement) then " (" + m.arrondissement.value + ")" else "")
  }

  /** The price line of a context entry, as the source writes it. */
  function PriceLine(m: Metadata): string {
    "\nPrice: " + ContextPriceAsWritten(m)
  }

  /** The optional category and URL lines of a context entry. */
  function EntryExtras(m: Metadata): string {
    (if m.categories != [] then "\nCategories: " + Join(", ", Take(m.categories, 3)) else "")
    + (if Truthy(m.url) then "\nURL: " + m.url.value else "")
  }

  /** The middle of a context entry: date and venue, price, categories and URL. */
  function EntryBody(m: Metadata, formatDate: string -> Option<string>): string {
    EntryWhere(m, formatDate) + PriceLine(m) + EntryExtras(m)
  }

  /** The closing of a context entry: the (possibly cut) description. */
  function EntryTail(content: string): string {
    "\nDescription: " + ContextExcerpt(content)
  }

  /** One entry of `_format_context`. */
  function ContextEntry(i: nat, d: Document, formatDate: string -> Option<string>): string {
    EntryHead(i, d.metadata) + EntryBody(d.metadata, formatDate) + EntryTail(d.pageContent)
  }

  /** Each entry opens with its 1-based number and the title, names at most three
      categories (the first ones), and closes with the description cut to 300 characters. */
  lemma ContextEntryShape(i: nat, d: Document, formatDate: string -> Option<string>)
    ensures var e := ContextEntry(i, d, formatDate);
      var head := "\nEvent " + NatToString(i) + ":\nTitle: " + d.metadata.title;
      var tail := "\nDescription: " + ContextExcerpt(d.pageContent);
      && |head| + |tail| <= |e|
      && e[..|head|] == head
      && e[|e| - |tail|..] == tail
    ensures var shown := Take(d.metadata.categories, 3);
      |shown| <= 3 && shown <= d.metadata.categories
  {
    var head := EntryHead(i, d.metadata);
    var rest := EntryBody(d.metadata, formatDate) + EntryTail(d.pageContent);
    assert ContextEntry(i, d, formatDate) == head + rest;
  }

  /** The entries of `_format_context`, numbered from 1. */
  function ContextEntries(documents: seq<Document>, formatDate: string -> Option<string>): (r: seq<string>)
    ensures |r| == |documents|
  {
    seq(|documents|, i requires 0 <= i < |documents| => ContextEntry(i + 1, documents[i], formatDate))
  }

  /** `_format_context`: the entries joined by blank lines. */
  function Context(documents: seq<Document>, formatDate: string -> Option<string>): string {
    Join("\n\n", ContextEntries(documents, formatDate))
  }

  /** Every document's entry is part of the context. */
  lemma ContextHasEveryEntry(documents: seq<Document>, formatDate: string -> Option<string>, k: nat)
    requires k < |documents|
    ensures Contains(Context(documents, formatDate), ContextEntry(k + 1, documents[k], formatDate))
  {
    JoinContainsPart("\n\n", ContextEntries(documents, formatDate), k);
  }

  /** Every document appears in the context under its own number. */
  lemma ContextNumbersEveryDocument(documents: seq<Document>, formatDate: string -> Option<string>, k: nat)
    requires k < |documents|
    ensures Contains(Context(documents, formatDate),
                     "\nEvent " + NatToString(k + 1) + ":\nTitle: " + documents[k].metadata.title)
  {
    var e := ContextEntry(k + 1, documents[k], formatDate);
    var head := "\nEvent " + NatToString(k + 1) + ":\nTitle: " + documents[k].metadata.title;
    ContextHasEveryEntry(documents, formatDate, k);
    ContextEntryShape(k + 1, documents[k], formatDate);
    assert e == head + e[|head|..];
    ContainsShorter(Context(documents, formatDate), head, e[|head|..]);
  }

  /** The price line says what the structured entry's price says, and "None" for a
      paying event without a bucket. */
  lemma PriceLineShown(m: Metadata)
    ensures SummaryPrice(m).Some? ==> PriceLine(m) == "\nPrice: " + SummaryPrice(m).value
    ensures SummaryPrice(m).None? ==> PriceLine(m) == "\nPrice: None"
  {
  }

  /** The context carries the price line of every document. */
  lemma ContextShowsPrice(documents: seq<Document>, formatDate: string -> Option<string>, k: nat)
    requires k < |documents|
    ensures Contains(Context(documents, formatDate), PriceLine(documents[k].metadata))
  {
    var d := documents[k];
    var ctx := Context(documents, formatDate);
    var before := EntryHead(k + 1, d.metadata) + EntryWhere(d.metadata, formatDate);
    var line := PriceLine(d.metadata);
    var after := EntryExtras(d.metadata) + EntryTail(d.pageContent);
    assert Contains(ctx, (before + line) + after) by {
      ContextHasEveryEntry(documents, formatDate, k);
      EntrySplit(k + 1, d, formatDate);
    }
    assert Contains(ctx, before + line) by {
      ContainsShorter(ctx, before + line, after);
    }
    ContainsMiddle(ctx, before, line);
  }

  /** An entry is its opening and venue lines, its price line, and the rest. */
  lemma EntrySplit(i: nat, d: Document, formatDate: string -> Option<string>)
    ensures ContextEntry(i, d, formatDate)
      == (EntryHead(i, d.metadata) + EntryWhere(d.metadata, formatDate) + PriceLine(d.metadata))
         + (EntryExtras(d.metadata) + EntryTail(d.pageContent))
  {
  }

  /** `_format_context`, entry by entry. */
  method FormatContext(documents: seq<Document>, formatDate: string -> Option<string>) returns (context: string)
    ensures context == Context(documents, formatDate)
  {
    var parts: seq<string> := [];
    var i := 0;
    while i < |documents|
      invariant 0 <= i <= |documents|
      invariant parts == ContextEntries(documents[..i], formatDate)
    {
      assert documents[..i + 1][..i] == documents[..i];
      parts := parts + [ContextEntry(i + 1, documents[i], formatDate)];
      i := i + 1;
    }
    assert documents[..i] == documents;
    context := Join("\n\n", parts);
  }

  // ---- prompts ----------------------------------------------------------------------

  /** The two fixed instruction texts a system message can carry. */
  datatype Instructions = EnglishInstructions | FrenchInstructions

  function InstructionText(p: Instructions): string {
    match p
    case EnglishInstructions => "You are an event concierge assistant for Paris, France. Your role is to help users find relevant events based on their queries.\n\nInstructions:\n- Answer in English, matching the user's language\n- Only recommend events from the provided context\n- Never invent or hallucinate event information\n- If date constraints are specified, ensure all suggestions fall within that range\n- If no relevant events are found, clearly state this and suggest the closest alternatives from the context\n- Group 3-5 suggestions by theme or date when appropriate\n- Always provide: title, date/time, venue, neighborhood/arrondissement (if available), price, and URL\n- Avoid listing the same event multiple times; for recurring events, mention the next upcoming date\n- Be concise and helpful"
    case FrenchInstructions => "Vous êtes un assistant concierge d'événements pour Paris, France. Votre rôle est d'aider les utilisateurs à trouver des événements pertinents selon leurs requêtes.\n\nInstructions :\n- Répondez en français, correspondant à la langue de l'utilisateur\n- Recommandez uniquement les événements du contexte fourni\n- N'inventez jamais d'informations sur les événements\n- Si des contraintes de date sont spécifiées, assurez-vous que toutes les suggestions respectent cette plage\n- Si aucun événement pertinent n'est trouvé, indiquez-le clairement et suggérez les alternatives les plus proches du contexte\n- Groupez 3 à 5 suggestions par thème ou par date si approprié\n- Fournissez toujours : titre, date/heure, lieu, quartier/arrondissement (si disponible), prix et URL\n- Évitez de lister le même événement plusieurs fois ; pour les événements récurrents, mentionnez la prochaine date\n- Soyez concis et utile"
  }

  /** `_build_system_prompt`: the instructions the system message carries. */
  function SystemPrompt(language: string): Instructions {
    if language == "en" then EnglishInstructions else FrenchInstructions
  }

  /** A constraint key and the heading its prompt line carries. */
  datatype Field = Field(key: string, heading: string)

  const PromptFields: seq<Field> := [
    Field("start_date", "Start date"), Field("end_date", "End date"), Field("category", "Category"),
    Field("price_constraint", "Price"), Field("arrondissement", "Arrondissement")]

  function ConstraintLine(heading: string, v: Value): (line: string)
    ensures |line| > 2 + |heading| && line[..2] == "- " && line[2..2 + |heading|] == heading
  {
    "- " + heading + ": " + Show(v) + "\n"
  }

  /** The line of one field, when the field is truthy. */
  function LineOf(c: ConstraintDict, f: Field): seq<string> {
    if TruthyValue(Get(c, f.key)) then [ConstraintLine(f.heading, Get(c, f.key))] else []
  }

  /** The constraint lines, one per truthy field, in field order. */
  function ConstraintLines(c: ConstraintDict, fields: seq<Field>): (lines: seq<string>)
    ensures |lines| <= |fields|
  {
    if fields == [] then []
    else ConstraintLines(c, fields[..|fields| - 1]) + LineOf(c, fields[|fields| - 1])
  }

  /** Non-empty headings that start with distinct letters. */
  predicate DistinctHeadings(fields: seq<Field>) {
    && (forall j :: 0 <= j < |fields| ==> fields[j].heading != "")
    && (forall j, k :: 0 <= j < k < |fields| ==> fields[j].heading[0] != fields[k].heading[0])
  }

  /** No line of the block starts its heading with a letter no field heading starts with. */
  lemma {:induction false} ConstraintLinesAvoid(c: ConstraintDict, fields: seq<Field>, ch: char)
    requires forall j :: 0 <= j < |fields| ==> fields[j].heading != "" && fields[j].heading[0] != ch
    ensures forall line :: line in ConstraintLines(c, fields) ==> |line| > 2 && line[2] != ch
  {
    if fields != [] {
      var front := fields[..|fields| - 1];
      assert forall j :: 0 <= j < |front| ==> front[j] == fields[j];
      ConstraintLinesAvoid(c, front, ch);
    }
  }

  /** A field's line appears in the block exactly when the field is truthy. */
  lemma {:induction false} ConstraintLineIff(c: ConstraintDict, fields: seq<Field>, k: nat)
    requires DistinctHeadings(fields) && k < |fields|
    ensures ConstraintLine(fields[k].heading, Get(c, fields[k].key)) in ConstraintLines(c, fields)
      <==> TruthyValue(Get(c, fields[k].key))
  {
    var n := |fields| - 1;
    var front := fields[..n];
    var last := LineOf(c, fields[n]);
    var line := ConstraintLine(fields[k].heading, Get(c, fields[k].key));
    assert ConstraintLines(c, fields) == ConstraintLines(c, front) + last;
    assert line[2] == fields[k].heading[0];
    if k == n {
      forall j | 0 <= j < |front| ensures front[j].heading != "" && front[j].heading[0] != fields[n].heading[0] {
        assert front[j] == fields[j];
      }
      ConstraintLinesAvoid(c, front, fields[n].heading[0]);
    } else {
      assert front[k] == fields[k];
      assert DistinctHeadings(front) by {
        forall j | 0 <= j < |front| ensures front[j] == fields[j] { }
      }
      ConstraintLineIff(c, front, k);
      if last != [] {
        assert last[0][2] == fields[n].heading[0];
      }
    }
  }

  lemma PromptFieldsDistinct()
    ensures DistinctHeadings(PromptFields)
  {
  }

  const ClosingRequest: string := "Please provide a helpful response recommending relevant events from the context above."

  function PromptHead(query: string): string {
    "User question: " + query + "\n\n"
  }

  /** The constraints block, present only for truthy constraints. */
  function ConstraintBlock(constraints: Option<ConstraintDict>): string {
    if DictTruthy(constraints) then "Constraints:\n" + Concat(ConstraintLines(constraints.value, PromptFields)) + "\n" else ""
  }

  function PromptTail(context: string): string {
    "Available events:\n" + context + "\n\n" + ClosingRequest
  }

  /** `_build_user_prompt` */
  function UserPrompt(query: string, context: string, constraints: Option<ConstraintDict>): string {
    PromptHead(query) + ConstraintBlock(constraints) + PromptTail(context)
  }

  /** With truthy constraints the prompt opens with the question and then the
      constraints block. */
  lemma UserPromptWithConstraints(query: string, context: string, constraints: Option<ConstraintDict>)
    requires DictTruthy(constraints)
    ensures var p := UserPrompt(query, context, constraints);
      var head := "User question: " + query + "\n\n";
      && |head| + 13 <= |p| && p[..|head|] == head
      && p[|head|..|head| + 13] == "Constraints:\n"
  {
    var after := Concat(ConstraintLines(constraints.value, PromptFields)) + "\n" + PromptTail(context);
    assert ConstraintBlock(constraints) + PromptTail(context) == "Constraints:\n" + after;
    OpensWith(UserPrompt(query, context, constraints), PromptHead(query), "Constraints:\n", after);
  }

  /** Without truthy constraints the prompt opens with the question and then the event
      list. */
  lemma UserPromptWithoutConstraints(query: string, context: string, constraints: Option<ConstraintDict>)
    requires !DictTruthy(constraints)
    ensures var p := UserPrompt(query, context, constraints);
      var head := "User question: " + query + "\n\n";
      && |head| + 18 <= |p| && p[..|head|] == head
      && p[|head|..|head| + 18] == "Available events:\n"
  {
    var heading := "Available events:\n";
    var after := context + "\n\n" + ClosingRequest;
    assert PromptTail(context) == heading + after by {
      AppendAssociates(heading, context, "\n\n");
      AppendAssociates(heading, context + "\n\n", ClosingRequest);
    }
    assert UserPrompt(query, context, constraints) == PromptHead(query) + PromptTail(context) by {
      assert ConstraintBlock(constraints) == "";
      assert PromptHead(query) + "" == PromptHead(query);
    }
    OpensWith(UserPrompt(query, context, constraints), PromptHead(query), "Available events:\n", after);
  }

  /** A string built as `a + (b + rest)` opens with `a` and then `b`. */
  lemma OpensWith(p: string, a: string, b: string, rest: string)
    requires p == a + (b + rest)
    ensures |a| + |b| <= |p| && p[..|a|] == a && p[|a|..|a| + |b|] == b
  {
    assert p[..|a|] == a;
    assert p[|a|..|a| + |b|] == b;
  }

  /** The prompt holds the context under its heading. */
  lemma UserPromptHasContext(query: string, context: string, constraints: Option<ConstraintDict>)
    ensures Contains(UserPrompt(query, context, constraints), "Available events:\n" + context)
  {
    var front := PromptHead(query) + ConstraintBlock(constraints);
    var events := "Available events:\n" + context;
    var closing := "\n\n" + ClosingRequest;
    assert PromptTail(context) == events + closing by {
      AppendAssociates(events, "\n\n", ClosingRequest);
    }
    assert UserPrompt(query, context, constraints) == front + events + closing by {
      AppendAssociates(front, events, closing);
    }
    ContainsGrow(front, events, closing, events);
    ContainsPrefix(events, []);
    assert events + [] == events;
  }

  /** The prompt closes with the request for recommendations. */
  lemma UserPromptClosing(query: string, context: string, constraints: Option<ConstraintDict>)
    ensures var p := UserPrompt(query, context, constraints);
      |ClosingRequest| <= |p| && p[|p| - |ClosingRequest|..] == ClosingRequest
  {
    var front := PromptHead(query) + ConstraintBlock(constraints) + "Available events:\n" + context + "\n\n";
    assert UserPrompt(query, context, constraints) == front + ClosingRequest;
  }

  /** A truthy field's line is part of the block's text. */
  lemma BlockHasLine(c: ConstraintDict, fields: seq<Field>, k: nat)
    requires DistinctHeadings(fields) && k < |fields| && TruthyValue(Get(c, fields[k].key))
    ensures Contains(Concat(ConstraintLines(c, fields)), ConstraintLine(fields[k].heading, Get(c, fields[k].key)))
  {
    var lines := ConstraintLines(c, fields);
    ConstraintLineIff(c, fields, k);
    var n :| 0 <= n < |lines| && lines[n] == ConstraintLine(fields[k].heading, Get(c, fields[k].key));
    ConcatContains(lines, n);
  }

  /** A constraint line is in the prompt whenever its field is truthy in truthy constraints. */
  lemma UserPromptHasConstraintLine(query: string, context: string, c: ConstraintDict, k: nat)
    requires c != map[] && k < |PromptFields| && TruthyValue(Get(c, PromptFields[k].key))
    ensures Contains(UserPrompt(query, context, Some(c)), ConstraintLine(PromptFields[k].heading, Get(c, PromptFields[k].key)))
  {
    var text := Concat(ConstraintLines(c, PromptFields));
    var line := ConstraintLine(PromptFields[k].heading, Get(c, PromptFields[k].key));
    assert Contains(text, line) by {
      PromptFieldsDistinct();
      BlockHasLine(c, PromptFields, k);
    }
    var head := PromptHead(query) + "Constraints:\n";
    var rest := "\n" + PromptTail(context);
    assert head + text + rest == UserPrompt(query, context, Some(c)) by {
      assert ConstraintBlock(Some(c)) == "Constraints:\n" + text + "\n";
    }
    ContainsGrow(head, text, rest, line);
  }

  /** Adding one more field appends that field's line, if any, to the block. */
  lemma ConstraintTextStep(c: ConstraintDict, fields: seq<Field>)
    requires fields != []
    ensures Concat(ConstraintLines(c, fields))
      == Concat(ConstraintLines(c, fields[..|fields| - 1]))
         + (if TruthyValue(Get(c, fields[|fields| - 1].key))
            then ConstraintLine(fields[|fields| - 1].heading, Get(c, fields[|fields| - 1].key)) else "")
  {
    var front := ConstraintLines(c, fields[..|fields| - 1]);
    var last := LineOf(c, fields[|fields| - 1]);
    assert ConstraintLines(c, fields) == front + last;
    if last == [] {
      assert front + last == front;
    } else {
      assert (front + last)[..|front|] == front;
    }
  }

  /** The constraint lines of `_build_user_prompt`: the source's five `if`s, one per
      entry of the field table, in table order. */
  method ConstraintText(c: ConstraintDict) returns (text: string)
    ensures text == Concat(ConstraintLines(c, PromptFields))
  {
    text := "";
    var i := 0;
    while i < |PromptFields|
      invariant 0 <= i <= |PromptFields|
      invariant text == Concat(ConstraintLines(c, PromptFields[..i]))
    {
      var f := PromptFields[i];
      if TruthyValue(Get(c, f.key)) {
        text := text + ConstraintLine(f.heading, Get(c, f.key));
      }
      BlockGrows(c, PromptFields, i + 1);
      i := i + 1;
    }
    assert PromptFields[..i] == PromptFields;
  }

  /** `_build_user_prompt`, appending piece by piece. */
  method BuildUserPrompt(query: string, context: string, constraints: Option<ConstraintDict>) returns (prompt: string)
    ensures prompt == UserPrompt(query, context, constraints)
  {
    prompt := "User question: " + query + "\n\n";
    if DictTruthy(constraints) {
      prompt := prompt + "Constraints:\n";
      var lines := ConstraintText(constraints.value);
      prompt := prompt + lines;
      prompt := prompt + "\n";
    }
    prompt := prompt + "Available events:\n" + context + "\n\n";
    prompt := prompt + ClosingRequest;
  }

  /** The block of the first `k` fields is that of the first `k - 1` and the `k`-th
      field's line, if any. */
  lemma BlockGrows(c: ConstraintDict, fields: seq<Field>, k: nat)
    requires 1 <= k <= |fields|
    ensures Concat(ConstraintLines(c, fields[..k]))
      == Concat(ConstraintLines(c, fields[..k - 1]))
         + (if TruthyValue(Get(c, fields[k - 1].key))
            then ConstraintLine(fields[k - 1].heading, Get(c, fields[k - 1].key)) else "")
  {
    assert fields[..k][..k - 1] == fields[..k - 1];
    ConstraintTextStep(c, fields[..k]);
  }

  // ---- generate ---------------------------------------------------------------------

  /** The canned answer when nothing was retrieved. */
  function NotFoundAnswer(language: string): string {
    if language == "en" then
      "I couldn't find any events matching your criteria. Please try broadening your search or adjusting the time period."
    else
      "Je n'ai pas trouvé d'événements correspondant à vos critères. Essayez d'élargir votre recherche ou d'ajuster la période."
  }

  function SummaryOf(d: Document): EventSummary {
    var m := d.metadata;
    EventSummary(m.title, m.startDatetime, m.venueName, m.city, m.arrondissement,
                 SummaryPrice(m), m.url, m.categories)
  }

  function Summaries(documents: seq<Document>): (r: seq<EventSummary>)
    ensures |r| == |documents|
  {
    seq(|documents|, i requires 0 <= i < |documents| => SummaryOf(documents[i]))
  }

  /** The `sources` list: the truthy URLs, in document order. */
  function Sources(documents: seq<Document>): (r: seq<string>)
    ensures |r| <= |documents|
    ensures forall j :: 0 <= j < |r| ==> r[j] != ""
  {
    if documents == [] then []
    else
      var m := documents[|documents| - 1].metadata;
      Sources(documents[..|documents| - 1]) + (if Truthy(m.url) then [m.url.value] else [])
  }

  /** The URL list of the documents. */
  function Urls(documents: seq<Document>): seq<Option<string>> {
    seq(|documents|, i requires 0 <= i < |documents| => documents[i].metadata.url)
  }

  /** Each source, as an optional URL. */
  function Wrapped(s: seq<string>): (w: seq<Option<string>>)
    ensures |w| == |s|
  {
    if s == [] then [] else Wrapped(s[..|s| - 1]) + [Some(s[|s| - 1])]
  }

  /** Sources are the present, non-empty URLs in order: a subsequence of the documents'
      URLs, holding every such URL. */
  lemma {:induction false} SourcesShape(documents: seq<Document>)
    ensures Seqs.IsSubsequence(Wrapped(Sources(documents)), Urls(documents))
    ensures forall j :: 0 <= j < |Sources(documents)| ==> Sources(documents)[j] != ""
    ensures forall i :: 0 <= i < |documents| && Truthy(documents[i].metadata.url) ==>
      documents[i].metadata.url.value in Sources(documents)
  {
    if documents == [] {
      assert Wrapped([]) == [];
    } else {
      var front := documents[..|documents| - 1];
      var m := documents[|documents| - 1].metadata;
      SourcesShape(front);
      var sf := Sources(front);
      var s := Sources(documents);
      assert s == sf + (if Truthy(m.url) then [m.url.value] else []);
      assert Seqs.IsSubsequence(Wrapped(s), Urls(documents)) by {
        assert Urls(front) + [m.url] == Urls(documents);
        if Truthy(m.url) {
          assert s[..|s| - 1] == sf;
          assert Wrapped(s) == Wrapped(sf) + [m.url];
          Seqs.SubsequenceKeep(Wrapped(sf), Urls(front), m.url);
        } else {
          assert s == sf;
          Seqs.SubsequenceSkip(Wrapped(sf), Urls(front), m.url);
        }
      }
      forall i | 0 <= i < |documents| && Truthy(documents[i].metadata.url)
        ensures documents[i].metadata.url.value in s
      {
        if i < |front| {
          assert front[i] == documents[i];
        }
      }
    }
  }

  /** The fallback answer's opening line. */
  function FallbackHeader(language: string): string {
    if language == "en" then
      "I encountered an error generating the response. Here are the events I found:\n\n"
    else
      "J'ai rencontré une erreur lors de la génération de la réponse. Voici les événements trouvés :\n\n"
  }

  /** One numbered item of the fallback list. */
  function FallbackItem(i: nat, d: Document): string {
    var m := d.metadata;
    NatToString(i) + ". " + m.title + " - " + m.venueName
    + (if Truthy(m.url) then "\n   " + m.url.value else "")
    + "\n\n"
  }

  function FallbackItems(documents: seq<Document>): (r: seq<string>)
    ensures |r| == |Take(documents, 3)|
  {
    var shown := Take(documents, 3);
    seq(|shown|, i requires 0 <= i < |shown| => FallbackItem(i + 1, shown[i]))
  }

  function FallbackAnswer(language: string, documents: seq<Document>): string {
    FallbackHeader(language) + Concat(FallbackItems(documents))
  }

  lemma ItemLeads(i: nat, d: Document)
    ensures var line := NatToString(i) + ". " + d.metadata.title + " - " + d.metadata.venueName;
      |line| <= |FallbackItem(i, d)| && FallbackItem(i, d) == line + FallbackItem(i, d)[|line|..]
  {
  }

  /** The fallback answer lists the first documents (at most three), each as
      "i. title - venue", after the language's error notice. */
  lemma FallbackAnswerShape(language: string, documents: seq<Document>, k: nat)
    requires k < |documents| && k < 3
    ensures var a := FallbackAnswer(language, documents);
      && |FallbackHeader(language)| <= |a| && a[..|FallbackHeader(language)|] == FallbackHeader(language)
      && Contains(a, NatToString(k + 1) + ". " + documents[k].metadata.title + " - " + documents[k].metadata.venueName)
    ensures |FallbackItems(documents)| == if |documents| < 3 then |documents| else 3
  {
    var items := FallbackItems(documents);
    var m := documents[k].metadata;
    var line := NatToString(k + 1) + ". " + m.title + " - " + m.venueName;
    assert Contains(Concat(items), line) by {
      ConcatContains(items, k);
      assert items[k] == FallbackItem(k + 1, documents[k]);
      ItemLeads(k + 1, documents[k]);
      ContainsShorter(Concat(items), line, items[k][|line|..]);
    }
    var header := FallbackHeader(language);
    assert header + Concat(items) + [] == FallbackAnswer(language, documents);
    ContainsGrow(header, Concat(items), [], line);
  }

  /** What `generate` returns; `llm` stands for the chat model call. */
  function Generated(query: string, documents: seq<Document>, language: string,
                     constraints: Option<ConstraintDict>, llm: (Instructions, string) -> LlmReply,
                     formatDate: string -> Option<string>): Generation
  {
    if documents == [] then
      Generation(NotFoundAnswer(language), [], [], FiltersApplied(constraints), None)
    else
      var user := UserPrompt(query, Context(documents, formatDate), constraints);
      Replied(documents, language, constraints, llm(SystemPrompt(language), user))
  }

  /** The result once the chat model has answered or failed. */
  function Replied(documents: seq<Document>, language: string, constraints: Option<ConstraintDict>,
                   reply: LlmReply): Generation
  {
    match reply
    case Reply(content) =>
      Generation(content, Summaries(documents), Sources(documents), FiltersApplied(constraints), None)
    case Failure(message) =>
      Generation(FallbackAnswer(language, documents), [], [], FiltersApplied(constraints), Some(message))
  }

  /** Without documents the answer is the canned one, with no events or sources, and
      the chat model plays no part in it. */
  lemma NoDocumentsAnswer(query: string, language: string, constraints: Option<ConstraintDict>,
                          llm: (Instructions, string) -> LlmReply, other: (Instructions, string) -> LlmReply,
                          formatDate: string -> Option<string>)
    ensures var g := Generated(query, [], language, constraints, llm, formatDate);
      && g.answer == NotFoundAnswer(language)
      && g.events == [] && g.sources == [] && g.error.None?
      && g == Generated(query, [], language, constraints, other, formatDate)
  {
  }

  /** On a reply, the answer is the reply and `events` has one entry per document, in
      order, priced "Free" for free events and by bucket otherwise. */
  lemma ReplyResult(query: string, documents: seq<Document>, language: string,
                    constraints: Option<ConstraintDict>, llm: (Instructions, string) -> LlmReply,
                    formatDate: string -> Option<string>)
    requires documents != []
    requires llm(SystemPrompt(language), UserPrompt(query, Context(documents, formatDate), constraints)).Reply?
    ensures var g := Generated(query, documents, language, constraints, llm, formatDate);
      && g.answer == llm(SystemPrompt(language), UserPrompt(query, Context(documents, formatDate), constraints)).content
      && g.error.None?
      && |g.events| == |documents|
      && (forall i :: 0 <= i < |documents| ==>
            g.events[i].title == documents[i].metadata.title
            && (documents[i].metadata.isFree ==> g.events[i].price == Some("Free"))
            && (!documents[i].metadata.isFree ==> g.events[i].price == documents[i].metadata.priceBucket))
      && |g.sources| <= |documents|
  {
  }

  /** On a failure, the fallback answer is returned with the error recorded and no
      events or sources. */
  lemma FailureResult(query: string, documents: seq<Document>, language: string,
                      constraints: Option<ConstraintDict>, llm: (Instructions, string) -> LlmReply,
                      formatDate: string -> Option<string>)
    requires documents != []
    requires llm(SystemPrompt(language), UserPrompt(query, Context(documents, formatDate), constraints)).Failure?
    ensures var g := Generated(query, documents, language, constraints, llm, formatDate);
      && g.answer == FallbackAnswer(language, documents)
      && g.error == Some(llm(SystemPrompt(language), UserPrompt(query, Context(documents, formatDate), constraints)).message)
      && g.events == [] && g.sources == []
  {
  }

  /** `filters_applied` is `constraints or {}` on every path. */
  lemma FiltersOnEveryPath(query: string, documents: seq<Document>, language: string,
                           constraints: Option<ConstraintDict>, llm: (Instructions, string) -> LlmReply,
                           formatDate: string -> Option<string>)
    ensures Generated(query, documents, language, constraints, llm, formatDate).filtersApplied
      == FiltersApplied(constraints)
  {
  }

  /** The `events` list of a reply, one summary per document. */
  method ExtractEvents(documents: seq<Document>) returns (events: seq<EventSummary>)
    ensures events == Summaries(documents)
  {
    events := [];
    var i := 0;
    while i < |documents|
      invariant 0 <= i <= |documents|
      invariant events == Summaries(documents[..i])
    {
      events := events + [SummaryOf(documents[i])];
      i := i + 1;
    }
    assert documents[..i] == documents;
  }

  /** The fallback list grows by one numbered item at a time. */
  lemma FallbackItemsStep(documents: seq<Document>, i: nat)
    requires i < |Take(documents, 3)|
    ensures Concat(FallbackItems(documents)[..i + 1])
      == Concat(FallbackItems(documents)[..i]) + FallbackItem(i + 1, Take(documents, 3)[i])
  {
    var items := FallbackItems(documents);
    assert items[..i + 1][..i] == items[..i];
  }

  /** The fallback loop: appends the numbered items to `answer`. */
  method AppendFallbackItems(start: string, documents: seq<Document>) returns (answer: string)
    ensures answer == start + Concat(FallbackItems(documents))
  {
    answer := start;
    var shown := Take(documents, 3);
    ghost var items := FallbackItems(documents);
    var i := 0;
    while i < |shown|
      invariant 0 <= i <= |shown|
      invariant answer == start + Concat(items[..i])
    {
      var item := FallbackItem(i + 1, shown[i]);
      FallbackItemsStep(documents, i);
      AppendAssociates(start, Concat(items[..i]), item);
      answer := answer + item;
      i := i + 1;
    }
    assert items[..i] == items;
  }

  /** `generate` */
  method Generate(query: string, documents: seq<Document>, language: string,
                  constraints: Option<ConstraintDict>, llm: (Instructions, string) -> LlmReply,
                  formatDate: string -> Option<string>) returns (g: Generation)
    ensures g == Generated(query, documents, language, constraints, llm, formatDate)
  {
    if documents == [] {
      return Generation(NotFoundAnswer(language), [], [], FiltersApplied(constraints), None);
    }
    var context := FormatContext(documents, formatDate);
    var systemPrompt := SystemPrompt(language);
    var userPrompt := BuildUserPrompt(query, context, constraints);
    var reply := llm(systemPrompt, userPrompt);
    g := Respond(documents, language, constraints, reply);
  }

  /** The reply and failure paths of `generate`. */
  method Respond(documents: seq<Document>, language: string, constraints: Option<ConstraintDict>,
                 reply: LlmReply) returns (g: Generation)
    ensures g == Replied(documents, language, constraints, reply)
  {
    match reply {
      case Reply(content) =>
        var events := ExtractEvents(documents);
        g := Generation(content, events, Sources(documents), FiltersApplied(constraints), None);
      case Failure(message) =>
        var answer := AppendFallbackItems(FallbackHeader(language), documents);
        g := Generation(answer, [], [], FiltersApplied(constraints), Some(message));
    }
  }
}
