/** Query understanding: first-match keyword tables for the category and the price
    constraint, the arrondissement number mentioned in the question, relative date
    windows computed from the current local time, and the language fallback. */
module QueryProcessor {
  import opened Text
  import opened Schema

  // ---- keyword tables ---------------------------------------------------------------

  const MusicKeywords: seq<string> := [
    "music", "musique", "concert", "jazz", "rock", "pop", "classical", "classique",
    "electronic", "électronique", "rap", "hip-hop", "opera", "opéra"]
  const TheaterKeywords: seq<string> := [
    "theater", "theatre", "théâtre", "théatre", "play", "pièce", "spectacle", "performance",
    "comédie", "comedy"]
  const ExhibitionKeywords: seq<string> := [
    "exhibition", "expo", "exposition", "art", "galerie", "gallery", "museum", "musée",
    "painting", "peinture", "sculpture", "photography", "photo"]
  const KidsKeywords: seq<string> := [
    "kids", "enfants", "children", "family", "famille", "jeunesse", "youth", "bébé", "baby",
    "tout-petits"]
  const FestivalKeywords: seq<string> := [
    "festival", "fête", "fest", "celebration", "célébration", "carnival", "carnaval"]
  const CinemaKeywords: seq<string> := [
    "cinema", "cinéma", "film", "movie", "projection", "screening"]
  const DanceKeywords: seq<string> := [
    "dance", "danse", "ballet", "contemporary", "contemporain", "hip-hop"]
  const LiteratureKeywords: seq<string> := [
    "literature", "littérature", "book", "livre", "reading", "lecture", "poetry", "poésie",
    "author", "auteur", "salon du livre"]
  const WorkshopKeywords: seq<string> := [
    "workshop", "atelier", "stage", "class", "cours", "training", "formation"]

  /** The category table, in the order it is scanned. */
  const CategoryTable: seq<(string, seq<string>)> := [
    ("music", MusicKeywords), ("theater", TheaterKeywords), ("exhibition", ExhibitionKeywords),
    ("kids", KidsKeywords), ("festival", FestivalKeywords), ("cinema", CinemaKeywords),
    ("dance", DanceKeywords), ("literature", LiteratureKeywords), ("workshop", WorkshopKeywords)]

  const FreeKeywords: seq<string> := ["free", "gratuit", "libre", "sans frais"]
  const CheapKeywords: seq<string> := ["cheap", "pas cher", "bon marché", "abordable", "affordable"]

  /** The price table: every "free" keyword is tried before any "cheap" keyword. */
  const PriceTable: seq<(string, seq<string>)> := [("free", FreeKeywords), ("cheap", CheapKeywords)]

  predicate IsCategoryName(c: string) {
    c in {"music", "theater", "exhibition", "kids", "festival", "cinema", "dance",
          "literature", "workshop"}
  }

  /** Some keyword of the list is a substring of `text`. */
  predicate AnyOccurs(text: string, keywords: seq<string>) {
    exists k :: 0 <= k < |keywords| && Contains(text, keywords[k])
  }

  /** Index of the first table entry one of whose keywords occurs in `text`, or the
      table's length when there is none. */
  function FirstEntry(text: string, table: seq<(string, seq<string>)>): (j: nat)
    ensures j <= |table|
    ensures j < |table| ==> AnyOccurs(text, table[j].1)
    ensures forall i :: 0 <= i < j ==> !AnyOccurs(text, table[i].1)
  {
    if table == [] then 0
    else if AnyOccurs(text, table[0].1) then 0
    else 1 + FirstEntry(text, table[1..])
  }

  /** The scan shared by `extract_category` and `extract_price_constraint`: the name of the
      first entry with a keyword in the lower-cased query. */
  function FirstMatch(query: string, table: seq<(string, seq<string>)>): (r: Option<string>)
    ensures r.None? <==> forall i :: 0 <= i < |table| ==> !AnyOccurs(Lower(query), table[i].1)
    ensures r.Some? ==> var j := FirstEntry(Lower(query), table);
      j < |table| && r.value == table[j].0
  {
    var j := FirstEntry(Lower(query), table);
    if j < |table| then Some(table[j].0) else None
  }

  /** `extract_category` */
  function ExtractCategory(query: string): (r: Option<string>)
    ensures r.None? || IsCategoryName(r.value)
  {
    var r := FirstMatch(query, CategoryTable);
    assert r.Some? ==> r.value in {"music", "theater", "exhibition", "kids", "festival",
                                   "cinema", "dance", "literature", "workshop"};
    r
  }

  /** `extract_price_constraint` */
  function ExtractPriceConstraint(query: string): (r: Option<string>)
    ensures r.None? || r.value == "free" || r.value == "cheap"
  {
    FirstMatch(query, PriceTable)
  }

  /** The category found is the first one, in table order, with a keyword in the query;
      every earlier category has none. */
  lemma CategoryIsFirstMatch(query: string)
    ensures var r, j := ExtractCategory(query), FirstEntry(Lower(query), CategoryTable);
      && (r.None? <==> forall i :: 0 <= i < |CategoryTable| ==> !AnyOccurs(Lower(query), CategoryTable[i].1))
      && (r.Some? ==> j < |CategoryTable| && r.value == CategoryTable[j].0
                      && AnyOccurs(Lower(query), CategoryTable[j].1)
                      && forall i :: 0 <= i < j ==> !AnyOccurs(Lower(query), CategoryTable[i].1))
  {
  }

  /** "free" wins whenever one of its keywords occurs; "cheap" only when no "free" keyword
      does; None when neither list occurs. */
  lemma PriceConstraintCases(query: string)
    ensures var l, r := Lower(query), ExtractPriceConstraint(query);
      && (r == Some("free") <==> AnyOccurs(l, FreeKeywords))
      && (r == Some("cheap") <==> !AnyOccurs(l, FreeKeywords) && AnyOccurs(l, CheapKeywords))
      && (r.None? <==> !AnyOccurs(l, FreeKeywords) && !AnyOccurs(l, CheapKeywords))
  {
    var l := Lower(query);
    assert PriceTable[0].1 == FreeKeywords && PriceTable[1].1 == CheapKeywords;
    var j := FirstEntry(l, PriceTable);
    if AnyOccurs(l, FreeKeywords) {
      assert j == 0;
    } else if AnyOccurs(l, CheapKeywords) {
      assert j == 1;
    }
  }

  /** "hip-hop" is both a music and a dance keyword; music comes first in the table. */
  lemma HipHopIsMusic(query: string)
    requires query == "hip-hop"
    ensures ExtractCategory(query) == Some("music")
    ensures AnyOccurs(Lower(query), DanceKeywords)
  {
    HipHopKeyword(query);
    MusicFirst(query);
  }

  /** "hip-hop" is its own lower-case form and a keyword of both lists. */
  lemma HipHopKeyword(query: string)
    requires query == "hip-hop"
    ensures Lower(query) == query
    ensures AnyOccurs(query, MusicKeywords) && AnyOccurs(query, DanceKeywords)
  {
    LowerOfLowercase(query);
    HipHopInMusic(query);
    HipHopInDance(query);
  }

  lemma HipHopInMusic(query: string)
    requires query == "hip-hop"
    ensures AnyOccurs(query, MusicKeywords)
  {
    assert Contains(query, query) by { assert query <= query; }
    assert MusicKeywords[11] == query;
  }

  lemma HipHopInDance(query: string)
    requires query == "hip-hop"
    ensures AnyOccurs(query, DanceKeywords)
  {
    assert Contains(query, query) by { assert query <= query; }
    assert DanceKeywords[5] == query;
  }

  /** A music keyword settles the category, whatever else the query holds. */
  lemma MusicFirst(query: string)
    requires AnyOccurs(Lower(query), MusicKeywords)
    ensures ExtractCategory(query) == Some("music")
  {
    FirstEntryHead(Lower(query), CategoryTable);
  }

  lemma FirstEntryHead(text: string, table: seq<(string, seq<string>)>)
    requires table != [] && AnyOccurs(text, table[0].1)
    ensures FirstEntry(text, table) == 0
  {
  }

  // ---- arrondissement in a query ----------------------------------------------------

  const OrdinalSuffixes: seq<string> := ["e", "ème", "eme", "er", "ère", "th", "st", "nd", "rd"]
  const ArrondissementWords: seq<string> := ["arr", "arrondissement", "arrdt"]

  predicate WordAt(s: string, p: nat, w: string) {
    p + |w| <= |s| && s[p..p + |w|] == w
  }

  /** Regex `\b` at position `e`: a word character on exactly one side. */
  predicate Boundary(s: string, e: nat)
    requires e <= |s|
  {
    (e > 0 && IsWordChar(s[e - 1])) != (e < |s| && IsWordChar(s[e]))
  }

  /** One of the arrondissement words starts at `e` and ends at a word boundary. */
  predicate WordThenBoundary(s: string, e: nat)
    requires e <= |s|
  {
    exists k :: 0 <= k < |ArrondissementWords| && WordAt(s, e, ArrondissementWords[k])
      && Boundary(s, e + |ArrondissementWords[k]|)
  }

  /** `(?:arr|arrondissement|arrdt)?\b` matches from `e`. */
  predicate EndsAt(s: string, e: nat)
    requires e <= |s|
  {
    Boundary(s, e) || WordThenBoundary(s, e)
  }

  /** `\s*(?:arr|arrondissement|arrdt)?\b` matches from `q`: it may consume any number of
      the spaces found there. */
  predicate TailMatches(s: string, q: nat)
    requires q <= |s|
  {
    exists e :: q <= e <= SpaceRunEnd(s, q) && EndsAt(s, e)
  }

  /** One of the ordinal suffixes starts at `q` and the tail matches after it. */
  predicate SuffixThenTail(s: string, q: nat)
    requires q <= |s|
  {
    exists k :: 0 <= k < |OrdinalSuffixes| && WordAt(s, q, OrdinalSuffixes[k])
      && TailMatches(s, q + |OrdinalSuffixes[k]|)
  }

  /** The rest of the pattern after the digits: an optional ordinal suffix, then the tail. */
  predicate CompletesAt(s: string, q: nat)
    requires q <= |s|
  {
    TailMatches(s, q) || SuffixThenTail(s, q)
  }

  /** Length of the digit group the pattern tries at `p`: the pattern starts only at a
      digit preceded by a word boundary, and `\d{1,2}` takes two digits when there are
      two. Falling back to one digit when a second follows never helps, since no word
      boundary lies between two digits. */
  function DigitRun(s: string, p: nat): (n: nat)
    ensures n <= 2
    ensures n > 0 ==> p + n <= |s| && AllDigits(s[p..p + n])
  {
    if p < |s| && IsDigit(s[p]) && Boundary(s, p) then
      if p + 1 < |s| && IsDigit(s[p + 1]) then 2 else 1
    else 0
  }

  /** A match of the arrondissement pattern starts at `p`; its group is `s[p..p + DigitRun(s, p)]`. */
  predicate MatchAt(s: string, p: nat) {
    var n := DigitRun(s, p);
    n > 0 && CompletesAt(s, p + n)
  }

  /** The number a match at `p` captures. */
  function MatchValue(s: string, p: nat): nat
    requires MatchAt(s, p)
  {
    var n := DigitRun(s, p);
    ParseNat(s[p..p + n])
  }

  /** A match at `p` whose number lies in 1..20. */
  predicate InRangeAt(s: string, p: nat) {
    MatchAt(s, p) && 1 <= MatchValue(s, p) <= 20
  }

  /** Position of the first in-range match at or after `p`, or `|s|`. `findall` reports
      the matches from left to right, and the rest of the pattern holds no digit, so a
      match never swallows the start of another: every position is a candidate. */
  function FirstInRange(s: string, p: nat): (q: nat)
    requires p <= |s|
    ensures p <= q <= |s|
    ensures q < |s| ==> InRangeAt(s, q)
    ensures forall i :: p <= i < q ==> !InRangeAt(s, i)
    decreases |s| - p
  {
    if p == |s| then p
    else if InRangeAt(s, p) then p
    else FirstInRange(s, p + 1)
  }

  /** The first number in 1..20 among the matches of the lower-cased query. */
  function FirstArrondissement(s: string): (r: Option<nat>)
    ensures r.Some? ==> 1 <= r.value <= 20
    ensures r.None? <==> forall p :: 0 <= p < |s| ==> !InRangeAt(s, p)
    ensures r.Some? ==> exists q :: 0 <= q < |s| && InRangeAt(s, q) && r.value == MatchValue(s, q)
                                    && forall p :: 0 <= p < q ==> !InRangeAt(s, p)
  {
    var q := FirstInRange(s, 0);
    if q < |s| then Some(MatchValue(s, q)) else None
  }

  /** `extract_arrondissement` of the query processor; `re.IGNORECASE` is modelled by
      matching the lower-cased query against the lower-case pattern. */
  function ExtractQueryArrondissement(query: string): (r: Option<nat>)
    ensures r.Some? ==> 1 <= r.value <= 20
    ensures r.None? <==> forall p :: 0 <= p < |Lower(query)| ==> !InRangeAt(Lower(query), p)
  {
    FirstArrondissement(Lower(query))
  }

  /** A two-digit group reads as its tens digit times ten plus its units digit. */
  lemma TwoDigits(s: string)
    requires |s| == 2 && AllDigits(s)
    ensures ParseNat(s) == 10 * DigitValue(s[0]) + DigitValue(s[1])
  {
    var t := s[..1];
    assert t[..0] == [] && t[0] == s[0];
    assert ParseNat(t) == DigitValue(s[0]);
    assert s[..|s| - 1] == t;
  }

  lemma OneDigit(s: string)
    requires |s| == 1 && AllDigits(s)
    ensures ParseNat(s) == DigitValue(s[0])
  {
  }

  /** A number followed by an ordinal suffix ending the query is a match, e.g. "11e". */
  lemma SuffixAtEnd(s: string, p: nat, k: nat)
    requires k < |OrdinalSuffixes| && p + |OrdinalSuffixes[k]| == |s|
    requires WordAt(s, p, OrdinalSuffixes[k]) && IsWordChar(s[|s| - 1])
    ensures CompletesAt(s, p)
  {
    var q := |s|;
    assert EndsAt(s, q);
    assert TailMatches(s, q);
  }

  /** "11e" names the eleventh arrondissement. */
  lemma ElevenExample(query: string)
    requires query == "11e"
    ensures ExtractQueryArrondissement(query) == Some(11)
  {
    LowerOfLowercase(query);
    var s := query;
    assert InRangeAt(s, 0) && MatchValue(s, 0) == 11 by {
      assert OrdinalSuffixes[0] == "e";
      SuffixAtEnd(s, 2, 0);
      assert DigitRun(s, 0) == 2;
      TwoDigits(s[0..2]);
    }
    assert FirstInRange(s, 0) == 0;
  }

  /** An out-of-range number is skipped: in "75 1er" the 75 does not count and the 1
      does. */
  lemma SkipsOutOfRangeExample(query: string)
    requires query == "75 1er"
    ensures ExtractQueryArrondissement(query) == Some(1)
  {
    LowerOfLowercase(query);
    SeventyFiveSkipped(query);
    FirstAfterSkipped(query);
    assert FirstInRange(query, 3) == 3;
    assert FirstInRange(query, 0) == 3;
  }

  /** In "75 1er" the first match is 75, out of range; no match starts at 1 or 2. */
  lemma SeventyFiveSkipped(s: string)
    requires s == "75 1er"
    ensures !InRangeAt(s, 0) && !InRangeAt(s, 1) && !InRangeAt(s, 2)
  {
    assert DigitRun(s, 0) == 2;
    TwoDigits(s[0..2]);
    assert !Boundary(s, 1);
  }

  /** In "75 1er" the group "1" before the suffix "er" matches and is in range. */
  lemma FirstAfterSkipped(s: string)
    requires s == "75 1er"
    ensures InRangeAt(s, 3) && MatchValue(s, 3) == 1
  {
    assert OrdinalSuffixes[3] == "er";
    SuffixAtEnd(s, 4, 3);
    assert DigitRun(s, 3) == 1;
    OneDigit(s[3..4]);
  }

  // ---- relative dates ---------------------------------------------------------------

  /** The current local time: the instant, the UTC offset of the configured time zone at
      that instant, and the local calendar date. */
  datatype Clock = Clock(instant: Instant, utcOffset: int, year: int, month: int, dayOfMonth: int)

  const SecondsPerDay: int := 86400

  /** Local day number, day 0 being 1970-01-01. */
  function LocalDay(now: Clock): int {
    (now.instant + now.utcOffset) / SecondsPerDay
  }

  /** `weekday()`: Monday is 0; 1970-01-01 was a Thursday. */
  function Weekday(now: Clock): int {
    (LocalDay(now) + 3) % 7
  }

  function Hour(now: Clock): int {
    ((now.instant + now.utcOffset) % SecondsPerDay) / 3600
  }

  /** Local midnight `d` days after today, as an instant. The offset is the one of `now`
      even across a daylight-saving change, as `replace` on an aware datetime keeps it. */
  function Midnight(now: Clock, d: int): Instant {
    (LocalDay(now) + d) * SecondsPerDay - now.utcOffset
  }

  predicate IsLeapYear(y: int) {
    (y % 4 == 0 && y % 100 != 0) || y % 400 == 0
  }

  function MonthLength(y: int, m: int): int {
    if m == 2 then (if IsLeapYear(y) then 29 else 28)
    else if m == 4 || m == 6 || m == 9 || m == 11 then 30
    else 31
  }

  /** Day number of a date of the proleptic Gregorian calendar, day 0 being 1970-01-01. */
  function DaysFromCivil(y: int, m: int, d: int): int {
    var y' := if m <= 2 then y - 1 else y;
    var era := y' / 400;
    var yoe := y' - era * 400;
    var mp := (m + 9) % 12;
    var doy := (153 * mp + 2) / 5 + d - 1;
    var doe := yoe * 365 + yoe / 4 - yoe / 100 + doy;
    era * 146097 + doe - 719468
  }

  /** The local fields of `now` agree with its instant. */
  predicate ValidClock(now: Clock) {
    1 <= now.month <= 12 && 1 <= now.dayOfMonth <= MonthLength(now.year, now.month)
    && LocalDay(now) == DaysFromCivil(now.year, now.month, now.dayOfMonth)
  }

  function FollowingMonth(y: int, m: int): (int, int) {
    if m == 12 then (y + 1, 1) else (y, m + 1)
  }

  lemma Epoch()
    ensures DaysFromCivil(1970, 1, 1) == 0
  {
  }

  /** Consecutive days of a month have consecutive day numbers. */
  lemma DaysWithinMonth(y: int, m: int, d: int)
    ensures DaysFromCivil(y, m, d) == DaysFromCivil(y, m, 1) + d - 1
  {
  }

  /** The first of the following month comes the month's length after the first of the
      month, December rolling over to January of the next year. */
  lemma MonthStep(y: int, m: int)
    requires 1 <= m <= 12
    ensures var (y2, m2) := FollowingMonth(y, m);
      DaysFromCivil(y2, m2, 1) == DaysFromCivil(y, m, 1) + MonthLength(y, m)
  {
    if m == 2 {
      FebruaryStep(y);
    } else {
      var (y2, m2) := FollowingMonth(y, m);
      MonthStart(y, m);
      MonthStart(y2, m2);
      OffsetStep(m);
      assert MarchFirst(if m2 <= 2 then y2 - 1 else y2) == MarchFirst(if m <= 2 then y - 1 else y);
    }
  }

  /** Days from March 1st to the first day of month `m` (January and February counting
      as the eleventh and twelfth months). */
  function MonthOffset(m: int): int {
    (153 * ((m + 9) % 12) + 2) / 5
  }

  /** The first day of a month is March 1st of its computation year plus its offset. */
  lemma MonthStart(y: int, m: int)
    requires 1 <= m <= 12
    ensures DaysFromCivil(y, m, 1) == MarchFirst(if m <= 2 then y - 1 else y) + MonthOffset(m)
  {
  }

  /** Apart from February, the next month's offset lies one month length further on. */
  lemma OffsetStep(m: int)
    requires 1 <= m <= 12 && m != 2
    ensures MonthOffset(if m == 12 then 1 else m + 1) == MonthOffset(m) + MonthLength(0, m)
  {
  }

  /** Day number of March 1st of year `y`, the day the computation's years start on. */
  function MarchFirst(y: int): int {
    var era := y / 400;
    var yoe := y - era * 400;
    era * 146097 + yoe * 365 + yoe / 4 - yoe / 100 - 719468
  }

  /** March 1st comes 28 days after February 1st, 29 in a leap year. The computation
      counts February in the year that starts on the previous March 1st. */
  lemma FebruaryStep(y: int)
    ensures DaysFromCivil(y, 3, 1) == DaysFromCivil(y, 2, 1) + MonthLength(y, 2)
  {
    assert DaysFromCivil(y, 3, 1) == MarchFirst(y);
    assert DaysFromCivil(y, 2, 1) == MarchFirst(y - 1) + 337;
    YearLength(y);
  }

  /** The year from March 1st of `y - 1` to March 1st of `y` has 366 days exactly when
      `y` is a leap year. */
  lemma YearLength(y: int)
    ensures MarchFirst(y) - MarchFirst(y - 1) == 337 + MonthLength(y, 2)
  {
    if y % 400 == 0 {
      EraBoundary(y);
    } else {
      WithinEra(y);
    }
  }

  /** The year ending on March 1st of a multiple of 400 is a leap year. */
  lemma EraBoundary(y: int)
    requires y % 400 == 0
    ensures MarchFirst(y) - MarchFirst(y - 1) == 366
  {
    var era := y / 400;
    assert y == era * 400;
    assert (y - 1) / 400 == era - 1;
  }

  /** Inside an era, the year has 366 days when `y` is divisible by 4 but not by 100. */
  lemma WithinEra(y: int)
    requires y % 400 != 0
    ensures MarchFirst(y) - MarchFirst(y - 1) == 365 + (if IsLeapYear(y) then 1 else 0)
  {
    YearInEra(y);
    EraRemainders(y);
  }

  /** Whole eras change neither the remainder by 4 nor the one by 100. */
  lemma EraRemainders(y: int)
    ensures y % 4 == (y % 400) % 4
    ensures y % 100 == (y % 400) % 100
  {
    var era, yoe := y / 400, y % 400;
    assert y == 4 * (era * 100) + yoe;
    ShiftBy4(era * 100, yoe);
    assert y == 100 * (era * 4) + yoe;
    ShiftBy100(era * 4, yoe);
  }

  lemma ShiftBy4(k: int, n: int)
    ensures (4 * k + n) % 4 == n % 4
  {
  }

  lemma ShiftBy100(k: int, n: int)
    ensures (100 * k + n) % 100 == n % 100
  {
  }

  /** The year of era position `y % 400` has 365 days, one more when that position is
      divisible by 4, one fewer when it is divisible by 100. */
  lemma YearInEra(y: int)
    requires y % 400 != 0
    ensures var yoe := y % 400;
      MarchFirst(y) - MarchFirst(y - 1)
      == 365 + (if yoe % 4 == 0 then 1 else 0) - (if yoe % 100 == 0 then 1 else 0)
  {
    var era, yoe := y / 400, y % 400;
    assert MarchFirst(y) == era * 146097 + yoe * 365 + yoe / 4 - yoe / 100 - 719468;
    assert MarchFirst(y - 1)
      == era * 146097 + (yoe - 1) * 365 + (yoe - 1) / 4 - (yoe - 1) / 100 - 719468 by {
      assert (y - 1) / 400 == era;
    }
    DivStep4(yoe);
    DivStep100(yoe);
  }

  lemma DivStep4(n: int)
    ensures n / 4 - (n - 1) / 4 == if n % 4 == 0 then 1 else 0
  {
  }

  lemma DivStep100(n: int)
    ensures n / 100 - (n - 1) / 100 == if n % 100 == 0 then 1 else 0
  {
  }

  /** `(5 - now.weekday()) % 7`, moved a week on when today is Saturday past noon. */
  function DaysUntilSaturday(now: Clock): (d: int)
    ensures 0 <= d <= 7
  {
    var d := (5 - Weekday(now)) % 7;
    if d == 0 && Hour(now) > 12 then 7 else d
  }

  /** `(7 - now.weekday()) % 7`, with 0 replaced by 7. */
  function DaysUntilMonday(now: Clock): (d: int)
    ensures 1 <= d <= 7
  {
    var d := (7 - Weekday(now)) % 7;
    if d == 0 then 7 else d
  }

  /** Local midnight of the first day of the following month. */
  function NextMonthStart(now: Clock): Instant {
    var (y, m) := FollowingMonth(now.year, now.month);
    DaysFromCivil(y, m, 1) * SecondsPerDay - now.utcOffset
  }

  datatype Window = NoWindow | Window(start: Instant, end: Instant)

  /** The phrase groups, in the order the source tries them. */
  const TodayWords: seq<string> := ["today", "aujourd'hui", "ce soir"]
  const TomorrowWords: seq<string> := ["tomorrow", "demain"]
  const WeekendWords: seq<string> := ["this weekend", "ce week-end", "weekend"]
  const ThisWeekWords: seq<string> := ["this week", "cette semaine"]
  const NextWeekWords: seq<string> := ["next week", "la semaine prochaine", "semaine prochaine"]
  const ThisMonthWords: seq<string> := ["this month", "ce mois", "mois"]
  const NextMonthWords: seq<string> := ["next month", "le mois prochain", "mois prochain"]

  datatype Branch = Today | Tomorrow | Weekend | ThisWeek | NextWeek | ThisMonth | NextMonth | Search

  /** The window a branch gives. `searchDates` stands for dateparser's `search_dates`: the
      first date found in the query, None when it finds none or fails. */
  function BranchWindow(b: Branch, query: string, now: Clock,
                        searchDates: string -> Option<Instant>): (w: Window)
    ensures w.NoWindow? || w.start < w.end
  {
    match b
    case Today => Window(Midnight(now, 0), Midnight(now, 1))
    case Tomorrow => Window(Midnight(now, 1), Midnight(now, 2))
    case Weekend =>
      var d := DaysUntilSaturday(now);
      Window(Midnight(now, d), Midnight(now, d + 2))
    case ThisWeek => Window(Midnight(now, 0), Midnight(now, 7))
    case NextWeek =>
      var d := DaysUntilMonday(now);
      Window(Midnight(now, d), Midnight(now, d + 7))
    case ThisMonth => Window(Midnight(now, 0), Midnight(now, 30))
    case NextMonth => Window(NextMonthStart(now), NextMonthStart(now) + 30 * SecondsPerDay)
    case Search =>
      match searchDates(query)
      case Some(d) => Window(d, d + SecondsPerDay)
      case None => NoWindow
  }

  /** The branch `parse_temporal_constraints` takes, as written: the this-month group is
      tried before the next-month group. */
  function TemporalBranch(lower: string): Branch
  {
    if AnyOccurs(lower, TodayWords) then Today
    else if AnyOccurs(lower, TomorrowWords) then Tomorrow
    else if AnyOccurs(lower, WeekendWords) then Weekend
    else if AnyOccurs(lower, ThisWeekWords) then ThisWeek
    else if AnyOccurs(lower, NextWeekWords) then NextWeek
    else if AnyOccurs(lower, ThisMonthWords) then ThisMonth
    else if AnyOccurs(lower, NextMonthWords) then NextMonth
    else Search
  }

  /** `parse_temporal_constraints` as written. */
  function ParseTemporalConstraints(query: string, now: Clock,
                                   searchDates: string -> Option<Instant>): (w: Window)
    ensures w.NoWindow? || w.start < w.end
  {
    BranchWindow(TemporalBranch(Lower(query)), query, now, searchDates)
  }

  /** As written, "mois" in the this-month group also occurs in "le mois prochain" and
      "mois prochain", so those two next-month phrases never select the next-month window:
      only "next month" can. */
  lemma NextMonthFrenchUnreachableAsWritten(query: string)
    ensures var lower := Lower(query);
      (Contains(lower, "mois prochain") ==> TemporalBranch(lower) != NextMonth)
      && (TemporalBranch(lower) == NextMonth ==> Contains(lower, NextMonthWords[0]))
  {
    var lower := Lower(query);
    if Contains(lower, "mois prochain") {
      MoisInside(lower, "mois prochain");
      ThisMonthFirstAsWritten(lower);
    }
    if TemporalBranch(lower) == NextMonth {
      ThisMonthFirstAsWritten(lower);
      var k :| 0 <= k < |NextMonthWords| && Contains(lower, NextMonthWords[k]);
      if k == 1 {
        var w := NextMonthWords[1];
        assert w[..3] + w[3..] == w;
        ContainsMiddle(lower, w[..3], w[3..]);
        MoisInside(lower, w[3..]);
      }
    }
  }

  /** As written, the next-month branch is taken only when no this-month phrase occurs. */
  lemma ThisMonthFirstAsWritten(lower: string)
    ensures TemporalBranch(lower) == NextMonth ==>
      !AnyOccurs(lower, ThisMonthWords) && AnyOccurs(lower, NextMonthWords)
  {
  }

  /** A query containing a phrase that starts with "mois" contains the this-month
      phrase "mois". */
  lemma MoisInside(lower: string, phrase: string)
    requires Contains(lower, phrase) && |phrase| >= 4 && phrase[..4] == "mois"
    ensures AnyOccurs(lower, ThisMonthWords)
  {
    assert phrase[..4] + phrase[4..] == phrase;
    ContainsShorter(lower, phrase[..4], phrase[4..]);
    assert ThisMonthWords[2] == "mois";
  }

  /** The branch with the next-month group tried before the this-month group, so that
      "le mois prochain" means next month. */
  function TemporalBranchIntended(lower: string): Branch
  {
    if AnyOccurs(lower, TodayWords) then Today
    else if AnyOccurs(lower, TomorrowWords) then Tomorrow
    else if AnyOccurs(lower, WeekendWords) then Weekend
    else if AnyOccurs(lower, ThisWeekWords) then ThisWeek
    else if AnyOccurs(lower, NextWeekWords) then NextWeek
    else if AnyOccurs(lower, NextMonthWords) then NextMonth
    else if AnyOccurs(lower, ThisMonthWords) then ThisMonth
    else Search
  }

  /** `parse_temporal_constraints`, with the phrase groups tried in the corrected order. */
  function ParseTemporalIntended(query: string, now: Clock,
                                searchDates: string -> Option<Instant>): (w: Window)
    ensures w.NoWindow? || w.start < w.end
  {
    BranchWindow(TemporalBranchIntended(Lower(query)), query, now, searchDates)
  }

  /** The two orders differ only on queries that contain both a this-month and a
      next-month phrase; with the corrected order any next-month phrase that comes after
      no earlier group selects the next month. */
  lemma TemporalBranchCorrected(query: string)
    ensures var lower := Lower(query);
      && ((AnyOccurs(lower, ThisMonthWords) && AnyOccurs(lower, NextMonthWords))
          || TemporalBranchIntended(lower) == TemporalBranch(lower))
      && (Contains(lower, "mois prochain") && TemporalBranch(lower) == ThisMonth
          ==> TemporalBranchIntended(lower) == NextMonth)
  {
    var lower := Lower(query);
    if Contains(lower, "mois prochain") {
      assert NextMonthWords[2] == "mois prochain";
    }
  }

  /** "today" and its synonyms give the local day containing now, starting at a local
      midnight; "tomorrow" gives the day right after. */
  lemma TodayAndTomorrow(query: string, now: Clock, searchDates: string -> Option<Instant>)
    ensures var w := BranchWindow(Today, query, now, searchDates);
      && w.start <= now.instant < w.end && w.end - w.start == SecondsPerDay
      && (w.start + now.utcOffset) % SecondsPerDay == 0
    ensures var t, w := BranchWindow(Today, query, now, searchDates),
                        BranchWindow(Tomorrow, query, now, searchDates);
      w.start == t.end && w.end - w.start == SecondsPerDay
  {
  }

  /** The weekend starts at the midnight beginning a Saturday, 0 to 7 days ahead, and lasts
      two days; it is a full week ahead exactly when today is Saturday after noon. */
  lemma WeekendWindow(query: string, now: Clock, searchDates: string -> Option<Instant>)
    ensures var w, d := BranchWindow(Weekend, query, now, searchDates), DaysUntilSaturday(now);
      && w.start == Midnight(now, d) && w.end - w.start == 2 * SecondsPerDay
      && (LocalDay(now) + d + 3) % 7 == 5
      && (d == 7 <==> Weekday(now) == 5 && Hour(now) > 12)
  {
    var d := DaysUntilSaturday(now);
    ShiftToWeekday(LocalDay(now), 5);
  }

  /** Next week starts at the midnight beginning the next Monday, 1 to 7 days ahead (never
      today), and lasts seven days. */
  lemma NextWeekWindow(query: string, now: Clock, searchDates: string -> Option<Instant>)
    ensures var w, d := BranchWindow(NextWeek, query, now, searchDates), DaysUntilMonday(now);
      && w.start == Midnight(now, d) && 1 <= d <= 7 && w.end - w.start == 7 * SecondsPerDay
      && (LocalDay(now) + d + 3) % 7 == 0
  {
    ShiftToWeekday(LocalDay(now), 7);
  }

  /** Moving `(target - weekday) % 7` days ahead lands on weekday `target % 7`. */
  lemma ShiftToWeekday(day: int, target: int)
    requires 0 <= target <= 7
    ensures (day + (target - (day + 3) % 7) % 7 + 3) % 7 == target % 7
  {
    var w := (day + 3) % 7;
    var k := (day + 3) / 7;
    assert day + 3 == 7 * k + w;
    var s := (target - w) % 7;
    var j := (target - w) / 7;
    assert target - w == 7 * j + s;
    assert day + s + 3 == 7 * (k - j) + target;
    assert (7 * (k - j) + target) % 7 == target % 7;
  }

  /** "this week" and "this month" start at today's midnight, contain now and last seven
      and thirty days. */
  lemma ThisWeekAndMonth(query: string, now: Clock, searchDates: string -> Option<Instant>)
    ensures var w := BranchWindow(ThisWeek, query, now, searchDates);
      w.start <= now.instant < w.end && w.end - w.start == 7 * SecondsPerDay
    ensures var w := BranchWindow(ThisMonth, query, now, searchDates);
      w.start <= now.instant < w.end && w.end - w.start == 30 * SecondsPerDay
  {
  }

  /** "next month" starts at the local midnight of the first of the following month (the
      first of January after December) and lasts thirty days; that start lies after now. */
  lemma NextMonthWindow(query: string, now: Clock, searchDates: string -> Option<Instant>)
    ensures var w, (y, m) := BranchWindow(NextMonth, query, now, searchDates),
                             FollowingMonth(now.year, now.month);
      && w.start == DaysFromCivil(y, m, 1) * SecondsPerDay - now.utcOffset
      && w.end - w.start == 30 * SecondsPerDay
      && (now.month == 12 ==> (y, m) == (now.year + 1, 1))
    ensures ValidClock(now) ==>
      BranchWindow(NextMonth, query, now, searchDates).start > now.instant
  {
    if ValidClock(now) {
      DaysWithinMonth(now.year, now.month, now.dayOfMonth);
      MonthStep(now.year, now.month);
      assert NextMonthStart(now) >= Midnight(now, 1);
    }
  }

  // ---- language and the whole query -------------------------------------------------

  /** `detect_language`: `detect` stands for langdetect, None when it raises. */
  function DetectLanguage(query: string, defaultLanguage: string,
                          detect: string -> Option<string>): (r: string)
    ensures r == "fr" || r == "en" || r == defaultLanguage
    ensures detect(query) == Some("fr") || detect(query) == Some("en") ==> r == detect(query).value
    ensures detect(query).None? ==> r == defaultLanguage
  {
    match detect(query)
    case Some(lang) => if lang == "fr" || lang == "en" then lang else defaultLanguage
    case None => defaultLanguage
  }

  datatype ProcessedQuery = ProcessedQuery(
    originalQuery: string, language: string, window: Window, category: Option<string>,
    priceConstraint: Option<string>, arrondissement: Option<nat>)

  /** `process_query`: each entry is the one its extractor gives, the window being the
      one of the branch order as written. */
  function ProcessQuery(query: string, defaultLanguage: string, now: Clock,
                        detect: string -> Option<string>,
                        searchDates: string -> Option<Instant>): (p: ProcessedQuery)
    ensures p.originalQuery == query
    ensures p.language == DetectLanguage(query, defaultLanguage, detect)
    ensures p.window == ParseTemporalConstraints(query, now, searchDates)
    ensures p.category == ExtractCategory(query)
    ensures p.priceConstraint == ExtractPriceConstraint(query)
    ensures p.arrondissement == ExtractQueryArrondissement(query)
    ensures p.language == "fr" || p.language == "en" || p.language == defaultLanguage
    ensures p.window.NoWindow? || p.window.start < p.window.end
    ensures p.category.None? || IsCategoryName(p.category.value)
    ensures p.priceConstraint.None? || p.priceConstraint.value in {"free", "cheap"}
    ensures p.arrondissement.None? || 1 <= p.arrondissement.value <= 20
  {
    var price := ExtractPriceConstraint(query);
    PriceConstraintCases(query);
    ProcessedQuery(
      originalQuery := query,
      language := DetectLanguage(query, defaultLanguage, detect),
      window := ParseTemporalConstraints(query, now, searchDates),
      category := ExtractCategory(query),
      priceConstraint := price,
      arrondissement := ExtractQueryArrondissement(query))
  }
}
