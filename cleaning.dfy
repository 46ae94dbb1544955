/** Ingestion normalisation: turning one raw OpenAgenda record into a canonical `Event`.
    HTML entity decoding and date parsing are foreign code and arrive as parameters;
    the regular expressions of the source are written out as scanners. */
module Cleaning {
  import opened Text
  import opened Schema

  // ---- strip_html -------------------------------------------------------------------

  /** Position of the first occurrence of `c` in `s`. */
  function FirstIndex(s: string, c: char): (i: nat)
    requires c in s
    ensures i < |s| && s[i] == c
    ensures forall j :: 0 <= j < i ==> s[j] != c
  {
    if s[0] == c then 0 else 1 + FirstIndex(s[1..], c)
  }

  /** The pattern `<[^>]+>` matches at the start of `s`: a '<', then at least one
      character that is not '>', then a '>'. */
  predicate TagStart(s: string) {
    |s| >= 2 && s[0] == '<' && s[1] != '>' && '>' in s[1..]
  }

  /** No complete tag is left: a '<' that has a '>' somewhere after it is immediately
      followed by that '>' (the one shape the tag pattern does not match). */
  predicate NoTag(r: string) {
    forall i :: 0 <= i < |r| - 1 && r[i] == '<' && '>' in r[i + 1..] ==> r[i + 1] == '>'
  }

  /** `re.sub(r"<[^>]+>", " ", s)`: every tag, scanned left to right, becomes one space. */
  function ReplaceTags(s: string): (r: string)
    ensures '>' in r ==> '>' in s
    ensures s != [] && s[0] != '<' ==> r != [] && r[0] == s[0]
    ensures NoTag(r)
    decreases |s|
  {
    if s == [] then []
    else if TagStart(s) then " " + ReplaceTags(s[FirstIndex(s, '>') + 1..])
    else
      var rest := ReplaceTags(s[1..]);
      assert s[0] == '<' && '>' in rest ==> rest[0] == '>' by {
        if s[0] == '<' && '>' in rest {
          assert '>' in s[1..];
        }
      }
      [s[0]] + rest
  }

  /** Only plain spaces, never two whitespace characters in a row. */
  predicate SingleSpaced(r: string) {
    (forall i :: 0 <= i < |r| && IsSpace(r[i]) ==> r[i] == ' ')
    && (forall i :: 0 <= i < |r| - 1 ==> !(IsSpace(r[i]) && IsSpace(r[i + 1])))
  }

  lemma NoTagSuffix(s: string, k: nat)
    requires NoTag(s) && k <= |s|
    ensures NoTag(s[k..])
  {
    forall i | 0 <= i < |s[k..]| - 1 && s[k..][i] == '<' && '>' in s[k..][i + 1..]
      ensures s[k..][i + 1] == '>'
    {
      assert s[k..][i + 1..] == s[k + i + 1..];
    }
  }

  /** `re.sub(r"\s+", " ", s)`: every run of whitespace becomes one space. */
  function CollapseSpace(s: string): (r: string)
    ensures SingleSpaced(r)
    ensures s != [] && !IsSpace(s[0]) ==> r != [] && r[0] == s[0]
    ensures '>' in r ==> '>' in s
    ensures NoTag(s) ==> NoTag(r)
    decreases |s|
  {
    if s == [] then []
    else if IsSpace(s[0]) then
      var t := DropLeadingSpace(s);
      DropLeadingSpaceShape(s);
      assert NoTag(s) ==> NoTag(t) by {
        if NoTag(s) {
          NoTagSuffix(s, |s| - |t|);
        }
      }
      " " + CollapseSpace(t)
    else
      var rest := CollapseSpace(s[1..]);
      assert NoTag(s) ==> NoTag([s[0]] + rest) by {
        if NoTag(s) {
          NoTagSuffix(s, 1);
          if s[0] == '<' && '>' in rest {
            assert '>' in s[1..];
          }
        }
      }
      [s[0]] + rest
  }

  /** A contiguous part of a single-spaced, tag-free text is single-spaced and tag-free. */
  lemma CleanSlice(s: string, a: nat, b: nat)
    requires a <= b <= |s|
    ensures SingleSpaced(s) ==> SingleSpaced(s[a..b])
    ensures NoTag(s) ==> NoTag(s[a..b])
  {
    var t := s[a..b];
    if NoTag(s) {
      forall i | 0 <= i < |t| - 1 && t[i] == '<' && '>' in t[i + 1..] ensures t[i + 1] == '>' {
        var j :| i + 1 <= j < |t| && t[j] == '>';
        assert s[a + j] == '>';
        assert '>' in s[a + i + 1..] by { assert s[a + i + 1..][j - i - 1] == '>'; }
        assert s[a + i] == '<';
      }
    }
    if SingleSpaced(s) {
      assert forall i :: 0 <= i < |t| ==> t[i] == s[a + i];
    }
  }

  /** Trimming the ends keeps a single-spaced, tag-free text so. */
  lemma StripKeepsClean(s: string)
    requires SingleSpaced(s) && NoTag(s)
    ensures SingleSpaced(Strip(s)) && NoTag(Strip(s))
  {
    var r := Strip(s);
    var a := |s| - |DropLeadingSpace(s)|;
    StripIsSlice(s);
    assert r == s[a..a + |r|];
    CleanSlice(s, a, a + |r|);
  }

  /** `strip_html`: empty input gives ""; otherwise the entity-decoded text with every
      tag replaced by a space, whitespace runs collapsed and the ends trimmed. */
  function StripHtml(text: string, unescape: string -> string): (r: string)
    ensures text == "" ==> r == ""
    ensures r == [] || (!IsSpace(r[0]) && !IsSpace(r[|r| - 1]))
    ensures SingleSpaced(r) && NoTag(r)
  {
    if text == "" then ""
    else
      var collapsed := CollapseSpace(ReplaceTags(unescape(text)));
      StripKeepsClean(collapsed);
      Strip(collapsed)
  }

  // ---- normalize_category -----------------------------------------------------------

  /** The keys of the category table, in the order they are scanned. */
  const CategoryKeys: seq<string> := [
    "concert", "musique", "jazz", "rock", "classique", "electronic",
    "théâtre", "theater", "théatre", "spectacle",
    "exposition", "exhibition", "expo", "art", "galerie", "musée", "museum",
    "enfants", "kids", "children", "famille", "family", "jeunesse",
    "festival", "fête",
    "cinéma", "cinema", "film", "projection",
    "danse", "dance", "ballet",
    "littérature", "literature", "lecture", "livre", "book", "salon du livre",
    "atelier", "workshop", "stage"
  ]

  /** The normalised categories the table can produce. */
  predicate IsNormalizedCategory(c: string) {
    c in {"music", "theater", "exhibition", "kids", "festival", "cinema", "dance",
          "literature", "workshop"}
  }

  /** The value the table maps its `k`-th key to: the keys come in consecutive groups,
      one group per normalised category. */
  function CategoryAt(k: nat): (c: string)
    requires k < |CategoryKeys|
    ensures IsNormalizedCategory(c)
  {
    if k < 6 then "music"
    else if k < 10 then "theater"
    else if k < 17 then "exhibition"
    else if k < 23 then "kids"
    else if k < 25 then "festival"
    else if k < 29 then "cinema"
    else if k < 32 then "dance"
    else if k < 38 then "literature"
    else "workshop"
  }

  /** Index of the first key that occurs in `term`, or `|keys|` when none does. */
  function FirstKey(term: string, keys: seq<string>): (k: nat)
    ensures k <= |keys|
    ensures k < |keys| ==> Contains(term, keys[k])
    ensures forall j :: 0 <= j < k ==> !Contains(term, keys[j])
  {
    if keys == [] then 0
    else if Contains(term, keys[0]) then 0
    else 1 + FirstKey(term, keys[1..])
  }

  /** Index of the first term in which some key occurs, or `|terms|`. */
  function FirstMatchingTerm(terms: seq<string>, keys: seq<string>): (t: nat)
    ensures t <= |terms|
    ensures t < |terms| ==> FirstKey(terms[t], keys) < |keys|
    ensures forall j :: 0 <= j < t ==> FirstKey(terms[j], keys) == |keys|
  {
    if terms == [] then 0
    else if FirstKey(terms[0], keys) < |keys| then 0
    else 1 + FirstMatchingTerm(terms[1..], keys)
  }

  function LowerAll(s: seq<string>): (r: seq<string>)
    ensures |r| == |s| && forall i :: 0 <= i < |s| ==> r[i] == Lower(s[i])
  {
    if s == [] then [] else [Lower(s[0])] + LowerAll(s[1..])
  }

  /** The key index that decides a scan of `terms`: the first key, in key order, of the
      first term that contains any key; None when no term contains any key. */
  function KeyMatch(terms: seq<string>, keys: seq<string>): (r: Option<nat>)
    ensures r.None? <==> forall i, k :: 0 <= i < |terms| && 0 <= k < |keys| ==>
                           !Contains(terms[i], keys[k])
    ensures r.Some? ==> var t := FirstMatchingTerm(terms, keys);
      && t < |terms| && r.value < |keys| && Contains(terms[t], keys[r.value])
      && (forall j :: 0 <= j < r.value ==> !Contains(terms[t], keys[j]))
      && (forall i, k :: 0 <= i < t && 0 <= k < |keys| ==> !Contains(terms[i], keys[k]))
  {
    var t := FirstMatchingTerm(terms, keys);
    if t < |terms| then Some(FirstKey(terms[t], keys))
    else
      assert forall i :: 0 <= i < |terms| ==> FirstKey(terms[i], keys) == |keys|;
      None
  }

  /** `normalize_category`: lower-cased categories, then lower-cased tags, are scanned
      with the table's keys; the deciding key's category is the result. */
  function NormalizeCategory(categories: seq<string>, tags: seq<string>): (r: Option<string>)
    ensures r.None? || IsNormalizedCategory(r.value)
    ensures var m := KeyMatch(LowerAll(categories) + LowerAll(tags), CategoryKeys);
      (r.None? <==> m.None?) && (r.Some? ==> m.value < |CategoryKeys| && r.value == CategoryAt(m.value))
  {
    match KeyMatch(LowerAll(categories) + LowerAll(tags), CategoryKeys)
    case None => None
    case Some(k) => Some(CategoryAt(k))
  }

  /** A key with a character that does not occur in `term` does not occur in it. */
  lemma {:induction false} CharAbsent(term: string, key: string, i: nat)
    requires i < |key| && key[i] !in term
    ensures !Contains(term, key)
    decreases |term|
  {
    if term != [] {
      CharAbsent(term[1..], key, i);
    }
  }

  /** A key longer than `term` does not occur in it. */
  lemma {:induction false} LongerAbsent(term: string, key: string)
    requires |key| > |term|
    ensures !Contains(term, key)
    decreases |term|
  {
    if term != [] {
      LongerAbsent(term[1..], key);
    }
  }

  /** The key found first is the one at `n` when it occurs and no earlier key does. */
  lemma FirstKeyIs(term: string, keys: seq<string>, n: nat)
    requires n < |keys| && Contains(term, keys[n])
    requires forall j :: 0 <= j < n ==> !Contains(term, keys[j])
    ensures FirstKey(term, keys) == n
  {
  }

  /** When the first term contains some key, the scan is decided by its first key. */
  lemma FirstTermMatch(terms: seq<string>, keys: seq<string>)
    requires terms != [] && FirstKey(terms[0], keys) < |keys|
    ensures KeyMatch(terms, keys) == Some(FirstKey(terms[0], keys))
  {
    assert FirstMatchingTerm(terms, keys) == 0;
  }

  /** `normalize_category(["Concert", "Live Music"], ["jazz"]) == "music"`: the first
      term already contains the first key. */
  lemma NormalizeCategoryMusicExample(categories: seq<string>, tags: seq<string>)
    requires categories == ["Concert", "Live Music"] && tags == ["jazz"]
    ensures NormalizeCategory(categories, tags) == Some("music")
  {
    var terms := LowerAll(categories) + LowerAll(tags);
    assert terms[0] == Lower(categories[0]);
    LowerConcert(categories[0]);
    ConcertFirstKey(terms[0], CategoryKeys);
    FirstTermMatch(terms, CategoryKeys);
  }

  lemma LowerConcert(c: string)
    requires c == "Concert"
    ensures Lower(c) == "concert"
  {
    assert LowerChar('C') == 'c';
  }

  lemma ConcertFirstKey(c: string, keys: seq<string>)
    requires c == "concert" && keys == CategoryKeys
    ensures FirstKey(c, keys) == 0
  {
    CategoryKeysStart();
    assert keys[0] == c;
    assert Contains(c, c) by { assert c <= c; }
  }

  lemma CategoryKeysStart()
    ensures |CategoryKeys| == 41
    ensures CategoryKeys[..7] == ["concert", "musique", "jazz", "rock", "classique", "electronic", "théâtre"]
  {
    var keys := CategoryKeys;
    assert keys[0] == "concert" && keys[1] == "musique" && keys[2] == "jazz";
    assert keys[3] == "rock" && keys[4] == "classique" && keys[5] == "electronic";
    assert keys[6] == "théâtre";
  }

  /** "théâtre" contains none of the six music keys before its own key. */
  lemma TheaterFirstKey(th: string, keys: seq<string>)
    requires th == "théâtre" && |keys| > 7
    requires keys[..7] == ["concert", "musique", "jazz", "rock", "classique", "electronic", th]
    ensures FirstKey(th, keys) == 6
  {
    CharAbsent(th, "concert", 0);
    CharAbsent(th, "musique", 0);
    CharAbsent(th, "jazz", 0);
    CharAbsent(th, "rock", 1);
    CharAbsent(th, "classique", 0);
    LongerAbsent(th, "electronic");
    assert Contains(th, th) by { assert th <= th; }
    assert forall j :: 0 <= j < 7 ==> keys[j] == keys[..7][j];
    FirstKeyIs(th, keys, 6);
  }

  lemma TheaterKeyMatch()
    ensures KeyMatch(["théâtre"], CategoryKeys) == Some(6)
  {
    CategoryKeysStart();
    TheaterFirstKey("théâtre", CategoryKeys);
    FirstTermMatch(["théâtre"], CategoryKeys);
  }

  /** `normalize_category(["Théâtre"], []) == "theater"`: the accented key comes after
      six music keys, none of which occurs in the term. */
  lemma NormalizeCategoryTheaterExample()
    ensures NormalizeCategory(["Théâtre"], []) == Some("theater")
  {
    TheaterKeyMatch();
    LowerTheater();
  }

  lemma LowerTheater()
    ensures LowerAll(["Théâtre"]) + LowerAll([]) == ["théâtre"]
  {
    assert Lower("Théâtre") == "théâtre" by {
      assert LowerChar('T') == 't';
    }
  }

  // ---- determine_price_bucket -------------------------------------------------------

  /** One amount matched by `(\d+(?:[.,]\d+)?)\s*€`: its integer digits and its (possibly
      empty) fractional digits. */
  datatype Amount = Amount(whole: string, fraction: string)

  predicate WellFormed(a: Amount) {
    a.whole != [] && AllDigits(a.whole) && AllDigits(a.fraction)
  }

  function Pow10(n: nat): (r: nat)
    ensures r >= 1
  {
    if n == 0 then 1 else 10 * Pow10(n - 1)
  }

  /** `float(p.replace(",", "."))`, as an exact decimal. */
  function AmountValue(a: Amount): (v: real)
    requires WellFormed(a)
    ensures ParseNat(a.whole) as real <= v < ParseNat(a.whole) as real + 1.0
  {
    var whole, fraction := ParseNat(a.whole), ParseNat(a.fraction);
    var scale := Pow10(|a.fraction|);
    FractionBelowOne(a.fraction);
    BelowOne(fraction, scale);
    whole as real + fraction as real / scale as real
  }

  lemma BelowOne(x: nat, y: nat)
    requires x < y
    ensures 0.0 <= x as real / y as real < 1.0
  {
  }

  lemma {:induction false} FractionBelowOne(s: string)
    requires AllDigits(s)
    ensures ParseNat(s) < Pow10(|s|)
    decreases |s|
  {
    if s != [] {
      FractionBelowOne(s[..|s| - 1]);
    }
  }

  /** End of the run of digits starting at `p`. */
  function DigitRunEnd(s: string, p: nat): (e: nat)
    requires p <= |s|
    ensures p <= e <= |s|
    ensures forall i :: p <= i < e ==> IsDigit(s[i])
    ensures e == |s| || !IsDigit(s[e])
    ensures AllDigits(s[p..e])
    decreases |s| - p
  {
    if p < |s| && IsDigit(s[p]) then DigitRunEnd(s, p + 1) else p
  }

  /** The euro-amount pattern tried at position `p`: the amount and the position just after
      the euro sign. A shorter digit run than the maximal one can never be followed by the
      separator, a space or the euro sign, so the maximal runs are the only candidates. */
  function AmountAt(s: string, p: nat): (r: Option<(Amount, nat)>)
    requires p <= |s|
    ensures r.Some? ==> p < r.value.1 <= |s| && s[r.value.1 - 1] == '€' && WellFormed(r.value.0)
    ensures r.Some? ==> r.value.0.whole == s[p..DigitRunEnd(s, p)]
  {
    if p == |s| || !IsDigit(s[p]) then None
    else
      var e := DigitRunEnd(s, p);
      if e + 1 < |s| && (s[e] == '.' || s[e] == ',') && IsDigit(s[e + 1])
         && EuroAfter(s, DigitRunEnd(s, e + 1)).Some?
      then
        var f := DigitRunEnd(s, e + 1);
        Some((Amount(s[p..e], s[e + 1..f]), EuroAfter(s, f).value))
      else
        match EuroAfter(s, e)
        case Some(q) => Some((Amount(s[p..e], ""), q))
        case None => None
  }

  /** `\s*€` at position `q`: the position just after the euro sign. */
  function EuroAfter(s: string, q: nat): (r: Option<nat>)
    requires q <= |s|
    ensures r.Some? ==> q < r.value <= |s| && s[r.value - 1] == '€'
    ensures r.None? <==> SpaceRunEnd(s, q) == |s| || s[SpaceRunEnd(s, q)] != '€'
  {
    var h := SpaceRunEnd(s, q);
    if h < |s| && s[h] == '€' then Some(h + 1) else None
  }

  /** `re.findall(r"(\d+(?:[.,]\d+)?)\s*€", s[p:])`: matches scanned left to right, each
      search resuming after the previous match. */
  function EuroAmounts(s: string, p: nat): (r: seq<Amount>)
    requires p <= |s|
    ensures forall i :: 0 <= i < |r| ==> WellFormed(r[i])
    ensures '€' !in s[p..] ==> r == []
    decreases |s| - p
  {
    if p == |s| then []
    else
      match AmountAt(s, p)
      case Some((a, q)) =>
        assert s[p..][q - 1 - p] == '€';
        [a] + EuroAmounts(s, q)
      case None =>
        assert s[p..] == [s[p]] + s[p + 1..];
        EuroAmounts(s, p + 1)
  }

  function Values(amounts: seq<Amount>): (vs: seq<real>)
    requires forall i :: 0 <= i < |amounts| ==> WellFormed(amounts[i])
    ensures |vs| == |amounts|
    ensures forall i :: 0 <= i < |amounts| ==> vs[i] == AmountValue(amounts[i])
  {
    if amounts == [] then [] else [AmountValue(amounts[0])] + Values(amounts[1..])
  }

  /** `min(values)`. */
  function Min(vs: seq<real>): (m: real)
    requires vs != []
    ensures m in vs
    ensures forall i :: 0 <= i < |vs| ==> m <= vs[i]
  {
    if |vs| == 1 then vs[0]
    else
      var rest := Min(vs[1..]);
      if vs[0] <= rest then vs[0] else rest
  }

  /** The euro amounts in a price text, as numbers. */
  function PriceValues(price: string): seq<real>
  {
    Values(EuroAmounts(price, 0))
  }

  /** `determine_price_bucket`. */
  function PriceBucket(priceInfo: Option<string>, isFree: bool): (r: Option<string>)
    ensures isFree ==> r == Some("free")
    ensures !isFree && !Truthy(priceInfo) ==> r == None
    ensures r.None? || r.value in {"free", "low", "medium", "high"}
    // The cheapest amount decides, and any amount at all takes precedence over keywords.
    ensures !isFree && Truthy(priceInfo) && PriceValues(priceInfo.value) != [] ==>
      var vs := PriceValues(priceInfo.value);
      && (r == Some("low") <==> exists i :: 0 <= i < |vs| && vs[i] < 10.0)
      && (r == Some("medium") <==>
            (exists i :: 0 <= i < |vs| && vs[i] < 30.0) && forall i :: 0 <= i < |vs| ==> vs[i] >= 10.0)
      && (r == Some("high") <==> forall i :: 0 <= i < |vs| ==> vs[i] >= 30.0)
    ensures !isFree && Truthy(priceInfo) && PriceValues(priceInfo.value) == [] ==>
      var lower := Lower(priceInfo.value);
      r == (if Contains(lower, "gratuit") || Contains(lower, "free") || Contains(lower, "libre")
            then Some("free") else None)
  {
    if isFree then Some("free")
    else if !Truthy(priceInfo) then None
    else
      var vs := PriceValues(priceInfo.value);
      var lower := Lower(priceInfo.value);
      if vs != [] then
        var m := Min(vs);
        if m < 10.0 then Some("low")
        else if m < 30.0 then Some("medium")
        else Some("high")
      else if Contains(lower, "gratuit") || Contains(lower, "free") || Contains(lower, "libre") then
        Some("free")
      else None
  }

  /** A price text that is just a number followed by the euro sign holds that one amount. */
  lemma SingleAmount(s: string, digits: string)
    requires digits != [] && AllDigits(digits) && s == digits + "€"
    ensures PriceValues(s) == [ParseNat(digits) as real]
  {
    var n := |digits|;
    assert s[n] == '€' && forall i :: 0 <= i < n ==> s[i] == digits[i];
    assert DigitRunEnd(s, 0) == n;
    assert SpaceRunEnd(s, n) == n;
    assert s[0..n] == digits;
    assert AmountAt(s, 0) == Some((Amount(digits, ""), n + 1));
    assert EuroAmounts(s, 0) == [Amount(digits, "")];
  }

  /** A price that is a single whole euro amount falls in the bucket of that amount. */
  lemma SingleAmountBucket(s: string, digits: string, n: nat)
    requires digits != [] && AllDigits(digits) && s == digits + "€" && ParseNat(digits) == n
    ensures PriceBucket(Some(s), false)
            == Some(if n < 10 then "low" else if n < 30 then "medium" else "high")
  {
    SingleAmount(s, digits);
  }

  /** The value of a two-digit numeral. */
  lemma ParseTwoDigits(d: string)
    requires |d| == 2 && AllDigits(d)
    ensures ParseNat(d) == DigitValue(d[0]) * 10 + DigitValue(d[1])
  {
    var one := d[..1];
    assert one[..0] == [] && one[0] == d[0] && d[1] == d[|d| - 1];
    assert ParseNat(one) == DigitValue(d[0]);
  }

  lemma BucketOfTwoDigitPrice(s: string, d: string)
    requires |d| == 2 && AllDigits(d) && s == d + "€"
    ensures var n := DigitValue(d[0]) * 10 + DigitValue(d[1]);
      PriceBucket(Some(s), false)
      == Some(if n < 10 then "low" else if n < 30 then "medium" else "high")
  {
    ParseTwoDigits(d);
    SingleAmountBucket(s, d, ParseNat(d));
  }

  /** The source's example "5€" is low. */
  lemma LowPriceExample(price: string)
    requires price == "5€"
    ensures PriceBucket(Some(price), false) == Some("low")
  {
    SingleAmountBucket(price, "5", 5);
  }

  /** The source's example "15€" is medium. */
  lemma MediumPriceExample(price: string)
    requires price == "15€"
    ensures PriceBucket(Some(price), false) == Some("medium")
  {
    BucketOfTwoDigitPrice(price, "15");
  }

  // ---- extract_arrondissement -------------------------------------------------------

  /** `750(\d{2})` matches at position `p`. */
  predicate PostalMatchAt(s: string, p: nat) {
    p + 5 <= |s| && s[p..p + 3] == "750" && IsDigit(s[p + 3]) && IsDigit(s[p + 4])
  }

  /** `re.search` for the postal pattern from position `p`: the first match position. */
  function FirstPostalMatch(s: string, p: nat): (r: Option<nat>)
    ensures r.Some? ==> p <= r.value && PostalMatchAt(s, r.value)
    ensures forall q :: p <= q && (r.None? || q < r.value) ==> !PostalMatchAt(s, q)
    decreases |s| - p
  {
    if p + 5 > |s| then None
    else if PostalMatchAt(s, p) then Some(p)
    else FirstPostalMatch(s, p + 1)
  }

  /** `\s+arrondissement` at position `q` of the lower-cased address. */
  predicate SpacesThenWord(lower: string, q: nat) {
    q <= |lower| &&
    var g := SpaceRunEnd(lower, q);
    g > q && "arrondissement" <= lower[g..]
  }

  /** `(?:e|ème|eme)\s+arrondissement` at position `q` of the lower-cased address. */
  predicate SuffixAt(lower: string, q: nat) {
    q < |lower| &&
    ((lower[q] == 'e' && SpacesThenWord(lower, q + 1))
     || (q + 3 <= |lower| && lower[q..q + 3] == "ème" && SpacesThenWord(lower, q + 3))
     || (q + 3 <= |lower| && lower[q..q + 3] == "eme" && SpacesThenWord(lower, q + 3)))
  }

  /** Length of the digit group `(\d{1,2})` of a case-insensitive address match at `p`:
      two digits are tried before one. */
  function AddressMatchAt(lower: string, p: nat): (n: nat)
    ensures n <= 2
    ensures n > 0 ==> p + n <= |lower| && forall i :: p <= i < p + n ==> IsDigit(lower[i])
  {
    if p + 2 <= |lower| && IsDigit(lower[p]) && IsDigit(lower[p + 1]) && SuffixAt(lower, p + 2) then 2
    else if p < |lower| && IsDigit(lower[p]) && SuffixAt(lower, p + 1) then 1
    else 0
  }

  /** `re.search(..., re.I)` for the address pattern from position `p`: the first match
      position and the length of its digit group. */
  function FirstAddressMatch(lower: string, p: nat): (r: Option<(nat, nat)>)
    ensures r.Some? ==> p <= r.value.0 && AddressMatchAt(lower, r.value.0) == r.value.1 > 0
    ensures forall q :: p <= q && (r.None? || q < r.value.0) ==> AddressMatchAt(lower, q) == 0
    decreases |lower| - p
  {
    if p >= |lower| then None
    else if AddressMatchAt(lower, p) > 0 then Some((p, AddressMatchAt(lower, p)))
    else FirstAddressMatch(lower, p + 1)
  }

  /** The arrondissement number a postal code gives, when its first `750NN` is in 1..20. */
  function PostalArrondissement(postalCode: string): (r: Option<nat>)
    ensures r.Some? ==> 1 <= r.value <= 20
  {
    match FirstPostalMatch(postalCode, 0)
    case None => None
    case Some(p) =>
      var n := ParseNat(postalCode[p + 3..p + 5]);
      if 1 <= n <= 20 then Some(n) else None
  }

  /** The digits of the first address match, unchecked. */
  function AddressArrondissement(address: string): (r: Option<string>)
    ensures r.Some? ==> 1 <= |r.value| <= 2 && AllDigits(r.value)
  {
    match FirstAddressMatch(Lower(address), 0)
    case None => None
    case Some((p, n)) => Some(address[p..p + n])
  }

  /** `extract_arrondissement`: the postal code is consulted first and only an in-range
      number from it counts; otherwise the address's digits are taken as written. */
  function ExtractArrondissement(address: Option<string>, postalCode: Option<string>): (r: Option<string>)
    ensures Truthy(postalCode) && PostalArrondissement(postalCode.value).Some? ==>
      r == Some(NatToString(PostalArrondissement(postalCode.value).value) + "e")
    ensures (!Truthy(postalCode) || PostalArrondissement(postalCode.value).None?)
            && Truthy(address) && AddressArrondissement(address.value).Some? ==>
      r == Some(AddressArrondissement(address.value).value + "e")
    ensures r.Some? ==> |r.value| >= 2 && r.value[|r.value| - 1] == 'e'
                        && AllDigits(r.value[..|r.value| - 1])
    ensures r.None? <==>
      (!Truthy(postalCode) || PostalArrondissement(postalCode.value).None?)
      && (!Truthy(address) || AddressArrondissement(address.value).None?)
  {
    var fromPostal := if Truthy(postalCode) then PostalArrondissement(postalCode.value) else None;
    if fromPostal.Some? then
      var r := NatToString(fromPostal.value) + "e";
      assert r[..|r| - 1] == NatToString(fromPostal.value);
      Some(r)
    else if Truthy(address) && AddressArrondissement(address.value).Some? then
      var r := AddressArrondissement(address.value).value + "e";
      assert r[..|r| - 1] == AddressArrondissement(address.value).value;
      Some(r)
    else None
  }

  /** A postal code "750NN" names arrondissement NN when NN is in 1..20. */
  lemma PostalCodeOnly(code: string)
    requires |code| == 5 && code[..3] == "750" && IsDigit(code[3]) && IsDigit(code[4])
    ensures var n := DigitValue(code[3]) * 10 + DigitValue(code[4]);
      PostalArrondissement(code) == if 1 <= n <= 20 then Some(n) else None
  {
    assert PostalMatchAt(code, 0);
    assert FirstPostalMatch(code, 0) == Some(0);
    ParseTwoDigits(code[3..5]);
  }

  /** The source's example: postal code "75011" gives "11e". */
  lemma PostalExample(code: string)
    requires code == "75011"
    ensures ExtractArrondissement(None, Some(code)) == Some("11e")
  {
    PostalCodeOnly(code);
    assert code[3] == '1' && code[4] == '1';
    assert PostalArrondissement(code) == Some(11);
    assert NatToString(1) == "1";
    assert NatToString(11) == NatToString(1) + "1";
    assert NatToString(11) + "e" == "11e";
  }

  /** Postal code "75001" gives "1e": the leading zero is dropped. */
  lemma PostalLeadingZeroExample(code: string)
    requires code == "75001"
    ensures ExtractArrondissement(None, Some(code)) == Some("1e")
  {
    PostalCodeOnly(code);
    assert code[3] == '0' && code[4] == '1';
    assert PostalArrondissement(code) == Some(1);
    assert NatToString(1) + "e" == "1e";
  }

  /** The address fallback is not range-checked: "99e arrondissement" gives "99e", which
      no postal code could produce. */
  lemma AddressFallbackUnchecked(address: string)
    requires address == "99e arrondissement"
    ensures ExtractArrondissement(Some(address), None) == Some("99e")
  {
    var word := "arrondissement";
    assert address == "99e " + word;
    LowerOfLowercase(address);
    assert SpaceRunEnd(address, 3) == 4;
    assert address[4..] == word;
    assert SuffixAt(address, 2);
    assert AddressMatchAt(address, 0) == 2;
    assert FirstAddressMatch(address, 0) == Some((0, 2));
    assert FirstAddressMatch(Lower(address), 0) == Some((0, 2));
    assert address[0..2] == "99";
    assert AddressArrondissement(address) == Some("99");
    assert Truthy(Some(address)) && "99" + "e" == "99e";
  }

  // ---- clean_event ------------------------------------------------------------------

  /** A raw text-valued field: absent, a dictionary with two candidate entries (`fr`/`en`,
      or `base`/`url` for images), or any other value given by its `str()` and its Python
      truthiness. */
  datatype RawText = Absent | Pair(first: Option<string>, second: Option<string>)
                   | Scalar(rendered: string, truthy: bool)

  /** A raw list-valued field: absent, a list or a dictionary (its values) whose entries
      are given by `str()` or None for a null entry, or any other value. */
  datatype RawList = NoList | ListOf(items: seq<Option<string>>)
                   | DictOf(values: seq<Option<string>>) | ScalarItem(rendered: string, truthy: bool)

  /** A field read with `get(key, default)`: the default applies only to a missing key,
      while an explicit null comes through as None. */
  datatype Raw<T> = Missing | Null | Given(value: T)

  datatype Timing = Timing(start: Option<string>, begin: Option<string>, end: Option<string>,
                           allDay: Raw<bool>)

  /** The `location` dictionary; a None entry of an `Option` field is a missing key or a
      null, which `get` does not tell apart. */
  datatype Location = Location(
    name: Option<string>, address: Option<string>, city: Raw<string>,
    postalCode: Option<string>, countryCode: Raw<string>,
    latitude: Option<real>, longitude: Option<real>)

  /** A raw OpenAgenda record. `uid`, `agendaUid` are given by their `str()`; the
      organizer by the name it resolves to. A None `lang` is a missing key, and
      `Some(NullValue)` an explicit null. */
  datatype RawEvent = RawEvent(
    uid: Option<string>, title: RawText, description: RawText, longDescription: RawText,
    timings: seq<Timing>, location: Raw<Location>, categories: RawList, keywords: RawList,
    conditions: RawText, free: Option<bool>, organizer: Option<string>,
    canonicalUrl: Option<string>, url: Option<string>, image: RawText,
    lang: Option<ListInput>, updatedAt: Option<string>, agendaUid: Option<string>)

  /** Python's `a or b` on optional strings. */
  function OrElse(a: Option<string>, b: Option<string>): (r: Option<string>)
    ensures Truthy(r) <==> Truthy(a) || Truthy(b)
    ensures Truthy(a) ==> r == a
  {
    if Truthy(a) then a else b
  }

  /** Title rule: a dictionary gives `fr or en or ""`, any other value its `str()`. */
  function TitleText(t: RawText): string
  {
    match t
    case Absent => ""
    case Pair(fr, en) => if Truthy(OrElse(fr, en)) then OrElse(fr, en).value else ""
    case Scalar(rendered, _) => rendered
  }

  /** Description rule: like the title, but a falsy non-dictionary value gives "". */
  function DescriptionText(t: RawText): string
  {
    match t
    case Absent => ""
    case Pair(fr, en) => if Truthy(OrElse(fr, en)) then OrElse(fr, en).value else ""
    case Scalar(rendered, truthy) => if truthy then rendered else ""
  }

  /** Conditions and image rule: a dictionary gives `first or second`, any other value its
      `str()` when truthy, else None. */
  function OptionalText(t: RawText): Option<string>
  {
    match t
    case Absent => None
    case Pair(a, b) => OrElse(a, b)
    case Scalar(rendered, truthy) => if truthy then Some(rendered) else None
  }

  function PresentItems(items: seq<Option<string>>): (r: seq<string>)
    ensures |r| <= |items|
    ensures forall x :: Some(x) in items <==> x in r
  {
    if items == [] then []
    else (if items[0].Some? then [items[0].value] else []) + PresentItems(items[1..])
  }

  /** Dropping the null entries keeps the order: the entries of a concatenation come out
      as those of its first part followed by those of its second. */
  lemma {:induction false} PresentItemsAppend(a: seq<Option<string>>, b: seq<Option<string>>)
    ensures PresentItems(a + b) == PresentItems(a) + PresentItems(b)
  {
    if a == [] {
      assert a + b == b;
    } else {
      assert (a + b)[0] == a[0] && (a + b)[1..] == a[1..] + b;
      PresentItemsAppend(a[1..], b);
    }
  }

  /** The first kept entry is the first non-null one, so a first-match scan over the kept
      entries sees them in the record's order. */
  lemma {:induction false} PresentItemsFirst(items: seq<Option<string>>, k: nat)
    requires k < |items| && items[k].Some?
    requires forall j :: 0 <= j < k ==> items[j].None?
    ensures PresentItems(items) != [] && PresentItems(items)[0] == items[k].value
  {
    if k > 0 {
      PresentItemsFirst(items[1..], k - 1);
    }
  }

  /** Categories/keywords rule: the `str()` of every non-null entry. */
  function ListItems(l: RawList): (r: seq<string>)
    ensures l.ScalarItem? ==> r == (if l.truthy then [l.rendered] else [])
  {
    match l
    case NoList => []
    case ListOf(items) => PresentItems(items)
    case DictOf(values) => PresentItems(values)
    case ScalarItem(rendered, truthy) => if truthy then [rendered] else []
  }

  /** `s[:n] if s else None` */
  function Truncated(s: string, n: nat): (r: Option<string>)
    ensures r.None? <==> s == ""
    ensures r.Some? ==> |r.value| <= n && r.value <= s
  {
    if s == "" then None else Some(Take(s, n))
  }

  /** `float(x) if x else None`: a zero coordinate is dropped. */
  function Coordinate(x: Option<real>): Option<real>
  {
    if x.Some? && x.value != 0.0 then x else None
  }

  const UnknownVenue: string := "Unknown Venue"

  /** The start text of a timing: `start or begin`. */
  function StartText(t: Timing): Option<string>
  {
    OrElse(t.start, t.begin)
  }

  /** The location dictionary, `{}` when the key is missing. */
  function LocationOf(raw: RawEvent): Location
  {
    if raw.location.Given? then raw.location.value
    else Location(None, None, Missing, None, Missing, None, None)
  }

  /** The values the `Event` constructor refuses: a null `city` or `countryCode` for a
      `str` field, a null `allDay` for a `bool` field, and a null `lang` for a list of
      strings. A null `location` fails earlier, on `get`. */
  predicate NullRejected(raw: RawEvent)
    requires raw.timings != []
  {
    || raw.location.Null?
    || LocationOf(raw).city.Null? || LocationOf(raw).countryCode.Null?
    || raw.timings[0].allDay.Null?
    || raw.lang == Some(NullValue)
  }

  /** The price text and the free flag after the "gratuit" rule. */
  function FreeFlag(raw: RawEvent): (b: bool)
    ensures var p := OptionalText(raw.conditions);
      Truthy(p) && Contains(Lower(p.value), "gratuit") ==> b
  {
    var priceInfo := OptionalText(raw.conditions);
    var declared := raw.free == Some(true);
    if Truthy(priceInfo) && Contains(Lower(priceInfo.value), "gratuit") then true else declared
  }

  /** Everything `clean_event` does after the identifier check, for the identifier
      `eventId`; None for every rejection, including a date that does not parse. */
  function CleanFields(raw: RawEvent, eventId: string, unescape: string -> string,
                       parseDatetime: string -> Option<Instant>): Option<Event>
  {
    var title := StripHtml(TitleText(raw.title), unescape);
    var summary := StripHtml(DescriptionText(raw.description), unescape);
    var longDescription := StripHtml(DescriptionText(raw.longDescription), unescape);
    if title == "" || raw.timings == [] then None
    else
      var timing := raw.timings[0];
      var startText := StartText(timing);
      if !Truthy(startText) then None
      else
        var start := parseDatetime(startText.value);
        var end := if Truthy(timing.end) then parseDatetime(timing.end.value) else None;
        var updated := if Truthy(raw.updatedAt) then parseDatetime(raw.updatedAt.value) else None;
        var location := LocationOf(raw);
        var venue := if Truthy(location.name) then location.name.value else UnknownVenue;
        if start.None? || (Truthy(timing.end) && end.None?)
           || venue == UnknownVenue || (Truthy(raw.updatedAt) && updated.None?)
           || NullRejected(raw) then None
        else
          var categories := ListItems(raw.categories);
          var tags := ListItems(raw.keywords);
          var priceInfo := OptionalText(raw.conditions);
          var isFree := FreeFlag(raw);
          Some(Event(
            eventId := eventId,
            sourceAgendaUid := raw.agendaUid,
            title := title,
            summary := Truncated(summary, 500),
            longDescription := Truncated(longDescription, 2000),
            categories := categories,
            tags := tags,
            categoryNorm := NormalizeCategory(categories, tags),
            start := start.value,
            end := end,
            allDay := timing.allDay.Given? && timing.allDay.value,
            venueName := venue,
            address := location.address,
            city := if location.city.Given? then location.city.value else "Paris",
            postalCode := location.postalCode,
            country := if location.countryCode.Given? then location.countryCode.value else "FR",
            lat := Coordinate(location.latitude),
            lon := Coordinate(location.longitude),
            arrondissement := ExtractArrondissement(location.address, location.postalCode),
            organizer := raw.organizer,
            price := priceInfo,
            isFree := isFree,
            priceBucket := PriceBucket(priceInfo, isFree),
            language := if raw.lang.None? then ["fr"] else EnsureList(raw.lang.value),
            url := OrElse(raw.canonicalUrl, raw.url),
            imageUrl := OptionalText(raw.image),
            updatedAt := updated))
  }

  /** The rejection rules other than the identifier's. */
  predicate Rejected(raw: RawEvent, unescape: string -> string,
                     parseDatetime: string -> Option<Instant>)
  {
    || StripHtml(TitleText(raw.title), unescape) == ""
    || raw.timings == []
    || !Truthy(StartText(raw.timings[0]))
    || !Truthy(LocationOf(raw).name) || LocationOf(raw).name.value == UnknownVenue
    || parseDatetime(StartText(raw.timings[0]).value).None?
    || (Truthy(raw.timings[0].end) && parseDatetime(raw.timings[0].end.value).None?)
    || (Truthy(raw.updatedAt) && parseDatetime(raw.updatedAt.value).None?)
    || NullRejected(raw)
  }

  /** `str(raw_event.get("uid"))`, as the source computes it: a missing uid becomes the
      text "None". */
  function EventIdAsWritten(uid: Option<string>): (id: string)
    ensures uid.None? ==> id == "None"
  {
    if uid.Some? then uid.value else "None"
  }

  /** `clean_event` as the source writes it. */
  function CleanEventAsWritten(raw: RawEvent, unescape: string -> string,
                               parseDatetime: string -> Option<Instant>): Option<Event>
  {
    var eventId := EventIdAsWritten(raw.uid);
    if eventId == "" then None else CleanFields(raw, eventId, unescape, parseDatetime)
  }

  /** As written, an event with no uid at all passes the identifier check and is kept
      under the identifier "None" whenever its other fields are acceptable. */
  lemma MissingUidAcceptedAsWritten(raw: RawEvent, unescape: string -> string,
                                    parseDatetime: string -> Option<Instant>)
    requires raw.uid.None?
    ensures var r := CleanEventAsWritten(raw, unescape, parseDatetime);
      (r.Some? <==> !Rejected(raw, unescape, parseDatetime))
      && (r.Some? ==> r.value.eventId == "None")
  {
    CleanFieldsRejects(raw, "None", unescape, parseDatetime);
  }

  /** `clean_event` with the identifier check doing what it is meant to do: a missing or
      empty uid rejects the record. */
  function CleanEvent(raw: RawEvent, unescape: string -> string,
                      parseDatetime: string -> Option<Instant>): Option<Event>
  {
    if !Truthy(raw.uid) then None else CleanFields(raw, raw.uid.value, unescape, parseDatetime)
  }

  lemma CleanFieldsRejects(raw: RawEvent, eventId: string, unescape: string -> string,
                           parseDatetime: string -> Option<Instant>)
    ensures CleanFields(raw, eventId, unescape, parseDatetime).None?
            <==> Rejected(raw, unescape, parseDatetime)
  {
  }

  /** The accept/reject rules: a record is dropped exactly when its uid is missing or
      empty, its title is empty once stripped, it has no timings, its first timing has no
      start, its location is null or its venue name is missing (or is the placeholder), a
      date does not parse, or the `Event` constructor refuses a null field. */
  lemma CleanEventAcceptance(raw: RawEvent, unescape: string -> string,
                             parseDatetime: string -> Option<Instant>)
    ensures CleanEvent(raw, unescape, parseDatetime).None?
            <==> !Truthy(raw.uid) || Rejected(raw, unescape, parseDatetime)
  {
    if Truthy(raw.uid) {
      CleanFieldsRejects(raw, raw.uid.value, unescape, parseDatetime);
    }
  }

  /** What an accepted record looks like: a non-empty clean title, bounded descriptions
      that are None rather than empty, a real venue, "gratuit" in the price text forcing
      the free flag and the free bucket, and the defaults of the missing keys (city
      "Paris", country "FR", not all-day, language ["fr"]) where the record gives none. */
  ghost predicate CleanedFrom(raw: RawEvent, e: Event)
  {
    && raw.timings != []
    && e.title != "" && !IsSpace(e.title[0]) && SingleSpaced(e.title)
    && (e.summary.Some? ==> 0 < |e.summary.value| <= 500)
    && (e.longDescription.Some? ==> 0 < |e.longDescription.value| <= 2000)
    && e.venueName != "" && e.venueName != UnknownVenue
    && (e.isFree ==> e.priceBucket == Some("free"))
    && (Truthy(e.price) && Contains(Lower(e.price.value), "gratuit") ==> e.isFree)
    && (e.categoryNorm.None? || IsNormalizedCategory(e.categoryNorm.value))
    && e.arrondissement == ExtractArrondissement(e.address, e.postalCode)
    && e.city == (match LocationOf(raw).city case Given(c) => c case _ => "Paris")
    && e.country == (match LocationOf(raw).countryCode case Given(c) => c case _ => "FR")
    && e.allDay == (raw.timings[0].allDay == Given(true))
    && e.language == (match raw.lang case None => ["fr"] case Some(l) => EnsureList(l))
    && raw.lang != Some(NullValue) && !raw.location.Null?
  }

  /** Every event `CleanFields` builds is `CleanedFrom` its record and carries the given
      identifier. */
  lemma CleanFieldsDerived(raw: RawEvent, eventId: string, unescape: string -> string,
                           parseDatetime: string -> Option<Instant>)
    requires CleanFields(raw, eventId, unescape, parseDatetime).Some?
    ensures var e := CleanFields(raw, eventId, unescape, parseDatetime).value;
      e.eventId == eventId && CleanedFrom(raw, e)
  {
  }

  /** The corrected `clean_event`'s accepted events carry their non-empty uid. */
  lemma CleanEventDerived(raw: RawEvent, unescape: string -> string,
                          parseDatetime: string -> Option<Instant>)
    requires CleanEvent(raw, unescape, parseDatetime).Some?
    ensures var e := CleanEvent(raw, unescape, parseDatetime).value;
      e.eventId == raw.uid.value && e.eventId != "" && CleanedFrom(raw, e)
  {
    CleanFieldsDerived(raw, raw.uid.value, unescape, parseDatetime);
  }

  /** `clean_event` as written rejects a record exactly when its uid is the empty text or
      one of the other rules rejects it; an accepted event carries `str(uid)`, "None" for
      a missing uid. */
  lemma CleanEventAsWrittenAcceptance(raw: RawEvent, unescape: string -> string,
                                      parseDatetime: string -> Option<Instant>)
    ensures var r := CleanEventAsWritten(raw, unescape, parseDatetime);
      && (r.None? <==> raw.uid == Some("") || Rejected(raw, unescape, parseDatetime))
      && (r.Some? ==> r.value.eventId == EventIdAsWritten(raw.uid) && CleanedFrom(raw, r.value))
  {
    var eventId := EventIdAsWritten(raw.uid);
    if eventId != "" {
      CleanFieldsRejects(raw, eventId, unescape, parseDatetime);
      if CleanFields(raw, eventId, unescape, parseDatetime).Some? {
        CleanFieldsDerived(raw, eventId, unescape, parseDatetime);
      }
    }
  }
}
