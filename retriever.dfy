/** The event retriever: the conjunctive metadata filter, Maximal Marginal Relevance
    re-ranking over given relevance and similarity values, the venue/date concentration
    check, and the `retrieve` flow that chains them after the index search. */
module Retriever {
  import opened Text
  import opened Schema
  import Seqs

  /** The optional constraints handed to `retrieve` and `_filter_by_metadata`. */
  datatype Constraints = Constraints(
    city: Option<string>,
    startDate: Option<Instant>,
    endDate: Option<Instant>,
    category: Option<string>,
    priceConstraint: Option<string>,
    arrondissement: Option<int>)

  /** The retriever's read-only configuration. */
  datatype Config = Config(kInitial: nat, kFinal: nat, mmrDiversity: real)

  // ---- metadata filter --------------------------------------------------------------

  // `parseIso` stands for `datetime.fromisoformat`: None when it raises, or when the
  // datetime it gives cannot be compared with the bounds.

  predicate CityPasses(m: Metadata, city: Option<string>) {
    !Truthy(city) || m.city == city.value
  }

  /** With a bound set, the start must parse and lie in the half-open window. */
  predicate DatePasses(m: Metadata, startDate: Option<Instant>, endDate: Option<Instant>,
                       parseIso: string -> Option<Instant>)
  {
    (startDate.None? && endDate.None?)
    || (match parseIso(m.startDatetime)
        case None => false
        case Some(t) =>
          (startDate.None? || startDate.value <= t) && (endDate.None? || t < endDate.value))
  }

  predicate CategoryPasses(m: Metadata, category: Option<string>) {
    !Truthy(category)
    || m.categoryNorm == Some(category.value)
    || exists j :: 0 <= j < |m.categories| && Lower(m.categories[j]) == category.value
  }

  predicate PricePasses(m: Metadata, priceConstraint: Option<string>) {
    if priceConstraint == Some("free") then m.isFree
    else if priceConstraint == Some("cheap") then
      m.isFree || m.priceBucket == Some("free") || m.priceBucket == Some("low")
    else true
  }

  /** `if arrondissement:` skips both None and 0. */
  predicate ArrondissementPasses(m: Metadata, arrondissement: Option<int>) {
    arrondissement.None? || arrondissement.value == 0
    || m.arrondissement == Some(IntToString(arrondissement.value) + "e")
  }

  predicate Passes(d: Document, c: Constraints, parseIso: string -> Option<Instant>) {
    var m := d.metadata;
    CityPasses(m, c.city) && DatePasses(m, c.startDate, c.endDate, parseIso)
    && CategoryPasses(m, c.category) && PricePasses(m, c.priceConstraint)
    && ArrondissementPasses(m, c.arrondissement)
  }

  /** The documents that pass every constraint, in their original order. */
  function Kept(documents: seq<Document>, c: Constraints,
                parseIso: string -> Option<Instant>): seq<Document>
  {
    Seqs.Filter(documents, d => Passes(d, c, parseIso))
  }

  /** The checks `_filter_by_metadata` makes on one document; each `continue` of the
      loop is a `return false` here. */
  method Check(d: Document, c: Constraints, parseIso: string -> Option<Instant>)
    returns (keep: bool)
    ensures keep == Passes(d, c, parseIso)
  {
    var m := d.metadata;
    if Truthy(c.city) && m.city != c.city.value {
      return false;
    }
    if c.startDate.Some? || c.endDate.Some? {
      var parsed := parseIso(m.startDatetime);
      if parsed.None? {
        return false;
      }
      if c.startDate.Some? && parsed.value < c.startDate.value {
        return false;
      }
      if c.endDate.Some? && parsed.value >= c.endDate.value {
        return false;
      }
    }
    if Truthy(c.category) {
      var lowered := seq(|m.categories|, j requires 0 <= j < |m.categories| => Lower(m.categories[j]));
      if m.categoryNorm != Some(c.category.value) && c.category.value !in lowered {
        assert !CategoryPasses(m, c.category) by {
          forall j | 0 <= j < |m.categories| ensures Lower(m.categories[j]) != c.category.value {
            assert lowered[j] == Lower(m.categories[j]);
          }
        }
        return false;
      }
      assert CategoryPasses(m, c.category) by {
        if m.categoryNorm != Some(c.category.value) {
          var j :| 0 <= j < |lowered| && lowered[j] == c.category.value;
        }
      }
    }
    if c.priceConstraint == Some("free") {
      if !m.isFree {
        return false;
      }
    } else if c.priceConstraint == Some("cheap") {
      if !(m.isFree || m.priceBucket in [Some("free"), Some("low")]) {
        return false;
      }
    }
    if c.arrondissement.Some? && c.arrondissement.value != 0 {
      if m.arrondissement != Some(IntToString(c.arrondissement.value) + "e") {
        return false;
      }
    }
    return true;
  }

  /** `_filter_by_metadata` */
  method FilterByMetadata(documents: seq<Document>, c: Constraints,
                          parseIso: string -> Option<Instant>)
    returns (filtered: seq<Document>)
    ensures filtered == Kept(documents, c, parseIso)
  {
    filtered := [];
    for i := 0 to |documents|
      invariant filtered == Kept(documents[..i], c, parseIso)
    {
      var d := documents[i];
      assert documents[..i + 1] == documents[..i] + [d];
      var keep := Check(d, c, parseIso);
      if keep {
        filtered := filtered + [d];
      }
    }
    assert documents[..|documents|] == documents;
  }

  /** The filter keeps exactly the documents that pass, in their original order. */
  lemma KeptIsOrderedSelection(documents: seq<Document>, c: Constraints,
                               parseIso: string -> Option<Instant>)
    ensures var r := Kept(documents, c, parseIso);
      && Seqs.IsSubsequence(r, documents) && |r| <= |documents|
      && (forall d :: d in r ==> d in documents && Passes(d, c, parseIso))
      && (forall d :: d in documents && Passes(d, c, parseIso) ==> d in r)
  {
    var p := d => Passes(d, c, parseIso);
    Seqs.FilterIsSubsequence(documents, p);
    Seqs.SubsequenceShape(Kept(documents, c, parseIso), documents);
  }

  /** With no constraint set, every document is kept. */
  lemma NoConstraintKeepsAll(documents: seq<Document>, parseIso: string -> Option<Instant>)
    ensures Kept(documents, Constraints(None, None, None, None, None, None), parseIso) == documents
  {
    var c := Constraints(None, None, None, None, None, None);
    Seqs.FilterAll(documents, d => Passes(d, c, parseIso));
  }

  /** With a date bound set, a kept document's start parses and lies in
      [start_date, end_date) for the bounds present; one whose start cannot be parsed is
      dropped. */
  lemma DateWindowKept(documents: seq<Document>, c: Constraints,
                       parseIso: string -> Option<Instant>, d: Document)
    requires c.startDate.Some? || c.endDate.Some?
    ensures d in Kept(documents, c, parseIso) ==>
      var t := parseIso(d.metadata.startDatetime);
      && t.Some?
      && (c.startDate.Some? ==> c.startDate.value <= t.value)
      && (c.endDate.Some? ==> t.value < c.endDate.value)
    ensures parseIso(d.metadata.startDatetime).None? ==> d !in Kept(documents, c, parseIso)
  {
    KeptIsOrderedSelection(documents, c, parseIso);
  }

  /** "free" keeps only free documents; "cheap" keeps free ones and those in the "free" or
      "low" bucket; a category passes through the normalised category or a lower-cased
      raw one; an arrondissement n must be stored as "{n}e"; a set city must match
      exactly. */
  lemma FieldRulesKept(documents: seq<Document>, c: Constraints,
                       parseIso: string -> Option<Instant>, d: Document)
    requires d in Kept(documents, c, parseIso)
    ensures c.priceConstraint == Some("free") ==> d.metadata.isFree
    ensures c.priceConstraint == Some("cheap") ==>
      d.metadata.isFree || d.metadata.priceBucket in {Some("free"), Some("low")}
    ensures Truthy(c.category) ==>
      d.metadata.categoryNorm == c.category
      || exists j :: 0 <= j < |d.metadata.categories| && Lower(d.metadata.categories[j]) == c.category.value
    ensures c.arrondissement.Some? && c.arrondissement.value != 0 ==>
      d.metadata.arrondissement == Some(IntToString(c.arrondissement.value) + "e")
    ensures Truthy(c.city) ==> d.metadata.city == c.city.value
  {
    KeptIsOrderedSelection(documents, c, parseIso);
  }

  // ---- maximal marginal relevance ---------------------------------------------------

  /** Relevance has one value per candidate and similarity is a square matrix over them. */
  predicate Square(rel: seq<real>, sim: seq<seq<real>>) {
    |sim| == |rel| && forall i :: 0 <= i < |sim| ==> |sim[i]| == |rel|
  }

  predicate Distinct(s: seq<nat>) {
    forall i, j :: 0 <= i < j < |s| ==> s[i] != s[j]
  }

  predicate Below(s: seq<nat>, n: nat) {
    forall i :: 0 <= i < |s| ==> s[i] < n
  }

  predicate Increasing(s: seq<nat>) {
    forall i, j :: 0 <= i < j < |s| ==> s[i] < s[j]
  }

  /** `list(range(n))` */
  function Range(n: nat): (r: seq<nat>)
    ensures |r| == n && forall i :: 0 <= i < n ==> r[i] == i
  {
    if n == 0 then [] else Range(n - 1) + [n - 1]
  }

  /** The indices below `m` not yet selected, ascending: `remaining_indices`. */
  function Remaining(m: nat, selected: seq<nat>): seq<nat>
  {
    if m == 0 then []
    else Remaining(m - 1, selected) + (if m - 1 in selected then [] else [m - 1])
  }

  /** The remaining list holds exactly the unselected indices below `m`... */
  lemma {:induction false} RemainingHas(m: nat, selected: seq<nat>, x: nat)
    ensures x in Remaining(m, selected) <==> x < m && x !in selected
  {
    if m > 0 {
      RemainingHas(m - 1, selected, x);
    }
  }

  /** ... in increasing order. */
  lemma {:induction false} RemainingIncreasing(m: nat, selected: seq<nat>)
    ensures Increasing(Remaining(m, selected))
  {
    if m > 0 {
      var r' := Remaining(m - 1, selected);
      RemainingIncreasing(m - 1, selected);
      var r := Remaining(m, selected);
      if m - 1 !in selected {
        assert r == r' + [m - 1];
        forall i, j | 0 <= i < j < |r| ensures r[i] < r[j] {
          assert r[i] == r'[i];
          RemainingHas(m - 1, selected, r'[i]);
          if j < |r| - 1 {
            assert r[j] == r'[j];
          }
        }
      } else {
        assert r == r';
      }
    }
  }

  lemma RemainingBelow(m: nat, selected: seq<nat>)
    ensures Below(Remaining(m, selected), m)
  {
    var r := Remaining(m, selected);
    forall i | 0 <= i < |r| ensures r[i] < m {
      RemainingHas(m, selected, r[i]);
    }
  }

  lemma DistinctAppend(s: seq<nat>, x: nat, n: nat)
    requires Distinct(s) && Below(s, n) && x !in s && x < n
    ensures Distinct(s + [x]) && Below(s + [x], n)
  {
    forall i, j | 0 <= i < j < |s| + 1 ensures (s + [x])[i] != (s + [x])[j] {
      assert (s + [x])[i] == s[i];
      if j == |s| {
        assert s[i] in s;
      }
    }
  }

  lemma {:induction false} RangeIsRemaining(n: nat)
    ensures Range(n) == Remaining(n, [])
  {
    if n > 0 {
      RangeIsRemaining(n - 1);
    }
  }

  /** The elements of a sequence, and those below `m`. */
  function Elements(s: seq<nat>): set<nat> {
    set x | x in s
  }

  function ElementsBelow(s: seq<nat>, m: nat): set<nat> {
    set x | x in s && x < m
  }

  lemma {:induction false} RemainingCount(m: nat, selected: seq<nat>)
    ensures |Remaining(m, selected)| + |ElementsBelow(selected, m)| == m
  {
    if m > 0 {
      RemainingCount(m - 1, selected);
      var s := ElementsBelow(selected, m - 1);
      if m - 1 in selected {
        assert m - 1 !in s;
        assert ElementsBelow(selected, m) == s + {m - 1};
      } else {
        assert ElementsBelow(selected, m) == s;
      }
    }
  }

  lemma {:induction false} DistinctCardinality(s: seq<nat>)
    requires Distinct(s)
    ensures |Elements(s)| == |s|
  {
    if s != [] {
      var s', last := s[..|s| - 1], s[|s| - 1];
      assert s == s' + [last];
      assert Distinct(s');
      DistinctCardinality(s');
      var a := Elements(s');
      assert last !in a;
      assert Elements(s) == a + {last};
    }
  }

  /** As many candidates remain as have not been selected. */
  lemma RemainingSize(n: nat, selected: seq<nat>)
    requires Distinct(selected) && Below(selected, n)
    ensures |Remaining(n, selected)| == n - |selected|
  {
    RemainingCount(n, selected);
    DistinctCardinality(selected);
    assert ElementsBelow(selected, n) == Elements(selected);
  }

  /** `list.remove(x)`: the first occurrence of `x` is dropped. */
  function Remove(s: seq<nat>, x: nat): seq<nat>
  {
    if s == [] then []
    else if s[0] == x then s[1..]
    else [s[0]] + Remove(s[1..], x)
  }

  lemma {:induction false} RemoveAbsent(s: seq<nat>, x: nat)
    requires x !in s
    ensures Remove(s, x) == s
    decreases |s|
  {
    if s != [] {
      RemoveAbsent(s[1..], x);
    }
  }

  lemma {:induction false} RemoveAppend(s: seq<nat>, y: nat, x: nat)
    requires x in s
    ensures Remove(s + [y], x) == Remove(s, x) + [y]
    decreases |s|
  {
    assert (s + [y])[1..] == s[1..] + [y];
    if s[0] != x {
      RemoveAppend(s[1..], y, x);
    }
  }

  lemma {:induction false} RemoveLast(s: seq<nat>, x: nat)
    requires x !in s
    ensures Remove(s + [x], x) == s
    decreases |s|
  {
    if s != [] {
      assert (s + [x])[1..] == s[1..] + [x];
      RemoveLast(s[1..], x);
    }
  }

  /** Selections at or above `m` do not affect the candidates below `m`. */
  lemma {:induction false} RemainingIgnoresAbove(m: nat, selected: seq<nat>, x: nat)
    requires x >= m
    ensures Remaining(m, selected + [x]) == Remaining(m, selected)
  {
    if m > 0 {
      RemainingIgnoresAbove(m - 1, selected, x);
      assert m - 1 in selected + [x] <==> m - 1 in selected;
    }
  }

  /** Removing the chosen index from the remaining list leaves the candidates of the next
      round. */
  lemma {:induction false} RemoveFromRemaining(m: nat, selected: seq<nat>, b: nat)
    requires b !in selected
    ensures Remove(Remaining(m, selected), b) == Remaining(m, selected + [b])
  {
    var r := Remaining(m, selected);
    if b >= m {
      RemainingHas(m, selected, b);
      RemoveAbsent(r, b);
      RemainingIgnoresAbove(m, selected, b);
    } else {
      var r' := Remaining(m - 1, selected);
      RemainingHas(m - 1, selected, b);
      if b == m - 1 {
        assert r == r' + [b];
        RemoveLast(r', b);
        RemainingIgnoresAbove(m - 1, selected, b);
        assert m - 1 in selected + [b];
      } else {
        RemoveFromRemaining(m - 1, selected, b);
        assert m - 1 in selected + [b] <==> m - 1 in selected;
        if m - 1 !in selected {
          assert b in r';
          assert r == r' + [m - 1];
          assert Remaining(m, selected + [b]) == Remaining(m - 1, selected + [b]) + [m - 1];
          RemoveAppend(r', m - 1, b);
        } else {
          assert r == r';
        }
      }
    }
  }

  /** Position of the candidate with the largest score; `np.argmax` and `max(..., key=…)`
      both keep the earliest of equal maxima. */
  function BestPosition(cands: seq<nat>, score: seq<real>): (p: nat)
    requires cands != [] && Below(cands, |score|)
    ensures p < |cands|
    ensures forall i :: 0 <= i < |cands| ==> score[cands[i]] <= score[cands[p]]
    ensures forall i :: 0 <= i < p ==> score[cands[i]] < score[cands[p]]
    decreases |cands|
  {
    if |cands| == 1 then 0
    else
      var p := BestPosition(cands[..|cands| - 1], score);
      if score[cands[|cands| - 1]] > score[cands[p]] then |cands| - 1 else p
  }

  /** The maximal, earliest position is the one `BestPosition` finds. */
  lemma BestPositionUnique(cands: seq<nat>, score: seq<real>, p: nat)
    requires cands != [] && Below(cands, |score|) && p < |cands|
    requires forall i :: 0 <= i < |cands| ==> score[cands[i]] <= score[cands[p]]
    requires forall i :: 0 <= i < p ==> score[cands[i]] < score[cands[p]]
    ensures p == BestPosition(cands, score)
  {
    var q := BestPosition(cands, score);
    assert score[cands[p]] == score[cands[q]];
  }

  /** `max(sim[idx][s] for s in selected)` */
  function MaxSimilarity(row: seq<real>, selected: seq<nat>): (r: real)
    requires selected != [] && Below(selected, |row|)
    ensures forall i :: 0 <= i < |selected| ==> row[selected[i]] <= r
    ensures exists i :: 0 <= i < |selected| && row[selected[i]] == r
    decreases |selected|
  {
    if |selected| == 1 then row[selected[0]]
    else
      var m := MaxSimilarity(row, selected[..|selected| - 1]);
      var x := row[selected[|selected| - 1]];
      if x > m then x else m
  }

  /** `lambda_mult * relevance - (1 - lambda_mult) * max_sim_to_selected`: relevance to
      the query, penalised by similarity to what is already selected. */
  function MmrScore(lambdaMult: real, relevance: real, maxSimToSelected: real): real
  {
    lambdaMult * relevance - (1.0 - lambdaMult) * maxSimToSelected
  }

  /** The MMR score of every candidate against the documents selected so far. */
  function MmrScores(rel: seq<real>, sim: seq<seq<real>>, lambdaMult: real,
                     selected: seq<nat>): (s: seq<real>)
    requires Square(rel, sim) && selected != [] && Below(selected, |rel|)
    ensures |s| == |rel|
  {
    seq(|rel|, i requires 0 <= i < |rel| =>
      MmrScore(lambdaMult, rel[i], MaxSimilarity(sim[i], selected)))
  }

  lemma MmrScoreAt(rel: seq<real>, sim: seq<seq<real>>, lambdaMult: real,
                   selected: seq<nat>, i: nat)
    requires Square(rel, sim) && selected != [] && Below(selected, |rel|) && i < |rel|
    ensures MmrScores(rel, sim, lambdaMult, selected)[i]
         == MmrScore(lambdaMult, rel[i], MaxSimilarity(sim[i], selected))
  {
  }

  /** `int(np.argmax(query_similarities))` */
  function FirstPick(rel: seq<real>): (b: nat)
    requires |rel| > 0
    ensures b < |rel|
  {
    var all := Range(|rel|);
    all[BestPosition(all, rel)]
  }

  /** The pick of one later round: the remaining index with the best MMR score. */
  function NextPick(rel: seq<real>, sim: seq<seq<real>>, lambdaMult: real,
                    selected: seq<nat>): (b: nat)
    requires Square(rel, sim) && selected != [] && Below(selected, |rel|)
    requires Distinct(selected) && |selected| < |rel|
    ensures b < |rel| && b !in selected
  {
    var remaining := Remaining(|rel|, selected);
    RemainingSize(|rel|, selected);
    RemainingBelow(|rel|, selected);
    var b := remaining[BestPosition(remaining, MmrScores(rel, sim, lambdaMult, selected))];
    RemainingHas(|rel|, selected, b);
    b
  }

  /** The indices MMR has selected after `rounds` rounds following the first pick. */
  function MmrPicks(rel: seq<real>, sim: seq<seq<real>>, lambdaMult: real, rounds: nat): (p: seq<nat>)
    requires Square(rel, sim) && rounds < |rel|
    ensures |p| == rounds + 1 && Distinct(p) && Below(p, |rel|)
    decreases rounds
  {
    if rounds == 0 then [FirstPick(rel)]
    else
      var prev := MmrPicks(rel, sim, lambdaMult, rounds - 1);
      var b := NextPick(rel, sim, lambdaMult, prev);
      DistinctAppend(prev, b, |rel|);
      prev + [b]
  }

  lemma MmrPicksStep(rel: seq<real>, sim: seq<seq<real>>, lambdaMult: real, t: nat)
    requires Square(rel, sim) && t + 1 < |rel|
    ensures var p := MmrPicks(rel, sim, lambdaMult, t);
      MmrPicks(rel, sim, lambdaMult, t + 1) == p + [NextPick(rel, sim, lambdaMult, p)]
  {
  }

  /** Rounds after the first pick: `min(k - 1, len(remaining))`, which is `k - 1` once more
      than `k` candidates exist, and no round when `k` is 0. */
  function MmrRounds(k: nat): nat {
    if k == 0 then 0 else k - 1
  }

  /** `[documents[i] for i in selected_indices]` */
  function Pick(documents: seq<Document>, indices: seq<nat>): (r: seq<Document>)
    requires Below(indices, |documents|)
    ensures |r| == |indices| && forall i :: 0 <= i < |r| ==> r[i] == documents[indices[i]]
  {
    seq(|indices|, i requires 0 <= i < |indices| => documents[indices[i]])
  }

  /** What `_apply_mmr` returns. */
  function Mmr(rel: seq<real>, sim: seq<seq<real>>, documents: seq<Document>, k: nat,
               lambdaMult: real): seq<Document>
    requires |documents| == |rel| && Square(rel, sim)
  {
    if |documents| <= k then documents
    else Pick(documents, MmrPicks(rel, sim, lambdaMult, MmrRounds(k)))
  }

  /** `max(np.dot(...) for sel_idx in selected_indices)` */
  method MaxSimilarityOf(row: seq<real>, selected: seq<nat>) returns (m: real)
    requires selected != [] && Below(selected, |row|)
    ensures m == MaxSimilarity(row, selected)
  {
    m := row[selected[0]];
    for j := 1 to |selected|
      invariant m == MaxSimilarity(row, selected[..j])
    {
      assert selected[..j + 1][..j] == selected[..j];
      var x := row[selected[j]];
      if x > m {
        m := x;
      }
    }
    assert selected[..|selected|] == selected;
  }

  /** The inner loop of one round: the MMR score of each remaining index, keeping the
      first best (`max(mmr_scores, key=…)`). */
  method BestRemaining(rel: seq<real>, sim: seq<seq<real>>, lambdaMult: real,
                       selected: seq<nat>, remaining: seq<nat>)
    returns (best: nat)
    requires Square(rel, sim) && selected != [] && Below(selected, |rel|)
    requires Distinct(selected) && |selected| < |rel|
    requires remaining == Remaining(|rel|, selected)
    ensures best == NextPick(rel, sim, lambdaMult, selected)
  {
    RemainingSize(|rel|, selected);
    RemainingBelow(|rel|, selected);
    ghost var scores := MmrScores(rel, sim, lambdaMult, selected);
    var bestPos := 0;
    var bestScore := 0.0;
    for j := 0 to |remaining|
      invariant bestPos <= j && (j > 0 ==> bestPos < j)
      invariant j > 0 ==> bestScore == scores[remaining[bestPos]]
      invariant forall i :: 0 <= i < j ==> scores[remaining[i]] <= bestScore
      invariant forall i :: 0 <= i < bestPos ==> scores[remaining[i]] < bestScore
    {
      var idx := remaining[j];
      var relevance := rel[idx];
      var maxSimToSelected := MaxSimilarityOf(sim[idx], selected);
      var mmrScore := MmrScore(lambdaMult, relevance, maxSimToSelected);
      MmrScoreAt(rel, sim, lambdaMult, selected, idx);
      if j == 0 || mmrScore > bestScore {
        bestPos, bestScore := j, mmrScore;
      }
    }
    BestPositionUnique(remaining, scores, bestPos);
    best := remaining[bestPos];
  }

  /** The first round of `_apply_mmr`: the index of the highest query similarity is
      selected and removed from the list of all indices. */
  method FirstRound(rel: seq<real>) returns (selected: seq<nat>, remaining: seq<nat>)
    requires |rel| > 0
    ensures selected == [FirstPick(rel)] && |remaining| == |rel| - 1
    ensures remaining == Remaining(|rel|, selected)
  {
    var n := |rel|;
    remaining := Range(n);
    var first := FirstPick(rel);
    assert Remove(remaining, first) == Remaining(n, [first]) by {
      RangeIsRemaining(n);
      RemoveFromRemaining(n, [], first);
      assert [] + [first] == [first];
    }
    selected := [first];
    remaining := Remove(remaining, first);
    assert |remaining| == n - 1 by {
      RemainingSize(n, selected);
    }
  }

  /** `_apply_mmr`, with `rel` the query similarities and `sim` the pairwise document
      similarities. */
  method ApplyMmr(rel: seq<real>, sim: seq<seq<real>>, documents: seq<Document>, k: nat,
                  lambdaMult: real)
    returns (r: seq<Document>)
    requires |documents| == |rel| && Square(rel, sim)
    ensures r == Mmr(rel, sim, documents, k, lambdaMult)
  {
    var n := |documents|;
    if n <= k {
      return documents;
    }
    var selected, remaining := FirstRound(rel);
    var rounds := if k - 1 < |remaining| then k - 1 else |remaining|;
    ghost var total := MmrRounds(k);
    assert total < n && rounds <= total && (k > 0 ==> rounds == total);
    var t := 0;
    while t < rounds
      invariant 0 <= t <= total
      invariant selected == MmrPicks(rel, sim, lambdaMult, t)
      invariant remaining == Remaining(n, selected)
    {
      var best := BestRemaining(rel, sim, lambdaMult, selected, remaining);
      MmrPicksStep(rel, sim, lambdaMult, t);
      RemoveFromRemaining(n, selected, best);
      selected := selected + [best];
      remaining := Remove(remaining, best);
      t := t + 1;
    }
    assert t == total;
    r := Pick(documents, selected);
  }

  /** MMR returns its input when it holds at most `k` documents; otherwise `k` documents
      (one when `k` is 0), drawn from the input at distinct positions. */
  lemma MmrSize(rel: seq<real>, sim: seq<seq<real>>, documents: seq<Document>, k: nat,
                lambdaMult: real)
    requires |documents| == |rel| && Square(rel, sim)
    ensures var r := Mmr(rel, sim, documents, k, lambdaMult);
      && (|documents| <= k ==> r == documents)
      && (|documents| > k ==> |r| == (if k == 0 then 1 else k))
      && (forall d :: d in r ==> d in documents)
    ensures |documents| > k ==>
      var p := MmrPicks(rel, sim, lambdaMult, MmrRounds(k));
      Distinct(p) && Mmr(rel, sim, documents, k, lambdaMult) == Pick(documents, p)
  {
    var r := Mmr(rel, sim, documents, k, lambdaMult);
    if |documents| > k {
      var p := MmrPicks(rel, sim, lambdaMult, MmrRounds(k));
      forall d | d in r ensures d in documents {
        var i :| 0 <= i < |r| && r[i] == d;
        assert d == documents[p[i]];
      }
    }
  }

  /** The first pick has the highest relevance, the earliest index among equals. */
  lemma MmrFirstPick(rel: seq<real>)
    requires |rel| > 0
    ensures var b := FirstPick(rel);
      && (forall i :: 0 <= i < |rel| ==> rel[i] <= rel[b])
      && (forall i :: 0 <= i < b ==> rel[i] < rel[b])
  {
    var all := Range(|rel|);
    var p := BestPosition(all, rel);
    assert all[p] == p;
    forall i | 0 <= i < |rel| ensures rel[i] <= rel[p] && (i < p ==> rel[i] < rel[p]) {
      assert all[i] == i;
    }
  }

  /** Each later pick is a not-yet-selected index maximising
      `λ·relevance − (1−λ)·max similarity to the selected`, the earliest index among
      equals. */
  lemma MmrLaterPick(rel: seq<real>, sim: seq<seq<real>>, lambdaMult: real, selected: seq<nat>)
    requires Square(rel, sim) && selected != [] && Below(selected, |rel|)
    requires Distinct(selected) && |selected| < |rel|
    ensures var b, scores := NextPick(rel, sim, lambdaMult, selected),
                             MmrScores(rel, sim, lambdaMult, selected);
      && b < |rel| && b !in selected
      && (forall i :: 0 <= i < |rel| && i !in selected ==> scores[i] <= scores[b])
      && (forall i :: 0 <= i < b && i !in selected ==> scores[i] < scores[b])
  {
    RemainingSize(|rel|, selected);
    RemainingBelow(|rel|, selected);
    BestOfRemaining(|rel|, selected, MmrScores(rel, sim, lambdaMult, selected));
  }

  /** Over the remaining list, the best position names the unselected index of highest
      score, the smallest such index among equal scores. */
  lemma BestOfRemaining(m: nat, selected: seq<nat>, scores: seq<real>)
    requires |scores| == m && Remaining(m, selected) != [] && Below(Remaining(m, selected), m)
    ensures var r := Remaining(m, selected);
      var b := r[BestPosition(r, scores)];
      && b < m && b !in selected
      && (forall i :: 0 <= i < m && i !in selected ==> scores[i] <= scores[b])
      && (forall i :: 0 <= i < b && i !in selected ==> scores[i] < scores[b])
  {
    var remaining := Remaining(m, selected);
    var b := remaining[BestPosition(remaining, scores)];
    RemainingHas(m, selected, b);
    forall i | 0 <= i < m && i !in selected
      ensures scores[i] <= scores[b] && (i < b ==> scores[i] < scores[b])
    {
      BestOfRemainingAt(m, selected, scores, i);
    }
  }

  lemma BestOfRemainingAt(m: nat, selected: seq<nat>, scores: seq<real>, i: nat)
    requires |scores| == m && Remaining(m, selected) != [] && Below(Remaining(m, selected), m)
    requires i < m && i !in selected
    ensures var r := Remaining(m, selected);
      var b := r[BestPosition(r, scores)];
      scores[i] <= scores[b] && (i < b ==> scores[i] < scores[b])
  {
    var remaining := Remaining(m, selected);
    var q := BestPosition(remaining, scores);
    RemainingIncreasing(m, selected);
    RemainingHas(m, selected, i);
    var j :| 0 <= j < |remaining| && remaining[j] == i;
    assert q < j ==> remaining[q] < remaining[j];
  }

  /** The first `k` documents of MMR over more than `k` candidates are `k` of them. */
  lemma MmrTake(rel: seq<real>, sim: seq<seq<real>>, documents: seq<Document>, k: nat,
                lambdaMult: real)
    requires |documents| == |rel| && Square(rel, sim) && |documents| > k
    ensures var r := Take(Mmr(rel, sim, documents, k, lambdaMult), k);
      |r| == k && forall d :: d in r ==> d in documents
  {
    var m := Mmr(rel, sim, documents, k, lambdaMult);
    MmrSize(rel, sim, documents, k, lambdaMult);
    var r := Take(m, k);
    forall d | d in r ensures d in documents {
      var i :| 0 <= i < |r| && r[i] == d;
      assert r[i] == m[i];
    }
  }

  // ---- venue concentration ----------------------------------------------------------

  /** `f"{venue}_{date}"` */
  function VenueKey(d: Document): string {
    d.metadata.venueName + "_" + d.metadata.startDatetime
  }

  /** How many documents share `key`. */
  function Occurrences(documents: seq<Document>, key: string): (c: nat)
    ensures c <= |documents|
  {
    if documents == [] then 0
    else Occurrences(documents[..|documents| - 1], key)
         + (if VenueKey(documents[|documents| - 1]) == key then 1 else 0)
  }

  /** A key that occurs is the key of some document. */
  lemma {:induction false} OccurrencesWitness(documents: seq<Document>, key: string)
    requires Occurrences(documents, key) > 0
    ensures exists j :: 0 <= j < |documents| && VenueKey(documents[j]) == key
  {
    var last := |documents| - 1;
    if VenueKey(documents[last]) != key {
      OccurrencesWitness(documents[..last], key);
      var j :| 0 <= j < last && VenueKey(documents[..last][j]) == key;
      assert documents[j] == documents[..last][j];
    }
  }

  /** No venue/start key is shared by more than half of the documents. */
  predicate Diverse(documents: seq<Document>) {
    |documents| <= 2
    || forall i :: 0 <= i < |documents| ==> Occurrences(documents, VenueKey(documents[i])) <= |documents| / 2
  }

  /** `max(counts.values())`, 0 for an empty map. */
  method MaxCount(counts: map<string, nat>) returns (maxCount: nat)
    ensures forall key :: key in counts ==> counts[key] <= maxCount
    ensures maxCount == 0 || exists key :: key in counts && counts[key] == maxCount
  {
    maxCount := 0;
    var keys := counts.Keys;
    while keys != {}
      invariant keys <= counts.Keys
      invariant forall key :: key in counts && key !in keys ==> counts[key] <= maxCount
      invariant maxCount == 0 || exists key :: key in counts && counts[key] == maxCount
      decreases |keys|
    {
      var key :| key in keys;
      if counts[key] > maxCount {
        maxCount := counts[key];
      }
      keys := keys - {key};
    }
  }

  /** `_check_venue_diversity` */
  method CheckVenueDiversity(documents: seq<Document>) returns (diverse: bool)
    ensures diverse == Diverse(documents)
  {
    if |documents| <= 2 {
      return true;
    }
    var venueCounts: map<string, nat> := map[];
    for i := 0 to |documents|
      invariant forall key :: key in venueCounts ==> venueCounts[key] > 0
      invariant forall key :: Occurrences(documents[..i], key)
                              == if key in venueCounts then venueCounts[key] else 0
    {
      var prefix := documents[..i + 1];
      assert prefix[..i] == documents[..i];
      var key := VenueKey(documents[i]);
      var count := if key in venueCounts then venueCounts[key] else 0;
      venueCounts := venueCounts[key := count + 1];
    }
    assert documents[..|documents|] == documents;
    var maxCount := MaxCount(venueCounts);
    diverse := maxCount <= |documents| / 2;
    if !diverse {
      var key :| key in venueCounts && venueCounts[key] == maxCount;
      OccurrencesWitness(documents, key);
    }
  }

  // ---- retrieve ---------------------------------------------------------------------

  /** `np.dot` of two vectors. */
  function Dot(a: seq<real>, b: seq<real>): real
    decreases |a|
  {
    if a == [] || b == [] then 0.0 else a[0] * b[0] + Dot(a[1..], b[1..])
  }

  /** Similarity of each document to the query. */
  function Relevance(queryVector: seq<real>, vectors: seq<seq<real>>): (r: seq<real>)
    ensures |r| == |vectors|
  {
    seq(|vectors|, i requires 0 <= i < |vectors| => Dot(vectors[i], queryVector))
  }

  /** Pairwise similarity of the documents. */
  function Similarity(vectors: seq<seq<real>>): (s: seq<seq<real>>)
    ensures |s| == |vectors| && forall i :: 0 <= i < |s| ==> |s[i]| == |vectors|
  {
    seq(|vectors|, i requires 0 <= i < |vectors| =>
      seq(|vectors|, j requires 0 <= j < |vectors| => Dot(vectors[i], vectors[j])))
  }

  function HitDocuments(hits: seq<(Document, real)>): (r: seq<Document>)
    ensures |r| == |hits| && forall i :: 0 <= i < |r| ==> r[i] == hits[i].0
  {
    seq(|hits|, i requires 0 <= i < |hits| => hits[i].0)
  }

  function Texts(documents: seq<Document>): (r: seq<string>)
    ensures |r| == |documents|
  {
    seq(|documents|, i requires 0 <= i < |documents| => documents[i].pageContent)
  }

  /** What `retrieve` returns. `search` stands for the index search, `embedPassages` for
      the embedding of the documents' texts (one vector per text) and `embedQuery` for the
      query embedding. */
  function Retrieved(config: Config, query: string, c: Constraints,
                     search: (string, nat) -> seq<(Document, real)>,
                     embedPassages: seq<string> -> seq<seq<real>>,
                     embedQuery: string -> seq<real>,
                     parseIso: string -> Option<Instant>): seq<Document>
    requires forall texts :: |embedPassages(texts)| == |texts|
  {
    var hits := search(query, config.kInitial);
    if hits == [] then []
    else
      var filtered := Kept(HitDocuments(hits), c, parseIso);
      if filtered == [] then []
      else RetrievedFrom(config, query, filtered, embedPassages, embedQuery)
  }

  /** The tail of `retrieve` once some documents passed the filter: MMR when more than
      `k_final` of them did, then the first `k_final`. */
  function RetrievedFrom(config: Config, query: string, filtered: seq<Document>,
                         embedPassages: seq<string> -> seq<seq<real>>,
                         embedQuery: string -> seq<real>): seq<Document>
    requires forall texts :: |embedPassages(texts)| == |texts|
  {
    if |filtered| > config.kFinal then
      var vectors := embedPassages(Texts(filtered));
      Take(Mmr(Relevance(embedQuery(query), vectors), Similarity(vectors), filtered,
               config.kFinal, LambdaMult(config)), config.kFinal)
    else Take(filtered, config.kFinal)
  }

  /** `lambda_mult = 1 - mmr_diversity`: the weight MMR gives to relevance. */
  function LambdaMult(config: Config): real {
    1.0 - config.mmrDiversity
  }

  /** `retrieve` */
  method Retrieve(config: Config, query: string, c: Constraints,
                  search: (string, nat) -> seq<(Document, real)>,
                  embedPassages: seq<string> -> seq<seq<real>>,
                  embedQuery: string -> seq<real>,
                  parseIso: string -> Option<Instant>)
    returns (r: seq<Document>)
    requires forall texts :: |embedPassages(texts)| == |texts|
    ensures r == Retrieved(config, query, c, search, embedPassages, embedQuery, parseIso)
  {
    var results := search(query, config.kInitial);
    if |results| == 0 {
      return [];
    }
    var documents := HitDocuments(results);
    var filteredDocs := FilterByMetadata(documents, c, parseIso);
    if |filteredDocs| == 0 {
      return [];
    }
    ghost var filtered := filteredDocs;
    assert Retrieved(config, query, c, search, embedPassages, embedQuery, parseIso)
        == RetrievedFrom(config, query, filtered, embedPassages, embedQuery);
    if |filteredDocs| > config.kFinal {
      var docEmbeddings := embedPassages(Texts(filteredDocs));
      var queryEmbedding := embedQuery(query);
      var rel := Relevance(queryEmbedding, docEmbeddings);
      var sim := Similarity(docEmbeddings);
      filteredDocs := ApplyMmr(rel, sim, filteredDocs, config.kFinal, LambdaMult(config));
    }
    // The concentration check only logs; its outcome never changes the result.
    var diverse := CheckVenueDiversity(Take(filteredDocs, 5));
    r := Take(filteredDocs, config.kFinal);
  }

  /** Once some documents passed the filter, `retrieve` returns the first `k_final` of
      them when there are no more than that, and otherwise exactly `k_final` of them
      chosen by MMR. */
  lemma RetrievedFromProperties(config: Config, query: string, filtered: seq<Document>,
                                embedPassages: seq<string> -> seq<seq<real>>,
                                embedQuery: string -> seq<real>)
    requires forall texts :: |embedPassages(texts)| == |texts|
    requires filtered != []
    ensures var r := RetrievedFrom(config, query, filtered, embedPassages, embedQuery);
      && |r| <= config.kFinal
      && (|filtered| <= config.kFinal ==> r == filtered)
      && (|filtered| > config.kFinal ==> |r| == config.kFinal)
      && (forall d :: d in r ==> d in filtered)
  {
    if |filtered| > config.kFinal {
      var vectors := embedPassages(Texts(filtered));
      MmrTake(Relevance(embedQuery(query), vectors), Similarity(vectors), filtered,
              config.kFinal, LambdaMult(config));
    }
  }

  /** `retrieve` returns nothing when the search or the filter yields nothing, at most
      `k_final` documents otherwise, each a search hit that passes every constraint; the
      filtered list is returned as is (up to `k_final`) unless more than `k_final` survive,
      and only then is MMR applied, with λ = 1 − `mmr_diversity`. */
  lemma RetrievedProperties(config: Config, query: string, c: Constraints,
                            search: (string, nat) -> seq<(Document, real)>,
                            embedPassages: seq<string> -> seq<seq<real>>,
                            embedQuery: string -> seq<real>,
                            parseIso: string -> Option<Instant>)
    requires forall texts :: |embedPassages(texts)| == |texts|
    ensures var r, hits := Retrieved(config, query, c, search, embedPassages, embedQuery, parseIso),
                           search(query, config.kInitial);
      var filtered := Kept(HitDocuments(hits), c, parseIso);
      && |r| <= config.kFinal
      && (hits == [] || filtered == [] ==> r == [])
      && (hits != [] && |filtered| <= config.kFinal ==> r == filtered)
      && (hits != [] && |filtered| > config.kFinal ==> |r| == config.kFinal)
      && (forall d :: d in r ==> d in HitDocuments(hits) && Passes(d, c, parseIso))
  {
    var hits := search(query, config.kInitial);
    var filtered := Kept(HitDocuments(hits), c, parseIso);
    if hits != [] && filtered != [] {
      KeptIsOrderedSelection(HitDocuments(hits), c, parseIso);
      RetrievedFromProperties(config, query, filtered, embedPassages, embedQuery);
    }
  }
}
