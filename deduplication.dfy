/** `deduplicate_events`: events are sorted by identifier, then kept in that order unless
    an already kept event has the same key, or shares the start date and the venue and
    has a title at least `threshold` similar. The title similarity (difflib's ratio) is a
    parameter. */
module Deduplication {
  import opened Text
  import opened Schema
  import Seqs

  // ---- ordering by event_id ---------------------------------------------------------

  /** Python's `<=` on strings: lexicographic by code point. */
  predicate IdLe(a: string, b: string) {
    a == [] || (b != [] && (a[0] < b[0] || (a[0] == b[0] && IdLe(a[1..], b[1..]))))
  }

  lemma {:induction false} IdLeTotal(a: string, b: string)
    ensures IdLe(a, b) || IdLe(b, a)
  {
    if a != [] && b != [] && a[0] == b[0] {
      IdLeTotal(a[1..], b[1..]);
    }
  }

  lemma {:induction false} IdLeTransitive(a: string, b: string, c: string)
    requires IdLe(a, b) && IdLe(b, c)
    ensures IdLe(a, c)
  {
    if a != [] && a[0] == b[0] && b[0] == c[0] {
      IdLeTransitive(a[1..], b[1..], c[1..]);
    }
  }

  lemma {:induction false} IdLeReflexive(a: string)
    ensures IdLe(a, a)
  {
    if a != [] {
      IdLeReflexive(a[1..]);
    }
  }

  predicate SortedById(s: seq<Event>) {
    forall i, j :: 0 <= i < j < |s| ==> IdLe(s[i].eventId, s[j].eventId)
  }

  /** Places `e` before the first event whose identifier is not smaller, so that among
      equal identifiers the earlier input comes first. */
  function Insert(e: Event, s: seq<Event>): (r: seq<Event>)
    requires SortedById(s)
    ensures SortedById(r)
    ensures multiset(r) == multiset(s) + multiset{e}
  {
    if s == [] then [e]
    else if IdLe(e.eventId, s[0].eventId) then
      InsertFront(e, s);
      [e] + s
    else
      var rest := Insert(e, s[1..]);
      IdLeTotal(e.eventId, s[0].eventId);
      InsertBehind(e, s, rest);
      assert s == [s[0]] + s[1..];
      [s[0]] + rest
  }

  lemma InsertFront(e: Event, s: seq<Event>)
    requires SortedById(s) && s != [] && IdLe(e.eventId, s[0].eventId)
    ensures SortedById([e] + s)
  {
    var r := [e] + s;
    forall i, j | 0 <= i < j < |r| ensures IdLe(r[i].eventId, r[j].eventId) {
      if i == 0 && j > 1 {
        IdLeTransitive(e.eventId, s[0].eventId, s[j - 1].eventId);
      }
    }
  }

  lemma InsertBehind(e: Event, s: seq<Event>, rest: seq<Event>)
    requires SortedById(s) && s != [] && IdLe(s[0].eventId, e.eventId)
    requires SortedById(rest) && multiset(rest) == multiset(s[1..]) + multiset{e}
    ensures SortedById([s[0]] + rest)
  {
    var r := [s[0]] + rest;
    forall i, j | 0 <= i < j < |r| ensures IdLe(r[i].eventId, r[j].eventId) {
      if i == 0 {
        var x := rest[j - 1];
        assert x in multiset(rest);
        if x != e {
          assert x in multiset(s[1..]);
          var k :| 0 <= k < |s[1..]| && s[1..][k] == x;
          assert s[k + 1] == x;
        }
      } else {
        assert r[i] == rest[i - 1] && r[j] == rest[j - 1];
      }
    }
  }

  /** `sorted(events, key=lambda e: e.event_id)`: a stable sort. */
  function SortById(s: seq<Event>): (r: seq<Event>)
    ensures SortedById(r)
    ensures multiset(r) == multiset(s)
  {
    if s == [] then []
    else
      assert s == [s[0]] + s[1..];
      Insert(s[0], SortById(s[1..]))
  }

  // ---- duplicate keys ---------------------------------------------------------------

  /** The exact key: normalised title, start date, normalised venue. */
  datatype Key = Key(title: string, date: int, venue: string)

  /** `start_datetime.date()`: the day number of the instant. */
  function DateKey(t: Instant): int {
    t / 86400
  }

  function VenueKey(e: Event): string {
    Strip(Lower(e.venueName))
  }

  function KeyOf(e: Event): Key {
    Key(NormalizedTitle(e), DateKey(e.start), VenueKey(e))
  }

  function KeySet(kept: seq<Event>): set<Key> {
    set k | k in kept :: KeyOf(k)
  }

  lemma KeySetAppend(kept: seq<Event>, e: Event)
    ensures KeySet(kept + [e]) == KeySet(kept) + {KeyOf(e)}
  {
    assert forall k :: k in kept + [e] <==> k in kept || k == e;
  }

  /** Same start date and same normalised venue. */
  predicate SameSlot(a: Event, b: Event) {
    DateKey(a.start) == DateKey(b.start) && VenueKey(a) == VenueKey(b)
  }

  /** `k` is an event that `e` duplicates: the same exact key, or the same slot with a
      title at least `threshold` similar. */
  predicate DuplicateOf(k: Event, e: Event, threshold: real, similarity: (string, string) -> real) {
    KeyOf(k) == KeyOf(e)
    || (SameSlot(k, e) && similarity(NormalizedTitle(k), NormalizedTitle(e)) >= threshold)
  }

  function DuplicateRelation(threshold: real, similarity: (string, string) -> real): (Event, Event) -> bool
  {
    (k: Event, e: Event) => DuplicateOf(k, e, threshold, similarity)
  }

  // ---- the pass, for any duplicate relation -----------------------------------------

  predicate Duplicate<T(==)>(kept: seq<T>, e: T, dup: (T, T) -> bool) {
    exists k :: k in kept && dup(k, e)
  }

  /** The pass over an already sorted list: each element is appended unless it duplicates
      one kept before it. */
  function Dedup<T(==)>(s: seq<T>, dup: (T, T) -> bool): seq<T>
    decreases |s|
  {
    if s == [] then []
    else
      var kept := Dedup(s[..|s| - 1], dup);
      if Duplicate(kept, s[|s| - 1], dup) then kept
      else kept + [s[|s| - 1]]
  }

  /** The pass keeps a subsequence of its input. */
  lemma {:induction false} DedupSubsequence<T>(s: seq<T>, dup: (T, T) -> bool)
    ensures Seqs.IsSubsequence(Dedup(s, dup), s)
    decreases |s|
  {
    if s != [] {
      var s', x := s[..|s| - 1], s[|s| - 1];
      DedupSubsequence(s', dup);
      assert s == s' + [x];
      var kept := Dedup(s', dup);
      if Duplicate(kept, x, dup) {
        Seqs.SubsequenceSkip(kept, s', x);
      } else {
        Seqs.SubsequenceKeep(kept, s', x);
      }
    }
  }

  /** No element duplicates one before it. */
  predicate NoneDuplicated<T>(r: seq<T>, dup: (T, T) -> bool) {
    forall i, j :: 0 <= i < j < |r| ==> !dup(r[i], r[j])
  }

  /** No kept element duplicates one kept before it. */
  lemma {:induction false} DedupNoDuplicates<T>(s: seq<T>, dup: (T, T) -> bool)
    ensures NoneDuplicated(Dedup(s, dup), dup)
    decreases |s|
  {
    if s != [] {
      DedupNoDuplicates(s[..|s| - 1], dup);
      var kept := Dedup(s[..|s| - 1], dup);
      var r := Dedup(s, dup);
      var e := s[|s| - 1];
      if !Duplicate(kept, e, dup) {
        forall i, j | 0 <= i < j < |r| ensures !dup(r[i], r[j]) {
          assert r[i] == kept[i];
          if j == |kept| {
            assert kept[i] in kept && r[j] == e;
          } else {
            assert r[j] == kept[j];
          }
        }
      }
    }
  }

  /** Every element left out duplicates an element kept from an earlier position. */
  lemma {:induction false} DedupDroppedHasWitness<T>(s: seq<T>, dup: (T, T) -> bool)
    ensures var r := Dedup(s, dup);
      forall i :: 0 <= i < |s| && s[i] !in r ==>
        exists p :: 0 <= p < i && s[p] in r && dup(s[p], s[i])
    decreases |s|
  {
    if s != [] {
      var n := |s| - 1;
      var s' := s[..n];
      DedupDroppedHasWitness(s', dup);
      var kept := Dedup(s', dup);
      var r := Dedup(s, dup);
      assert forall k :: k in kept ==> k in r;
      forall i | 0 <= i < |s| && s[i] !in r
        ensures exists p :: 0 <= p < i && s[p] in r && dup(s[p], s[i])
      {
        if i < n {
          assert s'[i] == s[i];
          var p :| 0 <= p < i && s'[p] in kept && dup(s'[p], s'[i]);
          assert s[p] == s'[p];
        } else {
          var k :| k in kept && dup(k, s[n]);
          DedupSubsequence(s', dup);
          Seqs.SubsequenceShape(kept, s');
          var p :| 0 <= p < n && s'[p] == k;
          assert s[p] == k;
        }
      }
    }
  }

  /** The first element is always kept, at the front. */
  lemma {:induction false} DedupKeepsFirst<T>(s: seq<T>, dup: (T, T) -> bool)
    requires s != []
    ensures var r := Dedup(s, dup); r != [] && r[0] == s[0]
    decreases |s|
  {
    if |s| > 1 {
      DedupKeepsFirst(s[..|s| - 1], dup);
    }
  }

  /** One step of the pass. */
  lemma DedupStep<T>(s: seq<T>, i: nat, dup: (T, T) -> bool)
    requires i < |s|
    ensures Dedup(s[..i + 1], dup) ==
      if Duplicate(Dedup(s[..i], dup), s[i], dup) then Dedup(s[..i], dup)
      else Dedup(s[..i], dup) + [s[i]]
  {
    assert s[..i + 1][..i] == s[..i];
  }

  // ---- deduplicate_events -----------------------------------------------------------

  /** What `deduplicate_events` returns. */
  function Deduplicated(events: seq<Event>, threshold: real,
                        similarity: (string, string) -> real): seq<Event>
  {
    Dedup(SortById(events), DuplicateRelation(threshold, similarity))
  }

  /** `k` is in the same slot as `e` and its title is at least `threshold` similar. */
  predicate SimilarInSlot(k: Event, e: Event, threshold: real,
                          similarity: (string, string) -> real) {
    SameSlot(k, e) && similarity(NormalizedTitle(k), NormalizedTitle(e)) >= threshold
  }

  predicate SimilarKept(kept: seq<Event>, e: Event, threshold: real,
                        similarity: (string, string) -> real) {
    exists m :: 0 <= m < |kept| && SimilarInSlot(kept[m], e, threshold, similarity)
  }

  /** The fuzzy check of `deduplicate_events`: the scan over the kept events that stops at
      the first one in the same slot with a similar enough title. */
  method FindSimilar(deduplicated: seq<Event>, event: Event, threshold: real,
                     similarity: (string, string) -> real) returns (isDuplicate: bool)
    ensures isDuplicate <==> SimilarKept(deduplicated, event, threshold, similarity)
  {
    isDuplicate := false;
    var venueKey := VenueKey(event);
    var titleNormalized := NormalizedTitle(event);
    var j := 0;
    while j < |deduplicated|
      invariant 0 <= j <= |deduplicated|
      invariant forall m :: 0 <= m < j ==>
        !SimilarInSlot(deduplicated[m], event, threshold, similarity)
    {
      var existing := deduplicated[j];
      if DateKey(existing.start) == DateKey(event.start) && VenueKey(existing) == venueKey {
        if similarity(NormalizedTitle(existing), titleNormalized) >= threshold {
          assert SimilarKept(deduplicated, event, threshold, similarity) by {
            assert SimilarInSlot(deduplicated[j], event, threshold, similarity);
          }
          isDuplicate := true;
          break;
        }
      }
      j := j + 1;
    }
  }

  /** The two checks together are the duplicate test of the pass. */
  lemma DuplicateChecks(kept: seq<Event>, e: Event, threshold: real,
                        similarity: (string, string) -> real)
    ensures Duplicate(kept, e, DuplicateRelation(threshold, similarity))
            <==> KeyOf(e) in KeySet(kept) || SimilarKept(kept, e, threshold, similarity)
  {
    var dup := DuplicateRelation(threshold, similarity);
    if KeyOf(e) in KeySet(kept) {
      var k :| k in kept && KeyOf(k) == KeyOf(e);
      assert dup(k, e);
    }
    if SimilarKept(kept, e, threshold, similarity) {
      var m :| 0 <= m < |kept| && SimilarInSlot(kept[m], e, threshold, similarity);
      assert dup(kept[m], e);
    }
    if Duplicate(kept, e, dup) {
      var k :| k in kept && dup(k, e);
      var m :| 0 <= m < |kept| && kept[m] == k;
    }
  }

  /** `deduplicate_events`, loop for loop: `seenKeys` holds the keys of the kept events. */
  method DeduplicateEvents(events: seq<Event>, threshold: real,
                           similarity: (string, string) -> real) returns (deduplicated: seq<Event>)
    ensures deduplicated == Deduplicated(events, threshold, similarity)
  {
    if |events| == 0 {
      return [];
    }
    var dup := DuplicateRelation(threshold, similarity);
    var sorted := SortById(events);
    var seenKeys: set<Key> := {};
    deduplicated := [];
    var i := 0;
    while i < |sorted|
      invariant 0 <= i <= |sorted|
      invariant deduplicated == Dedup(sorted[..i], dup)
      invariant seenKeys == KeySet(deduplicated)
    {
      var event := sorted[i];
      DedupStep(sorted, i, dup);
      DuplicateChecks(deduplicated, event, threshold, similarity);
      var exactKey := KeyOf(event);
      if exactKey in seenKeys {
        i := i + 1;
        continue;
      }
      var isDuplicate := FindSimilar(deduplicated, event, threshold, similarity);
      if !isDuplicate {
        KeySetAppend(deduplicated, event);
        seenKeys := seenKeys + {exactKey};
        deduplicated := deduplicated + [event];
      }
      i := i + 1;
    }
    assert sorted[..i] == sorted;
  }

  /** The result of `deduplicate_events`: empty exactly for empty input; otherwise ordered
      by identifier, no longer than its input, drawn from it, led by a smallest identifier,
      and with no kept event a duplicate of one kept before it. */
  lemma DeduplicatedProperties(events: seq<Event>, threshold: real,
                               similarity: (string, string) -> real)
    ensures var r := Deduplicated(events, threshold, similarity);
      && (r == [] <==> events == [])
      && SortedById(r)
      && |r| <= |events|
      && (forall e :: e in r ==> e in events)
      && (forall i, j :: 0 <= i < j < |r| ==> !DuplicateOf(r[i], r[j], threshold, similarity))
      && (events != [] ==> forall e :: e in events ==> IdLe(r[0].eventId, e.eventId))
  {
    var dup := DuplicateRelation(threshold, similarity);
    var sorted := SortById(events);
    var r := Dedup(sorted, dup);
    assert |sorted| == |events| by {
      assert |multiset(sorted)| == |multiset(events)|;
    }
    DedupSubsequence(sorted, dup);
    Seqs.SubsequenceShape(r, sorted);
    Seqs.SubsequenceOrdered(r, sorted, (a: Event, b: Event) => IdLe(a.eventId, b.eventId));
    DedupNoDuplicates(sorted, dup);
    forall e | e in r ensures e in events {
      assert e in multiset(sorted);
    }
    if events != [] {
      DedupKeepsFirst(sorted, dup);
      forall e | e in events ensures IdLe(r[0].eventId, e.eventId) {
        assert e in multiset(sorted);
        var k :| 0 <= k < |sorted| && sorted[k] == e;
        if k == 0 {
          IdLeReflexive(e.eventId);
        }
      }
    }
  }

  /** An event left out of the result has a kept duplicate whose identifier is no larger:
      within a group of duplicates the smallest identifier survives. */
  lemma DroppedHasSmallerKept(events: seq<Event>, threshold: real,
                              similarity: (string, string) -> real, e: Event)
    requires e in events && e !in Deduplicated(events, threshold, similarity)
    ensures exists k :: k in Deduplicated(events, threshold, similarity)
                        && DuplicateOf(k, e, threshold, similarity)
                        && IdLe(k.eventId, e.eventId)
  {
    var dup := DuplicateRelation(threshold, similarity);
    var sorted := SortById(events);
    assert e in multiset(sorted);
    var i :| 0 <= i < |sorted| && sorted[i] == e;
    DedupDroppedHasWitness(sorted, dup);
    var p :| 0 <= p < i && sorted[p] in Dedup(sorted, dup) && dup(sorted[p], sorted[i]);
    assert DuplicateOf(sorted[p], e, threshold, similarity);
  }

  /** Events that differ in start date or venue are never merged: an event whose slot no
      other input event shares is always kept. */
  lemma AloneInSlotKept(events: seq<Event>, threshold: real,
                        similarity: (string, string) -> real, e: Event)
    requires e in events
    requires forall x :: x in events && SameSlot(x, e) ==> x == e
    ensures e in Deduplicated(events, threshold, similarity)
  {
    if e !in Deduplicated(events, threshold, similarity) {
      DroppedHasSmallerKept(events, threshold, similarity, e);
      var k :| k in Deduplicated(events, threshold, similarity)
               && DuplicateOf(k, e, threshold, similarity) && IdLe(k.eventId, e.eventId);
      DeduplicatedProperties(events, threshold, similarity);
      assert SameSlot(k, e);
    }
  }
}
