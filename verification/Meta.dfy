/**
 A log line's `meta`, written as a sorted map without making one (src/extensions.rs).

 The pairs are looked over once for each key emitted. What comes out is compared with the
 map the pairs denote, and there is only one sorted list of entries for a map.
 */
module Meta {
  import opened Common

  type Pairs = seq<(string, string)>

  /** The order of strings: as `str` compares them, and as their UTF-8 bytes compare. */
  predicate Less(a: string, b: string) {
    b != "" && (a == "" || a[0] < b[0] || (a[0] == b[0] && Less(a[1..], b[1..])))
  }

  lemma {:induction false} LessIsTransitive(a: string, b: string, c: string)
    requires Less(a, b) && Less(b, c)
    ensures Less(a, c)
  {
    if a != "" && a[0] == b[0] == c[0] {
      LessIsTransitive(a[1..], b[1..], c[1..]);
    }
  }

  lemma {:induction false} LessIsTotal(a: string, b: string)
    ensures Less(a, b) || a == b || Less(b, a)
  {
    if a != "" && b != "" && a[0] == b[0] {
      LessIsTotal(a[1..], b[1..]);
      assert a == [a[0]] + a[1..] && b == [b[0]] + b[1..];
    }
  }

  lemma {:induction false} LessIsStrict(a: string, b: string)
    requires Less(a, b)
    ensures a != b && !Less(b, a)
  {
    if a != "" && a[0] == b[0] {
      LessIsStrict(a[1..], b[1..]);
    }
  }

  /** What the pairs denote: where a key is repeated, its last value. */
  function Denoted(pairs: Pairs): map<string, string> {
    if pairs == [] then map[] else
      Denoted(pairs[..|pairs| - 1])[pairs[|pairs| - 1].0 := pairs[|pairs| - 1].1]
  }

  predicate Beyond(key: string, after: Option<string>) {
    after.None? || Less(after.value, key)
  }

  /** The least of the map's keys beyond `after`, and what it maps to. */
  predicate IsNext(m: map<string, string>, after: Option<string>, next: Option<(string, string)>) {
    match next
    case None => forall key :: key in m ==> !Beyond(key, after)
    case Some((key, value)) =>
      && key in m && m[key] == value && Beyond(key, after)
      && forall other :: other in m && Beyond(other, after) ==> !Less(other, key)
  }

  method NextAfter(pairs: Pairs, after: Option<string>) returns (next: Option<(string, string)>)
    ensures IsNext(Denoted(pairs), after, next)
  {
    next := None;
    var i := 0;
    while i < |pairs|
      invariant 0 <= i <= |pairs|
      invariant IsNext(Denoted(pairs[..i]), after, next)
    {
      var (key, value) := pairs[i];
      assert pairs[..i + 1][..i] == pairs[..i];
      if Beyond(key, after) {
        if next.None? || !Less(next.value.0, key) {
          ghost var was := next;
          if was.Some? {
            SmallerStill(Denoted(pairs[..i]), after, was.value.0, key);
          }
          next := Some((key, value));
        } else {
          LessIsStrict(next.value.0, key);
        }
      }
      LessIsIrreflexive(key);
      i := i + 1;
    }
    assert pairs[..i] == pairs;
  }

  lemma LessIsIrreflexive(a: string)
    ensures !Less(a, a)
  {
    if Less(a, a) {
      LessIsStrict(a, a);
    }
  }

  lemma SmallerStill(m: map<string, string>, after: Option<string>, smallest: string, key: string)
    requires forall other :: other in m && Beyond(other, after) ==> !Less(other, smallest)
    requires !Less(smallest, key)
    ensures forall other :: other in m && Beyond(other, after) ==> !Less(other, key)
  {
    LessIsTotal(smallest, key);
    forall other | other in m && Beyond(other, after) && Less(other, key) ensures false {
      if smallest != key {
        LessIsTransitive(other, key, smallest);
      }
    }
  }

  predicate Sorted(entries: Pairs) {
    forall i, j :: 0 <= i < j < |entries| ==> Less(entries[i].0, entries[j].0)
  }

  /** Entries in order of key, with one for each key of `m` and its value. */
  predicate Canonical(entries: Pairs, m: map<string, string>) {
    Sorted(entries) && Denoted(entries) == m
  }

  lemma {:induction false} KeysAreEntries(entries: Pairs)
    ensures forall key :: key in Denoted(entries) <==> exists i :: 0 <= i < |entries| && entries[i].0 == key
  {
    if entries != [] {
      var most := entries[..|entries| - 1];
      KeysAreEntries(most);
      assert forall i :: 0 <= i < |most| ==> entries[i] == most[i];
    }
  }

  lemma {:induction false} SortedSize(entries: Pairs)
    requires Sorted(entries)
    ensures |Denoted(entries)| == |entries|
  {
    if entries != [] {
      var n := |entries| - 1;
      KeysAreEntries(entries[..n]);
      SortedSize(entries[..n]);
      LessIsIrreflexive(entries[n].0);
      assert entries[n].0 !in Denoted(entries[..n]);
    }
  }

  /** The keys of some pairs, each counted where it first appears. */
  function Distinct(pairs: Pairs): nat {
    if pairs == [] then 0 else
      var n := |pairs| - 1;
      Distinct(pairs[..n]) + if exists j :: 0 <= j < n && pairs[j].0 == pairs[n].0 then 0 else 1
  }

  lemma {:induction false} DistinctIsSize(pairs: Pairs)
    ensures Distinct(pairs) == |Denoted(pairs)|
  {
    if pairs != [] {
      var n := |pairs| - 1;
      DistinctIsSize(pairs[..n]);
      KeysAreEntries(pairs[..n]);
      assert forall i :: 0 <= i < n ==> pairs[..n][i] == pairs[i];
    }
  }

  lemma EmitKeepsOrder(entries: Pairs, key: string, value: string)
    requires Sorted(entries) && (entries != [] ==> Less(entries[|entries| - 1].0, key))
    ensures Sorted(entries + [(key, value)])
    ensures Denoted(entries + [(key, value)]) == Denoted(entries)[key := value]
  {
    var more := entries + [(key, value)];
    assert more[..|entries|] == entries;
    forall i, j | 0 <= i < j < |more| ensures Less(more[i].0, more[j].0) {
      if j == |entries| && i < |entries| - 1 {
        LessIsTransitive(entries[i].0, entries[|entries| - 1].0, key);
      }
    }
  }

  /** Moving on to the next key passes that key, and no other. */
  lemma EmitReaches(m: map<string, string>, after: Option<string>, key: string)
    requires IsNext(m, after, if key in m then Some((key, m[key])) else None)
    requires key in m
    ensures
      var passed, left := (set k | k in m && !Beyond(k, after)), (set k | k in m && Beyond(k, after));
      && (set k | k in m && !Beyond(k, Some(key))) == passed + {key}
      && (set k | k in m && Beyond(k, Some(key))) == left - {key}
      && key in left
  {
    LessIsIrreflexive(key);
    forall k | k in m ensures Beyond(k, Some(key)) <==> Beyond(k, after) && k != key {
      LessIsTotal(k, key);
      if Less(key, k) && after.Some? {
        LessIsTransitive(after.value, key, k);
      }
      if Less(k, key) {
        LessIsStrict(k, key);
      }
    }
  }

  /** The keys still to be written. */
  ghost function Left(m: map<string, string>, after: Option<string>): set<string> {
    set key | key in m && Beyond(key, after)
  }

  /** The entries up to that key have been written, and no others. */
  ghost predicate Emitted(m: map<string, string>, after: Option<string>, entries: Pairs) {
    && Sorted(entries) && (entries == [] <==> after.None?)
    && (after.Some? ==> entries[|entries| - 1].0 == after.value)
    && Denoted(entries).Keys == (set key | key in m && !Beyond(key, after))
    && forall key :: key in Denoted(entries) ==> Denoted(entries)[key] == m[key]
  }

  lemma EmittedMore(m: map<string, string>, after: Option<string>, entries: Pairs, key: string, value: string)
    requires Emitted(m, after, entries) && IsNext(m, after, Some((key, value)))
    ensures Emitted(m, Some(key), entries + [(key, value)])
    ensures Left(m, Some(key)) == Left(m, after) - {key} && key in Left(m, after)
  {
    EmitKeepsOrder(entries, key, value);
    EmitReaches(m, after, key);
    hide Sorted, Denoted, Beyond;
  }

  lemma EmittedAll(m: map<string, string>, after: Option<string>, entries: Pairs)
    requires Emitted(m, after, entries) && IsNext(m, after, None)
    ensures Canonical(entries, m)
  {}

  /** The last pair with its key, and what it says. */
  predicate SaysLast(pairs: Pairs, i: nat, key: string, value: string) {
    i < |pairs| && pairs[i] == (key, value) && forall j :: i < j < |pairs| ==> pairs[j].0 != key
  }

  lemma {:induction false} DenotedIsTheLast(pairs: Pairs, key: string, value: string)
    ensures key in Denoted(pairs) && Denoted(pairs)[key] == value <==> exists i: nat :: SaysLast(pairs, i, key, value)
  {
    if pairs != [] {
      var n := |pairs| - 1;
      var most := pairs[..n];
      DenotedIsTheLast(most, key, value);
      if pairs[n].0 == key {
        assert pairs[n].1 == value ==> SaysLast(pairs, n, key, value);
      } else {
        forall i: nat ensures SaysLast(pairs, i, key, value) <==> SaysLast(most, i, key, value) {
          assert i < n ==> pairs[i] == most[i];
        }
      }
    }
  }

  /** What a canonical list holds: exactly the last pair of each key. */
  lemma CanonicalMeans(entries: Pairs, pairs: Pairs, key: string, value: string)
    requires Canonical(entries, Denoted(pairs))
    ensures (key, value) in entries <==> exists i: nat :: SaysLast(pairs, i, key, value)
  {
    DenotedIsTheLast(pairs, key, value);
    DenotedIsTheLast(entries, key, value);
    if (key, value) in entries {
      var k: nat :| k < |entries| && entries[k] == (key, value);
      forall j | k < j < |entries| ensures entries[j].0 != key {
        LessIsStrict(key, entries[j].0);
      }
      assert SaysLast(entries, k, key, value);
    }
  }

  /** Where `a` comes before `b`: it ends there, or its character does. */
  predicate FallsShortAt(a: string, b: string, k: nat) {
    k <= |a| && k < |b| && a[..k] == b[..k] && (k == |a| || a[k] < b[k])
  }

  ghost predicate ComesBefore(a: string, b: string) { exists k: nat :: FallsShortAt(a, b, k) }

  lemma FallsShortFurtherOn(a: string, b: string, k: nat)
    requires a != "" && b != "" && a[0] == b[0]
    ensures FallsShortAt(a, b, k + 1) <==> FallsShortAt(a[1..], b[1..], k)
    ensures !FallsShortAt(a, b, 0)
  {
    if k < |a| && k < |b| {
      assert a[..k + 1] == [a[0]] + a[1..][..k] && b[..k + 1] == [b[0]] + b[1..][..k];
      assert a[..k + 1][1..] == a[1..][..k] && b[..k + 1][1..] == b[1..][..k];
    }
  }

  lemma FallsShortAtOnce(a: string, b: string, k: nat)
    requires a == "" || b == "" || a[0] != b[0]
    ensures FallsShortAt(a, b, k) ==> k == 0
  {
    if 0 < k <= |a| && k < |b| {
      assert a[..k][0] == a[0] && b[..k][0] == b[0];
    }
  }

  /** The order is the dictionary's. */
  lemma {:induction false} LessIsLexicographic(a: string, b: string)
    ensures Less(a, b) <==> ComesBefore(a, b)
  {
    if a == "" || b == "" || a[0] != b[0] {
      forall k: nat ensures FallsShortAt(a, b, k) ==> k == 0 {
        FallsShortAtOnce(a, b, k);
      }
      assert Less(a, b) <==> FallsShortAt(a, b, 0);
    } else {
      LessIsLexicographic(a[1..], b[1..]);
      forall k: nat ensures FallsShortAt(a, b, k + 1) <==> FallsShortAt(a[1..], b[1..], k) {
        FallsShortFurtherOn(a, b, k);
      }
      if ComesBefore(a, b) {
        var k: nat :| FallsShortAt(a, b, k);
        FallsShortFurtherOn(a, b, 0);
        assert FallsShortAt(a[1..], b[1..], k - 1);
      }
      if ComesBefore(a[1..], b[1..]) {
        var k: nat :| FallsShortAt(a[1..], b[1..], k);
        assert FallsShortAt(a, b, k + 1);
      }
    }
  }

  /**
   The entries written, and the length announced before them. It ends; it emits every key
   once, in order, with its last value; and the length is right.
   */
  method Serialize(pairs: Pairs) returns (announced: nat, entries: Pairs)
    ensures Canonical(entries, Denoted(pairs))
    ensures forall key, value :: (key, value) in entries <==> exists i: nat :: SaysLast(pairs, i, key, value)
    ensures forall i, j :: 0 <= i < j < |entries| ==> ComesBefore(entries[i].0, entries[j].0)
    ensures announced == |entries|
  {
    hide Denoted, IsNext, Emitted, Left;
    announced := 0;
    for i := 0 to |pairs|
      invariant announced == Distinct(pairs[..i])
    {
      var earlier := exists j :: 0 <= j < i && pairs[j].0 == pairs[i].0;
      assert pairs[..i + 1][..i] == pairs[..i];
      if !earlier {
        announced := announced + 1;
      }
    }
    assert pairs[..|pairs|] == pairs;

    ghost var m := Denoted(pairs);
    entries := [];
    var after := None;
    NothingEmitted(m);
    var next := NextAfter(pairs, after);
    while next.Some?
      invariant IsNext(m, after, next) && Emitted(m, after, entries)
      decreases Left(m, after)
    {
      var (key, value) := next.value;
      EmittedMore(m, after, entries, key, value);
      entries := entries + [(key, value)];
      after := Some(key);
      next := NextAfter(pairs, after);
    }
    EmittedAll(m, after, entries);
    CanonicalSays(entries, pairs);
    SortedSize(entries);
    DistinctIsSize(pairs);
  }

  lemma CanonicalSays(entries: Pairs, pairs: Pairs)
    requires Canonical(entries, Denoted(pairs))
    ensures forall key, value :: (key, value) in entries <==> exists i: nat :: SaysLast(pairs, i, key, value)
    ensures forall i, j :: 0 <= i < j < |entries| ==> ComesBefore(entries[i].0, entries[j].0)
  {
    hide SaysLast, ComesBefore;
    forall key, value
      ensures (key, value) in entries <==> exists i: nat :: SaysLast(pairs, i, key, value)
    {
      CanonicalMeans(entries, pairs, key, value);
    }
    forall i, j | 0 <= i < j < |entries| ensures ComesBefore(entries[i].0, entries[j].0) {
      LessIsLexicographic(entries[i].0, entries[j].0);
    }
  }

  lemma NothingEmitted(m: map<string, string>)
    ensures Emitted(m, None, [])
  {}

  lemma {:induction false} FirstIsLeast(entries: Pairs)
    requires Sorted(entries) && entries != []
    ensures forall key :: key in Denoted(entries) ==> !Less(key, entries[0].0)
    ensures entries[0].0 in Denoted(entries)
    ensures Sorted(entries[1..])
    ensures Denoted(entries)[entries[0].0] == entries[0].1
    ensures Denoted(entries[1..]) == Denoted(entries) - {entries[0].0}
  {
    KeysAreEntries(entries);
    LessIsIrreflexive(entries[0].0);
    forall i | 0 < i < |entries| ensures !Less(entries[i].0, entries[0].0) {
      LessIsStrict(entries[0].0, entries[i].0);
    }
    FirstComesOff(entries);
  }

  lemma {:induction false} FirstComesOff(entries: Pairs)
    requires Sorted(entries) && entries != []
    ensures entries[0].0 in Denoted(entries) && Denoted(entries)[entries[0].0] == entries[0].1
    ensures Denoted(entries[1..]) == Denoted(entries) - {entries[0].0}
  {
    var n := |entries| - 1;
    if n == 0 {
      assert entries[1..] == [] && Denoted(entries[..0]) == map[];
    } else {
      FirstComesOff(entries[..n]);
      assert entries[1..][..n - 1] == entries[..n][1..];
      assert entries[1..][n - 1] == entries[n];
      LessIsStrict(entries[0].0, entries[n].0);
    }
  }

  /** A map has one canonical form, so whatever `Serialize` emits, it could emit nothing else. */
  lemma {:induction false} CanonicalIsUnique(a: Pairs, b: Pairs, m: map<string, string>)
    requires Canonical(a, m) && Canonical(b, m)
    ensures a == b
    decreases |a|
  {
    SortedSize(a);
    SortedSize(b);
    if a != [] {
      FirstIsLeast(a);
      FirstIsLeast(b);
      LessIsTotal(a[0].0, b[0].0);
      CanonicalIsUnique(a[1..], b[1..], m - {a[0].0});
      assert a == [a[0]] + a[1..] && b == [b[0]] + b[1..];
    }
  }
}
