/**
 * `suggestSoundsFromDetails`: from a scoring provider's `details`, pick weak
 * phoneme tokens, map them to sounds of the catalogue, and suggest at most
 * four of those sounds in catalogue order.
 */
module Suggest {
  import opened Wrappers
  import opened Strings
  import opened Percent
  import opened Catalogue
  import opened Sorting

  /** IPA tokens: ɑ̃, ɔ̃, ɛ̃, œ̃, ø, œ. */
  const NasalA: string := "\U{251}\U{303}"
  const NasalO: string := "\U{254}\U{303}"
  const NasalE: string := "\U{25B}\U{303}"
  const NasalOe: string := "\U{153}\U{303}"
  const Oslash: string := "\U{F8}"
  const Oe: string := "\U{153}"

  /** The tokens the fallback scan looks for, in this order. */
  const Candidates: seq<string> := [NasalA, NasalO, NasalE, NasalOe, Oslash, Oe]

  /**
   * A provider's `details`: falsy, or a value whose `weakPhonemes` is an
   * array or not, whose `scoresByPhoneme` is a truthy object (its entries,
   * each value after `Number(...)`) or not, and whose `JSON.stringify` text is
   * `serialized`.
   */
  datatype Details =
    | Falsy
    | Details(weakPhonemes: Option<seq<string>>,
              scoresByPhoneme: Option<seq<(string, JsNumber)>>,
              serialized: string)

  /** `.filter(x => Number.isFinite(x.v))`: every finite-valued entry is kept, and no other. */
  function FiniteEntries(entries: seq<(string, JsNumber)>): (r: seq<(string, real)>)
    ensures |r| <= |entries|
    ensures forall k, v :: (k, v) in r <==> (k, Finite(v)) in entries
    decreases |entries|
  {
    if entries == [] then []
    else
      var rest := FiniteEntries(entries[1..]);
      match entries[0].1
      case Finite(v) => [(entries[0].0, v)] + rest
      case NonFinite => rest
  }

  /** Whether an entry's value is a finite number. */
  function IsFiniteEntry(): ((string, JsNumber)) -> bool {
    (e: (string, JsNumber)) => e.1.Finite?
  }

  /** A kept pair as the entry it came from. */
  function AsEntries(r: seq<(string, real)>): (es: seq<(string, JsNumber)>)
    ensures |es| == |r|
    ensures forall i :: 0 <= i < |r| ==> es[i] == (r[i].0, Finite(r[i].1))
  {
    seq(|r|, i requires 0 <= i < |r| => (r[i].0, Finite(r[i].1)))
  }

  /** The finite-valued entries keep their input order: they are exactly the input filtered. */
  lemma {:induction false} FiniteEntriesInOrder(entries: seq<(string, JsNumber)>)
    ensures AsEntries(FiniteEntries(entries)) == Filter(entries, IsFiniteEntry())
    decreases |entries|
  {
    if entries != [] {
      FiniteEntriesInOrder(entries[1..]);
      var rest := FiniteEntries(entries[1..]);
      match entries[0].1
      case Finite(v) =>
        assert AsEntries([(entries[0].0, v)] + rest) == [entries[0]] + AsEntries(rest);
      case NonFinite =>
    }
  }

  /** The comparator `(a, b) => a.v - b.v`: ascending score. */
  function ByScore(): ((string, real), (string, real)) -> bool {
    (a: (string, real), b: (string, real)) => a.1 <= b.1
  }

  lemma ByScoreTotal()
    ensures TotalPreorder(ByScore())
  {
  }

  function Keys(entries: seq<(string, real)>): (ks: seq<string>)
    ensures |ks| == |entries|
    ensures forall i :: 0 <= i < |entries| ==> ks[i] == entries[i].0
  {
    seq(|entries|, i requires 0 <= i < |entries| => entries[i].0)
  }

  /** The keys of the (at most) six finite-valued entries with the lowest scores. */
  function LowestKeys(entries: seq<(string, JsNumber)>): (ks: seq<string>)
    ensures |ks| <= 6
  {
    Keys(Take(SortBy(FiniteEntries(entries), ByScore()), 6))
  }

  /** `candidates.filter(c => s.includes(c))` */
  function FoundIn(cands: seq<string>, s: string): (r: seq<string>)
    ensures |r| <= |cands|
    ensures forall c :: c in r <==> c in cands && Contains(s, c)
    decreases |cands|
  {
    if cands == [] then []
    else (if Contains(s, cands[0]) then [cands[0]] else []) + FoundIn(cands[1..], s)
  }

  /**
   * The weak tokens, from the first of the three sources that is present: a
   * `weakPhonemes` array gives its first six items whatever else is there;
   * otherwise a scores object gives its lowest-scored keys; only without
   * both does the scan of the serialized details run.
   */
  function WeakTokens(d: Details): (weak: seq<string>)
    ensures |weak| <= 6
    ensures d.Falsy? ==> weak == []
    ensures d.Details? && d.weakPhonemes.Some? ==>
              && |weak| == (if |d.weakPhonemes.value| < 6 then |d.weakPhonemes.value| else 6)
              && weak == d.weakPhonemes.value[..|weak|]
    ensures d.Details? && d.weakPhonemes.None? && d.scoresByPhoneme.Some? ==>
              weak == LowestKeys(d.scoresByPhoneme.value)
    ensures d.Details? && d.weakPhonemes.None? && d.scoresByPhoneme.None? ==>
              forall c :: c in weak <==> c in Candidates && Contains(d.serialized, c)
  {
    match d
    case Falsy => []
    case Details(Some(w), _, _) => Take(w, 6)
    case Details(None, Some(entries), _) => LowestKeys(entries)
    case Details(None, None, serialized) => FoundIn(Candidates, serialized)
  }

  /** The sound identifiers one weak token selects. */
  function TokenSounds(w: string): (ids: set<string>)
    ensures ids <= {AnId, OnId, InId, EuId, EuxId}
    ensures EntId !in ids
    ensures AnId in ids <==> Contains(w, NasalA)
    ensures OnId in ids <==> Contains(w, NasalO)
    ensures InId in ids <==> Contains(w, NasalE)
    ensures Contains(w, Oslash) || Contains(w, Oe) <==> EuId in ids
    ensures EuxId in ids <==> EuId in ids
  {
    (if Contains(w, NasalA) then {AnId} else {})
    + (if Contains(w, NasalO) then {OnId} else {})
    + (if Contains(w, NasalE) then {InId} else {})
    + (if Contains(w, Oslash) || Contains(w, Oe) then {EuId, EuxId} else {})
  }

  /** Every identifier some token of `weak` selects: the keys the `Map` ends with. */
  function SelectedIds(weak: seq<string>): set<string>
    decreases |weak|
  {
    if weak == [] then {}
    else SelectedIds(weak[..|weak| - 1]) + TokenSounds(weak[|weak| - 1])
  }

  /**
   * The selected identifiers are exactly those some weak token selects, so
   * "ent-muet" is never among them.
   */
  lemma {:induction false} SelectedIdsSpec(weak: seq<string>)
    ensures forall w :: w in weak ==> TokenSounds(w) <= SelectedIds(weak)
    ensures forall id :: id in SelectedIds(weak) ==> exists w :: w in weak && id in TokenSounds(w)
    ensures EntId !in SelectedIds(weak)
    decreases |weak|
  {
    if weak != [] {
      var init := weak[..|weak| - 1];
      SelectedIdsSpec(init);
      assert weak == init + [weak[|weak| - 1]];
    }
  }

  /** One more token adds exactly the identifiers it selects. */
  lemma SelectedIdsSnoc(weak: seq<string>, i: nat)
    requires i < |weak|
    ensures SelectedIds(weak[..i + 1]) == SelectedIds(weak[..i]) + TokenSounds(weak[i])
  {
    assert weak[..i + 1][..i] == weak[..i];
  }

  /** `SOUNDS.filter(s => map.has(s.id))` over any list of sounds. */
  function WithIds(ss: seq<Sound>, ids: set<string>): (r: seq<Sound>)
    ensures |r| <= |ss|
    decreases |ss|
  {
    if ss == [] then []
    else (if ss[0].id in ids then [ss[0]] else []) + WithIds(ss[1..], ids)
  }

  /** The filter keeps exactly the sounds whose identifier is selected. */
  lemma {:induction false} WithIdsMembers(ss: seq<Sound>, ids: set<string>)
    ensures forall s :: s in WithIds(ss, ids) <==> s in ss && s.id in ids
    decreases |ss|
  {
    if ss != [] {
      WithIdsMembers(ss[1..], ids);
      assert ss == [ss[0]] + ss[1..];
    }
  }

  /** The suggestions for `details`: the selected sounds in catalogue order, at most four. */
  function Suggestions(d: Details): (r: seq<Sound>)
    ensures |r| <= 4
    ensures d.Falsy? ==> r == []
  {
    if d.Falsy? then [] else Take(WithIds(Sounds, SelectedIds(WeakTokens(d))), 4)
  }

  /** The `weak.forEach(...)` loop: the identifiers it sets in the `Map`. */
  method MarkWeakTokens(weak: seq<string>) returns (selected: set<string>)
    ensures selected == SelectedIds(weak)
  {
    selected := {};
    var i := 0;
    while i < |weak|
      invariant 0 <= i <= |weak|
      invariant selected == SelectedIds(weak[..i])
    {
      var w := weak[i];
      ghost var before := selected;
      if Contains(w, NasalA) { selected := selected + {AnId}; }
      if Contains(w, NasalO) { selected := selected + {OnId}; }
      if Contains(w, NasalE) { selected := selected + {InId}; }
      if Contains(w, Oslash) || Contains(w, Oe) { selected := selected + {EuId, EuxId}; }
      assert selected == before + TokenSounds(w);
      SelectedIdsSnoc(weak, i);
      i := i + 1;
    }
    assert weak[..i] == weak;
  }

  /** `suggestSoundsFromDetails(details)` */
  method SuggestSounds(d: Details) returns (r: seq<Sound>)
    ensures r == Suggestions(d)
    ensures d.Falsy? ==> r == []
    ensures |r| <= 4
    ensures forall s :: s in r ==> s in Sounds && s.id in SelectedIds(WeakTokens(d)) && s.id != EntId
  {
    if d.Falsy? {
      return [];
    }
    var weak := WeakTokens(d);
    var selected := MarkWeakTokens(weak);
    r := Take(WithIds(Sounds, selected), 4);
    WithIdsMembers(Sounds, selected);
    SelectedIdsSpec(weak);
  }

  /** `a` is `b` with some elements left out, order kept. */
  predicate Subsequence<T(==)>(a: seq<T>, b: seq<T>)
    decreases |b|
  {
    a == [] || (b != [] && ((a[0] == b[0] && Subsequence(a[1..], b[1..])) || Subsequence(a, b[1..])))
  }

  predicate Distinct<T(==)>(s: seq<T>) {
    forall i, j :: 0 <= i < j < |s| ==> s[i] != s[j]
  }

  lemma {:induction false} WithIdsSubsequence(ss: seq<Sound>, ids: set<string>)
    ensures Subsequence(WithIds(ss, ids), ss)
    decreases |ss|
  {
    if ss != [] {
      WithIdsSubsequence(ss[1..], ids);
      var rest := WithIds(ss[1..], ids);
      if ss[0].id in ids {
        assert WithIds(ss, ids) == [ss[0]] + rest;
        assert ([ss[0]] + rest)[1..] == rest;
      } else {
        assert WithIds(ss, ids) == rest;
      }
    }
  }

  lemma {:induction false} PrefixSubsequence<T>(a: seq<T>, b: seq<T>, n: nat)
    requires Subsequence(a, b) && n <= |a|
    ensures Subsequence(a[..n], b)
    decreases |b|
  {
    if n > 0 && b != [] {
      if a[0] == b[0] && Subsequence(a[1..], b[1..]) {
        PrefixSubsequence(a[1..], b[1..], n - 1);
        assert a[..n][1..] == a[1..][..n - 1];
      } else {
        PrefixSubsequence(a, b[1..], n);
      }
    }
  }

  lemma {:induction false} SubsequenceDistinct<T>(a: seq<T>, b: seq<T>)
    requires Subsequence(a, b) && Distinct(b)
    ensures Distinct(a) && forall x :: x in a ==> x in b
    decreases |b|
  {
    if a != [] {
      if a[0] == b[0] && Subsequence(a[1..], b[1..]) {
        SubsequenceDistinct(a[1..], b[1..]);
        assert b[0] !in b[1..];
        forall i, j | 0 <= i < j < |a| ensures a[i] != a[j] {
          if i == 0 {
            assert a[j] == a[1..][j - 1];
          } else {
            assert a[i] == a[1..][i - 1] && a[j] == a[1..][j - 1];
          }
        }
        forall x | x in a ensures x in b {
          if x != a[0] {
            assert x in a[1..];
          }
        }
      } else {
        SubsequenceDistinct(a, b[1..]);
      }
    }
  }

  lemma CatalogueDistinct()
    ensures Distinct(Sounds)
  {
  }

  /**
   * In a list without repeats, the sound at index `i` survives the filter
   * and the cap of four exactly when it is selected and fewer than four
   * selected sounds come before it.
   */
  lemma CappedFilterAt(ss: seq<Sound>, ids: set<string>, i: nat)
    requires i < |ss| && Distinct(ss)
    ensures ss[i] in Take(WithIds(ss, ids), 4) <==> ss[i].id in ids && |WithIds(ss[..i], ids)| < 4
  {
    var before, after := ss[..i], ss[i + 1..];
    assert ss == before + [ss[i]] + after;
    WithIdsAppend(before + [ss[i]], after, ids);
    WithIdsAppend(before, [ss[i]], ids);
    WithIdsOne(ss[i], ids);
    WithIdsMembers(before, ids);
    WithIdsMembers(after, ids);
    WithIdsMembers(ss, ids);
    var a, b := WithIds(before, ids), WithIds(after, ids);
    assert ss[i] !in before && ss[i] !in after by {
      forall j | 0 <= j < |ss| && j != i ensures ss[j] != ss[i] {
        if j < i { assert ss[j] != ss[i]; } else { assert ss[i] != ss[j]; }
      }
    }
    if ss[i].id in ids {
      var w := a + [ss[i]] + b;
      assert WithIds(ss, ids) == w;
      assert w[|a|] == ss[i];
      if ss[i] in Take(w, 4) {
        var k :| 0 <= k < |Take(w, 4)| && Take(w, 4)[k] == ss[i];
        assert w[k] == ss[i];
        assert k == |a|;
      }
      if |a| < 4 {
        assert Take(w, 4)[|a|] == ss[i];
      }
    }
  }

  /**
   * A catalogue sound is suggested exactly when the details are truthy, its
   * identifier is selected, and fewer than four selected sounds precede it
   * in the catalogue.
   */
  lemma SuggestionsExact(d: Details, i: nat)
    requires i < |Sounds|
    ensures Sounds[i] in Suggestions(d) <==>
              && !d.Falsy?
              && Sounds[i].id in SelectedIds(WeakTokens(d))
              && |WithIds(Sounds[..i], SelectedIds(WeakTokens(d)))| < 4
  {
    if !d.Falsy? {
      CatalogueDistinct();
      CappedFilterAt(Sounds, SelectedIds(WeakTokens(d)), i);
    }
  }

  /**
   * The suggestions are at most four distinct sounds of the catalogue, in
   * catalogue order, each selected by some weak token; "ent-muet" is never
   * suggested.
   */
  lemma SuggestionsShape(d: Details)
    ensures var r := Suggestions(d);
            && |r| <= 4
            && Subsequence(r, Sounds)
            && Distinct(r)
            && (forall s :: s in r ==> exists w :: w in WeakTokens(d) && s.id in TokenSounds(w))
            && (forall s :: s in r ==> s.id != EntId)
  {
    if !d.Falsy? {
      var all := WithIds(Sounds, SelectedIds(WeakTokens(d)));
      WithIdsSubsequence(Sounds, SelectedIds(WeakTokens(d)));
      WithIdsMembers(Sounds, SelectedIds(WeakTokens(d)));
      SelectedIdsSpec(WeakTokens(d));
      PrefixSubsequence(all, Sounds, |Take(all, 4)|);
      CatalogueDistinct();
      SubsequenceDistinct(Take(all, 4), Sounds);
    }
  }

  lemma {:induction false} WithIdsAppend(a: seq<Sound>, b: seq<Sound>, ids: set<string>)
    ensures WithIds(a + b, ids) == WithIds(a, ids) + WithIds(b, ids)
    decreases |a|
  {
    if a == [] {
      assert a + b == b;
    } else {
      var h := if a[0].id in ids then [a[0]] else [];
      assert (a + b)[0] == a[0] && (a + b)[1..] == a[1..] + b;
      assert WithIds(a + b, ids) == h + WithIds(a[1..] + b, ids);
      WithIdsAppend(a[1..], b, ids);
      assert WithIds(a, ids) == h + WithIds(a[1..], ids);
    }
  }

  lemma WithIdsOne(x: Sound, ids: set<string>)
    ensures WithIds([x], ids) == if x.id in ids then [x] else []
  {
    assert [x][1..] == [];
  }

  /** The filter keeps every sound exactly when every identifier is selected. */
  lemma {:induction false} WithIdsKeepsAll(ss: seq<Sound>, ids: set<string>)
    ensures |WithIds(ss, ids)| == |ss| <==> forall k :: 0 <= k < |ss| ==> ss[k].id in ids
    decreases |ss|
  {
    if ss != [] {
      WithIdsKeepsAll(ss[1..], ids);
      assert forall k :: 1 <= k < |ss| ==> ss[k] == ss[1..][k - 1];
    }
  }

  /**
   * For a six-sound list whose fourth and sixth sounds are selected and
   * whose fifth is not, the filtered list is the selected first three
   * followed by those two.
   */
  lemma WithIdsSixOe(ss: seq<Sound>, ids: set<string>)
    requires |ss| == 6 && ss[3].id in ids && ss[5].id in ids && ss[4].id !in ids
    ensures var front := WithIds(ss[..3], ids);
            && WithIds(ss, ids) == front + [ss[3], ss[5]]
            && (|front| == 3 <==> ss[0].id in ids && ss[1].id in ids && ss[2].id in ids)
  {
    var back := ss[3..];
    assert ss == ss[..3] + back;
    WithIdsAppend(ss[..3], back, ids);
    assert back[0] == ss[3] && back[1..] == [ss[4], ss[5]];
    assert WithIds(back, ids) == [ss[3]] + WithIds([ss[4], ss[5]], ids);
    assert [ss[4], ss[5]][1..] == [ss[5]];
    assert WithIds([ss[4], ss[5]], ids) == WithIds([ss[5]], ids);
    WithIdsOne(ss[5], ids);
    WithIdsKeepsAll(ss[..3], ids);
  }

  /** With "eu-øœ" and "eux-eur" selected, which of them survive the cap of four. */
  lemma OeSelection(ids: set<string>)
    requires EuId in ids && EuxId in ids && EntId !in ids
    ensures Sounds[3] in Take(WithIds(Sounds, ids), 4)
    ensures Sounds[5] in Take(WithIds(Sounds, ids), 4) <==> !(AnId in ids && OnId in ids && InId in ids)
  {
    WithIdsSixOe(Sounds, ids);
    var nasals := WithIds(Sounds[..3], ids);
    var r := Take(nasals + [Sounds[3], Sounds[5]], 4);
    assert r[|nasals|] == Sounds[3];
    assert Sounds[5] !in nasals by {
      WithIdsMembers(Sounds[..3], ids);
      assert forall k :: 0 <= k < 3 ==> Sounds[k] != Sounds[5];
    }
    if |nasals| == 3 {
      assert r == nasals + [Sounds[3]];
    } else {
      assert r == nasals + [Sounds[3], Sounds[5]];
    }
  }

  /**
   * A weak token containing ø or œ selects both "eu-øœ" and "eux-eur";
   * "eu-øœ" is then always suggested, and "eux-eur" unless the three nasal
   * vowels are selected too and the cap of four leaves it out.
   */
  lemma OeTokenSuggests(d: Details, w: string)
    requires w in WeakTokens(d)
    requires Contains(w, Oslash) || Contains(w, Oe)
    ensures EuId in SelectedIds(WeakTokens(d)) && EuxId in SelectedIds(WeakTokens(d))
    ensures Sounds[3] in Suggestions(d)
    ensures Sounds[5] in Suggestions(d) <==> !(AnId in SelectedIds(WeakTokens(d))
                                              && OnId in SelectedIds(WeakTokens(d))
                                              && InId in SelectedIds(WeakTokens(d)))
  {
    var ids := SelectedIds(WeakTokens(d));
    SelectedIdsSpec(WeakTokens(d));
    assert TokenSounds(w) <= ids;
    assert !d.Falsy?;
    assert Suggestions(d) == Take(WithIds(Sounds, ids), 4);
    OeSelection(ids);
  }

  /** Scores ascend along a list sorted by `ByScore`. */
  lemma SortedByScore(s: seq<(string, real)>)
    requires Sorted(s, ByScore())
    ensures forall i, j :: 0 <= i < j < |s| ==> s[i].1 <= s[j].1
  {
    forall i, j | 0 <= i < j < |s| ensures s[i].1 <= s[j].1 {
      assert ByScore()(s[i], s[j]);
    }
  }

  /**
   * The scores path keeps the keys of at most six finite-valued entries,
   * each scoring no higher than any finite-valued entry left out.
   */
  lemma LowestKeysAreLowest(entries: seq<(string, JsNumber)>)
    ensures var finite := FiniteEntries(entries);
            var sorted := SortBy(finite, ByScore());
            var n := |LowestKeys(entries)|;
            && n == (if |finite| < 6 then |finite| else 6)
            && multiset(sorted) == multiset(finite)
            && (forall i :: 0 <= i < n ==> LowestKeys(entries)[i] == sorted[i].0)
            && (forall i, j :: 0 <= i < n <= j < |sorted| ==> sorted[i].1 <= sorted[j].1)
            && (forall i :: 0 <= i < n ==> (sorted[i].0, Finite(sorted[i].1)) in entries)
            && (forall k, v, i :: (k, Finite(v)) in entries && (k, v) !in sorted[..n] && 0 <= i < n ==>
                  sorted[i].1 <= v)
  {
    var finite := FiniteEntries(entries);
    var sorted := SortBy(finite, ByScore());
    var n := |LowestKeys(entries)|;
    LowestScoresFirst(finite, sorted);
    forall i | 0 <= i < |sorted| ensures (sorted[i].0, Finite(sorted[i].1)) in entries {
      assert sorted[i] in finite;
    }
    forall k, v, i | (k, Finite(v)) in entries && (k, v) !in sorted[..n] && 0 <= i < n
      ensures sorted[i].1 <= v
    {
      assert (k, v) in multiset(finite);
      var j :| 0 <= j < |sorted| && sorted[j] == (k, v);
    }
  }

  /**
   * With a `weakPhonemes` array, an identifier is selected exactly when one
   * of the array's first six items selects it, whatever the scores hold.
   */
  lemma WeakPhonemesSelect(w: seq<string>, sp: Option<seq<(string, JsNumber)>>, ser: string, id: string)
    ensures id in SelectedIds(WeakTokens(Details(Some(w), sp, ser)))
            <==> exists i :: 0 <= i < |w| && i < 6 && id in TokenSounds(w[i])
  {
    var weak := WeakTokens(Details(Some(w), sp, ser));
    SelectedIdsSpec(weak);
    if id in SelectedIds(weak) {
      var t :| t in weak && id in TokenSounds(t);
      var i :| 0 <= i < |weak| && weak[i] == t;
      assert w[i] == t;
    }
    if exists i :: 0 <= i < |w| && i < 6 && id in TokenSounds(w[i]) {
      var i :| 0 <= i < |w| && i < 6 && id in TokenSounds(w[i]);
      assert weak[i] == w[i];
    }
  }

  /**
   * Without `weakPhonemes` and `scoresByPhoneme`, an identifier is selected
   * exactly when a candidate token found in the serialized details selects it.
   */
  lemma ScanSelect(ser: string, id: string)
    ensures id in SelectedIds(WeakTokens(Details(None, None, ser)))
            <==> exists c :: c in Candidates && Contains(ser, c) && id in TokenSounds(c)
  {
    SelectedIdsSpec(WeakTokens(Details(None, None, ser)));
  }

  /**
   * `weakPhonemes: ["ɑ̃", "ɔ̃"]` suggests "an-ɑ̃" then "on-ɔ̃", whatever
   * `scoresByPhoneme` and the rest of the details hold.
   */
  lemma WeakPhonemesSuggest(sp: Option<seq<(string, JsNumber)>>, ser: string)
    ensures Suggestions(Details(Some([NasalA, NasalO]), sp, ser)) == [Sounds[0], Sounds[1]]
  {
    assert WeakTokens(Details(Some([NasalA, NasalO]), sp, ser)) == [NasalA, NasalO];
    TokenSoundsNasals();
    SelectedTwo(NasalA, NasalO);
    assert SelectedIds([NasalA, NasalO]) == {AnId, OnId};
    AnOnSuggested();
  }

  /** Sorting by score orders the scores and keeps every entry from the input. */
  lemma LowestScoresFirst(finite: seq<(string, real)>, sorted: seq<(string, real)>)
    requires sorted == SortBy(finite, ByScore())
    ensures forall i, j :: 0 <= i < j < |sorted| ==> sorted[i].1 <= sorted[j].1
    ensures forall i :: 0 <= i < |sorted| ==> sorted[i] in finite
  {
    ByScoreTotal();
    SortBySorted(finite, ByScore());
    SortedByScore(sorted);
    forall i | 0 <= i < |sorted| ensures sorted[i] in finite {
      assert sorted[i] in multiset(finite);
    }
  }

  lemma TokenSoundsNasals()
    ensures TokenSounds(NasalA) == {AnId}
    ensures TokenSounds(NasalO) == {OnId}
  {
    NotContainsFirst(NasalA, NasalO);
    NotContainsFirst(NasalA, NasalE);
    NotContainsFirst(NasalA, Oslash);
    NotContainsFirst(NasalA, Oe);
    NotContainsFirst(NasalO, NasalA);
    NotContainsFirst(NasalO, NasalE);
    NotContainsFirst(NasalO, Oslash);
    NotContainsFirst(NasalO, Oe);
  }

  /** The weak tokens of a scores object with exactly two finite entries, lower score first. */
  lemma TwoScoresWeak(x: string, a: real, y: string, o: real)
    ensures LowestKeys([(x, Finite(a)), (y, Finite(o))]) == if a <= o then [x, y] else [y, x]
  {
    var entries := [(x, Finite(a)), (y, Finite(o))];
    assert entries[1..] == [(y, Finite(o))];
    assert entries[1..][1..] == [];
    assert FiniteEntries(entries) == [(x, a), (y, o)];
    SortTwo((x, a), (y, o), ByScore());
  }

  lemma SelectedTwo(x: string, y: string)
    ensures SelectedIds([x, y]) == TokenSounds(x) + TokenSounds(y)
  {
    assert [x, y][..1] == [x];
    assert [x][..0] == [];
    assert SelectedIds([x]) == SelectedIds([]) + TokenSounds(x);
    assert SelectedIds([x, y]) == SelectedIds([x]) + TokenSounds(y);
  }

  /** The scores ɑ̃ and ɔ̃, in either order of score, select exactly AN and ON. */
  lemma TwoNasalIds(a: real, o: real)
    ensures SelectedIds(WeakTokens(Details(None, Some([(NasalA, Finite(a)), (NasalO, Finite(o))]), "")))
            == {AnId, OnId}
  {
    TwoScoresWeak(NasalA, a, NasalO, o);
    TokenSoundsNasals();
    SelectedTwo(NasalA, NasalO);
    SelectedTwo(NasalO, NasalA);
  }

  /** Selecting AN and ON suggests those two sounds. */
  lemma AnOnSuggested()
    ensures Take(WithIds(Sounds, {AnId, OnId}), 4) == [Sounds[0], Sounds[1]]
  {
    var ids := {AnId, OnId};
    assert forall k :: 2 <= k < 6 ==> Sounds[k].id !in ids;
    WithIdsSixTwo(Sounds, ids);
  }

  /**
   * Scores {"ɑ̃": a, "ɔ̃": o} suggest "an-ɑ̃" then "on-ɔ̃", whichever
   * scored lower: the order is the catalogue's, not the scores'.
   */
  lemma TwoNasalScores(a: real, o: real)
    ensures Suggestions(Details(None, Some([(NasalA, Finite(a)), (NasalO, Finite(o))]), ""))
            == [Sounds[0], Sounds[1]]
  {
    TwoNasalIds(a, o);
    AnOnSuggested();
  }

  lemma {:induction false} WithIdsNone(ss: seq<Sound>, ids: set<string>)
    requires forall k :: 0 <= k < |ss| ==> ss[k].id !in ids
    ensures WithIds(ss, ids) == []
    decreases |ss|
  {
    if ss != [] {
      WithIdsNone(ss[1..], ids);
    }
  }

  /** A six-sound list of which only the first two are selected filters to those two. */
  lemma WithIdsSixTwo(ss: seq<Sound>, ids: set<string>)
    requires |ss| == 6 && ss[0].id in ids && ss[1].id in ids
    requires forall k :: 2 <= k < 6 ==> ss[k].id !in ids
    ensures Take(WithIds(ss, ids), 4) == [ss[0], ss[1]]
  {
    assert ss == [ss[0]] + [ss[1]] + ss[2..];
    WithIdsAppend([ss[0]] + [ss[1]], ss[2..], ids);
    WithIdsAppend([ss[0]], [ss[1]], ids);
    WithIdsOne(ss[0], ids);
    WithIdsOne(ss[1], ids);
    WithIdsNone(ss[2..], ids);
  }
}
