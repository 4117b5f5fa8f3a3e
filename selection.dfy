/** The `filteredFacts` computation of `App`: a stable filter over the store
    that keeps a fact when it passes both the category test and the search test. */
module Selection {
  import opened Text
  import opened Facts

  /** Category test: `Todas` lets every fact through, any other value only
      the facts of that category. */
  predicate MatchesCategory(f: Fact, selected: Category) {
    selected == Todas || f.category == selected
  }

  /** Search test: the lower-cased title or the lower-cased summary contains
      the lower-cased search term. */
  predicate MatchesSearch(f: Fact, term: string) {
    Contains(LowerStr(f.title), LowerStr(term)) || Contains(LowerStr(f.summary), LowerStr(term))
  }

  predicate Matches(f: Fact, selected: Category, term: string) {
    MatchesCategory(f, selected) && MatchesSearch(f, term)
  }

  /** `scienceFacts.filter(...)`: the facts that match, in their original order. */
  function Filter(facts: seq<Fact>, selected: Category, term: string): (r: seq<Fact>)
    ensures |r| <= |facts|
    ensures forall f :: f in r ==> f in facts && Matches(f, selected, term)
    decreases |facts|
  {
    if facts == [] then []
    else if Matches(facts[0], selected, term) then [facts[0]] + Filter(facts[1..], selected, term)
    else Filter(facts[1..], selected, term)
  }

  /** The positions of `facts` that `Filter` keeps, in increasing order. */
  ghost function KeptPositions(facts: seq<Fact>, selected: Category, term: string): seq<nat>
    decreases |facts|
  {
    if facts == [] then []
    else
      var rest := KeptPositions(facts[1..], selected, term);
      (if Matches(facts[0], selected, term) then [0] else []) + seq(|rest|, k requires 0 <= k < |rest| => rest[k] + 1)
  }

  /** A fact is in the result exactly when it is in the input and passes both tests. */
  lemma {:induction false} FilterMembership(facts: seq<Fact>, selected: Category, term: string, f: Fact)
    ensures f in Filter(facts, selected, term) <==> f in facts && Matches(f, selected, term)
    decreases |facts|
  {
    if facts != [] {
      FilterMembership(facts[1..], selected, term, f);
      assert facts == [facts[0]] + facts[1..];
    }
  }

  /** `r` lists the elements of `facts` at the positions `idx`. */
  ghost predicate ElementsAt(r: seq<Fact>, facts: seq<Fact>, idx: seq<nat>) {
    |idx| == |r| && forall k :: 0 <= k < |idx| ==> idx[k] < |facts| && r[k] == facts[idx[k]]
  }

  /** `KeptPositions` has one position per result element, each inside the
      input and holding that element. */
  lemma {:induction false} KeptPositionsSelect(facts: seq<Fact>, selected: Category, term: string)
    ensures ElementsAt(Filter(facts, selected, term), facts, KeptPositions(facts, selected, term))
    decreases |facts|
  {
    if facts != [] {
      KeptPositionsSelect(facts[1..], selected, term);
      var rest := KeptPositions(facts[1..], selected, term);
      var tail := Filter(facts[1..], selected, term);
      var shifted := seq(|rest|, k requires 0 <= k < |rest| => rest[k] + 1);
      assert ElementsAt(tail, facts[1..], rest);
      assert ElementsAt(tail, facts, shifted) by {
        forall k | 0 <= k < |rest|
          ensures shifted[k] < |facts| && tail[k] == facts[shifted[k]]
        {
          assert facts[rest[k] + 1] == facts[1..][rest[k]];
        }
      }
      if Matches(facts[0], selected, term) {
        assert KeptPositions(facts, selected, term) == [0] + shifted;
        assert Filter(facts, selected, term) == [facts[0]] + tail;
        ElementsAtCons(tail, facts, shifted);
      } else {
        assert KeptPositions(facts, selected, term) == shifted;
        assert Filter(facts, selected, term) == tail;
      }
    }
  }

  /** Putting the first element in front of a selection of later positions. */
  lemma ElementsAtCons(r: seq<Fact>, facts: seq<Fact>, idx: seq<nat>)
    requires facts != [] && ElementsAt(r, facts, idx)
    ensures ElementsAt([facts[0]] + r, facts, [0] + idx)
  {
    var r', idx' := [facts[0]] + r, [0] + idx;
    forall k | 0 < k < |idx'|
      ensures idx'[k] < |facts| && r'[k] == facts[idx'[k]]
    {
      assert idx'[k] == idx[k - 1] && r'[k] == r[k - 1];
    }
  }

  ghost predicate StrictlyIncreasing(xs: seq<nat>) {
    forall k, l :: 0 <= k < l < |xs| ==> xs[k] < xs[l]
  }

  /** `KeptPositions` is strictly increasing. */
  lemma {:induction false} KeptPositionsIncreasing(facts: seq<Fact>, selected: Category, term: string)
    ensures StrictlyIncreasing(KeptPositions(facts, selected, term))
    decreases |facts|
  {
    if facts != [] {
      KeptPositionsIncreasing(facts[1..], selected, term);
      var rest := KeptPositions(facts[1..], selected, term);
      var shifted := seq(|rest|, k requires 0 <= k < |rest| => rest[k] + 1);
      assert forall k, l :: 0 <= k < l < |rest| ==> rest[k] < rest[l];
      assert forall k, l :: 0 <= k < l < |shifted| ==> shifted[k] < shifted[l];
      if Matches(facts[0], selected, term) {
        var idx := [0] + shifted;
        assert forall k :: 0 < k < |idx| ==> idx[k] == shifted[k - 1] > 0;
      }
    }
  }

  /** A position is in `KeptPositions` exactly when the fact there matches. */
  lemma {:induction false} KeptPositionsExact(facts: seq<Fact>, selected: Category, term: string)
    ensures var idx := KeptPositions(facts, selected, term);
      forall i :: 0 <= i < |facts| ==> (i in idx <==> Matches(facts[i], selected, term))
    decreases |facts|
  {
    if facts != [] {
      KeptPositionsExact(facts[1..], selected, term);
      var rest := KeptPositions(facts[1..], selected, term);
      var shifted := seq(|rest|, k requires 0 <= k < |rest| => rest[k] + 1);
      forall i | 1 <= i < |facts|
        ensures i in shifted <==> Matches(facts[i], selected, term)
      {
        assert facts[i] == facts[1..][i - 1];
        if i in shifted {
          var k :| 0 <= k < |shifted| && shifted[k] == i;
          assert rest[k] == i - 1;
        }
        if i - 1 in rest {
          var k :| 0 <= k < |rest| && rest[k] == i - 1;
          assert shifted[k] == i;
        }
      }
      assert 0 !in shifted;
    }
  }

  /** `FilterMembership` for every fact at once. */
  lemma FilterMembershipAll(facts: seq<Fact>, selected: Category, term: string)
    ensures forall f :: f in Filter(facts, selected, term) <==> f in facts && Matches(f, selected, term)
  {
    forall f {
      FilterMembership(facts, selected, term, f);
    }
  }

  /** The result is empty exactly when no fact of the input passes both tests. */
  lemma FilterEmptyIff(facts: seq<Fact>, selected: Category, term: string)
    ensures Filter(facts, selected, term) == [] <==> forall f :: f in facts ==> !Matches(f, selected, term)
  {
    FilterMembershipAll(facts, selected, term);
    var r := Filter(facts, selected, term);
    if r != [] {
      assert r[0] in r;
    }
  }

  /** The result is the subsequence of the input at the positions that match:
      the positions are strictly increasing, each one holds the corresponding
      result element, and a position is kept exactly when its fact matches. */
  lemma FilterKeepsOrder(facts: seq<Fact>, selected: Category, term: string)
    ensures ElementsAt(Filter(facts, selected, term), facts, KeptPositions(facts, selected, term))
    ensures StrictlyIncreasing(KeptPositions(facts, selected, term))
    ensures forall i :: 0 <= i < |facts| ==>
      (i in KeptPositions(facts, selected, term) <==> Matches(facts[i], selected, term))
  {
    KeptPositionsSelect(facts, selected, term);
    KeptPositionsIncreasing(facts, selected, term);
    KeptPositionsExact(facts, selected, term);
  }

  /** Filtering by `Todas` and the empty term gives back the whole input,
      because every string contains the empty string. */
  lemma {:induction false} FilterInitial(facts: seq<Fact>)
    ensures Filter(facts, Todas, "") == facts
    decreases |facts|
  {
    if facts != [] {
      ContainsEmpty(LowerStr(facts[0].title));
      FilterInitial(facts[1..]);
    }
  }

  /** Terms that agree after lower-casing select the same facts in the same order. */
  lemma {:induction false} FilterCaseInsensitive(facts: seq<Fact>, selected: Category, t1: string, t2: string)
    requires LowerStr(t1) == LowerStr(t2)
    ensures Filter(facts, selected, t1) == Filter(facts, selected, t2)
    decreases |facts|
  {
    if facts != [] {
      FilterCaseInsensitive(facts[1..], selected, t1, t2);
    }
  }

  /** Two entries alike up to the case of title and summary (same category). */
  predicate SameUpToCase(f: Fact, g: Fact) {
    f.category == g.category && LowerStr(f.title) == LowerStr(g.title) && LowerStr(f.summary) == LowerStr(g.summary)
  }

  /** Stores whose entries differ only in the case of titles and summaries
      keep the same positions for every category and term. */
  lemma {:induction false} FilterIgnoresFactCase(a: seq<Fact>, b: seq<Fact>, selected: Category, term: string)
    requires |a| == |b|
    requires forall i :: 0 <= i < |a| ==> SameUpToCase(a[i], b[i])
    ensures KeptPositions(a, selected, term) == KeptPositions(b, selected, term)
    ensures |Filter(a, selected, term)| == |Filter(b, selected, term)|
    decreases |a|
  {
    if a != [] {
      assert SameUpToCase(a[0], b[0]);
      FilterIgnoresFactCase(a[1..], b[1..], selected, term);
      FilterKeepsOrder(a, selected, term);
      FilterKeepsOrder(b, selected, term);
    }
  }

  /** When every fact that passes the second pair of tests also passes the
      first, filtering by the second pair equals filtering the first result
      again by the second pair. */
  lemma {:induction false} FilterRefines(facts: seq<Fact>, c1: Category, t1: string, c2: Category, t2: string)
    requires forall f :: f in facts && Matches(f, c2, t2) ==> Matches(f, c1, t1)
    ensures Filter(facts, c2, t2) == Filter(Filter(facts, c1, t1), c2, t2)
    decreases |facts|
  {
    if facts != [] {
      assert facts[0] in facts;
      assert forall f :: f in facts[1..] ==> f in facts;
      FilterRefines(facts[1..], c1, t1, c2, t2);
    }
  }

  /** Filtering an already-filtered result again changes nothing. */
  lemma FilterIdempotent(facts: seq<Fact>, selected: Category, term: string)
    ensures Filter(Filter(facts, selected, term), selected, term) == Filter(facts, selected, term)
  {
    FilterRefines(facts, selected, term, selected, term);
  }

  /** Typing more: when the lower-cased new term contains the lower-cased old
      one, the new result is the old result filtered again. */
  lemma FilterNarrowsOnLongerTerm(facts: seq<Fact>, selected: Category, t1: string, t2: string)
    requires Contains(LowerStr(t2), LowerStr(t1))
    ensures Filter(facts, selected, t2) == Filter(Filter(facts, selected, t1), selected, t2)
  {
    forall f | f in facts && Matches(f, selected, t2)
      ensures Matches(f, selected, t1)
    {
      if Contains(LowerStr(f.title), LowerStr(t2)) {
        ContainsTransitive(LowerStr(f.title), LowerStr(t2), LowerStr(t1));
      } else {
        ContainsTransitive(LowerStr(f.summary), LowerStr(t2), LowerStr(t1));
      }
    }
    FilterRefines(facts, selected, t1, selected, t2);
  }

  /** Choosing a category after `Todas`: the category result is the `Todas`
      result filtered again. */
  lemma FilterNarrowsOnCategory(facts: seq<Fact>, selected: Category, term: string)
    ensures Filter(facts, selected, term) == Filter(Filter(facts, Todas, term), selected, term)
  {
    FilterRefines(facts, Todas, term, selected, term);
  }
}
