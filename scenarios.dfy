/** Concrete searches over the store, checked against the filter model. */
module StoreScenarios {
  import opened Text
  import opened Facts
  import opened Selection

  /** A string holding "Oxígeno" from position `i` on contains, lower-cased,
      the lower-cased search term "oxígeno". */
  lemma OxygenAt(s: string, i: nat)
    requires i + 7 <= |s| && s[i..i + 7] == "Oxígeno"
    ensures Contains(LowerStr(s), LowerStr("oxígeno"))
  {
    var t := "oxígeno";
    forall k | 0 <= k < |t|
      ensures LowerStr(s)[i + k] == t[k]
    {
      assert s[i + k] == s[i..i + 7][k];
      if k == 0 {
        assert LowerStr(s)[i] == Lower('O');
      }
    }
    ContainsAt(LowerStr(s), t, i);
    assert LowerStr(t) == t;
  }

  /** The summary of fact 33 starts with "Oxígeno". */
  lemma OxygenInSummary(s: string)
    requires s == "Oxígeno es el rey del peso."
    ensures Contains(LowerStr(s), LowerStr("oxígeno"))
  {
    assert s[..7] == "Oxígeno";
    OxygenAt(s, 0);
  }

  /** The summary of fact 1 holds "Oxígeno" from position 24 on. */
  lemma OxygenInFirstSummary(s: string)
    requires s == "Depende de dónde mires: Oxígeno en la corteza, Hierro en el planeta."
    ensures Contains(LowerStr(s), LowerStr("oxígeno"))
  {
    assert s[24] == 'O' && s[25] == 'x' && s[26] == 'í' && s[27] == 'g' && s[28] == 'e' && s[29] == 'n' && s[30] == 'o';
    assert s[24..31] == "Oxígeno";
    OxygenAt(s, 24);
  }

  /** The title of fact 2, lower-cased, starts with "HIERRO" lower-cased. */
  lemma IronInTitle(s: string)
    requires s == "Hierro: Núcleo vs Corteza"
    ensures Contains(LowerStr(s), LowerStr("HIERRO"))
  {
    assert forall k :: 0 <= k < 6 ==> s[k] == "Hierro"[k];
    assert forall k :: 0 <= k < 6 ==> Lower("Hierro"[k]) == "hierro"[k];
    ContainsAt(LowerStr(s), "hierro", 0);
    assert LowerStr("HIERRO") == "hierro";
  }

  /** A fact of the store that passes the category test and whose title or
      summary contains the term is in the result. */
  lemma Found(store: seq<Fact>, f: Fact, selected: Category, term: string)
    requires f in store && MatchesCategory(f, selected)
    requires Contains(LowerStr(f.title), LowerStr(term)) || Contains(LowerStr(f.summary), LowerStr(term))
    ensures f in Filter(store, selected, term)
  {
    FilterMembership(store, selected, term, f);
  }

  /** Fact 1 is a chemistry fact, so it shows under `Química` and not under
      `Física`; its summary mentions "Oxígeno", so the search "oxígeno" finds
      it under `Todas`. */
  lemma ChemistryScenario()
    ensures ScienceFacts[0].id == 1
    ensures ScienceFacts[0] in Filter(ScienceFacts, Quimica, "")
    ensures ScienceFacts[0] !in Filter(ScienceFacts, Fisica, "")
    ensures ScienceFacts[0] in Filter(ScienceFacts, Todas, "oxígeno")
  {
    FirstFactByCategory();
    FirstFactFoundByOxygen();
  }

  /** The category half of `ChemistryScenario`. */
  lemma FirstFactByCategory()
    ensures ScienceFacts[0].id == 1
    ensures ScienceFacts[0] in Filter(ScienceFacts, Quimica, "")
    ensures ScienceFacts[0] !in Filter(ScienceFacts, Fisica, "")
  {
    var f := ScienceFacts[0];
    ContainsEmpty(LowerStr(f.title));
    Found(ScienceFacts, f, Quimica, "");
    FilterMembership(ScienceFacts, Fisica, "", f);
  }

  /** The search half of `ChemistryScenario`. */
  lemma FirstFactFoundByOxygen()
    ensures ScienceFacts[0] in Filter(ScienceFacts, Todas, "oxígeno")
  {
    var f := ScienceFacts[0];
    OxygenInFirstSummary(f.summary);
    Found(ScienceFacts, f, Todas, "oxígeno");
  }

  /** Fact 33 (the human body) begins its summary with "Oxígeno", so the
      search "oxígeno" finds it under `Todas` and under its own category. */
  lemma OxygenScenario()
    ensures ScienceFacts[32].id == 33 && ScienceFacts[32].category == Biologia
    ensures ScienceFacts[32] in Filter(ScienceFacts, Todas, "oxígeno")
    ensures ScienceFacts[32] in Filter(ScienceFacts, Biologia, "oxígeno")
  {
    var f := ScienceFacts[32];
    OxygenInSummary(f.summary);
    Found(ScienceFacts, f, Todas, "oxígeno");
    Found(ScienceFacts, f, Biologia, "oxígeno");
  }

  /** "HIERRO" and "hierro" select the same facts. */
  lemma IronScenario()
    ensures Filter(ScienceFacts, Todas, "HIERRO") == Filter(ScienceFacts, Todas, "hierro")
  {
    assert LowerStr("HIERRO") == LowerStr("hierro");
    FilterCaseInsensitive(ScienceFacts, Todas, "HIERRO", "hierro");
  }

  /** Fact 2, whose title starts with "Hierro", is found by "HIERRO". */
  lemma SecondFactFoundByIron()
    ensures ScienceFacts[1].id == 2 && ScienceFacts[1] in Filter(ScienceFacts, Todas, "HIERRO")
  {
    var f := ScienceFacts[1];
    IronInTitle(f.title);
    Found(ScienceFacts, f, Todas, "HIERRO");
  }

  /** No title or summary in the store is longer than 68 characters. */
  lemma StoreTextLengths()
    ensures forall i :: 0 <= i < |ScienceFacts| ==> |ScienceFacts[i].title| <= 68 && |ScienceFacts[i].summary| <= 68
  {
    assert |ScienceFacts| == 42;
    TextLengths1To11();
    TextLengths12To21();
    TextLengths22To32();
    TextLengths33To42();
  }

  /** `StoreTextLengths` for facts 1 to 11. */
  lemma TextLengths1To11()
    ensures forall i :: 0 <= i < 11 ==> |ScienceFacts[i].title| <= 68 && |ScienceFacts[i].summary| <= 68
  {
  }

  /** `StoreTextLengths` for facts 12 to 21. */
  lemma TextLengths12To21()
    ensures forall i :: 11 <= i < 21 ==> |ScienceFacts[i].title| <= 68 && |ScienceFacts[i].summary| <= 68
  {
  }

  /** `StoreTextLengths` for facts 22 to 32. */
  lemma TextLengths22To32()
    ensures forall i :: 21 <= i < 32 ==> |ScienceFacts[i].title| <= 68 && |ScienceFacts[i].summary| <= 68
  {
  }

  /** `StoreTextLengths` for facts 33 to 42. */
  lemma TextLengths33To42()
    ensures forall i :: 32 <= i < 42 ==> |ScienceFacts[i].title| <= 68 && |ScienceFacts[i].summary| <= 68
  {
  }

  /** A search term longer than every title and summary finds nothing, under
      every category: the listing then shows its "no results" message. */
  lemma LongTermFindsNothing(selected: Category, term: string)
    requires |term| > 68
    ensures Filter(ScienceFacts, selected, term) == []
  {
    StoreTextLengths();
    forall f | f in ScienceFacts
      ensures !Matches(f, selected, term)
    {
      if Contains(LowerStr(f.title), LowerStr(term)) {
        ContainsLength(LowerStr(f.title), LowerStr(term));
      }
      if Contains(LowerStr(f.summary), LowerStr(term)) {
        ContainsLength(LowerStr(f.summary), LowerStr(term));
      }
    }
    FilterEmptyIff(ScienceFacts, selected, term);
  }
}
