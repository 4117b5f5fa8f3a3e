/** The session of `App`: three pieces of state, the four event handlers that
    change them, and the screen that the state selects. */
module Navigation {
  import opened Text
  import opened Facts
  import opened Selection
  import opened DetailView

  /** The category buttons of the listing (`categories`), in page order.
      There is no button for `General`. */
  const CategoryButtons: seq<Category> := [Todas, Fisica, Quimica, Astronomia, Biologia, Matematicas]

  /** `selectedCategory`, `searchTerm` and `activeFact`. */
  datatype State = State(selectedCategory: Category, searchTerm: string, activeFact: Option<Fact>)

  /** The values the three `useState` calls start from. */
  const Initial: State := State(Todas, "", None)

  /** The top-level view: a non-null `activeFact` selects the detail page. */
  datatype View = Listing | Detail(fact: Fact)

  function ViewOf(s: State): (v: View)
    ensures v.Detail? <==> s.activeFact.Some?
    ensures v.Detail? ==> v.fact == s.activeFact.value
  {
    match s.activeFact
    case None => Listing
    case Some(f) => Detail(f)
  }

  /** The user inputs: a category button, an edit of the search box, a click
      on a card, and the back button of the detail page. */
  datatype Event =
    | CategoryClick(category: Category)
    | SearchEdit(term: string)
    | CardClick(fact: Fact)
    | BackClick

  /** The state after one handler ran (`setSelectedCategory`, `setSearchTerm`,
      `setActiveFact(fact)`, `setActiveFact(null)`). */
  function Step(s: State, e: Event): (r: State)
    ensures e.CategoryClick? ==> r.selectedCategory == e.category && r.searchTerm == s.searchTerm
    ensures e.SearchEdit? ==> r.searchTerm == e.term && r.selectedCategory == s.selectedCategory
    ensures e.CategoryClick? || e.SearchEdit? ==> r.activeFact == s.activeFact
    ensures e.CardClick? ==> ViewOf(r) == Detail(e.fact)
    ensures e.BackClick? ==> ViewOf(r) == Listing
    ensures e.CardClick? || e.BackClick? ==>
      r.selectedCategory == s.selectedCategory && r.searchTerm == s.searchTerm
  {
    match e
    case CategoryClick(c) => s.(selectedCategory := c)
    case SearchEdit(t) => s.(searchTerm := t)
    case CardClick(f) => s.(activeFact := Some(f))
    case BackClick => s.(activeFact := None)
  }

  /** `filteredFacts` for a state, over the store `store`. */
  function Visible(store: seq<Fact>, s: State): seq<Fact> {
    Filter(store, s.selectedCategory, s.searchTerm)
  }

  /** Which inputs the current screen offers: the buttons, the search box and
      the cards of the visible facts exist only on the listing, the back button
      only on the detail page. */
  predicate Enabled(store: seq<Fact>, s: State, e: Event) {
    match e
    case CategoryClick(c) => s.activeFact.None? && c in CategoryButtons
    case SearchEdit(_) => s.activeFact.None?
    case CardClick(f) => s.activeFact.None? && f in Visible(store, s)
    case BackClick => s.activeFact.Some?
  }

  /** What the page shows. */
  datatype Screen =
    | DetailScreen(fact: Fact, panel: ChartPanel)
    | Grid(cards: seq<Fact>)
    | NoResults

  /** The detail page of the active fact; otherwise the grid of the visible
      facts, or the "no results" message when none is visible. */
  function Render(store: seq<Fact>, s: State): (sc: Screen)
    ensures sc.DetailScreen? <==> s.activeFact.Some?
    ensures sc.DetailScreen? ==> sc.fact == s.activeFact.value && sc.panel == PanelFor(sc.fact)
    ensures sc.Grid? ==> sc.cards != [] && forall f :: f in sc.cards <==> f in store && Matches(f, s.selectedCategory, s.searchTerm)
    ensures sc.Grid? ==> sc.cards == Visible(store, s)
    ensures sc.NoResults? <==>
      s.activeFact.None? && forall f :: f in store ==> !Matches(f, s.selectedCategory, s.searchTerm)
  {
    FilterEmptyIff(store, s.selectedCategory, s.searchTerm);
    FilterMembershipAll(store, s.selectedCategory, s.searchTerm);
    match s.activeFact
    case Some(f) => DetailScreen(f, PanelFor(f))
    case None =>
      var cards := Visible(store, s);
      if cards != [] then Grid(cards) else NoResults
  }

  /** The state after a sequence of inputs. */
  function Run(s: State, events: seq<Event>): State
    decreases |events|
  {
    if events == [] then s else Run(Step(s, events[0]), events[1..])
  }

  /** Every input of the sequence is offered by the screen it arrives at. */
  predicate EnabledRun(store: seq<Fact>, s: State, events: seq<Event>)
    decreases |events|
  {
    events == [] || (Enabled(store, s, events[0]) && EnabledRun(store, Step(s, events[0]), events[1..]))
  }

  /** What holds of every state the page can reach: the selected category is
      one of the buttons, and an active fact is an entry of the store. */
  predicate Invariant(store: seq<Fact>, s: State) {
    s.selectedCategory in CategoryButtons && (s.activeFact.Some? ==> s.activeFact.value in store)
  }

  /** The page starts on the listing of the whole store, in store order (or
      on the "no results" message when the store is empty). */
  lemma InitialScreen(store: seq<Fact>)
    ensures Invariant(store, Initial)
    ensures ViewOf(Initial) == Listing
    ensures Render(store, Initial) == if store == [] then NoResults else Grid(store)
  {
    FilterInitial(store);
  }

  /** The page opens on the grid of all 42 facts. */
  lemma OpeningScreen()
    ensures Render(ScienceFacts, Initial) == Grid(ScienceFacts) && |ScienceFacts| == 42
  {
    InitialScreen(ScienceFacts);
  }

  /** Every input the screen offers keeps the invariant. */
  lemma StepKeepsInvariant(store: seq<Fact>, s: State, e: Event)
    requires Invariant(store, s) && Enabled(store, s, e)
    ensures Invariant(store, Step(s, e))
  {
    if e.CardClick? {
      FilterMembership(store, s.selectedCategory, s.searchTerm, e.fact);
    }
  }

  /** Every sequence of offered inputs keeps the invariant. */
  lemma {:induction false} RunKeepsInvariant(store: seq<Fact>, s: State, events: seq<Event>)
    requires Invariant(store, s) && EnabledRun(store, s, events)
    ensures Invariant(store, Run(s, events))
    decreases |events|
  {
    if events != [] {
      StepKeepsInvariant(store, s, events[0]);
      RunKeepsInvariant(store, Step(s, events[0]), events[1..]);
    }
  }

  /** Every state reached from the initial one through offered inputs keeps
      the invariant. */
  lemma ReachableStates(store: seq<Fact>, events: seq<Event>)
    requires EnabledRun(store, Initial, events)
    ensures Invariant(store, Run(Initial, events))
  {
    InitialScreen(store);
    RunKeepsInvariant(store, Initial, events);
  }

  /** Opening a card and going back restores the listing exactly: the same
      state, so the same selected category, the same term and the same grid. */
  lemma OpenThenBack(store: seq<Fact>, s: State, f: Fact)
    requires Enabled(store, s, CardClick(f))
    ensures Enabled(store, Step(s, CardClick(f)), BackClick)
    ensures Step(Step(s, CardClick(f)), BackClick) == s
    ensures Render(store, Step(Step(s, CardClick(f)), BackClick)) == Render(store, s)
  {
  }

  /** On the detail page the back button is the only input. */
  lemma DetailOffersOnlyBack(store: seq<Fact>, s: State, e: Event)
    requires ViewOf(s).Detail? && Enabled(store, s, e)
    ensures e == BackClick
  {
  }

  /** Fact 28 ("El Método Científico"), the store's one `General` fact, has no
      button for its category, so in a reachable state it is visible only while
      `Todas` is selected. */
  lemma GeneralFactOnlyUnderTodas(s: State)
    requires Invariant(ScienceFacts, s)
    ensures ScienceFacts[27].id == 28 && ScienceFacts[27].category == General
    ensures ScienceFacts[27] in Visible(ScienceFacts, s) <==>
      s.selectedCategory == Todas && MatchesSearch(ScienceFacts[27], s.searchTerm)
  {
    var f := ScienceFacts[27];
    assert f.category !in CategoryButtons;
    WithoutButtonOnlyUnderTodas(ScienceFacts, f, s);
  }

  /** A fact whose category has no button shows, in a reachable state, only
      while `Todas` is selected. */
  lemma WithoutButtonOnlyUnderTodas(store: seq<Fact>, f: Fact, s: State)
    requires s.selectedCategory in CategoryButtons && f.category !in CategoryButtons
    ensures f in Filter(store, s.selectedCategory, s.searchTerm) <==>
      f in store && s.selectedCategory == Todas && MatchesSearch(f, s.searchTerm)
  {
    FilterMembership(store, s.selectedCategory, s.searchTerm, f);
  }

  /** The component `App`: its state lives in fields that the handlers set. */
  class Session {
    var selectedCategory: Category
    var searchTerm: string
    var activeFact: Option<Fact>

    function Current(): State
      reads this
    {
      State(selectedCategory, searchTerm, activeFact)
    }

    constructor ()
      ensures Current() == Initial
    {
      selectedCategory := Todas;
      searchTerm := "";
      activeFact := None;
    }

    /** A category button's `onClick`. */
    method SelectCategory(c: Category)
      modifies this
      ensures selectedCategory == c
      ensures searchTerm == old(searchTerm) && activeFact == old(activeFact)
      ensures Current() == Step(old(Current()), CategoryClick(c))
    {
      selectedCategory := c;
    }

    /** The search box's `onChange`. */
    method EditSearch(term: string)
      modifies this
      ensures searchTerm == term
      ensures selectedCategory == old(selectedCategory) && activeFact == old(activeFact)
      ensures Current() == Step(old(Current()), SearchEdit(term))
    {
      searchTerm := term;
    }

    /** A card's `onClick`. */
    method OpenFact(f: Fact)
      modifies this
      ensures activeFact == Some(f) && ViewOf(Current()) == Detail(f)
      ensures selectedCategory == old(selectedCategory) && searchTerm == old(searchTerm)
      ensures Current() == Step(old(Current()), CardClick(f))
    {
      activeFact := Some(f);
    }

    /** The back button's `onClick`. */
    method Back()
      modifies this
      ensures activeFact == None && ViewOf(Current()) == Listing
      ensures selectedCategory == old(selectedCategory) && searchTerm == old(searchTerm)
      ensures Current() == Step(old(Current()), BackClick)
    {
      activeFact := None;
    }
  }
}
