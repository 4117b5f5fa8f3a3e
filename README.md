# CurioCiencia: a verified model of the fact browser

CurioCiencia is a single-page React application. It lists 42 science facts
from a constant store as cards, filters them by a category button and a
search box, and opens one fact on a full detail page with an optional chart.
This project models the logic of its one component file, `src/App.tsx`:

- the store (`scienceFacts`, `COLORS`, the `Category`, `ChartDataPoint` and
  `FactEntry` types): module `Facts`, file `facts.dfy`;
- `toLowerCase` and `includes`, the two string built-ins the search relies on:
  module `Text`, file `text.dfy`;
- the `filteredFacts` computation: module `Selection`, file `selection.dfy`;
- the chart panel of the detail page and the colour of each chart cell:
  module `DetailView`, file `detail.dfy`;
- the component state (`selectedCategory`, `searchTerm`, `activeFact`), its
  four event handlers and the choice between listing and detail page:
  module `Navigation`, file `navigation.dfy`. The state is a value `State`
  with a transition function `Step`. The component is also a class `Session`,
  whose fields the handlers assign, and each handler is proved to perform `Step`;
- concrete searches over the transcribed store: module `StoreScenarios`,
  file `scenarios.dfy`.

The filter, the chart choice and the cell colour are pure code in the source
and are pure functions here. The session mutates state, so it is a class with
`modifies` clauses. The filter, the transitions and the screen are stated over
an arbitrary store (`store: seq<Fact>`). `Facts.ScienceFacts` is the one store
the page uses, and the lemmas about the real data name it.

Decisions worth knowing:

- JavaScript truthiness is modelled exactly where the code relies on it.
  - `fact.chartTitle || "Datos Clave"` falls back on an empty title too.
  - `entry.fill || COLORS[...]` falls back on an empty colour too.
  - `fact.chartData ? ... : ...` treats a present empty array as true.
- `toLowerCase` is modelled character by character. ASCII `A`-`Z` and the
  Latin-1 capitals U+00C0-U+00DE, except `×` (U+00D7), move up by 0x20. Every
  other character is left unchanged. That covers every letter in the store.
- The default chart title is "Datos Clave", and a chart point's own colour
  is its `fill`.
- The setters of the three `useState` hooks accept any value. Which inputs
  exist on which screen is a separate predicate, `Navigation.Enabled`. The
  category buttons and the search box exist only on the listing. A card
  exists only for a visible fact. The back button exists only on the detail
  page. The invariant is proved for every sequence of such inputs.

## Model

| member | source | states |
|---|---|---|
| Text.LowerStr | src/App.tsx:636-637 | `toLowerCase` on a string: `Lower` applied to every character. The contract states only that the result is as long as the input. The properties are in `Text.LowerStrIdempotent` and `Text.LowerStrContains`. |
| Text.LowerStrIdempotent | src/App.tsx:636-637 | Lower-casing an already lower-cased string changes nothing. |
| Text.LowerStrContains | src/App.tsx:636-637 | If a string includes a term, the lower-cased string includes the lower-cased term, so lower-casing both sides loses no match. |
| Text.Contains | src/App.tsx:636-637 | `includes`: a definition with no contract of its own. `Text.ContainsIff` relates it to the positional reference definition. |
| Text.Lower | src/App.tsx:636-637 | A lower-cased character is never a capital. The character changes exactly when it was a capital, and then it moves up by 0x20 code points. |
| Text.ContainsIff | src/App.tsx:636-637 | The recursive model of `includes` holds exactly when the term occurs at some position of the string. |
| Text.ContainsWitness | src/App.tsx:636-637 | A contained term has a position where it occurs. |
| Text.OccursContains | src/App.tsx:636-637 | A term that occurs at some position is contained. |
| Text.ContainsEmpty | src/App.tsx:636-637 | Every string includes the empty string, which is the search box's initial value. |
| Text.ContainsTransitive | src/App.tsx:636-637 | A term contained in a string contained in a third string is contained in the third. |
| Text.ContainsAt | src/App.tsx:636-637 | A character-by-character match from some position makes the term contained. |
| Text.ContainsLength | src/App.tsx:636-637 | Only a term no longer than the string can be contained in it. |
| Facts.Colors | src/App.tsx:34 | The seven colours of `COLORS`, in order: a definition with no contract. |
| Facts.ScienceFacts | src/App.tsx:38-414 | The 42 facts of `scienceFacts`, transcribed field by field: a definition with no contract. Its properties are in the `Facts.Store…` lemmas. |
| Facts.LabelInjective | src/App.tsx:13 | Distinct categories have distinct strings, so comparing categories is comparing the strings the page compares. |
| Facts.StoreNumbering | src/App.tsx:38-414 | The store has exactly as many facts as the header announces (42, at line 621), with ids 1, 2, … in store order. |
| Facts.StoreWellFormed | src/App.tsx:38-414 | Every fact is well formed: non-empty title and summary, a category other than `Todas`, a chart type only next to chart data, and non-empty chart data with non-negative values. |
| Facts.StoreTexts | src/App.tsx:38-414 | Every title and summary is non-empty. |
| Facts.StoreShapes | src/App.tsx:38-414 | No fact is filed under `Todas`, a chart type comes only with chart data, and chart data is never empty. |
| Facts.StoreValues | src/App.tsx:38-414 | Every chart value is non-negative. |
| Facts.StoreIdsDistinct | src/App.tsx:38-414 | Two positions hold the same id, and likewise the same fact, exactly when they are the same position. This makes the cards' `key={fact.id}` (line 698) unique. |
| Facts.OnlyGeneralFact | src/App.tsx:270-273 | Fact 28 is the only fact of category `General`. |
| Facts.StoreChartsColoured | src/App.tsx:38-414 | Every chart point in the store carries its own non-empty `fill`. |
| Selection.MatchesCategory | src/App.tsx:635 | `matchesCategory`: `Todas` or the fact's own category. A definition with no contract. |
| Selection.MatchesSearch | src/App.tsx:636-637 | `matchesSearch`: the lower-cased title or summary includes the lower-cased term. A definition with no contract. |
| Selection.Matches | src/App.tsx:638 | Both tests together. A definition with no contract. |
| Selection.Filter | src/App.tsx:633-640 | The result is no longer than the input, and each of its elements is an input element that passes both the category test and the search test. |
| Selection.FilterMembership | src/App.tsx:634-638 | A fact is in the result exactly when it is in the input and passes both tests. |
| Selection.FilterMembershipAll | src/App.tsx:634-638 | The same, for every fact at once. |
| Selection.FilterEmptyIff | src/App.tsx:633-640 | The result is empty exactly when no fact of the input passes both tests. |
| Selection.FilterKeepsOrder | src/App.tsx:634 | The result is the input's subsequence at the positions that match. Those positions are strictly increasing, each holds the corresponding result element, and a position is kept exactly when its fact matches. |
| Selection.FilterInitial | src/App.tsx:629-637 | With `Todas` and the empty term, the filter returns the whole input unchanged. |
| Selection.FilterCaseInsensitive | src/App.tsx:636-637 | Two terms that agree after lower-casing select the same facts in the same order. |
| Selection.FilterIgnoresFactCase | src/App.tsx:636-637 | Two stores that differ only in the letter case of titles and summaries keep the same positions and the same number of facts. |
| Selection.FilterRefines | src/App.tsx:633-640 | If every fact passing the second pair of tests also passes the first, filtering by the second pair equals filtering the first result by the second pair. |
| Selection.FilterIdempotent | src/App.tsx:633-640 | Filtering a filtered result again changes nothing. |
| Selection.FilterNarrowsOnLongerTerm | src/App.tsx:636-637 | If the new lower-cased term contains the old one, the new result is the old result filtered again. |
| Selection.FilterNarrowsOnCategory | src/App.tsx:635 | The result for a category is the `Todas` result filtered by that category. |
| DetailView.PanelFor | src/App.tsx:590-600 | A chart is shown exactly when chart data is present, even an empty array; otherwise the placeholder text appears. The chart shows the fact's data and is a bar chart exactly when the chart type is `bar`. Its title is the fact's own when that is non-empty, and "Datos Clave" otherwise. |
| DetailView.CellColor | src/App.tsx:437-455 | A cell's colour is never empty. It is the entry's own `fill` when that is non-empty, and otherwise a colour of `COLORS`. |
| DetailView.PaletteCycles | src/App.tsx:437-455 | Cells without their own colour cycle through the palette `COLORS` (line 34). Positions equal modulo 7 get the same colour, and neighbouring positions get different colours. |
| DetailView.OwnColours | src/App.tsx:437-455 | When every point of a fact's chart carries a colour, the chart shows that data and every cell takes its own colour. |
| DetailView.DarkMatterPanel | src/App.tsx:69-80 | Fact 3 shows a pie chart of its three points, titled "Composición del Universo". |
| DetailView.DefaultTitleScenario | src/App.tsx:98-109 | Fact 5 has chart data but no chart title, so its chart is titled "Datos Clave". |
| DetailView.PlaceholderScenario | src/App.tsx:62-66 | Fact 2 has no chart data, so the placeholder appears. |
| Navigation.Initial | src/App.tsx:629-631 | The three initial `useState` values: `Todas`, the empty term and no active fact. A definition with no contract. |
| Navigation.Visible | src/App.tsx:633-640 | `filteredFacts` for a state: the filter applied to the state's category and term. A definition with no contract. |
| Navigation.CategoryButtons | src/App.tsx:642-649 | The six category buttons, in order. `General` has none. A definition with no contract. |
| Navigation.Enabled | src/App.tsx:652-700 | Which inputs each screen offers. The category buttons, the search box and the cards of the visible facts exist only on the listing. The back button exists only on the detail page. A definition with no contract. |
| Navigation.ViewOf | src/App.tsx:652-653 | The detail page is selected exactly when `activeFact` is set, and it shows that fact. |
| Navigation.Step | src/App.tsx:653-700 | A category click sets only the category, and a search edit sets only the term. A card click opens that fact's detail page, and the back button returns to the listing. Neither of those two changes the category or the term. |
| Navigation.Render | src/App.tsx:652-708 | The detail screen appears exactly when a fact is active, and it shows that fact with its panel. A grid is never empty. Its cards are `filteredFacts` itself, in store order and with each fact as often as in the store, so `Selection.FilterKeepsOrder` applies to them. A fact is a card exactly when it is a matching fact of the store. "No results" appears exactly on the listing when no fact matches. |
| Navigation.InitialScreen | src/App.tsx:629-631 | The initial state satisfies the invariant, shows the listing, and renders the whole store as the grid, or "no results" for an empty store. |
| Navigation.OpeningScreen | src/App.tsx:629-631 | The page opens on the grid of all 42 facts. |
| Navigation.StepKeepsInvariant | src/App.tsx:664-700 | Every offered input keeps the invariant: the selected category is a button's, and the active fact is a fact of the store. |
| Navigation.RunKeepsInvariant | src/App.tsx:664-700 | Every sequence of offered inputs keeps the invariant. |
| Navigation.ReachableStates | src/App.tsx:629-649 | Every state reachable from the initial one satisfies the invariant. |
| Navigation.OpenThenBack | src/App.tsx:653-700 | Opening a card and pressing back restores the same state, and therefore the same screen. |
| Navigation.DetailOffersOnlyBack | src/App.tsx:652-653 | On the detail page the only input is the back button. |
| Navigation.GeneralFactOnlyUnderTodas | src/App.tsx:642-649 | There is no button for `General`. So in a state satisfying the invariant, fact 28 is visible exactly when `Todas` is selected and the search matches it. |
| Navigation.WithoutButtonOnlyUnderTodas | src/App.tsx:642-649 | A fact whose category has no button is visible exactly under `Todas` with a matching search. |
| Navigation.Session.constructor | src/App.tsx:629-631 | The session starts as `Todas`, the empty term and no active fact. |
| Navigation.Session.SelectCategory | src/App.tsx:667 | Sets the category, keeps the other two fields, and performs `Step` for a category click. |
| Navigation.Session.EditSearch | src/App.tsx:688 | Sets the term, keeps the other two fields, and performs `Step` for a search edit. |
| Navigation.Session.OpenFact | src/App.tsx:700 | Sets the active fact, which selects its detail page. Keeps the category and the term, and performs `Step` for a card click. |
| Navigation.Session.Back | src/App.tsx:653 | Clears the active fact, which selects the listing. Keeps the category and the term, and performs `Step` for the back button. |
| StoreScenarios.ChemistryScenario | src/App.tsx:39-43 | Fact 1, a chemistry fact, shows under `Química` and not under `Física`. Its summary mentions "Oxígeno", so the search "oxígeno" finds it under `Todas`. |
| StoreScenarios.OxygenScenario | src/App.tsx:329-332 | Fact 33 begins its summary with "Oxígeno", so the search "oxígeno" finds it under `Todas` and under `Biología`. |
| StoreScenarios.IronScenario | src/App.tsx:636-637 | "HIERRO" and "hierro" select the same facts. |
| StoreScenarios.SecondFactFoundByIron | src/App.tsx:62-63 | Fact 2, titled "Hierro: …", is found by the search "HIERRO". |
| StoreScenarios.StoreTextLengths | src/App.tsx:38-414 | No title or summary in the store is longer than 68 characters. |
| StoreScenarios.LongTermFindsNothing | src/App.tsx:636-637 | A term longer than 68 characters finds nothing under any category, so the listing shows "No se encontraron resultados." |

## Left out

- Presentation is not modelled. That covers the JSX markup, the Tailwind classes, the category colour tables (src/App.tsx:467-475, 516-524), the icons and the header.
- Chart drawing by Recharts is not modelled: the tooltip formatter, the legend and the geometry. Only the data, the chart kind, the title and the cell colours are modelled.
- `DataVisualizer`'s own `if (!data)` guard (line 420) and its `title &&` guard (line 424) are not modelled separately. The page only calls it with data present and a non-empty title, which `DetailView.PanelFor` states.
- The `details` body of each fact is a React node, so it is left out of `Facts.Fact`.
- The detail page's `window.scrollTo` effect (line 513), the image and its `onError` handler (lines 555-563), and the external source link (lines 571-582) are left out. They are browser I/O with no effect on the state. `image` and `sourceUrl` are still transcribed in the store.
- The card's image marker (line 488) is left out, because it is presentation.
- `useMemo` caching is left out. `filteredFacts` is modelled as recomputed from the state, which gives the same value.
- Text.Lower: covers only ASCII and Latin-1 capitals, not the full Unicode case mapping of `toLowerCase`. Every letter in the store is in that range, but a search term with other capitals, such as Greek or Cyrillic, is not lower-cased by the model.
- StoreScenarios.LongTermFindsNothing: covers terms longer than every title and summary (more than 68 characters), not a short unmatched term such as "zzz-no-match". Proving that no store text includes a short term needs every character of every text. The verifier reaches only the characters near the end of a long string literal, and five store texts are longer than that reach.
- Chart values are exact reals, not the doubles of JavaScript. Nothing in the model does arithmetic on them.
- React's rendering cycle and event queue are not modelled. Each handler is one atomic `Step`.
