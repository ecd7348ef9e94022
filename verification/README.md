# Pokédex state container, pagination and filter controller in Dafny

This project models the core of a browser Pokédex. The app downloads the
catalogue from a public REST API. Users search it by name, narrow it by type,
page through it 20 entries at a time and open one entry's details.

- `pokemon_slice.dfy` (module `PokemonSlice`) models the `pokemon` slice.
  - Its state record holds `pokemonList`, `filteredPokemon`, `selectedPokemon`, `loading`, `error`, `currentPage`, `totalCount`, `searchTerm`, `selectedType` and `pokemonTypes`.
  - It has four plain case reducers.
  - It handles the pending, fulfilled and rejected cases of four fetch thunks: list, details, types, and by-type.
  - `Reduce` is the reducer written as a pure function of the state and one action.
  - `PokemonStore` keeps the same record in fields that its methods assign in place. This mirrors the Immer drafts the case reducers write to. Each method states the whole new state. `Dispatch` is proved equal to `Reduce`.
  - A fetch appears as its lifecycle actions. A fulfilled action carries the payload and a rejected one carries the error message.
  - The case-insensitive name filter is `FilterByName`.
  - `Writes` is a table of the fields each case assigns. `Reduce`'s contract states that every other field keeps its value.
  - `Dispatchable` is what a component passes to `dispatch`: a plain action or a thunk. `DispatchAll` gives the state right after a sequence of dispatches, because a thunk dispatches its pending action synchronously.
- `pokemon_list.dfy` (module `PokemonList`) covers the list view's arithmetic.
  - `TotalPages` is `ceil(n / 20)`.
  - The page slice follows JavaScript's `slice`, negative indices included.
  - It models the five-button page window and the previous and next controls.
  - It models the two click handlers.
  - An entry's number is read from its resource URL and zero-padded to three digits.
- `search_filters.dfy` (module `SearchFilters`) models the search box and the type selector.
  - Each handler is the sequence of things it dispatches, in order.
  - The composition lemmas run those sequences through the reducer.
  - It also models the selector's options and their captions.
- `text.dfy` (module `Text`) holds the JavaScript string operations used above: `toLowerCase`, `toUpperCase`, `includes`, `split` and `padStart`.
- `wrappers.dfy` holds `Option`, which stands for JavaScript's `null` / `undefined`.

Behaviours of the code that the model keeps as they are:

- Unlike the list and details fetches, the by-type fetch's pending case sets `loading` but does not clear `error`.
- The reducer has no case for a rejected by-type fetch. `loading` therefore stays `true` after such a failure (`ByTypeRejectedKeepsLoading`).
- The reducer has no case for the types fetch's pending or rejected action. Both leave the state unchanged.
- `setCurrentPage` accepts any number, including zero and negative numbers.
- A fulfilled by-type fetch replaces `filteredPokemon` without touching `pokemonList`, so the view can hold entries outside the list (`ByTypeFulfilledEscapesList`).

## Model

| member | source | states |
|---|---|---|
| `Text.ContainsIffOccurs` | lib/features/pokemon-slice.ts:109 | `includes` holds exactly when the needle occurs at some index of the string |
| `Text.MissingFirstCharacter` | lib/features/pokemon-slice.ts:109 | a string that lacks the needle's first character does not include the needle |
| `Text.ContainsNoLonger` | lib/features/pokemon-slice.ts:109 | a string never includes a needle longer than itself |
| `Text.Split` | components/pokemon-list.tsx:31 | `split("/")` yields at least one piece, and no piece contains the separator |
| `Text.JoinSplit` | components/pokemon-list.tsx:31 | joining the pieces of a split with the separator gives back the original string |
| `Text.SplitSeveralIffSeparator` | components/pokemon-list.tsx:31-32 | a split has two or more pieces exactly when the separator occurs in the string |
| `Text.SplitLastPiece` | components/pokemon-list.tsx:31-32 | splitting `x + "/" + y`, where `y` has no `/`, gives the pieces of `x` followed by `y` |
| `Text.PadStart` | components/pokemon-list.tsx:86 | `padStart` gives the larger of `width` and the length of `s`, ends with `s`, and has only fill characters before it |
| `PokemonSlice.TypeNames` | lib/features/pokemon-slice.ts:86 | the types payload has one name per result, in the same order |
| `PokemonSlice.TypeMembers` | lib/features/pokemon-slice.ts:92 | the by-type payload has one list entry per slot, in the same order |
| `PokemonSlice.NameMatches` | lib/features/pokemon-slice.ts:109 | the lower-cased name includes the lower-cased term; the empty term matches every entry and a term longer than the name matches none |
| `PokemonSlice.FilterByName` | lib/features/pokemon-slice.ts:108-110 | the filter keeps entries of the list only, so it is never longer than the list |
| `PokemonSlice.FilterSelects` | lib/features/pokemon-slice.ts:108-110 | an entry is in the filtered list exactly when it is in the input and its lower-cased name includes the lower-cased term |
| `PokemonSlice.FilterIsSubsequence` | lib/features/pokemon-slice.ts:108-110 | the filtered list is an order-preserving subsequence of the input |
| `PokemonSlice.FilterAppend` | lib/features/pokemon-slice.ts:108-110 | filtering distributes over concatenation, which determines the order of the result |
| `PokemonSlice.EmptyTermKeepsAll` | lib/features/pokemon-slice.ts:105-111 | filtering by `""` returns the whole list, so the reducer's `""` branch agrees with the filter |
| `PokemonSlice.FilterIdempotent` | lib/features/pokemon-slice.ts:108-110 | filtering an already filtered list by the same term changes nothing |
| `PokemonSlice.FilterIgnoresTermCase` | lib/features/pokemon-slice.ts:109 | a term and its lower-cased form select the same entries |
| `PokemonSlice.SubsequenceReflexive` | lib/features/pokemon-slice.ts:129-130 | every list is a subsequence of itself, which is the invariant's case for a fulfilled list fetch |
| `PokemonSlice.Reduce` | lib/features/pokemon-slice.ts:95-160 | the reducer, one case per action; every field outside the action's write set (`Writes`) keeps its value |
| `PokemonSlice.FailureMessage` | lib/features/pokemon-slice.ts:133-148 | the error's message or else the fallback: the message when it is present and non-empty, otherwise the fallback, so the result is never empty when the fallback is not |
| `PokemonSlice.PendingAction` | lib/features/pokemon-slice.ts:65-93 | each thunk dispatches the pending action of its own kind when it starts |
| `PokemonSlice.Started` | lib/features/pokemon-slice.ts:65-93 | dispatching a thunk changes at most `loading` and `error` before its fetch settles, and turns `loading` on for every thunk but the types fetch |
| `PokemonSlice.DispatchAll` | lib/features/pokemon-slice.ts:65-93 | the state after a sequence of dispatches; a sequence of thunks alone changes at most `loading` and `error` |
| `PokemonSlice.SetCurrentPageStores` | lib/features/pokemon-slice.ts:99-101 | `setCurrentPage` stores its payload verbatim, with no clamping |
| `PokemonSlice.SearchTermFilters` | lib/features/pokemon-slice.ts:102-111 | `setSearchTerm` stores the term, sets page 1, and sets the view to `FilterByName(pokemonList, term)` for every term, `""` included |
| `PokemonSlice.SearchTermLastWins` | lib/features/pokemon-slice.ts:106-110 | two searches in a row give the same state as the last one alone, because the filter reads `pokemonList` and never the old view |
| `PokemonSlice.SearchTermIdempotent` | lib/features/pokemon-slice.ts:106-110 | repeating a search term changes nothing |
| `PokemonSlice.SelectedTypeResetsPage` | lib/features/pokemon-slice.ts:113-116 | `setSelectedType` stores the type, sets page 1, and leaves both lists unchanged |
| `PokemonSlice.ClearSelectionOnly` | lib/features/pokemon-slice.ts:117-119 | `clearSelectedPokemon` sets the selection to null and changes nothing else |
| `PokemonSlice.LoadingFlag` | lib/features/pokemon-slice.ts:123-158 | the three handled pending cases set `loading`; the handled fulfilled and rejected cases clear it; the types cases and the by-type rejection leave it |
| `PokemonSlice.ErrorFlag` | lib/features/pokemon-slice.ts:123-148 | list and details pending clear `error`; their rejections store the message, or the fixed fallback when it is empty or absent, so `error` is then non-empty; every other action leaves `error` |
| `PokemonSlice.FulfilledPayloads` | lib/features/pokemon-slice.ts:127-158 | list fulfilled sets both lists and `totalCount`; details replaces the selection; types changes only `pokemonTypes`; by-type replaces only the view |
| `PokemonSlice.ByTypeRejectedKeepsLoading` | lib/features/pokemon-slice.ts:152-158 | a failed by-type fetch leaves `loading` true, because the reducer has no rejected case for it |
| `PokemonSlice.InitialFilteredWithinList` | lib/features/pokemon-slice.ts:52-63 | the initial state's view is a subsequence of its list |
| `PokemonSlice.FilteredWithinListPreserved` | lib/features/pokemon-slice.ts:99-158 | every action except a fulfilled by-type fetch keeps the view an order-preserving subsequence of `pokemonList` |
| `PokemonSlice.ByTypeFulfilledEscapesList` | lib/features/pokemon-slice.ts:155-158 | a fulfilled by-type fetch can put entries in the view that are not in `pokemonList` |
| `PokemonSlice.PikaFilter` | __tests__/pokemon-slice.test.ts:36-71 | filtering pikachu, charizard and bulbasaur by "pika" leaves pikachu alone |
| `PokemonSlice.PikaExample` | __tests__/pokemon-slice.test.ts:66-72 | `setSearchTerm("pika")` on that list shows pikachu alone, on page 1 |
| `PokemonSlice.PokemonStore.constructor` | lib/features/pokemon-slice.ts:52-63 | a new store holds the initial state |
| `PokemonSlice.PokemonStore.SetCurrentPage` | lib/features/pokemon-slice.ts:99-101 | assigns `currentPage` and no other field |
| `PokemonSlice.PokemonStore.SetSearchTerm` | lib/features/pokemon-slice.ts:102-111 | assigns the term, page 1 and the filtered view of the old list, in place |
| `PokemonSlice.PokemonStore.SetSelectedType` | lib/features/pokemon-slice.ts:113-116 | assigns the type and page 1 |
| `PokemonSlice.PokemonStore.ClearSelectedPokemon` | lib/features/pokemon-slice.ts:117-119 | assigns null to the selection |
| `PokemonSlice.PokemonStore.ListPending` | lib/features/pokemon-slice.ts:123-126 | sets `loading` and clears `error` |
| `PokemonSlice.PokemonStore.ListFulfilled` | lib/features/pokemon-slice.ts:127-132 | clears `loading` and stores the results in both lists and the count in `totalCount` |
| `PokemonSlice.PokemonStore.ListRejected` | lib/features/pokemon-slice.ts:133-136 | clears `loading` and stores the message or the list fallback |
| `PokemonSlice.PokemonStore.DetailsPending` | lib/features/pokemon-slice.ts:137-140 | sets `loading` and clears `error` |
| `PokemonSlice.PokemonStore.DetailsFulfilled` | lib/features/pokemon-slice.ts:141-144 | clears `loading` and replaces the selection |
| `PokemonSlice.PokemonStore.DetailsRejected` | lib/features/pokemon-slice.ts:145-148 | clears `loading` and stores the message or the details fallback |
| `PokemonSlice.PokemonStore.TypesFulfilled` | lib/features/pokemon-slice.ts:149-151 | stores the type names and nothing else |
| `PokemonSlice.PokemonStore.ByTypePending` | lib/features/pokemon-slice.ts:152-154 | sets `loading` and leaves `error` |
| `PokemonSlice.PokemonStore.ByTypeFulfilled` | lib/features/pokemon-slice.ts:155-158 | clears `loading` and replaces the view, leaving `pokemonList` |
| `PokemonSlice.PokemonStore.Dispatch` | lib/features/pokemon-slice.ts:95-160 | the in-place update agrees with `Reduce` for every action |
| `PokemonList.TotalPages` | components/pokemon-list.tsx:17 | the page count is the fewest pages of 20 that hold every entry |
| `PokemonList.FiftyEntriesMakeThreePages` | components/pokemon-list.tsx:17 | 50 entries make 3 pages, 0 make 0, 20 make 1 and 21 make 2 |
| `PokemonList.RelativeIndex` | components/pokemon-list.tsx:20 | `slice` reads an index into `[0, length]`: an in-range index is kept, one at or past the end becomes the length, and one at or below minus the length becomes 0 |
| `PokemonList.JsSlice` | components/pokemon-list.tsx:20 | `slice(start, end)`: for non-negative indices the run `[start, end)` cut at the end of the array, never longer than the array or, for non-negative indices, than `end - start`, and holding only elements of the array |
| `PokemonList.CurrentPokemon` | components/pokemon-list.tsx:18-20 | the current page holds at most 20 entries, all taken from the filtered list, for every page number |
| `PokemonList.PageContents` | components/pokemon-list.tsx:18-20 | page `p >= 1` shows entries `[(p-1)*20, p*20)` cut at the end of the list; it has at most 20 entries and is non-empty exactly when `p <= TotalPages` |
| `PokemonList.PagesThroughPrefix` | components/pokemon-list.tsx:18-20 | pages 1 to `k`, laid end to end, are the first `20k` entries |
| `PokemonList.PagesCoverList` | components/pokemon-list.tsx:17-20 | pages 1 to `TotalPages`, laid end to end, are the whole list in order |
| `PokemonList.PageWindow` | components/pokemon-list.tsx:106-116 | the window has `min(5, totalPages)` buttons with consecutive numbers |
| `PokemonList.PageNumber` | components/pokemon-list.tsx:107-116 | for a current page in range, button `i` of the window shows a page between 1 and `totalPages`, one more than button `i - 1` |
| `PokemonList.SmallWindowIsAllPages` | components/pokemon-list.tsx:106-109 | with at most five pages the window is exactly 1 to `totalPages` |
| `PokemonList.WindowWithinPagesAndHoldsCurrent` | components/pokemon-list.tsx:106-116 | for a current page in range, every button is a page between 1 and `totalPages`, and the current page is one of them |
| `PokemonList.Pagination` | components/pokemon-list.tsx:93-135 | once the list is rendered, the bar exists exactly when there is more than one page; its buttons are the page window, and prev and next are never both disabled |
| `PokemonList.ControlsStayInRange` | components/pokemon-list.tsx:93-135 | the bar exists only with more than one page; prev is disabled exactly on page 1 and next exactly on the last page; enabled controls target page minus or plus one, inside the range |
| `PokemonList.HandlePageChange` | components/pokemon-list.tsx:26-28 | a page click dispatches exactly `setCurrentPage(page)`, which from every state sets `currentPage` to the target as given and changes nothing else |
| `PokemonList.HandlePokemonClick` | components/pokemon-list.tsx:22-24 | an entry click dispatches exactly the details fetch for the clicked name, which from every state has the effect of that fetch's pending action |
| `PokemonList.ControlClicksStayOnRealPages` | components/pokemon-list.tsx:26-28 | every enabled control and every window button dispatches `setCurrentPage` to an existing page and changes nothing else |
| `PokemonList.PokemonClickStartsDetails` | components/pokemon-list.tsx:22-24 | clicking an entry starts the details fetch: `loading` on, `error` cleared, nothing else changed yet |
| `PokemonList.GetPokemonId` | components/pokemon-list.tsx:30-33 | the identifier read from a URL contains no `/` |
| `PokemonList.GetPokemonIdDefined` | components/pokemon-list.tsx:30-33 | an identifier exists exactly when the URL contains a `/` |
| `PokemonList.ResourceUrlId` | components/pokemon-list.tsx:30-33 | the identifier of `base/id/` is `id` |
| `PokemonList.DisplayNumber` | components/pokemon-list.tsx:86 | a number is shown exactly when an identifier can be read |
| `PokemonList.DisplayNumberPads` | components/pokemon-list.tsx:86 | the shown number is `#` then zeros then the identifier, three characters at least, with longer identifiers unchanged |
| `PokemonList.ShownWithThreeDigits` | __tests__/pokemon-list.test.tsx:64-66 | URLs ending in `/25/`, `/6/` and `/1/` are shown as `#025`, `#006` and `#001` |
| `SearchFilters.HandleSearchChange` | components/search-filters.tsx:13-15 | typing dispatches exactly one `setSearchTerm` carrying the raw value, which from every state has that action's effect |
| `SearchFilters.HandleTypeChange` | components/search-filters.tsx:17-24 | a type change dispatches `setSelectedType` first, then the full-list fetch (offset 0, limit 1000) exactly for "all", otherwise the by-type fetch and never the full-list fetch |
| `SearchFilters.SearchChangeEffect` | components/search-filters.tsx:13-15 | typing leaves the state with the term stored, page 1 shown and the view filtered from `pokemonList` |
| `SearchFilters.SearchChangeShowsFirstMatches` | components/search-filters.tsx:13-15 | after typing, the visible page holds the first 20 matches |
| `SearchFilters.TypeChangeEffect` | components/search-filters.tsx:17-24 | right after a type change the type is stored, page is 1, `loading` is on, both lists are unchanged, and `error` is cleared only for "all" |
| `SearchFilters.TypeChangeThenMembers` | components/search-filters.tsx:21-23 | choosing a type and receiving its members replaces the view but keeps `pokemonList` and the search term |
| `SearchFilters.TypeChangeAllThenList` | components/search-filters.tsx:19-20 | choosing "all" and receiving the list sets both lists to the results, with no error |
| `SearchFilters.Capitalize` | components/search-filters.tsx:48 | a caption has the type's length, its first character upper-cased, its characters after the first unchanged, and lower-cases to the same string as the type |
| `SearchFilters.CapitalizeFire` | components/search-filters.tsx:48 | the type "fire" is captioned "Fire" |
| `SearchFilters.CapitalizeIdempotent` | components/search-filters.tsx:48 | capitalising a caption again changes nothing |
| `SearchFilters.TypeItems` | components/search-filters.tsx:46-50 | one option per stored type, in order, valued by the type and captioned by its capitalised form |
| `SearchFilters.TypeOptions` | components/search-filters.tsx:45-50 | the options are "all" with its label first, then one per stored type in stored order, captioned by its capitalised name |

## Left out

- HTTP and JSON: the request and decoding bodies of the four thunks (lib/features/pokemon-slice.ts:65-93) are not modelled. A fulfilled action carries its payload and a rejected action its message as inputs. The payload shaping of the types and by-type thunks is modelled as `TypeNames` and `TypeMembers`.
- Concurrency between fetches in flight is not modelled. Each lifecycle action is one atomic step applied in a given order, so "the last response wins" races are outside the model.
- Unicode case mapping: `toLowerCase` and `toUpperCase` are modelled on ASCII letters only.
- The detail record's nested JSON shape (`sprites.other["official-artwork"]`, `types[].type.name`, and so on) is flattened into plain fields. The reducer stores it whole and never looks inside.
- Thunk arguments (offset, limit, name or id, type name) only shape the HTTP request. They are carried in `Thunk` but have no effect on the state.
- components/pokemon-details.tsx is not part of this model. It does floating-point display arithmetic and uses colour and label tables.
- `getPokemonImageUrl` (components/pokemon-list.tsx:35-38) is not modelled. It puts the identifier into a fixed URL, and reading the identifier is modelled as `GetPokemonId`.
- Rendering is not modelled: JSX, the image error fallback, the loading spinner and the search and type badges. While `loading` is true the list view shows only the spinner (components/pokemon-list.tsx:40-47), so neither the cards nor the pagination bar appear; `Pagination` describes the bar of the rendered list.
- Redux and Next.js wiring is not modelled: components/pokemon-app.tsx, app/page.tsx, app/layout.tsx, lib/store.ts and the Jest configuration files.
- PokemonList.GetPokemonId: for a URL with no `/`, JavaScript reads `parts[-1]`, which is `undefined`, and `padStart` then throws. The model returns `None` for that case.
- PokemonList.PageContents: states the page slice only for `currentPage >= 1`. `CurrentPokemon` itself follows JavaScript's negative-index `slice` for smaller pages.
