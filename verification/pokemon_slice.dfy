/**
 * The Pokédex state container: the `pokemon` slice's state record, its four
 * case reducers and the pending / fulfilled / rejected cases of its four fetch
 * thunks. `Reduce` is the reducer as a pure function of the old state and one
 * action; `PokemonStore` holds the same record in fields that its methods
 * assign in place, one method per case reducer, each proved to agree with
 * `Reduce`. HTTP requests and JSON decoding are not modelled: a fulfilled
 * action carries its payload and a rejected one its error message.
 */
module PokemonSlice {
  import opened Wrappers
  import opened Text

  /** One entry of the catalogue list: a name and its resource URL. */
  datatype PokemonListItem = PokemonListItem(name: string, url: string)

  datatype Stat = Stat(baseStat: int, statName: string)

  /**
   * A detail record, with the API's nested wrappers flattened: sprite and
   * artwork URLs, type names, ability names, stats, height and weight.
   */
  datatype Pokemon = Pokemon(
    id: int,
    name: string,
    frontDefault: string,
    officialArtwork: string,
    types: seq<string>,
    abilities: seq<string>,
    stats: seq<Stat>,
    height: int,
    weight: int)

  datatype PokemonState = PokemonState(
    pokemonList: seq<PokemonListItem>,
    filteredPokemon: seq<PokemonListItem>,
    selectedPokemon: Option<Pokemon>,
    loading: bool,
    error: Option<string>,
    currentPage: int,
    totalCount: int,
    searchTerm: string,
    selectedType: string,
    pokemonTypes: seq<string>)

  const InitialState := PokemonState([], [], None, false, None, 1, 0, "", "", [])

  /** Body of `GET /pokemon?offset=&limit=`. */
  datatype ListResponse = ListResponse(results: seq<PokemonListItem>, count: int)

  /** An entry of `results` in the body of `GET /type`. */
  datatype NamedType = NamedType(name: string)

  /** An entry of `pokemon` in the body of `GET /type/{name}`. */
  datatype TypeSlot = TypeSlot(pokemon: PokemonListItem)

  /** The types thunk's payload: the names of the listed types, in order. */
  function TypeNames(results: seq<NamedType>): (names: seq<string>)
    ensures |names| == |results|
    ensures forall i :: 0 <= i < |results| ==> names[i] == results[i].name
  {
    if results == [] then [] else [results[0].name] + TypeNames(results[1..])
  }

  /** The by-type thunk's payload: the list entry inside each slot, in order. */
  function TypeMembers(slots: seq<TypeSlot>): (items: seq<PokemonListItem>)
    ensures |items| == |slots|
    ensures forall i :: 0 <= i < |slots| ==> items[i] == slots[i].pokemon
  {
    if slots == [] then [] else [slots[0].pokemon] + TypeMembers(slots[1..])
  }

  /** The actions the reducer receives: the four plain ones and the lifecycle of each thunk. */
  datatype Action =
    | SetCurrentPage(page: int)
    | SetSearchTerm(term: string)
    | SetSelectedType(typeName: string)
    | ClearSelectedPokemon
    | ListPending
    | ListFulfilled(response: ListResponse)
    | ListRejected(message: Option<string>)
    | DetailsPending
    | DetailsFulfilled(pokemon: Pokemon)
    | DetailsRejected(message: Option<string>)
    | TypesPending
    | TypesFulfilled(typeNames: seq<string>)
    | TypesRejected(message: Option<string>)
    | ByTypePending
    | ByTypeFulfilled(members: seq<PokemonListItem>)
    | ByTypeRejected(message: Option<string>)

  // ---------------------------------------------------------------------------
  // The name filter
  // ---------------------------------------------------------------------------

  /** The lower-cased name includes the lower-cased term. */
  predicate NameMatches(item: PokemonListItem, term: string)
    ensures term == "" ==> NameMatches(item, term)
    ensures NameMatches(item, term) ==> |term| <= |item.name|
  {
    ContainsEmpty(ToLower(item.name));
    ContainsNoLonger(ToLower(item.name), ToLower(term));
    Contains(ToLower(item.name), ToLower(term))
  }

  /** `a` is `b` with some elements left out, the rest in their order. */
  ghost predicate IsSubsequence<T>(a: seq<T>, b: seq<T>)
    decreases |b|
  {
    a == [] || (b != [] && ((a[0] == b[0] && IsSubsequence(a[1..], b[1..])) || IsSubsequence(a, b[1..])))
  }

  /** `list.filter(p => p.name.toLowerCase().includes(term.toLowerCase()))`. */
  function FilterByName(list: seq<PokemonListItem>, term: string): (r: seq<PokemonListItem>)
    ensures |r| <= |list|
  {
    if list == [] then []
    else if NameMatches(list[0], term) then [list[0]] + FilterByName(list[1..], term)
    else FilterByName(list[1..], term)
  }

  /** The filter keeps exactly the entries whose name matches the term. */
  lemma {:induction false} FilterSelects(list: seq<PokemonListItem>, term: string)
    ensures forall x :: x in FilterByName(list, term) <==> x in list && NameMatches(x, term)
  {
    if list != [] {
      FilterSelects(list[1..], term);
      assert list == [list[0]] + list[1..];
    }
  }

  /** The filter's result is an order-preserving selection from its input. */
  lemma {:induction false} FilterIsSubsequence(list: seq<PokemonListItem>, term: string)
    ensures IsSubsequence(FilterByName(list, term), list)
  {
    if list != [] {
      FilterIsSubsequence(list[1..], term);
      var rest := FilterByName(list[1..], term);
      if NameMatches(list[0], term) {
        assert ([list[0]] + rest)[1..] == rest;
      } else if rest != [] {
        FilterSelects(list[1..], term);
        assert rest[0] in rest;
      }
    }
  }

  /** Every list is a subsequence of itself. */
  lemma {:induction false} SubsequenceReflexive<T>(s: seq<T>)
    ensures IsSubsequence(s, s)
  {
    if s != [] {
      SubsequenceReflexive(s[1..]);
    }
  }

  /** Filtering distributes over concatenation, so it keeps the list's order. */
  lemma {:induction false} FilterAppend(a: seq<PokemonListItem>, b: seq<PokemonListItem>, term: string)
    ensures FilterByName(a + b, term) == FilterByName(a, term) + FilterByName(b, term)
  {
    if a == [] {
      assert a + b == b;
    } else {
      assert (a + b)[0] == a[0];
      assert (a + b)[1..] == a[1..] + b;
      FilterAppend(a[1..], b, term);
      var head := if NameMatches(a[0], term) then [a[0]] else [];
      assert FilterByName(a, term) == head + FilterByName(a[1..], term);
      assert FilterByName(a + b, term) == head + FilterByName(a[1..] + b, term);
      assert head + (FilterByName(a[1..], term) + FilterByName(b, term))
          == (head + FilterByName(a[1..], term)) + FilterByName(b, term);
    }
  }

  /** The empty term matches every name, so the `""` branch agrees with the filter. */
  lemma {:induction false} EmptyTermKeepsAll(list: seq<PokemonListItem>)
    ensures FilterByName(list, "") == list
  {
    if list != [] {
      ContainsEmpty(ToLower(list[0].name));
      EmptyTermKeepsAll(list[1..]);
    }
  }

  /** Filtering an already filtered list by the same term changes nothing. */
  lemma {:induction false} FilterIdempotent(list: seq<PokemonListItem>, term: string)
    ensures FilterByName(FilterByName(list, term), term) == FilterByName(list, term)
  {
    if list != [] {
      FilterIdempotent(list[1..], term);
      var rest := FilterByName(list[1..], term);
      if NameMatches(list[0], term) {
        assert ([list[0]] + rest)[1..] == rest;
      }
    }
  }

  /** The filter ignores the case of the term. */
  lemma {:induction false} FilterIgnoresTermCase(list: seq<PokemonListItem>, term: string)
    ensures FilterByName(list, ToLower(term)) == FilterByName(list, term)
  {
    ToLowerIdempotent(term);
    if list != [] {
      FilterIgnoresTermCase(list[1..], term);
    }
  }

  // ---------------------------------------------------------------------------
  // The reducer
  // ---------------------------------------------------------------------------

  const ListFailure := "Failed to fetch Pokemon list"
  const DetailsFailure := "Failed to fetch Pokemon details"

  /** `action.error.message || fallback`: an absent or empty message yields the fallback. */
  function FailureMessage(message: Option<string>, fallback: string): (text: string)
    ensures text == fallback || message == Some(text)
    ensures message.Some? && message.value != "" ==> text == message.value
    ensures fallback != "" ==> text != ""
  {
    if message.Some? && message.value != "" then message.value else fallback
  }

  /** The slice's reducer; lifecycle cases it has no handler for leave the state as it is. */
  function Reduce(s: PokemonState, a: Action): (t: PokemonState)
    ensures forall f :: f !in Writes(a) ==> Agree(s, t, f)
  {
    match a
    case SetCurrentPage(page) => s.(currentPage := page)
    case SetSearchTerm(term) =>
      s.(searchTerm := term, currentPage := 1,
         filteredPokemon := if term == "" then s.pokemonList else FilterByName(s.pokemonList, term))
    case SetSelectedType(typeName) => s.(selectedType := typeName, currentPage := 1)
    case ClearSelectedPokemon => s.(selectedPokemon := None)
    case ListPending => s.(loading := true, error := None)
    case ListFulfilled(response) =>
      s.(loading := false, pokemonList := response.results, filteredPokemon := response.results,
         totalCount := response.count)
    case ListRejected(message) => s.(loading := false, error := Some(FailureMessage(message, ListFailure)))
    case DetailsPending => s.(loading := true, error := None)
    case DetailsFulfilled(pokemon) => s.(loading := false, selectedPokemon := Some(pokemon))
    case DetailsRejected(message) => s.(loading := false, error := Some(FailureMessage(message, DetailsFailure)))
    case TypesPending => s
    case TypesFulfilled(typeNames) => s.(pokemonTypes := typeNames)
    case TypesRejected(_) => s
    case ByTypePending => s.(loading := true)
    case ByTypeFulfilled(members) => s.(loading := false, filteredPokemon := members)
    case ByTypeRejected(_) => s
  }

  /** The fields of the state record. */
  datatype Field =
    | PokemonListField | FilteredPokemonField | SelectedPokemonField | LoadingField | ErrorField
    | CurrentPageField | TotalCountField | SearchTermField | SelectedTypeField | PokemonTypesField

  /** Field `f` holds the same value in `s` and `t`. */
  predicate Agree(s: PokemonState, t: PokemonState, f: Field)
  {
    match f
    case PokemonListField => s.pokemonList == t.pokemonList
    case FilteredPokemonField => s.filteredPokemon == t.filteredPokemon
    case SelectedPokemonField => s.selectedPokemon == t.selectedPokemon
    case LoadingField => s.loading == t.loading
    case ErrorField => s.error == t.error
    case CurrentPageField => s.currentPage == t.currentPage
    case TotalCountField => s.totalCount == t.totalCount
    case SearchTermField => s.searchTerm == t.searchTerm
    case SelectedTypeField => s.selectedType == t.selectedType
    case PokemonTypesField => s.pokemonTypes == t.pokemonTypes
  }

  /** The fields each case of the reducer assigns. */
  function Writes(a: Action): set<Field>
  {
    match a
    case SetCurrentPage(_) => {CurrentPageField}
    case SetSearchTerm(_) => {SearchTermField, CurrentPageField, FilteredPokemonField}
    case SetSelectedType(_) => {SelectedTypeField, CurrentPageField}
    case ClearSelectedPokemon => {SelectedPokemonField}
    case ListPending => {LoadingField, ErrorField}
    case ListFulfilled(_) => {LoadingField, PokemonListField, FilteredPokemonField, TotalCountField}
    case ListRejected(_) => {LoadingField, ErrorField}
    case DetailsPending => {LoadingField, ErrorField}
    case DetailsFulfilled(_) => {LoadingField, SelectedPokemonField}
    case DetailsRejected(_) => {LoadingField, ErrorField}
    case TypesPending => {}
    case TypesFulfilled(_) => {PokemonTypesField}
    case TypesRejected(_) => {}
    case ByTypePending => {LoadingField}
    case ByTypeFulfilled(_) => {LoadingField, FilteredPokemonField}
    case ByTypeRejected(_) => {}
  }


  /** `setCurrentPage` stores its payload verbatim, without clamping. */
  lemma SetCurrentPageStores(s: PokemonState, page: int)
    ensures Reduce(s, SetCurrentPage(page)).currentPage == page
  {
  }

  /** `setSearchTerm` stores the term, goes back to page 1 and filters `pokemonList`. */
  lemma SearchTermFilters(s: PokemonState, term: string)
    ensures Reduce(s, SetSearchTerm(term)).searchTerm == term
    ensures Reduce(s, SetSearchTerm(term)).currentPage == 1
    ensures Reduce(s, SetSearchTerm(term)).filteredPokemon == FilterByName(s.pokemonList, term)
  {
    if term == "" {
      EmptyTermKeepsAll(s.pokemonList);
    }
  }

  /** Only the last search term matters: the filter never reads the previous view. */
  lemma SearchTermLastWins(s: PokemonState, first: string, second: string)
    ensures Reduce(Reduce(s, SetSearchTerm(first)), SetSearchTerm(second)) == Reduce(s, SetSearchTerm(second))
  {
  }

  /** Setting the same search term twice is the same as setting it once. */
  lemma SearchTermIdempotent(s: PokemonState, term: string)
    ensures Reduce(Reduce(s, SetSearchTerm(term)), SetSearchTerm(term)) == Reduce(s, SetSearchTerm(term))
  {
    SearchTermLastWins(s, term, term);
  }

  /** `setSelectedType` stores the type, goes back to page 1 and leaves both lists alone. */
  lemma SelectedTypeResetsPage(s: PokemonState, typeName: string)
    ensures Reduce(s, SetSelectedType(typeName)).selectedType == typeName
    ensures Reduce(s, SetSelectedType(typeName)).currentPage == 1
    ensures Reduce(s, SetSelectedType(typeName)).pokemonList == s.pokemonList
    ensures Reduce(s, SetSelectedType(typeName)).filteredPokemon == s.filteredPokemon
  {
  }

  /** `clearSelectedPokemon` empties the selection and nothing else. */
  lemma ClearSelectionOnly(s: PokemonState)
    ensures Reduce(s, ClearSelectedPokemon) == s.(selectedPokemon := None)
  {
  }

  /** How every action sets the `loading` flag. */
  lemma LoadingFlag(s: PokemonState, a: Action)
    ensures (a.ListPending? || a.DetailsPending? || a.ByTypePending?) ==> Reduce(s, a).loading
    ensures (a.ListFulfilled? || a.ListRejected? || a.DetailsFulfilled? || a.DetailsRejected? || a.ByTypeFulfilled?)
            ==> !Reduce(s, a).loading
    ensures (a.TypesPending? || a.TypesFulfilled? || a.TypesRejected? || a.ByTypeRejected?)
            ==> Reduce(s, a).loading == s.loading
  {
  }

  /** How every action sets `error`: cleared by two pending cases, set by two rejected ones. */
  lemma ErrorFlag(s: PokemonState, a: Action)
    ensures (a.ListPending? || a.DetailsPending?) ==> Reduce(s, a).error == None
    ensures a.ListRejected? && a.message.Some? && a.message.value != "" ==> Reduce(s, a).error == a.message
    ensures a.ListRejected? && (a.message.None? || a.message.value == "") ==> Reduce(s, a).error == Some(ListFailure)
    ensures a.DetailsRejected? && a.message.Some? && a.message.value != "" ==> Reduce(s, a).error == a.message
    ensures a.DetailsRejected? && (a.message.None? || a.message.value == "") ==> Reduce(s, a).error == Some(DetailsFailure)
    ensures (a.ListRejected? || a.DetailsRejected?) ==> Reduce(s, a).error.Some? && Reduce(s, a).error.value != ""
    ensures !(a.ListPending? || a.DetailsPending? || a.ListRejected? || a.DetailsRejected?) ==> Reduce(s, a).error == s.error
  {
  }

  /** Where fulfilled payloads land. */
  lemma FulfilledPayloads(s: PokemonState, a: Action)
    ensures a.ListFulfilled? ==>
              && Reduce(s, a).pokemonList == a.response.results
              && Reduce(s, a).filteredPokemon == a.response.results
              && Reduce(s, a).totalCount == a.response.count
    ensures a.DetailsFulfilled? ==> Reduce(s, a).selectedPokemon == Some(a.pokemon)
    ensures a.TypesFulfilled? ==> Reduce(s, a) == s.(pokemonTypes := a.typeNames)
    ensures a.ByTypeFulfilled? ==>
              && Reduce(s, a).filteredPokemon == a.members
              && Reduce(s, a).pokemonList == s.pokemonList
  {
  }

  /** The by-type fetch is not handled when it fails: the spinner keeps turning. */
  lemma ByTypeRejectedKeepsLoading(s: PokemonState, message: Option<string>)
    ensures Reduce(Reduce(s, ByTypePending), ByTypeRejected(message)).loading
  {
  }

  /** `filteredPokemon` is an order-preserving selection from `pokemonList`. */
  ghost predicate FilteredWithinList(s: PokemonState)
  {
    IsSubsequence(s.filteredPokemon, s.pokemonList)
  }

  lemma InitialFilteredWithinList()
    ensures FilteredWithinList(InitialState)
  {
  }

  /** Every action except a fulfilled by-type fetch keeps `filteredPokemon` within `pokemonList`. */
  lemma FilteredWithinListPreserved(s: PokemonState, a: Action)
    requires FilteredWithinList(s)
    requires !a.ByTypeFulfilled?
    ensures FilteredWithinList(Reduce(s, a))
  {
    match a
    case SetSearchTerm(term) =>
      SearchTermFilters(s, term);
      FilterIsSubsequence(s.pokemonList, term);
    case ListFulfilled(response) =>
      SubsequenceReflexive(response.results);
    case _ =>
  }

  /** A fulfilled by-type fetch can leave `filteredPokemon` outside `pokemonList`. */
  lemma ByTypeFulfilledEscapesList()
    ensures !FilteredWithinList(Reduce(InitialState, ByTypeFulfilled([PokemonListItem("pikachu", "25")])))
  {
  }

  /** "pika" occurs in "pikachu". */
  lemma PikachuMatchesPika()
    ensures NameMatches(PokemonListItem("pikachu", "u1"), "pika")
  {
    assert ToLower("pika") == "pika";
    assert ToLower("pikachu") == "pikachu";
    assert "pika" <= "pikachu";
  }

  /** A name in which the letter 'p' never occurs does not match "pika". */
  lemma NoPMeansNoPika(item: PokemonListItem)
    requires 'p' !in ToLower(item.name)
    ensures !NameMatches(item, "pika")
  {
    assert ToLower("pika") == "pika";
    MissingFirstCharacter(ToLower(item.name), "pika");
  }

  /** Filtering pikachu, charizard and bulbasaur by "pika" keeps pikachu alone. */
  lemma PikaFilter(pikachu: PokemonListItem, charizard: PokemonListItem, bulbasaur: PokemonListItem)
    requires pikachu.name == "pikachu" && charizard.name == "charizard" && bulbasaur.name == "bulbasaur"
    ensures FilterByName([pikachu, charizard, bulbasaur], "pika") == [pikachu]
  {
    PikachuMatchesPika();
    OthersMissPika(charizard);
    OthersMissPika(bulbasaur);
    var tail := [bulbasaur];
    var mid := [charizard] + tail;
    var list := [pikachu] + mid;
    assert tail[1..] == [];
    assert FilterByName(tail, "pika") == [];
    assert mid[1..] == tail;
    assert FilterByName(mid, "pika") == [];
    assert list[1..] == mid;
    assert FilterByName(list, "pika") == [pikachu];
    assert list == [pikachu, charizard, bulbasaur];
  }

  /** Neither "charizard" nor "bulbasaur" matches "pika". */
  lemma OthersMissPika(item: PokemonListItem)
    requires item.name == "charizard" || item.name == "bulbasaur"
    ensures !NameMatches(item, "pika")
  {
    assert ToLower("charizard") == "charizard";
    assert ToLower("bulbasaur") == "bulbasaur";
    NoPMeansNoPika(item);
  }

  /** `setSearchTerm("pika")` on that list shows pikachu alone, on page 1. */
  lemma PikaExample(s: PokemonState, pikachu: PokemonListItem, charizard: PokemonListItem, bulbasaur: PokemonListItem)
    requires pikachu.name == "pikachu" && charizard.name == "charizard" && bulbasaur.name == "bulbasaur"
    requires s.pokemonList == [pikachu, charizard, bulbasaur]
    ensures Reduce(s, SetSearchTerm("pika")).filteredPokemon == [pikachu]
    ensures Reduce(s, SetSearchTerm("pika")).currentPage == 1
  {
    PikaFilter(pikachu, charizard, bulbasaur);
  }

  // ---------------------------------------------------------------------------
  // The store: the same record, updated in place
  // ---------------------------------------------------------------------------

  /** The slice's state as a mutable record; each method is one case of the reducer. */
  class PokemonStore {
    var pokemonList: seq<PokemonListItem>
    var filteredPokemon: seq<PokemonListItem>
    var selectedPokemon: Option<Pokemon>
    var loading: bool
    var error: Option<string>
    var currentPage: int
    var totalCount: int
    var searchTerm: string
    var selectedType: string
    var pokemonTypes: seq<string>

    function State(): PokemonState
      reads this
    {
      PokemonState(pokemonList, filteredPokemon, selectedPokemon, loading, error,
                   currentPage, totalCount, searchTerm, selectedType, pokemonTypes)
    }

    constructor ()
      ensures State() == InitialState
    {
      pokemonList, filteredPokemon, selectedPokemon := [], [], None;
      loading, error := false, None;
      currentPage, totalCount := 1, 0;
      searchTerm, selectedType, pokemonTypes := "", "", [];
    }

    method SetCurrentPage(page: int)
      modifies this
      ensures State() == old(State()).(currentPage := page)
    {
      currentPage := page;
    }

    method SetSearchTerm(term: string)
      modifies this
      ensures State() == old(State()).(searchTerm := term, currentPage := 1,
                                       filteredPokemon := FilterByName(old(pokemonList), term))
    {
      searchTerm := term;
      currentPage := 1;
      if term == "" {
        filteredPokemon := pokemonList;
        EmptyTermKeepsAll(pokemonList);
      } else {
        filteredPokemon := FilterByName(pokemonList, term);
      }
    }

    method SetSelectedType(typeName: string)
      modifies this
      ensures State() == old(State()).(selectedType := typeName, currentPage := 1)
    {
      selectedType := typeName;
      currentPage := 1;
    }

    method ClearSelectedPokemon()
      modifies this
      ensures State() == old(State()).(selectedPokemon := None)
    {
      selectedPokemon := None;
    }

    method ListPending()
      modifies this
      ensures State() == old(State()).(loading := true, error := None)
    {
      loading := true;
      error := None;
    }

    method ListFulfilled(response: ListResponse)
      modifies this
      ensures State() == old(State()).(loading := false, pokemonList := response.results,
                                       filteredPokemon := response.results, totalCount := response.count)
    {
      loading := false;
      pokemonList := response.results;
      filteredPokemon := response.results;
      totalCount := response.count;
    }

    method ListRejected(message: Option<string>)
      modifies this
      ensures State() == old(State()).(loading := false, error := Some(FailureMessage(message, ListFailure)))
    {
      loading := false;
      error := Some(FailureMessage(message, ListFailure));
    }

    method DetailsPending()
      modifies this
      ensures State() == old(State()).(loading := true, error := None)
    {
      loading := true;
      error := None;
    }

    method DetailsFulfilled(pokemon: Pokemon)
      modifies this
      ensures State() == old(State()).(loading := false, selectedPokemon := Some(pokemon))
    {
      loading := false;
      selectedPokemon := Some(pokemon);
    }

    method DetailsRejected(message: Option<string>)
      modifies this
      ensures State() == old(State()).(loading := false, error := Some(FailureMessage(message, DetailsFailure)))
    {
      loading := false;
      error := Some(FailureMessage(message, DetailsFailure));
    }

    method TypesFulfilled(typeNames: seq<string>)
      modifies this
      ensures State() == old(State()).(pokemonTypes := typeNames)
    {
      pokemonTypes := typeNames;
    }

    method ByTypePending()
      modifies this
      ensures State() == old(State()).(loading := true)
    {
      loading := true;
    }

    method ByTypeFulfilled(members: seq<PokemonListItem>)
      modifies this
      ensures State() == old(State()).(loading := false, filteredPokemon := members)
    {
      loading := false;
      filteredPokemon := members;
    }

    /** Routes an action to its case reducer; actions without one change nothing. */
    method Dispatch(a: Action)
      modifies this
      ensures State() == Reduce(old(State()), a)
    {
      match a
      case SetCurrentPage(page) => SetCurrentPage(page);
      case SetSearchTerm(term) =>
        SearchTermFilters(State(), term);
        SetSearchTerm(term);
      case SetSelectedType(typeName) => SetSelectedType(typeName);
      case ClearSelectedPokemon => ClearSelectedPokemon();
      case ListPending => ListPending();
      case ListFulfilled(response) => ListFulfilled(response);
      case ListRejected(message) => ListRejected(message);
      case DetailsPending => DetailsPending();
      case DetailsFulfilled(pokemon) => DetailsFulfilled(pokemon);
      case DetailsRejected(message) => DetailsRejected(message);
      case TypesPending =>
      case TypesFulfilled(typeNames) => TypesFulfilled(typeNames);
      case TypesRejected(_) =>
      case ByTypePending => ByTypePending();
      case ByTypeFulfilled(members) => ByTypeFulfilled(members);
      case ByTypeRejected(_) =>
    }
  }

  // ---------------------------------------------------------------------------
  // Thunks as dispatched by the components
  // ---------------------------------------------------------------------------

  /** A fetch thunk with its argument; the argument only shapes the HTTP request. */
  datatype Thunk =
    | FetchPokemonList(offset: int, limit: int)
    | FetchPokemonDetails(nameOrId: string)
    | FetchPokemonTypes
    | FetchPokemonByType(typeName: string)

  /** What a component hands to `dispatch`: a plain action or a thunk. */
  datatype Dispatchable = Plain(action: Action) | Async(thunk: Thunk)

  /** The action a thunk dispatches synchronously when it starts. */
  function PendingAction(t: Thunk): (pending: Action)
    ensures pending in {ListPending, DetailsPending, TypesPending, ByTypePending}
    ensures pending == ListPending <==> t.FetchPokemonList?
    ensures pending == DetailsPending <==> t.FetchPokemonDetails?
    ensures pending == ByTypePending <==> t.FetchPokemonByType?
  {
    match t
    case FetchPokemonList(_, _) => ListPending
    case FetchPokemonDetails(_) => DetailsPending
    case FetchPokemonTypes => TypesPending
    case FetchPokemonByType(_) => ByTypePending
  }

  /** The state right after `dispatch(d)` returns, before any fetch settles. */
  function Started(s: PokemonState, d: Dispatchable): (t: PokemonState)
    ensures d.Async? ==> t == s.(loading := t.loading, error := t.error)
    ensures d.Async? && !d.thunk.FetchPokemonTypes? ==> t.loading
  {
    match d
    case Plain(a) => Reduce(s, a)
    case Async(t) => Reduce(s, PendingAction(t))
  }

  /** The state after dispatching `ds` in order. */
  function DispatchAll(s: PokemonState, ds: seq<Dispatchable>): (t: PokemonState)
    ensures (forall k :: 0 <= k < |ds| ==> ds[k].Async?) ==> t == s.(loading := t.loading, error := t.error)
    decreases |ds|
  {
    if ds == [] then s else DispatchAll(Started(s, ds[0]), ds[1..])
  }

}
