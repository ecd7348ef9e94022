/**
 * The search box and the type selector. Each handler is the list of things it
 * hands to `dispatch`, in order; running that list through the reducer gives
 * the state the view sees next. The selector's options are the value "all"
 * followed by the stored type names, each labelled with its first letter in
 * upper case.
 */
module SearchFilters {
  import opened Wrappers
  import opened Text
  import opened PokemonSlice
  import PokemonList

  /** The selector value that stands for every type. */
  const AllTypes := "all"
  const AllTypesLabel := "Todos os Tipos"

  /** How many entries the "all" choice asks the list endpoint for, from offset 0. */
  const FullListLimit := 1000

  /** `handleSearchChange`: one `setSearchTerm` with the raw input. */
  function HandleSearchChange(value: string): (ds: seq<Dispatchable>)
    ensures ds == [Plain(SetSearchTerm(value))]
    ensures forall s :: DispatchAll(s, ds) == Reduce(s, SetSearchTerm(value))
  {
    var ds := [Plain(SetSearchTerm(value))];
    assert ds[1..] == [];
    ds
  }

  /** `handleTypeChange`: store the type first, then fetch the full list or that type's members. */
  function HandleTypeChange(value: string): (ds: seq<Dispatchable>)
    ensures |ds| == 2 && ds[0] == Plain(SetSelectedType(value))
    ensures ds[1] == Async(FetchPokemonList(0, FullListLimit)) <==> value == AllTypes
    ensures value != AllTypes ==> ds[1] == Async(FetchPokemonByType(value))
    ensures value != AllTypes ==> forall d :: d in ds ==> !(d.Async? && d.thunk.FetchPokemonList?)
  {
    [Plain(SetSelectedType(value)),
     if value == AllTypes then Async(FetchPokemonList(0, FullListLimit)) else Async(FetchPokemonByType(value))]
  }

  /** Typing in the search box leaves the state showing the matching part of `pokemonList` from page 1. */
  lemma SearchChangeEffect(s: PokemonState, value: string)
    ensures DispatchAll(s, HandleSearchChange(value))
         == s.(searchTerm := value, currentPage := 1, filteredPokemon := FilterByName(s.pokemonList, value))
  {
    SearchTermFilters(s, value);
  }

  /** After typing, the first page holds the first twenty matches. */
  lemma SearchChangeShowsFirstMatches(s: PokemonState, value: string)
    ensures var t := DispatchAll(s, HandleSearchChange(value));
            var matches := FilterByName(s.pokemonList, value);
            PokemonList.CurrentPokemon(t.filteredPokemon, t.currentPage)
              == matches[..PokemonList.Min(PokemonList.ItemsPerPage, |matches|)]
  {
    SearchChangeEffect(s, value);
    PokemonList.PageContents(FilterByName(s.pokemonList, value), 1);
  }

  /**
   * Right after a type change: the type is stored, the page is 1, a fetch is
   * loading and neither list has changed yet; only the "all" choice clears
   * the error, because the by-type fetch's pending case leaves it.
   */
  lemma TypeChangeEffect(s: PokemonState, value: string)
    ensures DispatchAll(s, HandleTypeChange(value))
         == s.(selectedType := value, currentPage := 1, loading := true,
               error := if value == AllTypes then None else s.error)
  {
    var ds := HandleTypeChange(value);
    var typed := Started(s, ds[0]);
    assert typed == s.(selectedType := value, currentPage := 1);
    var fetching := Started(typed, ds[1]);
    assert ds[1..][1..] == [];
    assert DispatchAll(s, ds) == DispatchAll(typed, ds[1..]) == DispatchAll(fetching, []) == fetching;
    if value == AllTypes {
      assert fetching == Reduce(typed, ListPending);
    } else {
      assert fetching == Reduce(typed, ByTypePending);
    }
  }

  /** Choosing a type and receiving its members replaces the view but not `pokemonList`. */
  lemma TypeChangeThenMembers(s: PokemonState, value: string, members: seq<PokemonListItem>)
    requires value != AllTypes
    ensures var t := Reduce(DispatchAll(s, HandleTypeChange(value)), ByTypeFulfilled(members));
            && t.filteredPokemon == members
            && t.pokemonList == s.pokemonList
            && t.selectedType == value
            && t.currentPage == 1
            && !t.loading
            && t.searchTerm == s.searchTerm
  {
    TypeChangeEffect(s, value);
  }

  /** Choosing "all" and receiving the list makes the view the whole new list again. */
  lemma TypeChangeAllThenList(s: PokemonState, response: ListResponse)
    ensures var t := Reduce(DispatchAll(s, HandleTypeChange(AllTypes)), ListFulfilled(response));
            && t.pokemonList == response.results
            && t.filteredPokemon == response.results
            && t.totalCount == response.count
            && t.selectedType == AllTypes
            && t.currentPage == 1
            && !t.loading
            && t.error == None
  {
    TypeChangeEffect(s, AllTypes);
  }

  /** `type.charAt(0).toUpperCase() + type.slice(1)`. */
  function Capitalize(t: string): (caption: string)
    ensures |caption| == |t|
    ensures t != [] ==> caption[0] == UpperChar(t[0])
    ensures t != [] ==> caption[1..] == t[1..]
    ensures ToLower(caption) == ToLower(t)
  {
    if t == [] then [] else
      var caption := [UpperChar(t[0])] + t[1..];
      LowerOfUpper(t[0]);
      assert ToLower(caption)[0] == ToLower(t)[0];
      caption
  }

  /** The fire type is captioned "Fire". */
  lemma CapitalizeFire()
    ensures Capitalize("fire") == "Fire"
  {
    assert UpperChar('f') == 'F';
  }

  /** Capitalising a label a second time changes nothing. */
  lemma CapitalizeIdempotent(t: string)
    ensures Capitalize(Capitalize(t)) == Capitalize(t)
  {
  }

  /** One entry of the type selector. */
  datatype SelectOption = SelectOption(value: string, caption: string)

  /** The options for the stored type names, in their order. */
  function TypeItems(types: seq<string>): (items: seq<SelectOption>)
    ensures |items| == |types|
    ensures forall i :: 0 <= i < |types| ==> items[i] == SelectOption(types[i], Capitalize(types[i]))
  {
    if types == [] then [] else [SelectOption(types[0], Capitalize(types[0]))] + TypeItems(types[1..])
  }

  /** The selector's options: "all" first, then one per stored type, each captioned by its capitalised name. */
  function TypeOptions(types: seq<string>): (options: seq<SelectOption>)
    ensures |options| == |types| + 1
    ensures options[0] == SelectOption(AllTypes, AllTypesLabel)
    ensures forall i :: 0 <= i < |types| ==> options[i + 1] == SelectOption(types[i], Capitalize(types[i]))
  {
    [SelectOption(AllTypes, AllTypesLabel)] + TypeItems(types)
  }

}
