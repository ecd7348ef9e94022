/**
 * The arithmetic of the list view: how many pages the filtered list makes,
 * which entries the current page shows, the window of at most five page
 * buttons, the previous / next controls, and the number shown under each
 * entry, read from its resource URL.
 */
module PokemonList {
  import opened Wrappers
  import opened Text
  import opened PokemonSlice

  const ItemsPerPage: nat := 20

  /** The number of buttons in the page window at most. */
  const WindowSize: nat := 5

  function Min(a: int, b: int): int
  {
    if a < b then a else b
  }

  /** `Math.ceil(count / ItemsPerPage)`: the fewest pages that hold `count` entries. */
  function TotalPages(count: nat): (pages: nat)
    ensures count <= pages * ItemsPerPage
    ensures pages > 0 ==> (pages - 1) * ItemsPerPage < count
  {
    (count + ItemsPerPage - 1) / ItemsPerPage
  }

  lemma FiftyEntriesMakeThreePages()
    ensures TotalPages(50) == 3 && TotalPages(0) == 0 && TotalPages(20) == 1 && TotalPages(21) == 2
  {
  }

  /** How `Array.prototype.slice` reads an index: negative counts from the end, then clamped. */
  function RelativeIndex(i: int, len: nat): (k: nat)
    ensures k <= len
    ensures 0 <= i <= len ==> k == i
    ensures i >= len ==> k == len
    ensures i + len <= 0 ==> k == 0
  {
    if i < 0 then (if len + i < 0 then 0 else len + i)
    else if i > len then len
    else i
  }

  /** `s.slice(start, end)`. */
  function JsSlice<T>(s: seq<T>, start: int, end: int): (r: seq<T>)
    ensures 0 <= start <= end <= |s| ==> r == s[start..end]
    ensures 0 <= start <= end ==> r == s[Min(start, |s|)..Min(end, |s|)]
    ensures |r| <= |s|
    ensures 0 <= start && 0 <= end ==> |r| <= (if start < end then end - start else 0)
    ensures forall x :: x in r ==> x in s
  {
    var b := RelativeIndex(start, |s|);
    var e := RelativeIndex(end, |s|);
    if b < e then s[b..e] else []
  }

  /** The entries on page `currentPage`: `filtered.slice(startIndex, endIndex)`. */
  function CurrentPokemon<T>(filtered: seq<T>, currentPage: int): (page: seq<T>)
    ensures |page| <= ItemsPerPage
    ensures forall x :: x in page ==> x in filtered
  {
    var startIndex := (currentPage - 1) * ItemsPerPage;
    var endIndex := startIndex + ItemsPerPage;
    JsSlice(filtered, startIndex, endIndex)
  }

  /** Page `p >= 1` shows the entries from `(p-1)*20` up to `p*20`, cut at the end of the list. */
  lemma PageContents<T>(filtered: seq<T>, p: int)
    requires p >= 1
    ensures var n := |filtered|;
            var lo := Min((p - 1) * ItemsPerPage, n);
            var hi := Min(p * ItemsPerPage, n);
            CurrentPokemon(filtered, p) == filtered[lo..hi]
    ensures |CurrentPokemon(filtered, p)| <= ItemsPerPage
    ensures CurrentPokemon(filtered, p) != [] <==> p <= TotalPages(|filtered|)
  {
  }

  /** Pages 1 to `k` laid end to end. */
  function PagesThrough<T>(filtered: seq<T>, k: nat): seq<T>
  {
    if k == 0 then [] else PagesThrough(filtered, k - 1) + CurrentPokemon(filtered, k)
  }

  /** The first `k` pages are the first `k * 20` entries. */
  lemma {:induction false} PagesThroughPrefix<T>(filtered: seq<T>, k: nat)
    ensures PagesThrough(filtered, k) == filtered[..Min(k * ItemsPerPage, |filtered|)]
  {
    if k > 0 {
      PagesThroughPrefix(filtered, k - 1);
      PageContents(filtered, k);
      var lo := Min((k - 1) * ItemsPerPage, |filtered|);
      var hi := Min(k * ItemsPerPage, |filtered|);
      assert filtered[..lo] + filtered[lo..hi] == filtered[..hi];
    }
  }

  /** Pages 1 to `TotalPages` laid end to end give back the whole list, in order. */
  lemma PagesCoverList<T>(filtered: seq<T>)
    ensures PagesThrough(filtered, TotalPages(|filtered|)) == filtered
  {
    PagesThroughPrefix(filtered, TotalPages(|filtered|));
  }

  /** The number on button `i` of the page window. */
  function PageNumber(i: int, currentPage: int, totalPages: int): (page: int)
    ensures 1 <= currentPage <= totalPages && 0 <= i < Min(WindowSize, totalPages) ==> 1 <= page <= totalPages
    ensures 0 < i ==> page == PageNumber(i - 1, currentPage, totalPages) + 1
  {
    if totalPages <= WindowSize then i + 1
    else if currentPage <= 3 then i + 1
    else if currentPage >= totalPages - 2 then totalPages - 4 + i
    else currentPage - 2 + i
  }

  /** `Array.from({ length: Math.min(5, totalPages) }, ...)`: the numbers on the page buttons. */
  function PageWindow(currentPage: int, totalPages: nat): (window: seq<int>)
    ensures |window| == Min(WindowSize, totalPages)
    ensures forall i :: 0 < i < |window| ==> window[i] == window[i - 1] + 1
  {
    seq(Min(WindowSize, totalPages), i => PageNumber(i, currentPage, totalPages))
  }

  /** With five pages or fewer the window is exactly 1 to `totalPages`. */
  lemma SmallWindowIsAllPages(currentPage: int, totalPages: nat)
    requires totalPages <= WindowSize
    ensures |PageWindow(currentPage, totalPages)| == totalPages
    ensures forall i :: 0 <= i < totalPages ==> PageWindow(currentPage, totalPages)[i] == i + 1
  {
  }

  /** For a current page in range, every button is a real page and one of them is the current page. */
  lemma WindowWithinPagesAndHoldsCurrent(currentPage: int, totalPages: nat)
    requires 1 <= currentPage <= totalPages
    ensures forall k :: k in PageWindow(currentPage, totalPages) ==> 1 <= k <= totalPages
    ensures currentPage in PageWindow(currentPage, totalPages)
  {
    var window := PageWindow(currentPage, totalPages);
    var first := window[0];
    assert forall i :: 0 <= i < |window| ==> window[i] == first + i;
    assert 1 <= first && first + |window| - 1 <= totalPages;
    assert window[currentPage - first] == currentPage;
  }

  /** The controls below the list: previous, the page window, next. */
  datatype Controls = Controls(
    prevDisabled: bool,
    prevTarget: int,
    window: seq<int>,
    nextDisabled: bool,
    nextTarget: int)

  /** The pagination bar of the rendered list, present only when there is more than one page. */
  function Pagination(currentPage: int, totalPages: nat): (bar: Option<Controls>)
    ensures bar.Some? <==> totalPages > 1
    ensures bar.Some? ==> bar.value.window == PageWindow(currentPage, totalPages)
    ensures bar.Some? ==> !(bar.value.prevDisabled && bar.value.nextDisabled)
  {
    if totalPages > 1 then
      Some(Controls(currentPage == 1, currentPage - 1, PageWindow(currentPage, totalPages),
                    currentPage == totalPages, currentPage + 1))
    else None
  }

  /** Prev is disabled exactly on page 1 and next exactly on the last page; enabled ones stay in range. */
  lemma ControlsStayInRange(currentPage: int, totalPages: nat)
    requires 1 <= currentPage <= totalPages
    ensures Pagination(currentPage, totalPages).Some? <==> totalPages > 1
    ensures var c := Pagination(currentPage, totalPages);
            c.Some? ==>
              && (c.value.prevDisabled <==> currentPage == 1)
              && (c.value.nextDisabled <==> currentPage == totalPages)
              && (!c.value.prevDisabled ==> 1 <= c.value.prevTarget <= totalPages)
              && (!c.value.nextDisabled ==> 1 <= c.value.nextTarget <= totalPages)
              && c.value.prevTarget == currentPage - 1
              && c.value.nextTarget == currentPage + 1
  {
  }

  /** `handlePageChange`: a click on a page control dispatches `setCurrentPage` with its target. */
  function HandlePageChange(page: int): (ds: seq<Dispatchable>)
    ensures ds == [Plain(SetCurrentPage(page))]
    ensures forall s :: DispatchAll(s, ds) == s.(currentPage := page)
  {
    var ds := [Plain(SetCurrentPage(page))];
    assert ds[1..] == [];
    ds
  }

  /** `handlePokemonClick`: a click on an entry starts the details fetch for its name. */
  function HandlePokemonClick(name: string): (ds: seq<Dispatchable>)
    ensures ds == [Async(FetchPokemonDetails(name))]
    ensures forall s :: DispatchAll(s, ds) == Reduce(s, DetailsPending)
  {
    var ds := [Async(FetchPokemonDetails(name))];
    assert ds[1..] == [];
    ds
  }

  /** Every enabled control moves to a page that exists and changes nothing else. */
  lemma ControlClicksStayOnRealPages(s: PokemonState, totalPages: nat)
    requires 1 <= s.currentPage <= totalPages
    requires Pagination(s.currentPage, totalPages).Some?
    ensures var c := Pagination(s.currentPage, totalPages).value;
            && (!c.prevDisabled ==> DispatchAll(s, HandlePageChange(c.prevTarget))
                                    == s.(currentPage := s.currentPage - 1))
            && (!c.nextDisabled ==> DispatchAll(s, HandlePageChange(c.nextTarget))
                                    == s.(currentPage := s.currentPage + 1))
            && (forall k :: k in c.window ==>
                  && 1 <= k <= totalPages
                  && DispatchAll(s, HandlePageChange(k)) == s.(currentPage := k))
  {
    WindowWithinPagesAndHoldsCurrent(s.currentPage, totalPages);
  }

  /** Clicking an entry turns the spinner on and clears the error; the selection is kept until the fetch settles. */
  lemma PokemonClickStartsDetails(s: PokemonState, name: string)
    ensures DispatchAll(s, HandlePokemonClick(name)) == s.(loading := true, error := None)
  {
  }

  /** `getPokemonId`: the second-to-last `/`-separated piece of the URL; absent when there is none. */
  function GetPokemonId(url: string): (id: Option<string>)
    ensures id.Some? ==> '/' !in id.value
  {
    var parts := Split(url, '/');
    if |parts| >= 2 then Some(parts[|parts| - 2]) else None
  }

  /** An identifier can be read exactly from URLs that contain a `/`. */
  lemma GetPokemonIdDefined(url: string)
    ensures GetPokemonId(url).Some? <==> '/' in url
  {
    SplitSeveralIffSeparator(url, '/');
  }

  /** For a resource URL `base/id/` the identifier is `id`. */
  lemma ResourceUrlId(base: string, id: string)
    requires '/' !in id
    ensures GetPokemonId(base + "/" + id + "/") == Some(id)
  {
    var url := base + "/" + id + "/";
    assert url == (base + ['/'] + id) + ['/'] + [];
    SplitLastPiece(base + ['/'] + id, [], '/');
    SplitLastPiece(base, id, '/');
    assert Split(url, '/') == Split(base, '/') + [id] + [[]];
  }

  /** The number shown under an entry: `#` and the identifier padded with zeros to three characters. */
  function DisplayNumber(url: string): (shown: Option<string>)
    ensures shown.Some? <==> GetPokemonId(url).Some?
  {
    match GetPokemonId(url)
    case Some(id) => Some("#" + PadStart(id, 3, '0'))
    case None => None
  }

  /** Identifiers shorter than three characters get leading zeros; longer ones are shown unchanged. */
  lemma DisplayNumberPads(base: string, id: string)
    requires '/' !in id
    ensures var shown := DisplayNumber(base + "/" + id + "/");
            && shown.Some?
            && shown.value[0] == '#'
            && |shown.value| == 1 + (if |id| < 3 then 3 else |id|)
            && shown.value[|shown.value| - |id|..] == id
            && (forall i :: 1 <= i < |shown.value| - |id| ==> shown.value[i] == '0')
  {
    ResourceUrlId(base, id);
    var padded := PadStart(id, 3, '0');
    assert DisplayNumber(base + "/" + id + "/") == Some("#" + padded);
    assert ("#" + padded)[1 + |padded| - |id|..] == padded[|padded| - |id|..];
  }

  /** Whatever the host and path before it, URLs ending in `/25/`, `/6/` and `/1/` are shown as `#025`, `#006` and `#001`. */
  lemma ShownWithThreeDigits(base: string)
    ensures DisplayNumber(base + "/" + "25" + "/") == Some("#025")
    ensures DisplayNumber(base + "/" + "6" + "/") == Some("#006")
    ensures DisplayNumber(base + "/" + "1" + "/") == Some("#001")
  {
    ResourceUrlId(base, "25");
    assert PadStart("25", 3, '0') == "025";
    assert DisplayNumber(base + "/" + "25" + "/") == Some("#" + "025");
    assert "#" + "025" == "#025";
    ResourceUrlId(base, "6");
    assert PadStart("6", 3, '0') == "006";
    assert DisplayNumber(base + "/" + "6" + "/") == Some("#" + "006");
    assert "#" + "006" == "#006";
    ResourceUrlId(base, "1");
    assert PadStart("1", 3, '0') == "001";
    assert DisplayNumber(base + "/" + "1" + "/") == Some("#" + "001");
    assert "#" + "001" == "#001";
  }

}
