/** The singleton that holds the app's loaded quotes and its navigation state,
    as an immutable record with one pure function per operation. */
module DataManager {
  import opened Wrappers
  import opened Quotes

  /** The `Pages` enum: the list of quotes, or one quote in detail. */
  datatype Page = Listing | Detail

  /** The other page. Because `Page` has exactly two values, this is the page
      a toggle lands on. */
  function Opposite(p: Page): (r: Page)
    ensures r != p
  {
    match p
    case Listing => Detail
    case Detail => Listing
  }

  /** `Page` has exactly two values, so a test against `Listing` and an
      else-branch cover every case, and `Opposite` is an involution. */
  lemma PagesTwoValued(p: Page, q: Page)
    ensures q == p || q == Opposite(p)
    ensures Opposite(Opposite(p)) == p
  {
    match p
    case Listing =>
    case Detail =>
  }

  /** The four fields of the singleton: the loaded quotes, the selected quote
      (nullable), the loaded flag, and the page being shown. */
  datatype State = State(data: seq<Quote>, curQuote: Option<Quote>, isDataLoaded: bool, curPage: Page)

  /** Why the asset load can throw before it assigns anything: the asset
      cannot be opened or read, the JSON is malformed, or the parser yields
      null, which the assignment to a non-null array field rejects. */
  datatype LoadError = AssetUnreadable | MalformedJson | NullArray

  /** The field initialisers: no quotes, no selection, not loaded, on the list page. */
  function Initial(): State
  {
    State([], None, false, Listing)
  }

  /** `switchPages`: a toggle. From the list page it moves to the detail page
      and records its argument as the selected quote, whatever that argument
      is (null included); from the detail page it returns to the list and
      ignores its argument. */
  function SwitchPages(s: State, quote: Option<Quote>): (r: State)
    ensures r.curPage == Opposite(s.curPage)
    ensures s.curPage == Listing ==> r.curQuote == quote
    ensures s.curPage == Detail ==> r.curQuote == s.curQuote
    ensures r.data == s.data && r.isDataLoaded == s.isDataLoaded
  {
    if s.curPage == Listing then
      s.(curPage := Detail, curQuote := quote)
    else
      s.(curPage := Listing)
  }

  /** Calling `switchPages` once per element of `quotes`, in order. */
  function SwitchAll(s: State, quotes: seq<Option<Quote>>): State
    decreases |quotes|
  {
    if quotes == [] then s else SwitchAll(SwitchPages(s, quotes[0]), quotes[1..])
  }

  /** First half of a successful load: the parsed array is assigned to `data`. */
  function AssignData(s: State, d: seq<Quote>): (r: State)
    ensures r.data == d
    ensures r.isDataLoaded == s.isDataLoaded && r.curPage == s.curPage && r.curQuote == s.curQuote
  {
    s.(data := d)
  }

  /** Second half of a successful load: the loaded flag is raised. */
  function RaiseLoaded(s: State): (r: State)
    ensures r.isDataLoaded
    ensures r.data == s.data && r.curPage == s.curPage && r.curQuote == s.curQuote
  {
    s.(isDataLoaded := true)
  }

  /** The state effect of `loadAssetsFromFile`. The file read and the JSON
      parse are abstracted into `parsed`; if they throw, nothing was assigned.
      Otherwise `data` is assigned first and the flag raised second. The page
      and the selection are never touched. */
  function LoadAssetsFromFile(s: State, parsed: Result<seq<Quote>, LoadError>): (r: State)
    ensures parsed.Failure? ==> r == s
    ensures parsed.Success? ==> r.data == parsed.value && r.isDataLoaded
    ensures r.curPage == s.curPage && r.curQuote == s.curQuote
  {
    match parsed
    case Failure(_) => s
    case Success(d) => RaiseLoaded(AssignData(s, d))
  }

  /** Two toggles from the list page come back to the list page with the
      first argument still selected; the second argument is ignored. */
  lemma SwitchTwiceFromListing(s: State, q1: Option<Quote>, q2: Option<Quote>)
    requires s.curPage == Listing
    ensures SwitchPages(SwitchPages(s, q1), q2) == s.(curQuote := q1)
  {
  }

  /** A run of toggles lands on the starting page exactly when it has even
      length, and never changes the quotes or the loaded flag. */
  lemma {:induction false} SwitchAllParity(s: State, quotes: seq<Option<Quote>>)
    ensures SwitchAll(s, quotes).curPage == (if |quotes| % 2 == 0 then s.curPage else Opposite(s.curPage))
    ensures SwitchAll(s, quotes).data == s.data
    ensures SwitchAll(s, quotes).isDataLoaded == s.isDataLoaded
    decreases |quotes|
  {
    if quotes != [] {
      var s' := SwitchPages(s, quotes[0]);
      SwitchAllParity(s', quotes[1..]);
      PagesTwoValued(s.curPage, s.curPage);
    }
  }

  /** The index of the last toggle, in a run of `n` toggles started on the
      list page, that took the list-to-detail branch: the last even index. */
  function LastEntry(n: nat): (i: nat)
    requires n > 0
    ensures i < n && i % 2 == 0 && n - 1 <= i + 1
  {
    (n - 1) - (n - 1) % 2
  }

  /** A run of toggles started on the list page leaves selected the argument
      of its last list-to-detail toggle; every other argument is ignored. */
  lemma {:induction false} SwitchAllSelection(s: State, quotes: seq<Option<Quote>>)
    requires s.curPage == Listing && |quotes| > 0
    ensures SwitchAll(s, quotes).curQuote == quotes[LastEntry(|quotes|)]
    decreases |quotes|
  {
    var s1 := SwitchPages(s, quotes[0]);
    if |quotes| == 1 {
      assert SwitchAll(s1, quotes[1..]) == s1;
    } else if |quotes| == 2 {
      var s2 := SwitchPages(s1, quotes[1]);
      assert SwitchAll(s1, quotes[1..]) == SwitchAll(s2, quotes[2..]);
      assert SwitchAll(s2, quotes[2..]) == s2;
    } else {
      var s2 := SwitchPages(s1, quotes[1]);
      var rest := quotes[2..];
      assert quotes[1..][1..] == rest;
      assert SwitchAll(s, quotes) == SwitchAll(s2, rest);
      SwitchAllSelection(s2, rest);
      assert LastEntry(|quotes|) == LastEntry(|rest|) + 2;
    }
  }

  /** A later load replaces the earlier one outright: the last call wins and
      nothing is merged. */
  lemma LoadLastWins(s: State, d1: seq<Quote>, parsed: Result<seq<Quote>, LoadError>)
    requires parsed.Success?
    ensures LoadAssetsFromFile(LoadAssetsFromFile(s, Success(d1)), parsed) == LoadAssetsFromFile(s, parsed)
  {
  }

  /** Loading and toggling touch disjoint fields, so their order does not
      matter. */
  lemma SwitchCommutesWithLoad(s: State, quote: Option<Quote>, parsed: Result<seq<Quote>, LoadError>)
    ensures SwitchPages(LoadAssetsFromFile(s, parsed), quote) == LoadAssetsFromFile(SwitchPages(s, quote), parsed)
  {
  }
}
