/** The `App()` dispatcher: which screen the state selects, the click callback
    the list screen is given, and the traces of state changes the user
    interface and the background load can drive. */
module App {
  import opened Wrappers
  import opened Quotes
  import opened DataManager

  /** What `App()` composes: nothing, the list screen over some quotes, or the
      detail screen of one quote. */
  datatype View = Blank | ListScreen(items: seq<Quote>) | DetailScreen(quote: Quote)

  /** Screen selection: nothing until the quotes are loaded; then the list of
      exactly the loaded quotes on the list page, and on the other page the
      detail of the selected quote, or nothing when no quote is selected. */
  function Screen(s: State): (v: View)
    ensures !s.isDataLoaded ==> v == Blank
    ensures s.isDataLoaded && s.curPage == Listing ==> v == ListScreen(s.data)
    ensures s.isDataLoaded && s.curPage == Detail && s.curQuote.Some? ==> v == DetailScreen(s.curQuote.value)
    ensures s.isDataLoaded && s.curPage == Detail && s.curQuote.None? ==> v == Blank
  {
    if s.isDataLoaded then
      if s.curPage == Listing then
        ListScreen(s.data)
      else
        match s.curQuote
        case Some(q) => DetailScreen(q)
        case None => Blank
    else
      Blank
  }

  /** The callback the list screen hands to every item: it forwards the
      clicked quote, which is never null, to `switchPages`. It exists only
      while the list screen is shown, so it always takes the list-to-detail
      branch. */
  function OnListClick(s: State, q: Quote): (r: State)
    requires Screen(s).ListScreen?
    ensures r.curPage == Detail && r.curQuote == Some(q)
    ensures r.data == s.data && r.isDataLoaded
    ensures Screen(r) == DetailScreen(q)
  {
    SwitchPages(s, Some(q))
  }

  /** The state changes that reach the singleton while the app runs: a tap on
      a list item, a `switchPages` call made while the detail page is up (its
      argument is ignored there), and the background asset load. */
  datatype Event = Click(quote: Quote) | Leave(arg: Option<Quote>) | Load

  /** Whether an event can happen in a state: an item can be tapped only if
      it is on the list screen being shown; the detail page can only be left
      while it is the current page; the load can complete at any time. */
  predicate Enabled(s: State, e: Event)
  {
    match e
    case Click(q) => Screen(s).ListScreen? && q in Screen(s).items
    case Leave(_) => s.curPage == Detail
    case Load => true
  }

  /** One event; None when the event cannot happen in `s`. The asset is the
      same bundled file on every load, so its parse outcome is fixed per run. */
  function Step(s: State, asset: Result<seq<Quote>, LoadError>, e: Event): (r: Option<State>)
    ensures r.Some? <==> Enabled(s, e)
    ensures r.Some? && e.Click? ==> Screen(r.value) == DetailScreen(e.quote)
    ensures r.Some? && e.Leave? ==> r.value.curPage == Listing && r.value.curQuote == s.curQuote
    ensures r.Some? && !e.Load? ==> r.value.data == s.data && r.value.isDataLoaded == s.isDataLoaded
    ensures r.Some? && e.Load? ==> r.value.curPage == s.curPage && r.value.curQuote == s.curQuote
    ensures r.Some? && e.Load? && asset.Failure? ==> r.value == s
    ensures r.Some? && e.Load? && asset.Success? ==> r.value.data == asset.value && r.value.isDataLoaded
  {
    if !Enabled(s, e) then None
    else
      match e
      case Click(q) => Some(OnListClick(s, q))
      case Leave(q) => Some(SwitchPages(s, q))
      case Load => Some(LoadAssetsFromFile(s, asset))
  }

  /** A sequence of events from `s`; None as soon as one cannot happen. */
  function Run(s: State, asset: Result<seq<Quote>, LoadError>, events: seq<Event>): Option<State>
    decreases |events|
  {
    if events == [] then Some(s)
    else
      match Step(s, asset, events[0])
      case None => None
      case Some(s') => Run(s', asset, events[1..])
  }

  /** What holds of every state the app can reach: the quotes are either
      still empty and unloaded or exactly the asset's, and the detail page is
      only ever up once loaded, with a selected quote taken from the list. */
  ghost predicate Consistent(asset: Result<seq<Quote>, LoadError>, s: State)
  {
    && (!s.isDataLoaded ==> s.data == [])
    && (s.isDataLoaded ==> asset.Success? && s.data == asset.value)
    && (s.curPage == Detail ==> s.isDataLoaded && s.curQuote.Some? && s.curQuote.value in s.data)
  }

  /** The initial state shows nothing, is on the list page, and is consistent
      with any asset. */
  lemma InitialConsistent(asset: Result<seq<Quote>, LoadError>)
    ensures Consistent(asset, Initial())
    ensures Screen(Initial()) == Blank && Initial().curPage == Listing
  {
  }

  /** Every event keeps the state consistent. */
  lemma StepPreservesConsistent(asset: Result<seq<Quote>, LoadError>, s: State, e: Event)
    requires Consistent(asset, s) && Enabled(s, e)
    ensures Consistent(asset, Step(s, asset, e).value)
  {
  }

  /** Every run of events keeps the state consistent. */
  lemma {:induction false} RunPreservesConsistent(asset: Result<seq<Quote>, LoadError>, s: State, events: seq<Event>)
    requires Consistent(asset, s) && Run(s, asset, events).Some?
    ensures Consistent(asset, Run(s, asset, events).value)
    decreases |events|
  {
    if events != [] {
      var s' := Step(s, asset, events[0]).value;
      StepPreservesConsistent(asset, s, events[0]);
      RunPreservesConsistent(asset, s', events[1..]);
    }
  }

  /** In every state reachable from the start, the detail page carries a
      selected quote from the loaded list, and the screen is blank exactly
      while the quotes are not loaded. */
  lemma ReachableDetailHasQuote(asset: Result<seq<Quote>, LoadError>, events: seq<Event>)
    requires Run(Initial(), asset, events).Some?
    ensures var t := Run(Initial(), asset, events).value;
      && (t.curPage == Detail ==> t.curQuote.Some? && t.curQuote.value in t.data)
      && (Screen(t) == Blank <==> !t.isDataLoaded)
  {
    InitialConsistent(asset);
    RunPreservesConsistent(asset, Initial(), events);
  }

  /** When the asset cannot be loaded, every state the model reaches stays
      unloaded, on the list page, and shows nothing. */
  lemma FailedLoadStaysBlank(asset: Result<seq<Quote>, LoadError>, events: seq<Event>)
    requires asset.Failure? && Run(Initial(), asset, events).Some?
    ensures Screen(Run(Initial(), asset, events).value) == Blank
    ensures Run(Initial(), asset, events).value.curPage == Listing
  {
    InitialConsistent(asset);
    RunPreservesConsistent(asset, Initial(), events);
  }

  /** Every detail screen the app can reach shows a quote from the asset. */
  lemma ReachableDetailFromAsset(asset: Result<seq<Quote>, LoadError>, events: seq<Event>)
    requires Run(Initial(), asset, events).Some?
    requires Screen(Run(Initial(), asset, events).value).DetailScreen?
    ensures asset.Success? && Screen(Run(Initial(), asset, events).value).quote in asset.value
  {
    InitialConsistent(asset);
    RunPreservesConsistent(asset, Initial(), events);
  }

  /** Conversely, every quote of a successfully loaded asset can be shown in
      detail: load, then tap it. */
  lemma EveryQuoteReachable(d: seq<Quote>, i: nat)
    requires i < |d|
    ensures Run(Initial(), Success(d), [Load, Click(d[i])]).Some?
    ensures Screen(Run(Initial(), Success(d), [Load, Click(d[i])]).value) == DetailScreen(d[i])
  {
    var asset: Result<seq<Quote>, LoadError> := Success(d);
    var s1 := LoadAssetsFromFile(Initial(), asset);
    assert Step(Initial(), asset, Load) == Some(s1);
    assert Screen(s1) == ListScreen(d);
    var s2 := OnListClick(s1, d[i]);
    assert Step(s1, asset, Click(d[i])) == Some(s2);
    assert [Load, Click(d[i])][1..] == [Click(d[i])];
    assert Run(Initial(), asset, [Load, Click(d[i])]) == Run(s1, asset, [Click(d[i])]);
    assert Run(s1, asset, [Click(d[i])]) == Run(s2, asset, []) == Some(s2);
  }

  /** Tapping a quote, leaving the detail page, and tapping it again shows
      the same quote in detail: re-entry is idempotent. */
  lemma ReenterDetail(s: State, asset: Result<seq<Quote>, LoadError>, q: Quote, back: Option<Quote>)
    requires Screen(s).ListScreen? && q in Screen(s).items
    ensures Run(s, asset, [Click(q), Leave(back), Click(q)]) == Run(s, asset, [Click(q)])
    ensures Run(s, asset, [Click(q)]).Some? && Screen(Run(s, asset, [Click(q)]).value) == DetailScreen(q)
  {
    var s1 := OnListClick(s, q);
    var s2 := SwitchPages(s1, back);
    assert Step(s, asset, Click(q)) == Some(s1);
    assert Step(s1, asset, Leave(back)) == Some(s2);
    assert Screen(s2) == Screen(s);
    assert Step(s2, asset, Click(q)) == Some(s1);
    assert [Click(q), Leave(back), Click(q)][1..] == [Leave(back), Click(q)];
    assert [Leave(back), Click(q)][1..] == [Click(q)];
    assert Run(s, asset, [Click(q)]) == Run(s1, asset, []) == Some(s1);
    assert Run(s, asset, [Click(q), Leave(back), Click(q)]) == Run(s1, asset, [Leave(back), Click(q)]);
    assert Run(s1, asset, [Leave(back), Click(q)]) == Run(s2, asset, [Click(q)]);
    assert Run(s2, asset, [Click(q)]) == Run(s1, asset, []);
  }

  /** Without the user interface's discipline the invariant fails: a direct
      `switchPages(null)` on the list page leaves the detail page up with
      nothing selected, and the app shows nothing although loaded. */
  lemma NullSwitchBlanksLoadedApp(s: State)
    requires s.isDataLoaded && s.curPage == Listing
    ensures SwitchPages(s, None).curPage == Detail
    ensures Screen(SwitchPages(s, None)) == Blank
  {
  }

  /** A load never lets the screen show anything but the new quotes: in the
      state between the assignment and the flag nothing is shown, and after
      the flag the list page lists exactly the loaded quotes. */
  lemma LoadPublishesDataBeforeFlag(s: State, d: seq<Quote>)
    requires !s.isDataLoaded
    ensures Screen(AssignData(s, d)) == Blank
    ensures s.curPage == Listing ==> Screen(LoadAssetsFromFile(s, Success(d))) == ListScreen(d)
  {
  }

  /** Two loaded quotes; tapping the second one shows its detail. */
  lemma TwoQuoteExample()
    ensures var d := [Quote("A", "X"), Quote("B", "Y")];
      && Run(Initial(), Success(d), [Load, Click(d[1])]).Some?
      && Screen(Run(Initial(), Success(d), [Load, Click(d[1])]).value) == DetailScreen(Quote("B", "Y"))
  {
    EveryQuoteReachable([Quote("A", "X"), Quote("B", "Y")], 1);
  }
}
