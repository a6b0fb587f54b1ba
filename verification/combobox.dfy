/** The paginated `Combobox` of `src/components/ui/combobox.tsx` as a state
    machine over its React state. `loadOptions` is split in two events: the
    call, which marks the state loading and issues a request, and the
    completion of any issued request (in any order), which applies its page
    or, on failure, only clears the loading flag. The geometry of "near the
    bottom" is a boolean of the scroll event. */
module Combobox {
  import opened Wrappers
  import opened Text

  /** `label` is a Dafny keyword, hence `labelText`. */
  datatype ComboOption = ComboOption(value: string, labelText: string)

  /** What `fetchOptions` resolves to (`total` is never read). */
  datatype FetchResult = FetchResult(data: seq<ComboOption>, hasMore: bool)

  /** The component's props that the state machine reads. */
  datatype Config = Config(hasFetch: bool, pageSize: int)

  /** The `pageSize` prop's default. */
  const DefaultPageSize: int := 20

  /** An issued `fetchOptions` call. */
  datatype Request = Request(search: string, page: int, pageSize: int, reset: bool)

  datatype Combo = Combo(
    open: bool,
    search: string,
    options: seq<ComboOption>,
    isLoading: bool,
    page: int,
    hasMore: bool,
    inFlight: seq<Request>)

  /** Page 1 is always a reset load and every later page appends. */
  predicate RequestShape(q: Request) {
    q.page >= 1 && (q.reset <==> q.page == 1)
  }

  /** What every reachable state satisfies: pages count from 1, the
      component is loading only while some request is out, and requests
      are shaped as above. */
  predicate Inv(s: Combo) {
    s.page >= 1
    && (s.isLoading ==> s.inFlight != [])
    && forall i :: 0 <= i < |s.inFlight| ==> RequestShape(s.inFlight[i])
  }

  /** The state on mount. */
  function Init(): (r: Combo)
    ensures Inv(r) && r.inFlight == []
    ensures !r.open && r.search == "" && r.options == [] && !r.isLoading
    ensures r.page == 1 && r.hasMore
  {
    Combo(false, "", [], false, 1, true, [])
  }

  /** `loadOptions` up to its `await`: nothing without `fetchOptions`,
      otherwise loading with one more request out. */
  function Load(s: Combo, cfg: Config, search: string, pageNum: int, reset: bool): (r: Combo)
    ensures !cfg.hasFetch ==> r == s
    ensures cfg.hasFetch ==> r.isLoading && |r.inFlight| == |s.inFlight| + 1 && r.inFlight[..|s.inFlight|] == s.inFlight
    ensures cfg.hasFetch ==> var q := r.inFlight[|s.inFlight|];
      q.search == search && q.page == pageNum && q.pageSize == cfg.pageSize && q.reset == reset
    ensures r.options == s.options && r.hasMore == s.hasMore && r.page == s.page && r.open == s.open && r.search == s.search
    ensures Inv(s) && pageNum >= 1 && (reset <==> pageNum == 1) ==> Inv(r)
  {
    if !cfg.hasFetch then s
    else
      s.(isLoading := true, inFlight := s.inFlight + [Request(search, pageNum, cfg.pageSize, reset)])
  }

  /** The effect on `[open, searchValue]`: while open, page 1 is fetched
      again from scratch. */
  function Refresh(s: Combo, cfg: Config): (r: Combo)
    ensures s.open && cfg.hasFetch ==> r.page == 1 && |r.inFlight| == |s.inFlight| + 1
    ensures s.open && cfg.hasFetch ==> r.inFlight[|s.inFlight|].reset && r.inFlight[|s.inFlight|].search == s.search
    ensures !(s.open && cfg.hasFetch) ==> r == s
    ensures Inv(s) ==> Inv(r)
  {
    if s.open && cfg.hasFetch then Load(s.(page := 1), cfg, s.search, 1, true) else s
  }

  /** The popover's `onOpenChange`; the effect runs when the flag changes. */
  function SetOpen(s: Combo, cfg: Config, open: bool): (r: Combo)
    ensures r.open == open && r.options == s.options && r.search == s.search
    ensures |r.inFlight| == |s.inFlight| + (if open && !s.open && cfg.hasFetch then 1 else 0)
    ensures !open ==> r == s.(open := false)
    ensures Inv(s) ==> Inv(r)
  {
    var t := s.(open := open);
    if open != s.open then Refresh(t, cfg) else t
  }

  /** `handleSearch`, followed by the effect when the text changed. */
  function Search(s: Combo, cfg: Config, text: string): (r: Combo)
    ensures r.search == text && r.page == 1 && r.options == [] && r.open == s.open
    ensures |r.inFlight| == |s.inFlight| + (if text != s.search && s.open && cfg.hasFetch then 1 else 0)
    ensures Inv(s) ==> Inv(r)
  {
    var t := s.(search := text, page := 1, options := []);
    if text != s.search then Refresh(t, cfg) else t
  }

  /** Whether a scroll event asks for the next page. */
  predicate ScrollGate(s: Combo, cfg: Config, nearBottom: bool) {
    nearBottom && s.hasMore && !s.isLoading && cfg.hasFetch
  }

  /** `handleScroll`: the next page, appended, when the gate is open. */
  function Scroll(s: Combo, cfg: Config, nearBottom: bool): (r: Combo)
    ensures !ScrollGate(s, cfg, nearBottom) ==> r == s
    ensures ScrollGate(s, cfg, nearBottom) ==> r.page == s.page + 1 && |r.inFlight| == |s.inFlight| + 1
    ensures ScrollGate(s, cfg, nearBottom) ==> var q := r.inFlight[|s.inFlight|];
      !q.reset && q.page == s.page + 1 && q.search == s.search
    ensures Inv(s) ==> Inv(r)
  {
    if ScrollGate(s, cfg, nearBottom)
    then Load(s.(page := s.page + 1), cfg, s.search, s.page + 1, false)
    else s
  }

  /** The in-flight list without its `k`-th request. */
  function RemoveAt<T>(xs: seq<T>, k: nat): (r: seq<T>)
    requires k < |xs|
    ensures |r| == |xs| - 1
    ensures forall i :: 0 <= i < |r| ==> r[i] in xs
  {
    xs[..k] + xs[k + 1..]
  }

  /** The rest of `loadOptions`: request `k` completes with a page
      (`Some`) or throws (`None`); either way loading stops. */
  function Settle(s: Combo, k: nat, outcome: Option<FetchResult>): (r: Combo)
    requires k < |s.inFlight|
    ensures !r.isLoading && r.inFlight == RemoveAt(s.inFlight, k)
    ensures outcome.None? ==> r.options == s.options && r.hasMore == s.hasMore
    ensures outcome.Some? ==> r.hasMore == outcome.value.hasMore
    ensures outcome.Some? && s.inFlight[k].reset ==> r.options == outcome.value.data
    ensures outcome.Some? && !s.inFlight[k].reset ==> r.options == s.options + outcome.value.data
    ensures r.open == s.open && r.search == s.search && r.page == s.page
    ensures Inv(s) ==> Inv(r)
  {
    var q := s.inFlight[k];
    var rest := RemoveAt(s.inFlight, k);
    match outcome
    case None => s.(isLoading := false, inFlight := rest)
    case Some(res) =>
      s.(options := if q.reset then res.data else s.options + res.data,
         hasMore := res.hasMore,
         isLoading := false,
         inFlight := rest)
  }

  /** `onSelect`: the emitted value, and the popover closes. */
  function Select(s: Combo, cfg: Config, value: Option<string>, current: string): (r: (Combo, string))
    ensures r.1 == (if value == Some(current) then "" else current)
    ensures r.0 == s.(open := false)
    ensures Inv(s) ==> Inv(r.0)
  {
    (SetOpen(s, cfg, false), if value == Some(current) then "" else current)
  }

  predicate HasValue(value: Option<string>, o: ComboOption) {
    value == Some(o.value)
  }

  /** The trigger button's text: the label of the first loaded option
      carrying the selected value, else the placeholder. */
  function ButtonText(s: Combo, value: Option<string>, placeholder: string): (r: string)
    ensures (forall i :: 0 <= i < |s.options| ==> !HasValue(value, s.options[i])) ==> r == placeholder
    ensures forall i :: (0 <= i < |s.options| && HasValue(value, s.options[i])
                         && forall j :: 0 <= j < i ==> !HasValue(value, s.options[j])) ==> r == s.options[i].labelText
  {
    match FirstIndex(s.options, o => HasValue(value, o))
    case None => placeholder
    case Some(i) => s.options[i].labelText
  }

  /** Without `fetchOptions` no event ever issues a request. */
  lemma WithoutFetchNothingLoads(s: Combo, pageSize: int, text: string, open: bool, nearBottom: bool)
    ensures SetOpen(s, Config(false, pageSize), open).inFlight == s.inFlight
    ensures Search(s, Config(false, pageSize), text).inFlight == s.inFlight
    ensures Scroll(s, Config(false, pageSize), nearBottom) == s
  {
  }

  /** A scroll issues a request exactly when its gate is open. */
  lemma ScrollLoadsIffGate(s: Combo, cfg: Config, nearBottom: bool)
    ensures Scroll(s, cfg, nearBottom) != s <==> ScrollGate(s, cfg, nearBottom)
  {
    if ScrollGate(s, cfg, nearBottom) {
      assert |Scroll(s, cfg, nearBottom).inFlight| != |s.inFlight|;
    }
  }

  /** Opening a fresh combobox and receiving the first page shows exactly
      that page. */
  lemma OpenThenFirstPage(cfg: Config, res: FetchResult)
    requires cfg.hasFetch
    ensures var s := SetOpen(Init(), cfg, true);
      |s.inFlight| == 1 && s.isLoading
      && Settle(s, 0, Some(res)).options == res.data
      && Settle(s, 0, Some(res)).hasMore == res.hasMore
      && !Settle(s, 0, Some(res)).isLoading
  {
  }

  /** Without a `pageSize` prop, opening asks for the first page of 20. */
  lemma DefaultPageSizeRequested(hasFetch: bool)
    requires hasFetch
    ensures var s := SetOpen(Init(), Config(hasFetch, DefaultPageSize), true);
      |s.inFlight| == 1 && s.inFlight[0] == Request("", 1, 20, true)
  {
  }

  /** While the first page is loading, scrolling does nothing. */
  lemma NoScrollWhileLoading(cfg: Config, nearBottom: bool)
    requires cfg.hasFetch
    ensures var s := SetOpen(Init(), cfg, true);
      Scroll(s, cfg, nearBottom) == s
  {
  }

  /** A later page lands after the pages already shown, in order. */
  lemma NextPageAppends(s: Combo, cfg: Config, res: FetchResult)
    requires ScrollGate(s, cfg, true)
    ensures var t := Scroll(s, cfg, true);
      Settle(t, |s.inFlight|, Some(res)).options == s.options + res.data
  {
  }

  /** Nothing discards a superseded request: a page requested for an older
      search text overwrites the page of the newer one when it arrives
      last, and the list then shows results for a text that is no longer in
      the search box. */
  lemma StalePageOverwrites(cfg: Config, stale: FetchResult, current: FetchResult, text: string)
    requires cfg.hasFetch && text != ""
    ensures var s1 := SetOpen(Init(), cfg, true);
      var s2 := Search(s1, cfg, text);
      var s3 := Settle(s2, 1, Some(current));
      var s4 := Settle(s3, 0, Some(stale));
      s2.inFlight[0].search == "" && s4.search == text && s4.options == stale.data
  {
    var s1 := SetOpen(Init(), cfg, true);
    var s2 := Search(s1, cfg, text);
    assert s2.inFlight[0].reset;
    var s3 := Settle(s2, 1, Some(current));
    assert s3.inFlight == [s2.inFlight[0]];
  }
}
