/** The place feed of the main screen: loading places for the selected
    category, the city-restricted search, the category spinner and the
    first-load silence of error toasts. */
module Feed {
  import opened Text
  import opened Net
  import opened Model

  const City := "Surat"

  /** Search terms that mark a query as being about the supported city. */
  const CityKeywords: seq<string> := ["surat", "dumas", "nanpura", "adajan", "vesu"]

  /** The query parameters of a GET /places request (null = parameter omitted). */
  datatype PlacesQuery = PlacesQuery(category: Option<string>, search: Option<string>, city: Option<string>)

  /** What Gson makes of a body: a PlaceResponse, or a JsonSyntaxException. */
  datatype Parsed = Json(response: PlaceResponse) | SyntaxError

  /** The 2xx body of GET /places, read with `.string()`, and its parse. */
  datatype RawPlaces = RawPlaces(text: string, parsed: Parsed)

  /** How one GET /places outcome is classified by the branches shared by
      `loadPlaces` and `searchPlaces`. */
  datatype FeedReply =
    | Listed(places: seq<Place>)         // JSON object with success == true
    | Refused(message: Option<string>)   // JSON object with success == false
    | NotJson                            // trimmed body does not start with "{"
    | Unparseable                        // JsonSyntaxException
    | NoBody                             // 2xx with a null body
    | Failed(code: nat, errorBody: RawText)  // non-2xx status
    | Thrown(message: Option<string>)    // any other exception

  /** A 2xx JSON-object body that parses with `success == true`. */
  predicate ListSucceeded(o: Outcome<RawPlaces>) {
    && o.Ok2xx? && o.body.Some?
    && StartsWith(Trim(o.body.value.text), "{")
    && o.body.value.parsed.Json?
    && o.body.value.parsed.response.success
  }

  function Classify(o: Outcome<RawPlaces>): (r: FeedReply)
    ensures r.Listed? <==> ListSucceeded(o)
    ensures r.Listed? ==> r.places == o.body.value.parsed.response.data.GetOr([])
  {
    match o
    case Transport(m) => Thrown(m)
    case Http(code, errorBody) => Failed(code, errorBody)
    case Ok2xx(_, None) => NoBody
    case Ok2xx(_, Some(raw)) =>
      if !StartsWith(Trim(raw.text), "{") then NotJson
      else match raw.parsed
        case SyntaxError => Unparseable
        case Json(resp) => if resp.success then Listed(resp.data.GetOr([])) else Refused(resp.message)
  }

  /** `places.filter { it.isApproved }`. */
  function Approved(places: seq<Place>): (r: seq<Place>)
    ensures |r| <= |places|
    ensures forall i :: 0 <= i < |r| ==> r[i].isApproved
    ensures forall p :: p in r <==> p in places && p.isApproved
  {
    if places == [] then []
    else (if places[0].isApproved then [places[0]] else []) + Approved(places[1..])
  }

  /** The filter keeps every copy of an approved place and no copy of
      another one. */
  lemma {:induction false} ApprovedCounts(places: seq<Place>)
    ensures forall p :: multiset(Approved(places))[p] == if p.isApproved then multiset(places)[p] else 0
  {
    if places != [] {
      assert places == [places[0]] + places[1..];
      ApprovedCounts(places[1..]);
    }
  }

  /** `a` is `b` with some elements left out and the rest in their order. */
  predicate IsSubsequence<T(==)>(a: seq<T>, b: seq<T>)
    decreases |b|
  {
    if a == [] then true
    else if b == [] then false
    else if a[0] == b[0] then IsSubsequence(a[1..], b[1..])
    else IsSubsequence(a, b[1..])
  }

  /** The approval filter keeps the server's order. */
  lemma {:induction false} ApprovedKeepsOrder(places: seq<Place>)
    ensures IsSubsequence(Approved(places), places)
  {
    if places != [] {
      ApprovedKeepsOrder(places[1..]);
      if places[0].isApproved {
        assert Approved(places)[1..] == Approved(places[1..]);
      } else {
        assert Approved(places) == Approved(places[1..]);
      }
    }
  }

  /** Filtering an already filtered list changes nothing. */
  lemma {:induction false} ApprovedIdempotent(places: seq<Place>)
    ensures Approved(Approved(places)) == Approved(places)
  {
    if places != [] {
      ApprovedIdempotent(places[1..]);
      if places[0].isApproved {
        assert Approved(places) == [places[0]] + Approved(places[1..]);
        assert Approved(places)[1..] == Approved(places[1..]);
      } else {
        assert Approved(places) == Approved(places[1..]);
      }
    }
  }

  /** The list `loadPlaces` submits to the adapter for a completed request:
      every failing path submits an empty list. */
  function LoadDisplay(r: FeedReply): (shown: seq<Place>)
    ensures r.Listed? ==> shown == Approved(r.places)
    ensures !r.Listed? ==> shown == []
  {
    if r.Listed? then Approved(r.places) else []
  }

  /** The toast `loadPlaces` shows: none on the first load, and never for a
      non-JSON, unparseable or null body. */
  function LoadToast(r: FeedReply, firstLoad: bool): (t: Option<Toast>)
    ensures t != None <==> !firstLoad && (r.Refused? || r.Failed? || r.Thrown?)
  {
    if firstLoad then None
    else match r
      case Refused(m) => Some(Say(m.GetOr("Failed to load places")))
      case Failed(code, errorBody) =>
        if errorBody.Unreadable? then Some(Say("Failed to load places"))
        else Some(Say("Failed to load places: " + Decimal(code)))
      case Thrown(m) => Some(ErrorToast(m))
      case _ => None
  }

  /** A successful load shows exactly the approved places of `data`, in the
      server's order; every other outcome shows nothing. */
  lemma LoadShowsApprovedData(o: Outcome<RawPlaces>)
    ensures ListSucceeded(o) ==>
      var data := o.body.value.parsed.response.data.GetOr([]);
      LoadDisplay(Classify(o)) == Approved(data) && IsSubsequence(LoadDisplay(Classify(o)), data)
    ensures !ListSucceeded(o) ==> LoadDisplay(Classify(o)) == []
    ensures forall p :: p in LoadDisplay(Classify(o)) ==> p.isApproved
  {
    if ListSucceeded(o) {
      ApprovedKeepsOrder(o.body.value.parsed.response.data.GetOr([]));
    }
  }

  /** What `searchPlaces` does with a completed request: the list it submits
      (None: the adapter is left alone) and the toast it shows. */
  datatype SearchStep = SearchStep(display: Option<seq<Place>>, toast: Option<Toast>)

  function SearchResult(r: FeedReply): (s: SearchStep)
    ensures s.display == None <==> r.NoBody?
    ensures s.toast == None <==> r.NoBody? || r.Listed?
    ensures s.display != None && !r.Listed? ==> s.display.value == []
    ensures r.Listed? ==> s.display == Some(Approved(r.places))
    ensures s.display != None ==> forall p :: p in s.display.value ==> p.isApproved
  {
    match r
    case Listed(ps) => SearchStep(Some(Approved(ps)), None)
    case Refused(m) => SearchStep(Some([]), Some(Say(m.GetOr("No places found"))))
    case NotJson => SearchStep(Some([]), Some(Say("Invalid response format")))
    case Unparseable => SearchStep(Some([]), Some(Say("Failed to parse response")))
    case NoBody => SearchStep(None, None)
    case Failed(code, errorBody) =>
      var detail := if errorBody.Present? then errorBody.text else Decimal(code);
      SearchStep(Some([]), Some(Say("Search failed: " + detail)))
    case Thrown(m) => SearchStep(Some([]), Some(ErrorToast(m)))
  }

  /** `suratRelated.any { lowerQuery.contains(it) }`. */
  predicate MentionsCity(query: string) {
    exists k | k in CityKeywords :: Contains(Lower(query), k)
  }

  /** The search gate: a query is refused, without any request, when it names
      none of the city keywords and is longer than three characters. */
  predicate SearchRefused(query: string) {
    !MentionsCity(query) && |query| > 3
  }

  /** Queries of at most three characters always go to the server. */
  lemma ShortQueriesProceed(query: string)
    requires |query| <= 3
    ensures !SearchRefused(query)
  {
  }

  /** The gate ignores letter case: upper-casing a keyword does not refuse it. */
  lemma {:induction false} SearchGateIgnoresCase(query: string)
    ensures SearchRefused(Lower(query)) == SearchRefused(query)
  {
    LowerIdempotent(query);
  }

  /** A query that contains a keyword in any letter case goes through. */
  lemma {:induction false} KeywordQueriesProceed(query: string, k: string, i: nat)
    requires k in CityKeywords && OccursAt(Lower(query), k, i)
    ensures !SearchRefused(query)
  {
    assert Contains(Lower(query), k);
  }

  /** "Surat Castle" is searched, "Kochi" is refused, "goa" is searched. */
  lemma GateExamples()
    ensures !SearchRefused("Surat Castle")
    ensures SearchRefused("Kochi")
    ensures !SearchRefused("goa")
  {
    assert OccursAt(Lower("Surat Castle"), "surat", 0) by {
      assert Lower("Surat Castle")[..5] == "surat";
    }
    KeywordQueriesProceed("Surat Castle", "surat", 0);
    var m := Lower("Kochi");
    assert m == "kochi";
    forall k, i | k in CityKeywords && 0 <= i <= |m| - |k| ensures !OccursAt(m, k, i) {
      assert m[i..i + |k|][0] == m[i] != k[0];
    }
  }

  /** The main screen's state: the spinner's category list, the selected
      category, the list last submitted to the adapter, the no-places label,
      the refresh indicator and the first-load flag. */
  class MainScreen {
    var categories: seq<Category>
    var spinnerNames: seq<string>
    var selectedCategoryId: Option<string>
    var shown: seq<Place>
    var noPlacesVisible: bool
    var refreshing: bool
    var isFirstLoad: bool

    /** The spinner shows nothing yet, or exactly the current categories. */
    predicate SpinnerMatches()
      reads this
    {
      spinnerNames == [] || spinnerNames == SpinnerNames("All Categories", categories)
    }

    /** The no-places label is shown exactly when the list is empty. */
    predicate LabelMatches()
      reads this
    {
      noPlacesVisible <==> shown == []
    }

    constructor ()
      ensures categories == [] && spinnerNames == [] && selectedCategoryId == None
      ensures shown == [] && !refreshing && isFirstLoad
      ensures SpinnerMatches()
    {
      categories, spinnerNames, selectedCategoryId := [], [], None;
      shown, noPlacesVisible, refreshing, isFirstLoad := [], false, false, true;
    }

    /** `loadCategories`: the category list and the spinner are replaced only
        by a successful response; failures are silent. */
    method CompleteLoadCategories(o: Outcome<Envelope<seq<Category>>>)
      modifies this
      ensures Succeeded(o) ==> categories == Payload(o).GetOr([])
                               && spinnerNames == SpinnerNames("All Categories", categories)
      ensures !Succeeded(o) ==> categories == old(categories) && spinnerNames == old(spinnerNames)
      ensures SpinnerMatches() <== old(SpinnerMatches())
      ensures selectedCategoryId == old(selectedCategoryId) && shown == old(shown)
      ensures noPlacesVisible == old(noPlacesVisible) && refreshing == old(refreshing)
      ensures isFirstLoad == old(isFirstLoad)
    {
      if Succeeded(o) {
        categories := [];
        categories := categories + Payload(o).GetOr([]);
        spinnerNames := SpinnerNames("All Categories", categories);
      }
    }

    /** `loadPlaces` up to the request: the query it sends. */
    method StartLoadPlaces() returns (q: PlacesQuery)
      modifies this`refreshing
      ensures q == PlacesQuery(selectedCategoryId, None, Some(City))
      ensures refreshing
    {
      refreshing := true;
      q := PlacesQuery(selectedCategoryId, None, Some(City));
    }

    /** The spinner listener: records the chosen category and reloads. */
    method SelectCategory(position: nat) returns (q: PlacesQuery)
      requires SpinnerMatches() && position < |spinnerNames|
      modifies this`selectedCategoryId, this`refreshing
      ensures position <= |categories|
      ensures selectedCategoryId == CategoryIdAt(categories, position)
      ensures q == PlacesQuery(selectedCategoryId, None, Some(City)) && refreshing
    {
      selectedCategoryId := CategoryIdAt(categories, position);
      q := StartLoadPlaces();
    }

    /** The search box listener: clearing the text reloads the feed. */
    method QueryTextChanged(newText: string) returns (q: Option<PlacesQuery>)
      modifies this`refreshing
      ensures newText == [] ==> q == Some(PlacesQuery(selectedCategoryId, None, Some(City))) && refreshing
      ensures newText != [] ==> q == None && refreshing == old(refreshing)
    {
      q := None;
      if newText == [] {
        var query := StartLoadPlaces();
        q := Some(query);
      }
    }

    /** The completion of `loadPlaces`. */
    method CompleteLoadPlaces(o: Outcome<RawPlaces>) returns (toast: Option<Toast>)
      modifies this`shown, this`noPlacesVisible, this`refreshing, this`isFirstLoad
      ensures shown == LoadDisplay(Classify(o)) && LabelMatches()
      ensures toast == LoadToast(Classify(o), old(isFirstLoad))
      ensures !refreshing && !isFirstLoad
    {
      var reply := Classify(o);
      toast := LoadToast(reply, isFirstLoad);
      shown := LoadDisplay(reply);
      noPlacesVisible := shown == [];
      refreshing := false;
      isFirstLoad := false;
    }

    /** `searchPlaces` up to the request: either the query it sends, or the
        "Coming Soon" dialog and nothing else. */
    method StartSearch(query: string) returns (q: Option<PlacesQuery>, comingSoon: bool)
      modifies this`refreshing
      ensures comingSoon <==> SearchRefused(query)
      ensures comingSoon ==> q == None && refreshing == old(refreshing)
      ensures !comingSoon ==> q == Some(PlacesQuery(None, Some(query), Some(City))) && refreshing
    {
      if SearchRefused(query) {
        return None, true;
      }
      refreshing := true;
      q, comingSoon := Some(PlacesQuery(None, Some(query), Some(City))), false;
    }

    /** The completion of `searchPlaces`; a 2xx response without a body leaves
        the list and the label as they were. */
    method CompleteSearch(o: Outcome<RawPlaces>) returns (toast: Option<Toast>)
      modifies this`shown, this`noPlacesVisible, this`refreshing
      ensures var step := SearchResult(Classify(o));
        && toast == step.toast
        && (step.display != None ==> shown == step.display.value && LabelMatches())
        && (step.display == None ==> shown == old(shown) && noPlacesVisible == old(noPlacesVisible))
      ensures !refreshing
    {
      var step := SearchResult(Classify(o));
      toast := step.toast;
      if step.display != None {
        shown := step.display.value;
        noPlacesVisible := shown == [];
      }
      refreshing := false;
    }
  }
}
