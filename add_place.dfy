/** AddPlaceActivity: the form that creates a place, or updates one in edit
    mode. It keeps a mutable list of picked image URIs, a category spinner,
    and validates the trimmed texts with a `when` chain before sending a
    multipart request. Whether a picked URI can be turned into a file is the
    parameter `usable`. */
module AddPlace {
  import opened Text
  import opened Net
  import opened Model
  import opened Validation

  /** The city sent when the city field is left empty. */
  const DefaultCity := "Surat"

  /** The header entry of the form's category spinner. */
  const SelectCategoryHeader := "Select Category"

  /** The input fields that can carry an error. */
  datatype FormField = PlaceNameField | LocationField | DescriptionField

  /** What the validation reports: three field errors, or the
      select-a-category toast. */
  datatype FormError = EmptyPlaceName | EmptyLocation | EmptyDescription | NoCategory

  /** The input layout that shows an error; a missing category has none and
      is reported by a toast instead. */
  function ErrorField(e: FormError): (f: Option<FormField>)
    ensures f == None <==> e == NoCategory
  {
    match e
    case EmptyPlaceName => Some(PlaceNameField)
    case EmptyLocation => Some(LocationField)
    case EmptyDescription => Some(DescriptionField)
    case NoCategory => None
  }

  /** Each label shows one kind of error only. */
  lemma ErrorFieldInjective(a: FormError, b: FormError)
    requires ErrorField(a) == ErrorField(b) != None
    ensures a == b
  {
  }

  /** The error labels after a validation: the failing field shows its error
      and every other label keeps what it showed; a form that passes clears
      all three labels. */
  function LabelsAfter(before: map<FormField, FormError>, err: Option<FormError>): (after: map<FormField, FormError>)
    ensures err == None ==> after == map[]
    ensures err.Some? ==> forall f :: f in after <==> f in before || ErrorField(err.value) == Some(f)
    ensures err.Some? ==> forall f :: f in after ==>
      after[f] == if ErrorField(err.value) == Some(f) then err.value else before[f]
  {
    if err == None then map[]
    else if ErrorField(err.value).Some? then before[ErrorField(err.value).value := err.value]
    else before
  }

  /** The branches of the `when` in `validateAndSubmit`, in order. */
  function PlaceChecks(name: string, location: string, description: string,
                       categoryId: Option<string>): seq<Check<FormError>> {
    [ Check(name == [], EmptyPlaceName), Check(location == [], EmptyLocation),
      Check(description == [], EmptyDescription), Check(categoryId == None, NoCategory) ]
  }

  /** The error the validation reports, if any; the city and link are never
      checked. */
  function PlaceError(name: string, location: string, description: string,
                      categoryId: Option<string>): (r: Option<FormError>)
    ensures r == None <==> (name != [] && location != [] && description != [] && categoryId.Some?)
    ensures r == Some(EmptyPlaceName) <==> name == []
    ensures r == Some(EmptyLocation) <==> name != [] && location == []
    ensures r == Some(EmptyDescription) <==> name != [] && location != [] && description == []
    ensures r == Some(NoCategory) <==> (name != [] && location != [] && description != [] && categoryId == None)
  {
    var checks := PlaceChecks(name, location, description, categoryId);
    var k := if name == [] then 0 else if location == [] then 1 else if description == [] then 2
             else if categoryId == None then 3 else 4;
    if k == 4 then FirstFailure(checks)
    else EarlierFailureWins(checks, k); FirstFailure(checks)
  }

  /** `city.ifEmpty { "Surat" }`. */
  function CityOrDefault(city: string): (r: string)
    ensures r != []
    ensures city != [] ==> r == city
    ensures city == [] ==> r == DefaultCity
  {
    if city == [] then DefaultCity else city
  }

  /** An optional request part: the trimmed link, or the list of image
      parts, is sent only when it is not empty (otherwise null). */
  function OmitEmpty<T>(part: seq<T>): (r: Option<seq<T>>)
    ensures r == None <==> part == []
    ensures r.Some? ==> r.value == part
  {
    if part == [] then None else Some(part)
  }

  /** `selectedImages.remove(uri)`: drops the first occurrence, if any. */
  function RemoveFirst<T(==)>(images: seq<T>, uri: T): (r: seq<T>)
    ensures uri !in images ==> r == images
    ensures uri in images ==> |r| == |images| - 1
    ensures multiset(r) == multiset(images) - multiset{uri}
  {
    if images == [] then []
    else
      assert images == [images[0]] + images[1..];
      if images[0] == uri then images[1..]
      else [images[0]] + RemoveFirst(images[1..], uri)
  }

  /** Removal passes over a head that is not the removed value. */
  lemma RemoveFirstCons<T>(head: T, rest: seq<T>, uri: T)
    requires head != uri
    ensures RemoveFirst([head] + rest, uri) == [head] + RemoveFirst(rest, uri)
  {
    assert ([head] + rest)[1..] == rest;
  }

  /** Splitting off the head of the part before `mid`. */
  lemma SplitHead<T>(before: seq<T>, mid: seq<T>, after: seq<T>)
    requires before != []
    ensures before + mid + after == [before[0]] + (before[1..] + mid + after)
    ensures before + after == [before[0]] + (before[1..] + after)
  {
    assert before == [before[0]] + before[1..];
  }

  /** Removal takes out the first copy only, and keeps everything before it
      in place. */
  lemma {:induction false} RemoveFirstSplits<T>(before: seq<T>, uri: T, after: seq<T>)
    requires uri !in before
    ensures RemoveFirst(before + [uri] + after, uri) == before + after
  {
    if before == [] {
      assert before + [uri] + after == [uri] + after;
    } else {
      assert before[0] in before;
      SplitHead(before, [uri], after);
      RemoveFirstCons(before[0], before[1..] + [uri] + after, uri);
      RemoveFirstSplits(before[1..], uri, after);
    }
  }

  /** The URIs a multipart image part is built for: the usable ones, in
      selection order. */
  function UsableImages(images: seq<string>, usable: string -> bool): (r: seq<string>)
    ensures |r| <= |images|
    ensures forall u :: u in r <==> u in images && usable(u)
  {
    if images == [] then []
    else (if usable(images[0]) then [images[0]] else []) + UsableImages(images[1..], usable)
  }

  /** The filter keeps every copy of a usable URI and no copy of another one. */
  lemma {:induction false} UsableImagesCounts(images: seq<string>, usable: string -> bool)
    ensures forall u :: multiset(UsableImages(images, usable))[u] == if usable(u) then multiset(images)[u] else 0
  {
    if images != [] {
      assert images == [images[0]] + images[1..];
      UsableImagesCounts(images[1..], usable);
    }
  }

  /** The filter distributes over concatenation, so it keeps the selection's order. */
  lemma {:induction false} UsableImagesAppend(a: seq<string>, b: seq<string>, usable: string -> bool)
    ensures UsableImages(a + b, usable) == UsableImages(a, usable) + UsableImages(b, usable)
  {
    if a != [] {
      assert (a + b)[0] == a[0] && (a + b)[1..] == a[1..] + b;
      UsableImagesAppend(a[1..], b, usable);
      var head := if usable(a[0]) then [a[0]] else [];
      assert UsableImages(a, usable) == head + UsableImages(a[1..], usable);
      assert UsableImages(a + b, usable) == head + UsableImages(a[1..] + b, usable);
      assert head + (UsableImages(a[1..], usable) + UsableImages(b, usable))
          == (head + UsableImages(a[1..], usable)) + UsableImages(b, usable);
    } else {
      assert a + b == b;
    }
  }

  /** When every file is usable, every selected image is sent. */
  lemma {:induction false} AllUsableSendsAll(images: seq<string>, usable: string -> bool)
    requires forall u :: u in images ==> usable(u)
    ensures UsableImages(images, usable) == images
  {
    if images != [] {
      AllUsableSendsAll(images[1..], usable);
    }
  }

  /** The endpoint a submission goes to. */
  datatype Endpoint = Create | Update(placeId: string)

  function ChooseEndpoint(isEditMode: bool, placeId: Option<string>): (e: Endpoint)
    ensures e.Update? <==> isEditMode && placeId.Some?
    ensures e.Update? ==> e.placeId == placeId.value
  {
    if isEditMode && placeId.Some? then Update(placeId.value) else Create
  }

  /** The text parts of the multipart request. */
  datatype PlaceForm = PlaceForm(name: string, location: string, city: string, description: string,
                                 category: string, link: Option<string>)

  /** One request built by `submitPlace`. */
  datatype SubmitRequest = SubmitRequest(endpoint: Endpoint, form: PlaceForm, images: Option<seq<string>>)

  /** What the screen does when the create or update call completes. The
      progress bar is hidden on every path. */
  datatype SubmitEffect = SubmitEffect(toast: Toast, finish: bool)

  /** "Failed to update place" or "Failed to add place". */
  function FailedText(isEditMode: bool): string {
    "Failed to " + (if isEditMode then "update" else "add") + " place"
  }

  /** The completion of `submitPlace`. The texts follow `isEditMode` alone,
      while the endpoint also needs a place id. */
  function SubmitResult(o: Outcome<Envelope<Place>>, isEditMode: bool): (e: SubmitEffect)
    ensures e.finish <==> Succeeded(o)
    ensures Succeeded(o) && isEditMode ==> e.toast == Say("Place updated successfully")
    ensures Succeeded(o) && !isEditMode ==>
      e.toast == if BodyMessage(o).Some? then Say(BodyMessage(o).value) else SayResource("place_added_success")
    ensures o.Ok2xx? && !Succeeded(o) ==> e.toast == Say(BodyMessage(o).GetOr(FailedText(isEditMode)))
    ensures o.Http? && o.errorBody.Present? ==> e.toast == Say(o.errorBody.text)
    ensures o.Http? && o.errorBody.Absent? ==> e.toast == Say(FailedText(isEditMode))
    ensures o.Http? && o.errorBody.Unreadable? ==> e.toast == ErrorToast(o.errorBody.message)
    ensures o.Transport? ==> e.toast == ErrorToast(o.message)
  {
    if Succeeded(o) then
      if isEditMode then SubmitEffect(Say("Place updated successfully"), true)
      else if BodyMessage(o).Some? then SubmitEffect(Say(BodyMessage(o).value), true)
      else SubmitEffect(SayResource("place_added_success"), true)
    else
      match o
      case Transport(m) => SubmitEffect(ErrorToast(m), false)
      case Http(_, Unreadable(m)) => SubmitEffect(ErrorToast(m), false)
      case Http(_, Present(t)) => SubmitEffect(Say(t), false)
      case Http(_, Absent) => SubmitEffect(Say(FailedText(isEditMode)), false)
      case Ok2xx(_, _) => SubmitEffect(Say(BodyMessage(o).GetOr(FailedText(isEditMode))), false)
  }

  /** In edit mode without a place id the form creates a place, yet a
      success still reads "Place updated successfully". */
  lemma EditModeWithoutIdCreates(o: Outcome<Envelope<Place>>)
    requires Succeeded(o)
    ensures ChooseEndpoint(true, None) == Create
    ensures SubmitResult(o, true).toast == Say("Place updated successfully")
  {
  }

  /** The form's state. */
  class AddPlaceScreen {
    const isEditMode: bool
    const placeId: Option<string>
    var selectedImages: seq<string>
    var imageCount: nat
    var categories: seq<Category>
    var spinnerNames: seq<string>
    var spinnerSelection: nat
    var selectedCategoryId: Option<string>
    var nameText: string
    var locationText: string
    var cityText: string
    var descriptionText: string
    var linkText: string
    var errors: map<FormField, FormError>
    var loading: bool

    /** The spinner has no adapter yet, or lists the header and then the
        current categories. */
    predicate SpinnerMatches()
      reads this
    {
      spinnerNames == [] || spinnerNames == SpinnerNames(SelectCategoryHeader, categories)
    }

    /** `onCreate` with the intent's EDIT_MODE and PLACE_ID extras. The place
        data is loaded (`loadsPlace`) exactly when a submission would update. */
    constructor (isEditMode: bool, placeId: Option<string>)
      ensures this.isEditMode == isEditMode && this.placeId == placeId
      ensures selectedImages == [] && imageCount == 0 && categories == [] && spinnerNames == []
      ensures selectedCategoryId == None && errors == map[]
      ensures loading <==> ChooseEndpoint(isEditMode, placeId).Update?
    {
      this.isEditMode, this.placeId := isEditMode, placeId;
      selectedImages, imageCount := [], 0;
      categories, spinnerNames, spinnerSelection := [], [], 0;
      selectedCategoryId := None;
      nameText, locationText, cityText, descriptionText, linkText := "", "", "", "", "";
      errors := map[];
      loading := isEditMode && placeId.Some?;
    }

    /** The image picker's callback: a non-empty pick is appended in order,
        duplicates kept. */
    method OnImagesPicked(uris: seq<string>)
      modifies this`selectedImages, this`imageCount
      ensures selectedImages == if uris == [] then old(selectedImages) else old(selectedImages) + uris
      ensures uris != [] ==> imageCount == |selectedImages|
      ensures uris == [] ==> imageCount == old(imageCount)
    {
      if uris != [] {
        selectedImages := selectedImages + uris;
        imageCount := |selectedImages|;
      }
    }

    /** The remove button of a selected image. */
    method OnRemoveImage(uri: string)
      modifies this`selectedImages, this`imageCount
      ensures selectedImages == RemoveFirst(old(selectedImages), uri)
      ensures imageCount == |selectedImages|
    {
      selectedImages := RemoveFirst(selectedImages, uri);
      imageCount := |selectedImages|;
    }

    /** The completion of `loadCategories`: only a success replaces the
        categories and the spinner; only an exception toasts. */
    method CompleteLoadCategories(o: Outcome<Envelope<seq<Category>>>) returns (toast: Option<Toast>)
      requires SpinnerMatches()
      modifies this`categories, this`spinnerNames
      ensures SpinnerMatches()
      ensures Succeeded(o) ==> categories == Payload(o).GetOr([])
                               && spinnerNames == SpinnerNames(SelectCategoryHeader, categories)
      ensures !Succeeded(o) ==> categories == old(categories) && spinnerNames == old(spinnerNames)
      ensures toast == if o.Transport? then Some(Say("Failed to load categories")) else None
    {
      toast := None;
      if Succeeded(o) {
        categories := Payload(o).GetOr([]);
        spinnerNames := SpinnerNames(SelectCategoryHeader, categories);
      } else if o.Transport? {
        toast := Some(Say("Failed to load categories"));
      }
    }

    /** The spinner's item-selected listener. */
    method OnCategorySelected(position: nat)
      requires SpinnerMatches() && position < |spinnerNames|
      modifies this`spinnerSelection, this`selectedCategoryId
      ensures spinnerSelection == position
      ensures selectedCategoryId == CategoryIdAt(categories, position)
    {
      spinnerSelection := position;
      selectedCategoryId := CategoryIdAt(categories, position);
    }

    /** The completion of `loadPlaceData`: a place fills the form and selects
        its category when that category is known; a failure finishes the
        screen. */
    method CompleteLoadPlaceData(o: Outcome<Envelope<Place>>) returns (toast: Option<Toast>, finish: bool)
      modifies this`nameText, this`locationText, this`cityText, this`descriptionText, this`linkText
      modifies this`spinnerSelection, this`selectedCategoryId, this`loading
      ensures finish <==> !Succeeded(o)
      ensures o.Transport? ==> toast == Some(ErrorToast(o.message))
      ensures !o.Transport? ==> toast == if Succeeded(o) then None else Some(Say("Failed to load place data"))
      ensures !loading
      ensures Succeeded(o) && Payload(o).Some? ==>
        var p := Payload(o).value;
        && nameText == p.name && locationText == p.location && cityText == p.city
        && descriptionText == p.description && linkText == p.link.GetOr("")
        && (IndexOfFirst(categories, p.category.id) >= 0 ==>
              spinnerSelection == IndexOfFirst(categories, p.category.id) + 1
              && selectedCategoryId == Some(p.category.id)
              && selectedCategoryId == CategoryIdAt(categories, spinnerSelection))
        && (IndexOfFirst(categories, p.category.id) < 0 ==>
              spinnerSelection == old(spinnerSelection) && selectedCategoryId == old(selectedCategoryId))
      ensures !(Succeeded(o) && Payload(o).Some?) ==>
        && nameText == old(nameText) && locationText == old(locationText) && cityText == old(cityText)
        && descriptionText == old(descriptionText) && linkText == old(linkText)
        && spinnerSelection == old(spinnerSelection) && selectedCategoryId == old(selectedCategoryId)
    {
      toast, finish := None, false;
      if Succeeded(o) {
        if Payload(o).Some? {
          var p := Payload(o).value;
          nameText, locationText, cityText, descriptionText := p.name, p.location, p.city, p.description;
          linkText := p.link.GetOr("");
          var index := IndexOfFirst(categories, p.category.id);
          if index >= 0 {
            SelectionRoundTrip(categories, p.category.id);
            spinnerSelection := index + 1;
            selectedCategoryId := Some(p.category.id);
          }
        }
      } else {
        toast := if o.Transport? then Some(ErrorToast(o.message)) else Some(Say("Failed to load place data"));
        finish := true;
      }
      loading := false;
    }

    /** The image parts `submitPlace` builds, one per usable selected URI. */
    method BuildImageParts(usable: string -> bool) returns (parts: seq<string>)
      ensures parts == UsableImages(selectedImages, usable)
      ensures |parts| <= |selectedImages|
    {
      parts := [];
      var i := 0;
      while i < |selectedImages|
        invariant 0 <= i <= |selectedImages|
        invariant parts == UsableImages(selectedImages[..i], usable)
      {
        var uri := selectedImages[i];
        if usable(uri) {
          parts := parts + [uri];
        }
        assert selectedImages[..i + 1] == selectedImages[..i] + [uri];
        UsableImagesAppend(selectedImages[..i], [uri], usable);
        i := i + 1;
      }
      assert selectedImages[..i] == selectedImages;
    }

    /** The request `submitPlace` sends for a form that passed validation. */
    method BuildRequest(name: string, location: string, city: string, description: string,
                        link: string, usable: string -> bool) returns (request: SubmitRequest)
      requires selectedCategoryId.Some?
      ensures request == SubmitRequest(
          ChooseEndpoint(isEditMode, placeId),
          PlaceForm(name, location, CityOrDefault(city), description, selectedCategoryId.value, OmitEmpty(link)),
          OmitEmpty(UsableImages(selectedImages, usable)))
    {
      var parts := BuildImageParts(usable);
      var form := PlaceForm(name, location, CityOrDefault(city), description,
                            selectedCategoryId.value, OmitEmpty(link));
      request := SubmitRequest(ChooseEndpoint(isEditMode, placeId), form, OmitEmpty(parts));
    }

    /** The `when` of `validateAndSubmit` on the trimmed texts: the first
        failing check sets its field's error (or toasts for the category) and
        nothing is sent; otherwise the three errors are cleared and the
        request is built. */
    method SubmitTrimmed(name: string, location: string, city: string, description: string,
                         link: string, usable: string -> bool)
      returns (toast: Option<Toast>, request: Option<SubmitRequest>)
      modifies this`errors, this`loading
      ensures var err := PlaceError(name, location, description, old(selectedCategoryId));
        && (request.Some? <==> err == None)
        && (toast == if err == Some(NoCategory) then Some(SayResource("error_select_category")) else None)
        && errors == LabelsAfter(old(errors), err)
      ensures request.Some? ==>
        request.value == SubmitRequest(
          ChooseEndpoint(isEditMode, placeId),
          PlaceForm(name, location, CityOrDefault(city), description, selectedCategoryId.value, OmitEmpty(link)),
          OmitEmpty(UsableImages(selectedImages, usable)))
      ensures loading == (old(loading) || request.Some?)
    {
      var err := PlaceError(name, location, description, selectedCategoryId);
      toast, request := None, None;
      if err == Some(NoCategory) {
        toast := Some(SayResource("error_select_category"));
      } else if err == None {
        var built := BuildRequest(name, location, city, description, link, usable);
        request := Some(built);
      }
      errors := LabelsAfter(errors, err);
      loading := loading || request.Some?;
    }

    /** `validateAndSubmit` up to the request: the five texts are trimmed
        and then validated; the city and the link are never checked. */
    method ValidateAndSubmit(name0: string, location0: string, city0: string, description0: string,
                             link0: string, usable: string -> bool)
      returns (toast: Option<Toast>, request: Option<SubmitRequest>)
      modifies this`errors, this`loading
      ensures var err := PlaceError(Trim(name0), Trim(location0), Trim(description0), old(selectedCategoryId));
        && (request.Some? <==> err == None)
        && (toast == if err == Some(NoCategory) then Some(SayResource("error_select_category")) else None)
        && errors == LabelsAfter(old(errors), err)
      ensures request.Some? ==>
        request.value == SubmitRequest(
          ChooseEndpoint(isEditMode, placeId),
          PlaceForm(Trim(name0), Trim(location0), CityOrDefault(Trim(city0)), Trim(description0),
                    selectedCategoryId.value, OmitEmpty(Trim(link0))),
          OmitEmpty(UsableImages(selectedImages, usable)))
      ensures loading == (old(loading) || request.Some?)
    {
      toast, request := SubmitTrimmed(Trim(name0), Trim(location0), Trim(city0), Trim(description0),
                                      Trim(link0), usable);
    }

    /** The completion of `submitPlace`. */
    method CompleteSubmit(o: Outcome<Envelope<Place>>) returns (toast: Toast, finish: bool)
      modifies this`loading
      ensures SubmitEffect(toast, finish) == SubmitResult(o, isEditMode)
      ensures !loading
    {
      var effect := SubmitResult(o, isEditMode);
      toast, finish := effect.toast, effect.finish;
      loading := false;
    }
  }
}
