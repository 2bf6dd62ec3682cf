/** PlaceDetailsActivity: one place with its reviews and like state. The
    like state is replaced by what the server reports, never flipped locally,
    and a successful review change reloads the reviews and the place. */
module Details {
  import opened Text
  import opened Net
  import opened Model
  import opened Extensions
  import AddPlace

  /** What `onCreate` does with the PLACE_ID extra. */
  datatype Opening = FinishNotFound(toast: Toast) | LoadAll(placeId: string)

  function Open(placeId: Option<string>): (r: Opening)
    ensures r.FinishNotFound? <==> placeId == None
    ensures r.FinishNotFound? ==> r.toast == Say("Error: Place not found")
    ensures r.LoadAll? ==> r.placeId == placeId.value
  {
    if placeId == None then FinishNotFound(Say("Error: Place not found")) else LoadAll(placeId.value)
  }

  /** The `AddReviewRequest` body. */
  datatype ReviewBody = ReviewBody(rating: int, comment: string)

  /** The dialog's Submit button: either a request, or the reminder toast.
      `rating` is `ratingBar.rating.toInt()`. */
  datatype ReviewSubmit = Send(body: ReviewBody) | Remind(toast: Toast)

  function ReviewGate(rating: int, commentText: string): (r: ReviewSubmit)
    ensures r.Send? <==> rating > 0 && !Blank(commentText)
    ensures r.Send? ==> r.body == ReviewBody(rating, Trim(commentText))
    ensures r.Remind? ==> r.toast == Say("Please provide rating and comment")
  {
    TrimEmptyIffBlank(commentText);
    var comment := Trim(commentText);
    if rating > 0 && comment != [] then Send(ReviewBody(rating, comment))
    else Remind(Say("Please provide rating and comment"))
  }

  /** The gate has no upper bound on the rating. */
  lemma ReviewGateHasNoUpperBound()
    ensures ReviewGate(100, "fine").Send?
  {
    assert !Blank("fine") by {
      assert !IsWhitespace("fine"[0]);
    }
  }

  /** A comment of spaces is refused like an empty one. */
  lemma ReviewGateRefusesSpaces()
    ensures ReviewGate(5, "   ").Remind?
  {
    assert Blank("   ");
  }

  /** The like button's text. */
  function LikeLabel(isLiked: bool): (caption: string)
    ensures caption == "Unlike" <==> isLiked
    ensures caption == "Like" <==> !isLiked
  {
    if isLiked then "Unlike" else "Like"
  }

  /** The rating line: the average with the review count (its "%.1f"
      formatting is not modelled), or "No ratings yet". */
  datatype RatingLine = Rated(average: real, reviews: int) | NoRatingsYet

  function RatingText(place: Place): (r: RatingLine)
    ensures r.Rated? <==> place.averageRating > 0.0
    ensures r.Rated? ==> r.average == place.averageRating && r.reviews == place.reviewsCount
  {
    if place.averageRating > 0.0 then Rated(place.averageRating, place.reviewsCount) else NoRatingsYet
  }

  /** The visit-website button is shown for a non-empty link. */
  predicate WebsiteVisible(place: Place) {
    place.link.Some? && place.link.value != []
  }

  /** The test is `isNullOrEmpty`, not blank: a link of spaces still shows the
      button, although the edit form, which loads the same link and trims it,
      would send no link at all when the place is saved again. */
  lemma {:induction false} BlankLinkShowsWebsite(place: Place)
    requires place.link.Some? && place.link.value != [] && Blank(place.link.value)
    ensures WebsiteVisible(place)
    ensures AddPlace.OmitEmpty(Trim(place.link.value)) == None
  {
    TrimEmptyIffBlank(place.link.value);
  }

  /** The image slider's URLs: every path gets the base URL prefix, even an
      absolute one. */
  function SliderUrls(baseUrl: string, images: seq<string>): (urls: seq<string>)
    ensures |urls| == |images|
    ensures forall i :: 0 <= i < |images| ==> urls[i] == PrefixBase(baseUrl, images[i])
  {
    seq(|images|, i requires 0 <= i < |images| => PrefixBase(baseUrl, images[i]))
  }

  /** For a non-empty relative path the slider loads what `loadImage` loads. */
  lemma SliderAgreesOnRelativePaths(baseUrl: string, images: seq<string>, i: nat)
    requires i < |images| && images[i] != [] && !IsAbsolute(images[i])
    ensures ResolveImage(Some(images[i]), baseUrl) == Url(SliderUrls(baseUrl, images)[i])
  {
  }

  /** For an absolute URL they differ whenever the base URL is more than a
      "/": the slider prefixes it, `loadImage` does not. */
  lemma {:induction false} SliderDiffersOnAbsoluteUrls(baseUrl: string, path: string)
    requires IsAbsolute(path) && RemoveSuffix(baseUrl, "/") != []
    ensures ResolveImage(Some(path), baseUrl) == Url(path)
    ensures SliderUrls(baseUrl, [path])[0] != path
  {
    assert |SliderUrls(baseUrl, [path])[0]| == |RemoveSuffix(baseUrl, "/")| + |path|;
  }

  /** What a completed review mutation does. */
  datatype MutationEffect = MutationEffect(toast: Toast, reload: bool)

  /** The completion of `submitReview`: success reloads the reviews and the
      place details. */
  function AddReviewResult(o: Outcome<Envelope<Review>>): (e: MutationEffect)
    ensures e.reload <==> Succeeded(o)
    ensures e.reload ==> e.toast == Say("Review added successfully")
    ensures o.Transport? ==> e.toast == ErrorToast(o.message)
    ensures !e.reload && !o.Transport? ==> e.toast == Say(BodyMessage(o).GetOr("Failed to add review"))
  {
    if Succeeded(o) then MutationEffect(Say("Review added successfully"), true)
    else if o.Transport? then MutationEffect(ErrorToast(o.message), false)
    else MutationEffect(Say(BodyMessage(o).GetOr("Failed to add review")), false)
  }

  /** The completion of `performDeleteReview`. */
  function DeleteReviewResult(o: Outcome<Envelope<()>>): (e: MutationEffect)
    ensures e.reload <==> Succeeded(o)
    ensures e.reload ==> e.toast == Say("Review deleted")
    ensures o.Transport? ==> e.toast == ErrorToast(o.message)
    ensures !e.reload && !o.Transport? ==> e.toast == Say("Failed to delete review")
  {
    if Succeeded(o) then MutationEffect(Say("Review deleted"), true)
    else if o.Transport? then MutationEffect(ErrorToast(o.message), false)
    else MutationEffect(Say("Failed to delete review"), false)
  }

  /** The like state (`isLiked` and the shown count) after `toggleLike`
      completes: the server's values on success, false and 0 when it sends
      no data; otherwise the state before. */
  function LikeStateAfter(o: Outcome<Envelope<LikeData>>, before: LikeData): (after: LikeData)
    ensures !Succeeded(o) ==> after == before
    ensures Succeeded(o) && Payload(o).Some? ==> after == Payload(o).value
    ensures Succeeded(o) && Payload(o) == None ==> after == LikeData(false, 0)
  {
    if Succeeded(o) then Payload(o).GetOr(LikeData(false, 0)) else before
  }

  /** A successful toggle does not depend on the state before it: the server
      decides, so a toggle is not its own inverse on the client. */
  lemma SuccessfulToggleIgnoresOldState(o: Outcome<Envelope<LikeData>>, a: LikeData, b: LikeData)
    requires Succeeded(o)
    ensures LikeStateAfter(o, a) == LikeStateAfter(o, b)
  {
  }

  /** The toast of a completed `toggleLike`: the message (or "Success") on
      success, the exception's message, and nothing for a refusal. */
  function ToggleToast(o: Outcome<Envelope<LikeData>>): (t: Option<Toast>)
    ensures Succeeded(o) ==> t == Some(Say(BodyMessage(o).GetOr("Success")))
    ensures o.Transport? ==> t == Some(ErrorToast(o.message))
    ensures t == None <==> !Succeeded(o) && !o.Transport?
  {
    if Succeeded(o) then Some(Say(BodyMessage(o).GetOr("Success")))
    else if o.Transport? then Some(ErrorToast(o.message))
    else None
  }

  /** The screen's state. `likesShown` is the number in the likes label. */
  class DetailsScreen {
    const placeId: string
    var currentPlace: Option<Place>
    var isLiked: bool
    var likesShown: int
    var reviews: seq<Review>
    var noReviewsVisible: bool
    var websiteVisible: bool
    var loading: bool

    constructor (placeId: string)
      ensures this.placeId == placeId && currentPlace == None && !isLiked && reviews == []
    {
      this.placeId := placeId;
      currentPlace, isLiked, likesShown := None, false, 0;
      reviews, noReviewsVisible, websiteVisible, loading := [], false, false, false;
    }

    /** `loadPlaceDetails` up to the request. */
    method StartLoadPlaceDetails()
      modifies this`loading
      ensures loading
    {
      loading := true;
    }

    /** The completion of `loadPlaceDetails`: a place is shown, with the
        visit-website button exactly when its link is not empty; a failure
        finishes the screen. */
    method CompleteLoadPlaceDetails(o: Outcome<Envelope<Place>>) returns (toast: Option<Toast>, finish: bool)
      modifies this`currentPlace, this`likesShown, this`websiteVisible, this`loading
      ensures finish <==> !Succeeded(o)
      ensures toast == if Succeeded(o) then None
                       else if o.Transport? then Some(ErrorToast(o.message))
                       else Some(Say("Failed to load place details"))
      ensures Succeeded(o) && Payload(o).Some? ==>
        && currentPlace == Payload(o) && likesShown == Payload(o).value.likesCount
        && (websiteVisible <==> Payload(o).value.link.GetOr("") != [])
      ensures !(Succeeded(o) && Payload(o).Some?) ==>
        currentPlace == old(currentPlace) && likesShown == old(likesShown) && websiteVisible == old(websiteVisible)
      ensures !loading
    {
      toast, finish := None, false;
      if Succeeded(o) {
        if Payload(o).Some? {
          currentPlace := Payload(o);
          likesShown := Payload(o).value.likesCount;
          websiteVisible := WebsiteVisible(Payload(o).value);
        }
      } else {
        toast := if o.Transport? then Some(ErrorToast(o.message)) else Some(Say("Failed to load place details"));
        finish := true;
      }
      loading := false;
    }

    /** The completion of `loadReviews`: failures are silent and change nothing. */
    method CompleteLoadReviews(o: Outcome<Envelope<seq<Review>>>)
      modifies this`reviews, this`noReviewsVisible
      ensures Succeeded(o) ==> reviews == Payload(o).GetOr([]) && (noReviewsVisible <==> reviews == [])
      ensures !Succeeded(o) ==> reviews == old(reviews) && noReviewsVisible == old(noReviewsVisible)
    {
      if Succeeded(o) {
        reviews := Payload(o).GetOr([]);
        noReviewsVisible := reviews == [];
      }
    }

    /** The completion of `loadLikeStatus`: only `isLiked` is taken. */
    method CompleteLoadLikeStatus(o: Outcome<Envelope<LikeData>>)
      modifies this`isLiked
      ensures Succeeded(o) ==> isLiked == (Payload(o).Some? && Payload(o).value.isLiked)
      ensures !Succeeded(o) ==> isLiked == old(isLiked)
    {
      if Succeeded(o) {
        isLiked := Payload(o).Some? && Payload(o).value.isLiked;
      }
    }

    /** The completion of `toggleLike`. */
    method CompleteToggleLike(o: Outcome<Envelope<LikeData>>) returns (toast: Option<Toast>)
      modifies this`isLiked, this`likesShown
      ensures LikeData(isLiked, likesShown) == LikeStateAfter(o, LikeData(old(isLiked), old(likesShown)))
      ensures toast == ToggleToast(o)
    {
      if Succeeded(o) {
        var data := Payload(o).GetOr(LikeData(false, 0));
        isLiked, likesShown := data.isLiked, data.likesCount;
      }
      toast := ToggleToast(o);
    }

    /** The completion of `submitReview`; a reload starts both loads. */
    method CompleteAddReview(o: Outcome<Envelope<Review>>) returns (toast: Toast, reload: bool)
      modifies this`loading
      ensures MutationEffect(toast, reload) == AddReviewResult(o)
      ensures loading == (old(loading) || reload)
    {
      var effect := AddReviewResult(o);
      toast, reload := effect.toast, effect.reload;
      if reload {
        StartLoadPlaceDetails();
      }
    }

    /** The completion of `performDeleteReview`; a reload starts both loads. */
    method CompleteDeleteReview(o: Outcome<Envelope<()>>) returns (toast: Toast, reload: bool)
      modifies this`loading
      ensures MutationEffect(toast, reload) == DeleteReviewResult(o)
      ensures loading == (old(loading) || reload)
    {
      var effect := DeleteReviewResult(o);
      toast, reload := effect.toast, effect.reload;
      if reload {
        StartLoadPlaceDetails();
      }
    }
  }
}
