/** The records the screens exchange with the backend (Place, PlacePermissions,
    PlaceResponse and the smaller records they hold), with the default values
    the Kotlin data classes declare, and the category spinner both the feed and
    the add-place form build from a category list. */
module Model {
  import opened Net

  datatype Category = Category(id: string, name: string, icon: Option<string>,
                               description: Option<string>, isActive: bool)

  datatype User = User(id: string, name: string, email: string, role: string,
                       likedPlaces: Option<seq<string>>, createdAt: Option<string>,
                       lastLogin: Option<string>)

  datatype PlacePermissions = PlacePermissions(canEdit: bool, canDelete: bool,
                                               isOwner: bool, isAdmin: bool)

  /** A place. `averageRating` is a Kotlin Double; only its sign is ever used. */
  datatype Place = Place(
    id: string, name: string, location: string, city: string, description: string,
    images: seq<string>, link: Option<string>, category: Category, addedBy: Option<User>,
    isApproved: bool, approvedBy: Option<string>, approvedAt: Option<string>,
    likesCount: int, reviewsCount: int, averageRating: real, createdAt: string,
    permissions: Option<PlacePermissions>)

  datatype UserInfo = UserInfo(id: string, role: string, isAdmin: bool)

  /** The body of the place-list endpoints. */
  datatype PlaceResponse = PlaceResponse(success: bool, count: Option<int>,
                                         data: Option<seq<Place>>, message: Option<string>,
                                         user: Option<UserInfo>)

  datatype Review = Review(id: string, place: string, user: User, rating: int,
                           comment: string, createdAt: string)

  datatype LikeData = LikeData(isLiked: bool, likesCount: int)

  datatype AuthData = AuthData(id: string, name: string, email: string, role: string, token: string)

  /** `PlacePermissions()` with every argument defaulted. */
  function DefaultPermissions(): (p: PlacePermissions)
    ensures !p.canEdit && !p.canDelete && !p.isOwner && !p.isAdmin
  {
    PlacePermissions(false, false, false, false)
  }

  /** A Place built with only the parameters that have no default. */
  function NewPlace(id: string, name: string, location: string, city: string,
                    description: string, images: seq<string>, link: Option<string>,
                    category: Category, addedBy: Option<User>, isApproved: bool,
                    createdAt: string): (p: Place)
    ensures p.approvedBy == None && p.approvedAt == None
    ensures p.likesCount == 0 && p.reviewsCount == 0 && p.averageRating == 0.0
    ensures p.permissions == None
    ensures p.id == id && p.images == images && p.link == link && p.isApproved == isApproved
  {
    Place(id, name, location, city, description, images, link, category, addedBy,
          isApproved, None, None, 0, 0, 0.0, createdAt, None)
  }

  /** A PlaceResponse built from `success` alone. */
  function NewPlaceResponse(success: bool): (r: PlaceResponse)
    ensures r.success == success
    ensures r.count == None && r.data == None && r.message == None && r.user == None
  {
    PlaceResponse(success, None, None, None, None)
  }

  /** A PlaceResponse seen as the generic envelope. */
  function AsEnvelope(r: PlaceResponse): (e: Envelope<seq<Place>>)
    ensures e.success == r.success && e.message == r.message && e.data == r.data
  {
    Envelope(r.success, r.message, r.data)
  }

  /** A place-list outcome seen through the generic envelope. */
  function ListOutcome(o: Outcome<PlaceResponse>): (e: Outcome<Envelope<seq<Place>>>)
    ensures Succeeded(e) <==> o.Ok2xx? && o.body.Some? && o.body.value.success
    ensures Succeeded(e) ==> Payload(e) == o.body.value.data
    ensures BodyMessage(e) == if o.Ok2xx? && o.body.Some? then o.body.value.message else None
    ensures e.Transport? <==> o.Transport?
    ensures e.Transport? ==> e.message == o.message
  {
    match o
    case Transport(m) => Transport(m)
    case Http(code, errorBody) => Http(code, errorBody)
    case Ok2xx(code, None) => Ok2xx(code, None)
    case Ok2xx(code, Some(r)) => Ok2xx(code, Some(AsEnvelope(r)))
  }

  /** The list a screen shows after a load that replaces it only on success:
      `data` (null read as empty), or the list it showed before. */
  function Refreshed(o: Outcome<Envelope<seq<Place>>>, before: seq<Place>): (after: seq<Place>)
    ensures Succeeded(o) ==> after == Payload(o).GetOr([])
    ensures !Succeeded(o) ==> after == before
  {
    if Succeeded(o) then Payload(o).GetOr([]) else before
  }

  /** A response that carries only its `success` flag: when it reports
      success the null list reads as an empty one and clears what was shown;
      otherwise what was shown stays. */
  lemma DefaultsOnlyResponseRefresh(code: nat, success: bool, before: seq<Place>)
    ensures Refreshed(ListOutcome(Ok2xx(code, Some(NewPlaceResponse(success)))), before)
            == if success then [] else before
  {
  }

  /** Applying the same outcome twice gives what applying it once gives, and
      after a success the old list no longer matters. */
  lemma RefreshedIdempotent(o: Outcome<Envelope<seq<Place>>>, a: seq<Place>, b: seq<Place>)
    ensures Refreshed(o, Refreshed(o, a)) == Refreshed(o, a)
    ensures Succeeded(o) ==> Refreshed(o, a) == Refreshed(o, b)
  {
  }

  /** The entries of a category spinner: a header followed by the category names. */
  function SpinnerNames(header: string, categories: seq<Category>): (names: seq<string>)
    ensures |names| == |categories| + 1 && names[0] == header
    ensures forall p :: 0 < p < |names| ==> names[p] == categories[p - 1].name
  {
    [header] + seq(|categories|, i requires 0 <= i < |categories| => categories[i].name)
  }

  /** The category id a spinner position selects: the header selects none. */
  function CategoryIdAt(categories: seq<Category>, position: nat): (id: Option<string>)
    requires position <= |categories|
    ensures position == 0 <==> id == None
  {
    if position == 0 then None else Some(categories[position - 1].id)
  }

  /** Position p > 0 names the category whose id it selects. */
  lemma SpinnerPositionAgrees(header: string, categories: seq<Category>, position: nat)
    requires 0 < position <= |categories|
    ensures SpinnerNames(header, categories)[position] == categories[position - 1].name
    ensures CategoryIdAt(categories, position) == Some(categories[position - 1].id)
  {
  }

  /** `categories.indexOfFirst { it.id == id }`: -1 when no category has that id. */
  function IndexOfFirst(categories: seq<Category>, id: string): (k: int)
    ensures -1 <= k < |categories|
    ensures k == -1 <==> forall i :: 0 <= i < |categories| ==> categories[i].id != id
    ensures k >= 0 ==> categories[k].id == id && forall i :: 0 <= i < k ==> categories[i].id != id
  {
    if categories == [] then -1
    else if categories[0].id == id then 0
    else
      var k := IndexOfFirst(categories[1..], id);
      if k == -1 then -1 else k + 1
  }

  /** Selecting position `IndexOfFirst + 1`, as a form that loads a place does,
      gives back the category id it looked up. */
  lemma {:induction false} SelectionRoundTrip(categories: seq<Category>, id: string)
    requires IndexOfFirst(categories, id) >= 0
    ensures IndexOfFirst(categories, id) + 1 <= |categories|
    ensures CategoryIdAt(categories, IndexOfFirst(categories, id) + 1) == Some(id)
  {
  }
}
