/** The decisions PlacesAdapter makes while binding a place card: which of
    the edit/delete actions appear, the rating label and the card image. */
module PlaceCard {
  import opened Net
  import opened Model

  /** `canShowActions`: the action row is visible. */
  predicate ActionsVisible(perm: Option<PlacePermissions>) {
    && perm.Some?
    && (perm.value.isOwner || perm.value.isAdmin)
    && (perm.value.canEdit || perm.value.canDelete)
  }

  /** The edit button is visible: the row is, and `canEdit` holds. */
  predicate EditVisible(perm: Option<PlacePermissions>) {
    ActionsVisible(perm) && perm.value.canEdit
  }

  /** The delete button is visible: the row is, and `canDelete` holds. */
  predicate DeleteVisible(perm: Option<PlacePermissions>) {
    ActionsVisible(perm) && perm.value.canDelete
  }

  /** A visible button is one the server allowed, for its owner or an admin;
      and the row is visible exactly when one of its buttons is. */
  lemma VisibleButtonIsAuthorised(perm: Option<PlacePermissions>)
    ensures EditVisible(perm) ==> perm.Some? && perm.value.canEdit && (perm.value.isOwner || perm.value.isAdmin)
    ensures DeleteVisible(perm) ==> perm.Some? && perm.value.canDelete && (perm.value.isOwner || perm.value.isAdmin)
    ensures ActionsVisible(perm) <==> EditVisible(perm) || DeleteVisible(perm)
  {
  }

  /** Without ownership or the admin role no action is visible, whatever the
      edit and delete flags say. */
  lemma NeitherOwnerNorAdminSeesNothing(perm: PlacePermissions)
    requires !perm.isOwner && !perm.isAdmin
    ensures !ActionsVisible(Some(perm)) && !EditVisible(Some(perm)) && !DeleteVisible(Some(perm))
  {
  }

  /** A place built with default values shows no actions, and neither do
      default permissions. */
  lemma DefaultsShowNoActions(id: string, name: string, location: string, city: string,
                              description: string, images: seq<string>, link: Option<string>,
                              category: Category, addedBy: Option<User>, isApproved: bool,
                              createdAt: string)
    ensures !ActionsVisible(NewPlace(id, name, location, city, description, images, link,
                                     category, addedBy, isApproved, createdAt).permissions)
    ensures !ActionsVisible(Some(DefaultPermissions()))
  {
  }

  /** The rating label: the average (its "%.1f" formatting is not modelled)
      when it is positive, otherwise "New". */
  datatype RatingLabel = Average(rating: real) | New

  function CardRating(averageRating: real): (l: RatingLabel)
    ensures l.New? <==> averageRating <= 0.0
    ensures l.Average? ==> l.rating == averageRating
  {
    if averageRating > 0.0 then Average(averageRating) else New
  }

  /** `images.firstOrNull()`: the image the card loads. */
  function CardImage(images: seq<string>): (r: Option<string>)
    ensures r == None <==> images == []
    ensures r.Some? ==> r.value == images[0] && r.value in images
  {
    if images == [] then None else Some(images[0])
  }
}
