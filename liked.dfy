/** LikedPlacesActivity: the list of places the user liked. A success
    replaces the list exactly as returned, with no approval filter; a failure
    only toasts. */
module Liked {
  import opened Net
  import opened Model

  /** The toast of a completed `loadLikedPlaces`, if any. */
  function LikedToast(o: Outcome<PlaceResponse>): (t: Option<Toast>)
    ensures t == None <==> Succeeded(ListOutcome(o))
    ensures o.Transport? ==> t == Some(ErrorToast(o.message))
    ensures !o.Transport? && t.Some? ==> t == Some(Say("Failed to load liked places"))
  {
    if Succeeded(ListOutcome(o)) then None
    else if o.Transport? then Some(ErrorToast(o.message))
    else Some(Say("Failed to load liked places"))
  }

  class LikedScreen {
    var places: seq<Place>
    var noPlacesVisible: bool
    var refreshing: bool

    constructor ()
      ensures places == [] && !refreshing
    {
      places, noPlacesVisible, refreshing := [], false, false;
    }

    /** `loadLikedPlaces` up to the request. */
    method StartLoad()
      modifies this`refreshing
      ensures refreshing
    {
      refreshing := true;
    }

    /** The completion of `loadLikedPlaces`. */
    method CompleteLoad(o: Outcome<PlaceResponse>) returns (toast: Option<Toast>)
      modifies this
      ensures places == Refreshed(ListOutcome(o), old(places))
      ensures Succeeded(ListOutcome(o)) ==> (noPlacesVisible <==> places == [])
      ensures !Succeeded(ListOutcome(o)) ==> noPlacesVisible == old(noPlacesVisible)
      ensures toast == LikedToast(o)
      ensures !refreshing
    {
      var e := ListOutcome(o);
      if Succeeded(e) {
        places := Payload(e).GetOr([]);
        noPlacesVisible := places == [];
      }
      toast := LikedToast(o);
      refreshing := false;
    }
  }

  /** Liked places are shown as returned, unapproved ones included. */
  lemma {:induction false} LikedShowsUnapproved(code: nat, p: Place, before: seq<Place>)
    requires !p.isApproved
    ensures var o := Ok2xx(code, Some(PlaceResponse(true, None, Some([p]), None, None)));
      Refreshed(ListOutcome(o), before) == [p]
  {
  }
}
