/** MyPlacesActivity: the places the user added. The screen keeps its own
    mutable `places` list, cleared and refilled on success; the adapter is
    handed the list only when it is not empty. */
module MyPlaces {
  import opened Net
  import opened Model

  /** The toast of a completed `loadMyPlaces`, if any. */
  function MyPlacesToast(o: Outcome<PlaceResponse>): (t: Option<Toast>)
    ensures t == None <==> Succeeded(ListOutcome(o))
    ensures o.Transport? ==> t == Some(ErrorToast(o.message))
    ensures !o.Transport? && t.Some? ==>
      t == Some(Say(BodyMessage(ListOutcome(o)).GetOr("Failed to load places")))
  {
    var e := ListOutcome(o);
    if Succeeded(e) then None
    else if o.Transport? then Some(ErrorToast(o.message))
    else Some(Say(BodyMessage(e).GetOr("Failed to load places")))
  }

  class MyPlacesScreen {
    var places: seq<Place>
    var adapterItems: seq<Place>
    var emptyStateVisible: bool
    var progressVisible: bool
    var refreshing: bool

    constructor ()
      ensures places == [] && adapterItems == [] && !progressVisible && !refreshing
    {
      places, adapterItems := [], [];
      emptyStateVisible, progressVisible, refreshing := false, false, false;
    }

    /** `loadMyPlaces` up to the request; a pull to refresh also turns the
        refresh indicator on. */
    method StartLoad(pulled: bool)
      modifies this`progressVisible, this`refreshing
      ensures progressVisible && refreshing == (old(refreshing) || pulled)
    {
      progressVisible := true;
      if pulled {
        refreshing := true;
      }
    }

    /** The completion of `loadMyPlaces`. On success the list is cleared and
        refilled; an empty result shows the empty state and leaves the
        adapter with what it had. */
    method CompleteLoad(o: Outcome<PlaceResponse>) returns (toast: Option<Toast>)
      modifies this
      ensures places == Refreshed(ListOutcome(o), old(places))
      ensures Succeeded(ListOutcome(o)) && places == [] ==>
        emptyStateVisible && adapterItems == old(adapterItems)
      ensures Succeeded(ListOutcome(o)) && places != [] ==>
        !emptyStateVisible && adapterItems == places
      ensures !Succeeded(ListOutcome(o)) ==>
        adapterItems == old(adapterItems) && emptyStateVisible == old(emptyStateVisible)
      ensures toast == MyPlacesToast(o)
      ensures !progressVisible && !refreshing
    {
      var e := ListOutcome(o);
      if Succeeded(e) {
        places := [];
        if Payload(e).Some? {
          places := places + Payload(e).value;
        }
        if places == [] {
          emptyStateVisible := true;
        } else {
          emptyStateVisible := false;
          adapterItems := places;
        }
      }
      toast := MyPlacesToast(o);
      progressVisible := false;
      refreshing := false;
    }
  }
}
