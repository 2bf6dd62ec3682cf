/** The decisions ReviewsAdapter makes while binding a review: who sees the
    delete button, and how the date and the star rating are written. */
module ReviewCard {
  import opened Text
  import opened Net
  import opened Model
  import Session

  /** The delete button is shown only to the review's author. */
  predicate DeleteVisible(review: Review, currentUserId: string) {
    review.user.id == currentUserId
  }

  /** The `currentUserId` the details screen hands the adapter when it is
      created: the stored user id, or "" when there is none. */
  function ViewerId(prefs: map<string, Session.Pref>): (id: string)
    requires Session.WellTyped(prefs)
    ensures Session.KeyUserId !in prefs ==> id == []
    ensures Session.KeyUserId in prefs ==> prefs[Session.KeyUserId] == Session.Str(id)
  {
    Session.GetString(prefs, Session.KeyUserId).GetOr("")
  }

  /** After a login the delete button is shown on the user's own reviews and
      on no other. */
  lemma {:induction false} LoggedInSeesOwnDeletes(prefs: map<string, Session.Pref>, token: string, userId: string,
                                                  name: string, email: string, role: string, review: Review)
    requires Session.WellTyped(prefs)
    ensures DeleteVisible(review, ViewerId(Session.Saved(prefs, token, userId, name, email, role)))
            <==> review.user.id == userId
  {
    var after := Session.Saved(prefs, token, userId, name, email, role);
    assert after[Session.KeyUserId] == Session.Str(userId);
  }

  /** After a logout the viewer id is "", so no review with an author id
      shows the delete button; a review whose author id is empty would. */
  lemma {:induction false} LoggedOutSeesNoDeletes(prefs: map<string, Session.Pref>, review: Review)
    ensures DeleteVisible(review, ViewerId(Session.Cleared(prefs))) <==> review.user.id == []
  {
    assert Session.KeyUserId in Session.StringKeys;
  }

  /** `formatDate`: `substring(0, 10)`, which throws on a shorter string and
      then falls back to the whole string. */
  function FormatDate(date: string): (r: string)
    ensures |date| >= 10 ==> |r| == 10
    ensures |date| < 10 ==> r == date
    ensures StartsWith(date, r)
  {
    if |date| >= 10 then date[..10] else date
  }

  /** Formatting an already formatted date changes nothing. */
  lemma FormatDateIdempotent(date: string)
    ensures FormatDate(FormatDate(date)) == FormatDate(date)
  {
  }

  /** The star character used for ratings. */
  const Star: char := '⭐'

  /** `"⭐".repeat(review.rating)`; `repeat` throws on a negative count, so the
      rating must not be negative. */
  function Stars(rating: int): (r: string)
    requires rating >= 0
    ensures |r| == rating
    ensures forall i :: 0 <= i < |r| ==> r[i] == Star
  {
    Repeat(Star, rating)
  }

  /** One more star for one more rating point. */
  lemma {:induction false} StarsGrow(rating: nat)
    ensures Stars(rating + 1) == Stars(rating) + [Star]
  {
    assert Stars(rating + 1)[..rating] == Stars(rating);
  }
}
