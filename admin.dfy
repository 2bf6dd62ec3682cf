/** The administrator's moderation screen: the pending list with its counter,
    approval with its body-sniffing success test, and deletion. */
module Admin {
  import opened Text
  import opened Net
  import opened Model

  const JsonSuccessTrue := "\"success\":true"

  /** Whether a 2xx approve response counts as approved. `raw` is
      `response.body()?.string()?.trim()`. The body is never searched for
      "error", and the lower-case test for "success" also accepts
      `{"success":false}`. */
  predicate ApproveAccepted(raw: Option<string>) {
    || raw == None || raw.value == []
    || Contains(raw.value, JsonSuccessTrue)
    || Contains(Lower(raw.value), "approved")
    || Contains(Lower(raw.value), "success")
  }

  /** A lower-case word found in a text is found in the text lowercased. */
  lemma LowerKeepsLowercaseOccurrence(s: string, word: string, i: nat)
    requires OccursAt(s, word, i)
    requires forall j :: 0 <= j < |word| ==> LowerChar(word[j]) == word[j]
    ensures OccursAt(Lower(s), word, i)
  {
    assert Lower(s)[i..i + |word|] == word by {
      forall j | 0 <= j < |word| ensures Lower(s)[i..i + |word|][j] == word[j] {
        assert s[i..i + |word|][j] == word[j];
      }
    }
  }

  /** The exact JSON test is subsumed by the lower-case "success" test: the
      approve decision is "empty, or mentions approved/success in any case". */
  lemma {:induction false} ApproveAcceptedIff(raw: Option<string>)
    ensures ApproveAccepted(raw) <==>
      raw == None || raw.value == [] ||
      Contains(Lower(raw.value), "approved") || Contains(Lower(raw.value), "success")
  {
    if raw != None && Contains(raw.value, JsonSuccessTrue) {
      var s := raw.value;
      var i :| 0 <= i <= |s| - |JsonSuccessTrue| && OccursAt(s, JsonSuccessTrue, i);
      assert OccursAt(s, "success", i + 1) by {
        var t := s[i..i + |JsonSuccessTrue|];
        assert t == JsonSuccessTrue && JsonSuccessTrue[1..8] == "success";
        forall j | 0 <= j < 7 ensures s[i + 1..i + 8][j] == "success"[j] {
          assert s[i + 1..i + 8][j] == t[1 + j];
        }
      }
      LowerKeepsLowercaseOccurrence(s, "success", i + 1);
    }
  }

  /** A JSON body reporting failure is still taken for an approval. */
  lemma SuccessFalseIsAccepted()
    ensures ApproveAccepted(Some("{\"success\":false}"))
  {
    var s := "{\"success\":false}";
    assert OccursAt(s, "success", 2) by {
      forall j | 0 <= j < 7 ensures s[2..9][j] == "success"[j] {
        assert s[2..9][j] == s[2 + j];
      }
    }
    LowerKeepsLowercaseOccurrence(s, "success", 2);
  }

  /** What `performApprove` does once the call completes: the toast, and
      whether it calls `loadPendingPlaces` again. */
  datatype ApproveEffect = ApproveEffect(toast: Toast, reload: bool)

  function ApproveResult(o: Outcome<string>): (e: ApproveEffect)
    ensures !e.reload <==> (o.Ok2xx? && o.body != None
                            && !ApproveAccepted(Some(Trim(o.body.value)))
                            && StartsWith(Trim(o.body.value), "{"))
  {
    match o
    case Ok2xx(_, body) =>
      var raw := if body == None then None else Some(Trim(body.value));
      if ApproveAccepted(raw) then ApproveEffect(SayResource("place_approved"), true)
      else if StartsWith(raw.value, "{") then ApproveEffect(Say("Approve failed: " + raw.value), false)
      else ApproveEffect(Say(raw.value), true)
    case Http(code, Unreadable(m)) => ApproveEffect(ErrorToast(m), true)
    case Http(code, errorBody) =>
      var detail := if errorBody.Present? then errorBody.text else "Unknown error";
      ApproveEffect(Say("Failed to approve place: " + Decimal(code) + " - " + detail), true)
    case Transport(m) => ApproveEffect(ErrorToast(m), true)
  }

  /** Every non-2xx response and every exception still reloads the list. */
  lemma ApproveFailuresReload(o: Outcome<string>)
    requires !o.Ok2xx?
    ensures ApproveResult(o).reload
  {
  }

  /** An accepted approval announces itself and reloads. */
  lemma AcceptedApprovalReloads(o: Outcome<string>)
    requires o.Ok2xx? && ApproveAccepted(if o.body == None then None else Some(Trim(o.body.value)))
    ensures ApproveResult(o) == ApproveEffect(SayResource("place_approved"), true)
  {
  }

  /** What `performDelete` does once the call completes. */
  datatype DeleteEffect = DeleteEffect(toast: Toast, reload: bool)

  function DeleteResult(o: Outcome<Envelope<()>>): (e: DeleteEffect)
    ensures e.reload <==> Succeeded(o)
    ensures e.reload ==> e.toast == SayResource("place_deleted")
    ensures o.Transport? ==> e.toast == ErrorToast(o.message)
    ensures !e.reload && !o.Transport? ==> e.toast == Say("Failed to delete place")
  {
    if Succeeded(o) then DeleteEffect(SayResource("place_deleted"), true)
    else if o.Transport? then DeleteEffect(ErrorToast(o.message), false)
    else DeleteEffect(Say("Failed to delete place"), false)
  }

  /** The text of the counter label. */
  function CountLabel(n: nat): string {
    "Pending Approvals: " + Decimal(n)
  }

  /** The toast of a failed `loadPendingPlaces`: the message (or a default)
      followed by the status code; an exception shows its own message. */
  function PendingToast(o: Outcome<PlaceResponse>): (t: Option<Toast>)
    ensures t == None <==> Succeeded(ListOutcome(o))
  {
    match o
    case Transport(m) => Some(ErrorToast(m))
    case Http(code, _) => Some(Say("Failed to load pending places (" + Decimal(code) + ")"))
    case Ok2xx(code, body) =>
      if body.Some? && body.value.success then None
      else
        var message := if body.Some? then body.value.message.GetOr("Failed to load pending places")
                       else "Failed to load pending places";
        Some(Say(message + " (" + Decimal(code) + ")"))
  }

  /** The admin screen's state: the pending list, the counter label, the
      no-places label and the refresh indicator. */
  class AdminScreen {
    var pending: seq<Place>
    var countLabel: string
    var noPlacesVisible: bool
    var refreshing: bool

    /** The counter and the no-places label agree with the list. */
    predicate Consistent()
      reads this
    {
      countLabel == CountLabel(|pending|) && (noPlacesVisible <==> pending == [])
    }

    constructor ()
      ensures pending == [] && !refreshing
    {
      pending, countLabel, noPlacesVisible, refreshing := [], "", false, false;
    }

    /** `loadPendingPlaces` up to the request. */
    method StartLoadPending()
      modifies this`refreshing
      ensures refreshing
    {
      refreshing := true;
    }

    /** The completion of `loadPendingPlaces`: success shows `data`, anything
        else shows an empty list and a zero count. */
    method CompleteLoadPending(o: Outcome<PlaceResponse>) returns (toast: Option<Toast>)
      modifies this
      ensures pending == Refreshed(ListOutcome(o), []) && Consistent()
      ensures toast == PendingToast(o)
      ensures !refreshing
    {
      toast := PendingToast(o);
      pending := Refreshed(ListOutcome(o), []);
      countLabel := CountLabel(|pending|);
      noPlacesVisible := pending == [];
      refreshing := false;
    }

    /** `performApprove` up to the request: the refresh indicator turns on. */
    method StartApprove()
      modifies this`refreshing
      ensures refreshing
    {
      refreshing := true;
    }

    /** The completion of `performApprove`. A reload turns the refresh
        indicator on again; nothing else turns it off, so after an
        "Approve failed" toast it stays on. */
    method CompleteApprove(o: Outcome<string>) returns (toast: Toast, reload: bool)
      modifies this`refreshing
      ensures ApproveEffect(toast, reload) == ApproveResult(o)
      ensures refreshing == (old(refreshing) || reload)
    {
      var effect := ApproveResult(o);
      toast, reload := effect.toast, effect.reload;
      if reload {
        StartLoadPending();
      }
    }

    /** The completion of `performDelete`; a reload turns the indicator on. */
    method CompleteDelete(o: Outcome<Envelope<()>>) returns (toast: Toast, reload: bool)
      modifies this`refreshing
      ensures DeleteEffect(toast, reload) == DeleteResult(o)
      ensures refreshing == (old(refreshing) || reload)
    {
      var effect := DeleteResult(o);
      toast, reload := effect.toast, effect.reload;
      if reload {
        StartLoadPending();
      }
    }
  }
}
