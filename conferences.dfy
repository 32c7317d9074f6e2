/** The public conference page: registering for the selected conference takes
    two requests (create the attendee, then register it to the conference), and
    a seat is taken only when both succeed. */
module Conferences {
  import opened Common
  import opened Text
  import opened ConferenceSeats

  /** The `disabled` condition of the register button. */
  predicate RegisterDisabled(capacity: int, name: string, email: string, successMessage: string)
  {
    capacity == 0 || Blank(name) || Blank(email) || successMessage != ""
  }

  /** The condition under which the button is drawn as active. */
  predicate LooksActive(capacity: int, name: string, email: string)
  {
    capacity > 0 && !Blank(name) && !Blank(email)
  }

  /** An enabled button always passes the handler's blank-field check; a button
      drawn as active is enabled unless a success message shows; and a button
      is enabled while drawn as inactive exactly when the capacity is negative,
      because `disabled` tests `capacity === 0` and the style `capacity > 0`. */
  lemma ButtonConditions(capacity: int, name: string, email: string, successMessage: string)
    ensures !RegisterDisabled(capacity, name, email, successMessage) ==> !Blank(name) && !Blank(email)
    ensures LooksActive(capacity, name, email) && successMessage == "" ==> !RegisterDisabled(capacity, name, email, successMessage)
    ensures !RegisterDisabled(capacity, name, email, successMessage) && !LooksActive(capacity, name, email)
            <==> capacity < 0 && !Blank(name) && !Blank(email) && successMessage == ""
  {
  }

  /** The two requests of a registration. */
  datatype Request =
    | CreateAttendee(name: string, email: string)
    | RegisterToConference(attendeeId: Option<int>, conferenceId: int)

  class ConferencePage {
    var conferences: seq<Conference>
    var selectedConference: Option<Conference>
    var attendeeName: string
    var attendeeEmail: string
    var formError: string
    var successMessage: string

    constructor (loaded: seq<Conference>)
      ensures conferences == loaded && selectedConference == None
      ensures attendeeName == "" && attendeeEmail == "" && formError == "" && successMessage == ""
    {
      conferences := loaded;
      selectedConference := None;
      attendeeName := "";
      attendeeEmail := "";
      formError := "";
      successMessage := "";
    }

    /** registerForConference. `attendeeOk`/`attendeeId` are the answer of the
        attendee creation and `registerOk` that of the registration; the second
        request is made only after the first succeeded, and the seat is taken,
        the success message shown and the fields cleared only when both did. */
    method Register(attendeeOk: bool, attendeeId: Option<int>, registerOk: bool) returns (requests: seq<Request>)
      modifies this
      ensures old(selectedConference) == None ==> requests == [] && conferences == old(conferences) && formError == old(formError)
      ensures old(selectedConference).Some? && (Blank(old(attendeeName)) || Blank(old(attendeeEmail)))
        ==> requests == [] && conferences == old(conferences) && formError == RequiredMessage
      ensures requests == [] ==>
        && selectedConference == old(selectedConference)
        && attendeeName == old(attendeeName) && attendeeEmail == old(attendeeEmail)
        && successMessage == old(successMessage)
      ensures old(selectedConference).Some? && !Blank(old(attendeeName)) && !Blank(old(attendeeEmail)) ==>
        var c := old(selectedConference).value;
        && requests == (if attendeeOk then [CreateAttendee(old(attendeeName), old(attendeeEmail)), RegisterToConference(attendeeId, c.id)]
                        else [CreateAttendee(old(attendeeName), old(attendeeEmail))])
        && (attendeeOk && registerOk ==>
              && conferences == TakeSeat(old(conferences), c.id)
              && selectedConference == Some(c.(capacity := c.capacity - 1))
              && attendeeName == "" && attendeeEmail == "" && formError == "" && successMessage == SuccessMessage)
        && (!(attendeeOk && registerOk) ==>
              && conferences == old(conferences) && selectedConference == old(selectedConference)
              && attendeeName == old(attendeeName) && attendeeEmail == old(attendeeEmail)
              && formError == FailureMessage && successMessage == old(successMessage))
    {
      requests := [];
      if selectedConference == None {
        return;
      }
      if Trim(attendeeName) == "" || Trim(attendeeEmail) == "" {
        formError := RequiredMessage;
        return;
      }
      formError := "";
      var c := selectedConference.value;
      requests := [CreateAttendee(attendeeName, attendeeEmail)];
      if !attendeeOk {
        formError := FailureMessage;
        return;
      }
      requests := requests + [RegisterToConference(attendeeId, c.id)];
      if !registerOk {
        formError := FailureMessage;
        return;
      }
      successMessage := SuccessMessage;
      formError := "";
      conferences := TakeSeat(conferences, c.id);
      selectedConference := Some(c.(capacity := c.capacity - 1));
      attendeeName := "";
      attendeeEmail := "";
    }
  }
}
