/** The conference administration page: each conference is shown with its
    speaker's name, the attendee list is exported as CSV text, conferences are
    deleted after a confirmation, and a registration takes one seat. */
module AdminConferences {
  import opened Common
  import opened Text
  import opened ConferenceSeats

  // ---------------------------------------------------------------------------
  // Speakers

  datatype Speaker = Speaker(id: int, name: string)

  /** `speakers.find(s => s.id === id)`: the first speaker with that id. */
  function FindSpeaker(speakers: seq<Speaker>, id: Option<int>): (r: Option<Speaker>)
    ensures r.Some? ==> r.value in speakers && Some(r.value.id) == id
    ensures r.None? ==> forall s :: s in speakers ==> Some(s.id) != id
    ensures r.Some? ==> exists i :: 0 <= i < |speakers| && speakers[i] == r.value
                                    && forall j :: 0 <= j < i ==> Some(speakers[j].id) != id
  {
    if speakers == [] then None
    else if Some(speakers[0].id) == id then Some(speakers[0])
    else FindSpeaker(speakers[1..], id)
  }

  predicate HasSpeaker(c: Conference, speakers: seq<Speaker>)
  {
    FindSpeaker(speakers, c.speakerId).Some?
  }

  /** The loading effect's `map`: a conference whose speaker is missing makes
      `speaker.name` throw, so the whole list fails (`None`). */
  function JoinSpeakers(conferences: seq<Conference>, speakers: seq<Speaker>): Option<seq<Conference>>
  {
    if conferences == [] then Some([])
    else
      match FindSpeaker(speakers, conferences[0].speakerId)
      case None => None
      case Some(s) =>
        match JoinSpeakers(conferences[1..], speakers)
        case None => None
        case Some(rest) => Some([conferences[0].(speakerName := Some(s.name))] + rest)
  }

  /** The join succeeds exactly when every conference has a speaker; then it
      keeps the list's order and length and changes each conference only by
      giving it the name of the speaker with its speaker id. */
  lemma {:induction false} JoinSpeakersFacts(conferences: seq<Conference>, speakers: seq<Speaker>)
    ensures JoinSpeakers(conferences, speakers).Some? <==> forall c :: c in conferences ==> HasSpeaker(c, speakers)
    ensures JoinSpeakers(conferences, speakers).Some? ==>
      var r := JoinSpeakers(conferences, speakers).value;
      && |r| == |conferences|
      && forall i :: 0 <= i < |conferences| ==>
           HasSpeaker(conferences[i], speakers) &&
           r[i] == conferences[i].(speakerName := Some(FindSpeaker(speakers, conferences[i].speakerId).value.name))
  {
    if conferences != [] {
      JoinSpeakersFacts(conferences[1..], speakers);
      assert forall c :: c in conferences[1..] ==> c in conferences;
      assert conferences[0] in conferences;
      assert forall c :: c in conferences ==> c == conferences[0] || c in conferences[1..];
    }
  }

  // ---------------------------------------------------------------------------
  // CSV export

  datatype Attendee = Attendee(id: int, name: string, email: string)

  function Digit(d: int): (c: char)
    requires 0 <= d < 10
    ensures '0' <= c <= '9' && DigitValue(c) == d
  {
    ('0' as int + d) as char
  }

  function DigitValue(c: char): int
    requires '0' <= c <= '9'
  {
    c as int - '0' as int
  }

  predicate AllDigits(r: string)
  {
    forall k :: 0 <= k < |r| ==> '0' <= r[k] <= '9'
  }

  /** The number a string of decimal digits denotes, most significant first. */
  function DecimalValue(r: string): nat
    requires AllDigits(r)
  {
    if r == [] then 0 else DecimalValue(r[..|r| - 1]) * 10 + DigitValue(r[|r| - 1])
  }

  /** `${n}` for an integer: its decimal digits, with a minus sign when negative. */
  function IntToString(n: int): (r: string)
    ensures r != []
    ensures forall k :: 0 <= k < |r| ==> r[k] == '-' || '0' <= r[k] <= '9'
  {
    if n < 0 then "-" + NatToString(-n) else NatToString(n)
  }

  function NatToString(n: nat): (r: string)
    ensures r != []
    ensures forall k :: 0 <= k < |r| ==> '0' <= r[k] <= '9'
  {
    if n < 10 then [Digit(n)] else NatToString(n / 10) + [Digit(n % 10)]
  }

  /** The digits of a natural number denote it, with no leading zero. */
  lemma {:induction false} NatToStringValue(n: nat)
    ensures AllDigits(NatToString(n)) && DecimalValue(NatToString(n)) == n
    ensures NatToString(n)[0] == '0' ==> n == 0 && NatToString(n) == "0"
  {
    if n >= 10 {
      var p := NatToString(n / 10);
      NatToStringValue(n / 10);
      assert (p + [Digit(n % 10)])[..|p|] == p;
    }
  }

  /** The text of an integer starts with a minus sign exactly when it is
      negative, and the digits that follow denote its magnitude. */
  lemma IntToStringValue(n: int)
    ensures IntToString(n)[0] == '-' <==> n < 0
    ensures n < 0 ==> var d := IntToString(n)[1..]; AllDigits(d) && DecimalValue(d) == -n
    ensures n >= 0 ==> AllDigits(IntToString(n)) && DecimalValue(IntToString(n)) == n
  {
    if n < 0 {
      NatToStringValue(-n);
      assert IntToString(n)[1..] == NatToString(-n);
    } else {
      NatToStringValue(n);
    }
  }

  const CsvPrefix: string := "data:text/csv;charset=utf-8,"
  const CsvHeader: string := "ID,Nombre,Email\n"

  /** One attendee's line: the id, then the name and the email in double quotes.
      Quotes inside a field are not doubled. */
  function CsvLine(a: Attendee): string
  {
    IntToString(a.id) + ",\"" + a.name + "\",\"" + a.email + "\""
  }

  /** A line and its line feed. */
  function CsvRecord(a: Attendee): string
  {
    CsvLine(a) + "\n"
  }

  /** The attendee lines, each ended by a line feed. */
  function CsvRows(attendees: seq<Attendee>): string
  {
    if attendees == [] then "" else CsvRecord(attendees[0]) + CsvRows(attendees[1..])
  }

  /** The data-URI prefix and the header line. */
  function CsvStart(): string
  {
    CsvPrefix + CsvHeader
  }

  /** The whole text before it is URI-encoded. */
  function CsvContent(attendees: seq<Attendee>): string
  {
    CsvStart() + CsvRows(attendees)
  }

  function CsvLines(attendees: seq<Attendee>): (r: seq<string>)
    ensures |r| == |attendees|
  {
    seq(|attendees|, i requires 0 <= i < |attendees| => CsvLine(attendees[i]))
  }

  /** Appending an attendee appends its line. */
  lemma {:induction false} CsvRowsAppend(attendees: seq<Attendee>, a: Attendee)
    ensures CsvRows(attendees + [a]) == CsvRows(attendees) + CsvRecord(a)
  {
    if attendees == [] {
      assert (attendees + [a])[1..] == [];
      assert CsvRows([a]) == CsvRecord(a) + CsvRows([]);
    } else {
      assert (attendees + [a])[1..] == attendees[1..] + [a];
      CsvRowsAppend(attendees[1..], a);
    }
  }

  /** One more record extends the text built so far to the next prefix of attendees. */
  lemma CsvGrow(start: string, attendees: seq<Attendee>, i: nat, csv: string)
    requires i < |attendees|
    requires csv == start + CsvRows(attendees[..i])
    ensures csv + CsvRecord(attendees[i]) == start + CsvRows(attendees[..i + 1])
  {
    assert attendees[..i + 1] == attendees[..i] + [attendees[i]];
    CsvRowsAppend(attendees[..i], attendees[i]);
    ConcatAssoc(start, CsvRows(attendees[..i]), CsvRecord(attendees[i]));
  }

  lemma ConcatAssoc(a: string, b: string, c: string)
    ensures a + b + c == a + (b + c)
  {
  }

  /** The rows are the lines joined by line feeds, with a final line feed. */
  lemma {:induction false} CsvRowsJoin(attendees: seq<Attendee>)
    ensures CsvRows(attendees) == Join(CsvLines(attendees) + [""], "\n")
  {
    if attendees != [] {
      CsvRowsJoin(attendees[1..]);
      assert (CsvLines(attendees) + [""])[1..] == CsvLines(attendees[1..]) + [""];
    }
  }

  /** A line holds no line feed when the name and the email hold none. */
  lemma CsvLineNoNewline(a: Attendee)
    requires '\n' !in a.name && '\n' !in a.email
    ensures '\n' !in CsvLine(a)
  {
    var id := IntToString(a.id);
    assert '\n' !in id by {
      forall k | 0 <= k < |id| ensures id[k] != '\n' { }
    }
  }

  /** Splitting the rows at line feeds gives back one line per attendee, in
      order, when no name or email holds a line feed. */
  lemma CsvRowsSplit(attendees: seq<Attendee>)
    requires forall a :: a in attendees ==> '\n' !in a.name && '\n' !in a.email
    ensures Split(CsvRows(attendees), '\n') == CsvLines(attendees) + [""]
  {
    CsvRowsJoin(attendees);
    forall p | p in CsvLines(attendees) + [""]
      ensures '\n' !in p
    {
      if p != "" {
        var i :| 0 <= i < |attendees| && p == CsvLine(attendees[i]);
        assert attendees[i] in attendees;
        CsvLineNoNewline(attendees[i]);
      }
    }
    SplitJoin(CsvLines(attendees) + [""], '\n');
  }

  /** The fields of a line split back at the quotes when no name or email holds a quote. */
  lemma CsvLineFields(a: Attendee)
    requires '"' !in a.name && '"' !in a.email
    ensures Split(CsvLine(a), '"') == [IntToString(a.id) + ",", a.name, ",", a.email, ""]
  {
    var id := IntToString(a.id);
    var parts := [id + ",", a.name, ",", a.email, ""];
    assert '"' !in id by {
      forall k | 0 <= k < |id| ensures id[k] != '"' { }
    }
    assert Join(parts[4..], "\"") == "";
    assert Join(parts[3..], "\"") == a.email + "\"";
    assert Join(parts[2..], "\"") == "," + "\"" + a.email + "\"";
    assert Join(parts[1..], "\"") == a.name + "\"" + "," + "\"" + a.email + "\"";
    assert Join(parts, "\"") == CsvLine(a);
    SplitJoin(parts, '"');
  }

  /** A quote inside a name is copied as is instead of being doubled as
      section 2 of RFC 4180 asks, so the line no longer splits back into the
      attendee's fields. */
  lemma CsvLineQuoteNotEscaped()
    ensures CsvLine(Attendee(1, "Ana \"Pepa\"", "a@b.c")) == "1,\"Ana \"Pepa\"\",\"a@b.c\""
    ensures CsvLine(Attendee(1, "Ana \"Pepa\"", "a@b.c")) != "1,\"Ana \"\"Pepa\"\"\",\"a@b.c\""
  {
    assert IntToString(1) == "1";
  }

  datatype CsvFile = CsvFile(fileName: string, content: string)

  /** exportAttendees: `fetchOk`/`attendees` are the answer of the attendee
      request, which lists every attendee; the conference id only names the
      file. Nothing is produced when the request fails or the list is empty. */
  method ExportAttendees(fetchOk: bool, attendees: seq<Attendee>, conferenceId: int)
    returns (file: Option<CsvFile>, alerted: bool)
    ensures file.Some? <==> fetchOk && attendees != []
    ensures alerted <==> file.None?
    ensures file.Some? ==>
      && file.value.content == CsvContent(attendees)
      && file.value.fileName == "Asistentes_Conferencia_" + IntToString(conferenceId) + ".csv"
  {
    if !fetchOk || attendees == [] {
      return None, true;
    }
    var csv := CsvPrefix;
    csv := csv + CsvHeader;
    var i := 0;
    while i < |attendees|
      invariant 0 <= i <= |attendees|
      invariant csv == CsvStart() + CsvRows(attendees[..i])
    {
      CsvGrow(CsvStart(), attendees, i, csv);
      csv := csv + CsvRecord(attendees[i]);
      i := i + 1;
    }
    assert attendees[..i] == attendees;
    file := Some(CsvFile("Asistentes_Conferencia_" + IntToString(conferenceId) + ".csv", csv));
    alerted := false;
  }

  // ---------------------------------------------------------------------------
  // Deletion

  /** `conferences.filter(c => c.id !== id)`. */
  function DeleteById(conferences: seq<Conference>, id: int): (r: seq<Conference>)
    ensures |r| <= |conferences|
    ensures forall c :: c in r <==> c in conferences && c.id != id
  {
    if conferences == [] then []
    else
      var n := |conferences|;
      assert conferences == conferences[..n - 1] + [conferences[n - 1]];
      DeleteById(conferences[..n - 1], id) + (if conferences[n - 1].id != id then [conferences[n - 1]] else [])
  }

  /** Deletion removes exactly as many conferences as carry the id. */
  lemma {:induction false} DeleteCount(conferences: seq<Conference>, id: int)
    ensures |DeleteById(conferences, id)| == |conferences| - CountId(conferences, id)
  {
    if conferences != [] {
      DeleteCount(conferences[..|conferences| - 1], id);
    }
  }

  // ---------------------------------------------------------------------------
  // The page state

  /** The pending deletion: whether the confirmation is open and for which id. */
  datatype DeleteModal = DeleteModal(open: bool, id: Option<int>)

  class AdminConferencePage {
    var conferences: seq<Conference>
    var error: Option<string>
    var selectedConference: Option<Conference>
    var attendeeName: string
    var attendeeEmail: string
    var formError: string
    var successMessage: string
    var deleteModal: DeleteModal

    /** The page after the loading effect: the speakers and then the conferences
        are requested; the list stays empty when a request fails or a
        conference has no speaker. */
    constructor (speakersOk: bool, speakers: seq<Speaker>, conferencesOk: bool, loaded: seq<Conference>)
      ensures speakersOk && conferencesOk && JoinSpeakers(loaded, speakers).Some?
        ==> conferences == JoinSpeakers(loaded, speakers).value && error == None
      ensures !(speakersOk && conferencesOk && JoinSpeakers(loaded, speakers).Some?)
        ==> conferences == [] && error.Some?
      ensures selectedConference == None && attendeeName == "" && attendeeEmail == ""
      ensures formError == "" && successMessage == "" && deleteModal == DeleteModal(false, None)
    {
      conferences := [];
      error := None;
      selectedConference := None;
      attendeeName := "";
      attendeeEmail := "";
      formError := "";
      successMessage := "";
      deleteModal := DeleteModal(false, None);
      if !speakersOk {
        error := Some("Error al cargar los speakers");
      } else if !conferencesOk {
        error := Some("Error al cargar conferencias");
      } else {
        var joined := JoinSpeakers(loaded, speakers);
        if joined.Some? {
          conferences := joined.value;
        } else {
          error := Some("speaker is undefined");
        }
      }
    }

    /** handleDelete: the trash button opens the confirmation for that id. */
    method AskDelete(id: int)
      modifies this
      ensures deleteModal == DeleteModal(true, Some(id))
      ensures conferences == old(conferences) && error == old(error)
      ensures selectedConference == old(selectedConference)
      ensures attendeeName == old(attendeeName) && attendeeEmail == old(attendeeEmail)
      ensures formError == old(formError) && successMessage == old(successMessage)
    {
      deleteModal := DeleteModal(true, Some(id));
    }

    /** confirmDeleteConference: an id of 0 counts as none; a failure leaves the
        list and the confirmation as they were. */
    method ConfirmDelete(deleteOk: bool) returns (alerted: bool)
      modifies this
      ensures old(deleteModal.id) in {None, Some(0)} ==> conferences == old(conferences) && deleteModal == old(deleteModal) && !alerted
      ensures old(deleteModal.id) !in {None, Some(0)} ==>
        && (deleteOk ==> conferences == DeleteById(old(conferences), old(deleteModal.id).value)
                         && deleteModal == DeleteModal(false, None) && !alerted)
        && (!deleteOk ==> conferences == old(conferences) && deleteModal == old(deleteModal) && alerted)
      ensures selectedConference == old(selectedConference) && error == old(error)
      ensures attendeeName == old(attendeeName) && attendeeEmail == old(attendeeEmail)
      ensures formError == old(formError) && successMessage == old(successMessage)
    {
      alerted := false;
      if deleteModal.id == None || deleteModal.id == Some(0) {
        return;
      }
      if deleteOk {
        conferences := DeleteById(conferences, deleteModal.id.value);
        deleteModal := DeleteModal(false, None);
      } else {
        alerted := true;
      }
    }

    /** registerForConference: one request registers the attendee to the
        selected conference; on success that conference, and the selected copy,
        lose one seat and the fields clear. */
    method Register(postOk: bool) returns (sent: bool)
      modifies this
      ensures old(selectedConference) == None ==> !sent && conferences == old(conferences) && formError == old(formError)
      ensures old(selectedConference).Some? && (Blank(old(attendeeName)) || Blank(old(attendeeEmail)))
        ==> !sent && conferences == old(conferences) && formError == RequiredMessage
      ensures !sent ==>
        && selectedConference == old(selectedConference)
        && attendeeName == old(attendeeName) && attendeeEmail == old(attendeeEmail)
        && successMessage == old(successMessage)
      ensures sent <==> old(selectedConference).Some? && !Blank(old(attendeeName)) && !Blank(old(attendeeEmail))
      ensures sent && postOk ==>
        var c := old(selectedConference).value;
        && conferences == TakeSeat(old(conferences), c.id)
        && selectedConference == Some(c.(capacity := c.capacity - 1))
        && attendeeName == "" && attendeeEmail == "" && formError == "" && successMessage == SuccessMessage
      ensures sent && !postOk ==>
        && conferences == old(conferences) && selectedConference == old(selectedConference)
        && attendeeName == old(attendeeName) && attendeeEmail == old(attendeeEmail)
        && formError == FailureMessage && successMessage == old(successMessage)
      ensures deleteModal == old(deleteModal) && error == old(error)
    {
      sent := false;
      if selectedConference == None {
        return;
      }
      if Trim(attendeeName) == "" || Trim(attendeeEmail) == "" {
        formError := RequiredMessage;
        return;
      }
      sent := true;
      formError := "";
      if postOk {
        successMessage := SuccessMessage;
        formError := "";
        var c := selectedConference.value;
        conferences := TakeSeat(conferences, c.id);
        selectedConference := Some(c.(capacity := c.capacity - 1));
        attendeeName := "";
        attendeeEmail := "";
      } else {
        formError := FailureMessage;
      }
    }
  }
}
