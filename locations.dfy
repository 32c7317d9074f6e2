/** The storage-location page: creation guarded by a non-blank code, with the
    code sent upper-cased; updates mirrored into the list from the local copy;
    deletion by id. */
module Locations {
  import opened Common
  import opened Text

  datatype Location = Location(id: int, locationCode: string)

  /** The code box is refused when it is blank after trimming. */
  predicate AddRefused(code: string)
  {
    Trim(code) == ""
  }

  /** The code sent on creation or update: the text upper-cased, but not trimmed. */
  function SentCode(code: string): (r: string)
    ensures |r| == |code|
    ensures forall i :: 0 <= i < |code| ==> r[i] == UpperChar(code[i])
  {
    Upper(code)
  }

  /** What is sent is what was typed, only upper-cased: surrounding blanks are
      kept, and a text of upper-case letters is sent unchanged. */
  lemma SentCodeExamples()
    ensures SentCode(" a1 ") == " A1 "
    ensures !AddRefused(" a1 ")
    ensures AddRefused("  ")
    ensures SentCode("B2") == "B2"
  {
    assert Trim("  ") == "" by {
      assert TrimStart("  ") == TrimStart(" ") == TrimStart("") == "";
      assert TrimEnd("") == "";
    }
    assert Trim(" a1 ") == "a1" by {
      assert TrimStart(" a1 ") == TrimStart("a1 ") == "a1 ";
      assert TrimEnd("a1 ") == "a1";
    }
  }

  /** `locations.filter(l => l.id !== id)`. */
  function DeleteById(locations: seq<Location>, id: int): (r: seq<Location>)
    ensures |r| <= |locations|
    ensures forall l :: l in r <==> l in locations && l.id != id
  {
    if locations == [] then []
    else (if locations[0].id != id then [locations[0]] else []) + DeleteById(locations[1..], id)
  }

  /** Deleting an id the list lacks changes nothing. */
  lemma {:induction false} DeleteAbsent(locations: seq<Location>, id: int)
    requires forall l :: l in locations ==> l.id != id
    ensures DeleteById(locations, id) == locations
  {
    if locations != [] {
      DeleteAbsent(locations[1..], id);
    }
  }

  /** Deleting twice is deleting once. */
  lemma DeleteIdempotent(locations: seq<Location>, id: int)
    ensures DeleteById(DeleteById(locations, id), id) == DeleteById(locations, id)
  {
    DeleteAbsent(DeleteById(locations, id), id);
  }

  /** `locations.map(l => l.id === x.id ? x : l)`. */
  function ReplaceById(locations: seq<Location>, x: Location): (r: seq<Location>)
    ensures |r| == |locations|
  {
    seq(|locations|, i requires 0 <= i < |locations| => if locations[i].id == x.id then x else locations[i])
  }

  /** Only the locations with the edited id change, and they take the edited
      copy; ids are kept everywhere. */
  lemma ReplaceOnlyMatching(locations: seq<Location>, x: Location)
    ensures forall i :: 0 <= i < |locations| && locations[i].id != x.id ==> ReplaceById(locations, x)[i] == locations[i]
    ensures forall i :: 0 <= i < |locations| && locations[i].id == x.id ==> ReplaceById(locations, x)[i] == x
    ensures forall i :: 0 <= i < |locations| ==> ReplaceById(locations, x)[i].id == locations[i].id
  {
  }

  /** After an update the list holds the code as typed while the server got it
      upper-cased, so the two can differ until the page reloads. */
  lemma UpdateKeepsTypedCode()
    ensures var x := Location(3, "a1");
      && ReplaceById([Location(3, "A0"), Location(4, "B0")], x) == [x, Location(4, "B0")]
      && SentCode(x.locationCode) == "A1"
      && x.locationCode != SentCode(x.locationCode)
  {
  }

  class LocationList {
    var locations: seq<Location>
    var selectedLocation: Option<Location>
    var newLocationCode: string
    var showAddModal: bool
    var deleteLocationId: Option<int>

    constructor (loaded: seq<Location>)
      ensures locations == loaded && selectedLocation == None && newLocationCode == ""
      ensures !showAddModal && deleteLocationId == None
    {
      locations := loaded;
      selectedLocation := None;
      newLocationCode := "";
      showAddModal := false;
      deleteLocationId := None;
    }

    /** handleAddLocation: a blank code is refused with an alert and nothing is
        sent; otherwise the upper-cased code is sent, and on success the location
        the server returns is appended, the modal closes and the box clears. */
    method Add(postOk: bool, created: Location) returns (sent: Option<string>, alerted: bool)
      modifies this
      ensures AddRefused(old(newLocationCode)) ==> sent == None && alerted
      ensures !AddRefused(old(newLocationCode)) ==> sent == Some(SentCode(old(newLocationCode))) && alerted == !postOk
      ensures !AddRefused(old(newLocationCode)) && postOk
        ==> locations == old(locations) + [created] && !showAddModal && newLocationCode == ""
      ensures AddRefused(old(newLocationCode)) || !postOk
        ==> locations == old(locations) && showAddModal == old(showAddModal) && newLocationCode == old(newLocationCode)
      ensures selectedLocation == old(selectedLocation) && deleteLocationId == old(deleteLocationId)
    {
      if Trim(newLocationCode) == "" {
        return None, true;
      }
      sent := Some(Upper(newLocationCode));
      alerted := !postOk;
      if postOk {
        locations := locations + [created];
        showAddModal := false;
        newLocationCode := "";
      }
    }

    /** handleUpdateLocation: the upper-cased code is sent, but the list takes the
        local copy as typed. A failed request raises an alert. */
    method Update(putOk: bool) returns (sent: Option<Location>, alerted: bool)
      modifies this
      ensures old(selectedLocation) == None ==> sent == None
      ensures old(selectedLocation).Some? ==>
        var x := old(selectedLocation).value;
        sent == Some(Location(x.id, SentCode(x.locationCode)))
      ensures old(selectedLocation).Some? && putOk
        ==> locations == ReplaceById(old(locations), old(selectedLocation).value) && selectedLocation == None
      ensures old(selectedLocation) == None || !putOk
        ==> locations == old(locations) && selectedLocation == old(selectedLocation)
      ensures alerted <==> old(selectedLocation).Some? && !putOk
      ensures newLocationCode == old(newLocationCode) && deleteLocationId == old(deleteLocationId)
      ensures showAddModal == old(showAddModal)
    {
      if selectedLocation == None {
        return None, false;
      }
      var x := selectedLocation.value;
      sent := Some(Location(x.id, Upper(x.locationCode)));
      alerted := !putOk;
      if putOk {
        locations := ReplaceById(locations, x);
        selectedLocation := None;
      }
    }

    /** handleDeleteLocation: an id of 0 counts as none; a failed request raises an alert. */
    method Delete(deleteOk: bool) returns (alerted: bool)
      modifies this
      ensures old(deleteLocationId) in {None, Some(0)} || !deleteOk
        ==> locations == old(locations) && deleteLocationId == old(deleteLocationId)
      ensures old(deleteLocationId).Some? && old(deleteLocationId) != Some(0) && deleteOk
        ==> locations == DeleteById(old(locations), old(deleteLocationId).value) && deleteLocationId == None
      ensures alerted <==> old(deleteLocationId) !in {None, Some(0)} && !deleteOk
      ensures selectedLocation == old(selectedLocation) && newLocationCode == old(newLocationCode)
      ensures showAddModal == old(showAddModal)
    {
      if deleteLocationId == None || deleteLocationId == Some(0) {
        return false;
      }
      alerted := !deleteOk;
      if deleteOk {
        locations := DeleteById(locations, deleteLocationId.value);
        deleteLocationId := None;
      }
    }
  }
}
