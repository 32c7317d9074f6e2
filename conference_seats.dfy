/** What the two conference pages share: the conference record, the seat taken
    by a successful registration, and the blank-field guard with its messages. */
module ConferenceSeats {
  import opened Common
  import opened Text

  /** A conference; the speaker fields are filled only on the administration page. */
  datatype Conference = Conference(
    id: int, title: string, summary: string, dateTime: string, link: string, capacity: int,
    speakerId: Option<int>, speakerName: Option<string>)

  const RequiredMessage: string := "El nombre y el correo electrónico son obligatorios."
  const FailureMessage: string := "Hubo un problema al registrarse."
  const SuccessMessage: string := "¡Te has registrado exitosamente!"

  /** `!s.trim()`. */
  predicate Blank(s: string)
  {
    Trim(s) == ""
  }

  /** `conferences.map(c => c.id === id ? {...c, capacity: c.capacity - 1} : c)`. */
  function TakeSeat(conferences: seq<Conference>, id: int): (r: seq<Conference>)
    ensures |r| == |conferences|
  {
    seq(|conferences|, i requires 0 <= i < |conferences| =>
      if conferences[i].id == id then conferences[i].(capacity := conferences[i].capacity - 1) else conferences[i])
  }

  /** Only the conferences with that id change, each losing exactly one seat and
      keeping everything else; the others keep their place and value. */
  lemma TakeSeatOnlyMatching(conferences: seq<Conference>, id: int)
    ensures forall i :: 0 <= i < |conferences| && conferences[i].id != id ==> TakeSeat(conferences, id)[i] == conferences[i]
    ensures forall i :: 0 <= i < |conferences| && conferences[i].id == id ==>
      && TakeSeat(conferences, id)[i].capacity == conferences[i].capacity - 1
      && TakeSeat(conferences, id)[i].(capacity := conferences[i].capacity) == conferences[i]
  {
  }

  /** How many conferences carry the id. */
  function CountId(conferences: seq<Conference>, id: int): nat
  {
    if conferences == [] then 0
    else CountId(conferences[..|conferences| - 1], id) + (if conferences[|conferences| - 1].id == id then 1 else 0)
  }

  function TotalCapacity(conferences: seq<Conference>): int
  {
    if conferences == [] then 0
    else TotalCapacity(conferences[..|conferences| - 1]) + conferences[|conferences| - 1].capacity
  }

  /** A registration takes one seat per conference carrying the id: exactly one
      seat in all when the id is held once, none when it is absent. */
  lemma {:induction false} TakeSeatTotal(conferences: seq<Conference>, id: int)
    ensures TotalCapacity(TakeSeat(conferences, id)) == TotalCapacity(conferences) - CountId(conferences, id)
  {
    if conferences != [] {
      var n := |conferences|;
      assert TakeSeat(conferences, id)[..n - 1] == TakeSeat(conferences[..n - 1], id);
      TakeSeatTotal(conferences[..n - 1], id);
    }
  }
}
