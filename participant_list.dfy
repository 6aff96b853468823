/** The participant list page: the table rows, the id guards of edit and
    delete, and the switch between the table and the embedded editor. */
module ParticipantList {
  import opened Common
  import opened Strings
  import opened Participants

  const InvalidId := "Invalid participant ID"
  const Deleted := "Deleted successfully"
  const DeleteFailed := "Delete failed"
  const FetchFailed := "Failed to fetch participants"

  /** A participant as listed; `id` is the record's `_id`, possibly missing. */
  datatype Participant = Participant(
    id: Option<string>,
    fullName: string,
    email: string,
    phoneNumber: string,
    gender: JsValue,
    bloodGroup: string,
    licenseNumber: string)

  /** `!id` fails for a missing id and for the empty one. */
  predicate IdGiven(id: Option<string>) {
    id.Some? && id.value != ""
  }

  /** `["Male","Female","Other"][p.gender]`: the number 0, 1 or 2, or its
      decimal text, selects a label; any other value shows nothing. */
  function GenderLabel(gender: JsValue): (shown: Option<string>)
    ensures gender.Num? && 0 <= gender.n < 3 ==> shown == Some(GenderLabels[gender.n])
    ensures gender.Str? && gender.s in {"0", "1", "2"} ==> shown.Some?
    ensures gender == NaN || (gender.Num? && !(0 <= gender.n < 3)) ==> shown == None
  {
    match gender
    case Num(n) => if 0 <= n < 3 then Some(GenderLabels[n]) else None
    case Str(s) =>
      if s == "0" then Some(GenderLabels[0])
      else if s == "1" then Some(GenderLabels[1])
      else if s == "2" then Some(GenderLabels[2])
      else None
    case NaN => None
  }

  /** The text of a number indexes the same label as the number. */
  lemma GenderLabelTextAgrees(n: nat)
    requires n < 3
    ensures GenderLabel(Str(DecimalString(n))) == GenderLabel(Num(n))
  {
    assert DecimalString(n) == [DigitChar(n)];
  }

  function DigitChar(n: nat): char
    requires n < 10
  {
    ('0' as int + n) as char
  }

  /** One table row. */
  datatype Row = Row(serial: nat, fullName: string, email: string, phoneNumber: string,
                     gender: Option<string>, bloodGroup: string, licenseNumber: string)

  function RowOf(index: nat, p: Participant): (r: Row)
    ensures r.serial == index + 1 && r.gender == GenderLabel(p.gender)
    ensures r.fullName == p.fullName && r.email == p.email && r.phoneNumber == p.phoneNumber
    ensures r.bloodGroup == p.bloodGroup && r.licenseNumber == p.licenseNumber
  {
    Row(index + 1, p.fullName, p.email, p.phoneNumber, GenderLabel(p.gender), p.bloodGroup, p.licenseNumber)
  }

  /** `participants.map((p, idx) => ...)`. */
  function Rows(ps: seq<Participant>): (r: seq<Row>)
    ensures |r| == |ps|
    ensures forall i :: 0 <= i < |ps| ==> r[i] == RowOf(i, ps[i])
  {
    seq(|ps|, i requires 0 <= i < |ps| => RowOf(i, ps[i]))
  }

  /** The serial numbers run 1, 2, ..., n down the table: the first row's is
      1, each row's is one more than the previous row's, so no two rows share
      one and the last row's is the number of participants. */
  lemma SerialsAreOneToN(ps: seq<Participant>)
    ensures |ps| > 0 ==> Rows(ps)[0].serial == 1 && Rows(ps)[|ps| - 1].serial == |ps|
    ensures forall i :: 0 < i < |ps| ==> Rows(ps)[i].serial == Rows(ps)[i - 1].serial + 1
    ensures forall i, j :: 0 <= i < j < |ps| ==> Rows(ps)[i].serial < Rows(ps)[j].serial
  {
  }

  /** What the page renders: the table, or the editor for one participant. */
  datatype View = Table | Editor(id: Option<string>)

  class ParticipantListPage {
    var participants: seq<Participant>
    var snackbar: Snackbar
    var showEdit: bool
    var editParticipantId: Option<string>

    /** The editor is only ever opened for a given id. */
    predicate Valid()
      reads this
    {
      showEdit ==> IdGiven(editParticipantId)
    }

    constructor ()
      ensures Valid()
      ensures participants == [] && !snackbar.open && !showEdit && editParticipantId == None
    {
      participants := [];
      snackbar := ClosedSnackbar(Info);
      showEdit := false;
      editParticipantId := None;
    }

    function View(): (v: View)
      reads this
      ensures v.Editor? <==> showEdit
      ensures v.Editor? ==> v.id == editParticipantId
    {
      if showEdit then Editor(editParticipantId) else Table
    }

    /** `fetchParticipants`. */
    method ApplyFetch(outcome: Response<seq<Participant>>)
      modifies this
      ensures outcome.Ok? ==> participants == outcome.data && snackbar == old(snackbar)
      ensures outcome.Failed? ==> participants == old(participants)
                                  && snackbar == Show(ErrorText(outcome.message, FetchFailed), Error)
      ensures showEdit == old(showEdit) && editParticipantId == old(editParticipantId)
    {
      match outcome
      case Ok(data) =>
        participants := data;
      case Failed(message) =>
        snackbar := Show(ErrorText(message, FetchFailed), Error);
    }

    /** `handleEdit(id)`. */
    method HandleEdit(id: Option<string>)
      requires Valid()
      modifies this
      ensures Valid()
      ensures !IdGiven(id) ==> showEdit == old(showEdit) && editParticipantId == old(editParticipantId)
                               && snackbar == Show(InvalidId, Warning)
      ensures IdGiven(id) ==> showEdit && editParticipantId == id && View() == Editor(id) && snackbar == old(snackbar)
      ensures participants == old(participants)
    {
      if !IdGiven(id) {
        snackbar := Show(InvalidId, Warning);
        return;
      }
      editParticipantId := id;
      showEdit := true;
    }

    /** `handleDelete(id)`: returns whether the delete request was sent. A
        successful delete refetches the list; the refetch's failure notice
        replaces the success notice. */
    method HandleDelete(id: Option<string>, outcome: Response<()>, refetch: Response<seq<Participant>>)
      returns (requested: bool)
      requires Valid()
      modifies this
      ensures Valid()
      ensures requested <==> IdGiven(id)
      ensures !requested ==> participants == old(participants) && snackbar == Show(InvalidId, Warning)
      ensures requested && outcome.Failed? ==>
                participants == old(participants) && snackbar == Show(ErrorText(outcome.message, DeleteFailed), Error)
      ensures requested && outcome.Ok? && refetch.Ok? ==> participants == refetch.data && snackbar == Show(Deleted, Success)
      ensures requested && outcome.Ok? && refetch.Failed? ==>
                participants == old(participants) && snackbar == Show(ErrorText(refetch.message, FetchFailed), Error)
      ensures showEdit == old(showEdit) && editParticipantId == old(editParticipantId)
    {
      if !IdGiven(id) {
        snackbar := Show(InvalidId, Warning);
        return false;
      }
      requested := true;
      match outcome
      case Ok(_) =>
        snackbar := Show(Deleted, Success);
        ApplyFetch(refetch);
      case Failed(message) =>
        snackbar := Show(ErrorText(message, DeleteFailed), Error);
    }

    /** The editor's `onClose`: back to the table, and the list is refetched. */
    method CloseEditor(refetch: Response<seq<Participant>>)
      requires Valid()
      modifies this
      ensures Valid()
      ensures !showEdit && View() == Table && editParticipantId == old(editParticipantId)
      ensures refetch.Ok? ==> participants == refetch.data && snackbar == old(snackbar)
      ensures refetch.Failed? ==> participants == old(participants)
                                  && snackbar == Show(ErrorText(refetch.message, FetchFailed), Error)
    {
      showEdit := false;
      ApplyFetch(refetch);
    }
  }
}
