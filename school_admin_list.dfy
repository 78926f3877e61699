/**
 * The super administrator's list of school administrators
 * (components/SchoolAdminList.tsx): the empty notice or the table, the row
 * whose delete is in flight, the delete handler, and the edit dialog it opens.
 * The delete handler is modelled as its part before the `await` (BeginDelete)
 * and its part after (FinishDelete).
 */
module SchoolAdminList {
  import opened Wrappers
  import opened Types
  import opened Http
  import opened Navigation
  import JsText
  import Submission

  const DeletedText := "School admin deleted successfully!"
  const DeleteFailedText := "Failed to delete school admin"
  const MissingText := "N/A"

  /** One table row: its delete button and the phone column. */
  datatype Row = Row(id: string, deleteDisabled: bool, deleteLabel: string, phone: string)

  datatype View = EmptyNotice | Table(rows: seq<Row>)

  /** A row's delete button is disabled, and reads "Deleting...", exactly while that account's delete is in flight. */
  function RowFor(admin: SchoolAdminAccount, isDeleting: Option<string>): (row: Row)
    ensures row.id == admin.id
    ensures row.deleteDisabled <==> isDeleting == Some(admin.id)
    ensures row.deleteLabel == (if row.deleteDisabled then "Deleting..." else "Delete")
    ensures row.phone == JsText.Or(admin.phone, MissingText)
  {
    var busy := isDeleting == Some(admin.id);
    Row(admin.id, busy, if busy then "Deleting..." else "Delete", JsText.Or(admin.phone, MissingText))
  }

  /** No accounts: the notice; otherwise one row per account, in list order. */
  function Render(admins: seq<SchoolAdminAccount>, isDeleting: Option<string>): (v: View)
    ensures v.EmptyNotice? <==> admins == []
    ensures v.Table? ==> |v.rows| == |admins| && forall i :: 0 <= i < |admins| ==> v.rows[i] == RowFor(admins[i], isDeleting)
  {
    if admins == [] then EmptyNotice else Table(seq(|admins|, i requires 0 <= i < |admins| => RowFor(admins[i], isDeleting)))
  }

  /** With distinct ids, at most one row's delete button is disabled, and none when nothing is being deleted. */
  lemma AtMostOneRowDeleting(admins: seq<SchoolAdminAccount>, isDeleting: Option<string>)
    requires admins != []
    requires forall i, j :: 0 <= i < j < |admins| ==> admins[i].id != admins[j].id
    ensures forall i, j ::
              (0 <= i < |admins| && 0 <= j < |admins| &&
               Render(admins, isDeleting).rows[i].deleteDisabled && Render(admins, isDeleting).rows[j].deleteDisabled) ==> i == j
    ensures isDeleting.None? ==> forall i :: 0 <= i < |admins| ==> !Render(admins, isDeleting).rows[i].deleteDisabled
  {
    var rows := Render(admins, isDeleting).rows;
    forall i, j | 0 <= i < |admins| && 0 <= j < |admins| && rows[i].deleteDisabled && rows[j].deleteDisabled
      ensures i == j
    {
      assert admins[i].id == isDeleting.value == admins[j].id;
    }
  }

  /** The delete's outcome: no 401 handling; an exception blames the connection. */
  function DeleteOutcome(r: Response<()>): (o: Submission.Outcome)
    ensures o == Submission.Saved <==> Succeeded(r)
    ensures o != Submission.SignInAgain
    ensures r.Threw? ==> o == Submission.Failed(DeleteFailedText + Submission.ConnectionSuffix)
    ensures r.Response? && !IsOk(r.status) ==> o == Submission.Failed(JsText.Or(r.message, DeleteFailedText))
  {
    Submission.Classify(r, DeleteFailedText, false, DeleteFailedText + Submission.ConnectionSuffix)
  }

  class List {
    var editing: Option<SchoolAdminAccount>
    var isDeleting: Option<string>

    constructor ()
      ensures editing == None && isDeleting == None
    {
      editing, isDeleting := None, None;
    }

    /**
     * The delete button: a declined confirmation changes nothing; otherwise
     * the row is marked and the request is sent, with whatever token there
     * is (the handler does not test it).
     */
    method BeginDelete(adminId: string, confirmed: bool) returns (sent: bool)
      modifies this
      ensures sent == confirmed
      ensures isDeleting == (if confirmed then Some(adminId) else old(isDeleting))
      ensures editing == old(editing)
    {
      sent := confirmed;
      if confirmed {
        isDeleting := Some(adminId);
      }
    }

    /** The response arrives: success alerts and refreshes the list, failure alerts; the mark is cleared either way. */
    method FinishDelete(r: Response<()>) returns (effects: seq<Effect>)
      modifies this
      ensures isDeleting == None && editing == old(editing)
      ensures Succeeded(r) ==> effects == [Alert(DeletedText), NotifySuccess]
      ensures !Succeeded(r) ==> effects == [Alert(DeleteOutcome(r).text)]
    {
      var outcome := DeleteOutcome(r);
      if outcome == Submission.Saved {
        effects := [Alert(DeletedText), NotifySuccess];
      } else {
        effects := [Alert(outcome.text)];
      }
      isDeleting := None;
    }

    /** The Edit button opens the dialog for that account. */
    method StartEdit(admin: SchoolAdminAccount)
      modifies this
      ensures editing == Some(admin) && isDeleting == old(isDeleting)
    {
      editing := Some(admin);
    }

    /** The dialog closing (`setOpen`) drops the account. */
    method CloseEdit()
      modifies this
      ensures editing == None && isDeleting == old(isDeleting)
    {
      editing := None;
    }

    /** The dialog's `onSuccess`: refresh the list, then drop the account. */
    method EditSaved() returns (effects: seq<Effect>)
      modifies this
      ensures effects == [NotifySuccess] && editing == None && isDeleting == old(isDeleting)
    {
      effects := [NotifySuccess];
      editing := None;
    }
  }

  /**
   * Two deletes started before either finishes share one marker: the first
   * to finish clears it while the other request is still in flight, so the
   * second row's button is enabled again too early.
   */
  method OverlappingDeletes(first: SchoolAdminAccount, second: SchoolAdminAccount, r: Response<()>)
    returns (secondRow: Row)
    ensures !secondRow.deleteDisabled && secondRow.deleteLabel == "Delete"
  {
    var list := new List();
    var sentFirst := list.BeginDelete(first.id, true);
    var sentSecond := list.BeginDelete(second.id, true);
    var effects := list.FinishDelete(r);
    secondRow := RowFor(second, list.isDeleting);
  }
}
