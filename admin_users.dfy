/**
 * The admin-user panel: flattening the joined hospital name, the insert and
 * update payloads, loading a user into the form and the hospital label.
 */
module AdminUsers {
  import opened Wrappers
  import Store

  /** The hospital columns joined onto an admin-user row. */
  datatype HospitalJoin = HospitalJoin(hospitalName: string)

  /** A row of admin_users as fetched, with its optional hospital join. */
  datatype AdminUserRow = AdminUserRow(
    id: Store.Id, email: string, fullName: string, role: string,
    isActive: bool, hospitalId: string, hospitals: Option<HospitalJoin>)

  /** `{ ...user, hospital_name: user.hospitals?.hospital_name }`. */
  datatype AdminUser = AdminUser(row: AdminUserRow, hospitalName: Option<string>)

  datatype AdminForm = AdminForm(email: string, fullName: string, hospitalId: string, isActive: bool)

  /** The inserted row: the form and a role. */
  datatype NewAdmin = NewAdmin(email: string, fullName: string, hospitalId: string, isActive: bool, role: string)

  /** The update patch: exactly four columns, so an update cannot touch the role. */
  datatype AdminPatch = AdminPatch(email: string, fullName: string, hospitalId: string, isActive: bool)

  type AdminWrite = Store.Write<NewAdmin, AdminPatch>

  const AdminRole := "admin"
  const NotAssigned := "Not assigned"
  const BlankForm := AdminForm("", "", "", true)

  function JoinedName(row: AdminUserRow): Option<string>
  {
    if row.hospitals.Some? then Some(row.hospitals.value.hospitalName) else None
  }

  /** `data?.map(...) || []`: every fetched row with its joined hospital name beside it. */
  function Flatten(data: Option<seq<AdminUserRow>>): (users: seq<AdminUser>)
    ensures data.None? ==> users == []
    ensures data.Some? ==> |users| == |data.value|
    ensures data.Some? ==> forall i :: 0 <= i < |users| ==>
              users[i].row == data.value[i] && users[i].hospitalName == JoinedName(data.value[i])
  {
    match data
    case None => []
    case Some(rows) => FlattenRows(rows)
  }

  function FlattenRows(rows: seq<AdminUserRow>): (users: seq<AdminUser>)
    ensures |users| == |rows|
    ensures forall i :: 0 <= i < |rows| ==> users[i].row == rows[i] && users[i].hospitalName == JoinedName(rows[i])
  {
    if rows == [] then [] else [AdminUser(rows[0], JoinedName(rows[0]))] + FlattenRows(rows[1..])
  }

  /** `user.hospital_name || 'Not assigned'`: the hospital label of a user card. */
  function HospitalLabel(u: AdminUser): (shown: string)
    ensures u.hospitalName.None? || u.hospitalName == Some("") ==> shown == NotAssigned
    ensures u.hospitalName.Some? && u.hospitalName.value != "" ==> shown == u.hospitalName.value
  {
    if u.hospitalName.Some? && u.hospitalName.value != "" then u.hospitalName.value else NotAssigned
  }

  /** A flattened user is labelled "Not assigned" when its row has no hospital join. */
  lemma UnjoinedUserNotAssigned(rows: seq<AdminUserRow>, i: nat)
    requires i < |rows| && rows[i].hospitals.None?
    ensures HospitalLabel(Flatten(Some(rows))[i]) == NotAssigned
  {
  }

  /**
   * `handleSubmit`'s write: an update of the edited user with exactly email,
   * name, hospital and active flag, or an insert of those with role 'admin'.
   */
  function SubmitWrite(form: AdminForm, editing: Option<AdminUser>): (w: AdminWrite)
    ensures w.Update? <==> editing.Some?
    ensures w.Update? ==> w.key == editing.value.row.id
    ensures w.Update? ==> w.patch == AdminPatch(form.email, form.fullName, form.hospitalId, form.isActive)
    ensures w.Insert? ==> w.row.role == AdminRole
    ensures w.Insert? ==> w.row.(role := "") == NewAdmin(form.email, form.fullName, form.hospitalId, form.isActive, "")
    ensures !w.Delete?
  {
    if editing.Some? then
      Store.Update(editing.value.row.id, AdminPatch(form.email, form.fullName, form.hospitalId, form.isActive))
    else
      Store.Insert(NewAdmin(form.email, form.fullName, form.hospitalId, form.isActive, AdminRole))
  }

  /** `handleEdit(u)`'s form: the four editable columns of the user. */
  function FormOf(u: AdminUser): AdminForm
  {
    AdminForm(u.row.email, u.row.fullName, u.row.hospitalId, u.row.isActive)
  }

  /**
   * Editing a user and submitting the form untouched patches that user with
   * its own four values; creating from the blank form inserts an active
   * admin with empty fields.
   */
  lemma SubmitRoundTrips(u: AdminUser)
    ensures SubmitWrite(FormOf(u), Some(u))
         == Store.Update(u.row.id, AdminPatch(u.row.email, u.row.fullName, u.row.hospitalId, u.row.isActive))
    ensures SubmitWrite(BlankForm, None) == Store.Insert(NewAdmin("", "", "", true, AdminRole))
  {
  }

  /** The React state of the panel that the handlers update. */
  class AdminUsersPanel {
    var users: seq<AdminUser>
    var form: AdminForm
    var editing: Option<AdminUser>
    var showModal: bool

    constructor ()
      ensures users == [] && form == BlankForm && editing == None && !showModal
    {
      users := [];
      form := BlankForm;
      editing := None;
      showModal := false;
    }

    /** `fetchAdminUsers`: on success the list becomes the flattened rows; on error it is kept. */
    method FetchAdminUsers(response: Result<Option<seq<AdminUserRow>>, string>)
      modifies this`users
      ensures response.Success? ==> users == Flatten(response.value)
      ensures response.Failure? ==> users == old(users)
    {
      if response.Success? {
        users := Flatten(response.value);
      }
    }

    /** `resetForm`. */
    method ResetForm()
      modifies this`form
      ensures form == BlankForm
    {
      form := BlankForm;
    }

    /** `handleEdit(u)`. */
    method HandleEdit(u: AdminUser)
      modifies this`form, this`editing, this`showModal
      ensures form == FormOf(u) && editing == Some(u) && showModal
    {
      editing := Some(u);
      form := FormOf(u);
      showModal := true;
    }

    /** `handleSubmit`: only a store success closes the modal, forgets the user and resets the form. */
    method HandleSubmit(storeFailed: bool) returns (w: AdminWrite)
      modifies this`form, this`editing, this`showModal
      ensures w == SubmitWrite(old(form), old(editing))
      ensures storeFailed ==> form == old(form) && editing == old(editing) && showModal == old(showModal)
      ensures !storeFailed ==> form == BlankForm && editing == None && !showModal
    {
      w := SubmitWrite(form, editing);
      if !storeFailed {
        showModal := false;
        editing := None;
        ResetForm();
      }
    }

    /** The Cancel button. */
    method Cancel()
      modifies this`form, this`editing, this`showModal
      ensures form == BlankForm && editing == None && !showModal
    {
      showModal := false;
      editing := None;
      ResetForm();
    }
  }
}
