/**
 * The administration panel for attendance accounts: the account form, its
 * reset and its loading from an existing account, and the submit step that
 * validates the form and builds the row written to the database. The write
 * itself is outside the model; its outcome is a parameter of `AfterWrite`.
 */
module UsersPanel {
  import opened Basics
  import opened Text

  /** An account as the panel lists it. */
  datatype PanelUser = PanelUser(
    id: string, username: string, name: string, role: string, isActive: bool,
    permissions: map<string, bool>, createdAt: string, lastLogin: Option<string>)

  datatype UserForm = UserForm(
    username: string, name: string, password: string, role: string, isActive: bool,
    permissions: map<string, bool>)

  /** The panel's state: the form, the account being edited (none when creating), and whether the form is open. */
  datatype PanelState = PanelState(form: UserForm, editing: Option<PanelUser>, showModal: bool)

  /** The permissions of the form as first built, before any reset: seven flags. */
  const InitialPermissions: map<string, bool> := map[
    "can_chat" := true, "can_view_orders" := true, "can_print_orders" := true,
    "can_update_status" := true, "can_create_manual_orders" := false,
    "can_view_tables" := false, "can_view_history" := false]

  /** The permissions `resetForm` puts back: twelve flags. */
  const ResetPermissions: map<string, bool> := map[
    "can_chat" := true, "can_view_orders" := true, "can_print_orders" := true,
    "can_update_status" := true, "can_create_manual_orders" := false,
    "can_view_tables" := false, "can_view_history" := false,
    "can_view_expected_balance" := false, "can_view_cash_balance" := true,
    "can_view_cash_details" := false, "can_view_sales_totals" := false,
    "can_view_cash_entries" := false]

  /** The flags the reset form has and the first form lacks. */
  const ResetOnlyFlags: set<string> :=
    {"can_view_expected_balance", "can_view_cash_balance", "can_view_cash_details", "can_view_sales_totals", "can_view_cash_entries"}

  const InitialPanel := PanelState(UserForm("", "", "", "attendant", true, InitialPermissions), None, false)

  /** `resetForm`: empty texts, the attendant role, active, the reset permissions, and no account being edited. */
  function ResetForm(s: PanelState): (r: PanelState)
    ensures r.form.username == [] && r.form.name == [] && r.form.password == []
    ensures r.form.role == "attendant" && r.form.isActive
    ensures r.form.permissions == ResetPermissions
    ensures r.editing.None? && r.showModal == s.showModal
  {
    PanelState(UserForm("", "", "", "attendant", true, ResetPermissions), None, s.showModal)
  }

  /** `handleCreate`: a reset form, opened for a new account; submitting it untouched is refused. */
  function HandleCreate(s: PanelState): (r: PanelState)
    ensures r.showModal && r.editing.None?
    ensures r.form == ResetForm(s).form && r.form.permissions == ResetPermissions
    ensures HandleSubmit(r) == Err(MissingRequiredFields)
  {
    var r := ResetForm(s).(showModal := true);
    assert IsBlank(r.form.username);
    r
  }

  /** `handleEdit`: the account's fields with an empty password, the account marked as being edited, the form open. */
  function HandleEdit(u: PanelUser): (r: PanelState)
    ensures r.form.username == u.username && r.form.name == u.name && r.form.role == u.role
    ensures r.form.isActive == u.isActive && r.form.permissions == u.permissions
    ensures r.form.password == []
    ensures r.editing == Some(u) && r.showModal
  {
    PanelState(UserForm(u.username, u.name, "", u.role, u.isActive, u.permissions), Some(u), true)
  }

  /** One permission checkbox: that flag takes the box's value, the others keep theirs. */
  function SetPermission(s: PanelState, flag: string, checked: bool): (r: PanelState)
    ensures flag in r.form.permissions && r.form.permissions[flag] == checked
    ensures forall k :: k != flag ==> (k in r.form.permissions <==> k in s.form.permissions)
    ensures forall k :: k != flag && k in s.form.permissions ==> r.form.permissions[k] == s.form.permissions[k]
    ensures r.form.(permissions := s.form.permissions) == s.form
    ensures r.editing == s.editing && r.showModal == s.showModal
  {
    s.(form := s.form.(permissions := s.form.permissions[flag := checked]))
  }

  datatype SubmitError = MissingRequiredFields | PasswordRequired

  /** The row sent to the database: an update of an existing account, or an insert. */
  datatype Write =
    | UpdateRow(id: string, username: string, name: string, role: string, isActive: bool,
                permissions: map<string, bool>, newPasswordHash: Option<string>)
    | InsertRow(username: string, name: string, passwordHash: string, role: string, isActive: bool,
                permissions: map<string, bool>)

  /**
   * `handleSubmit` up to the database call. A blank username or name stops
   * it; editing writes the form's fields and a new password only when one
   * that is not blank was typed; creating needs a password that is not blank.
   * The fields are written exactly as typed, untrimmed.
   */
  function HandleSubmit(s: PanelState): (r: Result<Write, SubmitError>)
    ensures r == Err(MissingRequiredFields) <==> IsBlank(s.form.username) || IsBlank(s.form.name)
    ensures r == Err(PasswordRequired) <==>
              !IsBlank(s.form.username) && !IsBlank(s.form.name) && s.editing.None? && IsBlank(s.form.password)
    ensures r.Ok? && s.editing.Some? ==>
              r.value == UpdateRow(s.editing.value.id, s.form.username, s.form.name, s.form.role, s.form.isActive,
                                   s.form.permissions, if IsBlank(s.form.password) then None else Some(s.form.password))
    ensures r.Ok? && s.editing.None? ==>
              r.value == InsertRow(s.form.username, s.form.name, s.form.password, s.form.role, s.form.isActive,
                                   s.form.permissions)
  {
    var f := s.form;
    if IsBlank(f.username) || IsBlank(f.name) then Err(MissingRequiredFields)
    else match s.editing
      case Some(u) =>
        Ok(UpdateRow(u.id, f.username, f.name, f.role, f.isActive, f.permissions,
                     if IsBlank(f.password) then None else Some(f.password)))
      case None =>
        if IsBlank(f.password) then Err(PasswordRequired)
        else Ok(InsertRow(f.username, f.name, f.password, f.role, f.isActive, f.permissions))
  }

  /** After the write: on success the form closes and is reset; on failure everything stays as it was. */
  function AfterWrite(s: PanelState, succeeded: bool): (r: PanelState)
    ensures succeeded ==> !r.showModal && r.editing.None? && r.form == ResetForm(s).form
    ensures !succeeded ==> r == s
  {
    if succeeded then ResetForm(s.(showModal := false)) else s
  }

  // ---- proofs ----

  /** Re-submitting an account loaded for editing without touching the form writes back its own fields and no password. */
  lemma EditRoundTrip(u: PanelUser)
    ensures !IsBlank(u.username) && !IsBlank(u.name) ==>
              HandleSubmit(HandleEdit(u)) == Ok(UpdateRow(u.id, u.username, u.name, u.role, u.isActive, u.permissions, None))
  {
    assert IsBlank(HandleEdit(u).form.password);
  }

  /** A freshly reset form cannot be submitted: its username is blank. */
  lemma ResetFormRejected(s: PanelState)
    ensures HandleSubmit(ResetForm(s)) == Err(MissingRequiredFields)
  {
    assert IsBlank(ResetForm(s).form.username);
  }

  /** A password of spaces is never written: it is refused on creation and ignored on edit. */
  lemma BlankPasswordNeverWritten(s: PanelState)
    requires IsBlank(s.form.password)
    ensures HandleSubmit(s).Ok? ==> HandleSubmit(s).value.UpdateRow? && HandleSubmit(s).value.newPasswordHash.None?
  {
  }

  /** A submitted password is written as typed, surrounding spaces included. */
  lemma PasswordWrittenVerbatim(s: PanelState)
    ensures !IsBlank(s.form.password) && HandleSubmit(s).Ok? && HandleSubmit(s).value.UpdateRow? ==>
              HandleSubmit(s).value.newPasswordHash == Some(s.form.password)
    ensures !IsBlank(s.form.password) && HandleSubmit(s).Ok? && HandleSubmit(s).value.InsertRow? ==>
              HandleSubmit(s).value.passwordHash == s.form.password
  {
  }

  /** Whether a submission updates or inserts is decided by the account being edited alone. */
  lemma WriteKindFollowsEditing(s: PanelState)
    ensures HandleSubmit(s).Ok? ==> (HandleSubmit(s).value.UpdateRow? <==> s.editing.Some?)
  {
  }

  /** The reset form carries the five flags the first form lacks, and agrees with it on the seven they share. */
  lemma ResetExtendsInitial()
    ensures InitialPanel.form.permissions == InitialPermissions
    ensures forall k :: k in InitialPanel.form.permissions ==> k in ResetPermissions && ResetPermissions[k] == InitialPanel.form.permissions[k]
    ensures forall k :: k in ResetPermissions && k !in InitialPanel.form.permissions <==> k in ResetOnlyFlags
  {
  }

  /** Reset is idempotent. */
  lemma ResetIdempotent(s: PanelState)
    ensures ResetForm(ResetForm(s)) == ResetForm(s)
  {
  }
}
