/**
 * The add/edit user dialog (src/components/UserEditModal.jsx): the form's initial data
 * and the checks `handleFormSubmit` runs before handing the form to `onSave`.
 */
module UserEditModal {
  import opened Common

  /** The roles the dialog offers. */
  const LimitedRoles: seq<string> := ["Admin", "User"]
  const DefaultRole := "User"
  const MinPasswordLength := 8

  const DetailsMissing := "Please fill in all user details."
  const NewPasswordTooShort := "New user must have a password of at least 8 characters."
  const PasswordsDiffer := "Passwords do not match."
  const SaveFailed := "Error saving user data."

  /** The `userToEdit` object; a missing property is `None`. */
  datatype UserToEdit = UserToEdit(
    id: Option<int>, firstname: Option<string>, lastname: Option<string>,
    username: Option<string>, role: Option<string>)

  /** The dialog's `formData`. */
  datatype FormData = FormData(
    id: Option<int>, firstname: string, lastname: string, username: string, role: string,
    password: string, confirmPassword: string, availableRoles: seq<string>)

  /** `value || fallback` for an optional string. */
  function OrElse(s: Option<string>, fallback: string): (r: string)
    ensures TruthyText(s) ==> r == s.value
    ensures !TruthyText(s) ==> r == fallback
  {
    if s.Some? && s.value != "" then s.value else fallback
  }

  /** The initial `formData`, with `userToEdit` (`None` when adding a user). */
  function InitialFormData(userToEdit: Option<UserToEdit>): (r: FormData)
    ensures r.password == "" && r.confirmPassword == "" && r.availableRoles == LimitedRoles
    // adding: empty fields, role 'User', no id
    ensures userToEdit.None? ==>
      r.id.None? && r.firstname == "" && r.lastname == "" && r.username == "" && r.role == DefaultRole
    // editing: every present, non-empty field of the user is taken over
    ensures userToEdit.Some? ==>
      && (TruthyText(userToEdit.value.firstname) ==> r.firstname == userToEdit.value.firstname.value)
      && (TruthyText(userToEdit.value.lastname) ==> r.lastname == userToEdit.value.lastname.value)
      && (TruthyText(userToEdit.value.username) ==> r.username == userToEdit.value.username.value)
      && (TruthyText(userToEdit.value.role) ==> r.role == userToEdit.value.role.value)
    // and a missing or empty one falls back to '' for the names and 'User' for the role
    ensures userToEdit.Some? ==>
      && (!TruthyText(userToEdit.value.firstname) ==> r.firstname == "")
      && (!TruthyText(userToEdit.value.lastname) ==> r.lastname == "")
      && (!TruthyText(userToEdit.value.username) ==> r.username == "")
      && (!TruthyText(userToEdit.value.role) ==> r.role == DefaultRole)
      && (TruthyInt(userToEdit.value.id) <==> r.id.Some?)
      && (r.id.Some? ==> r.id == userToEdit.value.id)
    // the role is never empty, so the details check never fails on it for a fresh dialog
    ensures r.role != ""
  {
    match userToEdit
    case None =>
      FormData(None, "", "", "", DefaultRole, "", "", LimitedRoles)
    case Some(u) =>
      FormData(if u.id.Some? && u.id.value != 0 then u.id else None,
               OrElse(u.firstname, ""), OrElse(u.lastname, ""), OrElse(u.username, ""),
               OrElse(u.role, DefaultRole), "", "", LimitedRoles)
  }

  /** What a submission does: a message and nothing saved, or `onSave(formData)`. */
  datatype SubmitOutcome = Rejected(message: string) | Saved(form: FormData)

  /** All four detail fields are filled in. */
  predicate DetailsFilled(f: FormData) {
    f.firstname != "" && f.lastname != "" && f.username != "" && f.role != ""
  }

  /** The password is long enough: any password when editing, 8 characters or more when adding. */
  predicate PasswordLongEnough(f: FormData, isEditing: bool) {
    isEditing || |f.password| >= MinPasswordLength
  }

  /** `handleFormSubmit`: the checks in order details, length, match; the first failure wins. */
  function HandleFormSubmit(f: FormData, isEditing: bool): (r: SubmitOutcome)
    ensures r == Rejected(DetailsMissing) <==> !DetailsFilled(f)
    ensures r == Rejected(NewPasswordTooShort) <==> DetailsFilled(f) && !PasswordLongEnough(f, isEditing)
    ensures r == Rejected(PasswordsDiffer) <==>
      DetailsFilled(f) && PasswordLongEnough(f, isEditing) && f.password != f.confirmPassword
    ensures r.Saved? <==>
      DetailsFilled(f) && PasswordLongEnough(f, isEditing) && f.password == f.confirmPassword
    // the form is handed on unchanged
    ensures r.Saved? ==> r.form == f
  {
    if f.firstname == "" || f.lastname == "" || f.username == "" || f.role == "" then
      Rejected(DetailsMissing)
    else if !isEditing && (f.password == "" || |f.password| < MinPasswordLength) then
      Rejected(NewPasswordTooShort)
    else if f.password != f.confirmPassword then
      Rejected(PasswordsDiffer)
    else
      Saved(f)
  }

  /** The message shown when `onSave` fails: its message, or the fixed fallback. */
  function SaveErrorMessage(errMessage: Option<string>): (r: string)
    ensures r != ""
    ensures TruthyText(errMessage) ==> r == errMessage.value
    ensures !TruthyText(errMessage) ==> r == SaveFailed
  {
    OrElse(errMessage, SaveFailed)
  }

  /** A new user is saved only with a matching password of at least 8 characters. */
  lemma SavedNewUserHasStrongPassword(f: FormData)
    requires HandleFormSubmit(f, false).Saved?
    ensures |HandleFormSubmit(f, false).form.password| >= MinPasswordLength
    ensures HandleFormSubmit(f, false).form.password == f.confirmPassword
  {
  }

  /**
   * Editing with both password fields left empty saves the details: an empty password
   * passes when editing, and a short non-empty one is not length-checked either.
   */
  lemma EditingSkipsLengthCheck(f: FormData)
    requires DetailsFilled(f) && f.password == f.confirmPassword
    ensures HandleFormSubmit(f, true) == Saved(f)
  {
  }

  /** Opening the dialog for a user with all fields set and submitting unchanged saves it. */
  lemma FreshEditFormIsSaved(u: UserToEdit)
    requires TruthyText(u.firstname) && TruthyText(u.lastname) && TruthyText(u.username)
    ensures HandleFormSubmit(InitialFormData(Some(u)), true) == Saved(InitialFormData(Some(u)))
  {
  }

  /** A fresh add-user dialog is rejected until its details are filled in. */
  lemma FreshAddFormIsRejected()
    ensures HandleFormSubmit(InitialFormData(None), false) == Rejected(DetailsMissing)
  {
  }
}
