/**
 * The password-change form of the account settings page
 * (src/components/AccountSettingsForm.jsx): the checks `handleSubmit` runs before the
 * request, the message it shows for each outcome of the request, the reset of the
 * three password fields, and `isFormValid`, which enables the submit button.
 */
module AccountSettings {
  import opened Common

  const MinPasswordLength := 8
  const SuccessStatus := "success"

  const TooShort := "New password must be at least 8 characters long."
  const Mismatch := "New password and confirmation password do not match."
  const LogInAgain := " Please log in again with your new password."
  const UpdateFailed := "Password update failed."
  const WrongCurrentMarker := "Invalid current password"
  const WrongCurrentFriendly := "The current password you provided is incorrect."
  const UnknownNetworkError := "An unknown network error occurred."

  datatype MessageKind = Success | Error

  /** The message shown above the form. */
  datatype Message = Message(kind: MessageKind, text: string)

  /** How `changePassword` ended: a result object, or a thrown error with its message. */
  datatype Outcome =
    | Resolved(status: string, message: Option<string>)
    | Threw(errorMessage: string)

  /** The request `changePassword(oldPassword, newPassword)` sends. */
  datatype ChangeRequest = ChangeRequest(oldPassword: string, newPassword: string)

  /** The result reports success. */
  predicate Succeeded(outcome: Outcome) {
    outcome.Resolved? && outcome.status == SuccessStatus
  }

  /** The frontend checks of `handleSubmit`: length first, then the confirmation. */
  function ValidationError(newPassword: string, confirmPassword: string): (r: Option<string>)
    ensures r.None? <==> |newPassword| >= MinPasswordLength && newPassword == confirmPassword
    ensures |newPassword| < MinPasswordLength ==> r == Some(TooShort)
    ensures |newPassword| >= MinPasswordLength && newPassword != confirmPassword ==> r == Some(Mismatch)
  {
    if |newPassword| < MinPasswordLength then Some(TooShort)
    else if newPassword != confirmPassword then Some(Mismatch)
    else None
  }

  /** JavaScript's `String(x)` of an optional string in a concatenation. */
  function JsText(s: Option<string>): string {
    if s.Some? then s.value else "undefined"
  }

  /** The text for a thrown error: the friendly override, the error's message, or the fallback. */
  function FriendlyError(errorMessage: string): (r: string)
    ensures Contains(errorMessage, WrongCurrentMarker) ==> r == WrongCurrentFriendly
    ensures !Contains(errorMessage, WrongCurrentMarker) && errorMessage != "" ==> r == errorMessage
    ensures errorMessage == "" ==> r == UnknownNetworkError
    ensures r != ""
  {
    if Contains(errorMessage, WrongCurrentMarker) then WrongCurrentFriendly
    else if errorMessage != "" then errorMessage
    else UnknownNetworkError
  }

  /** The message shown once the request has ended. */
  function ResultMessage(outcome: Outcome): (r: Message)
    ensures r.kind == Success <==> Succeeded(outcome)
    ensures Succeeded(outcome) ==> r.text == JsText(outcome.message) + LogInAgain
    ensures outcome.Resolved? && !Succeeded(outcome) ==>
      r.text == (if TruthyText(outcome.message) then outcome.message.value else UpdateFailed)
    ensures outcome.Threw? ==> r.text == FriendlyError(outcome.errorMessage)
    ensures r.text != ""
  {
    match outcome
    case Resolved(status, message) =>
      if status == SuccessStatus then Message(Success, JsText(message) + LogInAgain)
      else Message(Error, if message.Some? && message.value != "" then message.value else UpdateFailed)
    case Threw(errorMessage) => Message(Error, FriendlyError(errorMessage))
  }

  /** `isFormValid`: every field filled in, new equal to confirmation, profile loaded. */
  function IsFormValid(oldPassword: string, newPassword: string, confirmPassword: string, isProfileLoading: bool): (r: bool)
    ensures r <==>
      && oldPassword != "" && newPassword != "" && confirmPassword != ""
      && newPassword == confirmPassword && !isProfileLoading
  {
    if oldPassword == "" then false
    else if newPassword == "" then false
    else if confirmPassword == "" then false
    else newPassword == confirmPassword && !isProfileLoading
  }

  /** A form that passes the submit checks, with the current password given, has its button enabled. */
  lemma AcceptedFormIsValid(oldPassword: string, newPassword: string, confirmPassword: string)
    requires oldPassword != ""
    requires ValidationError(newPassword, confirmPassword).None?
    ensures IsFormValid(oldPassword, newPassword, confirmPassword, false)
  {
  }

  /** The button is enabled for a short new password; the submit check then rejects it. */
  lemma ShortPasswordPassesButtonNotSubmit()
    ensures IsFormValid("old", "short", "short", false)
    ensures ValidationError("short", "short") == Some(TooShort)
  {
  }

  /** A server message naming the wrong current password is always replaced. */
  lemma WrongCurrentPasswordIsFriendly(prefix: string, suffix: string)
    ensures FriendlyError(prefix + WrongCurrentMarker + suffix) == WrongCurrentFriendly
  {
    var s := prefix + WrongCurrentMarker + suffix;
    assert s[|prefix|..|prefix| + |WrongCurrentMarker|] == WrongCurrentMarker;
    OccursContains(s, WrongCurrentMarker, |prefix|);
  }

  /** The form's state. */
  class AccountSettingsForm {
    var oldPassword: string
    var newPassword: string
    var confirmPassword: string
    var isProfileLoading: bool
    var isLoading: bool
    var message: Option<Message>

    constructor ()
      ensures oldPassword == "" && newPassword == "" && confirmPassword == ""
      ensures isProfileLoading && !isLoading && message.None?
    {
      oldPassword, newPassword, confirmPassword := "", "", "";
      isProfileLoading, isLoading, message := true, false, None;
    }

    /**
     * `handleSubmit`, with `outcome` standing for how the request ends. Returns the
     * request sent, `None` when the form was rejected before any request.
     */
    method HandleSubmit(outcome: Outcome) returns (sent: Option<ChangeRequest>)
      modifies this
      ensures isProfileLoading == old(isProfileLoading)
      // rejected by the checks: the message says why, no request, nothing cleared
      ensures ValidationError(old(newPassword), old(confirmPassword)).Some? ==>
        && sent.None? && isLoading == old(isLoading)
        && message == Some(Message(Error, ValidationError(old(newPassword), old(confirmPassword)).value))
        && oldPassword == old(oldPassword) && newPassword == old(newPassword)
        && confirmPassword == old(confirmPassword)
      // otherwise the request carries the current and new password, and the outcome's message shows
      ensures ValidationError(old(newPassword), old(confirmPassword)).None? ==>
        && sent == Some(ChangeRequest(old(oldPassword), old(newPassword))) && !isLoading
        && message == Some(ResultMessage(outcome))
      // success clears all three fields; any failure keeps them
      ensures ValidationError(old(newPassword), old(confirmPassword)).None? && Succeeded(outcome) ==>
        oldPassword == "" && newPassword == "" && confirmPassword == ""
      ensures ValidationError(old(newPassword), old(confirmPassword)).None? && !Succeeded(outcome) ==>
        && oldPassword == old(oldPassword) && newPassword == old(newPassword)
        && confirmPassword == old(confirmPassword)
    {
      message := None;
      if |newPassword| < MinPasswordLength {
        message := Some(Message(Error, TooShort));
        return None;
      }
      if newPassword != confirmPassword {
        message := Some(Message(Error, Mismatch));
        return None;
      }
      isLoading := true;
      sent := Some(ChangeRequest(oldPassword, newPassword));
      match outcome {
        case Resolved(status, resultMessage) =>
          if status == SuccessStatus {
            message := Some(Message(Success, JsText(resultMessage) + LogInAgain));
            oldPassword, newPassword, confirmPassword := "", "", "";
          } else {
            message := Some(Message(Error, if TruthyText(resultMessage) then resultMessage.value else UpdateFailed));
          }
        case Threw(errorMessage) =>
          var errorText := if Contains(errorMessage, WrongCurrentMarker) then WrongCurrentFriendly
            else if errorMessage != "" then errorMessage else UnknownNetworkError;
          message := Some(Message(Error, errorText));
      }
      isLoading := false;
    }
  }
}
