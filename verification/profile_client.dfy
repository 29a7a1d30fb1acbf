/** The profile page's password section and avatar initials: a new
    password is checked for length first and for a matching confirmation
    second, and only then handed to the authentication service, whose
    answer is a parameter. The message under the form is shown in green
    when it reports a change and in red otherwise. */
module ProfileClient {
  import opened Common

  const TooShortText := "Minimaal 8 tekens"
  const MismatchText := "Wachtwoorden komen niet overeen"
  const ChangedText := "Wachtwoord gewijzigd!"

  /** The message as displayed: its colour and text. */
  datatype Shown = Hidden | Green(text: string) | Red(text: string)

  /** The display as written: a message is a success when it contains the
      English word "changed", and is then shown as "Password changed!". */
  function ShowMessageAsWritten(message: string): (view: Shown)
    ensures message == "" <==> view == Hidden
    ensures view.Green? <==> message != "" && Contains(message, "changed")
    ensures view.Red? ==> view.text == message
  {
    if message == "" then Hidden
    else if Contains(message, "changed") then Green("Password changed!")
    else Red(message)
  }

  /** The display as evidently intended: the success message the handler
      sets is shown as a success too. */
  function ShowMessage(message: string): (view: Shown)
    ensures message == "" <==> view == Hidden
    ensures view.Green? <==> message != "" && (message == ChangedText || Contains(message, "changed"))
    ensures view.Red? ==> view.text == message
  {
    if message == "" then Hidden
    else if message == ChangedText || Contains(message, "changed") then Green("Password changed!")
    else Red(message)
  }

  /** The handler's success message lacks "changed" (it has no "n"), so
      as written a changed password is reported in red. */
  lemma ChangedShownAsError()
    ensures ShowMessageAsWritten(ChangedText) == Red(ChangedText)
  {
    assert "changed"[3] == 'n';
    NotContainsMissingChar(ChangedText, "changed", 3);
  }

  /** With the intended display the success is green. */
  lemma ChangedShownAsSuccess()
    ensures ShowMessage(ChangedText) == Green("Password changed!")
  {
  }

  /** Both validation messages lack "changed", so either display shows
      them in red. */
  lemma TooShortShownInRed()
    ensures ShowMessage(TooShortText) == Red(TooShortText) == ShowMessageAsWritten(TooShortText)
  {
    assert "changed"[0] == 'c';
    assert |TooShortText| != |ChangedText|;
    NotContainsMissingChar(TooShortText, "changed", 0);
  }

  lemma MismatchShownInRed()
    ensures ShowMessage(MismatchText) == Red(MismatchText) == ShowMessageAsWritten(MismatchText)
  {
    assert "changed"[4] == 'g';
    assert |MismatchText| != |ChangedText|;
    NotContainsMissingChar(MismatchText, "changed", 4);
  }

  /** The avatar's fallback: the first character of the first and of the
      last name, "?" for an empty one, upper-cased. */
  function Initials(firstName: string, lastName: string): (initials: string)
    ensures |initials| == 2
    ensures initials[0] == (if firstName == "" then '?' else UpperChar(firstName[0]))
    ensures initials[1] == (if lastName == "" then '?' else UpperChar(lastName[0]))
  {
    ToUpper([OrStr(firstName, "?")[0], OrStr(lastName, "?")[0]])
  }

  /** Only the first characters count, and the initials hold no lower-case
      letter. */
  lemma InitialsShape(firstName: string, lastName: string, firstRest: string, lastRest: string)
    requires firstName != [] && lastName != []
    ensures Initials(firstName + firstRest, lastName + lastRest) == Initials(firstName, lastName)
    ensures forall i | 0 <= i < 2 :: !('a' <= Initials(firstName, lastName)[i] <= 'z')
  {
    assert (firstName + firstRest)[0] == firstName[0];
    assert (lastName + lastRest)[0] == lastName[0];
  }

  /** The password section's state. */
  class PasswordSection {
    var newPassword: string
    var confirmPassword: string
    var passwordMessage: string
    var showPasswordSection: bool

    constructor ()
      ensures newPassword == "" && confirmPassword == "" && passwordMessage == "" && !showPasswordSection
    {
      newPassword := "";
      confirmPassword := "";
      passwordMessage := "";
      showPasswordSection := false;
    }

    /** The section's header button. */
    method ToggleSection()
      modifies this
      ensures showPasswordSection == !old(showPasswordSection)
      ensures newPassword == old(newPassword) && confirmPassword == old(confirmPassword)
      ensures passwordMessage == old(passwordMessage)
    {
      showPasswordSection := !showPasswordSection;
    }

    /** `handleChangePassword`, with the service's error (if any) as a
        parameter: `called` says whether the service was asked at all. A
        password under eight characters is refused first, a confirmation
        that differs second; neither reaches the service. A success clears
        both fields and closes the section; a failure shows its message. */
    method ChangePassword(updateError: Option<string>) returns (called: bool)
      modifies this
      ensures called <==> |old(newPassword)| >= 8 && old(newPassword) == old(confirmPassword)
      ensures |old(newPassword)| < 8 ==> passwordMessage == TooShortText
      ensures |old(newPassword)| >= 8 && old(newPassword) != old(confirmPassword) ==> passwordMessage == MismatchText
      ensures called && updateError.Some? ==> passwordMessage == updateError.value
      ensures called && updateError.None? ==> (
        passwordMessage == ChangedText && newPassword == "" && confirmPassword == "" && !showPasswordSection)
      ensures !(called && updateError.None?) ==> (
        newPassword == old(newPassword) && confirmPassword == old(confirmPassword)
        && showPasswordSection == old(showPasswordSection))
    {
      passwordMessage := "";
      if |newPassword| < 8 {
        passwordMessage := TooShortText;
        return false;
      }
      if newPassword != confirmPassword {
        passwordMessage := MismatchText;
        return false;
      }
      if updateError.Some? {
        passwordMessage := updateError.value;
      } else {
        passwordMessage := ChangedText;
        newPassword := "";
        confirmPassword := "";
        showPasswordSection := false;
      }
      return true;
    }
  }

  /** A refused change is always shown in red, whatever the display. */
  lemma RefusalsShownInRed(newPassword: string, confirmPassword: string)
    requires |newPassword| < 8 || newPassword != confirmPassword
    ensures var message := if |newPassword| < 8 then TooShortText else MismatchText;
      ShowMessage(message).Red? && ShowMessageAsWritten(message).Red?
  {
    TooShortShownInRed();
    MismatchShownInRed();
  }
}
