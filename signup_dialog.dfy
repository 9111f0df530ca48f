/** The sign-up dialog that asks for the new user's name: the name field,
    the confirm handler that passes on the trimmed name only when it is not
    blank, and the Sign Up button's enablement. Cancelling is
    `Dialog.CancelCalls`. */
module SignUpConfirm {
  import opened Common
  import opened Text

  class NameDialog {
    var name: string

    constructor ()
      ensures name == ""
    {
      name := "";
    }

    /** The name input's `onChange`: stores the text as typed. */
    method SetName(typed: string)
      modifies this
      ensures name == typed
    {
      name := typed;
    }

    /** `disabled={!name.trim()}`. */
    predicate SignUpDisabled()
      reads this
    {
      Trim(name) == ""
    }

    /** `handleConfirm`: calls `onConfirm` with the trimmed name, or does
        nothing when the name is empty or white space only, which is exactly
        when the button is disabled. */
    method HandleConfirm() returns (confirmed: Option<string>)
      ensures confirmed.None? <==> Blank(name)
      ensures confirmed.None? <==> SignUpDisabled()
      ensures confirmed.Some? ==> confirmed.value == Trim(name) && confirmed.value != []
      ensures confirmed.Some? ==> !IsSpace(confirmed.value[0]) && !IsSpace(confirmed.value[|confirmed.value| - 1])
    {
      TrimEmptyIffBlank(name);
      if Trim(name) == "" {
        return None;
      }
      confirmed := Some(Trim(name));
    }
  }
}
