/** The ways the two confirmation dialogs (sign-up name and e-mail OTP) are
    left without confirming: the Cancel button, and the dialog closing
    itself (`onOpenChange` with `false`, on Escape or an outside click). */
module Dialog {

  datatype Event = CancelClicked | OpenChange(open: bool)

  /** How many times the event calls `onCancel`: the Cancel button calls it,
      `onOpenChange={val => !val && onCancel()}` calls it on closing only. */
  function CancelCalls(e: Event): (n: nat)
    ensures n <= 1
    ensures n == 1 <==> e == CancelClicked || e == OpenChange(false)
  {
    match e
    case CancelClicked => 1
    case OpenChange(open) => if !open then 1 else 0
  }
}
