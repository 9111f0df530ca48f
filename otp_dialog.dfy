/** The e-mail verification dialog: the six-slot code input, the verify
    handler that passes the code on only when it has exactly six
    characters, and the Verify button's enablement. Cancelling is
    `Dialog.CancelCalls`. */
module OtpVerify {
  import opened Common

  const CodeLength := 6

  /** `maxLength={6}`: the input keeps at most the first six characters of
      what is typed; shorter input is kept whole. */
  function Capped(typed: string): (code: string)
    ensures |code| == Min(CodeLength, |typed|)
    ensures code == typed[..|code|]
  {
    if |typed| <= CodeLength then typed else typed[..CodeLength]
  }

  class CodeDialog {
    var otp: string

    /** The cap holds: the code never has more than six characters, so a
        disabled Verify always means a code still being typed. */
    predicate Valid()
      reads this
    {
      |otp| <= CodeLength
    }

    constructor ()
      ensures Valid() && otp == ""
    {
      otp := "";
    }

    /** The input's `onChange={setOtp}`, behind the length cap. */
    method SetOtp(typed: string)
      modifies this
      ensures Valid()
      ensures otp == Capped(typed)
    {
      otp := Capped(typed);
    }

    /** `disabled={otp.length !== 6}`. */
    predicate VerifyDisabled()
      reads this
    {
      |otp| != CodeLength
    }

    /** `handleVerify`: calls `onVerify` with the code when it has exactly
        six characters, which is exactly when the button is enabled, and does
        nothing otherwise. */
    method HandleVerify() returns (verified: Option<string>)
      requires Valid()
      ensures verified.Some? <==> |otp| == 6
      ensures verified.None? ==> |otp| < CodeLength
      ensures verified.None? <==> VerifyDisabled()
      ensures verified.Some? ==> verified.value == otp
    {
      if |otp| != CodeLength {
        return None;
      }
      verified := Some(otp);
    }
  }

  /** Typing at least six characters fills the code and enables Verify;
      typing fewer leaves it disabled. */
  lemma FullCodeIffSixTyped(typed: string)
    ensures |Capped(typed)| == CodeLength <==> |typed| >= CodeLength
  {
  }
}
