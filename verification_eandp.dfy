/** The OTP modal of the password-recovery flow
    (components/Auth/VerifictionEandP.tsx): it resends the code once, checks
    that six digits were entered, finds the user id when none was passed in,
    verifies the code by phone or by email and then reloads the user. The
    component's `useState` variables are the fields of the class; each SDK
    outcome is a parameter of the handler that awaits it; the ghost `calls`
    log records the external calls in the order they are made. */
module PasswordResetModal {
  import opened Wrappers
  import opened Identifiers

  /** The external calls the component makes. */
  datatype Call =
    | SendOtpToPhone(phone: string)
    | SendOtpToEmail(email: string)
    | GetUserIdByPhoneOrEmail(identifier: string)
    | VerifyOtpAndResetPassword(userId: string, otp: string)
    | CompletePasswordReset(userId: string, secret: string)
    | FetchBasicUserData
    | OnSuccess
    | Close

  /** Codes of this channel have six digits. */
  const OtpLength: nat := 6

  const ResentMessage: string := "تم إرسال رمز التحقق مرة أخرى."
  const ResendFailedMessage: string := "حدث خطأ أثناء إعادة إرسال رمز التحقق."
  const IncompleteCodeMessage: string := "يرجى إدخال رمز التحقق الكامل."
  const UserNotFoundMessage: string := "فشل في العثور على المستخدم."
  const VerifiedMessage: string := "تم التحقق بنجاح."
  const VerifyFailedMessage: string := "فشل في التحقق من الرمز."

  /** `isphone ? `+966${form.value}` : form.value`. */
  function IdentifierOf(isphone: bool, formValue: string): string {
    if isphone then WithCountryCode(formValue) else formValue
  }

  /** The calls and the final message of one verification attempt that got
      past the length and `isSubmitting` checks. `givenUserId` is the
      `userId` prop ("" when absent), `lookedUp` what the lookup returns,
      `verifyOk` and `fetchOk` whether the verification and the user reload
      succeed. */
  function VerifyAttempt(isphone: bool, identifier: string, givenUserId: string, otp: string,
                         hasOnSuccess: bool, lookedUp: Option<string>, verifyOk: bool, fetchOk: bool)
    : (out: (seq<Call>, string))
    ensures out.1 == VerifiedMessage || out.1 == VerifyFailedMessage || out.1 == UserNotFoundMessage
    ensures out.1 == VerifiedMessage <==>
              verifyOk && fetchOk && (givenUserId != "" || (lookedUp.Some? && lookedUp.value != ""))
  {
    var lookup := if givenUserId != "" then [] else [GetUserIdByPhoneOrEmail(identifier)];
    var id := if givenUserId != "" then givenUserId
              else if lookedUp.Some? then lookedUp.value else "";
    if id == "" then (lookup, UserNotFoundMessage)
    else
      var verify := lookup + [ChannelCall(isphone, id, otp)];
      if !verifyOk then (verify, VerifyFailedMessage)
      else if !fetchOk then (verify + [FetchBasicUserData], VerifyFailedMessage)
      else (verify + [FetchBasicUserData] + (if hasOnSuccess then [OnSuccess] else []), VerifiedMessage)
  }

  /** `onSuccess` is called only after the code was verified and the user
      data reloaded, and then always (when the prop is given). */
  lemma OnSuccessOnlyAfterVerification(isphone: bool, identifier: string, givenUserId: string, otp: string,
                                       hasOnSuccess: bool, lookedUp: Option<string>, verifyOk: bool, fetchOk: bool)
    ensures var (calls, message) := VerifyAttempt(isphone, identifier, givenUserId, otp, hasOnSuccess, lookedUp, verifyOk, fetchOk);
            && (OnSuccess in calls <==>
                  hasOnSuccess && verifyOk && fetchOk
                  && (givenUserId != "" || (lookedUp.Some? && lookedUp.value != "")))
            && (OnSuccess in calls ==> calls[|calls| - 2] == FetchBasicUserData && message == VerifiedMessage)
  {
  }

  /** Without a user id passed in, the id is looked up by the identifier, and
      a lookup that finds nothing ends the attempt with the not-found message
      and no verification call. */
  lemma LookupGatesVerification(isphone: bool, identifier: string, otp: string, hasOnSuccess: bool,
                                lookedUp: Option<string>, verifyOk: bool, fetchOk: bool)
    requires lookedUp.None? || lookedUp.value == ""
    ensures VerifyAttempt(isphone, identifier, "", otp, hasOnSuccess, lookedUp, verifyOk, fetchOk)
            == ([GetUserIdByPhoneOrEmail(identifier)], UserNotFoundMessage)
  {
  }

  /** The verification call for one channel: the phone session for a phone,
      the e-mail token for an e-mail. */
  function ChannelCall(isphone: bool, id: string, otp: string): Call {
    if isphone then VerifyOtpAndResetPassword(id, otp) else CompletePasswordReset(id, otp)
  }

  /** The verification goes to the channel of the identifier with the
      resolved user id and the entered code: the `userId` prop when it is
      given (and then first, with no lookup), otherwise the id the lookup
      returned (right after the lookup). */
  lemma VerificationChannel(isphone: bool, identifier: string, givenUserId: string, otp: string,
                            hasOnSuccess: bool, lookedUp: Option<string>, verifyOk: bool, fetchOk: bool)
    ensures var calls := VerifyAttempt(isphone, identifier, givenUserId, otp, hasOnSuccess, lookedUp, verifyOk, fetchOk).0;
            && (givenUserId != "" ==> calls[0] == ChannelCall(isphone, givenUserId, otp))
            && (givenUserId == "" ==> calls[0] == GetUserIdByPhoneOrEmail(identifier))
            && (givenUserId == "" && lookedUp.Some? && lookedUp.value != "" ==>
                  |calls| >= 2 && calls[1] == ChannelCall(isphone, lookedUp.value, otp))
  {
  }

  class VerifictionEandP {
    // props
    const isphone: bool
    const formValue: string
    const userId: string
    const hasOnSuccess: bool

    // useState
    var otp: string
    var isSubmitting: bool
    var hasResentOtp: bool
    var error: Option<string>

    ghost var calls: seq<Call>

    constructor (isphone: bool, formValue: string, userId: string, hasOnSuccess: bool)
      ensures this.isphone == isphone && this.formValue == formValue
      ensures this.userId == userId && this.hasOnSuccess == hasOnSuccess
      ensures otp == "" && !isSubmitting && !hasResentOtp && error == None && calls == []
    {
      this.isphone := isphone;
      this.formValue := formValue;
      this.userId := userId;
      this.hasOnSuccess := hasOnSuccess;
      otp := "";
      isSubmitting := false;
      hasResentOtp := false;
      error := None;
      calls := [];
    }

    /** The identifier the code is resent to and the user looked up by. */
    function Identifier(): string {
      IdentifierOf(isphone, formValue)
    }

    /** `onChangeOtp={(value) => setOtp(value)}`. */
    method HandleOtpChange(value: string)
      modifies this
      ensures otp == value
      ensures isSubmitting == old(isSubmitting) && hasResentOtp == old(hasResentOtp)
      ensures error == old(error) && calls == old(calls)
    {
      otp := value;
    }

    /** `handleResendOtp`: once a resend has gone out nothing happens;
        otherwise the code is sent on the identifier's channel and the flag
        is set only when that succeeds. */
    method HandleResendOtp(dispatchOk: bool)
      modifies this
      ensures otp == old(otp) && isSubmitting == old(isSubmitting)
      ensures old(hasResentOtp) ==> hasResentOtp && error == old(error) && calls == old(calls)
      ensures !old(hasResentOtp) ==>
                && calls == old(calls) + [if isphone then SendOtpToPhone(Identifier()) else SendOtpToEmail(Identifier())]
                && hasResentOtp == dispatchOk
                && error == Some(if dispatchOk then ResentMessage else ResendFailedMessage)
    {
      if hasResentOtp {
        return;
      }
      if isphone {
        calls := calls + [SendOtpToPhone(Identifier())];
      } else {
        calls := calls + [SendOtpToEmail(Identifier())];
      }
      if dispatchOk {
        hasResentOtp := true;
        error := Some(ResentMessage);
      } else {
        error := Some(ResendFailedMessage);
      }
    }

    /** `handleVerifyOtp`: a code shorter than six digits only shows an
        error; while a submission is in flight nothing happens; otherwise
        one attempt runs (VerifyAttempt) and `isSubmitting` ends false. */
    method HandleVerifyOtp(lookedUp: Option<string>, verifyOk: bool, fetchOk: bool)
      modifies this
      ensures otp == old(otp) && hasResentOtp == old(hasResentOtp)
      ensures |old(otp)| < OtpLength ==>
                error == Some(IncompleteCodeMessage) && calls == old(calls) && isSubmitting == old(isSubmitting)
      ensures |old(otp)| >= OtpLength && old(isSubmitting) ==>
                error == old(error) && calls == old(calls) && isSubmitting
      ensures |old(otp)| >= OtpLength && !old(isSubmitting) ==>
                var (made, message) := VerifyAttempt(isphone, Identifier(), userId, otp, hasOnSuccess, lookedUp, verifyOk, fetchOk);
                && calls == old(calls) + made
                && error == Some(message)
                && !isSubmitting
    {
      if |otp| < OtpLength {
        error := Some(IncompleteCodeMessage);
        return;
      }
      if isSubmitting {
        return;
      }
      isSubmitting := true;

      var idToVerify := userId;
      if idToVerify == "" {
        calls := calls + [GetUserIdByPhoneOrEmail(Identifier())];
        idToVerify := if lookedUp.Some? then lookedUp.value else "";
        if idToVerify == "" {
          error := Some(UserNotFoundMessage);
          isSubmitting := false;
          return;
        }
      }

      if isphone {
        calls := calls + [VerifyOtpAndResetPassword(idToVerify, otp)];
      } else {
        calls := calls + [CompletePasswordReset(idToVerify, otp)];
      }
      if !verifyOk {
        error := Some(VerifyFailedMessage);
      } else {
        error := Some(VerifiedMessage);
        calls := calls + [FetchBasicUserData];
        if !fetchOk {
          error := Some(VerifyFailedMessage);
        } else if hasOnSuccess {
          calls := calls + [OnSuccess];
        }
      }
      isSubmitting := false;
    }

    /** `onClose`: clears the error, re-arms the resend and closes. */
    method OnClose()
      modifies this
      ensures error == None && !hasResentOtp
      ensures calls == old(calls) + [Close]
      ensures otp == old(otp) && isSubmitting == old(isSubmitting)
    {
      error := None;
      hasResentOtp := false;
      calls := calls + [Close];
    }

    /** `clearError`, the error modal's close handler. */
    method ClearError()
      modifies this
      ensures error == None
      ensures otp == old(otp) && isSubmitting == old(isSubmitting)
      ensures hasResentOtp == old(hasResentOtp) && calls == old(calls)
    {
      error := None;
    }
  }

  /** Two resends in a row dispatch once: the second is a no-op after a
      successful first. */
  method ResendTwiceDispatchesOnce(m: VerifictionEandP, ok2: bool)
    requires !m.hasResentOtp
    modifies m
    ensures m.hasResentOtp
    ensures |m.calls| == |old(m.calls)| + 1
  {
    m.HandleResendOtp(true);
    m.HandleResendOtp(ok2);
  }
}
