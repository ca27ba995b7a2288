/** The OTP modal of sign-up and phone change
    (components/Auth/VerificationPage.tsx): it resends the code, verifies a
    four-digit code with the OTP vendor and, when creating an account by
    phone, creates the user and sets the phone number. The `useState`
    variables and the `ismodal` prop are the fields of the class, each
    awaited outcome is a handler parameter, and the ghost `calls` log
    records the external calls in order. */
module SignupVerification {
  import opened Wrappers
  import opened Identifiers

  /** The sign-up form the modal receives. */
  datatype SignupForm = SignupForm(name: string, email: string, password: string, phone: string)

  /** The external calls the modal makes. */
  datatype Call =
    | UpdatePhoneNumberAndSendOtp(form: SignupForm)
    | SendOtpToEmail(email: string)
    | VendorVerifyOtp(phone: string, otp: string)
    | CreateUser(email: string, password: string, name: string, phone: string)
    | UpdatePhoneNumber(phone: string, password: string)
    | OnSuccess
    | Close

  /** Codes of this channel have four digits. */
  const OtpLength: nat := 4

  const FillAllMessage: string := "الرجاء ملء كل الخانات"
  const VerifyFailedMessage: string := "فشل التحقق، حاول مرة أخرى."

  /** `phoneOrEmail`. */
  function PhoneOrEmail(isphone: bool, form: SignupForm): string {
    if isphone then WithCountryCode(form.phone) else form.email
  }

  /** The calls of one attempt past the length check, and the message it
      ends with: None when the code was accepted and the modal closes. */
  function VerifyAttempt(isphone: bool, forcreat: bool, form: SignupForm, otp: string, hasOnSuccess: bool,
                         vendorOk: bool, createOk: bool, updateOk: bool)
    : (out: (seq<Call>, Option<string>))
    ensures |out.0| >= 1 && out.0[0] == VendorVerifyOtp(PhoneOrEmail(isphone, form), otp)
    ensures out.1.Some? ==> out.1.value == VerifyFailedMessage
    ensures out.1.None? <==> vendorOk && (forcreat && isphone ==> createOk && updateOk)
  {
    var id := PhoneOrEmail(isphone, form);
    var vendor := [VendorVerifyOtp(id, otp)];
    if !vendorOk then (vendor, Some(VerifyFailedMessage))
    else
      var account :=
        if !(forcreat && isphone) then vendor
        else if !createOk then vendor + [CreateUser(form.email, form.password, form.name, id)]
        else vendor + [CreateUser(form.email, form.password, form.name, id), UpdatePhoneNumber(id, form.password)];
      if forcreat && isphone && !(createOk && updateOk) then (account, Some(VerifyFailedMessage))
      else (account + (if hasOnSuccess then [OnSuccess] else []), None)
  }


  /** A code the vendor rejects ends in the failure message with no account
      call and no `onSuccess`. */
  lemma RejectedCodeChangesNoAccount(isphone: bool, forcreat: bool, form: SignupForm, otp: string,
                                     hasOnSuccess: bool, createOk: bool, updateOk: bool)
    ensures VerifyAttempt(isphone, forcreat, form, otp, hasOnSuccess, false, createOk, updateOk)
            == ([VendorVerifyOtp(PhoneOrEmail(isphone, form), otp)], Some(VerifyFailedMessage))
  {
  }

  /** The account is created, and then its phone number set, only when
      creating an account by phone after the vendor accepted the code. */
  lemma AccountCallsOnlyForPhoneSignup(isphone: bool, forcreat: bool, form: SignupForm, otp: string,
                                       hasOnSuccess: bool, vendorOk: bool, createOk: bool, updateOk: bool)
    ensures var calls := VerifyAttempt(isphone, forcreat, form, otp, hasOnSuccess, vendorOk, createOk, updateOk).0;
            var id := PhoneOrEmail(isphone, form);
            && calls[0] == VendorVerifyOtp(id, otp)
            && ((exists k :: 0 <= k < |calls| && calls[k].CreateUser?) <==> forcreat && isphone && vendorOk)
            && (forcreat && isphone && vendorOk ==>
                  calls[1] == CreateUser(form.email, form.password, form.name, id)
                  && (createOk ==> calls[2] == UpdatePhoneNumber(id, form.password)))
  {
    var calls := VerifyAttempt(isphone, forcreat, form, otp, hasOnSuccess, vendorOk, createOk, updateOk).0;
    if forcreat && isphone && vendorOk {
      assert calls[1].CreateUser?;
    }
  }

  /** `onSuccess` is called exactly when every awaited step succeeded, and
      it is the last call of the attempt. */
  lemma OnSuccessOnlyAfterEverything(isphone: bool, forcreat: bool, form: SignupForm, otp: string,
                                     hasOnSuccess: bool, vendorOk: bool, createOk: bool, updateOk: bool)
    ensures var (calls, message) := VerifyAttempt(isphone, forcreat, form, otp, hasOnSuccess, vendorOk, createOk, updateOk);
            && (OnSuccess in calls <==> hasOnSuccess && message.None?)
            && (message.None? <==> vendorOk && (forcreat && isphone ==> createOk && updateOk))
            && (OnSuccess in calls ==> calls[|calls| - 1] == OnSuccess)
  {
  }

  class VerificationPage {
    // props
    const isphone: bool
    const forcreat: bool
    const form: SignupForm
    const hasOnSuccess: bool
    var ismodal: bool

    // useState
    var otp: string
    var isSubmitting: bool
    var hasPressed: bool
    var isModalVisible: bool
    var errorMessage: string
    var isSecuss: bool

    ghost var calls: seq<Call>

    constructor (ismodal: bool, isphone: bool, forcreat: bool, form: SignupForm, hasOnSuccess: bool)
      ensures this.ismodal == ismodal && this.isphone == isphone && this.forcreat == forcreat
      ensures this.form == form && this.hasOnSuccess == hasOnSuccess
      ensures otp == "" && !isSubmitting && !hasPressed && !isModalVisible
      ensures errorMessage == "" && !isSecuss && calls == []
    {
      this.ismodal := ismodal;
      this.isphone := isphone;
      this.forcreat := forcreat;
      this.form := form;
      this.hasOnSuccess := hasOnSuccess;
      otp := "";
      isSubmitting := false;
      hasPressed := false;
      isModalVisible := false;
      errorMessage := "";
      isSecuss := false;
      calls := [];
    }

    /** The parent passes a new `ismodal`; the effect keyed on it clears the
        entered code whenever it changes. */
    method SetIsModal(value: bool)
      modifies this
      ensures ismodal == value
      ensures otp == if value != old(ismodal) then "" else old(otp)
      ensures isSubmitting == old(isSubmitting) && hasPressed == old(hasPressed)
      ensures isModalVisible == old(isModalVisible) && errorMessage == old(errorMessage)
      ensures isSecuss == old(isSecuss) && calls == old(calls)
    {
      if value != ismodal {
        otp := "";
      }
      ismodal := value;
    }

    /** `onChangeOtp` of the code input. */
    method HandleOtpChange(value: string)
      modifies this
      ensures otp == value && ismodal == old(ismodal)
      ensures isSubmitting == old(isSubmitting) && hasPressed == old(hasPressed)
      ensures isModalVisible == old(isModalVisible) && errorMessage == old(errorMessage)
      ensures isSecuss == old(isSecuss) && calls == old(calls)
    {
      otp := value;
    }

    /** `showError`. */
    method ShowError(message: string, success: bool)
      modifies this
      ensures errorMessage == message && isSecuss == success && isModalVisible
      ensures ismodal == old(ismodal) && otp == old(otp) && isSubmitting == old(isSubmitting)
      ensures hasPressed == old(hasPressed) && calls == old(calls)
    {
      errorMessage := message;
      isSecuss := success;
      isModalVisible := true;
    }

    /** `handleClose`. */
    method HandleClose()
      modifies this
      ensures !isModalVisible && errorMessage == ""
      ensures ismodal == old(ismodal) && otp == old(otp) && isSubmitting == old(isSubmitting)
      ensures hasPressed == old(hasPressed) && isSecuss == old(isSecuss) && calls == old(calls)
    {
      isModalVisible := false;
      errorMessage := "";
    }

    /** `resendCode`: the first phone resend goes through the phone-update
        path and sets `hasPressed`; every other resend, later phone resends
        included, sends an e-mail code, with no limit. */
    method ResendCode()
      modifies this
      ensures isphone && !old(hasPressed) ==>
                hasPressed && calls == old(calls) + [UpdatePhoneNumberAndSendOtp(form)]
      ensures !(isphone && !old(hasPressed)) ==>
                hasPressed == old(hasPressed) && calls == old(calls) + [SendOtpToEmail(form.email)]
      ensures ismodal == old(ismodal) && otp == old(otp) && isSubmitting == old(isSubmitting)
      ensures isModalVisible == old(isModalVisible) && errorMessage == old(errorMessage) && isSecuss == old(isSecuss)
    {
      if isphone && !hasPressed {
        calls := calls + [UpdatePhoneNumberAndSendOtp(form)];
        hasPressed := true;
      } else {
        calls := calls + [SendOtpToEmail(form.email)];
      }
    }

    /** `closeAndRedirect`: hides the message modal, re-arms the phone resend
        and closes. */
    method CloseAndRedirect()
      modifies this
      ensures !isModalVisible && !hasPressed
      ensures calls == old(calls) + [Close]
      ensures ismodal == old(ismodal) && otp == old(otp) && isSubmitting == old(isSubmitting)
      ensures errorMessage == old(errorMessage) && isSecuss == old(isSecuss)
    {
      isModalVisible := false;
      hasPressed := false;
      calls := calls + [Close];
    }

    /** `verifyOtp`: a code shorter than four digits only shows an error;
        otherwise one attempt runs (VerifyAttempt), whatever `isSubmitting`
        was, and `isSubmitting` ends false. */
    method VerifyOtp(vendorOk: bool, createOk: bool, updateOk: bool)
      modifies this
      ensures ismodal == old(ismodal) && otp == old(otp) && hasPressed == old(hasPressed)
      ensures |old(otp)| < OtpLength ==>
                && errorMessage == FillAllMessage && !isSecuss && isModalVisible
                && isSubmitting == old(isSubmitting) && calls == old(calls)
      ensures |old(otp)| >= OtpLength ==>
                var (made, message) := VerifyAttempt(isphone, forcreat, form, otp, hasOnSuccess, vendorOk, createOk, updateOk);
                && calls == old(calls) + made
                && !isSubmitting
                && (message.None? ==> !isModalVisible && errorMessage == old(errorMessage) && isSecuss == old(isSecuss))
                && (message.Some? ==> isModalVisible && errorMessage == message.value && !isSecuss)
    {
      if |otp| < OtpLength {
        ShowError(FillAllMessage, false);
        return;
      }
      isSubmitting := true;
      var id := PhoneOrEmail(isphone, form);
      calls := calls + [VendorVerifyOtp(id, otp)];
      var failed := !vendorOk;
      if !failed && forcreat && isphone {
        calls := calls + [CreateUser(form.email, form.password, form.name, id)];
        if !createOk {
          failed := true;
        } else {
          calls := calls + [UpdatePhoneNumber(id, form.password)];
          failed := !updateOk;
        }
      }
      if failed {
        ShowError(VerifyFailedMessage, false);
      } else {
        isModalVisible := false;
        if hasOnSuccess {
          calls := calls + [OnSuccess];
        }
      }
      isSubmitting := false;
    }
  }
}
