/** The password-recovery entry screen (components/Auth/ForgetReset.tsx):
    the user types a phone number or an e-mail, the screen checks that an
    account has it, sends a code and opens the OTP modal. The `useState`
    variables are the fields of the class, each awaited SDK outcome is a
    handler parameter, and the ghost `calls` log records the external calls
    in order. */
module PasswordRecovery {
  import opened Wrappers
  import opened Text
  import opened Identifiers

  /** The external calls the screen makes. */
  datatype Call =
    | IsPhoneNumberExisting(phone: string)
    | IsEmailExisting(email: string)
    | SendOtpToPhone(phone: string)
    | SendOtpToEmail(email: string)
    | GoToLogin
    | GoToResetPassword

  const EmptyInputMessage: string := "يرجى إدخال رقم الجوال أو البريد الإلكتروني"
  const PhoneNotFoundMessage: string := "رقم الجوال غير موجود في التطبيق."
  const EmailNotFoundMessage: string := "البريد الإلكتروني غير موجود في التطبيق."
  const SendFailedMessage: string := "حدث خطأ أثناء إرسال OTP. حاول مرة أخرى."

  /** How a send attempt ends: with the error modal showing a message, or
      with the code sent (and, on the phone path, the user id returned by
      the SDK). */
  datatype SendOutcome = Failed(message: string) | Sent(phoneUserId: Option<string>)

  /** The identifier the code is sent to: the trimmed input, with the
      country code for a phone. */
  function DispatchIdentifier(isPhone: bool, value: string): string {
    if isPhone then WithCountryCode(Trim(value)) else Trim(value)
  }

  /** One send attempt on a non-blank input. `found` is what the existence
      check returns (None when it throws); `sendOk` whether sending the code
      succeeds and `sentUserId` the user id `sendOtpToPhone` returns. */
  function SendAttempt(isPhone: bool, value: string, found: Option<bool>, sendOk: bool, sentUserId: string)
    : (out: (seq<Call>, SendOutcome))
    ensures out.1.Sent? <==> found == Some(true) && sendOk
    ensures out.1.Sent? ==> (out.1.phoneUserId.Some? <==> isPhone)
    ensures out.1 == Failed(if isPhone then PhoneNotFoundMessage else EmailNotFoundMessage) <==> found == Some(false)
    ensures out.1.Failed? && found != Some(false) ==> out.1.message == SendFailedMessage
  {
    var id := DispatchIdentifier(isPhone, value);
    var check := [if isPhone then IsPhoneNumberExisting(id) else IsEmailExisting(id)];
    if found.None? then (check, Failed(SendFailedMessage))
    else if !found.value then (check, Failed(if isPhone then PhoneNotFoundMessage else EmailNotFoundMessage))
    else
      var sent := check + [if isPhone then SendOtpToPhone(id) else SendOtpToEmail(id)];
      if !sendOk then (sent, Failed(SendFailedMessage))
      else (sent, Sent(if isPhone then Some(sentUserId) else None))
  }

  /** Every call of an attempt carries the dispatched identifier, the
      existence check comes first, and a code is sent only to an identifier
      reported to exist. */
  lemma SendAttemptDispatchesOnlyExisting(isPhone: bool, value: string, found: Option<bool>, sendOk: bool, sentUserId: string)
    ensures var (calls, outcome) := SendAttempt(isPhone, value, found, sendOk, sentUserId);
            var id := DispatchIdentifier(isPhone, value);
            && calls[0] == (if isPhone then IsPhoneNumberExisting(id) else IsEmailExisting(id))
            && (|calls| == 2 <==> found == Some(true))
            && (|calls| == 2 ==> calls[1] == if isPhone then SendOtpToPhone(id) else SendOtpToEmail(id))
            && (outcome.Sent? <==> found == Some(true) && sendOk)
  {
  }

  /** The identifier that is checked and sent to is, for a phone, "+966"
      followed by the trimmed number, and for an e-mail the trimmed address;
      either way nothing surrounding the typed value is whitespace. */
  lemma DispatchIdentifierIsTrimmed(isPhone: bool, value: string)
    ensures var id := DispatchIdentifier(isPhone, value);
            var local := if isPhone then id[4..] else id;
            && (isPhone ==> |id| >= 4 && id[..4] == CountryCode)
            && local == Trim(value) && (local != [] ==> !IsWhitespace(local[0]) && !IsWhitespace(local[|local| - 1]))
  {
    TrimSpec(value);
  }

  class ForgetReset {
    const isPhone: bool

    var formValue: string
    var isLoading: bool
    var isOtpModalVisible: bool
    var userId: string
    var errorModalVisible: bool
    var errorMessage: string
    var isSuccess: bool

    ghost var calls: seq<Call>

    constructor (isPhone: bool)
      ensures this.isPhone == isPhone
      ensures formValue == "" && !isLoading && !isOtpModalVisible && userId == ""
      ensures !errorModalVisible && errorMessage == "" && !isSuccess && calls == []
    {
      this.isPhone := isPhone;
      formValue := "";
      isLoading := false;
      isOtpModalVisible := false;
      userId := "";
      errorModalVisible := false;
      errorMessage := "";
      isSuccess := false;
      calls := [];
    }

    /** What the OTP modal receives as `form.value`: the input as typed. */
    function ModalForm(): string
      reads this
    {
      formValue
    }

    /** `showError`. */
    method ShowError(message: string, success: bool)
      modifies this
      ensures errorMessage == message && isSuccess == success && errorModalVisible
      ensures formValue == old(formValue) && isLoading == old(isLoading)
      ensures isOtpModalVisible == old(isOtpModalVisible) && userId == old(userId) && calls == old(calls)
    {
      errorMessage := message;
      isSuccess := success;
      errorModalVisible := true;
    }

    /** `handleErrorModalClose`. */
    method HandleErrorModalClose()
      modifies this
      ensures !errorModalVisible && errorMessage == ""
      ensures formValue == old(formValue) && isLoading == old(isLoading) && isSuccess == old(isSuccess)
      ensures isOtpModalVisible == old(isOtpModalVisible) && userId == old(userId) && calls == old(calls)
    {
      errorModalVisible := false;
      errorMessage := "";
    }

    /** `handleChangeText`. */
    method HandleChangeText(value: string)
      modifies this
      ensures formValue == value
      ensures isLoading == old(isLoading) && isOtpModalVisible == old(isOtpModalVisible) && userId == old(userId)
      ensures errorModalVisible == old(errorModalVisible) && errorMessage == old(errorMessage)
      ensures isSuccess == old(isSuccess) && calls == old(calls)
    {
      formValue := value;
    }

    /** `handleBackPress`: back to the login screen, error modal hidden. */
    method HandleBackPress()
      modifies this
      ensures !errorModalVisible && calls == old(calls) + [GoToLogin]
      ensures formValue == old(formValue) && isLoading == old(isLoading) && isOtpModalVisible == old(isOtpModalVisible)
      ensures userId == old(userId) && errorMessage == old(errorMessage) && isSuccess == old(isSuccess)
    {
      calls := calls + [GoToLogin];
      errorModalVisible := false;
    }

    /** `handleSendOtp`: an input that is blank once trimmed only shows an
        error; otherwise one attempt runs (SendAttempt), its outcome either
        opens the OTP modal or shows its message, and `isLoading` ends
        false. */
    method HandleSendOtp(found: Option<bool>, sendOk: bool, sentUserId: string)
      modifies this
      ensures formValue == old(formValue)
      ensures Trim(formValue) == [] ==>
                && errorModalVisible && errorMessage == EmptyInputMessage && !isSuccess
                && isLoading == old(isLoading) && isOtpModalVisible == old(isOtpModalVisible)
                && userId == old(userId) && calls == old(calls)
      ensures Trim(formValue) != [] ==>
                var (made, outcome) := SendAttempt(isPhone, formValue, found, sendOk, sentUserId);
                && calls == old(calls) + made
                && !isLoading
                && (outcome.Failed? ==>
                      && errorModalVisible && errorMessage == outcome.message && !isSuccess
                      && isOtpModalVisible == old(isOtpModalVisible) && userId == old(userId))
                && (outcome.Sent? ==>
                      && isOtpModalVisible
                      && userId == (if outcome.phoneUserId.Some? then outcome.phoneUserId.value else old(userId))
                      && errorModalVisible == old(errorModalVisible) && errorMessage == old(errorMessage)
                      && isSuccess == old(isSuccess))
    {
      if Trim(formValue) == [] {
        ShowError(EmptyInputMessage, false);
        return;
      }
      isLoading := true;
      var formatted := if isPhone then WithCountryCode(Trim(formValue)) else Trim(formValue);
      if isPhone {
        calls := calls + [IsPhoneNumberExisting(formatted)];
      } else {
        calls := calls + [IsEmailExisting(formatted)];
      }
      if found.None? {
        ShowError(SendFailedMessage, false);
      } else if !found.value {
        ShowError(if isPhone then PhoneNotFoundMessage else EmailNotFoundMessage, false);
      } else {
        if isPhone {
          calls := calls + [SendOtpToPhone(formatted)];
        } else {
          calls := calls + [SendOtpToEmail(formatted)];
        }
        if !sendOk {
          ShowError(SendFailedMessage, false);
        } else {
          if isPhone {
            userId := sentUserId;
          }
          isOtpModalVisible := true;
        }
      }
      isLoading := false;
    }

    /** `handleOtpSuccess`: the OTP modal closes, the message modal opens and
        the reset-password screen is shown. */
    method HandleOtpSuccess()
      modifies this
      ensures !isOtpModalVisible && errorModalVisible
      ensures calls == old(calls) + [GoToResetPassword]
      ensures formValue == old(formValue) && isLoading == old(isLoading) && userId == old(userId)
      ensures errorMessage == old(errorMessage) && isSuccess == old(isSuccess)
    {
      isOtpModalVisible := false;
      errorModalVisible := true;
      calls := calls + [GoToResetPassword];
    }

    /** The modal's `close` prop. */
    method CloseOtpModal()
      modifies this
      ensures !isOtpModalVisible
      ensures formValue == old(formValue) && isLoading == old(isLoading) && userId == old(userId)
      ensures errorModalVisible == old(errorModalVisible) && errorMessage == old(errorMessage)
      ensures isSuccess == old(isSuccess) && calls == old(calls)
    {
      isOtpModalVisible := false;
    }
  }
}
