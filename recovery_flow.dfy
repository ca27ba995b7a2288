/** How the recovery screen hands over to the reset modal
    (components/Auth/ForgetReset.tsx with components/Auth/VerifictionEandP.tsx):
    the screen checks and sends to the trimmed input, while the modal is
    given the input as typed (`form={{ value: form.value }}`), and on the
    e-mail path, where no user id is passed, the modal looks the user up by
    that untrimmed value. */
module RecoveryFlow {
  import opened Wrappers
  import opened Text
  import opened Accounts
  import PasswordRecovery
  import PasswordResetModal

  /** The modal's identifier as the screen wires it: built from the typed
      value. */
  function ModalIdentifier(isPhone: bool, typed: string): string {
    PasswordResetModal.IdentifierOf(isPhone, typed)
  }

  /** As written: a typed value with a leading space passes the existence
      check and gets a code (both use the trimmed value), but the modal's
      lookup of the user by the same value finds nobody, so the code can
      never be verified. */
  lemma UntrimmedEmailIsNotFound()
    ensures var users := [UserDocument("u1", "a@b.sa", "")];
            var typed := " a@b.sa";
            && PasswordRecovery.DispatchIdentifier(false, typed) == "a@b.sa"
            && GetUserIdByPhoneOrEmail(users, true, PasswordRecovery.DispatchIdentifier(false, typed)) == Some("u1")
            && GetUserIdByPhoneOrEmail(users, true, ModalIdentifier(false, typed)) == None
  {
    var users := [UserDocument("u1", "a@b.sa", "")];
    ContainsOneChar("a@b.sa", '@');
    assert "a@b.sa"[1] == '@';
    assert FirstMatch(users, EmailField, " a@b.sa") == None by {
      assert |users[0].email| != |" a@b.sa"|;
    }
  }

  /** As written, in general: when no stored e-mail or phone starts with
      whitespace, a typed value that does is never found by the modal. */
  lemma UntrimmedIdentifierIsNotFound(users: seq<UserDocument>, typed: string)
    requires typed != [] && IsWhitespace(typed[0])
    requires forall u :: u in users ==>
               (u.email == [] || !IsWhitespace(u.email[0])) && (u.phone == [] || !IsWhitespace(u.phone[0]))
    ensures GetUserIdByPhoneOrEmail(users, true, ModalIdentifier(false, typed)) == None
  {
    var f := LookupField(typed);
    forall j | 0 <= j < |users|
      ensures FieldValue(users[j], f) != typed
    {
      assert users[j] in users;
    }
  }

  /** Corrected: the screen hands the modal the trimmed value it checked
      and sent the code to. */
  function CorrectedModalForm(typed: string): string {
    Trim(typed)
  }

  /** With the correction, the modal works on the identifier the code was
      sent to, and on the e-mail path its lookup finds a user whenever the
      existence check found one. */
  lemma TrimmedModalFindsDispatchedUser(users: seq<UserDocument>, isPhone: bool, typed: string)
    requires !isPhone ==> '@' in Trim(typed)
    requires !isPhone ==> exists u :: u in users && u.email == Trim(typed)
    ensures ModalIdentifier(isPhone, CorrectedModalForm(typed)) == PasswordRecovery.DispatchIdentifier(isPhone, typed)
    ensures !isPhone ==> GetUserIdByPhoneOrEmail(users, true, ModalIdentifier(isPhone, CorrectedModalForm(typed))).Some?
  {
    if !isPhone {
      var id := Trim(typed);
      assert LookupField(id) == EmailField;
      var u :| u in users && u.email == id;
      var j :| 0 <= j < |users| && users[j] == u;
      assert FieldValue(users[j], EmailField) == id;
    }
  }
}
