/** The `errorMessagesAPI` table of constants/index.ts and the lookup
    `getErrorMessage` of lib/api.ts that every wrapper uses to turn an error
    key into a user-facing message. */
module ErrorMessages {
  import opened Wrappers

  /** The sixteen error keys of the table. Each language is a total function
      of this type, so the three languages define the same keys by
      construction; KeyOf and KeyName connect them to the key strings. */
  datatype ErrorKey =
    | UserNotFound
    | PhoneInUse
    | EmailInUse
    | ChatNotFound
    | FailedToCreateUser
    | FailedToRetrieveUser
    | FailedToSendOTP
    | FailedToResetPassword
    | UniqueUsernameFailed
    | FailedToCreateChat
    | FailedToCheckEmail
    | FailedToUpdatePhone
    | FailedToSignIn
    | FailedToGetCurrentUser
    | FailedToSendOtpToPhone
    | FailedToUpdateUserDetails

  /** The key as it is spelled in the table and in thrown errors. */
  function KeyName(k: ErrorKey): string {
    match k
    case UserNotFound => "userNotFound"
    case PhoneInUse => "phoneInUse"
    case EmailInUse => "emailInUse"
    case ChatNotFound => "chatNotFound"
    case FailedToCreateUser => "failedToCreateUser"
    case FailedToRetrieveUser => "failedToRetrieveUser"
    case FailedToSendOTP => "failedToSendOTP"
    case FailedToResetPassword => "failedToResetPassword"
    case UniqueUsernameFailed => "uniqueUsernameFailed"
    case FailedToCreateChat => "failedToCreateChat"
    case FailedToCheckEmail => "failedToCheckEmail"
    case FailedToUpdatePhone => "failedToUpdatePhone"
    case FailedToSignIn => "failedToSignIn"
    case FailedToGetCurrentUser => "failedToGetCurrentUser"
    case FailedToSendOtpToPhone => "failedToSendOtpToPhone"
    case FailedToUpdateUserDetails => "failedToUpdateUserDetails"
  }

  /** The key a string names, if any. */
  function KeyOf(s: string): (k: Option<ErrorKey>)
    ensures k.Some? ==> KeyName(k.value) == s
  {
    if s == "userNotFound" then Some(UserNotFound)
    else if s == "phoneInUse" then Some(PhoneInUse)
    else if s == "emailInUse" then Some(EmailInUse)
    else if s == "chatNotFound" then Some(ChatNotFound)
    else if s == "failedToCreateUser" then Some(FailedToCreateUser)
    else if s == "failedToRetrieveUser" then Some(FailedToRetrieveUser)
    else if s == "failedToSendOTP" then Some(FailedToSendOTP)
    else if s == "failedToResetPassword" then Some(FailedToResetPassword)
    else if s == "uniqueUsernameFailed" then Some(UniqueUsernameFailed)
    else if s == "failedToCreateChat" then Some(FailedToCreateChat)
    else if s == "failedToCheckEmail" then Some(FailedToCheckEmail)
    else if s == "failedToUpdatePhone" then Some(FailedToUpdatePhone)
    else if s == "failedToSignIn" then Some(FailedToSignIn)
    else if s == "failedToGetCurrentUser" then Some(FailedToGetCurrentUser)
    else if s == "failedToSendOtpToPhone" then Some(FailedToSendOtpToPhone)
    else if s == "failedToUpdateUserDetails" then Some(FailedToUpdateUserDetails)
    else None
  }

  /** Every key name is read back as that key, so no two keys share a name. */
  lemma KeyOfKeyName(k: ErrorKey)
    ensures KeyOf(KeyName(k)) == Some(k)
  {
  }

  /** The `ar` column of `errorMessagesAPI`. */
  function Arabic(k: ErrorKey): (t: string)
    ensures |t| > 0
  {
    match k
    case UserNotFound => "المستخدم غير موجود"
    case PhoneInUse => "يبدو أن الرقم مستخدم بالفعل"
    case EmailInUse => "يبدو أن البريد الإلكتروني مستخدم بالفعل"
    case ChatNotFound => "لم يتم العثور على محادثات للمستخدم"
    case FailedToCreateUser => "فشل في إنشاء المستخدم"
    case FailedToRetrieveUser => "فشل في استرجاع تفاصيل المستخدم"
    case FailedToSendOTP => "فشل في إرسال رمز التحقق"
    case FailedToResetPassword => "فشل في إعادة تعيين كلمة المرور"
    case UniqueUsernameFailed => "فشل في توليد اسم مستخدم فريد"
    case FailedToCreateChat => "فشل في إنشاء المحادثة"
    case FailedToCheckEmail => "فشل في التحقق من البريد الإلكتروني"
    case FailedToUpdatePhone => "فشل في تحديث رقم الهاتف"
    case FailedToSignIn => "فشل في تسجيل الدخول"
    case FailedToGetCurrentUser => "فشل في استرجاع المستخدم الحالي"
    case FailedToSendOtpToPhone => "فشل في إرسال رمز التحقق إلى الهاتف"
    case FailedToUpdateUserDetails => "فشل في تحديث تفاصيل المستخدم"
  }

  /** The `en` column of `errorMessagesAPI`. */
  function English(k: ErrorKey): (t: string)
    ensures |t| > 0
  {
    match k
    case UserNotFound => "User not found"
    case PhoneInUse => "The phone number is already in use"
    case EmailInUse => "The email is already in use"
    case ChatNotFound => "No chats found for this user"
    case FailedToCreateUser => "Failed to create user"
    case FailedToRetrieveUser => "Failed to retrieve user details"
    case FailedToSendOTP => "Failed to send OTP"
    case FailedToResetPassword => "Failed to reset password"
    case UniqueUsernameFailed => "Failed to generate a unique username"
    case FailedToCreateChat => "Failed to create chat"
    case FailedToCheckEmail => "Failed to check email"
    case FailedToUpdatePhone => "Failed to update phone number"
    case FailedToSignIn => "Failed to sign in"
    case FailedToGetCurrentUser => "Failed to retrieve current user"
    case FailedToSendOtpToPhone => "Failed to send OTP to phone"
    case FailedToUpdateUserDetails => "Failed to update user details"
  }

  /** The `fr` column of `errorMessagesAPI`. */
  function French(k: ErrorKey): (t: string)
    ensures |t| > 0
  {
    match k
    case UserNotFound => "Utilisateur non trouvé"
    case PhoneInUse => "Le numéro de téléphone est déjà utilisé"
    case EmailInUse => "L'email est déjà utilisé"
    case ChatNotFound => "Aucune discussion trouvée pour cet utilisateur"
    case FailedToCreateUser => "Échec de la création de l'utilisateur"
    case FailedToRetrieveUser => "Échec de la récupération des détails de l'utilisateur"
    case FailedToSendOTP => "Échec de l'envoi du code OTP"
    case FailedToResetPassword => "Échec de la réinitialisation du mot de passe"
    case UniqueUsernameFailed => "Échec de la génération d'un nom d'utilisateur unique"
    case FailedToCreateChat => "Échec de la création du chat"
    case FailedToCheckEmail => "Échec de la vérification de l'email"
    case FailedToUpdatePhone => "Échec de la mise à jour du numéro de téléphone"
    case FailedToSignIn => "Échec de la connexion"
    case FailedToGetCurrentUser => "Échec de la récupération de l'utilisateur actuel"
    case FailedToSendOtpToPhone => "Échec de l'envoi du code OTP au téléphone"
    case FailedToUpdateUserDetails => "Échec de la mise à jour des détails de l'utilisateur"
  }

  /** The languages `errorMessagesAPI` has. */
  predicate KnownLanguage(lang: string) {
    lang == "ar" || lang == "en" || lang == "fr"
  }

  /** The entry for key `k` in language `lang`; no entry is empty. */
  function Text(lang: string, k: ErrorKey): (t: string)
    requires KnownLanguage(lang)
    ensures t != ""
  {
    if lang == "ar" then Arabic(k) else if lang == "en" then English(k) else French(k)
  }

  const UnknownError: string := "Unknown error"

  /** `errorMessagesAPI[lang]?.[key]`, where JavaScript's `||` would treat an
      empty string like a missing entry (no entry is empty). */
  function Entry(lang: string, key: string): (e: Option<string>)
    ensures e.Some? <==> KnownLanguage(lang) && KeyOf(key).Some?
    ensures e.Some? ==> e.value != ""
  {
    if !KnownLanguage(lang) then None
    else match KeyOf(key)
      case Some(k) => Some(Text(lang, k))
      case None => None
  }

  /** `getErrorMessage(key, lang)`: the requested language's entry, else the
      English one, else "Unknown error". */
  function GetErrorMessage(key: string, lang: string): (r: string)
    ensures r != ""
  {
    match Entry(lang, key)
    case Some(m) => m
    case None =>
      match Entry("en", key)
      case Some(m) => m
      case None => UnknownError
  }

  /** For a key of the table and a language of the table the message is that
      language's own text. */
  lemma KnownKeyIsTranslated(k: ErrorKey, lang: string)
    requires KnownLanguage(lang)
    ensures GetErrorMessage(KeyName(k), lang) == Text(lang, k)
  {
    KeyOfKeyName(k);
  }

  /** A language the table does not have falls back to English. */
  lemma UnknownLanguageFallsBackToEnglish(key: string, lang: string)
    requires !KnownLanguage(lang)
    ensures GetErrorMessage(key, lang) == GetErrorMessage(key, "en")
  {
  }

  /** A string that names no key (an SDK error text, say) gives "Unknown error"
      in every language. */
  lemma UnknownKeyGivesFallback(key: string, lang: string)
    requires KeyOf(key).None?
    ensures GetErrorMessage(key, lang) == UnknownError
  {
  }
}
