# Marketplace app core: helpers, formatters and the OTP flows, in Dafny

This project models the logic of a React Native marketplace app (Appwrite
back end, Arabic-first UI) that can be stated apart from its screens and
SDK calls, and proves properties of it:

- the helpers of `lib/api.ts`:
  - the localized error-message lookup;
  - the Arabic-to-Latin transliteration;
  - the unique user-name generator;
  - the result rules of the chat list, the user report, the ban and the ban status;
  - the phone/e-mail user lookup;
  - the user-status update;
  - the password-reset completion.
- the formatters of `constants/index.ts`: the "time ago" text, the view
  counter, and the three-language error table;
- the three authentication components as state machines:
  - the password-recovery screen (`ForgetReset`);
  - its reset-code modal (`VerifictionEandP`);
  - the sign-up/phone-change code modal (`VerificationPage`).

Database collections are values passed in (and returned when changed).
The outcome of every SDK or network call is a parameter: a `bool` for
success or failure, an `Option` for a call that can also return a value.
The clock is an integer. Each component is a class:

- its fields are the component's `useState` variables;
- it has one method per handler;
- a ghost log `calls` records the external calls a handler makes, in
  order, so that "nothing was dispatched" can be stated.

Each handler's outcome is a function of its inputs (`SendAttempt`,
`VerifyAttempt`), and the method's postcondition ties the new state and
the log to that function. The lemmas beside it state what the handler
promises.

Modules and files:

| module | file | models |
|---|---|---|
| `Wrappers` | wrappers.dfy | `Option`, `Result` |
| `Text` | text.dfy | JavaScript `\s`, `trim`, `replace(/\s+/g, "")`, `includes`, ASCII `toLowerCase`, integer-to-decimal text and its parser |
| `Identifiers` | identifiers.dfy | the `+966` phone prefix |
| `ErrorMessages` | error_messages.dfy | `errorMessagesAPI`, `getErrorMessage` |
| `Transliteration` | transliteration.dfy | `transliterationMap`, `transliterateArabicToEnglish` |
| `UserNames` | user_names.dfy | `isUserNameExisting`, `generateUniqueUserName` (a `while` loop) |
| `Chats` | chats.dfy | `fetchUserChats` |
| `Moderation` | moderation.dfy | `reportUser`, `banUser`, `fetchBanStatus` |
| `Accounts` | accounts.dfy | `getUserIdByPhoneOrEmail`, `updateUserStatus`, `completePasswordReset` |
| `Formatters` | formatters.dfy | `formatTimeAgoLocalized`, `formatViews` |
| `PasswordRecovery` | forget_reset.dfy | `ForgetReset` |
| `PasswordResetModal` | verification_eandp.dfy | `VerifictionEandP` |
| `SignupVerification` | verification_page.dfy | `VerificationPage` |
| `RecoveryFlow` | recovery_flow.dfy | how `ForgetReset` hands its input to `VerifictionEandP` |

Details of the code that the model keeps as they are:

- Phone numbers are not checked for nine digits anywhere in the logic;
  the input field's length limit belongs to the UI.
- The `+966` prefix is added unconditionally, so normalisation is not
  idempotent (`Identifiers.WithCountryCodeNotIdempotent`).
- `VerificationPage.resendCode` sends a phone code only on the first
  press of a phone flow. After it, the button is disabled in the UI
  (`disabled={hasPressed}`); a further call of the handler would send an
  e-mail code. E-mail resends never set `hasPressed`, so they are not
  limited.
- `VerificationPage.verifyOtp` has no `isSubmitting` re-entrancy guard.
- `transliterateArabicToEnglish` is not called anywhere in the code. It is
  modelled because it is part of the helper module.

## Model

| member | source | states |
|---|---|---|
| Text.RemoveWhitespace | lib/api.ts:100 | removing every whitespace run leaves no whitespace and never lengthens the text |
| Text.RemoveWhitespaceAppend | lib/api.ts:100 | whitespace removal distributes over concatenation |
| Text.RemoveWhitespaceKeeps | lib/api.ts:100 | a text without whitespace is returned unchanged |
| Text.TrimStartSpec | components/Auth/ForgetReset.tsx:68 | the leading-whitespace cut yields a suffix of the input, only whitespace is removed, and the result does not start with whitespace |
| Text.TrimEndSpec | components/Auth/ForgetReset.tsx:68 | the trailing-whitespace cut yields a prefix of the input, only whitespace is removed, and the result does not end with whitespace |
| Text.TrimSpec | components/Auth/ForgetReset.tsx:68-76 | `trim` gives the infix of the input with only whitespace cut on either side, neither end of it is whitespace, and it is empty exactly when the input is all whitespace (the blank-input test) |
| Text.TrimIdempotent | components/Auth/ForgetReset.tsx:74-76 | trimming an already trimmed value changes nothing |
| Text.NatToString | lib/api.ts:127 | the decimal text of the counter is non-empty, all digits, with no leading zero |
| Text.ParseNatToString | lib/api.ts:127 | the decimal text reads back as the same number |
| Text.NatToStringInjective | lib/api.ts:127 | different counters give different texts |
| Text.IntToString | constants/index.ts:389 | the interpolated number starts with "-" exactly when it is negative |
| Text.IntToStringRoundTrip | constants/index.ts:389 | the interpolated integer reads back as itself, negative values included |
| Text.Contains | lib/api.ts:638 | `includes` holds exactly when the substring occurs at some index |
| Text.AsciiLower | lib/api.ts:123 | lower-casing keeps the length, maps each character by itself and leaves no upper-case ASCII letter |
| Identifiers.WithCountryCode | components/Auth/VerifictionEandP.tsx:51 | the phone identifier starts with "+966", and the typed value follows it unchanged |
| Identifiers.WithCountryCodeNotIdempotent | components/Auth/ForgetReset.tsx:74-76 | prefixing an already prefixed number prefixes it again |
| Identifiers.WithCountryCodeInjective | components/Auth/VerificationPage.tsx:49 | different local numbers give different identifiers |
| ErrorMessages.KeyOf | constants/index.ts:8-64 | a string is recognised only as the name of the key it denotes |
| ErrorMessages.KeyOfKeyName | constants/index.ts:8-64 | every one of the sixteen key names is recognised as its key |
| ErrorMessages.Arabic | constants/index.ts:8-25 | every key has a non-empty Arabic entry |
| ErrorMessages.English | constants/index.ts:26-43 | every key has a non-empty English entry |
| ErrorMessages.French | constants/index.ts:44-64 | every key has a non-empty French entry |
| ErrorMessages.Text | constants/index.ts:7-65 | a known language's entry for a key is non-empty |
| ErrorMessages.Entry | lib/api.ts:21 | the table has an entry exactly for the languages ar, en, fr and the sixteen keys, so all three languages define the same key set |
| ErrorMessages.GetErrorMessage | lib/api.ts:19-25 | the message is never empty |
| ErrorMessages.KnownKeyIsTranslated | lib/api.ts:19-25 | a key of the table in a language of the table gets that language's own entry |
| ErrorMessages.UnknownLanguageFallsBackToEnglish | lib/api.ts:19-25 | an unknown language gives the same message as English |
| ErrorMessages.UnknownKeyGivesFallback | lib/api.ts:19-25 | a key outside the table gives "Unknown error" in every language |
| Transliteration.TableEntry | lib/api.ts:28-89 | only Arabic-range characters have a table entry, and no entry contains whitespace |
| Transliteration.TransliterateArabicToEnglish | lib/api.ts:92-101 | the transliterated name contains no whitespace |
| Transliteration.MapChar | lib/api.ts:98 | a character is never dropped; a non-Arabic one stays as it is, and a replaced one is replaced by its own table entry |
| Transliteration.MapAll | lib/api.ts:96-99 | the mapped text is never shorter than the name |
| Transliteration.MapAllAppend | lib/api.ts:96-98 | the per-character mapping distributes over concatenation |
| Transliteration.TransliterateAppend | lib/api.ts:92-101 | transliteration distributes over concatenation, so it works character by character |
| Transliteration.TransliterateOneChar | lib/api.ts:93-100 | one character becomes its table entry if it is Arabic and the entry is non-empty, is dropped if it is whitespace, and stays as it is otherwise |
| Transliteration.MapAllNonArabic | lib/api.ts:93-98 | characters outside the Arabic ranges are mapped to themselves, in order |
| Transliteration.NonArabicPassesThrough | lib/api.ts:93-100 | a name without Arabic characters comes out as itself with its whitespace removed |
| Transliteration.EmptyEntryKeepsCharacter | lib/api.ts:98 | an Arabic character whose entry is "" (hamza, tanween, shadda, sukun) is kept as itself |
| UserNames.IsUserNameExisting | lib/api.ts:104-117 | a failed query reads as "not taken", and a name is taken only when the query found a document |
| UserNames.BaseUserName | lib/api.ts:123 | the base name has no whitespace and no upper-case ASCII letter |
| UserNames.GenerateUniqueUserName | lib/api.ts:119-133 | the result is the first candidate of base, base1, base2, ... that the oracle does not report taken (a failed query counts as free) |
| UserNames.CandidateInjective | lib/api.ts:123-130 | no candidate is tried twice |
| UserNames.CandidateShape | lib/api.ts:127 | a candidate is the base, or the base followed by the step's decimal numeral without leading zero |
| UserNames.FirstFreeUnique | lib/api.ts:126-132 | the generated name is determined by the oracle: there is one first free step |
| Chats.ListChats | lib/api.ts:245-259 | a query returns exactly the chats where the user has the role and is in `visibility` |
| Chats.FindSelfChat | lib/api.ts:268-270 | the index found is that of the first chat of the user with themselves, and none is found only when there is none |
| Chats.EmptyUserIdFails | lib/api.ts:242 | an empty user id fails with "Unknown error" (the thrown text is not a table key) |
| Chats.FetchUserChats | lib/api.ts:237-284 | an empty user id fails; a successful answer is non-empty and lists only chats of the collection where the user is buyer or product owner and is in `visibility` |
| Chats.SelfChatWins | lib/api.ts:262-272 | when a self chat is visible, the answer is exactly the first visible self chat of the collection, alone |
| Chats.NoSelfChatConcatenates | lib/api.ts:262-277 | without a self chat the answer is the buyer chats followed by the owner chats, or chatNotFound when both are empty |
| Chats.NotFoundIffNoChat | lib/api.ts:262-277 | chatNotFound is answered exactly when the user has no visible chat in either role |
| Moderation.ReportsFor | lib/api.ts:800-807 | the query returns exactly the reports of that reporter on that user |
| Moderation.OutsideCooldown | lib/api.ts:809-813 | `every` holds exactly when every report is more than twenty days older than now |
| Moderation.ReportUser | lib/api.ts:793-837 | a refused report leaves the collection unchanged; an accepted one appends exactly the new report |
| Moderation.ReportAllowedIff | lib/api.ts:809-829 | with a working database a report is accepted exactly when every earlier report of the pair is more than 20 days old |
| Moderation.FirstReportAllowed | lib/api.ts:809-829 | a first report of the pair is always accepted |
| Moderation.ReportAgainWithinCooldownRefused | lib/api.ts:809-820 | a second report of the pair within 20 days is refused and creates nothing |
| Moderation.BansFor | lib/api.ts:765-769 | the query returns exactly the bans of that user by that moderator, and its first document is the first such ban of the collection |
| Moderation.BanUser | lib/api.ts:756-791 | a refused ban leaves the collection unchanged; a successful one appends exactly the new ban |
| Moderation.FetchBanStatus | lib/api.ts:839-865 | banned exactly when the query succeeds and the collection holds a ban of that user by that moderator; the reason is then the first such ban's reason, or "No reason provided" when it is missing or empty; not banned comes with a null reason |
| Moderation.BanGateMatchesStatus | lib/api.ts:772-774 | a ban is refused as a duplicate exactly when the status query reports the user banned by that moderator |
| Moderation.BanTwiceRefused | lib/api.ts:772-774 | banning the same user by the same moderator again is refused and creates nothing |
| Moderation.StatusAfterFirstBan | lib/api.ts:850-858 | after a ban the status is banned with the given reason, or "No reason provided" when it is missing or empty |
| Accounts.LookupField | lib/api.ts:638-639 | the email field is queried exactly when the identifier contains "@" |
| Accounts.FirstMatch | lib/api.ts:642-650 | the index found is that of the first user whose field equals the value, and none is found only when no user has it |
| Accounts.GetUserIdByPhoneOrEmail | lib/api.ts:632-662 | a failed query gives null; a returned id is that of the first user whose queried field equals the identifier |
| Accounts.LookupFindsMatchingUser | lib/api.ts:632-662 | a returned id belongs to a user whose queried field is the identifier, and null is returned exactly when no user has it |
| Accounts.EmailIdentifierQueriesEmail | lib/api.ts:638-650 | an identifier with "@" is never matched through the phone field |
| Accounts.FirstStatusOf | lib/api.ts:884-893 | the status document found belongs to the user and no earlier one does, and none is found only when the user has none |
| Accounts.SetStatus | lib/api.ts:576-584 | the update changes status and lastActive of the document with that id and nothing else |
| Accounts.UpdateUserStatus | lib/api.ts:555-592 | a document is returned exactly when the guard passes, the user exists, the lookups and the update succeed and a status document exists or is created; it belongs to the user, carries the new status and time, and is in the collection; the new collection is the old one with the user's first status document updated, or with a new document appended and updated, or unchanged (null and errors), except that a creation followed by a failed update leaves the created document |
| Accounts.FirstMatchById | lib/api.ts:867-877 | the user found has the given id, and none is found only when no user has it |
| Accounts.UpdateStatusGuard | lib/api.ts:559-562 | an empty user id or a non-string status gives null and changes nothing, whatever the SDK would answer |
| Accounts.RepeatedUpdateCreatesOnce | lib/api.ts:880-905 | a second status update of the same user creates no further document |
| Accounts.CompletePasswordReset | lib/api.ts:594-630 | the reset succeeds exactly when both arguments are given and the session call succeeds, and a missing argument gives the missing-parameter message |
| Accounts.ResetGuardIgnoresSession | lib/api.ts:599-601 | a missing user id or secret fails with the missing-parameter message before the session call |
| Accounts.ResetOutcome | lib/api.ts:594-630 | with both arguments the reset succeeds exactly when the session call does, and an "Invalid secret" failure becomes the expired-key message |
| Formatters.DiffInSeconds | constants/index.ts:336 | the difference in seconds is the floor of the millisecond difference over 1000 |
| Formatters.FormatTimeAgoLocalized | constants/index.ts:330-409 | whatever the difference, the text ends with a space and one of the words of the language, English for an unknown language |
| Formatters.SecondsShownUnclamped | constants/index.ts:388-389 | below 60 seconds, negative differences included, the number of seconds is shown as it is |
| Formatters.UnitFor | constants/index.ts:390-407 | a difference of a minute or more falls in the bucket of the unit chosen by the strict thresholds |
| Formatters.BucketsPartition | constants/index.ts:390-407 | the buckets cover every difference of a minute or more, and no two overlap |
| Formatters.BucketText | constants/index.ts:390-408 | in a unit's bucket the text is the floor count of that unit (at least 1) and its word |
| Formatters.PluralIffTwoUnits | constants/index.ts:390-407 | the plural word is used exactly when at least two whole units have passed |
| Formatters.CountReadsBack | constants/index.ts:388-408 | the text starts with the decimal count, which reads back as the count, then a space |
| Formatters.FormatViews | constants/index.ts:412-431 | a negative count is "0"; the one-decimal form appears only for a count of at least 1,000 that is not a multiple of the threshold it reached |
| Formatters.SmallViews | constants/index.ts:412-430 | a negative count is shown as "0", and 0 to 999 as the plain number |
| Formatters.SuffixChoice | constants/index.ts:415-428 | the million suffix is used from 1,000,000 on and the thousand suffix from 1,000 to 999,999, and an exact multiple is shown without ".0" |
| Formatters.SuffixFallsBackToEnglish | constants/index.ts:425 | a language without its own suffix gets the English one |
| Formatters.ExactMultiples | constants/index.ts:422-426 | 1000 is "1k", 2,000,000 is "2M", 5000 in Arabic is "5ألف" |
| PasswordRecovery.SendAttempt | components/Auth/ForgetReset.tsx:73-99 | the code counts as sent exactly when the account exists and sending succeeds, with a user id exactly on the phone path; "not found" (of the channel) exactly when the check says the account is missing; every other failure shows the send-failed message |
| PasswordRecovery.SendAttemptDispatchesOnlyExisting | components/Auth/ForgetReset.tsx:78-99 | the existence check on the dispatched identifier comes first; a code is sent on the matching channel exactly when the account exists; the OTP modal opens exactly when the code was also sent |
| PasswordRecovery.DispatchIdentifierIsTrimmed | components/Auth/ForgetReset.tsx:74-76 | the identifier checked and sent to starts with "+966" for a phone and continues with the trimmed value; for an e-mail it is the trimmed value; neither end of the trimmed value is whitespace |
| PasswordRecovery.ForgetReset.constructor | components/Auth/ForgetReset.tsx:36-45 | empty input, nothing loading, no modal, no user id, no error |
| PasswordRecovery.ForgetReset.ShowError | components/Auth/ForgetReset.tsx:47-51 | the error modal shows the message with the success flag; nothing else changes |
| PasswordRecovery.ForgetReset.HandleErrorModalClose | components/Auth/ForgetReset.tsx:53-56 | the error modal hides and its message is cleared |
| PasswordRecovery.ForgetReset.HandleChangeText | components/Auth/ForgetReset.tsx:58-60 | only the input changes |
| PasswordRecovery.ForgetReset.HandleBackPress | components/Auth/ForgetReset.tsx:62-65 | goes back to login and hides the error modal |
| PasswordRecovery.ForgetReset.HandleSendOtp | components/Auth/ForgetReset.tsx:67-103 | blank input shows an error with no call and `isLoading` untouched; otherwise the calls and the outcome are those of one send attempt, the phone path stores the returned user id, the e-mail path keeps it, and `isLoading` ends false |
| PasswordRecovery.ForgetReset.HandleOtpSuccess | components/Auth/ForgetReset.tsx:105-109 | the OTP modal hides, the message modal shows, and the reset-password screen opens |
| PasswordRecovery.ForgetReset.CloseOtpModal | components/Auth/ForgetReset.tsx:188 | only the OTP modal hides |
| PasswordResetModal.VerifyAttempt | components/Auth/VerifictionEandP.tsx:86-111 | the attempt ends with the success, failure or not-found message, and with success exactly when an id was resolved and both the verification and the user reload succeeded |
| PasswordResetModal.OnSuccessOnlyAfterVerification | components/Auth/VerifictionEandP.tsx:99-108 | `onSuccess` runs exactly when an id was resolved and the verification and the user reload succeeded, right after the reload, with the success message |
| PasswordResetModal.LookupGatesVerification | components/Auth/VerifictionEandP.tsx:87-96 | without a given user id the id is looked up by the identifier, and a failed lookup ends with the not-found message and no verification call |
| PasswordResetModal.VerificationChannel | components/Auth/VerifictionEandP.tsx:87-103 | a phone verifies with the phone-session reset, an e-mail with the e-mail-token reset, with the entered code and the resolved id: the given user id as the first call, or the looked-up id right after the lookup |
| PasswordResetModal.VerifictionEandP.constructor | components/Auth/VerifictionEandP.tsx:43-46 | empty code, not submitting, no resend yet, no error |
| PasswordResetModal.VerifictionEandP.HandleOtpChange | components/Auth/VerifictionEandP.tsx:167 | only the code changes |
| PasswordResetModal.VerifictionEandP.HandleResendOtp | components/Auth/VerifictionEandP.tsx:59-74 | after a resend nothing happens; otherwise one send on the identifier's channel, and the flag is set exactly when it succeeds, with the matching message |
| PasswordResetModal.VerifictionEandP.HandleVerifyOtp | components/Auth/VerifictionEandP.tsx:76-115 | a code under 6 digits shows an error with no call, checked before `isSubmitting`; while submitting nothing happens; otherwise one attempt runs and `isSubmitting` ends false |
| PasswordResetModal.VerifictionEandP.OnClose | components/Auth/VerifictionEandP.tsx:117-121 | clears the error, re-arms the resend, and closes |
| PasswordResetModal.VerifictionEandP.ClearError | components/Auth/VerifictionEandP.tsx:57 | only the error is cleared |
| PasswordResetModal.ResendTwiceDispatchesOnce | components/Auth/VerifictionEandP.tsx:59-68 | two resends in a row, the first successful, dispatch once |
| SignupVerification.VerifyAttempt | components/Auth/VerificationPage.tsx:76-100 | the vendor call on the phone or e-mail comes first; the attempt succeeds exactly when the vendor accepts and, for a phone sign-up, both account calls succeed; any failure shows the failure message |
| SignupVerification.RejectedCodeChangesNoAccount | components/Auth/VerificationPage.tsx:90-100 | a rejected code ends with the failure message after the vendor call alone: no account call, no `onSuccess` |
| SignupVerification.AccountCallsOnlyForPhoneSignup | components/Auth/VerificationPage.tsx:86-95 | the vendor call comes first; the user is created exactly when creating by phone after an accepted code, and the phone number is set right after a successful creation |
| SignupVerification.OnSuccessOnlyAfterEverything | components/Auth/VerificationPage.tsx:90-100 | the attempt succeeds exactly when the vendor and (for a phone sign-up) both account calls succeed, and `onSuccess` is then the last call |
| SignupVerification.VerificationPage.constructor | components/Auth/VerificationPage.tsx:31-37 | empty code, not submitting, resend not pressed, no message modal |
| SignupVerification.VerificationPage.SetIsModal | components/Auth/VerificationPage.tsx:51-53 | the code is cleared exactly when `ismodal` changes |
| SignupVerification.VerificationPage.HandleOtpChange | components/Auth/VerificationPage.tsx:124 | only the code changes |
| SignupVerification.VerificationPage.ShowError | components/Auth/VerificationPage.tsx:39-43 | the message modal shows the message with the success flag |
| SignupVerification.VerificationPage.HandleClose | components/Auth/VerificationPage.tsx:44-47 | the message modal hides and its message is cleared |
| SignupVerification.VerificationPage.ResendCode | components/Auth/VerificationPage.tsx:55-62 | the first phone resend updates the phone and sends, then sets `hasPressed`; every other resend sends an e-mail code and leaves `hasPressed` |
| SignupVerification.VerificationPage.CloseAndRedirect | components/Auth/VerificationPage.tsx:64-68 | the message modal hides, `hasPressed` resets, and the modal closes |
| SignupVerification.VerificationPage.VerifyOtp | components/Auth/VerificationPage.tsx:70-104 | a code under 4 digits shows an error with no call; otherwise, whatever `isSubmitting` was, one attempt runs, success hides the message modal and failure shows the failure message, and `isSubmitting` ends false |
| RecoveryFlow.UntrimmedEmailIsNotFound | components/Auth/ForgetReset.tsx:186 | an e-mail typed with a leading space is checked and sent to as trimmed and found, but the modal's lookup of the typed value finds nobody |
| RecoveryFlow.UntrimmedIdentifierIsNotFound | components/Auth/ForgetReset.tsx:186 | when stored e-mails and phones do not start with whitespace, a typed value that does is never found by the modal |
| RecoveryFlow.TrimmedModalFindsDispatchedUser | components/Auth/ForgetReset.tsx:74-76 | handing the modal the trimmed value makes it use the identifier the code was sent to, and its e-mail lookup then finds the user the existence check found |

## Left out

- SDK and network calls are parameters, not models. This covers Appwrite `account`, `databases`, `storage` and `avatars`, the OTP vendor's `fetch`, `UpdatePhoneNumberAndSendOTP` and `fetchBasicUserData`. Their outcomes enter as `bool` or `Option` parameters, and a query is a filter over a collection in collection order.
- `Promise.all` in `fetchUserChats`: the two queries are two filters; their concurrency is not modelled.
- `Date.now()` and `new Date()`: the clock is an integer in milliseconds, and the time difference is an integer number of seconds.
- Clocks: `$createdAt` and the client clock are taken to be on the same scale.
- Formatters.FormatViews: the text of a non-multiple of a threshold (`toFixed(1)` rounding, e.g. 1,500 as "1.5k" or 999,999 as "1000k") is left as the abstract `OneDecimal` label. That is floating-point formatting. Fractional view counts are not modelled either.
- UserNames.BaseUserName: `toLowerCase` is modelled for ASCII letters only. Unicode case mapping is not modelled.
- UserNames.GenerateUniqueUserName: the source loops for ever when every candidate is taken. The model asks for a ghost step whose candidate is free, so it covers only runs that end.
- Transliteration.TableEntry: the table's one two-character key (U+0653 followed by a space) can never match a single character of `split("")`, so it is not in the table.
- ErrorMessages.GetErrorMessage: keys or languages that name `Object.prototype` members (such as "constructor") are not modelled. Every string outside the table is treated as missing.
- Chats.FetchUserChats: a failing list query is not modelled. The model takes both queries as succeeding.
- Accounts.CompletePasswordReset: the message of a rethrown non-`Error` value and `newPassword` (unused by the source) are not modelled.
- PasswordResetModal.VerifictionEandP.HandleVerifyOtp: each handler runs to completion as one step. Interleaving of two awaited handlers is not modelled; "in flight" is `isSubmitting` being true on entry.
- `createUser`, `updateUser`, `updateUserProfileImage` payload building and JSON serialisation are not modelled: they are SDK payloads.
- `lib/config.ts` and `types/appwriteTypes.ts` are not modelled: they hold configuration and declarations only.
- JSX, styling, navigation targets, `ErrorModal` rendering, console logging and the vendor key are not modelled.

## Findings

| source | as written | input that shows it | evidently intended | confidence | as-written member | corrected member |
|---|---|---|---|---|---|---|
| components/Auth/ForgetReset.tsx:186 | the reset modal receives the untrimmed `form.value`, while the existence check and the send used the trimmed value; on the e-mail path no user id is passed, so the modal looks the user up by the untrimmed text | e-mail typed as " a@b.sa" with a user whose e-mail is "a@b.sa": the code is sent, then verification answers "user not found" | the modal works on the same trimmed value the code was sent to | medium, not executed | RecoveryFlow.UntrimmedEmailIsNotFound | RecoveryFlow.TrimmedModalFindsDispatchedUser |
