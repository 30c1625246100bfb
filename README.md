# Feedback form front end: the form logic, in Dafny

This project models the client-side form logic of a Next.js front end for a
profile and support site. Four React components hold that logic:

- **The dashboard's profile editor** (`app/dashboard/page.tsx`):
  - the draft `formData`, the `validationErrors` map and the flags `isLoading`, `isSaving`, `profileExists` and `isUploadingPhoto`;
  - the digits-only phone input, the eager clearing of a field's message and `validateForm` with its four social-link regexes;
  - the save payload, the mapping of a loaded profile (or its absence) to a fully defaulted draft;
  - the gates of the photo upload and removal.
- **The support dialog** (`components/SupportModal.tsx`):
  - the ticket draft, the chosen screenshot, the error map and the `isSubmitting`/`submitSuccess` flags;
  - the ten-digit contact number and the trimmed length bounds;
  - the screenshot gate, the upload-then-submit order of the backend calls, and the close and reset rules.
- **The sign-up and log-in pages** (`app/signup/page.tsx`, `app/login/page.tsx`):
  - the e-mail and password validators (the log-in password rule is weaker than the sign-up one);
  - the change, blur and submit handlers with their error records;
  - the classification of a "duplicate e-mail" failure;
  - the `user` and `rememberMe` keys of `localStorage`, modelled as a string map.

## Modelling choices

Each component is a `class` whose fields are the component's state. Each handler is a
method whose `modifies` clause names the object and whose `ensures` clauses state the
whole new state.

The rules the handlers apply are plain functions in separate modules:
`ProfileRules`, `SupportRules`, `Credentials` and `ProfileSync`. Their properties are
lemmas in `ProfileRuleProperties`, `SupportRuleProperties` and `CredentialProperties`.

**Asynchronous handlers.** An asynchronous handler is split at its first `await`:

- A `Begin…` method runs the synchronous part. It says which backend call, if any, is made and with what argument.
- A `…Settled` method runs the continuation. The call's outcome is an input.
- A continuation that spreads `formData` takes the draft its closure captured as a parameter, because that is the value the source spreads.

**Single flight.** The source stops a second submission only by disabling the button
(`disabled={isSaving}`, `disabled={isSubmitting}`, `disabled={isLoading}`). The model
states this as an explicit guard in each `Begin…` method, which returns a `…Blocked`
result. The support dialog's guard also covers `submitSuccess`, because the dialog does
not render its form after a success (`components/SupportModal.tsx:203`).

**Regular expressions.** Each regular expression of the source is a constant of the
small anchored matcher in `Pattern`. Its atoms are a literal, an optional literal, a
choice of literals, a repeated character class and a word boundary. The constants are
transcribed atom by atom. JavaScript's `\w` is `[A-Za-z0-9_]`, and `\s` and `trim()`
use the JavaScript whitespace set written out in `Text.IsSpace`.

**Lengths.** A JavaScript string is a sequence of UTF-16 code units, and `length`
counts them. A Dafny `string` is a sequence of Unicode scalar values. Every `length` of
the source is therefore `Text.Utf16Length`, in which a character above U+FFFF counts
twice. Examples: three emoji make a log-in password of length 6, and 300 emoji make an
"about" text of length 600. The source's regular expressions have no `u` flag, so they
also see code units. Every class they test is ASCII, except `[^\s@]`, which admits both
halves of a surrogate pair. So matching characters gives the same verdicts as matching
code units, and `Pattern` matches characters.

Behaviours of the source that the model keeps as written:

- The YouTube URL pattern (`app/dashboard/page.tsx:364`) has no `/` between `c|channel` and the name:
  - `https://youtube.com/channel/X` is rejected and `https://youtube.com/@X` is accepted;
  - `ProfileRuleProperties.YoutubeUrlShape` shows that an accepted URL has `youtube.com/` at index 7 to 12 and no `/` after it, except possibly a final one.
- The gender `Select` (`app/dashboard/page.tsx:854`) sets the value without clearing the gender message (`ProfileEditor.Editor.SelectGender`).
- The "about" counter `500 - about.length` (`app/dashboard/page.tsx:921`) goes negative past 500 code units, because the input has no cap.
- Both image gates accept a file of exactly 5·1024·1024 bytes.
- A profile whose date of birth cannot be converted is loaded as a missing profile. The exception lands in the same `catch` as a failed `getUserProfile`.
- The support dialog's `validate` replaces the whole error map, so it also drops a screenshot message and a submit message.
- The photo continuations spread the draft captured when the handler started, so an edit made while the upload runs is overwritten.
- Logging in with "remember me" cleared never removes a `rememberMe` key stored earlier.

## Model

| member | source | states |
|---|---|---|
| Text.DigitsOnly | app/dashboard/page.tsx:282 | `value.replace(/\D/g, '')` keeps only digits and never lengthens the input |
| Text.DigitsOnlyOneChar | app/dashboard/page.tsx:282 | a single character is kept exactly when it is a digit, so a non-digit is dropped |
| Text.DigitsOnlyAppend | app/dashboard/page.tsx:282 | the digit filter distributes over concatenation, so it keeps the digits in their order |
| Text.DigitsOnlyFixesDigits | app/dashboard/page.tsx:282 | the digit filter leaves a string unchanged exactly when it is all digits |
| Text.DigitsOnlyIdempotent | app/dashboard/page.tsx:282 | filtering twice gives the same as filtering once |
| Text.Utf16Length | app/dashboard/page.tsx:317 | `length` counts UTF-16 code units: at least the number of characters and at most twice it, and zero only for the empty string |
| Text.Utf16LengthOfBmp | app/dashboard/page.tsx:324 | `length` equals the number of characters exactly when no character lies above U+FFFF |
| Text.Utf16LengthOfDigits | app/dashboard/page.tsx:317 | the `length` of a digit string is its number of digits |
| Text.Utf16LengthAboveBmp | app/dashboard/page.tsx:921 | a string made only of characters above U+FFFF has twice as many code units as characters |
| Text.TrimStart | components/SupportModal.tsx:99 | `trim()` drops a leading run of whitespace and stops at the first non-space character |
| Text.TrimEnd | components/SupportModal.tsx:99 | `trim()` drops a trailing run of whitespace and stops at the last non-space character |
| Text.TrimEmptyIffBlank | app/dashboard/page.tsx:305 | `v.trim() === ''` holds exactly when every character of `v` is whitespace |
| Text.TrimOfDigits | components/SupportModal.tsx:115 | trimming a digit string changes nothing, so a stored contact number is blank only when empty |
| Text.BeforeFirst | app/dashboard/page.tsx:145 | `split('@')[0]` is the prefix of the e-mail before its first `@` and holds no `@` |
| Text.ContainsToLower | app/signup/page.tsx:116 | lower-casing keeps an occurrence of a substring, so a lower-case phrase is found in a lower-cased message |
| Forms.Or | app/dashboard/page.tsx:127 | `x \|\| fallback` gives the fallback for a missing or empty string and the string otherwise |
| Forms.ClearFieldError | app/dashboard/page.tsx:296-298 | clearing a message keeps the key set, blanks the edited key if present and leaves every other message |
| Forms.ClearIsUnconditionalWrite | components/SupportModal.tsx:57-59 | the guarded write `if (errors[name]) errors[name] = ''` equals writing `''` to the key whenever it is present |
| Forms.ClearIdempotent | app/dashboard/page.tsx:296-298 | clearing the same field twice is the same as clearing it once |
| ImageFile.ImageError | app/dashboard/page.tsx:203-213 | a file passes exactly when its MIME type is one of the four image types and its size is at most 5 MB; type is checked before size |
| ImageFile.SizeLimitInclusive | components/SupportModal.tsx:66-76 | a 5242880-byte PNG passes, one byte more is too large, and `image/webp` is refused |
| ProfileRules.ProfileData.Set | app/dashboard/page.tsx:293 | `{ ...formData, [name]: value }` changes the named field and no other |
| ProfileRules.CharactersRemaining | app/dashboard/page.tsx:921 | the counter is negative exactly when the about text's `length` exceeds 500, and is 500 exactly for the empty text |
| ProfileRules.RequiredError | app/dashboard/page.tsx:305-311 | a required check gives its message exactly when the value is empty or whitespace, and nothing otherwise |
| ProfileRules.PhoneError | app/dashboard/page.tsx:315-319 | the phone check gives no message, the required one or the length one, and the required one exactly when the phone is blank |
| ProfileRules.AboutError | app/dashboard/page.tsx:322-326 | the about check gives no message, the required one or the too-long one, and the required one exactly when the text is blank |
| ProfileRules.LinkedinError | app/dashboard/page.tsx:329-336 | the LinkedIn check gives no message or the URL message, and the URL message only for a value mentioning `linkedin.com` |
| ProfileRules.WebsiteError | app/dashboard/page.tsx:339-344 | the website check gives no message or the website message, and nothing for an empty value |
| ProfileRules.InstagramError | app/dashboard/page.tsx:347-359 | the Instagram check gives the URL message only for a value mentioning `instagram.com`, and the username message only for a non-empty value not mentioning it |
| ProfileRules.YoutubeError | app/dashboard/page.tsx:362-374 | the YouTube check gives the URL message only for a value mentioning `youtube.com`, and the handle message only for a value starting with `@` that does not mention it |
| ProfileRules.FieldError | app/dashboard/page.tsx:301-374 | e-mail, date of birth and photo are never checked, and a message is never empty |
| ProfileRules.FormErrors | app/dashboard/page.tsx:301-377 | the error map never holds the e-mail, date of birth or photo |
| ProfileRuleProperties.RequiredIffBlank | app/dashboard/page.tsx:305-311 | the name and gender checks give their message exactly when the value is empty or whitespace |
| ProfileRuleProperties.PhoneErrorCases | app/dashboard/page.tsx:315-319 | a blank phone gets the required message before the length message; the phone passes exactly when not blank and 10 long |
| ProfileRuleProperties.DigitPhoneError | app/dashboard/page.tsx:315-319 | for a digits-only phone: empty is required, another length than 10 is the length message, 10 digits pass |
| ProfileRuleProperties.AboutErrorCases | app/dashboard/page.tsx:322-326 | a blank about text gets the required message before the too-long one; it passes exactly when not blank and the counter is not negative |
| ProfileRuleProperties.AboutCountsCodeUnits | app/dashboard/page.tsx:322-326 | more than 250 characters above U+FFFF are too long for the about text, and the counter shows 500 minus twice their number |
| ProfileRuleProperties.SocialFieldsOptional | app/dashboard/page.tsx:329-374 | an empty social field never produces a message |
| ProfileRuleProperties.LinkedinLoose | app/dashboard/page.tsx:329-336 | a LinkedIn value that does not mention `linkedin.com` is always accepted |
| ProfileRuleProperties.YoutubeLoose | app/dashboard/page.tsx:362-374 | a YouTube value that neither mentions `youtube.com` nor starts with `@` is always accepted |
| ProfileRuleProperties.SchemeRequired | app/dashboard/page.tsx:331 | a value matched by a pattern starting `https?://` starts with `http://` or `https://` |
| ProfileRuleProperties.LinkedinUrlNeedsScheme | app/dashboard/page.tsx:329-336 | an accepted value mentioning `linkedin.com` starts with `http://` or `https://` |
| ProfileRuleProperties.WebsiteNeedsScheme | app/dashboard/page.tsx:339-344 | an accepted non-empty website starts with `http://` or `https://`, as its message says |
| ProfileRuleProperties.InstagramUsernameShape | app/dashboard/page.tsx:354 | `^[\w.-]+$` matches exactly the non-empty strings of word characters, dots and dashes |
| ProfileRuleProperties.HandleMatchHasShape | app/dashboard/page.tsx:369 | a string matched by `^@[\w-]+$` is `@` followed by at least one word character or dash |
| ProfileRuleProperties.ShapeMatchesHandle | app/dashboard/page.tsx:369 | every `@` followed by at least one word character or dash is matched by `^@[\w-]+$` |
| ProfileRuleProperties.YoutubeHandleShape | app/dashboard/page.tsx:369 | `^@[\w-]+$` matches exactly `@` followed by a non-empty run of word characters and dashes |
| ProfileRuleProperties.InstagramUsernameRule | app/dashboard/page.tsx:353-358 | a non-empty value not mentioning `instagram.com` is accepted exactly when it is a username, else it gets the username message |
| ProfileRuleProperties.YoutubeHandleRule | app/dashboard/page.tsx:368-372 | a value starting with `@` and not mentioning `youtube.com` is accepted exactly when it is a well-formed handle |
| ProfileRuleProperties.InstagramUrlRule | app/dashboard/page.tsx:348-352 | a value mentioning `instagram.com` gets the URL message exactly when the Instagram URL pattern fails |
| ProfileRuleProperties.YoutubeUrlRule | app/dashboard/page.tsx:363-367 | a value mentioning `youtube.com` gets the URL message exactly when the YouTube URL pattern fails |
| ProfileRuleProperties.YoutubeUrlShape | app/dashboard/page.tsx:364 | an accepted YouTube URL has `youtube.com/` at index 7 to 12, right after the scheme and an optional `www.`, and no `/` after it but a final one, so `/channel/ID` is refused |
| ProfileRuleProperties.AllFieldsListed | app/dashboard/page.tsx:78-90 | the list of fields the error map ranges over holds every field of the draft |
| ProfileRuleProperties.FormErrorsEmptyIff | app/dashboard/page.tsx:376-377 | the error map is empty exactly when no field check fails |
| ProfileRuleProperties.EmptyErrorsAllPass | app/dashboard/page.tsx:301-377 | an empty error map means each of the eight checks passes |
| ProfileRuleProperties.PassingFieldHasNoError | app/dashboard/page.tsx:301-377 | when each of the eight checks passes, no field has a message |
| ProfileRuleProperties.EmptyErrorsIffAllPass | app/dashboard/page.tsx:301-377 | `validateForm` succeeds exactly when name, gender, phone, about and the four social checks all pass |
| ProfileRuleProperties.ValidDraftIsComplete | app/dashboard/page.tsx:301-377 | a valid draft has non-blank name, gender and about, a 10-character phone, an about text within 500, a scheme on LinkedIn URLs and websites, and well-formed usernames and handles |
| ProfileRuleExamples.InstagramUsernameAccepted | app/dashboard/page.tsx:354-357 | `my.user_1` is accepted as an Instagram username |
| ProfileRuleExamples.InstagramUsernameWithSpaceRejected | app/dashboard/page.tsx:354-357 | `my user` gets the username message |
| ProfileRuleExamples.InstagramUrlAccepted | app/dashboard/page.tsx:348-352 | `https://instagram.com/myuser` is accepted |
| ProfileRuleExamples.InstagramUrlWithSpaceRejected | app/dashboard/page.tsx:348-352 | `https://instagram.com/my user` gets the URL message |
| ProfileRuleExamples.YoutubeHandleUrlAccepted | app/dashboard/page.tsx:363-367 | `https://youtube.com/@X` is accepted |
| ProfileRuleExamples.YoutubeChannelUrlRejected | app/dashboard/page.tsx:363-367 | `https://youtube.com/channel/X` gets the URL message |
| ProfileRuleExamples.WebsiteAccepted | app/dashboard/page.tsx:339-344 | `https://example.com` is accepted as a website |
| ProfileRuleExamples.WebsiteWithoutSchemeRejected | app/dashboard/page.tsx:339-344 | `example.com` without a scheme gets the website message |
| ProfileSync.OrNull | app/dashboard/page.tsx:394-395 | `x \|\| null` is null exactly for the empty string and the string otherwise |
| ProfileSync.ToPayload | app/dashboard/page.tsx:391-406 | the payload copies name, e-mail, gender and about, sends the phone as `phoneNumber` with country code `+91`, sends an empty photo or date as null and nests the four social fields |
| ProfileSync.BlankDraft | app/dashboard/page.tsx:144-156 | the default draft has the given name and e-mail and every other field empty |
| ProfileSync.EmailName | app/dashboard/page.tsx:145 | the default name is a prefix of the e-mail holding no `@` |
| ProfileSync.DayOf | app/dashboard/page.tsx:129 | the day part of the converted date exists exactly when the conversion succeeds and holds no `T` |
| ProfileSync.DraftFromRecord | app/dashboard/page.tsx:126-138 | a loaded profile yields a draft with the account's e-mail and the profile's name or the e-mail prefix, and fails exactly when a present date cannot be converted |
| ProfileSync.LoadedState | app/dashboard/page.tsx:105-183 | a failed `getMe` keeps `profileExists` and uses the stored e-mail; a missing profile sets it false with the default draft; a found profile sets it true with the converted draft, or false with the default draft when the conversion fails; otherwise the backend's user id and e-mail are used |
| ProfileSync.ReloadAfterSave | app/dashboard/page.tsx:391-406 | loading the record a saved payload produces gives back the draft, for a named draft whose date survives conversion |
| ProfileSync.ValidDraftReloads | app/dashboard/page.tsx:380-406 | every draft that passes `validateForm` reloads unchanged after a save, given a date that survives conversion |
| ProfileEditor.Join | app/dashboard/page.tsx:427 | `join` of no element is empty, of one element is that element, and of a non-empty list starts with its first element |
| ProfileEditor.JoinContainsEach | app/dashboard/page.tsx:427 | every element of the list occurs in its `join` |
| ProfileEditor.SaveNotice | app/dashboard/page.tsx:414-436 | a success says "updated" or "saved" by whether the profile existed; a failure without a parsed list shows its message or the fallback; a message holding `[` with a parsed list gives "Validation errors:\n" followed by the list joined by newlines |
| ProfileEditor.CollectErrors | app/dashboard/page.tsx:302-374 | filling the error map field by field gives the map of the failing fields' messages |
| ProfileEditor.InOrderIsFormErrors | app/dashboard/page.tsx:302-374 | the map filled in source order is the error map of the draft |
| ProfileEditor.CheckDraft | app/dashboard/page.tsx:301-377 | the map built field by field is the draft's error map, and it has no keys exactly when it is empty |
| ProfileEditor.Editor.constructor | app/dashboard/page.tsx:73-90 | a new editor is loading, with an empty draft and error map and no save, upload or profile |
| ProfileEditor.Editor.Load | app/dashboard/page.tsx:100-188 | after loading, the draft, user id and `profileExists` are those of the load outcome and loading has ended; nothing else changes |
| ProfileEditor.Editor.HandleChange | app/dashboard/page.tsx:275-299 | called only for the inputs that have the handler (not e-mail, gender or photo); a phone edit stores its digits or is dropped when they exceed ten; any other edit sets the field; an accepted edit clears only that field's message; a digits-only phone of at most ten stays so |
| ProfileEditor.Editor.SelectGender | app/dashboard/page.tsx:854 | the gender is set and the error map is left as it was |
| ProfileEditor.Editor.ValidateForm | app/dashboard/page.tsx:301-378 | the error map becomes the draft's error map and the result is true exactly when it is empty |
| ProfileEditor.Editor.BeginSave | app/dashboard/page.tsx:380-409 | validation runs first; an invalid draft or a missing user sends nothing and leaves `isSaving` clear; otherwise the draft's payload is sent and `isSaving` is set |
| ProfileEditor.Editor.SaveSettled | app/dashboard/page.tsx:409-439 | runs only while a save is in flight; the notice is the outcome's message, `profileExists` becomes true on success, and `isSaving` is cleared either way |
| ProfileEditor.Editor.BeginPhotoChange | app/dashboard/page.tsx:198-219 | a missing file does nothing, a file failing the image gate is refused with its message, and only an accepted file is uploaded, setting `isUploadingPhoto` |
| ProfileEditor.UploadNotice | app/dashboard/page.tsx:219-242 | no alert exactly when the upload succeeded for no known user; the success text after the link call returned; otherwise the error's message or the upload fallback; an alert is never empty |
| ProfileEditor.RemoveNotice | app/dashboard/page.tsx:253-272 | the success text after the delete call returned, otherwise the error's message or the removal fallback; never empty |
| ProfileEditor.Editor.PhotoSettled | app/dashboard/page.tsx:219-244 | runs only while the upload `BeginPhotoChange` started is in flight, for the draft it captured; the photo is linked only after an upload for a known user, and the draft takes the new URL only when linking succeeded; the alert is `UploadNotice`'s; `isUploadingPhoto` is cleared |
| ProfileEditor.Editor.PhotoChange | app/dashboard/page.tsx:198-244 | run without interleaving, the handler starts an upload exactly when none is in flight and the file passes the image gate; a missing or rejected file leaves the draft unchanged; otherwise the draft takes the URL only when the upload, a known user and the link all succeeded, the alert is `UploadNotice`'s, and the upload flag ends cleared |
| ProfileEditor.Editor.BeginRemovePhoto | app/dashboard/page.tsx:247-254 | the delete call is made exactly when the user confirmed and the user id is known, and then counts as outstanding; nothing else changes |
| ProfileEditor.Editor.RemovePhotoSettled | app/dashboard/page.tsx:254-272 | the continuation runs only for an outstanding delete call; the captured draft loses its photo only when that call returned; otherwise the draft is unchanged; the alert is `RemoveNotice`'s |
| ProfileEditor.Editor.RemovePhoto | app/dashboard/page.tsx:247-273 | run without interleaving, the handler clears the photo exactly when the user confirmed, the user id was known and the delete call returned, and changes nothing else; an alert is shown exactly when the delete call was made |
| ProfileEditor.SentPayloadIsComplete | app/dashboard/page.tsx:380-406 | a payload sent after validation has non-blank name, gender and about, a 10-character phone with `+91`, and a null date exactly when the draft has none |
| SupportRules.TicketDraft.Set | components/SupportModal.tsx:52-54 | `{ ...formData, [name]: value }` changes the named input and no other |
| SupportRules.ContactDigits | components/SupportModal.tsx:51 | the stored contact number is all digits and at most ten long |
| SupportRules.BoundedTextError | components/SupportModal.tsx:99-113 | a trimmed-length check gives no message or one of its three messages, and the required one for a blank value |
| SupportRules.SubjectError | components/SupportModal.tsx:99-105 | the subject check gives no message or one of its three, and the required one exactly for a blank subject |
| SupportRules.DescriptionError | components/SupportModal.tsx:107-113 | the description check gives no message or one of its three, and the required one exactly for a blank description |
| SupportRules.ContactError | components/SupportModal.tsx:115-119 | the contact check gives no message, the required one or the invalid one, and the required one exactly for a blank value |
| SupportRules.TicketErrors | components/SupportModal.tsx:96-122 | `validate` never puts a screenshot or submit message in the map |
| SupportRuleProperties.ContactDigitsPrefix | components/SupportModal.tsx:51 | the stored contact number is the first ten digits of the input, in order |
| SupportRuleProperties.ContactDigitsIdempotent | components/SupportModal.tsx:51 | re-entering a stored contact number stores it unchanged |
| SupportRuleProperties.BoundedTextCases | components/SupportModal.tsx:99-113 | for a trimmed-length check, blank gives the required message, then a length below the minimum the too-short message, then one above the maximum the too-long message, and it passes exactly within the bounds |
| SupportRuleProperties.SubjectErrorCases | components/SupportModal.tsx:99-105 | a blank subject is required; otherwise a trimmed length below 5 is too short and one above 100 too long; it passes exactly when the length is 5 to 100 |
| SupportRuleProperties.DescriptionErrorCases | components/SupportModal.tsx:107-113 | a blank description is required; otherwise a trimmed length below 10 is too short and one above 1000 too long; it passes exactly when the length is 10 to 1000 |
| SupportRuleProperties.ContactPatternShape | components/SupportModal.tsx:117 | `^[0-9]{10}$` matches exactly the strings of ten digits |
| SupportRuleProperties.ContactErrorCases | components/SupportModal.tsx:115-119 | a blank contact number is required; it passes exactly when it is ten digits |
| SupportRuleProperties.StoredContactError | components/SupportModal.tsx:115-119 | a stored contact number is required exactly when empty and passes exactly when ten long |
| SupportRuleProperties.InputKeysListed | components/SupportModal.tsx:96-119 | every ticket input has a key among those `validate` fills |
| SupportRuleProperties.TicketErrorsAt | components/SupportModal.tsx:96-121 | a key is in the error map exactly when it names an input whose check fails, and holds that message |
| SupportRuleProperties.TicketErrorsOnlyInputs | components/SupportModal.tsx:96-121 | `validate` never sets a screenshot or submit message, and sets an input's key exactly when its check fails |
| SupportRuleProperties.TicketErrorsEmptyIff | components/SupportModal.tsx:121-122 | the error map is empty exactly when the three input checks pass |
| SupportModal.SubmitCalls | components/SupportModal.tsx:144-160 | the upload call comes before the ticket and only with a screenshot; a failed upload sends no ticket; the ticket carries the uploaded URL or `''` |
| SupportModal.Modal.constructor | components/SupportModal.tsx:33-42 | a new dialog has an empty draft, no screenshot, no errors and no submission |
| SupportModal.Modal.HandleChange | components/SupportModal.tsx:44-60 | the contact number keeps its first ten digits, other inputs take the value, and only the edited input's message is cleared |
| SupportModal.Modal.HandleFileChange | components/SupportModal.tsx:62-86 | a refused file sets only the screenshot message; an accepted one replaces the screenshot and preview and clears that message |
| SupportModal.Modal.RemoveScreenshot | components/SupportModal.tsx:88-94 | the screenshot and preview are dropped and the revoked URL is the old preview when there was one |
| SupportModal.Modal.Validate | components/SupportModal.tsx:96-123 | the error map becomes the draft's input messages and the result is true exactly when it is empty |
| SupportModal.Modal.BeginSubmit | components/SupportModal.tsx:135-142 | validation runs first and rebuilds the error map; an invalid ticket starts nothing; a valid one captures the draft and screenshot and sets `isSubmitting` |
| SupportModal.Modal.HandleSubmit | components/SupportModal.tsx:135-172 | run without interleaving, the handler submits exactly when nothing is in flight, no success is shown and the draft has no errors; an invalid draft makes no call and shows its errors; a submission makes the draft's call sequence, clears the flag and succeeds as `Succeeds` says; the draft and screenshot are kept |
| SupportModal.Modal.SubmitSettled | components/SupportModal.tsx:144-171 | runs only while the submission `BeginSubmit` started is in flight, for the draft and screenshot it captured; the calls made are the submission's call sequence; success shows the confirmation; any failure leaves only the submit message; `isSubmitting` is cleared |
| SupportModal.Modal.Reset | components/SupportModal.tsx:177-184 | the draft, screenshot, preview, errors and success flag return to a fresh dialog's |
| SupportModal.Modal.HandleClose | components/SupportModal.tsx:174-186 | closing is refused while submitting or after success; otherwise the dialog is reset |
| SupportModal.Modal.HandleSuccessClose | components/SupportModal.tsx:188-198 | the dialog is reset whatever its state |
| SupportModal.CollectErrors | components/SupportModal.tsx:97-119 | filling the error map input by input gives the map of the failing inputs' messages |
| SupportModal.InOrderIsTicketErrors | components/SupportModal.tsx:97-119 | the map filled in source order is the ticket's error map |
| Credentials.CredentialErrors.With | app/signup/page.tsx:65 | `{ ...errors, [name]: message }` sets the named field's message and no other |
| Credentials.EmailError | app/signup/page.tsx:30-39 | the e-mail check gives no message, the required one or the invalid one, and the required one exactly for the empty value |
| Credentials.LoginPasswordError | app/login/page.tsx:42-50 | a password passes exactly when its `length` is at least 6; the empty one gets the required message and a shorter non-empty one the too-short message |
| Credentials.SignupPasswordError | app/signup/page.tsx:41-58 | a password passes exactly when its `length` is at least 6 with a lower-case letter, an upper-case letter and a digit; the log-in rule's message comes first, then a missing lower-case letter, then upper-case, then digit |
| Credentials.SignupFailureErrors | app/signup/page.tsx:113-130 | a failure sets either the duplicate message on the e-mail, or the message or fallback as the general error, never a password message |
| Credentials.LoginFailureErrors | app/login/page.tsx:111-116 | a failure clears both field messages and sets the general one to the message, or the fallback when it is missing or empty |
| CredentialProperties.EmailPatternPinned | app/signup/page.tsx:31 | the e-mail pattern constant is `[^\s@]+@[^\s@]+\.[^\s@]+`, anchored |
| CredentialProperties.MatchIsWellFormed | app/signup/page.tsx:31 | a string the e-mail pattern matches has no whitespace, exactly one `@`, and a dot after it with text on each side |
| CredentialProperties.WellFormedMatches | app/signup/page.tsx:31 | every such string is matched by the e-mail pattern |
| CredentialProperties.EmailErrorCases | app/signup/page.tsx:30-39 | an e-mail passes exactly when well formed; the empty one gets the required message and any other ill-formed one the invalid message |
| CredentialProperties.LoginPasswordCountsCodeUnits | app/login/page.tsx:46 | three emoji make a password of `length` 6, which the log-in page accepts |
| CredentialProperties.SignupStricterThanLogin | app/login/page.tsx:42-50 | every password the sign-up page accepts, the log-in page accepts |
| CredentialProperties.SignupPasswordExamples | app/signup/page.tsx:41-58 | `Abc123` passes both rules, `abc123` lacks an upper-case letter but passes log-in, `ABC123` lacks lower case, `Abcdef` lacks a digit |
| CredentialProperties.DuplicateGoesToEmail | app/signup/page.tsx:116-123 | a message containing one of the three (lower-case) duplicate phrases gives only the duplicate message on the e-mail |
| CredentialProperties.OtherFailureIsGeneral | app/signup/page.tsx:115-129 | a non-empty message in which, lower-cased, none of the three phrases occurs at any position becomes the general error unchanged |
| CredentialProperties.LowerMentionGoesToEmail | app/signup/page.tsx:116-123 | a duplicate phrase in the lower-cased message sends the failure to the e-mail field |
| CredentialProperties.UpperCaseDuplicate | app/signup/page.tsx:116-123 | `Duplicate Email` is classified as a duplicate despite its capitals |
| Signup.SignupPage.constructor | app/signup/page.tsx:11-20 | a new page has empty inputs and messages and is not loading |
| Signup.SignupPage.HandleChange | app/signup/page.tsx:60-66 | the edited input takes the value and its message and the general message are cleared; the other message is kept |
| Signup.SignupPage.HandleBlur | app/signup/page.tsx:68-79 | only the blurred input's message changes, to its validator's verdict |
| Signup.SignupPage.BeginSubmit | app/signup/page.tsx:81-107 | both validators run first; a failure records both messages with no general one and sends nothing; otherwise messages clear, loading starts and only well-formed credentials are sent |
| Signup.SignupPage.SubmitSettled | app/signup/page.tsx:108-133 | runs only while a request is in flight; success moves on to `/login` with the messages untouched; a rejection is classified; loading ends either way |
| Login.StoreLogin | app/login/page.tsx:101-107 | the `user` key holds the user record, `rememberMe` is written as `true` only when ticked, and every other key is kept |
| Login.LoginPage.constructor | app/login/page.tsx:11-21 | a new page has empty inputs, the box cleared, no messages and not loading |
| Login.LoginPage.MountRedirect | app/login/page.tsx:23-29 | the page redirects to the dashboard exactly when a user record is stored |
| Login.LoginPage.HandleChange | app/login/page.tsx:52-63 | a text edit sets its input and clears its message and the general one; toggling the box stores its state and leaves the messages |
| Login.LoginPage.HandleBlur | app/login/page.tsx:65-76 | only the blurred input's message changes, to its validator's verdict |
| Login.LoginPage.BeginSubmit | app/login/page.tsx:78-98 | both validators run first; a failure records both messages and sends nothing; otherwise messages clear and the credentials and the box's state are captured |
| Login.LoginPage.SubmitSettled | app/login/page.tsx:97-119 | runs only while the request `BeginSubmit` sent is in flight, with the preference it captured; success stores `response.user` or else the response, with the remembered preference, and moves on; a failure sets the general message; loading ends |
| Login.LoginLeavesStoredUser | app/login/page.tsx:101-102 | after a successful log-in with a non-empty record, the next mount redirects to the dashboard |
| Login.RememberMeIsSticky | app/login/page.tsx:105-107 | logging in with the box cleared never removes a stored `rememberMe` |

## Left out

- Network calls in `lib/api.ts` (`getMe`, `getUserProfile`, `updateUserProfile`, `uploadFile`, `uploadProfilePhoto`, `deleteProfilePhoto`, `submitSupportRequest`, `signup`, `login`): their outcomes are inputs of the `…Settled` methods. lib/api.ts is not part of this model.
- `alert`, `window.confirm`, `console`, `router.push` and `navigator.clipboard` are I/O:
  - a confirmation is a boolean input;
  - a redirect is a boolean result;
  - an alert's text is a result (`SaveNotice`, the photo gate's message, `UploadNotice`, `RemoveNotice`), and the message of a thrown error is an input.
- `JSON.parse` of a save error's text (`app/dashboard/page.tsx:423-436`) parses foreign data. The parsed list is an input of `SaveFailed`.
- JSON (de)serialisation of the stored user record is left out. So is the `profilePhoto` update of that record in `localStorage` after a photo upload or removal (`app/dashboard/page.tsx:230-235`, `260-265`).
- `new Date(...).toISOString()` (`app/dashboard/page.tsx:129`) is a function parameter: `None` stands for a conversion that throws.
- `URL.createObjectURL` and `URL.revokeObjectURL` are foreign calls:
  - the preview URL is an input of `HandleFileChange`;
  - `RemoveScreenshot` returns the URL it would revoke.
- Async interleaving and re-render timing: each `Begin…` and `…Settled` step is one atomic transition. Single flight is the explicit guard standing for the disabled button.
- `Text.ToLower` folds only ASCII letters. `toLowerCase` also folds other scripts, which the duplicate phrases never need.
- `Text.IsSpace` is a fixed list: the JavaScript white-space and line-terminator characters, with the space separators of Unicode 15.
- `handleLogout`, `handleShare` and the sidebar and dialog toggles of the dashboard are not part of this model. Neither are app/page.tsx and all JSX rendering.
- The dashboard's mount effect (`app/dashboard/page.tsx:94-98`) sends a visitor with no stored `user` to `/login` before loading. It is a redirect on `localStorage`, like `Login.LoginPage.MountRedirect`, and is not modelled separately. `Editor.Load` models only the loading that follows.
- `loadUserData`'s outer `catch` (`app/dashboard/page.tsx:184-186`) sends the visitor to `/login` when the stored `user` is not valid JSON. The stored record is not parsed in this model (see above), so that path is left out.
- The sign-up page's mount redirect (`app/signup/page.tsx:22-28`) is the log-in page's and is modelled once, by `Login.LoginPage.MountRedirect`.
- The `name` the sign-up page computes before calling `api.signup` (`app/signup/page.tsx:102`) is never sent, so it is not modelled.
- `Forms.Or` treats only a missing or empty string as falsy. The source's values are strings or absent, so no other falsy value can reach it.
