# Pet-adoption frontend: forms, wizard, modals and pet lists in Dafny

This project models the client-side logic of a React pet-adoption web app:

- the authentication forms (register, sign-in, forgot password, reset
  password) and their validators, and the show/hide password field;
- the National Identification Number (NIN) identity-verification modal;
- the two-step pet-listing wizard;
- the adoption-completion modal;
- the pet lists with their filters and toggles: the home feed and the
  interest page;
- the interest page's pet card, with its status banners and action buttons.

Each stateful component is a `class` whose fields are the component's
`useState` variables. Each event handler is a method with a `modifies`
clause. Callbacks to the parent (`onClose`, `onSuccess`, `onConfirm`,
`onCancel`, navigation) are values the handler returns: a `seq<Effect>`, or
an optional route. Each validator is a method that builds its error map with
the component's own `if` chain. It is proved equal to a function of the form
data, and the lemmas about that function state what the form accepts.

Shared pieces:

- `Text`: JavaScript's `trim`, `\s`, `toLowerCase`, `includes` and `\d`,
  restricted to ASCII, and the UTF-16 `length` of a string.
- `EmailSyntax`: two readings of the e-mail pattern `^[^\s@]+@[^\s@]+\.[^\s@]+$`.
  One is the pattern read literally, as an existential over split points.
  The other is a scan, which the validators use. They are proved to accept
  the same strings.
- `Validation`: the error messages, as a `Message` datatype whose `Text()`
  gives the wording. It also holds the e-mail and new-password rules, and
  the error-map helpers that record a message and clear a field.
- `Filters`: an order-preserving `Filter`, `MapSeq`, a recursive
  `Subsequence` predicate, and the category and location match rules. The
  rules are `CategoryMatches` (equal, or "all") and `LocationMatches`
  (empty, or a substring after both sides are lower-cased).

Clearing an error (`{ ...prev, [field]: undefined }`) is modelled as removing
the key. No code reads such a key back as present: the validators always
build a fresh map. Each timed delay (`setTimeout` inside `await`) is one
atomic step, so the loading flags are never observed set. Each class states
this as its `Valid()` invariant.

## Model

| member | source | states |
|---|---|---|
| Text.TrimStartSpec | src/components/auth/RegisterForm.tsx:300-316 | Stripping leading whitespace keeps a suffix. That suffix is empty or starts with a non-space, and everything cut is whitespace. |
| Text.TrimEndSpec | src/components/auth/RegisterForm.tsx:300-316 | The same for trailing whitespace and a prefix. |
| Text.TrimSpec | src/components/auth/RegisterForm.tsx:300-316 | `trim()` returns the slice of the input that starts and ends with a non-space; everything outside the slice is whitespace. |
| Text.BlankIffAllSpace | src/components/auth/RegisterForm.tsx:300-316 | `!s.trim()` holds exactly when every character of `s` is whitespace (the empty string included). |
| Text.TrimNoSurroundingSpace | src/components/auth/RegisterForm.tsx:308-314 | Trimming a string with no whitespace at either end returns it unchanged. |
| Text.TrimIdempotent | src/components/auth/RegisterForm.tsx:308-314 | Trimming twice is trimming once. |
| Text.LowerChar | src/components/home/PetListingSection.tsx:169-171 | A-Z move up 32 code points; every other character is kept. |
| Text.Lower | src/components/home/PetListingSection.tsx:169-171 | `toLowerCase` keeps the length and lower-cases each position. |
| Text.LowerIdempotent | src/components/home/PetListingSection.tsx:169-171 | Lower-casing twice is lower-casing once. |
| Text.Utf16Length | src/components/auth/RegisterForm.tsx:308-320 | JavaScript's `length` counts one unit per character of the Basic Multilingual Plane and two for any other, so it lies between the character count and twice it. |
| Text.Utf16LengthBmp | src/components/auth/RegisterForm.tsx:308-320 | On text inside the Basic Multilingual Plane the JavaScript length equals the character count. |
| Text.EmojiCountsTwice | src/components/auth/RegisterForm.tsx:308 | An emoji is one character but two units of `length`. |
| Text.NotContainsByChar | src/components/home/PetListingSection.tsx:169-171 | `includes` is false when the needle's first character never occurs in the haystack. |
| EmailSyntax.IsEmailIffPattern | src/components/auth/RegisterForm.tsx:302 | The scan accepts exactly the strings the regular expression matches: `[^\s@]+`, `@`, `[^\s@]+`, `.`, `[^\s@]+`. |
| EmailSyntax.PatternImpliesScan | src/components/auth/RegisterForm.tsx:302 | Every match of the pattern passes the scan. |
| EmailSyntax.ScanImpliesPattern | src/components/auth/RegisterForm.tsx:302 | Every string the scan accepts splits into the pattern's three runs. |
| EmailSyntax.EmailNotBlank | src/components/auth/RegisterForm.tsx:300-304 | An address that passes the scan is not blank, so the "required" and "invalid" branches never both apply. |
| Validation.Message.Text | src/components/auth/RegisterForm.tsx:297-326 | Every message the forms store is a non-empty, hence truthy, string. A rejected sign-in with an empty reason falls back to the default text. |
| Validation.EmailError | src/components/auth/RegisterForm.tsx:300-304 | The e-mail rule yields no error, "required" or "invalid", and nothing else. |
| Validation.EmailErrorSpec | src/components/auth/RegisterForm.tsx:300-304 | "Required" holds iff the text is all whitespace. "Invalid" holds iff it is not all whitespace and does not match the pattern. No error holds iff it matches. |
| Validation.EmailLeadingSpaceIsFormatError | src/components/auth/SignInForm.tsx:27-31 | The pattern is applied to the untrimmed text, so `" a@b.co"` is a format error. |
| Validation.NewPasswordError | src/components/auth/RegisterForm.tsx:318-322 | The new-password rule yields no error, "required" or "too short". |
| Validation.NewPasswordErrorSpec | src/components/auth/RegisterForm.tsx:318-322 | Accepted iff the raw JavaScript length (UTF-16 units) is at least 8, whitespace included. "Required" iff empty; "too short" iff 1 to 7 units. |
| Validation.EightSpacesPass | src/components/auth/RegisterForm.tsx:318-322 | Eight spaces pass the new-password rule. |
| Validation.FourEmojiPass | src/components/auth/RegisterForm.tsx:320 | Four emoji are four characters but eight UTF-16 units, so they pass the length test. |
| Validation.ClearError | src/components/auth/RegisterForm.tsx:328-333 | Clearing a field removes exactly that key. The truthiness guard never blocks, because messages are non-empty. |
| PasswordField.PasswordInput.constructor | src/components/auth/RegisterForm.tsx:85 | The password starts hidden. |
| PasswordField.PasswordInput.ToggleShow | src/components/auth/RegisterForm.tsx:108-110 | The eye button negates `show`, so both the input type and the aria label change. |
| PasswordField.PasswordInput.InputType | src/components/auth/RegisterForm.tsx:95 | The input type is "text" iff `show`, else "password". |
| PasswordField.PasswordInput.ToggleLabel | src/components/auth/RegisterForm.tsx:110 | The aria label is "Hide password" iff `show`, else "Show password"; it offers hiding exactly when the input shows its text. |
| PasswordField.ToggleTwice | src/components/auth/RegisterForm.tsx:108-110 | Two clicks restore `show`, the input type and the aria label. |
| Register.RegisterData.Set | src/components/auth/RegisterForm.tsx:328-330 | `{ ...prev, [field]: value }` sets the named field and leaves the others unchanged. |
| Register.FullNameError | src/components/auth/RegisterForm.tsx:306-310 | The full name passes iff its trimmed JavaScript length is at least 2. "Required" iff it is blank; "please enter your full name" iff it is not blank and its trimmed length is under 2. |
| Register.OneEmojiNamePasses | src/components/auth/RegisterForm.tsx:308 | A one-emoji name passes, because its trimmed length is two UTF-16 units. |
| Register.NinError | src/components/auth/RegisterForm.tsx:312-316 | The NIN passes iff its trimmed JavaScript length is at least 11. It is "required" iff blank, and "too short" iff not blank and under 11 once trimmed. |
| Register.NinRuleIgnoresDigits | src/components/auth/RegisterForm.tsx:312-316 | Any 11 non-whitespace characters pass, letters included. |
| Register.RegisterErrorsExact | src/components/auth/RegisterForm.tsx:297-326 | A field is in the error map iff its own rule fails, and then it holds that rule's message. |
| Register.RegisterValidIff | src/components/auth/RegisterForm.tsx:297-326 | The form is valid iff the e-mail matches the pattern, the trimmed name has 2 or more UTF-16 units, the trimmed NIN has 11 or more, and the password has 8 or more. |
| Register.RegisterForm.constructor | src/components/auth/RegisterForm.tsx:284-294 | Empty fields, no errors, not loading, no success modal. |
| Register.RegisterForm.Validate | src/components/auth/RegisterForm.tsx:297-326 | The four `if` chains replace the error map with `RegisterErrors(formData)`. The result is true iff that map is empty. |
| Register.RegisterForm.HandleChange | src/components/auth/RegisterForm.tsx:328-333 | Sets one field and removes that field's error only. |
| Register.RegisterForm.HandleSubmit | src/components/auth/RegisterForm.tsx:335-343 | The error map is the validation result. The success modal opens iff the form is valid; otherwise nothing else changes. |
| ResetPassword.ResetData.Set | src/components/auth/resetPasswordForm.tsx:155-157 | Sets the named field only. |
| ResetPassword.ConfirmError | src/components/auth/resetPasswordForm.tsx:145-149 | The confirmation passes iff it is non-empty and equal to the password, whether or not the password itself is valid. "Required" iff it is empty; "do not match" iff it is non-empty and differs. |
| ResetPassword.ResetValidIff | src/components/auth/resetPasswordForm.tsx:136-153 | Valid iff the password has 8 or more UTF-16 units and the confirmation equals it. |
| ResetPassword.IdenticalShortPasswords | src/components/auth/resetPasswordForm.tsx:139-149 | Equal short passwords get only "too short", with no mismatch error. |
| ResetPassword.ResetPasswordForm.constructor | src/components/auth/resetPasswordForm.tsx:126-133 | Empty fields, no errors, not loading, no success modal. |
| ResetPassword.ResetPasswordForm.Validate | src/components/auth/resetPasswordForm.tsx:136-153 | Replaces the error map with `ResetErrors(formData)`; the result is true iff it is empty. |
| ResetPassword.ResetPasswordForm.HandleChange | src/components/auth/resetPasswordForm.tsx:155-160 | Sets one field and clears only its error. Editing the password leaves a mismatch error on the confirmation. |
| ResetPassword.ResetPasswordForm.HandleSubmit | src/components/auth/resetPasswordForm.tsx:162-172 | The error map is the validation result; the success modal opens iff the form is valid. |
| SignIn.SignInData.Set | src/components/auth/SignInForm.tsx:41-42 | Sets the named field only. |
| SignIn.PasswordPresentError | src/components/auth/SignInForm.tsx:33-35 | Sign-in accepts any non-empty password, whatever its length; the only error is "password is required". |
| SignIn.SignInValidIff | src/components/auth/SignInForm.tsx:24-39 | Valid iff the e-mail matches the pattern and the password is non-empty. Validation never produces a `submit` error. |
| SignIn.SignInForm.constructor | src/components/auth/SignInForm.tsx:16-22 | Empty fields, no errors, not loading. |
| SignIn.SignInForm.Validate | src/components/auth/SignInForm.tsx:24-39 | Replaces the whole error map, dropping an earlier `submit` error, with `SignInErrors(formData)`. |
| SignIn.SignInForm.HandleChange | src/components/auth/SignInForm.tsx:41-49 | Sets one field and removes that field's error and the `submit` error; other errors stay. |
| SignIn.SignInForm.HandleSubmit | src/components/auth/SignInForm.tsx:51-72 | An invalid form keeps the validation errors. A valid one ends with no errors if the request resolves, or only a `submit` error carrying the rejection's message. Loading ends off in both cases. |
| SignIn.SubmitWithMock | src/components/auth/SignInForm.tsx:58-64 | With the built-in mock, which always resolves, a submit never leaves a `submit` error. |
| ForgotPassword.ForgotData.Set | src/components/auth/forgetPasswordForm.tsx:40-42 | Sets the e-mail. |
| ForgotPassword.ForgotValidIff | src/components/auth/forgetPasswordForm.tsx:27-38 | Valid iff the raw e-mail matches the pattern. A blank e-mail gets exactly "required". |
| ForgotPassword.ForgetPasswordForm.constructor | src/components/auth/forgetPasswordForm.tsx:19-24 | Empty e-mail, no errors, not loading. |
| ForgotPassword.ForgetPasswordForm.Validate | src/components/auth/forgetPasswordForm.tsx:27-38 | Replaces the error map with `ForgotErrors(formData)`; the result is true iff it is empty. |
| ForgotPassword.ForgetPasswordForm.HandleChange | src/components/auth/forgetPasswordForm.tsx:40-45 | Sets the e-mail and clears its error. |
| ForgotPassword.ForgetPasswordForm.HandleSubmit | src/components/auth/forgetPasswordForm.tsx:47-58 | The page navigates to `/reset` iff the e-mail is valid; otherwise it does not navigate. |
| IdentityVerification.DigitsPlusIff | src/components/ui/IdentityVerificationModal.tsx:19 | `^\d+$` matches exactly the non-empty strings of ASCII digits. |
| IdentityVerification.NinAcceptedIff | src/components/ui/IdentityVerificationModal.tsx:17-25 | The modal accepts a NIN iff it is exactly ten ASCII digits (digits are one UTF-16 unit each, so the JavaScript length is the character count). |
| IdentityVerification.TenDigitsAccepted | src/components/ui/IdentityVerificationModal.tsx:19 | "1234567890" is accepted. |
| IdentityVerification.WrongLengthRejected | src/components/ui/IdentityVerificationModal.tsx:19 | A NIN that is not ten characters long is rejected. |
| IdentityVerification.NonDigitRejected | src/components/ui/IdentityVerificationModal.tsx:19 | A NIN with any character that is not an ASCII digit is rejected. |
| IdentityVerification.NinWrongLengthExamples | src/components/ui/IdentityVerificationModal.tsx:19 | Nine digits, eleven digits, the empty string and "abc" are rejected. |
| IdentityVerification.NinNonDigitExamples | src/components/ui/IdentityVerificationModal.tsx:19 | A leading space and letters in the last five places are rejected. |
| IdentityVerification.NinRulesDisagree | src/components/ui/IdentityVerificationModal.tsx:19 | Every NIN the modal accepts fails the register form's 11-character rule with "too short". |
| IdentityVerification.Buttons | src/components/ui/IdentityVerificationModal.tsx:46-150 | Verify Now shows only on the input panel, Back to Home only on the success panel, and Retry only on the failure panel. |
| IdentityVerification.IdentityModal.constructor | src/components/ui/IdentityVerificationModal.tsx:12-13 | Starts on the input panel with an empty NIN. |
| IdentityVerification.IdentityModal.Offered | src/components/ui/IdentityVerificationModal.tsx:15 | Nothing is rendered while closed; otherwise the buttons are those of the current panel. |
| IdentityVerification.IdentityModal.SetNin | src/components/ui/IdentityVerificationModal.tsx:80 | Typing sets the NIN and keeps the panel. |
| IdentityVerification.IdentityModal.HandleVerifyNow | src/components/ui/IdentityVerificationModal.tsx:17-25 | Goes to the success panel iff the NIN is accepted, else to the failure panel. The NIN is kept. |
| IdentityVerification.IdentityModal.HandleClose | src/components/ui/IdentityVerificationModal.tsx:27-31 | Resets to input with an empty NIN and calls `onClose` once. |
| IdentityVerification.IdentityModal.HandleRetry | src/components/ui/IdentityVerificationModal.tsx:33-36 | Resets to input with an empty NIN without closing. |
| IdentityVerification.IdentityModal.HandleSuccessClose | src/components/ui/IdentityVerificationModal.tsx:38-41 | Calls `onSuccess` (when given) before `onClose`, then resets. |
| IdentityVerification.IdentityModal.Click | src/components/ui/IdentityVerificationModal.tsx:51-148 | A rendered button runs its handler. `onSuccess` comes only from the success panel. `onClose` comes from every button except Verify Now and Retry. |
| Filters.Filter | src/components/home/PetListingSection.tsx:164-172 | The result is no longer than the input. Every kept element is from the input and passes the test, and every passing input element is kept. |
| Filters.FilterCounts | src/components/home/PetListingSection.tsx:164-172 | Each passing value is kept exactly as many times as it occurs, and every failing value is dropped, so the result is a sub-multiset of the input. |
| Filters.FilterIsSubsequence | src/components/home/PetListingSection.tsx:159-172 | The filtered list is an order-preserving subsequence of the input. |
| Filters.FilterKeepsAll | src/components/home/PetListingSection.tsx:159-172 | A test that passes every element returns the list unchanged. |
| Filters.FilterFilter | src/pages/interestPage.tsx:66-82 | Filtering by one test and then another is filtering once by their conjunction. |
| Filters.MapSeq | src/components/home/PetListingSection.tsx:175-181 | `map` keeps the length and applies the function at every position. |
| Filters.FilterMapCommute | src/pages/interestPage.tsx:84-90 | Mapping then filtering equals filtering then mapping, when the map never changes the filter's decision. |
| Filters.DefaultFiltersMatch | src/components/home/PetListingSection.tsx:159-172 | The initial filters ("all", "") accept every pet. |
| Filters.LocationMatchIgnoresCase | src/components/home/PetListingSection.tsx:169-171 | The location rule gives the same answer after lower-casing both sides, for every filter text including the empty one. |
| Listing.Draft.Set | src/components/listings/ListingModal.tsx:92-97 | Sets one text field; the other fields and the images are unchanged. |
| Listing.InitStateIsEmpty | src/components/listings/ListingModal.tsx:59-71 | The initial draft has ten empty fields and five empty image slots. |
| Listing.ErrorsUpToExact | src/components/listings/ListingModal.tsx:111-126 | After the first n checks, a key has an error iff it is one of those fields and that field is missing; the message is "Required". |
| Listing.Step1ErrorsExact | src/components/listings/ListingModal.tsx:111-126 | Step 1 marks "Required" on exactly the missing fields, never on `images`. The four free-text fields are tested after trimming; the six selects are tested raw. |
| Listing.EveryFieldChecked | src/components/listings/ListingModal.tsx:111-126 | Step 1 checks each of the ten fields. |
| Listing.Step1ValidIff | src/components/listings/ListingModal.tsx:111-126 | Step 1 passes iff no field is missing. |
| Listing.BlankTitleIsMissing | src/components/listings/ListingModal.tsx:115 | A whitespace-only title is an error. |
| Listing.CountFilledSpec | src/components/listings/ListingModal.tsx:136 | The image count is the number of non-null slots. |
| Listing.CountFilledUpdate | src/components/listings/ListingModal.tsx:99-109 | Replacing one slot changes the count by what was removed and what was put there. |
| Listing.Step2ValidIff | src/components/listings/ListingModal.tsx:134-145 | Step 2 passes iff at least 3 slots are filled, whichever slots they are; only `images` can be reported. |
| Listing.ListingWizard.constructor | src/components/listings/ListingModal.tsx:74-78 | Step 1, the initial draft, no errors, not submitting, no success panel. |
| Listing.ListingWizard.View | src/components/listings/ListingModal.tsx:90-170 | Nothing while closed and not succeeded; the success modal iff succeeded; otherwise the current step. |
| Listing.ListingWizard.HandleClose | src/components/listings/ListingModal.tsx:81-88 | Back to step 1, the initial draft, no errors and no success panel; `onClose` is called once. The closed modal renders nothing, and reopened it shows step 1. |
| Listing.ListingWizard.HeaderClose | src/components/listings/ListingModal.tsx:188-189 | The header ✕ calls `onClose` only and keeps the draft. |
| Listing.ListingWizard.HandleChange | src/components/listings/ListingModal.tsx:92-97 | Sets one field and clears only that field's error. |
| Listing.ListingWizard.HandleImageChange | src/components/listings/ListingModal.tsx:99-109 | Replaces one slot, keeps five slots, and clears the `images` error. |
| Listing.ListingWizard.ValidateStep1 | src/components/listings/ListingModal.tsx:111-126 | Replaces the error map with `Step1Errors(formData)`; the result is true iff it is empty. |
| Listing.ListingWizard.HandleProceed | src/components/listings/ListingModal.tsx:128-132 | Moves to step 2 iff step 1 validates; otherwise the step stays. An open modal then renders step 2. |
| Listing.ListingWizard.ValidateStep2 | src/components/listings/ListingModal.tsx:134-145 | Replaces the whole error map with the image check, so afterwards only `images` can be set. |
| Listing.ListingWizard.HandleSubmit | src/components/listings/ListingModal.tsx:147-157 | The success panel opens iff at least three images are set; otherwise only the errors change. After a valid submit the modal renders the success modal, open or not. |
| Listing.ListingWizard.Back | src/components/listings/ListingModal.tsx:357 | Back returns to step 1 and keeps the draft and errors. |
| StartAdoption.CompletionFormData.Set | src/components/modals/StartAdoptionModal.tsx:53-57 | Sets the named field only. |
| StartAdoption.CompletionErrorsExact | src/components/modals/StartAdoptionModal.tsx:31-40 | A field has an error iff it is missing: the date and location when blank after trimming, the condition when the raw value is empty. The message is that field's own. |
| StartAdoption.CompletionValidIff | src/components/modals/StartAdoptionModal.tsx:31-40 | Complete iff the date and location each hold a non-space character and a condition is chosen. |
| StartAdoption.ConditionIsNotTrimmed | src/components/modals/StartAdoptionModal.tsx:33-38 | A whitespace condition value passes; a whitespace date is "required". |
| StartAdoption.AdoptionModal.constructor | src/components/modals/StartAdoptionModal.tsx:21-27 | Not submitted, three empty fields, no errors. |
| StartAdoption.AdoptionModal.View | src/components/modals/StartAdoptionModal.tsx:29-233 | Nothing without a pet. With a pet, the form panel iff not submitted and the confirmation iff submitted. |
| StartAdoption.AdoptionModal.Validate | src/components/modals/StartAdoptionModal.tsx:31-40 | Returns `CompletionErrors(formData)` and changes nothing. |
| StartAdoption.AdoptionModal.HandleConfirm | src/components/modals/StartAdoptionModal.tsx:42-51 | An incomplete form stores its errors, stays unsubmitted and calls nothing. A complete one clears the errors, sets `submitted` and calls `onConfirm(pet.id, formData)` exactly once, and the modal then renders the confirmation; an incomplete form keeps what it rendered. |
| StartAdoption.AdoptionModal.HandleChange | src/components/modals/StartAdoptionModal.tsx:53-61 | Sets one field and clears only its error. |
| StartAdoption.AdoptionModal.Cancel | src/components/modals/StartAdoptionModal.tsx:68-78 | The backdrop, the close button and both cancel buttons call `onCancel` once and change nothing. |
| InterestCard.Banners | src/components/ui/InterestPetCard.tsx:61-101 | Exactly one banner shows for every (consent, adoption): awaiting gives Awaiting Consent, granted without adoption gives Consent Granted, granted with adoption gives Adoption In-Progress. |
| InterestCard.Actions | src/components/ui/InterestPetCard.tsx:103-115 | At most one action button shows. "Start Adoption Process" shows iff granted without adoption, "Confirmed Pet Recieved" iff granted with adoption, and none while consent is awaited. |
| InterestCard.ActionMatchesBanner | src/components/ui/InterestPetCard.tsx:61-115 | Each action button appears with the banner of the same row, and no button appears with Awaiting Consent. |
| InterestCard.InterestLabel | src/components/ui/InterestPetCard.tsx:38 | The label is "Remove interest" iff the pet is marked interested, else "Mark as interested". |
| InterestCard.InterestClick | src/components/ui/InterestPetCard.tsx:35 | The interest button reports the pet's own id. |
| HomeFeed.VisiblePets | src/components/home/PetListingSection.tsx:163-172 | A pet is shown iff the category filter is "all" or equal to its category, and the location filter is empty or a case-folded substring of its location. |
| HomeFeed.VisibleIsSubsequence | src/components/home/PetListingSection.tsx:163-172 | The shown pets are an order-preserving subsequence of the list. |
| HomeFeed.DefaultFiltersShowAll | src/components/home/PetListingSection.tsx:159-172 | With the initial filters the whole list is shown. |
| HomeFeed.LagosExample | src/components/home/PetListingSection.tsx:169-171 | "LaGoS" keeps "Mainland, Lagos Nigeria" and drops "Abuja, Nigeria", the locations of the first and ninth listings. |
| HomeFeed.ToggleFavourite | src/components/home/PetListingSection.tsx:175-181 | Keeps the length. Negates `isFavourite` exactly on the records with that id. Changes no other field. |
| HomeFeed.ToggleInterested | src/components/home/PetListingSection.tsx:183-189 | The same for `isInterested`; `isFavourite` is never touched. |
| HomeFeed.ToggleAbsentId | src/components/home/PetListingSection.tsx:175-189 | Toggling an id no pet has is a no-op. |
| HomeFeed.ToggleTwice | src/components/home/PetListingSection.tsx:175-189 | Toggling the same id twice restores the list. |
| HomeFeed.View | src/components/home/PetListingSection.tsx:250-279 | The grid of shown pets iff some pet is shown; otherwise the "No pets found" panel. |
| HomeFeed.ResetShowsEveryPet | src/components/home/PetListingSection.tsx:191-194 | After a reset every pet is shown, and the empty panel appears only for an empty list. |
| HomeFeed.PetListingSection.constructor | src/components/home/PetListingSection.tsx:158-160 | Given the listings, the location filter is "" and the category filter "all". |
| HomeFeed.PetListingSection.HandleToggleFavourite | src/components/home/PetListingSection.tsx:175-181 | The list becomes `ToggleFavourite(old list, id)`; the filters are unchanged. |
| HomeFeed.PetListingSection.HandleToggleInterested | src/components/home/PetListingSection.tsx:183-189 | The list becomes `ToggleInterested(old list, id)`; the filters are unchanged. |
| HomeFeed.PetListingSection.HandleResetFilters | src/components/home/PetListingSection.tsx:191-194 | The filters become "" and "all" and the list is unchanged, so every pet is shown. |
| HomeFeed.PetListingSection.SetLocationFilter | src/components/home/PetListingSection.tsx:219 | Typing sets the location filter only. |
| HomeFeed.PetListingSection.SetCategoryFilter | src/components/home/PetListingSection.tsx:231 | Choosing sets the category filter only. |
| InterestPage.VisiblePets | src/pages/interestPage.tsx:66-82 | A pet is shown iff it is a favourite, its category matches, and its location matches. |
| InterestPage.VisibleFiltersFavourites | src/pages/interestPage.tsx:66-82 | The page is the home feed's filter applied to the favourites, so it is an order-preserving subsequence of them. |
| InterestPage.DefaultFiltersShowFavourites | src/pages/interestPage.tsx:61-82 | With the initial filters the page shows exactly the favourites. |
| InterestPage.ToggleInterested | src/pages/interestPage.tsx:84-90 | Keeps the length. Negates `isInterested` exactly on the records with that id. Changes no other field. |
| InterestPage.ToggleFlipsLabel | src/pages/interestPage.tsx:84-90 | After an interest toggle a card's button label changes iff the card carries the toggled id. |
| InterestPage.ToggleCommutesWithFilter | src/pages/interestPage.tsx:69-90 | Toggling then filtering equals filtering then toggling, because the filter never reads `isInterested`. |
| InterestPage.ToggleKeepsVisiblePets | src/pages/interestPage.tsx:84-90 | After a toggle the same pets, by id, are shown in the same order. |
| InterestPage.View | src/pages/interestPage.tsx:155-183 | The grid iff some pet is shown. Otherwise the "no match" text iff some pet is a favourite, and the Clear Filters button iff that text shows. |
| InterestPage.ClearFiltersShowsFavourites | src/pages/interestPage.tsx:175-183 | When a favourite exists, clearing the filters shows a grid of all favourites. |
| InterestPage.InterestPageState.constructor | src/pages/interestPage.tsx:61-63 | Given the pets, the location filter is "" and the category filter "all". |
| InterestPage.InterestPageState.HandleToggleInterested | src/pages/interestPage.tsx:84-90 | The list becomes `ToggleInterested(old list, id)`, and the shown list is the old one with the same toggle applied. |
| InterestPage.InterestPageState.HandleResetFilters | src/pages/interestPage.tsx:92-95 | The filters become "" and "all", the list is unchanged, and the favourites are shown. |
| InterestPage.InterestPageState.SetLocationFilter | src/pages/interestPage.tsx:123 | Typing sets the location filter only. |
| InterestPage.InterestPageState.SetCategoryFilter | src/pages/interestPage.tsx:135 | Choosing sets the category filter only. |

## Left out

- JSX markup, CSS classes, SVG icons and hover styles: presentation only.
- Unicode: `trim`, `\s` and `\d` are modelled through ASCII only (space and code points 9 to 13; digits 0 to 9). `toLowerCase` folds only A-Z. JavaScript also trims and matches `\s` against other Unicode spaces, such as U+00A0 and U+FEFF, and lower-cases non-ASCII letters. Lengths, by contrast, are JavaScript's: `Text.Utf16Length` counts two units for a character outside the Basic Multilingual Plane. A string holding an unpaired surrogate cannot be written as a Dafny `string`, so such input is not modelled.
- Timers and promises: each `await new Promise(setTimeout …)` is one atomic step, so no event can arrive while a request is pending.
- `SignIn.SignInForm.HandleSubmit`: the awaited request is a parameter. `MockCall` is the built-in mock, which always resolves; the `console.log` call is not modelled.
- `handleGoogleSignIn` on the sign-in page only writes to the console.
- The register page's wiring of the identity modal is not modelled: the `showIdentityModal` flag, which `handleGoogle` sets and the modal's `onClose` and `onSuccess` clear. The modal itself is `IdentityVerification.IdentityModal`.
- The success modals (`AuthModal`, `PetOwnerModal`) and the navigation from their action buttons to `/login` are not modelled.
- The file-upload and select widgets (`fileUpload.tsx`, `formSelect.tsx`) are not modelled. They are taken to deliver a `File | null` for a slot index and a string value.
- `Listing.ListingWizard.HandleImageChange`: requires `index < 5`. The five upload widgets only pass indices 0 to 4; the source would grow the array for a larger index.
- `Listing.ListingWizard.ValidateStep1`: the ten `if` statements run as one loop over the fields in source order. They all have the same shape: test, then set "Required".
- The mock listing data (`MOCK_LISTINGS`, `MOCK_PETS`) are constructor parameters, not constants. Only the two locations used in `HomeFeed.LagosExample` are written out.
- The "Start Adoption Process" and "Confirmed Pet Recieved" buttons have no click handler in the card, so clicking them is not modelled.
- Clearing an error with `[field]: undefined` leaves an `undefined`-valued key in JavaScript. The model removes the key, because nothing reads the key back.
- The notification, profile, login and register pages, and the routing in `App.tsx`, are not part of this model.
