# Altura-Chess landing pages and contact endpoint, modelled in Dafny

The model covers the logic behind the chess-training landing pages. The rest of those pages is presentational.

- **Contact form** (`ContactForm`).
  - `validateForm` runs the three per-field rules and the e-mail pattern `^[^\s@]+@[^\s@]+\.[^\s@]+$`, written out as string predicates in `EmailPattern`.
  - `handleChange` and `handleSubmit` are methods of a class holding the form's five state cells.
  - What `fetch` returns is an input: a transport failure, or the response's `ok` bit with the body's `success` flag and `errors` list.
  - The formal page (`AppFormal.tsx`) has a copy of this code that differs only in two comments, so one module models both pages.
- **Guide modal** (`GuideModal`).
  - The one-shot scroll trigger reveals the modal. It is gated by the `guideModalShown` flag in the browser's key/value storage, which the model takes as a map.
  - The 30% threshold is computed by cross-multiplying integers.
  - The modal's closing animation and the guide form are modelled too.
  - Timers are counts of pending timers, and each tick fires one of them.
- **Referral form** (`Parrainage`): the three-field "parrainage" form with its simulated request and its reset.
- **Module toggles** (`FormalPage`): the formal page's `expandedModules` map, which flips one key per toggle.
- **Contact endpoint** (`ContactViews`). `contact_view` is a method that builds its error list by appends. It is proved equal to a response function whose contract states the whole status, `success`, errors mapping. Whether the mail goes out is an input.
- **Both sides together** (`EndToEnd`).
  - A form the page accepts is accepted by the endpoint.
  - Every failure the endpoint reports reaches the user as its own joined messages.
  - The endpoint's e-mail check is laxer than the page's.

`Text` holds what the others share:
- the whitespace predicate;
- `trim` / `strip`;
- an `Option` type;
- `Array.prototype.join`.

## Model

| member | source | states |
|---|---|---|
| Text.TrimStartSpec | frontend/src/App.tsx:117 | `trim`'s left half removes an all-whitespace prefix. It leaves a suffix of the input that is empty or starts with a non-space. |
| Text.TrimEndSpec | frontend/src/App.tsx:117 | `trim`'s right half removes an all-whitespace suffix. It leaves a prefix of the input that is empty or ends with a non-space. |
| Text.Trim | frontend/src/App.tsx:117 | `trim()` / `strip()` is the input with only an all-whitespace prefix and an all-whitespace suffix removed: a slice of the input with only whitespace around it. A non-empty result neither starts nor ends with whitespace, so the removed parts are all the surrounding whitespace. |
| Text.TrimEmptyIffAllSpace | backend/contact/views.py:20-22 | Trimming gives the empty string exactly when every character is whitespace. |
| Text.IsBlank | frontend/src/App.tsx:117-128 | `!s.trim()` holds exactly when every character of `s` is whitespace. |
| Text.TrimNoSpace | backend/contact/views.py:20-22 | A string with no whitespace is its own trim or strip. |
| Text.Join | frontend/src/App.tsx:164 | `join(' ')` starts with the first element, followed by the separator when there is a second one. |
| Text.JoinSnoc | frontend/src/App.tsx:164 | Appending an element to a non-empty list appends the separator and that element to the join, so `join` accumulates the elements left to right. |
| Text.JoinEmptyIff | frontend/src/App.tsx:164 | With a non-empty separator, `join` gives `''` exactly for `[]` and `['']`. |
| Text.JoinOfNonEmpty | frontend/src/App.tsx:164 | Joining a non-empty list of non-empty strings gives a non-empty string. |
| EmailPattern.Matches | frontend/src/App.tsx:123 | The anchored `.test`: a string the pattern accepts contains `@` and has at least five characters. |
| EmailPattern.MatchesIffShape | frontend/src/App.tsx:123 | The pattern accepts exactly the strings with no whitespace, with one `@` that is not the first character, and with a `.` after the `@` that has a character on each side. |
| EmailPattern.MatchesIsTrimmed | frontend/src/App.tsx:123 | A string the pattern accepts has no whitespace, so trimming leaves it unchanged. |
| EmailPattern.MatchesHasAt | frontend/src/App.tsx:123 | A string the pattern accepts contains `@` and is not all whitespace. |
| EmailPattern.GateIffShape | frontend/src/App.tsx:121-125 | "Not blank and the pattern matches" holds exactly for strings of the e-mail shape. |
| EmailPattern.LeadingSpaceRejected | frontend/src/App.tsx:123 | The pattern rejects a string that starts with whitespace, because it is tested on the untrimmed value. |
| EmailPattern.NoDotAfterAtRejected | frontend/src/App.tsx:123 | `a@b`, with no `.` after the `@`, is rejected. |
| EmailPattern.PlainAddressAccepted | frontend/src/App.tsx:123 | The pattern accepts `jo@x.com`. |
| ContactForm.FormData.With | frontend/src/App.tsx:104 | `{ ...prev, [name]: value }`: the edited field takes the value and the other two keep theirs. |
| ContactForm.FormErrors.Without | frontend/src/App.tsx:106 | `{ ...prev, [name]: undefined }`: the edited field's error is gone and the other two are kept. |
| ContactForm.ValidateForm | frontend/src/App.tsx:114-133 | Every entry in the error record is a non-empty message. That all three fields are examined on every call, and what each entry means, is stated by `ValidateFormMeaning`. |
| ContactForm.ValidateFormMeaning | frontend/src/App.tsx:114-133 | The name or message error is present exactly when that field is all whitespace. The e-mail error is "requis" exactly when the e-mail is all whitespace, and "pas valide" exactly when it has a non-space but not the e-mail shape, so never both. The record is empty exactly when all three fields pass. |
| ContactForm.BlankFieldFlagged | frontend/src/AppFormal.tsx:46-61 | A field that is blank after trimming always has an entry in the error record. |
| ContactForm.FailureMessage | frontend/src/App.tsx:163-165 | The message is never empty. It is the generic message when `errors` is missing or joins to `''`, and otherwise `errors.join(' ')`. |
| ContactForm.Resolve | frontend/src/App.tsx:146-172 | Every answer sets a status and a non-empty message. The result is success exactly for `ok` with `success`. The fields are reset only then. A transport failure gives the connection message. An error answer shows its joined errors, or the generic message when they join to nothing. |
| ContactForm.JoinedErrorsShown | frontend/src/AppFormal.tsx:90-94 | An error body listing `A` and `B` is shown as `A B`. |
| ContactForm.ScenarioBlankNameShortEmail | frontend/src/App.tsx:117-125 | A blank name and the e-mail `a@b` give one name error and one "pas valide" error, and no message error. |
| ContactForm.ScenarioLeadingSpaceEmail | frontend/src/App.tsx:121-125 | The e-mail ` a@b.c` is "pas valide" although it is not blank. |
| ContactForm.ContactForm.constructor | frontend/src/App.tsx:18-26 | The initial state: empty fields, no errors, not pending, no status and no message. |
| ContactForm.ContactForm.HandleChange | frontend/src/App.tsx:102-112 | The edited field takes the new value. Only that field's error is cleared. A shown status and message are reset. `isSubmitting` is unchanged. |
| ContactForm.ContactForm.Validate | frontend/src/AppFormal.tsx:43-62 | Stores the error record `ValidateForm` computes and returns true exactly when it is empty. |
| ContactForm.ContactForm.BeginSubmit | frontend/src/App.tsx:135-144 | An invalid form makes no request and leaves the fields, `isSubmitting` and the status unchanged. A valid form sends its fields, becomes pending and clears the status. |
| ContactForm.ContactForm.FinishSubmit | frontend/src/App.tsx:155-172 | Records `Resolve`'s status and message. Empties the fields only on success. Always ends with `isSubmitting` false. |
| ContactForm.ContactForm.HandleSubmit | frontend/src/AppFormal.tsx:64-102 | The whole submit with no edits in between: no request for an invalid form; for a valid one, the request carries the fields and the form ends in `Resolve`'s outcome, not pending. |
| ContactViews.Stripped | backend/contact/views.py:20-22 | A key reads without raising exactly when it is missing or holds a string. A missing key reads as `''`. A string value reads as its strip: the string minus an all-whitespace prefix and suffix, neither starting nor ending with whitespace. |
| ContactViews.Read | backend/contact/views.py:17-22 | Decoding fails exactly for a body that is not JSON. Three values come out exactly when the document is an object whose three keys each read without raising, and those values are the stripped reads. |
| ContactViews.FieldErrors | backend/contact/views.py:24-33 | The list has at most three entries, drawn from the four field messages and in the order name, e-mail, message. Each message is present exactly when its condition holds ("pas valide" when the e-mail is non-empty but has no `@`). The list is empty exactly when every check passes. |
| ContactViews.Answer | backend/contact/views.py:35-75 | Once the body is read, the answer is success exactly when the values pass and the send works. A decode failure, a read failure, field errors and a failed send each get their own fixed answer, and the field-error answer is 400 carrying `FieldErrors` of the values. |
| ContactViews.Respond | backend/contact/views.py:16-75 | The answer is success exactly when the body is accepted and the mail goes out, and success is exactly `(200, True, no errors)`. Every failure has status 400 or 500 and a non-empty list of non-empty messages. Bad JSON gives 400 "Format de données invalide.". A body whose fields cannot be read gives 500 "Une erreur inattendue…". Values that fail the checks give 400 with exactly the ordered `FieldErrors` list of the stripped values. A failed send gives 500 with the send error. |
| ContactViews.CollectErrors | backend/contact/views.py:24-33 | The list built by successive appends equals `FieldErrors`. |
| ContactViews.ContactView | backend/contact/views.py:11-75 | The view's `try`/`except` branches yield exactly `Respond`'s answer. The mail is handed over exactly when the body is accepted. |
| ContactViews.StrippedMissingLikeBlank | backend/contact/views.py:20-22 | Reading a missing key gives the same stripped value as reading a whitespace-only string. |
| ContactViews.MissingLikeBlank | backend/contact/views.py:20-36 | A body missing a field gets the same answer as one whose field holds only whitespace. |
| GuideModal.FlagSet | frontend/src/App.tsx:45 | `getItem(...) === 'true'` needs the key to be present: a missing key reads as not set. |
| GuideModal.FlagIgnoresOtherKeys | frontend/src/App.tsx:54 | Writing any other key of the storage leaves the flag as it was. |
| GuideModal.PastThreshold | frontend/src/App.tsx:67-71 | The 30% test holds only on a page with a positive scroll height and away from the top. |
| GuideModal.ThresholdMonotone | frontend/src/App.tsx:67-71 | Once past the threshold, any position further down is past it too. |
| GuideModal.OnScroll | frontend/src/App.tsx:52-79 | The handler fires exactly when the flag is unset, the latch is open, the move is strictly downward and the scrolled share is at least 30% of a positive scroll height. Firing closes the latch and writes the flag in one step. Otherwise storage and latch are unchanged. The last position is updated unless the flag or the latch made the handler return first. |
| GuideModal.FiresAtMostOnce | frontend/src/App.tsx:50-73 | Over any sequence of scrolls and storage writes, the trigger fires at most once, and never once the latch is closed. |
| GuideModal.FlagSilences | frontend/src/App.tsx:53-56 | While nobody else writes the storage, a set flag keeps every later event silent. |
| GuideModal.UpwardNeverFires | frontend/src/App.tsx:60-65 | A move that is not strictly downward never fires, whatever the position. |
| GuideModal.ScrollTrigger.Mount | frontend/src/App.tsx:43-50 | With the flag set, the effect installs nothing. Otherwise it opens the latch, records the position and schedules the startup timer. |
| GuideModal.ScrollTrigger.HandleScroll | frontend/src/App.tsx:52-79 | One call changes the storage, the last position and the latch exactly as `OnScroll` says. |
| GuideModal.ScrollTrigger.StartupTick | frontend/src/App.tsx:82-86 | The startup timer registers the listener and runs the handler once, as `OnScroll`. With no timer pending, nothing changes. |
| GuideModal.ScrollTrigger.Scroll | frontend/src/App.tsx:83 | Only a registered listener sees a scroll event. |
| GuideModal.ScrollTrigger.WriteStorage | frontend/src/App.tsx:53-54 | Another writer of the storage (the reason the handler reads the flag again on every event) sets one key and changes nothing else. |
| GuideModal.ScrollTrigger.Unmount | frontend/src/App.tsx:88-91 | The cleanup cancels the startup timer and removes the listener. |
| GuideModal.GuideAccepts | frontend/src/App.tsx:178 | An e-mail the guide form's gate accepts holds an `@`, has at least five characters and is not all whitespace. |
| GuideModal.GuideAcceptsIffShape | frontend/src/App.tsx:178-180 | The guide form accepts exactly the e-mails of the e-mail shape. Its blank test adds nothing to the pattern. |
| GuideModal.GuideModal.constructor | frontend/src/App.tsx:29-33 | The initial state: modal hidden and not closing, empty e-mail, neither pending nor submitted, no timers. |
| GuideModal.GuideModal.ScheduleReveal | frontend/src/App.tsx:75 | A firing schedules exactly one more pending reveal. |
| GuideModal.GuideModal.RevealTick | frontend/src/App.tsx:75-77 | The 100 ms timer shows the modal. |
| GuideModal.GuideModal.CloseModal | frontend/src/App.tsx:94-96 | `closeModal` starts the closing animation and schedules its end. |
| GuideModal.GuideModal.CloseTick | frontend/src/App.tsx:96-99 | After the 300 ms tick the modal is hidden and no longer closing. |
| GuideModal.GuideModal.EditGuideEmail | frontend/src/App.tsx:600 | The input's `onChange` stores the typed value and changes nothing else. |
| GuideModal.GuideModal.GuideSubmit | frontend/src/App.tsx:175-182 | The form proceeds exactly when the gate accepts the e-mail. It then becomes pending with one request under way. Otherwise nothing changes. |
| GuideModal.GuideModal.GuideDelayTick | frontend/src/App.tsx:186-196 | When the simulated request ends, the form is submitted and no longer pending, and the 2000 ms reset is scheduled. |
| GuideModal.GuideModal.GuideResetTick | frontend/src/App.tsx:188-192 | The reset closes the modal and empties the form. |
| GuideModal.LandingPage.Mount | frontend/src/App.tsx:43-50 | Mounting the page runs the effect as `ScrollTrigger.Mount` does and leaves the modal alone. |
| GuideModal.LandingPage.StartupTick | frontend/src/App.tsx:82-86 | The startup timer's own call of the handler behaves as `OnScroll`. When it fires, the flag is written and exactly one reveal is scheduled. Otherwise no reveal is scheduled. Only the trigger and the pending-reveal count change. |
| GuideModal.LandingPage.Scroll | frontend/src/App.tsx:71-78 | A firing scroll has already written the flag when it schedules the reveal, and it schedules exactly one reveal. A silent scroll schedules none. An event the listener does not see leaves the observer as it was. Only the observer's storage, position and latch and the pending-reveal count can change. |
| GuideModal.LandingPage.Unmount | frontend/src/App.tsx:88-91 | The cleanup cancels the startup timer and removes the listener, and nothing else. |
| Parrainage.ParrainageAccepts | frontend/src/App.tsx:203-205 | The referral form's gate holds exactly when each of its three fields has a non-space character. |
| Parrainage.ParrainageTakesAnyEmail | frontend/src/App.tsx:203 | The submit handler checks presence only, not the e-mail's format: `jo` passes its gate. |
| Parrainage.ParrainageForm.constructor | frontend/src/App.tsx:36-40 | The initial state: three empty fields, neither pending nor submitted, no timers. |
| Parrainage.ParrainageForm.Edit | frontend/src/App.tsx:482-512 | An edit changes only the edited field. |
| Parrainage.ParrainageForm.Submit | frontend/src/App.tsx:200-207 | The form proceeds exactly when no field is blank. It then becomes pending. Otherwise nothing changes. |
| Parrainage.ParrainageForm.DelayTick | frontend/src/App.tsx:211-222 | When the simulated request ends, the form is submitted and no longer pending, and the 3000 ms reset is scheduled. |
| Parrainage.ParrainageForm.ResetTick | frontend/src/App.tsx:213-218 | The reset empties all three fields and clears `parrainageSubmitted`. |
| FormalPage.IsExpanded | frontend/src/AppFormal.tsx:650 | `expandedModules[k]` read as truthy: an absent key reads as collapsed. |
| FormalPage.Toggled | frontend/src/AppFormal.tsx:663 | Toggling module `k` flips its visible state. Every other key keeps its presence and its value. |
| FormalPage.ToggleTwice | frontend/src/AppFormal.tsx:650-663 | Toggling a module twice restores every module's visible state, and restores the very map when the key was present. An absent key reads as collapsed. |
| FormalPage.TogglesCommute | frontend/src/AppFormal.tsx:663-721 | Toggles of any two modules commute, so the modules are independent. |
| FormalPage.ModuleDetails.constructor | frontend/src/AppFormal.tsx:27 | The initial map is empty, so every module starts collapsed. |
| FormalPage.ModuleDetails.Toggle | frontend/src/AppFormal.tsx:693 | A module button replaces the map by its toggled copy. |
| EndToEnd.Payload | frontend/src/App.tsx:152 | `JSON.stringify(formData)` is an object with exactly the keys `name`, `email` and `message`, each holding its field's string. |
| EndToEnd.Delivered | frontend/src/App.tsx:155-157 | The page always decodes the view's body. `response.ok` holds for a 2xx status only, so never for the view's 400 and 500 answers. `success` and `errors` pass through unchanged. |
| EndToEnd.PayloadReads | backend/contact/views.py:17-22 | The endpoint reads the posted form as its three stripped values. |
| EndToEnd.FrontendValidBackendAccepts | backend/contact/views.py:26-33 | Any form the page's `validateForm` accepts passes the endpoint's checks, and with a working mailer it is answered `(200, True)`. |
| EndToEnd.ValidSubmitSucceedsIffSent | frontend/src/App.tsx:157-160 | A valid form ends in the page's success state exactly when the mail goes out. |
| EndToEnd.BackendFailureShownVerbatim | backend/contact/views.py:61-75 | Every failure answer makes the page show an error with the endpoint's own joined messages, which are non-empty, and never the page's generic fallback. |
| EndToEnd.BackendLaxerThanFrontend | backend/contact/views.py:30 | `a@b` passes the endpoint, which only asks for an `@`, but the page rejects it. |

## Left out

- The whitespace set.
  - `IsSpace` is JavaScript's `\s` set. It stands for both `String.prototype.trim` and Python's `str.strip`.
  - Python also strips `\x1c`–`\x1f` and `\x85`, and it does not strip U+FEFF.
  - EndToEnd.FrontendValidBackendAccepts therefore rests on the shared predicate. A name made only of `\x1c` passes the page and is refused by the endpoint.
  - EndToEnd.ValidSubmitSucceedsIffSent rests on it too. With a `\x1c` name and a working mailer, the page would end in its error state, not in success.
- No regex engine. The e-mail pattern is the fixed predicate `Matches`, and `MatchesIffShape` gives its meaning.
- The floating-point percentage. It is replaced by exact integer cross-multiplication. Rounding at the exact 30% boundary is not modelled.
- React's batching and re-rendering.
  - Setters are sequential field updates.
  - The `errors[name]` and `submitStatus` reads in `handleChange` see the current state.
  - Updates after unmount are not modelled.
- ContactForm.ContactForm.HandleSubmit: assumes no edit between the request and its answer. Edits during the `await` are covered by calling `BeginSubmit`, `HandleChange` and then `FinishSubmit`.
- `response.json()` failing, `data` being `null`, and `errors` not being an array.
  - A failure of the first kind is folded into `TransportFailure`, which is what the `catch` does.
  - The other two shapes cannot be represented.
- The simulated guide and referral requests never reject, so their `catch` branches with `console.error` are not modelled.
- The e-mail's subject, body, sender and reply-to (backend/contact/views.py:39-56). Only whether the send succeeds is an input.
- `@require_http_methods(["POST"])` answering other methods with 405, and `@csrf_exempt`. These are framework decorators outside the view's body.
- The distinction between `JSONDecodeError` and other decoding errors is kept only as the `NotJson` / `BadEncoding` split of the body. JSON values are either strings or "anything else".
- The referral form's submit handler checks presence only, because that is what the handler does.
- The browser's own constraint validation is not modelled. The referral inputs are `required` and the referral e-mail is `type="email"`. The guide e-mail is `type="email"` and `required`. The contact e-mail is `type="email"`. So the browser refuses some values, such as `jo` for the referral e-mail or a blank referral field, before `onSubmit` calls the handler. The model's handlers run on every value.
- JSX markup, styling, navigation (`scrollToForm`, `Programme.tsx`) and configuration files.
- `frontend/src/main.tsx` and `backend/chessformation/urls.py` are not part of this model.
