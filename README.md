# Grievance intake form — Dafny model

This project models the grievance intake form of the Grievances web
application (`src/components/GrievanceModal.tsx`). The form holds a draft with
an organization type, an organization name or ID, an issue description, proof
files and, after submission, a reference ID. It validates the three required
fields on submit. It derives an eight-character reference ID from a uuid and
stores the submitted record in `localStorage` under `grievance_<id>`. It
filters uploaded files by media type, removes files by position, and lets the
user dictate the description through the browser's speech recognizer.

The model follows the component's own shape:

- `Text.dfy`: what JavaScript's `trim()`, `toUpperCase()`, `startsWith`,
  `endsWith` and `substring(0, n)` mean on strings, with the proof that
  `!s.trim()` holds exactly when every character of `s` is whitespace.
- `Attachments.dfy`: the accepted-type predicate built from the
  `validTypes` list, the `filter` of the upload handler, the index filter of
  `removeFile`, and `getFileIcon` as a classification into `FileIcon`.
- `Validation.dfy`: the `GrievanceData` draft and the error map that
  `validateForm` builds.
- `Submission.dfy`: the reference-ID derivation, the store key and the
  stored record.
- `GrievanceModal.dfy`: the class `GrievanceForm`. Its fields are the
  component's state: `formData`, `isListening`, `isSubmitted`, `errors`,
  `speechSupported`, whether a recognizer was constructed, and the key-value
  store that stands for `localStorage`. Its methods are the handlers, each
  one atomic update. `Valid()` is the invariant every handler keeps. Three
  client methods at the end walk through a complete submission, a failed
  submission and a dictation.

The model follows the code as written:

- `startVoiceRecording` does not check `isListening`.
- `stopVoiceRecording` only resets the flag when a recognizer exists.
- The organization type is only checked for being non-empty, not against
  the three options of the select box.
- The `localStorage` write at the end of `handleSubmit` has no error handling.
- The filter's media prefixes are `image`, `video` and `audio` without a
  slash, because `'image/*'.slice(0, -2)` drops the `/*`. So a type such
  as `imagery/png` is accepted, yet `getFileIcon` shows it with the generic
  icon (`Attachments.AcceptedWithGenericIcon`).
- `handleSubmit` does not look at `isSubmitted`. A second submit while
  acknowledged draws a new reference ID and writes a second record.

## Model

| member | source | states |
|---|---|---|
| Text.TrimStart | src/components/GrievanceModal.tsx:84-88 | the result is a suffix of the input; every dropped character is whitespace; the result does not start with whitespace |
| Text.TrimEnd | src/components/GrievanceModal.tsx:84-88 | the result is a prefix of the input; every dropped character is whitespace; the result does not end with whitespace |
| Text.TrimEmptyIffBlank | src/components/GrievanceModal.tsx:84-88 | `trim()` gives the empty string exactly when every character is JavaScript whitespace or a line terminator |
| Text.Trim | src/components/GrievanceModal.tsx:84-88 | `trim()` is no longer than its input, neither starts nor ends with whitespace, and is empty for a blank input; `TrimEmptyIffBlank` gives the converse |
| Text.StartsWith | src/components/GrievanceModal.tsx:139 | `startsWith(p)` holds iff `p` fits and agrees with the string position by position |
| Text.EndsWith | src/components/GrievanceModal.tsx:138 | `endsWith(p)` holds iff `p` fits and agrees with the last `len(p)` characters |
| Text.Prefix | src/components/GrievanceModal.tsx:101 | `substring(0, n)` has length `min(n, len)` and is a prefix of its input |
| Text.UpperChar | src/components/GrievanceModal.tsx:101 | upper-casing maps `a`..`z` 32 code points down, keeps every other character, and never yields a lower-case ASCII letter |
| Text.ToUpper | src/components/GrievanceModal.tsx:101 | `toUpperCase()` keeps the length and upper-cases position by position |
| Attachments.MatchesPattern | src/components/GrievanceModal.tsx:138-141 | one `validTypes` entry: a prefix test on the entry without its last two characters when it ends in `/*`, otherwise equality; what this gives for the four entries is stated by `AcceptedTypeExplicit` |
| Attachments.AnyMatches | src/components/GrievanceModal.tsx:137-142 | `validTypes.some(...)`; `AnyMatchesSome` states that it holds iff some entry matches |
| Attachments.AnyMatchesSome | src/components/GrievanceModal.tsx:137-142 | the recursive `some` holds exactly when some entry of the list matches |
| Attachments.IsAcceptedType | src/components/GrievanceModal.tsx:135-142 | the filter callback of the upload handler; its explicit form is stated by `AcceptedTypeExplicit` |
| Attachments.AcceptedTypeExplicit | src/components/GrievanceModal.tsx:136-142 | a type passes the `validTypes.some(...)` test iff it starts with `image`, `video` or `audio` (no slash), or equals `application/pdf` |
| Attachments.RejectedType | src/components/GrievanceModal.tsx:136-142 | a type that differs from each media prefix at some position and is not the PDF type is rejected |
| Attachments.SampleTypes | src/components/GrievanceModal.tsx:136-142 | `image/png` and `application/pdf` pass, `text/plain` and `application/zip` do not |
| Attachments.KeepAccepted | src/components/GrievanceModal.tsx:135-143 | the filter keeps only accepted files, keeps every accepted file, and adds nothing |
| Attachments.KeepAcceptedAppend | src/components/GrievanceModal.tsx:135-143 | filtering a concatenation is the concatenation of the filtered parts, so the relative order is kept |
| Attachments.KeepAcceptedCount | src/components/GrievanceModal.tsx:135-143 | each accepted file value keeps its number of occurrences and each rejected one disappears: no deduplication |
| Attachments.KeepAcceptedOfAccepted | src/components/GrievanceModal.tsx:135-143 | a selection of accepted files passes unchanged |
| Attachments.KeepAcceptedAllAccepted | src/components/GrievanceModal.tsx:135-143 | the filtered selection holds only accepted types |
| Attachments.FilterMixedTypes | src/components/GrievanceModal.tsx:133-149 | of png, txt, pdf, zip the filter keeps exactly png and pdf, in that order |
| Attachments.DropPosition | src/components/GrievanceModal.tsx:154 | the position filter started at `from` has one element fewer exactly when `index` is among the positions it visits; its result is given by `DropPositionMissed` and `DropPositionHit` |
| Attachments.DropPositionMissed | src/components/GrievanceModal.tsx:154 | a position filter whose index lies outside the positions it visits returns its input |
| Attachments.DropPositionHit | src/components/GrievanceModal.tsx:154 | a position filter whose index it visits drops exactly that element |
| Attachments.RemoveAt | src/components/GrievanceModal.tsx:154 | `filter((_, i) => i !== index)` removes exactly element `index` when `0 <= index < len`, keeping the order, and returns the list unchanged for any other index, negative ones included |
| Attachments.RemoveAtExamples | src/components/GrievanceModal.tsx:151-156 | on `[a, b, c]`, index 1 gives `[a, c]`, indices 5 and -1 give `[a, b, c]` |
| Attachments.RemoveAtAllAccepted | src/components/GrievanceModal.tsx:151-156 | removal keeps a list of accepted files accepted |
| Attachments.PrefixesDisjoint | src/components/GrievanceModal.tsx:158-164 | no type starts with two of `image/`, `video/`, `audio/`, and `application/pdf` starts with none |
| Attachments.IconFor | src/components/GrievanceModal.tsx:158-164 | the image, video and audio icons are chosen exactly for the `image/`, `video/` and `audio/` prefixes, the PDF icon exactly for `application/pdf` |
| Attachments.SpecificIconIsAccepted | src/components/GrievanceModal.tsx:158-164 | every file shown with a specific icon passes the upload filter |
| Attachments.AcceptedWithGenericIcon | src/components/GrievanceModal.tsx:138-139 | `imagery/png` passes the filter yet gets the generic icon |
| Validation.FormErrors | src/components/GrievanceModal.tsx:78-93 | key `organization` iff the type is empty, `organizationName` iff that field is blank, `issueDescription` iff that field is blank, each with its fixed message, and no other key |
| Validation.ValidIffNoErrors | src/components/GrievanceModal.tsx:92 | the error map is empty iff all three required fields are filled in |
| Validation.ErrorsIgnoreFilesAndReference | src/components/GrievanceModal.tsx:78-93 | the files and the reference ID never affect validation |
| Validation.EmptyDraftErrors | src/components/GrievanceModal.tsx:78-93 | the empty draft yields all three errors |
| Validation.WhitespaceDescriptionRejected | src/components/GrievanceModal.tsx:87-89 | a description of spaces, tabs and line breaks yields exactly the description error |
| Submission.ReferenceId | src/components/GrievanceModal.tsx:101 | the ID has length `min(8, len)` and is the upper-cased first characters of the uuid |
| Submission.ReferenceIdOfV4Uuid | src/components/GrievanceModal.tsx:101 | for a v4 uuid the ID is exactly eight characters from `0-9A-F` |
| Submission.ReferenceIdHasNoLowerCase | src/components/GrievanceModal.tsx:101 | the ID of any input holds no lower-case ASCII letter |
| Submission.RecordOf | src/components/GrievanceModal.tsx:104-108 | the stored record copies the draft's four fields and carries the new reference ID, not the draft's earlier one, and the time stamp |
| Submission.StoreKey | src/components/GrievanceModal.tsx:116 | the key is `grievance_` followed by the reference ID |
| Submission.StoreKeyInjective | src/components/GrievanceModal.tsx:116 | different reference IDs get different keys |
| GrievanceModal.GrievanceForm.Valid | src/components/GrievanceModal.tsx:112-113 | the invariant every handler's `ensures Valid()` keeps: `speechSupported` equals recognizer presence, listening needs a recognizer, `referenceId` is present iff `isSubmitted` and its record is stored, every file is accepted |
| GrievanceModal.GrievanceForm.constructor | src/components/GrievanceModal.tsx:19-41 | the empty draft, not listening, not submitted, no errors; `speechSupported` and the recognizer both exactly when the host offers speech recognition |
| GrievanceModal.GrievanceForm.SetOrganization | src/components/GrievanceModal.tsx:189 | only `organization` changes |
| GrievanceModal.GrievanceForm.SetOrganizationName | src/components/GrievanceModal.tsx:212 | only `organizationName` changes |
| GrievanceModal.GrievanceForm.SetIssueDescription | src/components/GrievanceModal.tsx:231 | only `issueDescription` changes |
| GrievanceModal.GrievanceForm.ValidateForm | src/components/GrievanceModal.tsx:78-93 | `errors` is replaced wholesale by the map of `Validation.FormErrors`, and the result is true iff the draft is complete |
| GrievanceModal.GrievanceForm.Submit | src/components/GrievanceModal.tsx:95-117 | a failed validation changes only `errors`; a passing one sets the reference ID and `isSubmitted`, keeps the other fields, and writes the record under `grievance_<id>`; `Valid()` is kept |
| GrievanceModal.GrievanceForm.UploadFiles | src/components/GrievanceModal.tsx:133-149 | the accepted files of the selection are appended after the existing ones, nothing else changes |
| GrievanceModal.GrievanceForm.RemoveFile | src/components/GrievanceModal.tsx:151-156 | element `index` is removed when in range, otherwise the files are unchanged; nothing else changes |
| GrievanceModal.GrievanceForm.StartVoiceRecording | src/components/GrievanceModal.tsx:119-124 | listening starts iff a recognizer exists and speech is supported, whatever `isListening` was; otherwise nothing changes |
| GrievanceModal.GrievanceForm.StopVoiceRecording | src/components/GrievanceModal.tsx:126-131 | listening stops whenever a recognizer exists |
| GrievanceModal.GrievanceForm.ToggleVoiceRecording | src/components/GrievanceModal.tsx:241 | the button stops while listening and otherwise starts, so afterwards the form listens iff it did not before and a recognizer exists |
| GrievanceModal.GrievanceForm.OnRecognitionResult | src/components/GrievanceModal.tsx:43-50 | the description becomes the old one, a space and the transcript; listening stops; nothing else changes |
| GrievanceModal.GrievanceForm.OnRecognitionError | src/components/GrievanceModal.tsx:52-54 | only listening stops |
| GrievanceModal.GrievanceForm.OnRecognitionEnd | src/components/GrievanceModal.tsx:56-58 | only listening stops |
| GrievanceModal.GrievanceForm.ResetForm | src/components/GrievanceModal.tsx:62-71 | empty strings and files, no reference ID, not submitted, no errors; listening, recognizer and store kept; on a cleared form nothing changes |
| GrievanceModal.GrievanceForm.HandleClose | src/components/GrievanceModal.tsx:73-76 | the same reset as `ResetForm` |

## Left out

- `src/App.tsx` is not part of this model: it is a static page whose only state is whether the form is open.
- The JSX rendering, the CSS class choices and the `isOpen` early return are display only; of the markup only the microphone button's choice between stop and start is modelled.
- The Web Speech API is a browser capability: the feature probe, the recognizer's `continuous`, `interimResults` and `lang` settings and its `start()` and `stop()` calls are left out. They are represented by the `hasRecognizer` flag and the three callback methods.
- The mount effect is folded into the constructor. The brief state before the effect runs, with `speechSupported` still false, is not modelled.
- `uuidv4()` and `new Date().toISOString()` draw randomness and the clock, so the uuid and the time stamp are parameters of `Submit`. `console.log` is omitted.
- `localStorage` is a map field, and `JSON.stringify` is replaced by storing the record value. The text actually written is not modelled, so neither is the fact that each browser `File` serialises to `{}`.
- The file-size display `(size / 1024 / 1024).toFixed(1)` is floating-point formatting.
- React's batching and asynchronous state updates, `useEffect` timing and `useRef` are left out: each handler is one atomic update.
- `e.preventDefault()`, the hidden file input's `click()` and the `accept` attribute are browser behaviour. A `null` file list is passed to `UploadFiles` as the empty sequence.
- The host's `onClose` callback called by `handleClose` is outside the component.
- Text.UpperChar, Text.ToUpper: only ASCII letters are upper-cased, because the full Unicode case mapping of `toUpperCase` is not modelled. A uuid holds only ASCII characters.
- The recognizer callbacks carry no precondition beyond `Valid()`. The browser only delivers them through a constructed recognizer, which the model does not enforce.
- GrievanceModal.GrievanceForm.Submit: the store write always succeeds. In the browser `localStorage.setItem` can throw, for example a `QuotaExceededError`, or a `SecurityError` when storage is disabled. Nothing catches the throw, and the acknowledgement is already queued by then, so the real form can show a reference ID with no stored record. `Valid()`'s store clause assumes the write succeeded.
