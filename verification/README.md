# Roomzy client-side state, modelled in Dafny

Roomzy is a property-rental web front-end. Four React components in it hold
small pieces of state logic. This project restates each of them as pure
functions over immutable datatypes and proves what they do:

- **Navbar** (`navbar.dfy`, module `Navbar`). The session is either no user or
  a user with an optional role. The session determines the link list, which
  is the same on the desktop bar and in the mobile sheet, and which links
  carry the active style. It also determines the user dropdown. The one user
  fetch stores a payload only for status 200 with a payload present. The
  search box opens on click and closes on blur.
- **AddProperty** (`add_property.dfy`, module `AddProperty`). The
  property-registration draft is checked by a declarative schema:
  minimum lengths, numeric minimums, the property-type enum, the phone
  pattern `^\+?[1-9]\d{1,14}$`, and the image count, size and MIME limits.
  Before the schema runs, the browser's own input checks (number steps and
  the e-mail input) can block the submit. The submit handler runs only
  when those checks and every schema rule pass. The upload step
  replaces `images` and appends previews. The remove button drops one
  position from both lists. Amenities are checked and unchecked on a list.
- **Login** (`login.dfy`, module `Login`). There are two fields, a per-field
  error map and a server error. Typing into a field clears only that
  field's error. With an empty field the browser blocks the submit and
  nothing changes. Otherwise a submit ends in exactly one of three ways:
  field errors, the generic server error, or one navigation to `/dashboard`.
- **Admin property list** (`admin_properties.dfy`, module
  `AdminProperties`). Delete removes by id, and a case-insensitive search
  matches on name or address.

Shared vocabulary sits in `common.dfy` (module `Common`: `Option`, the
order-preserving `Filter`, `Subseq`, `RemoveAt`, `Zip`). `text.dfy` holds
ASCII lower-casing and substring search. `pattern.dfy` holds the regular
expression fragment that the phone rule uses.

External effects are inputs or outputs of the functions:

- The `/api/fetch-user` response is a `FetchResult`: it threw, or it
  answered with a status and an optional payload.
- Object URLs are opaque `Preview` tokens supplied by the caller.
- The e-mail syntax check of the validation library is a parameter
  `isEmail`.
- A failure of the login's authentication step is a boolean input.
- `router.push` is an output: the list of requested navigations.

In these places the model follows the code, which may differ from what a
reader expects:

- The upload step replaces `images` instead of accumulating files. See
  Findings.
- Nothing resets the draft after a successful registration. The handler
  only logs and shows a toast.
- The schema checks `bedrooms` as a number ≥ 1, not as an integer. Only the
  browser's step check on the input (step 1) rejects a fraction, before the
  schema runs.
- Any role string other than exactly `"admin"`, including a missing role,
  gives the member menu.

## Model

| member | source | states |
|---|---|---|
| Navbar.TierOf | components/Header/Navbar.tsx:68-113 | a session is a guest exactly when no user is present and an admin exactly when the user's role is the string "admin" |
| Navbar.MemberMenuPrefixOfAdmin | components/Header/Navbar.tsx:33-42 | the member menu is a strict prefix of the admin menu, and what follows it is exactly the two admin items |
| Navbar.Menu | components/Header/Navbar.tsx:80-130 | a rendered link carries the active style iff a user is present and the pathname equals its href exactly; Login and Sign Up are never active; the active style is the surface's own |
| Navbar.MenuMatchesTier | components/Header/Navbar.tsx:81-130 | on either surface and for any pathname, the rendered entries are exactly the table entries of the session's tier |
| Navbar.GuestMenu | components/Header/Navbar.tsx:115-129 | with no user the menu is exactly [Login → /login, Sign Up → /signup] |
| Navbar.MemberMenu | components/Header/Navbar.tsx:81-97 | a present user whose role is not "admin" (any other string, or none) sees exactly Find Rooms, Find Roommates, Messages in that order |
| Navbar.AdminMenu | components/Header/Navbar.tsx:98-113 | an admin sees the three nav items followed by Dashboard and Manage Properties |
| Navbar.SurfacesAgree | components/Header/Navbar.tsx:212-265 | the mobile sheet lists the same entries in the same order as the desktop bar and highlights the same positions |
| Navbar.UserDropdown | components/Header/Navbar.tsx:135-199 | the dropdown exists iff a user is present; its heading is "Admin Menu" iff the user is an admin, else "User Menu"; Profile and Settings come first, the admin group (after a separator) only for admins, and Log out after a separator is always last; the list has exactly 7 entries for an admin and 4 otherwise, so nothing else appears |
| Navbar.ApplyFetch | components/Header/Navbar.tsx:47-62 | the session takes the payload only when the status is 200 and a payload is present; any other status, a missing payload or a thrown error leaves it unchanged |
| Navbar.FailedFetchShowsGuestMenu | components/Header/Navbar.tsx:50-59 | after a failed fetch on page load the menu is exactly the guest menu and no dropdown is shown |
| Navbar.OpenSearch | components/Header/Navbar.tsx:150 | clicking the search button opens the box and leaves the session unchanged |
| Navbar.BlurSearch | components/Header/Navbar.tsx:143 | blurring the box closes it and leaves the session unchanged |
| Navbar.OpenThenBlur | components/Header/Navbar.tsx:65 | starting from the initially closed box, open then blur returns to the same state |
| Pattern.RepeatAtEnd | components/Forms/AddProperty.tsx:29 | a final bounded repetition `[lo-hi]{min,max}` matches exactly the strings of length min..max drawn from the range |
| AddProperty.Message | components/Forms/AddProperty.tsx:20-33 | every rule except the property-type enum carries a fixed, non-empty message; the enum alone has none of its own |
| AddProperty.MessagesDistinct | components/Forms/AddProperty.tsx:20-33 | no two rules share a fixed message, so each failing rule shows its own text |
| AddProperty.PhoneDigitsIff | components/Forms/AddProperty.tsx:29 | after the optional '+', the pattern accepts exactly 2 to 15 digits whose first digit is 1-9 |
| AddProperty.PhonePatternIff | components/Forms/AddProperty.tsx:29 | `Pattern.Match`, the model of `RegExp.test` on the anchored phone pattern, accepts a string iff it is an optional '+', a digit 1-9, then 1 to 14 more digits and nothing else |
| AddProperty.FileIssuesOf | components/Forms/AddProperty.tsx:30-32 | one file yields a size issue iff it exceeds 5 MiB and a type issue iff its MIME type is outside the four accepted ones, both naming its position |
| AddProperty.FileIssues | components/Forms/AddProperty.tsx:30-32 | every per-file issue names an existing position and is a size or type issue |
| AddProperty.FileIssuesReport | components/Forms/AddProperty.tsx:30-32 | the file at position i is reported too large iff its size exceeds 5·1024·1024, and of a refused type iff its MIME type is not image/jpeg, image/jpg, image/png or image/webp |
| AddProperty.FileIssuesEmptyIff | components/Forms/AddProperty.tsx:30-32 | there is no per-file issue iff every file is accepted |
| AddProperty.ImageIssues | components/Forms/AddProperty.tsx:30-33 | the cap issue is present iff more than five images are attached; the image list has no issue iff it is valid |
| AddProperty.TextIssues | components/Forms/AddProperty.tsx:20-26 | name and address each yield their issue iff empty, description iff shorter than 10 characters |
| AddProperty.NumberIssues | components/Forms/AddProperty.tsx:22-27 | bedrooms < 1, bathrooms < 0.5 and price < 0 each yield their own issue, and only those |
| AddProperty.ChoiceIssues | components/Forms/AddProperty.tsx:24-29 | the type issue iff the type is not apartment/house/condo/studio, the e-mail issue iff the e-mail check fails, the phone issue iff the string is not a phone number |
| AddProperty.Validate | components/Forms/AddProperty.tsx:19-34 | the schema reports no issue iff every field rule holds of the draft |
| AddProperty.ValidateReportsEachRule | components/Forms/AddProperty.tsx:19-34 | each whole-field rule yields its position-free issue exactly when it fails |
| AddProperty.ValidateReportsEachFile | components/Forms/AddProperty.tsx:30-33 | each attached file is reported at its own position as too large, or as of a refused type, exactly when it is |
| AddProperty.ZeroBathroomsOnlyError | components/Forms/AddProperty.tsx:23 | a valid draft with bathrooms set to 0 fails with exactly one issue, the bathrooms one |
| AddProperty.EmptyNameRejected | components/Forms/AddProperty.tsx:20 | an empty property name is reported by the schema and never registered; when the browser's checks pass, the submit is rejected with the "Property name is required" issue |
| AddProperty.FractionalBedroomsBlocked | components/Forms/AddProperty.tsx:96 | 1.5 bedrooms, which the schema accepts, is stopped by the number input's default step and never reaches the handler |
| AddProperty.Submit | components/Forms/AddProperty.tsx:42-169 | the browser blocks the submit iff one of its input checks fails (bedrooms step 1, bathrooms step 0.5, price step 0.01, the e-mail input's syntax); otherwise the handler receives the draft iff the whole draft passes the schema, and a rejection reports exactly the schema's issues, at least one |
| AddProperty.UploadImages | components/Forms/AddProperty.tsx:60-66 | `images` becomes exactly the new batch; the previews keep their old prefix and gain the new tokens at the end; nothing else in the draft changes |
| AddProperty.RemoveImage | components/Forms/AddProperty.tsx:68-71 | position i is removed from the image list and from the preview list, each independently; the rest keep their order; an index outside a list leaves that list unchanged |
| Common.RemoveAt | components/Forms/AddProperty.tsx:69-70 | the index filter equals the list with position i cut out, or the list itself when i is out of range |
| AddProperty.RemoveMiddleOfThree | components/Forms/AddProperty.tsx:68-71 | removing position 1 of three items leaves the first and the former third, in that order |
| AddProperty.SixImagesRejected | components/Forms/AddProperty.tsx:33-65 | six accepted files uploaded to an empty preview list show six previews, the five-image issue is reported and the draft is never registered; when the browser's checks pass, the submit is rejected with that issue |
| AddProperty.TooManyImagesReported | components/Forms/AddProperty.tsx:33 | a draft with more than five images always gets the five-image issue and is never valid |
| AddProperty.UploadDesyncsLists | components/Forms/AddProperty.tsx:60-65 | as written, uploading while an image is already attached leaves more previews than images |
| AddProperty.UploadThenRemoveMismatch | components/Forms/AddProperty.tsx:60-71 | a concrete form where, after a second upload, removing the new preview removes no image and removing the old preview removes the new file |
| AddProperty.UploadImagesAccumulating | components/Forms/AddProperty.tsx:60-66 | the corrected upload appends the batch to the images and the tokens to the previews, keeping both old prefixes |
| AddProperty.UploadAccumulatingKeepsPairs | components/Forms/AddProperty.tsx:60-66 | with the corrected upload, aligned lists stay aligned and each new file sits at the position of its own preview |
| AddProperty.RemoveImageKeepsPairs | components/Forms/AddProperty.tsx:68-71 | on aligned lists, removal drops exactly one (image, preview) pair and keeps the others paired and in order |
| AddProperty.SetAmenity | components/Forms/AddProperty.tsx:139-145 | checking appends the amenity; unchecking removes every occurrence and keeps the rest as an ordered subsequence; the count of every other amenity is unchanged |
| AddProperty.SetAmenityKeepsChecklist | components/Forms/AddProperty.tsx:131-143 | starting from checklist items, checking or unchecking a checklist item leaves only checklist items in the field |
| AddProperty.CheckThenUncheckRestores | components/Forms/AddProperty.tsx:139-145 | checking then unchecking an amenity not already selected restores the exact list |
| AddProperty.UncheckIdempotent | components/Forms/AddProperty.tsx:143 | unchecking twice equals unchecking once |
| Login.InitialIsEmpty | components/Forms/Login.tsx:23-29 | the form starts with empty username and password, the password hidden, no field errors and an empty server error |
| Login.Message | components/Forms/Login.tsx:16-17 | each field's message is non-empty (so it is shown), differs from the other field's message and from the server error |
| Login.ValidationErrors | components/Forms/Login.tsx:15-18 | a field has an error entry iff it fails its minimum length (username 3, password 8), carrying that field's message; there are no entries iff the form is valid |
| Login.Change | components/Forms/Login.tsx:32-37 | only the named field takes the new value and only its error is cleared; every other field and error, the server error and the password toggle are unchanged |
| Login.TogglePassword | components/Forms/Login.tsx:106 | the eye button flips password visibility and changes nothing else |
| Login.ToggleTwiceRestores | components/Forms/Login.tsx:106 | toggling twice restores the state |
| Login.Submit | components/Forms/Login.tsx:39-99 | with an empty field the browser blocks the submit (both inputs are `required`) and nothing changes; otherwise the server error is cleared first, invalid input sets exactly the validation errors and never navigates, the server error is set to the generic message iff validation passed and authentication failed, and navigation happens iff validation passed and authentication succeeded, exactly once and to /dashboard |
| Login.ErrorsSoundPreserved | components/Forms/Login.tsx:23-63 | the initial state has no shown error; every shown error belongs to a field whose current value is invalid, and change, toggle and submit keep this |
| Login.SuccessShowsNoErrors | components/Forms/Login.tsx:39-55 | from any reachable state, a successful login navigates once and leaves no field error and no server error on screen |
| Login.ShortUsernameRejected | components/Forms/Login.tsx:15-18 | the username "ab" with a non-empty password never reaches authentication and shows the username message |
| Login.EmptyFieldsBlocked | components/Forms/Login.tsx:75-99 | pressing Login on the initial empty form changes nothing, although the schema would reject it: the browser's `required` check stops the submit first |
| Login.MinimalCredentialsAccepted | components/Forms/Login.tsx:39-55 | "abc" with "12345678" passes validation and navigates exactly once |
| Common.Filter | app/admin/properties/page.tsx:23-30 | the result holds exactly the kept elements, each with its original multiplicity, as an order-preserving subsequence of the input |
| Text.Lower | app/admin/properties/page.tsx:28-29 | lower-casing keeps the length and maps each character on its own: ASCII capitals to their small letters, everything else unchanged |
| Text.LowerIdempotent | app/admin/properties/page.tsx:28-29 | lower-casing an already lowered string changes nothing |
| Text.ContainsIff | app/admin/properties/page.tsx:27-30 | the substring scan succeeds iff the needle occurs at some position of the haystack |
| AdminProperties.InitialIdsDistinct | app/admin/properties/page.tsx:14-19 | the initial list holds four properties with ids 1 to 4, pairwise distinct |
| AdminProperties.DeleteProperty | app/admin/properties/page.tsx:23-25 | every property with the id is removed; the others keep their multiplicity and their order |
| AdminProperties.DeleteAbsentUnchanged | app/admin/properties/page.tsx:24 | deleting an id no property carries leaves the list unchanged |
| AdminProperties.DeleteIdempotent | app/admin/properties/page.tsx:24 | deleting the same id twice equals deleting it once |
| AdminProperties.FilteredProperties | app/admin/properties/page.tsx:27-30 | the filtered list is an order-preserving subsequence, and a property is in it iff it is in the list and its lowered name or lowered address contains the lowered term |
| AdminProperties.FilteredMembership | app/admin/properties/page.tsx:27-30 | membership in the filtered list, stated with a position of the lowered term in the lowered name or address |
| AdminProperties.EmptyTermShowsAll | app/admin/properties/page.tsx:27-30 | an empty search term shows every property |
| AdminProperties.SearchIgnoresCase | app/admin/properties/page.tsx:27-30 | a term and its lower-cased form select the same list |
| AdminProperties.ShowsEmptyState | app/admin/properties/page.tsx:97-101 | "No properties found" is shown iff no property matches the term |

## Findings

| source | as written | input that shows it | evidently intended | confidence | as-written member | corrected member |
|---|---|---|---|---|---|---|
| components/Forms/AddProperty.tsx:60-71 | the upload sets `images` to the new batch but appends the new previews; the remove button then drops the same index from two lists that no longer correspond | one image with its preview, then an upload of one more file: two previews, one image; removing preview 0 removes the new file and the old preview | files accumulate alongside their previews, so that position i of both lists is the same attachment | medium, not executed | AddProperty.UploadDesyncsLists | AddProperty.UploadAccumulatingKeepsPairs |

The as-written upload (`AddProperty.UploadImages`) is the one the rest of
the model uses, because that is what the component does. The corrected
upload (`AddProperty.UploadImagesAccumulating`) is proved to keep every
image paired with its own preview, and removal keeps that pairing
(`AddProperty.RemoveImageKeepsPairs`).

## Left out

- Rendering: JSX, CSS classes, icons and `toLocaleString` formatting are not modelled. Neither is the unused `USD_TO_INR` constant. The two surfaces differ only in which active style a link gets.
- app/rooms/page.tsx and the property detail page are not part of this model. They hold placeholder cards and a slider value, with no rules.
- The HTTP request to `/api/fetch-user` and its `console.log` on error are not modelled. Its outcome is the input `FetchResult`.
- A missing user-context provider (`userContent` being null) is not modelled. The context is assumed present.
- Navbar.OpenSearch: the search button and the dropdown are only rendered for a signed-in user. The model opens the box unconditionally, as `setIsSearchOpen(true)` does.
- `URL.createObjectURL` is not modelled. Its results are opaque tokens, one per file, supplied by the caller.
- The e-mail rule uses the validation library's syntax check, which is not modelled. It is the parameter `isEmail`. The browser's own check on the `type="email"` input is likewise the parameter `browserEmail`.
- AddProperty.NativeValid: the browser's step checks are stated in exact decimal arithmetic. Browsers compare in floating point with a small tolerance, which is not modelled. Constraints the browser puts on a number input's text (a non-numeric entry) are not modelled either.
- The property-type rule's message is the validation library's default, which is not modelled (`Message` gives `None`).
- The form library's internals are not modelled. This covers re-validation on `setValue`, how per-file issues reach `errors.images.message`, and the issue order. Only "the handler runs iff the browser's input checks and the schema pass" is modelled.
- AddProperty.Validate: its contract does not state the order of the issues, only which issues are present.
- Numeric fields are `real`. HTML number parsing and NaN from an empty number input are not modelled. No IEEE floating point is modelled.
- The untouched initial values of the text and number fields (undefined or NaN until typed) are not modelled. The draft holds the values as read at submit time.
- Lower-casing is ASCII only. JavaScript's full Unicode `toLowerCase` is not modelled.
- String lengths count characters, not UTF-16 code units as JavaScript's `.length` does.
- Toasts, `console.log`, the simulated one-second delay and the asynchronous timing of `router.push` are not modelled. Navigation is an output list.
- Login.Submit: the validation error arrays of `flatten()` are represented by their single message, since each field has exactly one rule.
- Login.Submit: nothing inside `handleSubmit`'s `try` can fail except the parse. The "other failure" branch is the boolean input `authFails`.
- React re-rendering, state batching, `useEffect` timing and duplicate concurrent submits are not modelled. There is no guard to model.
- The checkbox's "indeterminate" state, which is truthy and would append, is not modelled. The model uses a boolean.
