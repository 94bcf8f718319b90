/**
  The property-registration form: the draft's declarative field rules, the
  image upload and removal steps with their preview list, amenity
  check/uncheck, and the submit gate.
 */
module AddProperty {
  import opened Common
  import Pattern

  /** 5 MiB, the per-file size limit. */
  const MaxFileSize: nat := 5 * 1024 * 1024
  /** The array-level cap on attached images. */
  const MaxImages: nat := 5
  const AcceptedImageTypes: seq<string> := ["image/jpeg", "image/jpg", "image/png", "image/webp"]
  const PropertyTypes: seq<string> := ["apartment", "house", "condo", "studio"]
  /** The fixed checklist the form offers. */
  const AmenityChoices: seq<string> := ["WiFi", "Parking", "Gym", "Laundry", "Air Conditioning", "Heating"]

  /** An attached file, reduced to what the schema reads: its byte size and MIME type. */
  datatype File = File(size: nat, mimeType: string)

  /** An opaque object-URL token produced for one attached file. */
  datatype Preview = Preview(token: nat)

  /** The form values as the resolver sees them on submit. */
  datatype Draft = Draft(
    propertyName: string,
    address: string,
    bedrooms: real,
    bathrooms: real,
    propertyType: string,
    amenities: seq<string>,
    description: string,
    price: real,
    contactEmail: string,
    contactPhone: string,
    images: seq<File>)

  /** The draft together with the component's separate preview list. */
  datatype Form = Form(draft: Draft, previews: seq<Preview>)

  /** One rule of the schema; each failing rule produces its own issue. */
  datatype Rule =
    | NameRequired | AddressRequired | BedroomsMin | BathroomsMin | PropertyTypeEnum
    | DescriptionTooShort | PriceMin | EmailInvalid | PhoneInvalid
    | FileTooLarge | FileTypeRejected | TooManyImages

  /** A failed rule; `item` is the image position for the per-file rules. */
  datatype Issue = Issue(rule: Rule, item: Option<nat>)

  /** The fixed message of each rule; `None` where the schema leaves the library's default message. */
  function Message(rule: Rule): (r: Option<string>)
    ensures r.None? <==> rule == PropertyTypeEnum
    ensures r.Some? ==> r.value != ""
  {
    match rule
    case NameRequired => Some("Property name is required")
    case AddressRequired => Some("Address is required")
    case BedroomsMin => Some("At least 1 bedroom is required")
    case BathroomsMin => Some("At least 0.5 bathroom is required")
    case PropertyTypeEnum => None
    case DescriptionTooShort => Some("Description must be at least 10 characters")
    case PriceMin => Some("Price must be a positive number")
    case EmailInvalid => Some("Invalid email address")
    case PhoneInvalid => Some("Invalid phone number")
    case FileTooLarge => Some("Max file size is 5MB.")
    case FileTypeRejected => Some(".jpg, .jpeg, .png and .webp files are accepted.")
    case TooManyImages => Some("You can upload up to 5 images")
  }

  /** No two rules share a fixed message, so a shown message identifies the rule that failed. */
  lemma MessagesDistinct(a: Rule, b: Rule)
    requires a != b && Message(a).Some?
    ensures Message(a) != Message(b)
  {
    match a
    case NameRequired =>
    case AddressRequired =>
    case BedroomsMin =>
    case BathroomsMin =>
    case DescriptionTooShort =>
    case PriceMin =>
    case EmailInvalid =>
    case PhoneInvalid =>
    case FileTooLarge =>
    case FileTypeRejected =>
    case TooManyImages =>
  }

  // ---------------------------------------------------------------------------
  // Declarative rules (the schema read as predicates)

  predicate IsDigit(c: char) {
    '0' <= c <= '9'
  }

  /** 2 to 15 digits, the first of them not '0'. */
  predicate DigitsOk(digits: string) {
    && 2 <= |digits| <= 15
    && '1' <= digits[0] <= '9'
    && forall k :: 0 <= k < |digits| ==> IsDigit(digits[k])
  }

  /** An optional '+', then 2 to 15 digits of which the first is not '0'. */
  predicate IsPhoneNumber(s: string) {
    DigitsOk(if |s| > 0 && s[0] == '+' then s[1..] else s)
  }

  predicate FileAccepted(f: File) {
    f.size <= MaxFileSize && f.mimeType in AcceptedImageTypes
  }

  predicate ImagesValid(images: seq<File>) {
    |images| <= MaxImages && forall i :: 0 <= i < |images| ==> FileAccepted(images[i])
  }

  /** Every rule of the schema holds; `isEmail` stands for the library's e-mail syntax check. */
  predicate DraftValid(d: Draft, isEmail: string -> bool) {
    && |d.propertyName| >= 1
    && |d.address| >= 1
    && d.bedrooms >= 1.0
    && d.bathrooms >= 0.5
    && d.propertyType in PropertyTypes
    && |d.description| >= 10
    && d.price >= 0.0
    && isEmail(d.contactEmail)
    && IsPhoneNumber(d.contactPhone)
    && ImagesValid(d.images)
  }

  // ---------------------------------------------------------------------------
  // The validator

  /** The phone rule's pattern `^\+?[1-9]\d{1,14}$`. */
  const PhonePattern: seq<Pattern.Atom> :=
    [Pattern.Optional('+'), Pattern.Range('1', '9'), Pattern.Repeat('0', '9', 1, 14)]

  /** After the optional '+', the rest of the phone pattern accepts exactly 2 to 15 digits led by a non-zero one. */
  lemma PhoneDigitsIff(t: string)
    ensures Pattern.Match(PhonePattern[1..], t) <==> DigitsOk(t)
  {
    var tail := PhonePattern[1..];
    assert tail == [Pattern.Range('1', '9'), Pattern.Repeat('0', '9', 1, 14)];
    if |t| > 0 {
      assert tail[1..][1..] == [];
      assert Pattern.Match(tail[1..], t[1..]) == Pattern.RepeatMatch('0', '9', 1, 14, [], t[1..]);
      assert Pattern.Match(tail, t) == ('1' <= t[0] <= '9' && Pattern.Match(tail[1..], t[1..]));
      Pattern.RepeatAtEnd('0', '9', 1, 14, t[1..]);
      if '1' <= t[0] <= '9' && Pattern.InRange(t[1..], '0', '9') {
        forall k | 0 <= k < |t| ensures IsDigit(t[k]) {
          if k > 0 {
            assert t[k] == t[1..][k - 1];
          }
        }
      }
    }
  }

  /** The phone pattern accepts exactly the phone numbers: optional '+', a non-zero digit, 1 to 14 more digits. */
  lemma PhonePatternIff(s: string)
    ensures Pattern.Match(PhonePattern, s) <==> IsPhoneNumber(s)
  {
    var tail := PhonePattern[1..];
    assert Pattern.Match(PhonePattern, s)
      == ((|s| > 0 && s[0] == '+' && Pattern.Match(tail, s[1..])) || Pattern.Match(tail, s));
    PhoneDigitsIff(s);
    if |s| > 0 {
      PhoneDigitsIff(s[1..]);
    }
  }

  /** The issue for `rule` when `ok` fails. */
  function Check(ok: bool, rule: Rule): seq<Issue> {
    if ok then [] else [Issue(rule, None)]
  }

  /** The issues of the file at position `i`: its size, then its type. */
  function FileIssuesOf(f: File, i: nat): (r: seq<Issue>)
    ensures forall x :: x in r ==> x.item == Some(i) && (x.rule == FileTooLarge || x.rule == FileTypeRejected)
    ensures Issue(FileTooLarge, Some(i)) in r <==> f.size > MaxFileSize
    ensures Issue(FileTypeRejected, Some(i)) in r <==> f.mimeType !in AcceptedImageTypes
  {
    (if f.size > MaxFileSize then [Issue(FileTooLarge, Some(i))] else [])
    + (if f.mimeType !in AcceptedImageTypes then [Issue(FileTypeRejected, Some(i))] else [])
  }

  /** The per-file issues of `files`, in file order; each names the position of its file. */
  function FileIssues(files: seq<File>): (r: seq<Issue>)
    ensures forall x :: x in r ==> x.item.Some? && x.item.value < |files|
    ensures forall x :: x in r ==> x.rule == FileTooLarge || x.rule == FileTypeRejected
    decreases |files|
  {
    if |files| == 0 then []
    else
      var n := |files| - 1;
      FileIssues(files[..n]) + FileIssuesOf(files[n], n)
  }

  /** The file at position `i` is reported too large, or of a refused type, exactly when it is. */
  lemma {:induction false} FileIssuesReport(files: seq<File>, i: nat)
    requires i < |files|
    ensures Issue(FileTooLarge, Some(i)) in FileIssues(files) <==> files[i].size > MaxFileSize
    ensures Issue(FileTypeRejected, Some(i)) in FileIssues(files) <==> files[i].mimeType !in AcceptedImageTypes
    decreases |files|
  {
    var n := |files| - 1;
    var init := files[..n];
    assert FileIssues(files) == FileIssues(init) + FileIssuesOf(files[n], n);
    if i < n {
      FileIssuesReport(init, i);
      assert init[i] == files[i];
    }
  }

  /** The schema's issues for the image list: the array cap, then each file's size and type. */
  function ImageIssues(images: seq<File>): (r: seq<Issue>)
    ensures Issue(TooManyImages, None) in r <==> |images| > MaxImages
    ensures forall x :: x in r ==> x.rule == TooManyImages || x.item.Some?
    ensures r == [] <==> ImagesValid(images)
  {
    FileIssuesEmptyIff(images);
    Check(|images| <= MaxImages, TooManyImages) + FileIssues(images)
  }

  /** A file list has no per-file issue exactly when every file is accepted. */
  lemma FileIssuesEmptyIff(files: seq<File>)
    ensures FileIssues(files) == [] <==> forall i :: 0 <= i < |files| ==> FileAccepted(files[i])
  {
    var r := FileIssues(files);
    if exists i :: 0 <= i < |files| && !FileAccepted(files[i]) {
      var i :| 0 <= i < |files| && !FileAccepted(files[i]);
      FileIssuesReport(files, i);
    }
    if r != [] {
      var x := r[0];
      assert x in r;
      var i := x.item.value;
      FileIssuesReport(files, i);
      assert x == Issue(FileTooLarge, Some(i)) || x == Issue(FileTypeRejected, Some(i));
    }
  }

  /** The rules on the three text fields. */
  function TextIssues(d: Draft): (r: seq<Issue>)
    ensures Issue(NameRequired, None) in r <==> |d.propertyName| < 1
    ensures Issue(AddressRequired, None) in r <==> |d.address| < 1
    ensures Issue(DescriptionTooShort, None) in r <==> |d.description| < 10
    ensures forall x :: x in r ==> x.item.None? && x.rule in {NameRequired, AddressRequired, DescriptionTooShort}
    ensures r == [] <==> |d.propertyName| >= 1 && |d.address| >= 1 && |d.description| >= 10
  {
    Check(|d.propertyName| >= 1, NameRequired)
    + Check(|d.address| >= 1, AddressRequired)
    + Check(|d.description| >= 10, DescriptionTooShort)
  }

  /** The numeric minimums. */
  function NumberIssues(d: Draft): (r: seq<Issue>)
    ensures Issue(BedroomsMin, None) in r <==> d.bedrooms < 1.0
    ensures Issue(BathroomsMin, None) in r <==> d.bathrooms < 0.5
    ensures Issue(PriceMin, None) in r <==> d.price < 0.0
    ensures forall x :: x in r ==> x.item.None? && x.rule in {BedroomsMin, BathroomsMin, PriceMin}
    ensures r == [] <==> d.bedrooms >= 1.0 && d.bathrooms >= 0.5 && d.price >= 0.0
  {
    Check(d.bedrooms >= 1.0, BedroomsMin)
    + Check(d.bathrooms >= 0.5, BathroomsMin)
    + Check(d.price >= 0.0, PriceMin)
  }

  /** The property type and the two contact fields. */
  function ChoiceIssues(d: Draft, isEmail: string -> bool): (r: seq<Issue>)
    ensures Issue(PropertyTypeEnum, None) in r <==> d.propertyType !in PropertyTypes
    ensures Issue(EmailInvalid, None) in r <==> !isEmail(d.contactEmail)
    ensures Issue(PhoneInvalid, None) in r <==> !IsPhoneNumber(d.contactPhone)
    ensures forall x :: x in r ==> x.item.None? && x.rule in {PropertyTypeEnum, EmailInvalid, PhoneInvalid}
    ensures r == [] <==> d.propertyType in PropertyTypes && isEmail(d.contactEmail) && IsPhoneNumber(d.contactPhone)
  {
    PhonePatternIff(d.contactPhone);
    Check(d.propertyType in PropertyTypes, PropertyTypeEnum)
    + Check(isEmail(d.contactEmail), EmailInvalid)
    + Check(Pattern.Match(PhonePattern, d.contactPhone), PhoneInvalid)
  }

  /** Runs the whole schema: the issue list is empty exactly when every rule holds. */
  function Validate(d: Draft, isEmail: string -> bool): (r: seq<Issue>)
    ensures r == [] <==> DraftValid(d, isEmail)
  {
    TextIssues(d) + NumberIssues(d) + ChoiceIssues(d, isEmail) + ImageIssues(d.images)
  }

  /** Whether one whole-field rule holds of the draft; the per-file rules are stated position by position. */
  predicate RuleHolds(rule: Rule, d: Draft, isEmail: string -> bool)
    requires rule != FileTooLarge && rule != FileTypeRejected
  {
    match rule
    case NameRequired => |d.propertyName| >= 1
    case AddressRequired => |d.address| >= 1
    case BedroomsMin => d.bedrooms >= 1.0
    case BathroomsMin => d.bathrooms >= 0.5
    case PropertyTypeEnum => d.propertyType in PropertyTypes
    case DescriptionTooShort => |d.description| >= 10
    case PriceMin => d.price >= 0.0
    case EmailInvalid => isEmail(d.contactEmail)
    case PhoneInvalid => IsPhoneNumber(d.contactPhone)
    case TooManyImages => |d.images| <= MaxImages
  }

  /** Each whole-field rule yields its issue, with no position, exactly when it fails. */
  lemma ValidateReportsEachRule(d: Draft, isEmail: string -> bool, rule: Rule)
    requires rule != FileTooLarge && rule != FileTypeRejected
    ensures Issue(rule, None) in Validate(d, isEmail) <==> !RuleHolds(rule, d, isEmail)
  {
    var x := Issue(rule, None);
    InValidate(d, isEmail, x);
    var t, n, c, im := TextIssues(d), NumberIssues(d), ChoiceIssues(d, isEmail), ImageIssues(d.images);
    assert x in im ==> rule == TooManyImages;
    match rule
    case NameRequired | AddressRequired | DescriptionTooShort =>
      assert x !in n && x !in c && x !in im;
    case BedroomsMin | BathroomsMin | PriceMin =>
      assert x !in t && x !in c && x !in im;
    case PropertyTypeEnum | EmailInvalid | PhoneInvalid =>
      assert x !in t && x !in n && x !in im;
    case TooManyImages =>
      assert x !in t && x !in n && x !in c;
  }

  /** Each attached file that is too large or of a refused type gets an issue naming its position. */
  lemma ValidateReportsEachFile(d: Draft, isEmail: string -> bool, i: int)
    requires 0 <= i < |d.images|
    ensures Issue(FileTooLarge, Some(i)) in Validate(d, isEmail) <==> d.images[i].size > MaxFileSize
    ensures Issue(FileTypeRejected, Some(i)) in Validate(d, isEmail) <==> d.images[i].mimeType !in AcceptedImageTypes
  {
    InValidate(d, isEmail, Issue(FileTooLarge, Some(i)));
    InValidate(d, isEmail, Issue(FileTypeRejected, Some(i)));
    FileIssuesReport(d.images, i);
  }

  /** Where an issue of the full list comes from. */
  lemma InValidate(d: Draft, isEmail: string -> bool, x: Issue)
    ensures x in Validate(d, isEmail) <==>
      x in TextIssues(d) || x in NumberIssues(d) || x in ChoiceIssues(d, isEmail) || x in ImageIssues(d.images)
  {
  }

  /**
    The browser's own constraint checks on the inputs, which run before the
    submit event: the number inputs' steps (1 for bedrooms, which sets none,
    0.5 for bathrooms, 0.01 for price, all counted from 0) and the e-mail
    input's syntax, which `browserEmail` decides for a non-empty value. No
    input is `required`, so an empty e-mail passes.
   */
  predicate NativeValid(d: Draft, browserEmail: string -> bool) {
    && d.bedrooms.Floor as real == d.bedrooms
    && (d.bathrooms * 2.0).Floor as real == d.bathrooms * 2.0
    && (d.price * 100.0).Floor as real == d.price * 100.0
    && (d.contactEmail == "" || browserEmail(d.contactEmail))
  }

  /**
    What pressing "Register Property" leads to: the browser blocks the submit
    event, the handler receives the draft, or the issues are shown.
   */
  datatype SubmitResult = Blocked | Registered(data: Draft) | Rejected(issues: seq<Issue>)

  /**
    The submit handler runs, with the draft as it stands, exactly when the
    browser lets the submit event through and the whole draft passes the schema.
   */
  function Submit(f: Form, isEmail: string -> bool, browserEmail: string -> bool): (r: SubmitResult)
    ensures r.Blocked? <==> !NativeValid(f.draft, browserEmail)
    ensures r.Registered? <==> NativeValid(f.draft, browserEmail) && DraftValid(f.draft, isEmail)
    ensures r.Registered? ==> r.data == f.draft
    ensures r.Rejected? ==> |r.issues| > 0 && r.issues == Validate(f.draft, isEmail)
  {
    if !NativeValid(f.draft, browserEmail) then Blocked
    else
      var issues := Validate(f.draft, isEmail);
      if issues == [] then Registered(f.draft) else Rejected(issues)
  }

  // ---------------------------------------------------------------------------
  // Images and previews

  /** The upload handler as written: `images` becomes the new batch, the previews are appended. */
  function UploadImages(f: Form, batch: seq<File>, tokens: seq<Preview>): (r: Form)
    requires |tokens| == |batch|
    ensures r.draft.images == batch
    ensures |r.previews| == |f.previews| + |batch|
    ensures r.previews[..|f.previews|] == f.previews
    ensures r.previews[|f.previews|..] == tokens
    ensures r.draft.(images := f.draft.images) == f.draft
  {
    Form(f.draft.(images := batch), f.previews + tokens)
  }

  /** The remove button of preview `i`: position `i` goes from both lists, each independently. */
  function RemoveImage(f: Form, i: int): (r: Form)
    ensures 0 <= i < |f.draft.images| ==>
      r.draft.images == f.draft.images[..i] + f.draft.images[i + 1..]
    ensures !(0 <= i < |f.draft.images|) ==> r.draft.images == f.draft.images
    ensures 0 <= i < |f.previews| ==> r.previews == f.previews[..i] + f.previews[i + 1..]
    ensures !(0 <= i < |f.previews|) ==> r.previews == f.previews
    ensures r.draft.(images := f.draft.images) == f.draft
  {
    Form(f.draft.(images := RemoveAt(f.draft.images, i)), RemoveAt(f.previews, i))
  }

  /** Removing position 1 of a three-element list keeps the outer two, in order. */
  lemma RemoveMiddleOfThree<T>(s: seq<T>)
    requires |s| == 3
    ensures RemoveAt(s, 1) == [s[0], s[2]]
  {
  }

  /** The image and preview lists have the same length. */
  predicate Aligned(f: Form) {
    |f.draft.images| == |f.previews|
  }

  /**
    The upload as written breaks the pairing as soon as an image is already
    attached: afterwards there are more previews than images.
   */
  lemma UploadDesyncsLists(f: Form, batch: seq<File>, tokens: seq<Preview>)
    requires Aligned(f) && |f.previews| > 0
    requires |tokens| == |batch|
    ensures !Aligned(UploadImages(f, batch, tokens))
    ensures |UploadImages(f, batch, tokens).previews| > |UploadImages(f, batch, tokens).draft.images|
  {
  }

  /**
    One image and its preview, then a second upload of one file: a concrete
    form where the remove button of the new preview (position 1) removes no
    image, and the one of the old preview (position 0) removes the new file.
   */
  lemma UploadThenRemoveMismatch()
    ensures var f := Form(Draft("", "", 0.0, 0.0, "", [], "", 0.0, "", "", [File(1, "image/png")]), [Preview(0)]);
            var g := UploadImages(f, [File(2, "image/png")], [Preview(1)]);
            && g.previews == [Preview(0), Preview(1)]
            && g.draft.images == [File(2, "image/png")]
            && RemoveImage(g, 1).draft.images == [File(2, "image/png")]
            && RemoveImage(g, 0).draft.images == []
            && RemoveImage(g, 0).previews == [Preview(1)]
  {
    var g := Form(Draft("", "", 0.0, 0.0, "", [], "", 0.0, "", "", [File(2, "image/png")]), [Preview(0), Preview(1)]);
    assert RemoveImage(g, 0).previews == [Preview(0), Preview(1)][1..];
  }

  /** The accumulating upload the preview list implies: the batch is appended to both lists. */
  function UploadImagesAccumulating(f: Form, batch: seq<File>, tokens: seq<Preview>): (r: Form)
    requires |tokens| == |batch|
    ensures |r.draft.images| == |f.draft.images| + |batch|
    ensures |r.previews| == |f.previews| + |tokens|
    ensures r.draft.images[..|f.draft.images|] == f.draft.images
    ensures r.draft.images[|f.draft.images|..] == batch
    ensures r.previews[..|f.previews|] == f.previews
    ensures r.previews[|f.previews|..] == tokens
    ensures r.draft.(images := f.draft.images) == f.draft
  {
    Form(f.draft.(images := f.draft.images + batch), f.previews + tokens)
  }

  /** With the accumulating upload, each new file sits at the same position as its preview. */
  lemma UploadAccumulatingKeepsPairs(f: Form, batch: seq<File>, tokens: seq<Preview>)
    requires Aligned(f) && |tokens| == |batch|
    ensures Aligned(UploadImagesAccumulating(f, batch, tokens))
    ensures var g := UploadImagesAccumulating(f, batch, tokens);
            Zip(g.draft.images, g.previews) == Zip(f.draft.images, f.previews) + Zip(batch, tokens)
  {
    ZipAppend(f.draft.images, f.previews, batch, tokens);
  }

  /** On an aligned form, removal drops exactly one image together with its own preview. */
  lemma RemoveImageKeepsPairs(f: Form, i: int)
    requires Aligned(f)
    ensures Aligned(RemoveImage(f, i))
    ensures var g := RemoveImage(f, i);
            Zip(g.draft.images, g.previews) == RemoveAt(Zip(f.draft.images, f.previews), i)
  {
    ZipRemoveAt(f.draft.images, f.previews, i);
  }

  /**
    Six accepted files attached to a form with no previews: all six previews
    show, the upload's validation reports the five-image message, and the
    draft is never registered; when the browser lets the submit through, it
    is rejected with that message.
   */
  lemma SixImagesRejected(f: Form, batch: seq<File>, tokens: seq<Preview>, isEmail: string -> bool, browserEmail: string -> bool)
    requires f.previews == [] && |batch| == 6 && |tokens| == 6
    requires forall i :: 0 <= i < 6 ==> FileAccepted(batch[i])
    ensures |UploadImages(f, batch, tokens).previews| == 6
    ensures Issue(TooManyImages, None) in Validate(UploadImages(f, batch, tokens).draft, isEmail)
    ensures !Submit(UploadImages(f, batch, tokens), isEmail, browserEmail).Registered?
    ensures NativeValid(f.draft, browserEmail) ==>
      && Submit(UploadImages(f, batch, tokens), isEmail, browserEmail).Rejected?
      && Issue(TooManyImages, None) in Submit(UploadImages(f, batch, tokens), isEmail, browserEmail).issues
  {
    var u := UploadImages(f, batch, tokens);
    TooManyImagesReported(u.draft, isEmail);
    NativeIgnoresImages(f.draft, batch, browserEmail);
  }

  /** The browser's checks do not look at the images. */
  lemma NativeIgnoresImages(d: Draft, images: seq<File>, browserEmail: string -> bool)
    ensures NativeValid(d.(images := images), browserEmail) <==> NativeValid(d, browserEmail)
  {
  }

  /** More than five images always yield the five-image issue, so such a draft is never valid. */
  lemma TooManyImagesReported(d: Draft, isEmail: string -> bool)
    requires |d.images| > MaxImages
    ensures Issue(TooManyImages, None) in Validate(d, isEmail)
    ensures !DraftValid(d, isEmail)
  {
    assert Issue(TooManyImages, None) in ImageIssues(d.images);
    assert Validate(d, isEmail) == (TextIssues(d) + NumberIssues(d) + ChoiceIssues(d, isEmail)) + ImageIssues(d.images);
  }

  // ---------------------------------------------------------------------------
  // Amenities

  /** A checkbox change: checking appends the amenity, unchecking removes all its occurrences. */
  function SetAmenity(amenities: seq<string>, a: string, checked: bool): (r: seq<string>)
    ensures checked ==> r == amenities + [a]
    ensures !checked ==> a !in r && Subseq(r, amenities)
    ensures forall b :: b != a ==> multiset(r)[b] == multiset(amenities)[b]
    ensures forall b :: b != a ==> (b in r <==> b in amenities)
  {
    if checked then amenities + [a] else Filter(amenities, (v: string) => v != a)
  }

  /** Every entry of the list is one of the checklist's amenities. */
  predicate FromChecklist(amenities: seq<string>) {
    forall k :: 0 <= k < |amenities| ==> amenities[k] in AmenityChoices
  }

  /**
    The checkboxes are the only way amenities change, and each of them carries
    a checklist item, so the field only ever holds checklist items.
   */
  lemma SetAmenityKeepsChecklist(amenities: seq<string>, a: string, checked: bool)
    requires FromChecklist(amenities) && a in AmenityChoices
    ensures FromChecklist(SetAmenity(amenities, a, checked))
  {
    var r := SetAmenity(amenities, a, checked);
    forall k | 0 <= k < |r| ensures r[k] in AmenityChoices {
      assert r[k] in r;
      if !checked {
        assert r[k] in amenities;
      }
    }
  }

  /** Checking then unchecking an amenity that was not selected restores the list exactly. */
  lemma CheckThenUncheckRestores(amenities: seq<string>, a: string)
    requires a !in amenities
    ensures SetAmenity(SetAmenity(amenities, a, true), a, false) == amenities
  {
    var keep := (v: string) => v != a;
    FilterAppend(amenities, [a], keep);
    FilterKeepsAll(amenities, keep);
    assert Filter([a], keep) == [];
  }

  /** Unchecking twice is unchecking once. */
  lemma UncheckIdempotent(amenities: seq<string>, a: string)
    ensures SetAmenity(SetAmenity(amenities, a, false), a, false) == SetAmenity(amenities, a, false)
  {
    FilterIdempotent(amenities, (v: string) => v != a);
  }

  // ---------------------------------------------------------------------------
  // Single-rule scenarios

  /** A valid draft with zero bathrooms fails only the bathrooms rule. */
  lemma ZeroBathroomsOnlyError(d: Draft, isEmail: string -> bool)
    requires DraftValid(d, isEmail)
    ensures Validate(d.(bathrooms := 0.0), isEmail) == [Issue(BathroomsMin, None)]
  {
    var e := d.(bathrooms := 0.0);
    assert ImageIssues(e.images) == [];
    PhonePatternIff(e.contactPhone);
  }

  /**
    An empty property name never reaches the handler: the schema reports the
    name rule's issue, and when the browser lets the submit through that
    issue is shown, whatever the other fields hold.
   */
  lemma EmptyNameRejected(f: Form, isEmail: string -> bool, browserEmail: string -> bool)
    requires f.draft.propertyName == ""
    ensures Issue(NameRequired, None) in Validate(f.draft, isEmail)
    ensures !Submit(f, isEmail, browserEmail).Registered?
    ensures NativeValid(f.draft, browserEmail) ==>
      Submit(f, isEmail, browserEmail).Rejected? && Issue(NameRequired, None) in Submit(f, isEmail, browserEmail).issues
    ensures Message(NameRequired) == Some("Property name is required")
  {
  }

  /** A schema-valid draft with 1.5 bedrooms is stopped by the browser and never reaches the handler. */
  lemma FractionalBedroomsBlocked(f: Form, isEmail: string -> bool, browserEmail: string -> bool)
    requires f.draft.bedrooms == 1.5
    ensures Submit(f, isEmail, browserEmail).Blocked?
  {
    assert (1.5).Floor == 1;
  }
}
