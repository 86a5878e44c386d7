/**
 * The registration form: its initial state, the name-input filter, the upload gate,
 * the client-side validation and the reset, with the form state as a class.
 */
module Modal {
  import opened Wrappers
  import opened Sequences
  import opened Text
  import opened Types
  import opened Validation
  import Register
  import ModalContext

  // ---------------------------------------------------------------- the name filter

  /** The characters `/[a-zA-Z\s]/` accepts. */
  predicate IsNameChar(c: char)
  {
    IsLetter(c) || IsSpace(c)
  }

  /** `value.replace(/[^a-zA-Z\s]/g, '')`: keeps the letters and whitespace, in order. */
  function FilterName(value: string): (r: string)
    ensures forall i :: 0 <= i < |r| ==> IsNameChar(r[i])
    ensures IsSubsequence(r, value)
  {
    FilterIsSubsequence(value, IsNameChar);
    Filter(value, IsNameChar)
  }

  /** Filtering a filtered name changes nothing. */
  lemma {:induction false} FilterNameIdempotent(value: string)
    ensures FilterName(FilterName(value)) == FilterName(value)
  {
    FilterIdempotent(value, IsNameChar);
  }

  /** The filter keeps every letter and whitespace character as often as it occurs, and nothing else. */
  lemma {:induction false} FilterNameMultiset(value: string)
    ensures forall c :: multiset(FilterName(value))[c] == if IsNameChar(c) then multiset(value)[c] else 0
  {
    FilterMultiset(value, IsNameChar);
  }

  /** A name of letters and whitespace passes through unchanged, and every other character is dropped. */
  lemma {:induction false} FilterNameKeepsLetters(value: string)
    ensures (forall i :: 0 <= i < |value| ==> IsNameChar(value[i])) ==> FilterName(value) == value
    ensures forall i :: 0 <= i < |value| && IsNameChar(value[i]) ==> value[i] in FilterName(value)
    ensures forall i :: 0 <= i < |value| && !IsNameChar(value[i]) ==> value[i] !in FilterName(value)
  {
    FilterMembers(value, IsNameChar);
    if forall i :: 0 <= i < |value| ==> IsNameChar(value[i]) {
      FilterKeepsAll(value, IsNameChar);
    }
  }

  // ---------------------------------------------------------------- validation

  const MSG_NAME_REQUIRED := "Name is required"
  const MSG_NAME_CHARS := "Name can only contain letters and spaces"
  const MSG_AGE := "Please enter a valid age (1-120)"
  const MSG_WHATSAPP_REQUIRED := "WhatsApp number is required"
  const MSG_WHATSAPP := "Please enter a valid 10-digit mobile number"
  const MSG_EMAIL := "Please enter a valid email address (e.g., user@gmail.com)"
  const MSG_CHILDREN := "Please enter the number of children (1-20)"

  /** Trimming keeps every character that is not whitespace, so it keeps every offending one. */
  lemma {:induction false} TrimmedNameText(name: string)
    ensures IsNameText(Trim(name)) <==> !AllSpace(name) && forall i :: 0 <= i < |name| ==> IsNameChar(name[i])
  {
    var t := Trim(name);
    var a := TrimWindow(name);
    if t != "" && !IsNameText(t) {
      var j :| 0 <= j < |t| && !IsNameChar(t[j]);
      assert name[a + j] == t[j];
    }
    if IsNameText(t) {
      forall i | 0 <= i < |name| ensures IsNameChar(name[i]) {
        if a <= i < a + |t| {
          assert name[i] == t[i - a];
        }
      }
    }
  }

  /** The name rule: required once trimmed, then letters and whitespace only. */
  function NameError(name: string): (e: Option<string>)
    ensures e.Some? <==> AllSpace(name) || exists i :: 0 <= i < |name| && !IsNameChar(name[i])
    ensures AllSpace(name) ==> e == Some(MSG_NAME_REQUIRED)
    ensures !AllSpace(name) && e.Some? ==> e == Some(MSG_NAME_CHARS)
  {
    TrimmedNameText(name);
    var t := Trim(name);
    if t == "" then Some(MSG_NAME_REQUIRED)
    else if !IsNameText(t) then Some(MSG_NAME_CHARS)
    else None
  }

  /** The age rule: `!age || age < 1 || age > 120`, where an absent or unparsable age counts as missing. */
  function AgeError(age: Option<int>): (e: Option<string>)
    ensures e.None? <==> age.Some? && 1 <= age.value <= 120
    ensures e.Some? ==> e == Some(MSG_AGE)
  {
    if age.None? || age.value == 0 || age.value < 1 || age.value > 120 then Some(MSG_AGE) else None
  }

  /** The WhatsApp rule: required once trimmed, then ten digits starting 6 to 9 once the non-digits are dropped. */
  function WhatsappError(whatsapp: string): (e: Option<string>)
    ensures e.None? <==> !AllSpace(whatsapp) && IsMobile(DigitsOnly(whatsapp))
    ensures AllSpace(whatsapp) ==> e == Some(MSG_WHATSAPP_REQUIRED)
    ensures !AllSpace(whatsapp) && e.Some? ==> e == Some(MSG_WHATSAPP)
  {
    if Trim(whatsapp) == "" then Some(MSG_WHATSAPP_REQUIRED)
    else if !IsMobile(DigitsOnly(whatsapp)) then Some(MSG_WHATSAPP)
    else None
  }

  /** The e-mail rule: a present, non-blank address must have the shape of an address. */
  function EmailError(email: Option<string>): (e: Option<string>)
    ensures e.Some? <==> email.Some? && !AllSpace(email.value) && !EmailMatches(email.value)
    ensures e.Some? ==> e == Some(MSG_EMAIL)
  {
    if email.Some? && email.value != "" && Trim(email.value) != "" && !IsEmail(email.value) then
      Some(MSG_EMAIL)
    else
      None
  }

  /** The children rule, for the SuperMom contest only: 1 to 20. */
  function ChildrenError(contest: Contest, children: Option<int>): (e: Option<string>)
    ensures e.Some? <==> contest == SUPERMOM && !(children.Some? && 1 <= children.value <= 20)
    ensures e.Some? ==> e == Some(MSG_CHILDREN)
  {
    if contest == SUPERMOM then
      if children.None? || children.value == 0 || children.value < 1 || children.value > 20 then
        Some(MSG_CHILDREN)
      else
        None
    else
      None
  }

  /** The inputs of the form and the keys of its error map. */
  datatype Field = NameField | AgeField | WhatsappField | EmailField | ChildrenField | MessageField
                 | PhotoField | VideoField

  /** The input name or error key each field goes by. */
  function FieldKey(f: Field): string
  {
    match f
    case NameField => "name"
    case AgeField => "age"
    case WhatsappField => "whatsapp"
    case EmailField => "email"
    case ChildrenField => "numberOfChildren"
    case MessageField => "message"
    case PhotoField => "photo"
    case VideoField => "video"
  }

  /** Adds `key` to the errors when the rule produced a message. */
  function Put(errors: map<Field, string>, key: Field, e: Option<string>): map<Field, string>
  {
    if e.Some? then errors[key := e.value] else errors
  }

  /** The error map built from the outcomes of the five rules, in the order `validateForm` applies them. */
  function Assemble(name: Option<string>, age: Option<string>, whatsapp: Option<string>,
                    email: Option<string>, children: Option<string>): map<Field, string>
  {
    Put(Put(Put(Put(Put(map[], NameField, name), AgeField, age), WhatsappField, whatsapp), EmailField, email),
        ChildrenField, children)
  }

  /** Each rule has an entry exactly when it produced a message, holding that message; no other key appears. */
  lemma {:induction false} AssembleEntries(name: Option<string>, age: Option<string>, whatsapp: Option<string>,
                        email: Option<string>, children: Option<string>)
    ensures var m := Assemble(name, age, whatsapp, email, children);
      (NameField in m <==> name.Some?) && (name.Some? ==> m[NameField] == name.value)
      && (AgeField in m <==> age.Some?) && (age.Some? ==> m[AgeField] == age.value)
      && (WhatsappField in m <==> whatsapp.Some?) && (whatsapp.Some? ==> m[WhatsappField] == whatsapp.value)
      && (EmailField in m <==> email.Some?) && (email.Some? ==> m[EmailField] == email.value)
      && (ChildrenField in m <==> children.Some?) && (children.Some? ==> m[ChildrenField] == children.value)
      && (forall k :: k in m ==> k in {NameField, AgeField, WhatsappField, EmailField, ChildrenField})
      && (|m| == 0 <==> name.None? && age.None? && whatsapp.None? && email.None? && children.None?)
  {
    var m := Assemble(name, age, whatsapp, email, children);
    if |m| == 0 {
      assert m == map[];
    }
  }

  /** The error map `validateForm` builds. */
  function FormErrors(d: RegistrationData): (m: map<Field, string>)
    ensures forall k :: k in m ==> k in {NameField, AgeField, WhatsappField, EmailField, ChildrenField}
    ensures ChildrenField in m ==> d.contest == SUPERMOM
  {
    AssembleEntries(NameError(d.name), AgeError(d.age), WhatsappError(d.whatsapp), EmailError(d.email),
                    ChildrenError(d.contest, d.numberOfChildren));
    Assemble(NameError(d.name), AgeError(d.age), WhatsappError(d.whatsapp), EmailError(d.email),
             ChildrenError(d.contest, d.numberOfChildren))
  }

  /** The form is valid exactly when every rule passes. */
  lemma {:induction false} FormValidIff(d: RegistrationData)
    ensures |FormErrors(d)| == 0 <==>
      && !AllSpace(d.name) && (forall i :: 0 <= i < |d.name| ==> IsNameChar(d.name[i]))
      && d.age.Some? && 1 <= d.age.value <= 120
      && !AllSpace(d.whatsapp) && IsMobile(DigitsOnly(d.whatsapp))
      && (d.email.None? || AllSpace(d.email.value) || EmailMatches(d.email.value))
      && (d.contest == SUPERMOM ==> d.numberOfChildren.Some? && 1 <= d.numberOfChildren.value <= 20)
  {
    AssembleEntries(NameError(d.name), AgeError(d.age), WhatsappError(d.whatsapp), EmailError(d.email),
                    ChildrenError(d.contest, d.numberOfChildren));
  }

  /** Whatever the form lets through, the register endpoint accepts, storing the same digits. */
  lemma {:induction false} FormStricterThanServer(d: RegistrationData)
    requires |FormErrors(d)| == 0
    ensures Register.CheckBody(d) == Register.Accepted(DigitsOnly(d.whatsapp))
  {
    FormValidIff(d);
    assert d.name != "";
    assert d.whatsapp != "";
  }

  /** The server takes names the form refuses: any non-empty name passes its checks. */
  lemma {:induction false} ServerAcceptsWhatFormRefuses(d: RegistrationData)
    requires d.name == "R2" && !AllSpace(d.whatsapp) && IsMobile(DigitsOnly(d.whatsapp)) && d.email.None?
    ensures NameError(d.name) == Some(MSG_NAME_CHARS)
    ensures Register.CheckBody(d).Accepted?
  {
    assert !IsNameChar(d.name[1]);
    assert !IsSpace(d.name[0]);
  }

  // ---------------------------------------------------------------- uploads

  datatype MediaKind = Photo | Video

  /** The error key and the size limit of each kind: 5 MiB for photos, 10 MiB for videos. */
  function ErrorKey(kind: MediaKind): Field
  {
    if kind == Photo then PhotoField else VideoField
  }

  function MaxSize(kind: MediaKind): nat
  {
    if kind == Photo then 5 * 1024 * 1024 else 10 * 1024 * 1024
  }

  function AllowedTypes(kind: MediaKind): seq<string>
  {
    if kind == Photo then ["image/jpeg", "image/png", "image/webp"]
    else ["video/mp4", "video/webm", "video/quicktime"]
  }

  const MSG_PHOTO_SIZE := "File size must be less than 5MB"
  const MSG_VIDEO_SIZE := "File size must be less than 10MB"
  const MSG_PHOTO_TYPE := "Invalid file type. Please upload JPEG, PNG, or WebP"
  const MSG_VIDEO_TYPE := "Invalid file type. Please upload MP4, WebM, or MOV"

  /** A chosen file: its size in bytes and its MIME type. */
  datatype FileInfo = FileInfo(size: nat, mimeType: string)

  /** The size check first, then the type check; `None` when the file may be used. */
  function UploadError(file: FileInfo, kind: MediaKind): (e: Option<string>)
    ensures e.None? <==> file.size <= MaxSize(kind) && file.mimeType in AllowedTypes(kind)
    ensures file.size > MaxSize(kind) ==> e == Some(if kind == Photo then MSG_PHOTO_SIZE else MSG_VIDEO_SIZE)
    ensures file.size <= MaxSize(kind) && e.Some? ==> e == Some(if kind == Photo then MSG_PHOTO_TYPE else MSG_VIDEO_TYPE)
  {
    if file.size > MaxSize(kind) then
      Some(if kind == Photo then MSG_PHOTO_SIZE else MSG_VIDEO_SIZE)
    else if file.mimeType !in AllowedTypes(kind) then
      Some(if kind == Photo then MSG_PHOTO_TYPE else MSG_VIDEO_TYPE)
    else
      None
  }

  /** No video type is accepted as a photo and no image type as a video, whatever the size. */
  lemma {:induction false} KindsDoNotMix(size: nat, t: string)
    ensures t in AllowedTypes(Video) ==> UploadError(FileInfo(size, t), Photo).Some?
    ensures t in AllowedTypes(Photo) ==> UploadError(FileInfo(size, t), Video).Some?
    ensures size <= MaxSize(Photo) ==> UploadError(FileInfo(size, "image/png"), Photo).None?
  {
    if t in AllowedTypes(Video) {
      assert t[..6] == "video/";
      assert "image/jpeg"[..6] == "image/png"[..6] == "image/webp"[..6] == "image/";
    }
    if t in AllowedTypes(Photo) {
      assert t[..6] == "image/";
      assert "video/mp4"[..6] == "video/webm"[..6] == "video/quicktime"[..6] == "video/";
    }
  }

  // ---------------------------------------------------------------- the form

  /** The state of the form: every value fresh, under the given contest. */
  function InitialForm(contest: Contest): (d: RegistrationData)
    ensures d.contest == contest
    ensures Register.CheckBody(d) == Register.Rejected(Register.MSG_REQUIRED)
  {
    RegistrationData("", None, "", Some(""), contest, Some(""), None, Some(""), Some(""))
  }

  /**
   * A fresh form keeps the given contest, and is refused with exactly the name, age
   * and WhatsApp "required" errors, plus the children error for SuperMom.
   */
  lemma {:induction false} InitialFormErrors(contest: Contest)
    ensures InitialForm(contest).contest == contest
    ensures var m := FormErrors(InitialForm(contest));
      && m[NameField] == MSG_NAME_REQUIRED && m[AgeField] == MSG_AGE
      && m[WhatsappField] == MSG_WHATSAPP_REQUIRED && EmailField !in m
      && (ChildrenField in m <==> contest == SUPERMOM)
  {
    var d := InitialForm(contest);
    AssembleEntries(NameError(d.name), AgeError(d.age), WhatsappError(d.whatsapp), EmailError(d.email),
                    ChildrenError(d.contest, d.numberOfChildren));
  }

  datatype SubmitStatus = Idle | Success | Failure

  /**
   * The contest buttons: every contest of the table except NONE, in table order
   * (the table lists its entries in the order of `AllContests`).
   */
  function ContestButtons(): (ids: seq<Contest>)
    ensures forall c :: c in ids <==> c != NONE
    ensures IsSubsequence(ids, AllContests)
  {
    var p := (c: Contest) => c != NONE;
    ContestEnumeration();
    FilterMembers(AllContests, p);
    FilterIsSubsequence(AllContests, p);
    Filter(AllContests, p)
  }

  /** The body of `validateForm`: applies the rules in order, adding an entry for each that fails. */
  method BuildErrors(d: RegistrationData) returns (newErrors: map<Field, string>)
    ensures newErrors == FormErrors(d)
  {
    newErrors := map[];
    newErrors := Put(newErrors, NameField, NameError(d.name));
    newErrors := Put(newErrors, AgeField, AgeError(d.age));
    newErrors := Put(newErrors, WhatsappField, WhatsappError(d.whatsapp));
    newErrors := Put(newErrors, EmailField, EmailError(d.email));
    if d.contest == SUPERMOM {
      newErrors := Put(newErrors, ChildrenField, ChildrenError(d.contest, d.numberOfChildren));
    } else {
      assert ChildrenError(d.contest, d.numberOfChildren).None?;
    }
  }

  class RegistrationForm {
    var formData: RegistrationData
    var errors: map<Field, string>
    var submitStatus: SubmitStatus

    /**
     * The form as it mounts: fresh values under the provider's selected contest at that
     * moment (NONE when none). The state is built once; later openings do not reach it.
     */
    constructor(selected: Option<Contest>)
      ensures formData == InitialForm(selected.GetOr(NONE))
      ensures errors == map[] && submitStatus == Idle
    {
      formData := InitialForm(selected.GetOr(NONE));
      errors := map[];
      submitStatus := Idle;
    }

    /**
     * `handleInputChange` for one of the inputs: the name is filtered, age and children
     * are parsed (an empty input clears them), the other inputs are kept as typed. A
     * non-empty error under that field is cleared to the empty string.
     */
    method HandleInputChange(field: Field, value: string)
      modifies this
      requires !field.PhotoField? && !field.VideoField?
      ensures field == NameField ==> formData == old(formData).(name := FilterName(value))
      ensures field == AgeField ==> formData == old(formData).(age := if value == "" then None else ParseInt(value))
      ensures field == ChildrenField ==>
        formData == old(formData).(numberOfChildren := if value == "" then None else ParseInt(value))
      ensures field == WhatsappField ==> formData == old(formData).(whatsapp := value)
      ensures field == EmailField ==> formData == old(formData).(email := Some(value))
      ensures field == MessageField ==> formData == old(formData).(message := Some(value))
      ensures errors == if field in old(errors) && old(errors)[field] != "" then old(errors)[field := ""] else old(errors)
      ensures submitStatus == old(submitStatus)
    {
      if field == NameField {
        formData := formData.(name := FilterName(value));
      } else if field == AgeField {
        formData := formData.(age := if value == "" then None else ParseInt(value));
      } else if field == ChildrenField {
        formData := formData.(numberOfChildren := if value == "" then None else ParseInt(value));
      } else if field == WhatsappField {
        formData := formData.(whatsapp := value);
      } else if field == EmailField {
        formData := formData.(email := Some(value));
      } else {
        formData := formData.(message := Some(value));
      }
      if field in errors && errors[field] != "" {
        errors := errors[field := ""];
      }
    }

    /** A contest button. */
    method HandleContestChange(contest: Contest)
      modifies this
      ensures formData == old(formData).(contest := contest)
      ensures errors == old(errors) && submitStatus == old(submitStatus)
    {
      formData := formData.(contest := contest);
    }

    /**
     * `handleFileUpload`: no file does nothing; a refused file records the error under
     * `photo` or `video` and leaves the URLs alone; an accepted one stores its object URL.
     */
    method HandleFileUpload(file: Option<FileInfo>, kind: MediaKind, objectUrl: string)
      modifies this
      ensures submitStatus == old(submitStatus)
      ensures file.None? ==> formData == old(formData) && errors == old(errors)
      ensures file.Some? && UploadError(file.value, kind).Some? ==>
        formData == old(formData) && errors == old(errors)[ErrorKey(kind) := UploadError(file.value, kind).value]
      ensures file.Some? && UploadError(file.value, kind).None? ==>
        errors == old(errors)
        && formData == if kind == Photo then old(formData).(photoUrl := Some(objectUrl))
                       else old(formData).(videoUrl := Some(objectUrl))
    {
      if file.None? {
        return;
      }
      var e := UploadError(file.value, kind);
      if e.Some? {
        errors := errors[ErrorKey(kind) := e.value];
        return;
      }
      if kind == Photo {
        formData := formData.(photoUrl := Some(objectUrl));
      } else {
        formData := formData.(videoUrl := Some(objectUrl));
      }
    }

    /** `validateForm`: builds the error map, installs it, and reports whether it is empty. */
    method ValidateForm() returns (ok: bool)
      modifies this
      ensures unchanged(`formData, `submitStatus)
      ensures errors == FormErrors(formData)
      ensures ok <==> |errors| == 0
    {
      var newErrors := BuildErrors(formData);
      errors := newErrors;
      ok := |newErrors| == 0;
    }

    /**
     * `handleSubmit` up to the request: an invalid form is not sent; a valid one is,
     * and the status follows the server's answer.
     */
    method Submit(responseOk: bool) returns (sent: bool)
      modifies this
      ensures unchanged(`formData) && errors == FormErrors(formData)
      ensures sent <==> |FormErrors(formData)| == 0
      ensures sent ==> Register.CheckBody(formData).Accepted?
      ensures !sent ==> submitStatus == old(submitStatus)
      ensures sent ==> submitStatus == if responseOk then Success else Failure
    {
      var ok := ValidateForm();
      if !ok {
        return false;
      }
      FormStricterThanServer(formData);
      submitStatus := if responseOk then Success else Failure;
      sent := true;
    }

    /** The delayed step after a successful submission: a fresh form for NONE, and the modal closes. */
    method FinishSuccess(ctx: ModalContext.RegistrationContext)
      modifies this, ctx
      ensures formData == InitialForm(NONE) && submitStatus == Idle && errors == old(errors)
      ensures !ctx.isModalOpen && ctx.selectedContest == None
    {
      formData := InitialForm(NONE);
      submitStatus := Idle;
      ctx.CloseModal();
    }

    /** `resetForm`: every field back to its default with contest NONE, no errors, status idle. */
    method ResetForm()
      modifies this
      ensures formData == InitialForm(NONE) && errors == map[] && submitStatus == Idle
    {
      formData := InitialForm(NONE);
      errors := map[];
      submitStatus := Idle;
    }
  }

  // ---------------------------------------------------------------- the preselected contest

  /**
   * The site as mounted: the provider and the form are created together, before any
   * contest button is pressed, and `openModal(contest)` later updates the provider only.
   * The form still shows NONE while the provider holds the contest that was chosen.
   */
  method PreselectAsWritten(contest: Contest) returns (shown: Contest, selected: Option<Contest>)
    ensures shown == NONE && selected == Some(contest)
  {
    var ctx := new ModalContext.RegistrationContext();
    var form := new RegistrationForm(ctx.selectedContest);
    ctx.OpenModal(Some(contest));
    shown := form.formData.contest;
    selected := ctx.selectedContest;
  }

  /** Opening the modal for a contest also selects it in the form; nothing else in the form changes. */
  method OpenForContest(ctx: ModalContext.RegistrationContext, form: RegistrationForm, contest: Option<Contest>)
    modifies ctx, form
    ensures ctx.isModalOpen && ctx.selectedContest == contest
    ensures form.formData == old(form.formData).(contest := contest.GetOr(NONE))
    ensures form.errors == old(form.errors) && form.submitStatus == old(form.submitStatus)
  {
    ctx.OpenModal(contest);
    form.HandleContestChange(contest.GetOr(NONE));
  }

  /** With the corrected opening, the form shows the contest the button asked for. */
  method PreselectCorrected(contest: Contest) returns (shown: Contest, selected: Option<Contest>)
    ensures shown == contest && selected == Some(contest)
  {
    var ctx := new ModalContext.RegistrationContext();
    var form := new RegistrationForm(ctx.selectedContest);
    OpenForContest(ctx, form, Some(contest));
    shown := form.formData.contest;
    selected := ctx.selectedContest;
  }
}
