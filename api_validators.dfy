/**
 * Field rules of the server (utils/validators.py). Python's None is None;
 * display name, bio and alignment arrive as strings or None, and the privacy
 * flag as any decoded JSON value.
 */
module ApiValidators {
  import opened Wrappers
  import opened Text
  import opened Verdicts
  import opened Lambda
  import WebValidators

  const DisplayNameMinLength: nat := 2
  const DisplayNameMaxLength: nat := 20
  const BioMaxLength: nat := 500
  const ValidPoliticalAlignments: seq<string> := ["National", "Labour", "Independent", ""]
  const PostContentMaxLength: nat := 280
  const CommentContentMaxLength: nat := 200


  /** `not s or not s.strip()`. */
  predicate Missing(v: Option<string>) {
    v == None || Trim(Python, v.value) == []
  }

  function ValidateDisplayName(displayName: Option<string>): (r: Verdict)
  {
    if Falsy(displayName) || Trim(Python, displayName.value) == [] then
      Invalid("display_name is required")
    else
      var name := Trim(Python, displayName.value);
      if |name| < DisplayNameMinLength then Invalid("display_name must be at least 2 characters")
      else if |name| > DisplayNameMaxLength then Invalid("display_name must not exceed 20 characters")
      else Valid
  }

  /**
   * A missing or blank name is reported as required, a stripped name under 2
   * or over 20 characters as too short or too long; a name passes when its
   * stripped length is 2 to 20.
   */
  lemma DisplayNameRule(displayName: Option<string>)
    ensures Missing(displayName) ==> ValidateDisplayName(displayName) == Invalid("display_name is required")
    ensures !Missing(displayName) && |Trim(Python, displayName.value)| < DisplayNameMinLength ==>
      ValidateDisplayName(displayName) == Invalid("display_name must be at least 2 characters")
    ensures !Missing(displayName) && |Trim(Python, displayName.value)| > DisplayNameMaxLength ==>
      ValidateDisplayName(displayName) == Invalid("display_name must not exceed 20 characters")
    ensures ValidateDisplayName(displayName).Valid? <==>
      displayName.Some? && DisplayNameMinLength <= |Trim(Python, displayName.value)| <= DisplayNameMaxLength
  {
    if displayName.Some? {
      TrimShape(Python, displayName.value);
    }
  }

  function ValidateBio(bio: Option<string>): (r: Verdict)
    ensures r.Valid? <==> bio == None || |bio.value| <= BioMaxLength
    ensures r.Invalid? ==> r.message == "bio must not exceed 500 characters"
  {
    if bio == None then Valid
    else if |bio.value| > BioMaxLength then Invalid("bio must not exceed 500 characters")
    else Valid
  }

  /** `', '.join(a for a in VALID_POLITICAL_ALIGNMENTS if a)` in the alignment error. */
  const AlignmentError: string :=
    "political_alignment must be " + WebValidators.Join(WebValidators.NonEmpty(ValidPoliticalAlignments), ", ")

  lemma AlignmentErrorText()
    ensures AlignmentError == "political_alignment must be " + "National, Labour, Independent"
  {
    WebValidators.NonEmptyOptions();
    WebValidators.JoinOptions();
  }

  /** '' is accepted because it is one of the listed values. */
  function ValidatePoliticalAlignment(alignment: Option<string>): (r: Verdict)
    ensures r.Valid? <==> alignment == None || alignment.value in ["", "National", "Labour", "Independent"]
    ensures r.Invalid? ==> r.message == AlignmentError
  {
    if alignment == None then Valid
    else if alignment.value !in ValidPoliticalAlignments then
      Invalid(AlignmentError)
    else Valid
  }

  function ValidatePostContent(content: Option<string>): (r: Verdict)
  {
    if Falsy(content) || Trim(Python, content.value) == [] then Invalid("Content is required")
    else if |content.value| > PostContentMaxLength then Invalid("Content must not exceed 280 characters")
    else Valid
  }

  /**
   * Missing content is reported as required, present content over 280
   * characters as too long; content passes when it is not blank and at most
   * 280 characters long, unstripped.
   */
  lemma PostContentRule(content: Option<string>)
    ensures Missing(content) ==> ValidatePostContent(content) == Invalid("Content is required")
    ensures !Missing(content) && |content.value| > PostContentMaxLength ==>
      ValidatePostContent(content) == Invalid("Content must not exceed 280 characters")
    ensures ValidatePostContent(content).Valid? <==> content.Some? && !IsBlank(Python, content.value) && |content.value| <= PostContentMaxLength
  {
    if content.Some? {
      TrimShape(Python, content.value);
    }
  }

  function ValidateCommentContent(content: Option<string>): (r: Verdict)
  {
    if Falsy(content) || Trim(Python, content.value) == [] then Invalid("Comment content is required")
    else if |content.value| > CommentContentMaxLength then Invalid("Comment must not exceed 200 characters")
    else Valid
  }

  /**
   * Missing content is reported as required, a present comment over 200
   * characters as too long; a comment passes when it is not blank and at most
   * 200 characters long, unstripped.
   */
  lemma CommentContentRule(content: Option<string>)
    ensures Missing(content) ==> ValidateCommentContent(content) == Invalid("Comment content is required")
    ensures !Missing(content) && |content.value| > CommentContentMaxLength ==>
      ValidateCommentContent(content) == Invalid("Comment must not exceed 200 characters")
    ensures ValidateCommentContent(content).Valid? <==> content.Some? && !IsBlank(Python, content.value) && |content.value| <= CommentContentMaxLength
  {
    if content.Some? {
      TrimShape(Python, content.value);
    }
  }

  /** None or a JSON boolean. */
  function ValidateProfilePrivate(profilePrivate: Value): (r: Verdict)
    ensures r.Valid? <==> profilePrivate.Null? || profilePrivate.Bool?
    ensures r.Invalid? ==> r.message == "profile_private must be a boolean value"
  {
    if profilePrivate.Null? then Valid
    else if !profilePrivate.Bool? then Invalid("profile_private must be a boolean value")
    else Valid
  }

  /**
   * Name (skipped on an update that carries no name), bio, alignment, then the
   * privacy flag; the first failure is reported.
   */
  function ValidateProfileData(
    displayName: Option<string>, bio: Option<string>, politicalAlignment: Option<string>,
    profilePrivate: Value, forUpdate: bool): (r: Verdict)
    ensures r.Valid? <==>
      && ((forUpdate && Falsy(displayName)) || ValidateDisplayName(displayName).Valid?)
      && ValidateBio(bio).Valid? && ValidatePoliticalAlignment(politicalAlignment).Valid?
      && ValidateProfilePrivate(profilePrivate).Valid?
  {
    if !(forUpdate && Falsy(displayName)) && ValidateDisplayName(displayName).Invalid? then
      ValidateDisplayName(displayName)
    else if ValidateBio(bio).Invalid? then ValidateBio(bio)
    else if ValidatePoliticalAlignment(politicalAlignment).Invalid? then ValidatePoliticalAlignment(politicalAlignment)
    else if ValidateProfilePrivate(profilePrivate).Invalid? then ValidateProfilePrivate(profilePrivate)
    else Valid
  }

  /** The reported failure is the first failing rule, in the order the rules run. */
  lemma ProfileDataFirstFailure(
    displayName: Option<string>, bio: Option<string>, politicalAlignment: Option<string>,
    profilePrivate: Value, forUpdate: bool)
    ensures ValidateProfileData(displayName, bio, politicalAlignment, profilePrivate, forUpdate) == FirstFailure(
      (if forUpdate && Falsy(displayName) then [] else [ValidateDisplayName(displayName)]) +
      [ValidateBio(bio), ValidatePoliticalAlignment(politicalAlignment), ValidateProfilePrivate(profilePrivate)])
  {
    FirstFailureOfOptionalThenThree(forUpdate && Falsy(displayName), ValidateDisplayName(displayName),
      ValidateBio(bio), ValidatePoliticalAlignment(politicalAlignment), ValidateProfilePrivate(profilePrivate));
  }

  /** Characters the two runtimes treat alike: same whitespace, one UTF-16 unit each. */
  predicate Portable(s: string) {
    forall i :: 0 <= i < |s| ==> (IsSpace(JavaScript, s[i]) <==> IsSpace(Python, s[i])) && s[i] as int <= 0xFFFF
  }

  /** On portable text the two trims agree and both lengths are the code-point count. */
  lemma PortableMeasures(s: string)
    requires Portable(s)
    ensures Trim(JavaScript, s) == Trim(Python, s)
    ensures IsBlank(JavaScript, s) == IsBlank(Python, s)
    ensures Length(JavaScript, s) == |s|
    ensures Length(JavaScript, Trim(Python, s)) == |Trim(Python, s)|
  {
    TrimAgrees(s);
    BmpLength(s);
    TrimIsSlice(Python, s);
    var t := Trim(Python, s);
    var off := |s| - |TrimStart(Python, s)|;
    assert forall i :: 0 <= i < |t| ==> t[i] == s[off + i];
    BmpLength(t);
  }

  /** On portable text, each server rule accepts exactly what its browser twin accepts. */
  lemma RulesAgree(s: string)
    requires Portable(s)
    ensures ValidateDisplayName(Some(s)).Valid? == WebValidators.ValidateDisplayName(Some(s)).Valid?
    ensures ValidatePostContent(Some(s)).Valid? == WebValidators.ValidatePostContent(Some(s)).Valid?
    ensures ValidateCommentContent(Some(s)).Valid? == WebValidators.ValidateCommentContent(Some(s)).Valid?
    ensures ValidateBio(Some(s)).Valid? == WebValidators.ValidateBio(Some(s)).Valid?
    ensures ValidatePoliticalAlignment(Some(s)).Valid? == WebValidators.ValidatePoliticalAlignment(Some(s)).Valid?
  {
    PortableMeasures(s);
    DisplayNameRule(Some(s));
    WebValidators.DisplayNameRule(Some(s));
    PostContentRule(Some(s));
    WebValidators.PostContentRule(Some(s));
    CommentContentRule(Some(s));
    WebValidators.CommentContentRule(Some(s));
  }

  /** A byte-order mark is whitespace to the browser only, so the rules can disagree. */
  lemma ByteOrderMarkDisagrees()
    ensures ValidatePostContent(Some("\U{FEFF}")).Valid?
    ensures WebValidators.ValidatePostContent(Some("\U{FEFF}")).Invalid?
  {
    var s := "\U{FEFF}";
    assert s[0] == '\U{FEFF}';
    assert !IsBlank(Python, s);
    assert IsBlank(JavaScript, s);
  }

  /** Characters outside the Basic Multilingual Plane count twice in the browser. */
  lemma AstralNameDisagrees(s: string)
    requires |s| == 11 && forall i :: 0 <= i < |s| ==> s[i] as int > 0xFFFF && !IsSpace(Python, s[i]) && !IsSpace(JavaScript, s[i])
    ensures ValidateDisplayName(Some(s)).Valid?
    ensures WebValidators.ValidateDisplayName(Some(s)) == Invalid("Display name must not exceed 20 characters")
  {
    TrimOfTrimmed(Python, s);
    TrimOfTrimmed(JavaScript, s);
    AstralLength(s);
  }
}
