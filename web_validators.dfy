/**
 * Field rules of the browser (validators.js). JavaScript's null and undefined
 * are None; the functions are called with strings or nothing.
 */
module WebValidators {
  import opened Wrappers
  import opened Text
  import opened Verdicts

  const DisplayNameMinLength: nat := 2
  const DisplayNameMaxLength: nat := 20
  const BioMaxLength: nat := 500
  const PostContentMaxLength: nat := 280
  const CommentContentMaxLength: nat := 200
  const ValidPoliticalAlignments: seq<string> := ["National", "Labour", "Independent", ""]


  /** `!s || !s.trim()`: missing, empty or whitespace only. */
  predicate Missing(v: Option<string>) {
    v == None || Trim(JavaScript, v.value) == []
  }

  /** The elements that are not the empty string (filter(a => a)). */
  function NonEmpty(xs: seq<string>): (r: seq<string>)
    ensures forall i :: 0 <= i < |r| ==> r[i] != "" && r[i] in xs
    ensures forall x :: x in xs && x != "" ==> x in r
  {
    if xs == [] then []
    else if xs[0] == "" then NonEmpty(xs[1..])
    else [xs[0]] + NonEmpty(xs[1..])
  }

  /** NonEmpty keeps the non-empty elements in their order: it distributes over concatenation. */
  lemma {:induction false} NonEmptyKeepsOrder(xs: seq<string>, ys: seq<string>)
    ensures NonEmpty(xs + ys) == NonEmpty(xs) + NonEmpty(ys)
    ensures forall x :: NonEmpty([x]) == if x == "" then [] else [x]
    decreases |xs|
  {
    if xs == [] {
      assert xs + ys == ys;
    } else {
      assert (xs + ys)[1..] == xs[1..] + ys;
      NonEmptyKeepsOrder(xs[1..], ys);
    }
    forall x ensures NonEmpty([x]) == if x == "" then [] else [x] {
      assert [x][1..] == [];
    }
  }

  /** Array.prototype.join(sep). */
  function Join(xs: seq<string>, sep: string): string {
    if xs == [] then ""
    else if |xs| == 1 then xs[0]
    else xs[0] + sep + Join(xs[1..], sep)
  }

  function ValidateDisplayName(displayName: Option<string>): (r: Verdict)
  {
    if displayName == None || displayName.value == "" || Trim(JavaScript, displayName.value) == [] then
      Invalid("Display name is required")
    else
      var name := Trim(JavaScript, displayName.value);
      if Length(JavaScript, name) < DisplayNameMinLength then
        Invalid("Display name must be at least 2 characters")
      else if Length(JavaScript, name) > DisplayNameMaxLength then
        Invalid("Display name must not exceed 20 characters")
      else
        Valid
  }

  /**
   * A missing or blank name is reported as required, a trimmed name under 2
   * or over 20 UTF-16 units as too short or too long; a name passes when its
   * trimmed length is 2 to 20.
   */
  lemma DisplayNameRule(displayName: Option<string>)
    ensures Missing(displayName) ==> ValidateDisplayName(displayName) == Invalid("Display name is required")
    ensures !Missing(displayName) && Length(JavaScript, Trim(JavaScript, displayName.value)) < DisplayNameMinLength ==>
      ValidateDisplayName(displayName) == Invalid("Display name must be at least 2 characters")
    ensures !Missing(displayName) && Length(JavaScript, Trim(JavaScript, displayName.value)) > DisplayNameMaxLength ==>
      ValidateDisplayName(displayName) == Invalid("Display name must not exceed 20 characters")
    ensures ValidateDisplayName(displayName).Valid? <==>
      displayName.Some? && DisplayNameMinLength <= Length(JavaScript, Trim(JavaScript, displayName.value)) <= DisplayNameMaxLength
  {
    if displayName.Some? {
      TrimShape(JavaScript, displayName.value);
    }
  }

  const AlignmentError: string := "Political alignment must be " + Join(NonEmpty(ValidPoliticalAlignments), ", ")

  /** The options named in the alignment error message. */
  lemma AlignmentOptions()
    ensures AlignmentError == "Political alignment must be " + "National, Labour, Independent"
  {
    NonEmptyOptions();
    JoinOptions();
  }

  lemma NonEmptyOptions()
    ensures NonEmpty(ValidPoliticalAlignments) == ["National", "Labour", "Independent"]
  {
    var xs := ValidPoliticalAlignments;
    assert xs[1..] == ["Labour", "Independent", ""];
    assert xs[1..][1..] == ["Independent", ""];
    assert xs[1..][1..][1..] == [""];
    assert [""][1..] == [];
  }

  lemma JoinOptions()
    ensures Join(["National", "Labour", "Independent"], ", ") == "National, Labour, Independent"
  {
    var ys := ["National", "Labour", "Independent"];
    assert ys[1..] == ["Labour", "Independent"];
    assert ys[1..][1..] == ["Independent"];
  }

  function ValidateBio(bio: Option<string>): (r: Verdict)
    ensures r.Valid? <==> bio == None || Length(JavaScript, bio.value) <= BioMaxLength
    ensures r.Invalid? ==> r.message == "Bio must not exceed 500 characters"
  {
    if Falsy(bio) then Valid
    else if Length(JavaScript, bio.value) > BioMaxLength then Invalid("Bio must not exceed 500 characters")
    else Valid
  }

  function ValidatePoliticalAlignment(alignment: Option<string>): (r: Verdict)
    ensures r.Valid? <==> alignment == None || alignment.value in ["", "National", "Labour", "Independent"]
    ensures r.Invalid? ==> r.message == AlignmentError
  {
    if Falsy(alignment) then Valid
    else if alignment.value !in ValidPoliticalAlignments then
      Invalid(AlignmentError)
    else Valid
  }

  function ValidatePostContent(content: Option<string>): (r: Verdict)
  {
    if content == None || content.value == "" || Trim(JavaScript, content.value) == [] then
      Invalid("Content is required")
    else if Length(JavaScript, content.value) > PostContentMaxLength then
      Invalid("Content must not exceed 280 characters")
    else
      Valid
  }

  /**
   * Missing content is reported as required, present content over 280 UTF-16
   * units as too long; content passes when it is not blank and at most 280
   * units long, untrimmed.
   */
  lemma PostContentRule(content: Option<string>)
    ensures Missing(content) ==> ValidatePostContent(content) == Invalid("Content is required")
    ensures !Missing(content) && Length(JavaScript, content.value) > PostContentMaxLength ==>
      ValidatePostContent(content) == Invalid("Content must not exceed 280 characters")
    ensures ValidatePostContent(content).Valid? <==>
      content.Some? && !IsBlank(JavaScript, content.value) && Length(JavaScript, content.value) <= PostContentMaxLength
  {
    if content.Some? {
      TrimShape(JavaScript, content.value);
    }
  }

  function ValidateCommentContent(content: Option<string>): (r: Verdict)
  {
    if content == None || content.value == "" || Trim(JavaScript, content.value) == [] then
      Invalid("Comment content is required")
    else if Length(JavaScript, content.value) > CommentContentMaxLength then
      Invalid("Comment must not exceed 200 characters")
    else
      Valid
  }

  /**
   * Missing content is reported as required, a present comment over 200
   * UTF-16 units as too long; a comment passes when it is not blank and at
   * most 200 units long, untrimmed.
   */
  lemma CommentContentRule(content: Option<string>)
    ensures Missing(content) ==> ValidateCommentContent(content) == Invalid("Comment content is required")
    ensures !Missing(content) && Length(JavaScript, content.value) > CommentContentMaxLength ==>
      ValidateCommentContent(content) == Invalid("Comment must not exceed 200 characters")
    ensures ValidateCommentContent(content).Valid? <==>
      content.Some? && !IsBlank(JavaScript, content.value) && Length(JavaScript, content.value) <= CommentContentMaxLength
  {
    if content.Some? {
      TrimShape(JavaScript, content.value);
    }
  }

  /** Name, then bio, then alignment; the first failure is reported. */
  function ValidateProfileData(displayName: Option<string>, bio: Option<string>, politicalAlignment: Option<string>): (r: Verdict)
    ensures r == FirstFailure([ValidateDisplayName(displayName), ValidateBio(bio), ValidatePoliticalAlignment(politicalAlignment)])
    ensures r.Valid? <==>
      ValidateDisplayName(displayName).Valid? && ValidateBio(bio).Valid? && ValidatePoliticalAlignment(politicalAlignment).Valid?
  {
    FirstFailureOfThree(ValidateDisplayName(displayName), ValidateBio(bio), ValidatePoliticalAlignment(politicalAlignment));
    var result := ValidateDisplayName(displayName);
    if result.Invalid? then result
    else
      var result := ValidateBio(bio);
      if result.Invalid? then result
      else
        var result := ValidatePoliticalAlignment(politicalAlignment);
        if result.Invalid? then result
        else Valid
  }

  datatype ValidationConstants = ValidationConstants(
    displayNameMinLength: nat,
    displayNameMaxLength: nat,
    bioMaxLength: nat,
    postContentMaxLength: nat,
    commentContentMaxLength: nat,
    validPoliticalAlignments: seq<string>)

  /** The limits for the page code, with the empty alignment left out. */
  function GetValidationConstants(): (c: ValidationConstants)
    ensures c.displayNameMinLength <= c.displayNameMaxLength
    ensures c.validPoliticalAlignments == ["National", "Labour", "Independent"]
    ensures "" !in c.validPoliticalAlignments
    ensures forall a :: a in c.validPoliticalAlignments ==> a in ValidPoliticalAlignments
    ensures forall a :: a in c.validPoliticalAlignments ==> ValidatePoliticalAlignment(Some(a)).Valid?
  {
    ValidationConstants(DisplayNameMinLength, DisplayNameMaxLength, BioMaxLength,
      PostContentMaxLength, CommentContentMaxLength, NonEmpty(ValidPoliticalAlignments))
  }

  /** Text that is not blank and stays inside the Basic Multilingual Plane. */
  predicate PlainText(s: string) {
    (exists i :: 0 <= i < |s| && !IsSpace(JavaScript, s[i])) && forall i :: 0 <= i < |s| ==> s[i] as int <= 0xFFFF
  }

  /** The post limit is inclusive: such text of 280 characters passes, 281 does not. */
  lemma PostContentBoundary(s: string)
    requires PlainText(s)
    ensures |s| <= 280 ==> ValidatePostContent(Some(s)).Valid?
    ensures |s| == 281 ==> ValidatePostContent(Some(s)) == Invalid("Content must not exceed 280 characters")
  {
    BmpLength(s);
    TrimShape(JavaScript, s);
    assert !IsBlank(JavaScript, s);
    assert Trim(JavaScript, s) != [];
  }

  /** The comment limit is inclusive at 200. */
  lemma CommentContentBoundary(s: string)
    requires PlainText(s)
    ensures |s| <= 200 ==> ValidateCommentContent(Some(s)).Valid?
    ensures |s| == 201 ==> ValidateCommentContent(Some(s)) == Invalid("Comment must not exceed 200 characters")
  {
    BmpLength(s);
    TrimShape(JavaScript, s);
    assert !IsBlank(JavaScript, s);
    assert Trim(JavaScript, s) != [];
  }

  /** One visible character is too short for a name; two are enough. */
  lemma DisplayNameBoundary(c: char, d: char)
    requires !IsSpace(JavaScript, c) && !IsSpace(JavaScript, d)
    requires c as int <= 0xFFFF && d as int <= 0xFFFF
    ensures ValidateDisplayName(Some([c])) == Invalid("Display name must be at least 2 characters")
    ensures ValidateDisplayName(Some([c, d])).Valid?
  {
    TrimOfTrimmed(JavaScript, [c]);
    TrimOfTrimmed(JavaScript, [c, d]);
    BmpLength([c]);
    BmpLength([c, d]);
  }
}
