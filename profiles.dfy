/**
 * The profile handlers' pure steps: the view another user gets of a private
 * profile (get_profile), the fields read from a create or update body, the
 * new record (create_profile) and the partial update (update_profile).
 */
module Profiles {
  import opened Wrappers
  import opened Text
  import opened Verdicts
  import opened Lambda
  import opened Helpers
  import ApiValidators

  /** The attributes a private profile shows to other users. */
  const PublicFields: set<string> := {"user_id", "display_name", "created_at", "updated_at"}

  /** The attributes update_profile may write. */
  const UpdatableFields: set<string> := {"updated_at", "display_name", "bio", "political_alignment", "profile_private"}

  predicate IsPrivate(profile: Item) {
    Truthy(Get(profile, "profile_private", Bool(false)))
  }

  /**
   * The owner and anyone looking at a profile that is not private see it
   * whole; others see a private profile's name and timestamps only.
   */
  function FilterPrivateProfile(profile: Item, isOwnProfile: bool): (r: Item)
    ensures isOwnProfile || !IsPrivate(profile) ==> r == profile
    ensures !isOwnProfile && IsPrivate(profile) ==>
      && r.Keys == PublicFields + {"bio", "political_alignment", "profile_private"}
      && r["bio"] == Str("") && r["political_alignment"] == Str("")
      && r["profile_private"] == Bool(true)
      && forall a :: a in PublicFields ==> r[a] == Get(profile, a, Null)
  {
    if isOwnProfile || !IsPrivate(profile) then profile
    else
      map[
        "user_id" := Get(profile, "user_id", Null),
        "display_name" := Get(profile, "display_name", Null),
        "bio" := Str(""),
        "political_alignment" := Str(""),
        "profile_private" := Bool(true),
        "created_at" := Get(profile, "created_at", Null),
        "updated_at" := Get(profile, "updated_at", Null)]
  }

  /** Filtering what was already filtered changes nothing. */
  lemma {:induction false} FilterIdempotent(profile: Item, isOwnProfile: bool)
    ensures FilterPrivateProfile(FilterPrivateProfile(profile, isOwnProfile), isOwnProfile)
         == FilterPrivateProfile(profile, isOwnProfile)
  {
    var once := FilterPrivateProfile(profile, isOwnProfile);
    if !isOwnProfile && IsPrivate(profile) {
      assert IsPrivate(once);
      var twice := FilterPrivateProfile(once, isOwnProfile);
      assert twice.Keys == once.Keys;
      forall a | a in twice ensures twice[a] == once[a] {
        if a in PublicFields {
          assert twice[a] == Get(once, a, Null) == once[a];
        }
      }
    }
  }

  /** A private profile never shows its bio or alignment to someone else. */
  lemma PrivateViewHidesDetails(profile: Item, isOwnProfile: bool)
    requires !isOwnProfile && IsPrivate(profile)
    ensures forall a :: a in FilterPrivateProfile(profile, isOwnProfile) && a !in PublicFields ==>
      FilterPrivateProfile(profile, isOwnProfile)[a] in {Str(""), Bool(true)}
  {
  }

  /** The four values create_profile reads from its body. */
  datatype ProfileFields = ProfileFields(displayName: string, bio: string, alignment: string, profilePrivate: Value)

  /** Name, bio and alignment stripped, '' when absent; the flag False when absent. */
  function CreateFields(body: Item): (r: Outcome<ProfileFields>)
  {
    match StrippedField(body, "display_name")
    case Raised(err) => Raised(err)
    case Ok(name) =>
      match StrippedField(body, "bio")
      case Raised(err) => Raised(err)
      case Ok(bio) =>
        match StrippedField(body, "political_alignment")
        case Raised(err) => Raised(err)
        case Ok(alignment) => Ok(ProfileFields(name, bio, alignment, Get(body, "profile_private", Bool(false))))
  }

  /** The three text fields stripped and the flag as given; a non-string text field raises AttributeError. */
  lemma CreateFieldsRead(body: Item)
    ensures CreateFields(body).Ok? <==>
      StrippedField(body, "display_name").Ok? && StrippedField(body, "bio").Ok? && StrippedField(body, "political_alignment").Ok?
    ensures CreateFields(body).Ok? ==> CreateFields(body).value == ProfileFields(
      StrippedField(body, "display_name").value, StrippedField(body, "bio").value,
      StrippedField(body, "political_alignment").value, Get(body, "profile_private", Bool(false)))
    ensures CreateFields(body).Raised? ==> CreateFields(body).error == AttributeError
  {
  }

  function CreateVerdict(f: ProfileFields): Verdict {
    ApiValidators.ValidateProfileData(Some(f.displayName), Some(f.bio), Some(f.alignment), f.profilePrivate, false)
  }

  /** The record create_profile stores and returns. */
  function NewProfile(userId: string, f: ProfileFields, timestamp: string): Item {
    map[
      "user_id" := Str(userId),
      "display_name" := Str(f.displayName),
      "bio" := Str(f.bio),
      "political_alignment" := Str(f.alignment),
      "profile_private" := f.profilePrivate,
      "created_at" := Str(timestamp),
      "updated_at" := Str(timestamp)]
  }

  /**
   * A new profile has the public fields and the three private ones, and
   * nothing else; both timestamps are the creation time.
   */
  lemma NewProfileAttributes(userId: string, f: ProfileFields, timestamp: string)
    ensures var p := NewProfile(userId, f, timestamp);
      && p.Keys == PublicFields + {"bio", "political_alignment", "profile_private"}
      && p["user_id"] == Str(userId) && p["display_name"] == Str(f.displayName)
      && p["bio"] == Str(f.bio) && p["political_alignment"] == Str(f.alignment)
      && p["profile_private"] == f.profilePrivate
      && p["created_at"] == p["updated_at"] == Str(timestamp)
  {
  }

  /** A valid new profile's flag is a boolean: an absent one reads as False. */
  lemma ValidNewProfileFlag(userId: string, f: ProfileFields, timestamp: string)
    requires CreateVerdict(f).Valid?
    ensures NewProfile(userId, f, timestamp)["profile_private"].Bool? || NewProfile(userId, f, timestamp)["profile_private"].Null?
  {
    var p := ApiValidators.ValidateProfilePrivate(f.profilePrivate);
    var vs := [ApiValidators.ValidateDisplayName(Some(f.displayName))] +
      [ApiValidators.ValidateBio(Some(f.bio)), ApiValidators.ValidatePoliticalAlignment(Some(f.alignment)), p];
    assert vs[3] == p;
  }

  /**
   * What update_profile reads: a name only when the body's value is truthy
   * ('' otherwise), bio, alignment and flag only when their keys are present
   * (None otherwise).
   */
  datatype UpdateFields = UpdateFields(displayName: string, bio: Option<string>, alignment: Option<string>, profilePrivate: Value)

  /** `body[key].strip()` when the key is present, None when it is not. */
  function PresentStripped(body: Item, key: string): (r: Outcome<Option<string>>)
    ensures key !in body ==> r == Ok(None)
    ensures key in body ==> (r.Ok? <==> body[key].Str?)
    ensures key in body && body[key].Str? ==> r == Ok(Some(Trim(Python, body[key].s)))
    ensures r.Raised? ==> r.error == AttributeError
  {
    if key !in body then Ok(None)
    else
      match StrippedField(body, key)
      case Raised(err) => Raised(err)
      case Ok(s) => Ok(Some(s))
  }

  function UpdateFieldsOf(body: Item): (r: Outcome<UpdateFields>)
  {
    var name: Outcome<string> := if Truthy(Get(body, "display_name", Null)) then StrippedField(body, "display_name") else Ok("");
    match name
    case Raised(err) => Raised(err)
    case Ok(displayName) =>
      match PresentStripped(body, "bio")
      case Raised(err) => Raised(err)
      case Ok(bio) =>
        match PresentStripped(body, "political_alignment")
        case Raised(err) => Raised(err)
        case Ok(alignment) => Ok(UpdateFields(displayName, bio, alignment, Get(body, "profile_private", Null)))
  }

  /** What update_profile reads: the stripped name when truthy, the other fields when present; a non-string raises AttributeError. */
  lemma UpdateFieldsRead(body: Item)
    ensures UpdateFieldsOf(body).Ok? <==>
      (!Truthy(Get(body, "display_name", Null)) || body["display_name"].Str?) &&
      PresentStripped(body, "bio").Ok? && PresentStripped(body, "political_alignment").Ok?
    ensures !Truthy(Get(body, "display_name", Null)) && UpdateFieldsOf(body).Ok? ==> UpdateFieldsOf(body).value.displayName == ""
    ensures Truthy(Get(body, "display_name", Null)) && UpdateFieldsOf(body).Ok? ==> UpdateFieldsOf(body).value.displayName == Trim(Python, body["display_name"].s)
    ensures UpdateFieldsOf(body).Ok? ==> UpdateFieldsOf(body).value.bio == PresentStripped(body, "bio").value
    ensures UpdateFieldsOf(body).Ok? ==> UpdateFieldsOf(body).value.alignment == PresentStripped(body, "political_alignment").value
    ensures UpdateFieldsOf(body).Ok? ==> UpdateFieldsOf(body).value.profilePrivate == Get(body, "profile_private", Null)
    ensures UpdateFieldsOf(body).Raised? ==> UpdateFieldsOf(body).error == AttributeError
  {
  }

  function UpdateVerdict(f: UpdateFields): Verdict {
    ApiValidators.ValidateProfileData(Some(f.displayName), f.bio, f.alignment, f.profilePrivate, true)
  }

  /**
   * The attributes an update writes, as the source builds its SET clause and
   * value map: updated_at always, the name when non-empty, the others when
   * not None.
   */
  function ProfileChanges(f: UpdateFields, timestamp: string): (changes: Item)
  {
    var c0 := map["updated_at" := Str(timestamp)];
    var c1 := if f.displayName != "" then c0["display_name" := Str(f.displayName)] else c0;
    var c2 := if f.bio.Some? then c1["bio" := Str(f.bio.value)] else c1;
    var c3 := if f.alignment.Some? then c2["political_alignment" := Str(f.alignment.value)] else c2;
    if !f.profilePrivate.Null? then c3["profile_private" := f.profilePrivate] else c3
  }

  /** updated_at is always written; each other updatable attribute exactly when the body supplied it, with the supplied value. */
  lemma ProfileChangesNames(f: UpdateFields, timestamp: string)
    ensures ProfileChanges(f, timestamp).Keys <= UpdatableFields
    ensures "updated_at" in ProfileChanges(f, timestamp) && ProfileChanges(f, timestamp)["updated_at"] == Str(timestamp)
    ensures "display_name" in ProfileChanges(f, timestamp) <==> f.displayName != ""
    ensures "display_name" in ProfileChanges(f, timestamp) ==> ProfileChanges(f, timestamp)["display_name"] == Str(f.displayName)
    ensures "bio" in ProfileChanges(f, timestamp) <==> f.bio.Some?
    ensures "bio" in ProfileChanges(f, timestamp) ==> ProfileChanges(f, timestamp)["bio"] == Str(f.bio.value)
    ensures "political_alignment" in ProfileChanges(f, timestamp) <==> f.alignment.Some?
    ensures "political_alignment" in ProfileChanges(f, timestamp) ==> ProfileChanges(f, timestamp)["political_alignment"] == Str(f.alignment.value)
    ensures "profile_private" in ProfileChanges(f, timestamp) <==> !f.profilePrivate.Null?
    ensures "profile_private" in ProfileChanges(f, timestamp) ==> ProfileChanges(f, timestamp)["profile_private"] == f.profilePrivate
  {
  }

  /** One `, name = :name` appended to the SET clause, with its value added to the map. */
  method AddSet(setNames: seq<string>, values: Item, name: string, v: Value) returns (setNames': seq<string>, values': Item)
    requires name !in values
    requires forall a :: a in setNames <==> a in values
    requires forall i, j :: 0 <= i < j < |setNames| ==> setNames[i] != setNames[j]
    ensures setNames' == setNames + [name] && values' == values[name := v]
    ensures forall a :: a in setNames' <==> a in values'
    ensures forall i, j :: 0 <= i < j < |setNames'| ==> setNames'[i] != setNames'[j]
  {
    setNames' := setNames + [name];
    values' := values[name := v];
  }

  /**
   * The SET clause and the value map, built field by field: the clause names
   * exactly the attributes the map holds, updated_at first.
   */
  method BuildUpdate(f: UpdateFields, timestamp: string) returns (setNames: seq<string>, values: Item)
    ensures values == ProfileChanges(f, timestamp)
    ensures |setNames| >= 1 && setNames[0] == "updated_at"
    ensures forall a :: a in setNames <==> a in values
    ensures forall i, j :: 0 <= i < j < |setNames| ==> setNames[i] != setNames[j]
  {
    setNames := ["updated_at"];
    values := map["updated_at" := Str(timestamp)];
    if f.displayName != "" {
      setNames, values := AddSet(setNames, values, "display_name", Str(f.displayName));
    }
    assert values.Keys <= {"updated_at", "display_name"};
    if f.bio.Some? {
      setNames, values := AddSet(setNames, values, "bio", Str(f.bio.value));
    }
    assert values.Keys <= {"updated_at", "display_name", "bio"};
    if f.alignment.Some? {
      setNames, values := AddSet(setNames, values, "political_alignment", Str(f.alignment.value));
    }
    assert values.Keys <= {"updated_at", "display_name", "bio", "political_alignment"};
    if !f.profilePrivate.Null? {
      setNames, values := AddSet(setNames, values, "profile_private", f.profilePrivate);
    }
  }

  /** An update never touches user_id or created_at, nor any attribute it does not name. */
  lemma UpdateKeepsIdentity(record: Item, f: UpdateFields, timestamp: string)
    ensures var updated := record + ProfileChanges(f, timestamp);
      && (forall a :: a in record && a !in ProfileChanges(f, timestamp) ==> a in updated && updated[a] == record[a])
      && ("user_id" in record ==> updated["user_id"] == record["user_id"])
      && ("created_at" in record ==> updated["created_at"] == record["created_at"])
  {
    ProfileChangesNames(f, timestamp);
  }
}
