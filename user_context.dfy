/**
 * The user-profile provider: the profile record and the interface language, loaded from
 * browser storage at start, written back after every change, and edited by a shallow
 * merge and by add/remove operations on the three health lists.
 */
module UserContext {
  import opened Wrappers
  import opened Lists

  datatype Profile = Profile(
    name: string,
    age: string,
    gender: string,
    conditions: seq<string>,
    medications: seq<string>,
    allergies: seq<string>)

  /** The keys a `updateProfile` call supplies; `None` marks a key it leaves out. */
  datatype ProfilePatch = ProfilePatch(
    name: Option<string>,
    age: Option<string>,
    gender: Option<string>,
    conditions: Option<seq<string>>,
    medications: Option<seq<string>>,
    allergies: Option<seq<string>>)

  const DefaultProfile := Profile("", "", "", [], [], [])

  const NoChange := ProfilePatch(None, None, None, None, None, None)

  /** Why loading failed: the stored profile text is not valid JSON, so the provider throws. */
  datatype LoadError = CorruptProfile(text: string)

  /** The starting profile: the stored one, the default when nothing (or "") is stored. */
  function LoadProfile(saved: Option<string>, parse: string -> Option<Profile>): (r: Result<Profile, LoadError>)
    ensures saved.None? || saved == Some("") ==> r == Success(DefaultProfile)
    ensures saved.Some? && saved.value != "" ==> match parse(saved.value)
      case Some(p) => r == Success(p)
      case None => r == Failure(CorruptProfile(saved.value))
  {
    match saved
    case None => Success(DefaultProfile)
    case Some(text) =>
      if text == "" then Success(DefaultProfile)
      else match parse(text)
        case Some(p) => Success(p)
        case None => Failure(CorruptProfile(text))
  }

  /** The starting language: the stored code, 'en' when none is stored. */
  function LoadLanguage(saved: Option<string>): (r: string)
    ensures r != ""
    ensures saved.Some? && saved.value != "" ==> r == saved.value
    ensures saved.None? || saved == Some("") ==> r == "en"
  {
    match saved
    case None => "en"
    case Some(code) => if code == "" then "en" else code
  }

  function Pick<T>(supplied: Option<T>, current: T): T {
    match supplied
    case None => current
    case Some(v) => v
  }

  /** `{ ...prev, ...patch }`: supplied keys are replaced, every other field is kept. */
  function Merge(p: Profile, patch: ProfilePatch): (r: Profile)
    ensures patch.name.Some? ==> r.name == patch.name.value
    ensures patch.name.None? ==> r.name == p.name
    ensures patch.age.Some? ==> r.age == patch.age.value
    ensures patch.age.None? ==> r.age == p.age
    ensures patch.gender.Some? ==> r.gender == patch.gender.value
    ensures patch.gender.None? ==> r.gender == p.gender
    ensures patch.conditions.Some? ==> r.conditions == patch.conditions.value
    ensures patch.conditions.None? ==> r.conditions == p.conditions
    ensures patch.medications.Some? ==> r.medications == patch.medications.value
    ensures patch.medications.None? ==> r.medications == p.medications
    ensures patch.allergies.Some? ==> r.allergies == patch.allergies.value
    ensures patch.allergies.None? ==> r.allergies == p.allergies
  {
    Profile(
      Pick(patch.name, p.name),
      Pick(patch.age, p.age),
      Pick(patch.gender, p.gender),
      Pick(patch.conditions, p.conditions),
      Pick(patch.medications, p.medications),
      Pick(patch.allergies, p.allergies))
  }

  /** Merging the same patch twice is merging it once. */
  lemma MergeIdempotent(p: Profile, patch: ProfilePatch)
    ensures Merge(Merge(p, patch), patch) == Merge(p, patch)
  {
  }

  /** A patch with no keys changes nothing. */
  lemma MergeNothing(p: Profile)
    ensures Merge(p, NoChange) == p
  {
  }

  /** Supplying every key replaces the whole profile. */
  lemma MergeEverything(p: Profile, q: Profile)
    ensures Merge(p, ProfilePatch(Some(q.name), Some(q.age), Some(q.gender), Some(q.conditions), Some(q.medications), Some(q.allergies))) == q
  {
  }

  /**
   * The provider. `savedProfile` and `savedLanguage` are what the 'userProfile' and
   * 'appLanguage' storage keys hold; the persistence effects keep them equal to the state
   * after every change.
   */
  class UserProvider {
    var profile: Profile
    var language: string
    var savedProfile: Profile
    var savedLanguage: string

    predicate Persisted()
      reads this
    {
      savedProfile == profile && savedLanguage == language
    }

    constructor (initial: Profile, initialLanguage: string)
      ensures profile == initial && language == initialLanguage && Persisted()
    {
      profile := initial;
      language := initialLanguage;
      savedProfile := initial;
      savedLanguage := initialLanguage;
    }

    method UpdateProfile(patch: ProfilePatch)
      modifies this
      ensures profile == Merge(old(profile), patch) && language == old(language) && Persisted()
    {
      profile := Merge(profile, patch);
      savedProfile := profile;
      savedLanguage := language;
    }

    method SetLanguage(code: string)
      modifies this
      ensures language == code && profile == old(profile) && Persisted()
    {
      language := code;
      savedProfile := profile;
      savedLanguage := language;
    }

    method AddCondition(condition: string)
      modifies this
      ensures profile == old(profile).(conditions := AppendIfAbsent(old(profile).conditions, condition))
      ensures condition in profile.conditions
      ensures NoDuplicates(old(profile).conditions) ==> NoDuplicates(profile.conditions)
      ensures language == old(language) && (old(Persisted()) || condition !in old(profile).conditions ==> Persisted())
    {
      if NoDuplicates(profile.conditions) {
        AppendIfAbsentKeepsNoDuplicates(profile.conditions, condition);
      }
      if condition !in profile.conditions {
        UpdateProfile(NoChange.(conditions := Some(profile.conditions + [condition])));
      }
    }

    method RemoveCondition(condition: string)
      modifies this
      ensures profile == old(profile).(conditions := RemoveAll(old(profile).conditions, condition))
      ensures condition !in profile.conditions
      ensures NoDuplicates(old(profile).conditions) ==> NoDuplicates(profile.conditions)
      ensures language == old(language) && Persisted()
    {
      if NoDuplicates(profile.conditions) {
        RemoveAllKeepsNoDuplicates(profile.conditions, condition);
      }
      UpdateProfile(NoChange.(conditions := Some(RemoveAll(profile.conditions, condition))));
    }

    method AddMedication(medication: string)
      modifies this
      ensures profile == old(profile).(medications := AppendIfAbsent(old(profile).medications, medication))
      ensures medication in profile.medications
      ensures NoDuplicates(old(profile).medications) ==> NoDuplicates(profile.medications)
      ensures language == old(language) && (old(Persisted()) || medication !in old(profile).medications ==> Persisted())
    {
      if NoDuplicates(profile.medications) {
        AppendIfAbsentKeepsNoDuplicates(profile.medications, medication);
      }
      if medication !in profile.medications {
        UpdateProfile(NoChange.(medications := Some(profile.medications + [medication])));
      }
    }

    method RemoveMedication(medication: string)
      modifies this
      ensures profile == old(profile).(medications := RemoveAll(old(profile).medications, medication))
      ensures medication !in profile.medications
      ensures NoDuplicates(old(profile).medications) ==> NoDuplicates(profile.medications)
      ensures language == old(language) && Persisted()
    {
      if NoDuplicates(profile.medications) {
        RemoveAllKeepsNoDuplicates(profile.medications, medication);
      }
      UpdateProfile(NoChange.(medications := Some(RemoveAll(profile.medications, medication))));
    }

    method AddAllergy(allergy: string)
      modifies this
      ensures profile == old(profile).(allergies := AppendIfAbsent(old(profile).allergies, allergy))
      ensures allergy in profile.allergies
      ensures NoDuplicates(old(profile).allergies) ==> NoDuplicates(profile.allergies)
      ensures language == old(language) && (old(Persisted()) || allergy !in old(profile).allergies ==> Persisted())
    {
      if NoDuplicates(profile.allergies) {
        AppendIfAbsentKeepsNoDuplicates(profile.allergies, allergy);
      }
      if allergy !in profile.allergies {
        UpdateProfile(NoChange.(allergies := Some(profile.allergies + [allergy])));
      }
    }

    method RemoveAllergy(allergy: string)
      modifies this
      ensures profile == old(profile).(allergies := RemoveAll(old(profile).allergies, allergy))
      ensures allergy !in profile.allergies
      ensures NoDuplicates(old(profile).allergies) ==> NoDuplicates(profile.allergies)
      ensures language == old(language) && Persisted()
    {
      if NoDuplicates(profile.allergies) {
        RemoveAllKeepsNoDuplicates(profile.allergies, allergy);
      }
      UpdateProfile(NoChange.(allergies := Some(RemoveAll(profile.allergies, allergy))));
    }
  }

  /** Adding then removing an absent item gives back the list it started from. */
  lemma AddThenRemove(items: seq<string>, x: string)
    requires x !in items
    ensures RemoveAll(AppendIfAbsent(items, x), x) == items
  {
    RemoveAllAppend(items, [x], x);
    assert RemoveAll([x], x) == [];
    assert items + [] == items;
  }

  /** Adding an item that is already listed is a no-op. */
  lemma AddPresentIsNoOp(items: seq<string>, x: string)
    requires x in items
    ensures AppendIfAbsent(items, x) == items
  {
  }
}
