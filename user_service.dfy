/**
 * The user profile (src/services/userService.ts): one storage slot,
 * `serenity_user_profile`, that holds at most one profile. Creating writes a
 * fresh profile over whatever is there, updating merges fields into the
 * stored profile, and clearing empties the slot.
 */
module UserService {
  import opened Types

  /** The preferences every new profile starts with. */
  const DefaultPreferences: Preferences := Preferences(Light, true, "09:00", false, None)

  /** A `Partial<UserProfile>`: each field either supplied or absent. */
  datatype ProfileUpdate = ProfileUpdate(
    id: Option<string>,
    name: Option<string>,
    role: Option<UserRole>,
    onboardingCompleted: Option<bool>,
    preferences: Option<Preferences>,
    createdAt: Option<string>)

  const NoChanges: ProfileUpdate := ProfileUpdate(None, None, None, None, None, None)

  /** `{ ...current, ...updates }`: supplied fields override, the others are
      kept, and preferences are replaced as a whole. */
  function Merge(current: UserProfile, u: ProfileUpdate): (r: UserProfile)
    ensures u.id.Some? ==> r.id == u.id.value
    ensures u.id.None? ==> r.id == current.id
    ensures u.name.Some? ==> r.name == u.name.value
    ensures u.name.None? ==> r.name == current.name
    ensures u.role.Some? ==> r.role == u.role.value
    ensures u.role.None? ==> r.role == current.role
    ensures u.onboardingCompleted.Some? ==> r.onboardingCompleted == u.onboardingCompleted.value
    ensures u.onboardingCompleted.None? ==> r.onboardingCompleted == current.onboardingCompleted
    ensures u.preferences.Some? ==> r.preferences == u.preferences.value
    ensures u.preferences.None? ==> r.preferences == current.preferences
    ensures u.createdAt.Some? ==> r.createdAt == u.createdAt.value
    ensures u.createdAt.None? ==> r.createdAt == current.createdAt
  {
    UserProfile(
      u.id.GetOr(current.id),
      u.name.GetOr(current.name),
      u.role.GetOr(current.role),
      u.onboardingCompleted.GetOr(current.onboardingCompleted),
      u.preferences.GetOr(current.preferences),
      u.createdAt.GetOr(current.createdAt))
  }

  /** Two updates applied in turn, as one: the later one wins field by field. */
  function Then(first: ProfileUpdate, second: ProfileUpdate): ProfileUpdate {
    ProfileUpdate(
      if second.id.Some? then second.id else first.id,
      if second.name.Some? then second.name else first.name,
      if second.role.Some? then second.role else first.role,
      if second.onboardingCompleted.Some? then second.onboardingCompleted else first.onboardingCompleted,
      if second.preferences.Some? then second.preferences else first.preferences,
      if second.createdAt.Some? then second.createdAt else first.createdAt)
  }

  /** An update with no fields leaves the profile as it was. */
  lemma MergeNothing(p: UserProfile)
    ensures Merge(p, NoChanges) == p
  {
  }

  /** Applying the same update twice is the same as applying it once. */
  lemma MergeIdempotent(p: UserProfile, u: ProfileUpdate)
    ensures Merge(Merge(p, u), u) == Merge(p, u)
  {
  }

  /** Two updates in a row are one combined update. */
  lemma MergeComposes(p: UserProfile, u1: ProfileUpdate, u2: ProfileUpdate)
    ensures Merge(Merge(p, u1), u2) == Merge(p, Then(u1, u2))
  {
  }

  class UserStore {
    var slot: Option<UserProfile>

    constructor ()
      ensures slot == None
    {
      slot := None;
    }

    /** `getUserProfile`: the stored profile, none when the slot is empty. */
    function Profile(): (r: Option<UserProfile>)
      reads this
      ensures r.None? <==> slot.None?
      ensures r.Some? ==> r.value == slot.value
    {
      slot
    }

    /** `isOnboardingComplete`: a profile is stored and it says onboarding is done. */
    function IsOnboardingComplete(): (r: bool)
      reads this
      ensures r <==> Profile().Some? && Profile().value.onboardingCompleted
    {
      match slot
      case Some(p) => p.onboardingCompleted
      case None => false
    }

    /** `createUserProfile`: writes a completed profile with the default
        preferences over whatever was stored. `id` and `createdAt` are the
        clock readings. */
    method CreateUserProfile(name: string, role: UserRole, id: string, createdAt: string)
      returns (p: UserProfile)
      modifies this
      ensures p.id == id && p.name == name && p.role == role && p.createdAt == createdAt
      ensures p.onboardingCompleted
      ensures p.preferences.theme == Light && p.preferences.notifications
      ensures p.preferences.reminderTime == "09:00" && !p.preferences.smartWatchConnected
      ensures p.preferences.smartWatchType == None
      ensures Profile() == Some(p)
      ensures IsOnboardingComplete()
    {
      p := UserProfile(id, name, role, true, DefaultPreferences, createdAt);
      slot := Some(p);
    }

    /** `updateUserProfile`: with nothing stored, answers none and writes
        nothing; otherwise stores and answers the merged profile. */
    method UpdateUserProfile(updates: ProfileUpdate) returns (r: Option<UserProfile>)
      modifies this
      ensures old(slot).None? ==> r.None? && slot == old(slot)
      ensures old(slot).Some? ==> r == Some(Merge(old(slot).value, updates)) && slot == r
    {
      var current := Profile();
      if current.None? {
        return None;
      }
      var updated := Merge(current.value, updates);
      slot := Some(updated);
      r := Some(updated);
    }

    /** `clearUserProfile`: empties the slot. */
    method ClearUserProfile()
      modifies this
      ensures Profile().None?
      ensures !IsOnboardingComplete()
    {
      slot := None;
    }
  }
}
