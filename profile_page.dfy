/**
 * The profile page's edits (src/app/profile/page.tsx): adding and removing
 * skills and certifications, and the three free-text fields, all written
 * through the data store's `updateProfile` for the signed-in user.
 */
module ProfilePage {
  import opened Wrappers
  import opened Text
  import opened Domain
  import Seqs
  import Store

  /** `user ? profiles[user.id] : null`, where a missing entry is `undefined`. */
  function PageProfile(profiles: map<Id, Profile>, user: Option<User>): (p: Option<Profile>)
    ensures p.Some? <==> user.Some? && user.value.id in profiles
  {
    if user.Some? && user.value.id in profiles then Some(profiles[user.value.id]) else None
  }

  datatype ListField = Skills | Certifications

  /** `profile?.skills` or `profile?.certifications`. */
  function Items(profile: Option<Profile>, field: ListField): Option<seq<string>> {
    if profile.None? then None
    else match field
      case Skills => profile.value.skills
      case Certifications => profile.value.certifications
  }

  /** The update that replaces one list and carries no other field. */
  function ListUpdate(field: ListField, items: seq<string>): (u: Profile)
    ensures Items(Some(u), field) == Some(items)
  {
    match field
    case Skills => NoProfileFields.(skills := Some(items))
    case Certifications => NoProfileFields.(certifications := Some(items))
  }

  /** `[...(current || []), item]`. */
  function Appended(current: Option<seq<string>>, item: string): (r: seq<string>)
    ensures |r| == |current.GetOr([])| + 1 && r[|r| - 1] == item && r[..|r| - 1] == current.GetOr([])
  {
    current.GetOr([]) + [item]
  }

  /** `items.filter(s => s !== item)`: every occurrence goes, the rest keep their order. */
  function Without(items: seq<string>, item: string): (r: seq<string>)
    ensures Seqs.IsSubsequence(r, items)
    ensures forall s :: s in r <==> s in items && s != item
    ensures forall s :: multiset(r)[s] == if s == item then 0 else multiset(items)[s]
  {
    Seqs.Filter(items, (s: string) => s != item)
  }

  /** Removing what was just added removes it altogether, earlier copies included. */
  lemma RemoveUndoesAdd(current: Option<seq<string>>, item: string)
    ensures Without(Appended(current, item), item) == Without(current.GetOr([]), item)
  {
    var p := (s: string) => s != item;
    Seqs.FilterAppend(current.GetOr([]), [item], p);
    assert Seqs.Filter([item], p) == [];
  }

  /** Removing a string the list does not hold keeps the list as it is. */
  lemma RemoveAbsentKeeps(items: seq<string>, item: string)
    requires item !in items
    ensures Without(items, item) == items
  {
    Seqs.FilterAll(items, (s: string) => s != item);
  }

  /** A list update changes that list of the profile and no other field. */
  lemma ListUpdateTouchesOnlyItsList(base: Profile, field: ListField, items: seq<string>)
    ensures var p := MergeProfile(base, ListUpdate(field, items));
      && Items(Some(p), field) == Some(items)
      && (field == Skills ==> p == base.(skills := Some(items)))
      && (field == Certifications ==> p == base.(certifications := Some(items)))
  {
  }

  /** The editor's two input boxes. */
  class ProfileEditor {
    var newSkill: string
    var newCertification: string

    constructor()
      ensures newSkill == "" && newCertification == ""
    {
      newSkill := "";
      newCertification := "";
    }

    /**
     * `handleAddSkill`: a trimmed, non-empty skill is appended to the
     * signed-in user's skills (an absent list counts as empty) and the box
     * is cleared; otherwise nothing happens.
     */
    method AddSkill(auth: Store.AuthStore, data: Store.DataStore) returns (added: bool)
      modifies this, data
      ensures added <==> Trim(old(newSkill)) != "" && auth.user.Some?
      ensures !added ==> unchanged(this) && unchanged(data)
      ensures added ==> var id := auth.user.value.id;
        && data.profiles == old(data.profiles)[id := MergeProfile(Store.StoredProfile(old(data.profiles), id),
             ListUpdate(Skills, Appended(Items(PageProfile(old(data.profiles), auth.user), Skills), Trim(old(newSkill)))))]
        && newSkill == ""
      ensures newCertification == old(newCertification)
      ensures unchanged(data`users, data`jobDetails, data`leaveRequests, data`attendance, data`leaveBalances, data`notifications)
    {
      var skill := Trim(newSkill);
      if skill == "" || auth.user.None? {
        return false;
      }
      var current := Items(PageProfile(data.profiles, auth.user), Skills);
      data.UpdateProfile(auth.user.value.id, ListUpdate(Skills, Appended(current, skill)));
      newSkill := "";
      added := true;
    }

    /** `handleAddCertification`: as `AddSkill`, for certifications and their box. */
    method AddCertification(auth: Store.AuthStore, data: Store.DataStore) returns (added: bool)
      modifies this, data
      ensures added <==> Trim(old(newCertification)) != "" && auth.user.Some?
      ensures !added ==> unchanged(this) && unchanged(data)
      ensures added ==> var id := auth.user.value.id;
        && data.profiles == old(data.profiles)[id := MergeProfile(Store.StoredProfile(old(data.profiles), id),
             ListUpdate(Certifications, Appended(Items(PageProfile(old(data.profiles), auth.user), Certifications), Trim(old(newCertification)))))]
        && newCertification == ""
      ensures newSkill == old(newSkill)
      ensures unchanged(data`users, data`jobDetails, data`leaveRequests, data`attendance, data`leaveBalances, data`notifications)
    {
      var certification := Trim(newCertification);
      if certification == "" || auth.user.None? {
        return false;
      }
      var current := Items(PageProfile(data.profiles, auth.user), Certifications);
      data.UpdateProfile(auth.user.value.id, ListUpdate(Certifications, Appended(current, certification)));
      newCertification := "";
      added := true;
    }
  }

  /**
   * `handleRemoveSkill` and `handleRemoveCertification`: with a signed-in
   * user whose profile has the list, every copy of `item` leaves it;
   * otherwise nothing happens.
   */
  method Remove(auth: Store.AuthStore, data: Store.DataStore, field: ListField, item: string) returns (removed: bool)
    modifies data
    ensures removed <==> Items(PageProfile(old(data.profiles), auth.user), field).Some?
    ensures !removed ==> unchanged(data)
    ensures removed ==> var id := auth.user.value.id;
      data.profiles == old(data.profiles)[id := MergeProfile(old(data.profiles)[id],
        ListUpdate(field, Without(Items(PageProfile(old(data.profiles), auth.user), field).value, item)))]
    ensures unchanged(data`users, data`jobDetails, data`leaveRequests, data`attendance, data`leaveBalances, data`notifications)
  {
    var current := Items(PageProfile(data.profiles, auth.user), field);
    if current.None? {
      return false;
    }
    data.UpdateProfile(auth.user.value.id, ListUpdate(field, Without(current.value, item)));
    removed := true;
  }

  datatype TextField = About | WhatILoveAboutJob | InterestsAndHobbies

  /** The update that sets one free-text field and carries no other field. */
  function TextUpdate(field: TextField, value: string): Profile {
    match field
    case About => NoProfileFields.(about := Some(value))
    case WhatILoveAboutJob => NoProfileFields.(whatILoveAboutJob := Some(value))
    case InterestsAndHobbies => NoProfileFields.(interestsAndHobbies := Some(value))
  }

  /** The three text areas: with a signed-in user, the field takes the text as typed. */
  method EditText(auth: Store.AuthStore, data: Store.DataStore, field: TextField, value: string)
    modifies data
    ensures auth.user.None? ==> unchanged(data)
    ensures auth.user.Some? ==> var id := auth.user.value.id;
      data.profiles == old(data.profiles)[id := MergeProfile(Store.StoredProfile(old(data.profiles), id), TextUpdate(field, value))]
    ensures unchanged(data`users, data`jobDetails, data`leaveRequests, data`attendance, data`leaveBalances, data`notifications)
  {
    if auth.user.Some? {
      data.UpdateProfile(auth.user.value.id, TextUpdate(field, value));
    }
  }

  /** A text edit sets its own field, keeps every other field, and the empty text is stored as such. */
  lemma TextUpdateTouchesOnlyItsField(base: Profile, field: TextField, value: string)
    ensures var p := MergeProfile(base, TextUpdate(field, value));
      && (field == About ==> p == base.(about := Some(value)))
      && (field == WhatILoveAboutJob ==> p == base.(whatILoveAboutJob := Some(value)))
      && (field == InterestsAndHobbies ==> p == base.(interestsAndHobbies := Some(value)))
  {
  }
}
