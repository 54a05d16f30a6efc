/**
 * The shared profile of `app/ProfileContext.tsx`: a name, an about text and
 * an optional avatar URI, updated by partial patches that overwrite the
 * fields they carry.
 */
module Profile {
  import opened Wrappers

  /** A profile; `avatarUri` is `None` for `null`. */
  datatype Profile = Profile(name: string, about: string, avatarUri: Option<string>)

  /** A `Partial<Profile>`: `None` is a field the patch does not carry. */
  datatype Patch = Patch(name: Option<string>, about: Option<string>, avatarUri: Option<Option<string>>)

  const EmptyPatch: Patch := Patch(None, None, None)

  /** The profile every session starts with. */
  function DefaultProfile(): (p: Profile)
    ensures p.avatarUri == None && p.name == "Your Name"
  {
    Profile("Your Name",
            "Hello! I\U{2019}m a passionate developer who loves building mobile and web apps. Always learning something new!",
            None)
  }

  /** `{ ...prev, ...patch }`: each field the patch carries wins, the others are kept. */
  function Merge(prev: Profile, patch: Patch): (r: Profile)
    ensures r.name == patch.name.GetOr(prev.name)
    ensures r.about == patch.about.GetOr(prev.about)
    ensures r.avatarUri == patch.avatarUri.GetOr(prev.avatarUri)
  {
    Profile(
      if patch.name.Some? then patch.name.value else prev.name,
      if patch.about.Some? then patch.about.value else prev.about,
      if patch.avatarUri.Some? then patch.avatarUri.value else prev.avatarUri)
  }

  /** The single patch two patches in a row amount to: the later one's fields win. */
  function Then(first: Patch, second: Patch): Patch {
    Patch(if second.name.Some? then second.name else first.name,
          if second.about.Some? then second.about else first.about,
          if second.avatarUri.Some? then second.avatarUri else first.avatarUri)
  }

  /** An empty patch changes nothing. */
  lemma MergeEmpty(p: Profile)
    ensures Merge(p, EmptyPatch) == p
  {
  }

  /** Applying the same patch twice is applying it once. */
  lemma MergeIdempotent(p: Profile, patch: Patch)
    ensures Merge(Merge(p, patch), patch) == Merge(p, patch)
  {
  }

  /** Two patches in a row are the later-wins combination of them. */
  lemma MergeThen(p: Profile, first: Patch, second: Patch)
    ensures Merge(Merge(p, first), second) == Merge(p, Then(first, second))
    ensures second.name.Some? ==> Merge(Merge(p, first), second).name == second.name.value
  {
  }

  /** A patch yields exactly the fields it carries: patching a profile to itself changes nothing, and only then. */
  lemma MergeFixed(p: Profile, patch: Patch)
    ensures Merge(p, patch) == p <==>
      (patch.name.Some? ==> patch.name.value == p.name) &&
      (patch.about.Some? ==> patch.about.value == p.about) &&
      (patch.avatarUri.Some? ==> patch.avatarUri.value == p.avatarUri)
  {
  }

  class ProfileProvider {
    var profile: Profile

    /** The provider's first render. */
    constructor ()
      ensures profile == DefaultProfile()
    {
      profile := DefaultProfile();
    }

    /** `setProfile(patch)`. */
    method SetProfile(patch: Patch)
      modifies this
      ensures profile == Merge(old(profile), patch)
    {
      profile := Merge(profile, patch);
    }
  }
}
