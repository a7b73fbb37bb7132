/**
 * The settings page: a local copy of the profile that the inputs edit, the
 * photo upload with its size limit, re-synchronisation from the provider,
 * and Save, which hands the whole form to the provider and goes back.
 */
module SettingsPage {
  import opened JsValues
  import opened ProfileContext

  /** The largest photo accepted, in bytes (2 MiB). */
  const MaxPhotoBytes: nat := 2 * 1024 * 1024

  const TooLargeAlert := "File is too large. Please choose an image under 2MB."

  /** A photo is accepted unless it is strictly larger than the limit. */
  predicate AcceptsPhoto(size: nat) {
    !(size > MaxPhotoBytes)
  }

  /** The limit itself is accepted; one byte more is not. */
  lemma PhotoLimitInclusive()
    ensures MaxPhotoBytes == 2097152
    ensures AcceptsPhoto(2097152) && !AcceptsPhoto(2097153)
  {
  }

  /** The page renders the form only once the provider is hydrated. */
  function View(isHydrated: bool, formData: UserProfile): (shown: Option<UserProfile>)
    ensures shown.None? <==> !isHydrated
    ensures shown.Some? ==> shown.value == formData
  {
    if isHydrated then Some(formData) else None
  }

  class SettingsForm {
    var formData: UserProfile
    var alerts: seq<string>
    /** File reads started and not yet finished. */
    var pendingReads: nat
    var navigatedBack: bool

    /** The form starts as a copy of the profile at mount time. */
    constructor (profile: UserProfile)
      ensures formData == profile && alerts == [] && pendingReads == 0 && !navigatedBack
    {
      formData, alerts, pendingReads, navigatedBack := profile, [], 0, false;
    }

    /** The effect on `[profile, isHydrated]`: once hydrated, the form is replaced by the profile. */
    method Resync(profile: UserProfile, isHydrated: bool)
      modifies this
      ensures formData == if isHydrated then profile else old(formData)
      ensures alerts == old(alerts) && pendingReads == old(pendingReads) && navigatedBack == old(navigatedBack)
    {
      if isHydrated {
        formData := profile;
      }
    }

    /** An input's change sets that one field of the form. */
    method HandleChange(field: TextField, value: string)
      modifies this
      ensures formData == old(formData).(text := old(formData).text[field := value])
      ensures alerts == old(alerts) && pendingReads == old(pendingReads) && navigatedBack == old(navigatedBack)
    {
      formData := formData.(text := formData.text[field := value]);
    }

    /**
     * A file was picked: too large, raise the alert and leave the form
     * alone; otherwise start reading it (the result arrives through
     * `PhotoRead`). No file, nothing happens.
     */
    method HandlePhotoUpload(fileSize: Option<nat>)
      modifies this
      ensures formData == old(formData) && navigatedBack == old(navigatedBack)
      ensures fileSize.Some? && !AcceptsPhoto(fileSize.value) ==>
        alerts == old(alerts) + [TooLargeAlert] && pendingReads == old(pendingReads)
      ensures fileSize.Some? && AcceptsPhoto(fileSize.value) ==> alerts == old(alerts) && pendingReads == old(pendingReads) + 1
      ensures fileSize.None? ==> alerts == old(alerts) && pendingReads == old(pendingReads)
    {
      if fileSize.Some? {
        if fileSize.value > 2 * 1024 * 1024 {
          alerts := alerts + [TooLargeAlert];
          return;
        }
        pendingReads := pendingReads + 1;
      }
    }

    /**
     * A started read has produced the photo's data URL: it becomes the
     * avatar, that read is no longer pending, and nothing else changes.
     */
    method PhotoRead(dataUrl: string)
      requires pendingReads > 0
      modifies this
      ensures formData == old(formData).(text := old(formData).text[AvatarUrl := dataUrl])
      ensures pendingReads == old(pendingReads) - 1
      ensures alerts == old(alerts) && navigatedBack == old(navigatedBack)
    {
      formData := formData.(text := formData.text[AvatarUrl := dataUrl]);
      pendingReads := pendingReads - 1;
    }

    /** Save: the whole form goes to `updateProfile`, then the page navigates back. */
    method HandleSave(provider: ProfileProvider)
      modifies this, provider
      ensures provider.profile == ApplyPatch(old(provider.profile), AsPatch(old(formData)))
      ensures provider.saved == Some(SavedProfile(provider.profile))
      ensures provider.isHydrated == old(provider.isHydrated)
      ensures navigatedBack && formData == old(formData) && alerts == old(alerts) && pendingReads == old(pendingReads)
      ensures Complete(old(provider.profile)) && Complete(formData) && formData.qrScanCount.Some?
              && old(provider.profile).text.Keys <= formData.text.Keys
              ==> provider.profile == formData
    {
      provider.UpdateProfile(AsPatch(formData));
      if Complete(old(provider.profile)) && Complete(formData) && formData.qrScanCount.Some?
         && old(provider.profile).text.Keys <= formData.text.Keys {
        ApplyCompleteProfile(old(provider.profile), formData);
      }
      navigatedBack := true;
    }
  }
}
