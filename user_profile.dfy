/**
 * The signed-in user's profile as the app-wide provider keeps it: the
 * default profile, the partial-update merge, the mapping of a database row
 * onto the current profile, and the provider's state (profile, hydration
 * flag and the copy it keeps in browser storage).
 */
module ProfileContext {
  import opened JsValues

  /** The string-valued keys of a profile object. */
  datatype TextField =
    | Id | Name | CompanyName | Category | Position | LinkedinUrl | ProblemSolved | WebsiteUrl
    | Mrr | Location | AvatarUrl | QrCodeImageUrl | ProfileSlug
    | TwitterUrl | InstagramUrl | FacebookUrl | YoutubeUrl | TiktokUrl

  /** The keys of the chatbot settings object. */
  datatype SettingKey = Tone | Goal | UnknownHandler | ResponseLength | EmojiUsage

  /**
   * A profile object. A key missing from `text` reads as `undefined` (or
   * `null`); `qrScanCount` is the one numeric key.
   */
  datatype UserProfile = UserProfile(
    text: map<TextField, string>,
    qrScanCount: Option<int>,
    chatbotSettings: map<SettingKey, string>)

  /** An update: the keys it carries replace the profile's; `chatbotSettings`, when carried, is merged key by key. */
  datatype ProfilePatch = ProfilePatch(
    text: map<TextField, string>,
    qrScanCount: Option<int>,
    chatbotSettings: Option<map<SettingKey, string>>)

  /** Reading key `k` of an object. */
  function Get<K>(m: map<K, string>, k: K): (r: Option<string>)
    ensures r.Some? <==> k in m
    ensures r.Some? ==> r.value == m[k]
  {
    if k in m then Some(m[k]) else None
  }

  /** The keys the profile type declares as always present. */
  predicate IsRequired(f: TextField) {
    match f
    case Id | QrCodeImageUrl | ProfileSlug | TwitterUrl | InstagramUrl | FacebookUrl | YoutubeUrl | TiktokUrl => false
    case _ => true
  }

  const AllTextFields: set<TextField> :=
    {Id, Name, CompanyName, Category, Position, LinkedinUrl, ProblemSolved, WebsiteUrl, Mrr, Location, AvatarUrl,
     QrCodeImageUrl, ProfileSlug, TwitterUrl, InstagramUrl, FacebookUrl, YoutubeUrl, TiktokUrl}

  const AllSettingKeys: set<SettingKey> := {Tone, Goal, UnknownHandler, ResponseLength, EmojiUsage}

  lemma EveryTextField(f: TextField)
    ensures f in AllTextFields
  {
  }

  lemma EverySettingKey(k: SettingKey)
    ensures k in AllSettingKeys
  {
  }

  /** A profile with every required key and every chatbot setting present. */
  predicate Complete(p: UserProfile) {
    (forall f :: IsRequired(f) ==> f in p.text) && (forall k :: k in p.chatbotSettings)
  }

  /** The profile before anything is loaded and after sign-out: every string empty, no scans. */
  function DefaultProfile(): (p: UserProfile)
    ensures Complete(p)
    ensures forall f: TextField :: Get(p.text, f) == Some("")
    ensures forall k: SettingKey :: Get(p.chatbotSettings, k) == Some("")
    ensures p.qrScanCount == Some(0)
  {
    forall f: TextField ensures f in AllTextFields { EveryTextField(f); }
    forall k: SettingKey ensures k in AllSettingKeys { EverySettingKey(k); }
    UserProfile(
      map f | f in AllTextFields :: "",
      Some(0),
      map k | k in AllSettingKeys :: "")
  }

  /** Setting `k` after `{...old, ...update}`: the update's value if it has one, the old one otherwise. */
  function MergedSetting(before: map<SettingKey, string>, update: map<SettingKey, string>, k: SettingKey): Option<string> {
    if k in update then Some(update[k]) else Get(before, k)
  }

  /** `updateProfile`'s merge: `{...prev, ...data}` with the chatbot settings merged one level down. */
  function ApplyPatch(prev: UserProfile, data: ProfilePatch): (r: UserProfile)
    ensures forall f :: Get(r.text, f) == if f in data.text then Some(data.text[f]) else Get(prev.text, f)
    ensures r.qrScanCount == if data.qrScanCount.Some? then data.qrScanCount else prev.qrScanCount
    ensures data.chatbotSettings.None? ==> r.chatbotSettings == prev.chatbotSettings
    ensures data.chatbotSettings.Some? ==> forall k :: Get(r.chatbotSettings, k) == MergedSetting(prev.chatbotSettings, data.chatbotSettings.value, k)
    ensures Complete(prev) ==> Complete(r)
  {
    UserProfile(
      prev.text + data.text,
      if data.qrScanCount.Some? then data.qrScanCount else prev.qrScanCount,
      if data.chatbotSettings.Some? then prev.chatbotSettings + data.chatbotSettings.value else prev.chatbotSettings)
  }

  /** Applying the same update twice gives the same profile as applying it once. */
  lemma ApplyPatchIdempotent(p: UserProfile, data: ProfilePatch)
    ensures ApplyPatch(ApplyPatch(p, data), data) == ApplyPatch(p, data)
  {
    var once := ApplyPatch(p, data);
    var twice := ApplyPatch(once, data);
    assert twice.text == once.text by {
      forall f ensures Get(twice.text, f) == Get(once.text, f) { }
    }
    if data.chatbotSettings.Some? {
      assert twice.chatbotSettings == once.chatbotSettings by {
        forall k ensures Get(twice.chatbotSettings, k) == Get(once.chatbotSettings, k) { }
      }
    }
  }

  /** A whole profile passed as an update, as the settings page's save does. */
  function AsPatch(p: UserProfile): (d: ProfilePatch)
    ensures d.text == p.text && d.qrScanCount == p.qrScanCount && d.chatbotSettings == Some(p.chatbotSettings)
  {
    ProfilePatch(p.text, p.qrScanCount, Some(p.chatbotSettings))
  }

  /** Updating with a complete profile yields that profile, whatever was there before. */
  lemma ApplyCompleteProfile(prev: UserProfile, p: UserProfile)
    requires Complete(prev) && Complete(p) && prev.text.Keys <= p.text.Keys && p.qrScanCount.Some?
    ensures ApplyPatch(prev, AsPatch(p)) == p
  {
    var r := ApplyPatch(prev, AsPatch(p));
    assert r.text == p.text by {
      forall f ensures Get(r.text, f) == Get(p.text, f) { }
    }
    assert r.chatbotSettings == p.chatbotSettings by {
      forall k ensures Get(r.chatbotSettings, k) == Get(p.chatbotSettings, k) { EverySettingKey(k); }
    }
  }

  /** A `company_profiles` row; a column holding `null` is None. */
  datatype DatabaseProfile = DatabaseProfile(
    id: string,
    ownerName: Option<string>,
    ownerRole: Option<string>,
    ownerPhotoUrl: Option<string>,
    linkedinUrl: Option<string>,
    twitterUrl: Option<string>,
    instagramUrl: Option<string>,
    facebookUrl: Option<string>,
    youtubeUrl: Option<string>,
    tiktokUrl: Option<string>,
    companyName: Option<string>,
    briefDescription: Option<string>,
    websiteUrl: Option<string>,
    qrScanCount: Option<int>,
    profileSlug: Option<string>,
    qrCodeImageUrl: Option<string>)

  /** The profile keys a row fills in only when its column is non-empty. */
  predicate FilledFromColumn(f: TextField) {
    match f
    case Id | ProfileSlug | Category | Mrr | Location => false
    case _ => true
  }

  /** The row column that feeds profile key `f` (None for keys no column feeds this way). */
  function Column(row: DatabaseProfile, f: TextField): Option<string> {
    match f
    case Name => row.ownerName
    case CompanyName => row.companyName
    case Position => row.ownerRole
    case ProblemSolved => row.briefDescription
    case WebsiteUrl => row.websiteUrl
    case LinkedinUrl => row.linkedinUrl
    case AvatarUrl => row.ownerPhotoUrl
    case QrCodeImageUrl => row.qrCodeImageUrl
    case TwitterUrl => row.twitterUrl
    case InstagramUrl => row.instagramUrl
    case FacebookUrl => row.facebookUrl
    case YoutubeUrl => row.youtubeUrl
    case TiktokUrl => row.tiktokUrl
    case _ => None
  }

  /** Key `f` of the profile after a row is laid over `prev`. */
  function FieldAfterRow(prev: map<TextField, string>, row: DatabaseProfile, f: TextField): Option<string> {
    match f
    case Id => Some(row.id)
    case ProfileSlug => row.profileSlug
    case Category | Mrr | Location => Get(prev, f)
    case _ => OrElseOpt(Column(row, f), Get(prev, f))
  }

  /**
   * The profile after a fetched row is laid over `prev`: each mapped column
   * wins when non-empty, `id` and `profileSlug` are copied as they are, and
   * the scan count is the row's or 0.
   */
  function MapRow(prev: UserProfile, row: DatabaseProfile): (r: UserProfile)
    ensures forall f :: FilledFromColumn(f) ==> Get(r.text, f) == OrElseOpt(Column(row, f), Get(prev.text, f))
    ensures Get(r.text, Id) == Some(row.id)
    ensures Get(r.text, ProfileSlug) == row.profileSlug
    ensures forall f :: !FilledFromColumn(f) && f != Id && f != ProfileSlug ==> Get(r.text, f) == Get(prev.text, f)
    ensures r.qrScanCount == Some(if row.qrScanCount.Some? && row.qrScanCount.value != 0 then row.qrScanCount.value else 0)
    ensures r.chatbotSettings == prev.chatbotSettings
    ensures Complete(prev) ==> Complete(r)
  {
    var text := map f: TextField | FieldAfterRow(prev.text, row, f).Some? :: FieldAfterRow(prev.text, row, f).value;
    assert forall f :: Get(text, f) == FieldAfterRow(prev.text, row, f);
    UserProfile(
      text,
      Some(if row.qrScanCount.Some? && row.qrScanCount.value != 0 then row.qrScanCount.value else 0),
      prev.chatbotSettings)
  }

  /** Category, location and MRR have no column: a fetch never changes them. */
  lemma MapRowKeepsUnmappedFields(prev: UserProfile, row: DatabaseProfile)
    ensures Get(MapRow(prev, row).text, Category) == Get(prev.text, Category)
    ensures Get(MapRow(prev, row).text, Location) == Get(prev.text, Location)
    ensures Get(MapRow(prev, row).text, Mrr) == Get(prev.text, Mrr)
  {
  }

  /** What the provider finds under its storage key. */
  datatype Saved =
    | SavedProfile(profile: UserProfile)  // written by an update
    | SavedRow(row: DatabaseProfile)      // written after a fetch: the raw row
    | Unparsable                          // anything `JSON.parse` rejects

  /**
   * A stored row read back as a profile: of the profile's keys it carries
   * only `id`; every other key reads as missing.
   */
  function RowAsProfile(row: DatabaseProfile): (p: UserProfile)
    ensures Get(p.text, Id) == Some(row.id)
    ensures forall f :: f != Id ==> Get(p.text, f) == None
    ensures p.qrScanCount == None && p.chatbotSettings == map[]
  {
    UserProfile(map[Id := row.id], None, map[])
  }

  /** The outcome of the profile query for a signed-in user. */
  datatype FetchOutcome = Row(row: DatabaseProfile) | QueryError | NoRow

  /** The provider's state: the profile, whether it is hydrated, and the stored copy. */
  class ProfileProvider {
    var profile: UserProfile
    var isHydrated: bool
    var saved: Option<Saved>

    /** Mounting: the default profile, not hydrated, with whatever storage already holds. */
    constructor (stored: Option<Saved>)
      ensures profile == DefaultProfile() && !isHydrated && saved == stored
    {
      profile, isHydrated, saved := DefaultProfile(), false, stored;
    }

    /** `updateProfile`: merge the update and store the merged profile. */
    method UpdateProfile(data: ProfilePatch)
      modifies this
      ensures profile == ApplyPatch(old(profile), data)
      ensures saved == Some(SavedProfile(profile)) && isHydrated == old(isHydrated)
    {
      profile := ApplyPatch(profile, data);
      saved := Some(SavedProfile(profile));
    }

    /** No user id: restore what storage holds, if it parses, and mark the profile hydrated. */
    method HydrateFromStorage()
      modifies this
      ensures isHydrated && saved == old(saved)
      ensures profile == match old(saved)
        case Some(SavedProfile(p)) => p
        case Some(SavedRow(row)) => RowAsProfile(row)
        case _ => old(profile)
    {
      match saved {
        case Some(SavedProfile(p)) => profile := p;
        case Some(SavedRow(row)) => profile := RowAsProfile(row);
        case _ =>
      }
      isHydrated := true;
    }

    /** A signed-in user's query has settled: lay a row over the profile and store the row. */
    method ApplyFetch(outcome: FetchOutcome)
      modifies this
      ensures isHydrated
      ensures outcome.Row? ==> profile == MapRow(old(profile), outcome.row) && saved == Some(SavedRow(outcome.row))
      ensures !outcome.Row? ==> profile == old(profile) && saved == old(saved)
    {
      if outcome.Row? {
        profile := MapRow(profile, outcome.row);
        saved := Some(SavedRow(outcome.row));
      }
      isHydrated := true;
    }

    /** Sign-out: back to the default profile, storage cleared; hydration is untouched. */
    method SignOut()
      modifies this
      ensures profile == DefaultProfile() && saved == None && isHydrated == old(isHydrated)
    {
      profile := DefaultProfile();
      saved := None;
    }
  }

  /**
   * A fetched profile does not survive a reload without a session: after
   * `ApplyFetch` storage holds the raw row, `HydrateFromStorage` reads it back
   * as `RowAsProfile(row)`, and that loses every field but `id`.
   */
  lemma FetchedNameNotRestored(row: DatabaseProfile)
    ensures Get(RowAsProfile(row).text, Name) == None
    ensures !Complete(RowAsProfile(row))
  {
    assert IsRequired(Name);
  }
}
