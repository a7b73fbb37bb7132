/**
 * The saved-cards service: saving a profile to the signed-in user's wallet,
 * removing a saved card, checking whether a profile is saved, and turning
 * the wallet query's joined rows into the cards the wallet displays. The
 * database and the session are inputs: what the query returned, or the
 * error it failed with.
 */
module WalletService {
  import opened JsValues

  const UnknownCompany := "Unknown Company"
  const UnknownOwner := "Unknown Owner"
  const DefaultRole := "Member"
  const DuplicateKeyCode := "23505"
  const NotLoggedInMessage := "Must be logged in"

  /** The signed-in user's id, or None without a session. */
  type Session = Option<string>

  /** A database error, with its Postgres error code. */
  datatype DbError = DbError(code: string, message: string)

  /** The profile columns joined onto a saved card. */
  datatype JoinedProfile = JoinedProfile(
    id: string,
    ownerName: Option<string>,
    companyName: Option<string>,
    ownerRole: Option<string>,
    profileSlug: Option<string>,
    ownerPhotoUrl: Option<string>)

  /** A `saved_cards` row with its joined profile (None when the join found none). */
  datatype SavedItem = SavedItem(id: string, savedProfile: Option<JoinedProfile>)

  /** A card as the wallet shows it. */
  datatype CardDisplay = CardDisplay(
    id: string,
    profileId: Option<string>,
    company: string,
    owner: string,
    role: string,
    slug: Option<string>,
    avatarUrl: Option<string>)

  /** The nullable text columns of the joined profile. */
  datatype Column = OwnerNameCol | CompanyNameCol | OwnerRoleCol | ProfileSlugCol | OwnerPhotoUrlCol

  /** `item.saved_profile?.<column>`: None when the column is null or there is no joined profile. */
  function Joined(item: SavedItem, column: Column): Option<string> {
    match item.savedProfile
    case None => None
    case Some(p) =>
      match column
      case OwnerNameCol => p.ownerName
      case CompanyNameCol => p.companyName
      case OwnerRoleCol => p.ownerRole
      case ProfileSlugCol => p.profileSlug
      case OwnerPhotoUrlCol => p.ownerPhotoUrl
  }

  /** One joined row as a card: names fall back to their placeholders, ids and links pass through. */
  function ToDisplay(item: SavedItem): (d: CardDisplay)
    ensures d.id == item.id
    ensures d.profileId == if item.savedProfile.Some? then Some(item.savedProfile.value.id) else None
    ensures d.company == OrElse(Joined(item, CompanyNameCol), UnknownCompany)
    ensures d.owner == OrElse(Joined(item, OwnerNameCol), UnknownOwner)
    ensures d.role == OrElse(Joined(item, OwnerRoleCol), DefaultRole)
    ensures d.slug == Joined(item, ProfileSlugCol) && d.avatarUrl == Joined(item, OwnerPhotoUrlCol)
    ensures d.company != "" && d.owner != "" && d.role != ""
  {
    CardDisplay(
      item.id,
      if item.savedProfile.Some? then Some(item.savedProfile.value.id) else None,
      OrElse(Joined(item, CompanyNameCol), UnknownCompany),
      OrElse(Joined(item, OwnerNameCol), UnknownOwner),
      OrElse(Joined(item, OwnerRoleCol), DefaultRole),
      Joined(item, ProfileSlugCol),
      Joined(item, OwnerPhotoUrlCol))
  }

  /** A card whose joined profile is missing shows all three placeholders. */
  lemma MissingProfileShowsPlaceholders(id: string)
    ensures ToDisplay(SavedItem(id, None)) == CardDisplay(id, None, UnknownCompany, UnknownOwner, DefaultRole, None, None)
  {
  }

  /** `data.map(...)`: one card per row, in row order. */
  function ToDisplays(items: seq<SavedItem>): (ds: seq<CardDisplay>)
    ensures |ds| == |items|
    ensures forall i :: 0 <= i < |items| ==> ds[i] == ToDisplay(items[i])
  {
    if items == [] then [] else [ToDisplay(items[0])] + ToDisplays(items[1..])
  }

  /** The outcome of the wallet query. */
  datatype QueryResult = Rows(items: seq<SavedItem>) | QueryFailed(error: DbError)

  /** `getWalletCards`: no session or a failed query gives no cards; otherwise one card per row. */
  function GetWalletCards(session: Session, query: QueryResult): (cards: seq<CardDisplay>)
    ensures session.None? || query.QueryFailed? ==> cards == []
    ensures session.Some? && query.Rows? ==> |cards| == |query.items|
    ensures session.Some? && query.Rows? ==> forall i :: 0 <= i < |cards| ==> cards[i].id == query.items[i].id
    ensures session.Some? && query.Rows? ==> cards == ToDisplays(query.items)
  {
    if session.None? then []
    else match query
      case QueryFailed(_) => []
      case Rows(items) => ToDisplays(items)
  }

  /** What a service call throws: a plain error with a message, or the database's error as it came. */
  datatype Thrown = Error(message: string) | Database(error: DbError)

  /** What an awaited service call produced: a value, or what it threw. */
  datatype Outcome<T> = Returned(value: T) | Threw(thrown: Thrown)

  /** `addToWallet`'s result object: the inserted row, or the duplicate marker. */
  datatype AddResult = Saved(rowId: string) | AlreadySaved

  /** The outcome of the insert: the new row's id, or the database error. */
  datatype InsertResult = Inserted(rowId: string) | InsertFailed(error: DbError)

  /**
   * `addToWallet`: without a session it throws "Must be logged in"; a
   * duplicate-key failure becomes `already_saved`; any other failure is
   * thrown unchanged.
   */
  function AddToWallet(session: Session, insert: InsertResult): (r: Outcome<AddResult>)
    ensures session.None? ==> r == Threw(Error(NotLoggedInMessage))
    ensures session.Some? && insert.Inserted? ==> r == Returned(Saved(insert.rowId))
    ensures session.Some? && insert.InsertFailed? && insert.error.code == DuplicateKeyCode ==> r == Returned(AlreadySaved)
    ensures session.Some? && insert.InsertFailed? && insert.error.code != DuplicateKeyCode ==> r == Threw(Database(insert.error))
  {
    if session.None? then Threw(Error(NotLoggedInMessage))
    else match insert
      case Inserted(id) => Returned(Saved(id))
      case InsertFailed(error) => if error.code == DuplicateKeyCode then Returned(AlreadySaved) else Threw(Database(error))
  }

  /** Saving never reports `already_saved` unless the database refused a duplicate key. */
  lemma AlreadySavedOnlyOnDuplicate(session: Session, insert: InsertResult)
    requires AddToWallet(session, insert) == Returned(AlreadySaved)
    ensures session.Some? && insert.InsertFailed? && insert.error.code == DuplicateKeyCode
  {
  }

  /** `removeFromWallet`: true once the delete succeeds, the delete's error thrown otherwise. */
  function RemoveFromWallet(deleteError: Option<DbError>): (r: Outcome<bool>)
    ensures deleteError.None? <==> r == Returned(true)
    ensures deleteError.Some? ==> r == Threw(Database(deleteError.value))
  {
    if deleteError.Some? then Threw(Database(deleteError.value)) else Returned(true)
  }

  /** `isSaved`: signed in, and the lookup found a row (a failed lookup finds none). */
  function IsSaved(session: Session, foundRowId: Option<string>): (saved: bool)
    ensures saved <==> session.Some? && foundRowId.Some?
  {
    session.Some? && foundRowId.Some?
  }
}
