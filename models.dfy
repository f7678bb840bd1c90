/** The stored records (backend/src/models/mongo.rs) and the role and change-log
    records the handlers write. */
module Models {

  import opened Wrappers

  /** A UUID is a 128-bit value. */
  type Uuid = n: nat | n < 0x1_0000_0000_0000_0000_0000_0000_0000_0000

  type Byte = b: int | 0 <= b < 256

  /** Seconds since the epoch (chrono timestamps). */
  type Timestamp = int

  datatype SponsorField = SponsorField(name: string, value: string)

  datatype SponsorFavour = SponsorFavour(
    uid: Uuid,
    sponsorUid: Uuid,
    condition: string,
    completed: bool,
    dueUntil: Timestamp)

  /** A sponsor as stored; `tags` is a Vec in the stored shape. */
  datatype Sponsor = Sponsor(
    uid: Uuid,
    name: string,
    shortDescription: string,
    imageUrl: Option<string>,
    fields: seq<SponsorField>,
    tags: seq<string>,
    favours: seq<SponsorFavour>)

  datatype Role = USER | ADMIN

  /** One record of the role collection, keyed by email. */
  datatype UserRole = UserRole(email: string, role: Role)

  datatype ChangeType =
    | AddSponsor(sponsor: Sponsor)
    | ChangeSponsor(sponsor: Sponsor)
    | ChangeLogo(sponsor: Sponsor)
    | ChangeUserRole(userRole: UserRole)

  /** A change-log entry: who made the change and what it was. */
  datatype Change = Change(who: string, what: ChangeType)
}
