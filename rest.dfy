/** The REST shapes of sponsors and their conversions from the stored and the
    index records (backend/src/models/rest.rs). */
module Rest {

  import opened Wrappers
  import opened Models
  import opened Seqs
  import Meili

  datatype RestSponsorField = RestSponsorField(name: string, value: string)

  datatype RestSponsorFavour = RestSponsorFavour(
    uid: Option<Uuid>,
    sponsorUid: Option<Uuid>,
    condition: string,
    completed: bool,
    dueUntil: Timestamp)

  /** A sponsor as sent and received over REST; tags are a hash set. */
  datatype RestSponsor = RestSponsor(
    uid: Option<Uuid>,
    name: string,
    shortDescription: string,
    imageUrl: Option<string>,
    fields: seq<RestSponsorField>,
    tags: set<string>,
    favours: seq<RestSponsorFavour>,
    favoursCompleted: Option<bool>)

  function FromField(f: SponsorField): RestSponsorField
  {
    RestSponsorField(f.name, f.value)
  }

  /** The mapping back to the stored shape that the create and update handlers
      apply to each field. */
  function ToStoredField(f: RestSponsorField): SponsorField
  {
    SponsorField(f.name, f.value)
  }

  function FromFavour(f: SponsorFavour): RestSponsorFavour
  {
    RestSponsorFavour(Some(f.uid), Some(f.sponsorUid), f.condition, f.completed, f.dueUntil)
  }

  function FromMeiliFavour(f: Meili.MeiliSponsorFavour): RestSponsorFavour
  {
    RestSponsorFavour(Some(f.id), Some(f.sponsorUid), f.condition, f.completed, f.dueUntil)
  }

  /** `iter().all(|f| f.completed)`. */
  function AllCompleted(favours: seq<SponsorFavour>): (r: bool)
    ensures r <==> forall i :: 0 <= i < |favours| ==> favours[i].completed
  {
    if favours == [] then true else favours[0].completed && AllCompleted(favours[1..])
  }

  /** `From<Sponsor> for RestSponsor`. */
  function FromSponsor(s: Sponsor): (r: RestSponsor)
    ensures r.uid == Some(s.uid)
    ensures r.name == s.name && r.shortDescription == s.shortDescription
    ensures r.imageUrl == s.imageUrl
    ensures forall t :: t in r.tags <==> t in s.tags
    ensures r.favoursCompleted == Some(forall i :: 0 <= i < |s.favours| ==> s.favours[i].completed)
    ensures s.favours == [] ==> r.favoursCompleted == Some(true)
    ensures |r.fields| == |s.fields|
    ensures forall i :: 0 <= i < |s.fields| ==> ToStoredField(r.fields[i]) == s.fields[i]
    ensures |r.favours| == |s.favours|
    ensures forall i :: 0 <= i < |s.favours| ==>
              && r.favours[i].uid == Some(s.favours[i].uid)
              && r.favours[i].sponsorUid == Some(s.favours[i].sponsorUid)
              && r.favours[i].condition == s.favours[i].condition
              && r.favours[i].completed == s.favours[i].completed
              && r.favours[i].dueUntil == s.favours[i].dueUntil
  {
    RestSponsor(
      Some(s.uid),
      s.name,
      s.shortDescription,
      s.imageUrl,
      MapSeq(FromField, s.fields),
      Meili.TagSet(s.tags),
      MapSeq(FromFavour, s.favours),
      Some(AllCompleted(s.favours)))
  }

  /** Stored fields survive the trip to REST and back. */
  lemma FieldRoundTrip(f: SponsorField)
    ensures ToStoredField(FromField(f)) == f
  {
  }

  /** An index favour becomes the REST favour with uid = id, all else copied. */
  lemma IndexFavourAsRest(m: Meili.MeiliSponsorFavour)
    ensures FromMeiliFavour(m).uid == Some(m.id)
    ensures FromMeiliFavour(m).sponsorUid == Some(m.sponsorUid)
    ensures FromMeiliFavour(m).condition == m.condition
    ensures FromMeiliFavour(m).completed == m.completed
    ensures FromMeiliFavour(m).dueUntil == m.dueUntil
  {
  }

  /** Going through the index form and then to REST is the same as converting a
      stored favour list to REST directly (the search results agree with the
      sponsor's own favour list). */
  lemma IndexedFavoursAsRest(favours: seq<SponsorFavour>)
    ensures MapSeq(FromMeiliFavour, Meili.FromSponsorVec(favours)) == MapSeq(FromFavour, favours)
  {
    MapSeqCompose(Meili.FromFavour, FromMeiliFavour, FromFavour, favours);
  }
}
