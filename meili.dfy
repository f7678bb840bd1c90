/** The search-index documents and their conversions from the stored records
    (backend/src/models/meili.rs). */
module Meili {

  import opened Models
  import opened Seqs

  datatype MeiliSponsorField = MeiliSponsorField(name: string, value: string)

  /** An index sponsor: no image URL and no favours; tags are a hash set. */
  datatype MeiliSponsor = MeiliSponsor(
    id: Uuid,
    name: string,
    shortDescription: string,
    tags: set<string>,
    fields: seq<MeiliSponsorField>)

  datatype MeiliSponsorFavour = MeiliSponsorFavour(
    id: Uuid,
    sponsorUid: Uuid,
    condition: string,
    completed: bool,
    dueUntil: Timestamp)

  function FromField(f: SponsorField): MeiliSponsorField
  {
    MeiliSponsorField(f.name, f.value)
  }

  function FromFavour(f: SponsorFavour): MeiliSponsorFavour
  {
    MeiliSponsorFavour(f.uid, f.sponsorUid, f.condition, f.completed, f.dueUntil)
  }

  /** The elements of a stored tag list, as the index's hash set. */
  function TagSet(tags: seq<string>): (r: set<string>)
    ensures forall t :: t in r <==> t in tags
  {
    set t | t in tags
  }

  /** `From<Sponsor> for MeiliSponsor`. */
  function FromSponsor(s: Sponsor): (m: MeiliSponsor)
    ensures m.id == s.uid
    ensures m.name == s.name && m.shortDescription == s.shortDescription
    ensures forall t :: t in m.tags <==> t in s.tags
    ensures |m.fields| == |s.fields|
    ensures forall i :: 0 <= i < |s.fields| ==>
              m.fields[i].name == s.fields[i].name && m.fields[i].value == s.fields[i].value
  {
    MeiliSponsor(s.uid, s.name, s.shortDescription, TagSet(s.tags), MapSeq(FromField, s.fields))
  }

  /** `MeiliSponsorFavour::from_sponsor_vec`. */
  function FromSponsorVec(favours: seq<SponsorFavour>): (r: seq<MeiliSponsorFavour>)
    ensures |r| == |favours|
    ensures forall i :: 0 <= i < |favours| ==>
              && r[i].id == favours[i].uid
              && r[i].sponsorUid == favours[i].sponsorUid
              && r[i].condition == favours[i].condition
              && r[i].completed == favours[i].completed
              && r[i].dueUntil == favours[i].dueUntil
  {
    MapSeq(FromFavour, favours)
  }

  /** Two sponsors that differ only in image URL and favours index identically:
      neither reaches the index document. */
  lemma ImageAndFavoursNotIndexed(s: Sponsor, url: Wrappers.Option<string>, favours: seq<SponsorFavour>)
    ensures FromSponsor(s.(imageUrl := url, favours := favours)) == FromSponsor(s)
  {
  }
}
