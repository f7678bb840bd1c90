/** The `search` handler (backend/src/routes/search.rs): validates the query
    parameters, asks the search index for sponsor or favour hits, and answers
    `{"results": ...}`. The index searches and the store lookup are the
    parameters `searchSponsors`, `searchFavours` and `get`. */
module Search {

  import opened Wrappers
  import opened Models
  import opened Seqs
  import opened Http
  import Rest
  import Meili

  /** What `results` holds: REST sponsors or REST favours. */
  datatype Results =
    | SponsorResults(sponsors: seq<Rest.RestSponsor>)
    | FavourResults(favours: seq<Rest.RestSponsorFavour>)

  /** The body `{"results": ...}`. */
  datatype Body = Body(results: Results)

  /** `try_join_all` over the lookups of the hits, in hit order: all found
      values, or the error of a lookup that failed. */
  function JoinAll(ids: seq<Uuid>, get: Uuid -> Result<Option<Sponsor>, string>): (r: Result<seq<Option<Sponsor>>, string>)
    ensures r.Success? <==> forall i :: 0 <= i < |ids| ==> get(ids[i]).Success?
    ensures r.Success? ==> |r.value| == |ids| && forall i :: 0 <= i < |ids| ==> r.value[i] == get(ids[i]).value
    ensures r.Failure? ==> exists i :: 0 <= i < |ids| && get(ids[i]) == Failure(r.error)
  {
    if ids == [] then Success([])
    else
      match get(ids[0])
      case Failure(e) => Failure(e)
      case Success(x) =>
        match JoinAll(ids[1..], get)
        case Failure(e) =>
          assert exists i :: 0 <= i < |ids[1..]| && get(ids[1..][i]) == Failure(e);
          var i :| 0 <= i < |ids[1..]| && get(ids[1..][i]) == Failure(e);
          assert get(ids[i + 1]) == Failure(e);
          Failure(e)
        case Success(xs) =>
          assert forall i :: 1 <= i < |ids| ==> ids[i] == ids[1..][i - 1];
          Success([x] + xs)
  }

  function HitIds(hits: seq<Meili.MeiliSponsor>): (r: seq<Uuid>)
    ensures |r| == |hits| && forall i :: 0 <= i < |hits| ==> r[i] == hits[i].id
  {
    seq(|hits|, i requires 0 <= i < |hits| => hits[i].id)
  }

  const SponsorsType := "sponsors"
  const FavoursType := "favours"

  function Search(query: map<string, string>,
                  searchSponsors: string -> Result<seq<Meili.MeiliSponsor>, string>,
                  searchFavours: string -> Result<seq<Meili.MeiliSponsorFavour>, string>,
                  get: Uuid -> Result<Option<Sponsor>, string>): (r: Result<Body, AppError>)
    ensures "search" !in query ==> r == Failure(AppError(400, "no search query"))
    ensures "search" in query && "type" !in query ==> r == Failure(AppError(400, "no type query. must be sponsors or favours"))
    ensures "search" in query && "type" in query ==>
              (Lower(query["type"]) != SponsorsType && Lower(query["type"]) != FavoursType
               <==> r == Failure(AppError(400, "invalid type query")))
    ensures r.Success? ==> "search" in query && "type" in query
    ensures r.Success? && r.value.results.FavourResults? ==>
              searchFavours(query["search"]).Success?
              && r.value.results.favours == MapSeq(Rest.FromMeiliFavour, searchFavours(query["search"]).value)
    ensures "search" in query && "type" in query && Lower(query["type"]) == FavoursType ==>
              var found := searchFavours(query["search"]);
              && (r.Success? <==> found.Success?)
              && (r.Success? ==> r.value.results == FavourResults(MapSeq(Rest.FromMeiliFavour, found.value)))
              && (r.Failure? ==> r.error == FromError(found.error))
    ensures "search" in query && "type" in query && Lower(query["type"]) == SponsorsType ==>
              var hits := searchSponsors(query["search"]);
              && (r.Success? <==> hits.Success? && forall i :: 0 <= i < |hits.value| ==> get(hits.value[i].id).Success?)
              && (r.Success? ==> r.value.results.SponsorResults?)
              && (r.Failure? && hits.Failure? ==> r.error == FromError(hits.error))
              && (r.Failure? && hits.Success? ==>
                    exists i :: 0 <= i < |hits.value| && get(hits.value[i].id).Failure?
                                && r.error == FromError(get(hits.value[i].id).error))
  {
    if "search" !in query then Failure(AppError(400, "no search query"))
    else if "type" !in query then Failure(AppError(400, "no type query. must be sponsors or favours"))
    else Dispatch(query["search"], Lower(query["type"]), searchSponsors, searchFavours, get)
  }

  /** `match typ.to_lowercase().as_str() { ... }` (lines 21-32). */
  function Dispatch(search: string, typ: string,
                    searchSponsors: string -> Result<seq<Meili.MeiliSponsor>, string>,
                    searchFavours: string -> Result<seq<Meili.MeiliSponsorFavour>, string>,
                    get: Uuid -> Result<Option<Sponsor>, string>): Result<Body, AppError>
  {
    if typ == SponsorsType then
      match searchSponsors(search)
      case Failure(e) => Failure(FromError(e))
      case Success(hits) =>
        match JoinAll(HitIds(hits), get)
        case Failure(e) => Failure(FromError(e))
        case Success(found) => Success(Body(SponsorResults(MapSeq(Rest.FromSponsor, Flatten(found)))))
    else if typ == FavoursType then
      match searchFavours(search)
      case Failure(e) => Failure(FromError(e))
      case Success(hits) => Success(Body(FavourResults(MapSeq(Rest.FromMeiliFavour, hits))))
    else Failure(AppError(400, "invalid type query"))
  }

  /** The type is matched without regard to ASCII case. */
  lemma TypeCaseIgnored(query: map<string, string>,
                        searchSponsors: string -> Result<seq<Meili.MeiliSponsor>, string>,
                        searchFavours: string -> Result<seq<Meili.MeiliSponsorFavour>, string>,
                        get: Uuid -> Result<Option<Sponsor>, string>, t: string)
    ensures Search(query["type" := t], searchSponsors, searchFavours, get)
            == Search(query["type" := Lower(t)], searchSponsors, searchFavours, get)
  {
    LowerIdempotent(t);
  }

  /** Sponsor results are the sponsors found for the hits, in hit order:
      a hit whose lookup found nothing is dropped, every other one is kept. */
  lemma SponsorResultsInHitOrder(query: map<string, string>,
                                 searchSponsors: string -> Result<seq<Meili.MeiliSponsor>, string>,
                                 searchFavours: string -> Result<seq<Meili.MeiliSponsorFavour>, string>,
                                 get: Uuid -> Result<Option<Sponsor>, string>)
    requires "search" in query && "type" in query && Lower(query["type"]) == SponsorsType
    requires Search(query, searchSponsors, searchFavours, get).Success?
    ensures searchSponsors(query["search"]).Success?
    ensures var hits := searchSponsors(query["search"]).value;
      var found := seq(|hits|, i requires 0 <= i < |hits| => get(hits[i].id).value);
      var idx := Present(found);
      var rs := Search(query, searchSponsors, searchFavours, get).value.results;
      && (forall i :: 0 <= i < |hits| ==> get(hits[i].id).Success?)
      && rs.SponsorResults?
      && |rs.sponsors| == |idx|
      && forall k :: 0 <= k < |idx| ==> rs.sponsors[k] == Rest.FromSponsor(get(hits[idx[k]].id).value.value)
  {
    var hits := searchSponsors(query["search"]).value;
    var joined := JoinAll(HitIds(hits), get).value;
    var found := seq(|hits|, i requires 0 <= i < |hits| => get(hits[i].id).value);
    assert joined == found;
    FlattenPresent(found);
  }
}
