/** The frontend's main store (frontend/stores/main.ts): the list of
    sponsors the pages show and the time of the last full fetch. HTTP
    responses are parameters; a request that fails is a `Failure`. The HTTP
    client's response interceptor (frontend/utils/http.ts:29-40) swallows a
    failed request, which then resolves with `undefined`. A function that goes
    on to read `res.data` throws there and stops, as the `Failure` branches
    below do. `deleteSponsor` reads nothing, so it carries on. */
module FrontStore {

  import opened Wrappers
  import opened Models
  import opened Seqs
  import Rest

  /** The throttle window of `fetchAllSponsors`, in milliseconds. */
  const FetchWindow := 4000

  /** The sponsors without those whose uid equals `uid`
      (`filter((s) => s.uid !== uid)`). */
  function Without(xs: seq<Rest.RestSponsor>, uid: Option<Uuid>): seq<Rest.RestSponsor>
    decreases |xs|
  {
    if xs == [] then []
    else
      var last := xs[|xs| - 1];
      Without(xs[..|xs| - 1], uid) + if last.uid == uid then [] else [last]
  }

  /** A sponsor survives the filter exactly when it was listed under another uid. */
  lemma {:induction false} WithoutMembers(xs: seq<Rest.RestSponsor>, uid: Option<Uuid>, s: Rest.RestSponsor)
    decreases |xs|
    ensures s in Without(xs, uid) <==> s in xs && s.uid != uid
  {
    if xs != [] {
      var init := xs[..|xs| - 1];
      WithoutMembers(init, uid, s);
      assert xs == init + [xs[|xs| - 1]];
    }
  }

  /** Each sponsor, kept or not. */
  function Kept(xs: seq<Rest.RestSponsor>, uid: Option<Uuid>): (r: seq<Option<Rest.RestSponsor>>)
    ensures |r| == |xs| && forall i :: 0 <= i < |xs| ==> r[i] == if xs[i].uid != uid then Some(xs[i]) else None
  {
    seq(|xs|, i requires 0 <= i < |xs| => if xs[i].uid != uid then Some(xs[i]) else None)
  }

  /** The filter keeps the other sponsors in their order: it is the
      flattening of the kept ones, so by `FlattenPresent` the `k`-th survivor
      is the `k`-th sponsor with another uid. */
  lemma {:induction false} WithoutKeepsOrder(xs: seq<Rest.RestSponsor>, uid: Option<Uuid>)
    decreases |xs|
    ensures Without(xs, uid) == Flatten(Kept(xs, uid))
  {
    if xs != [] {
      var n := |xs| - 1;
      WithoutKeepsOrder(xs[..n], uid);
      assert Kept(xs, uid)[..n] == Kept(xs[..n], uid);
    }
  }

  /** `getAllFavours`: every sponsor's favours, in list order. */
  function AllFavours(xs: seq<Rest.RestSponsor>): seq<Rest.RestSponsorFavour>
  {
    if xs == [] then [] else xs[0].favours + AllFavours(xs[1..])
  }

  /** Concatenating lists concatenates their favours. */
  lemma {:induction false} AllFavoursAppend(xs: seq<Rest.RestSponsor>, ys: seq<Rest.RestSponsor>)
    decreases |xs|
    ensures AllFavours(xs + ys) == AllFavours(xs) + AllFavours(ys)
  {
    if xs != [] {
      assert (xs + ys)[1..] == xs[1..] + ys;
      AllFavoursAppend(xs[1..], ys);
    } else {
      assert xs + ys == ys;
    }
  }

  /** A favour is listed exactly when some sponsor of the list holds it. */
  lemma {:induction false} AllFavoursMembers(xs: seq<Rest.RestSponsor>, f: Rest.RestSponsorFavour)
    decreases |xs|
    ensures f in AllFavours(xs) <==> exists i :: 0 <= i < |xs| && f in xs[i].favours
  {
    if xs != [] {
      AllFavoursMembers(xs[1..], f);
      if f in AllFavours(xs[1..]) {
        var i :| 0 <= i < |xs[1..]| && f in xs[1..][i].favours;
        assert f in xs[i + 1].favours;
      }
      if exists i :: 0 <= i < |xs| && f in xs[i].favours {
        var i :| 0 <= i < |xs| && f in xs[i].favours;
        if i > 0 {
          assert xs[1..][i - 1] == xs[i];
        }
      }
    }
  }

  /** After replacing, exactly one sponsor has the new one's uid, and it is
      the last. */
  lemma ReplacedIsLastAndOnly(xs: seq<Rest.RestSponsor>, s: Rest.RestSponsor)
    ensures var r := Without(xs, s.uid) + [s];
      forall i :: 0 <= i < |r| ==> (r[i].uid == s.uid <==> i == |r| - 1)
  {
    var w := Without(xs, s.uid);
    forall i | 0 <= i < |w| ensures w[i].uid != s.uid {
      WithoutMembers(xs, s.uid, w[i]);
    }
  }

  /** `fetchAllSponsors`' throttle: the time of the last fetch after a call
      at `now`. */
  function NextFetch(last: int, now: int): int
  {
    if last + FetchWindow > now then last else now
  }

  /** The calls, at the given times, that send a request. */
  function Requests(last: int, times: seq<int>): seq<int>
    decreases |times|
  {
    if times == [] then []
    else
      var rest := Requests(NextFetch(last, times[0]), times[1..]);
      if last + FetchWindow > times[0] then rest else [times[0]] + rest
  }

  /** Over any run of calls, two requests are at least 4000 ms apart (taking
      the clock as not going backwards), and the first one is 4000 ms after
      the last fetch before the run. */
  lemma {:induction false} RequestsSpaced(last: int, times: seq<int>)
    requires forall i, j :: 0 <= i < j < |times| ==> times[i] <= times[j]
    decreases |times|
    ensures var r := Requests(last, times);
      && (|r| > 0 ==> r[0] >= last + FetchWindow)
      && forall k :: 0 < k < |r| ==> r[k] >= r[k - 1] + FetchWindow
  {
    if times != [] {
      var next := NextFetch(last, times[0]);
      RequestsSpaced(next, times[1..]);
      var rest := Requests(next, times[1..]);
      if last + FetchWindow <= times[0] {
        var r := Requests(last, times);
        assert r == [times[0]] + rest;
        forall k | 0 < k < |r| ensures r[k] >= r[k - 1] + FetchWindow {
          if k > 1 {
            assert r[k] == rest[k - 1] && r[k - 1] == rest[k - 2];
          }
        }
      }
    }
  }

  /** The path a sponsor is saved to. */
  function SavePath(update: bool): string
  {
    if update then "/update" else "/create"
  }

  /** The save path names the handler the flag chooses. */
  lemma SavePathChosen(update: bool)
    ensures SavePath(update) == "/update" <==> update
    ensures SavePath(update) == "/create" <==> !update
  {
  }

  /** A request the store sends. */
  datatype Request =
    | Save(path: string, body: Rest.RestSponsor)
    | UploadLogo(sponsorUid: Option<Uuid>, data: seq<Byte>)
    | Delete(uid: Option<Uuid>)

  /** `data.imageUrl + "?t=" + ...`: the cache-busting suffix. The backend
      sends an absent URL as JSON `null`, which the concatenation turns into
      the text "null". */
  function Stamped(s: Rest.RestSponsor, stamp: string): Rest.RestSponsor
  {
    s.(imageUrl := Some((if s.imageUrl.Some? then s.imageUrl.value else "null") + "?t=" + stamp))
  }

  class MainStore {
    var sponsors: seq<Rest.RestSponsor>
    /** `_lastFetchAllSponsor`, in milliseconds since the epoch. */
    var lastFetch: int

    constructor ()
      ensures sponsors == [] && lastFetch == 0
    {
      sponsors := [];
      lastFetch := 0;
    }

    /** `_replaceSponsor`: drop every sponsor with the uid, then push. */
    method ReplaceSponsor(s: Rest.RestSponsor)
      modifies this
      ensures sponsors == Without(old(sponsors), s.uid) + [s]
      ensures lastFetch == old(lastFetch)
    {
      sponsors := Without(sponsors, s.uid);
      sponsors := sponsors + [s];
    }

    /** `deleteSponsor`: posts the delete request and then drops every
        sponsor with the uid. The request's answer is never read, and a
        failed request resolves (see the module comment), so the sponsor is
        dropped whether or not the backend deleted it. */
    method DeleteSponsor(s: Rest.RestSponsor) returns (requests: seq<Request>)
      modifies this
      ensures requests == [Delete(s.uid)]
      ensures sponsors == Without(old(sponsors), s.uid)
      ensures forall x :: x in sponsors <==> x in old(sponsors) && x.uid != s.uid
      ensures lastFetch == old(lastFetch)
    {
      requests := [Delete(s.uid)];
      sponsors := Without(sponsors, s.uid);
      WithoutMembers(old(sponsors), s.uid, s);
      forall x ensures x in sponsors <==> x in old(sponsors) && x.uid != s.uid {
        WithoutMembers(old(sponsors), s.uid, x);
      }
    }

    /** `fetchAllSponsors` at time `now`: within the window of the last fetch
        nothing happens; otherwise the time is recorded before the request,
        and a successful answer replaces the list. */
    method FetchAllSponsors(now: int, fetched: Result<seq<Rest.RestSponsor>, string>) returns (requested: bool)
      modifies this
      ensures requested <==> old(lastFetch) + FetchWindow <= now
      ensures lastFetch == NextFetch(old(lastFetch), now)
      ensures sponsors == if requested && fetched.Success? then fetched.value else old(sponsors)
    {
      if lastFetch + FetchWindow > now {
        return false;
      }
      lastFetch := now;
      requested := true;
      if fetched.Success? {
        sponsors := fetched.value;
      }
    }

    /** `fetchSingleSponsor`: the fetched sponsor replaces its namesakes. */
    method FetchSingleSponsor(fetched: Result<Rest.RestSponsor, string>)
      modifies this
      ensures sponsors == if fetched.Success? then Without(old(sponsors), fetched.value.uid) + [fetched.value] else old(sponsors)
      ensures lastFetch == old(lastFetch)
    {
      if fetched.Failure? {
        return;
      }
      ReplaceSponsor(fetched.value);
    }

    /** `createOrUpdateSponsor`: posts the sponsor to the save path; when a
        logo is given, uploads it for the saved sponsor's uid and takes the
        answer with a stamped image URL; the result replaces its namesakes. */
    method CreateOrUpdateSponsor(sponsor: Rest.RestSponsor, update: bool, logo: Option<seq<Byte>>,
                                 saved: Result<Rest.RestSponsor, string>,
                                 uploaded: Result<Rest.RestSponsor, string>, stamp: string)
      returns (r: Result<Rest.RestSponsor, string>, requests: seq<Request>)
      modifies this
      ensures |requests| >= 1 && requests[0] == Save(SavePath(update), sponsor)
      ensures |requests| == 2 <==> saved.Success? && logo.Some?
      ensures |requests| == 2 ==> requests[1] == UploadLogo(saved.value.uid, logo.value)
      ensures |requests| <= 2
      ensures r.Success? <==> saved.Success? && (logo.Some? ==> uploaded.Success?)
      ensures r.Success? ==> r.value == if logo.None? then saved.value else Stamped(uploaded.value, stamp)
      ensures sponsors == if r.Success? then Without(old(sponsors), r.value.uid) + [r.value] else old(sponsors)
      ensures lastFetch == old(lastFetch)
    {
      requests := [Save(SavePath(update), sponsor)];
      if saved.Failure? {
        return Failure(saved.error), requests;
      }
      var data := saved.value;
      if logo.Some? {
        requests := requests + [UploadLogo(data.uid, logo.value)];
        if uploaded.Failure? {
          return Failure(uploaded.error), requests;
        }
        data := Stamped(uploaded.value, stamp);
      }
      ReplaceSponsor(data);
      r := Success(data);
    }
  }
}
