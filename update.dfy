/** The `update` handler (backend/src/routes/update.rs): favours without a uid
    are given fresh ones in place, the stored sponsor is built under the
    payload's uid, validated, and then the change is logged, the sponsor
    replaced, its logo dropped when it has no image URL, and both search
    indexes updated. `Uuid::new_v4` is the parameter `newId`: a favour at
    position `i` without a uid gets `newId(i)`. */
module Update {

  import opened Wrappers
  import opened Models
  import opened Seqs
  import opened Http
  import opened Store
  import Rest
  import Meili
  import Validation
  import Auth
  import Create

  /** `iter_mut().filter(uid is none).for_each(uid = new_v4())`: every favour
      ends with a uid; one it had is kept, a missing one is `newId` of its
      position, and nothing else about a favour changes. */
  method FillFavourUids(favours: seq<Rest.RestSponsorFavour>, newId: nat -> Uuid)
    returns (filled: seq<Rest.RestSponsorFavour>)
    ensures |filled| == |favours|
    ensures forall i :: 0 <= i < |favours| ==> filled[i].uid.Some?
    ensures forall i :: 0 <= i < |favours| && favours[i].uid.Some? ==> filled[i] == favours[i]
    ensures forall i :: 0 <= i < |favours| && favours[i].uid.None? ==>
              filled[i] == favours[i].(uid := Some(newId(i)))
  {
    filled := favours;
    var i := 0;
    while i < |filled|
      invariant 0 <= i <= |filled| == |favours|
      invariant forall j :: 0 <= j < i ==> filled[j].uid.Some?
      invariant forall j :: 0 <= j < i && favours[j].uid.Some? ==> filled[j] == favours[j]
      invariant forall j :: 0 <= j < i && favours[j].uid.None? ==> filled[j] == favours[j].(uid := Some(newId(j)))
      invariant filled[i..] == favours[i..]
    {
      assert filled[i] == filled[i..][0];
      if filled[i].uid.None? {
        filled := filled[i := filled[i].(uid := Some(newId(i)))];
      }
      assert filled[i + 1..] == filled[i..][1..];
      i := i + 1;
    }
  }

  /** The uids of favours that all have one. */
  function Uids(favours: seq<Rest.RestSponsorFavour>): (r: seq<Uuid>)
    requires forall i :: 0 <= i < |favours| ==> favours[i].uid.Some?
    ensures |r| == |favours| && forall i :: 0 <= i < |favours| ==> Some(r[i]) == favours[i].uid
  {
    seq(|favours|, i requires 0 <= i < |favours| => favours[i].uid.value)
  }

  /** The favour uids `update` ends with: the client's where sent, a fresh one
      where not. */
  function FilledUids(favours: seq<Rest.RestSponsorFavour>, newId: nat -> Uuid): (r: seq<Uuid>)
    ensures |r| == |favours| && forall i :: 0 <= i < |favours| ==> r[i] == FilledUid(favours[i].uid, newId(i))
  {
    seq<Uuid>(|favours|, i requires 0 <= i < |favours| => FilledUid(favours[i].uid, newId(i)))
  }

  function FilledUid(uid: Option<Uuid>, id: Uuid): Uuid
  {
    if uid.Some? then uid.value else id
  }

  /** The calls of `update` before the logo delete: the log and the replace. */
  function Before(who: string, s: Sponsor): seq<Call>
  {
    [AddChange(Change(who, ChangeSponsor(s))), Call.Update(s.uid, s)]
  }

  /** The calls of `update` after the logo delete: the two index upserts. */
  function After(s: Sponsor): seq<Call>
  {
    [IndexSponsor(Meili.FromSponsor(s)), IndexFavours(Meili.FromSponsorVec(s.favours))]
  }

  /** The calls of `update`, in order, each followed by `?` except the logo
      delete, which is made only when there is no image URL and whose error is
      ignored. */
  function Plan(who: string, s: Sponsor): seq<Step>
  {
    if s.imageUrl.None? then Fatal(Before(who, s)) + [Step(DeleteLogo(s.uid), false)] + Fatal(After(s))
    else Fatal(Before(who, s) + After(s))
  }

  /** What a completed update leaves: the change logged, the stored sponsor
      replaced if there was one (no upsert), the logo gone when `dropLogo`,
      both index documents upserted. */
  function Updated(db: Db, who: string, s: Sponsor, dropLogo: bool): Db
  {
    db.(changes := db.changes + [Change(who, ChangeSponsor(s))],
        sponsors := if s.uid in db.sponsors then db.sponsors[s.uid := s] else db.sponsors,
        logos := if dropLogo then db.logos - {s.uid} else db.logos,
        sponsorIndex := db.sponsorIndex[s.uid := Meili.FromSponsor(s)],
        favourIndex := UpsertFavours(db.favourIndex, Meili.FromSponsorVec(s.favours)))
  }

  /** The change is logged before the replace is attempted, and nothing after
      the replace happens unless it succeeded. */
  lemma LogBeforeReplace(db: Db, who: string, s: Sponsor, pos: nat, faulty: set<nat>)
    ensures var run := Simulate(db, Plan(who, s), pos, faulty);
      && (|run.entries| >= 2 ==>
            run.entries[0] == Entry(AddChange(Change(who, ChangeSponsor(s))), true)
            && run.entries[1].call == Call.Update(s.uid, s))
      && (|run.entries| >= 3 ==> run.entries[1] == Entry(Call.Update(s.uid, s), true))
  {
    var plan := Plan(who, s);
    SimulateCalls(db, plan, pos, faulty);
    if |Simulate(db, plan, pos, faulty).entries| >= 2 {
      EarlierFatalSucceeded(db, plan, pos, faulty, 0, 1);
    }
    if |Simulate(db, plan, pos, faulty).entries| >= 3 {
      EarlierFatalSucceeded(db, plan, pos, faulty, 1, 2);
    }
  }

  /** An update never creates a sponsor: without a stored sponsor under the
      uid, the sponsors are the same afterwards, however the run ends. */
  lemma ReplaceDoesNotUpsert(db: Db, who: string, s: Sponsor, pos: nat, faulty: set<nat>)
    requires s.uid !in db.sponsors
    ensures Simulate(db, Plan(who, s), pos, faulty).db.sponsors == db.sponsors
  {
    var plan := Plan(who, s);
    var run := Simulate(db, plan, pos, faulty);
    SimulateCalls(db, plan, pos, faulty);
    SimulateEffects(db, plan, pos, faulty);
    forall i | 0 <= i < |run.entries|
      ensures !run.entries[i].call.Insert?
      ensures run.entries[i].call.Update? ==> run.entries[i].call.uid !in db.sponsors
    {
      assert run.entries[i].call == plan[i].call;
    }
    SponsorsUntouched(db, run.entries);
  }

  /** An update with an image URL completes exactly when none of its four
      calls fails, and then leaves the logo alone. */
  lemma CompletesWithImage(db: Db, who: string, s: Sponsor, pos: nat, faulty: set<nat>)
    requires s.imageUrl.Some?
    ensures var run := Simulate(db, Plan(who, s), pos, faulty);
      && (run.failure.None? <==> forall k :: pos <= k < pos + 4 ==> k !in faulty)
      && (run.failure.None? ==> run.db == Updated(db, who, s, false))
  {
    var calls := Before(who, s) + After(s);
    SimulateFatal(db, calls, pos, faulty);
    NoInsertAllowed(db, calls);
    if Simulate(db, Plan(who, s), pos, faulty).failure.None? {
      SimulateFatalEffects(db, calls, pos, faulty);
      ApplyAllFour(db, calls);
    }
  }

  /** An update without an image URL completes exactly when the log, the
      replace and the two index calls do not fail, whatever becomes of the logo
      delete between them. */
  lemma CompletesWithoutImage(db: Db, who: string, s: Sponsor, pos: nat, faulty: set<nat>)
    requires s.imageUrl.None?
    ensures Simulate(db, Plan(who, s), pos, faulty).failure.None?
            <==> pos !in faulty && pos + 1 !in faulty && pos + 3 !in faulty && pos + 4 !in faulty
  {
    var before, after := Before(who, s), After(s);
    SimulateIgnoring(db, before, DeleteLogo(s.uid), after, pos, faulty);
    NoInsertAllowed(db, before);
    var db2 := ApplyAll(db, before);
    NoInsertAllowed(if pos + 2 in faulty then db2 else Apply(db2, DeleteLogo(s.uid)), after);
  }

  /** A completed update without an image URL whose logo delete succeeded
      has dropped the stored logo. */
  lemma LogoDropped(db: Db, who: string, s: Sponsor, pos: nat, faulty: set<nat>)
    requires s.imageUrl.None? && pos + 2 !in faulty
    requires Simulate(db, Plan(who, s), pos, faulty).failure.None?
    ensures Simulate(db, Plan(who, s), pos, faulty).db == Updated(db, who, s, true)
  {
    var before, after := Before(who, s), After(s);
    SimulateIgnoringEffects(db, before, DeleteLogo(s.uid), after, pos, faulty);
    ApplyAllTwo(db, before);
    ApplyAllTwo(Apply(ApplyAll(db, before), DeleteLogo(s.uid)), after);
  }

  /** A logo delete that fails is ignored: the update still completes and the
      stored logo stays. */
  lemma LogoDeleteFailureIgnored(db: Db, who: string, s: Sponsor, pos: nat, faulty: set<nat>)
    requires s.imageUrl.None? && pos + 2 in faulty
    requires Simulate(db, Plan(who, s), pos, faulty).failure.None?
    ensures Simulate(db, Plan(who, s), pos, faulty).db == Updated(db, who, s, false)
  {
    var before, after := Before(who, s), After(s);
    SimulateIgnoringEffects(db, before, DeleteLogo(s.uid), after, pos, faulty);
    ApplyAllTwo(db, before);
    ApplyAllTwo(ApplyAll(db, before), after);
  }

  /** `update`: a payload without a uid panics at `unwrap` before any store
      call; otherwise the sponsor is built from the filled favours and owned by
      the payload's uid, a rejected sponsor is a 400 with the validator's
      message and touches no store, and an accepted one runs the plan and is
      answered in its REST form. */
  method Update(store: Store, user: Auth.User, payload: Rest.RestSponsor, newId: nat -> Uuid)
    returns (r: Outcome<Rest.RestSponsor>, ghost s: Sponsor, ghost es: seq<Entry>)
    requires store.Valid()
    modifies store
    ensures store.Valid()
    ensures store.journal == old(store.journal) + es
    ensures payload.uid.None? ==> r == Panicked && es == [] && store.db == old(store.db)
    ensures payload.uid.Some? ==>
              && Distinct(s.tags) && Elems(s.tags) == payload.tags
              && s == Create.Build(payload, payload.uid.value, FilledUids(payload.favours, newId), s.tags)
    ensures payload.uid.Some? && Validation.AssertSponsor(s).Failure? ==>
              && r == Failed(AppError(400, Validation.AssertSponsor(s).error))
              && es == [] && store.db == old(store.db)
    ensures payload.uid.Some? && Validation.AssertSponsor(s).Success? ==>
              Handled(Simulate(old(store.db), Plan(user.email, s), |old(store.journal)|, store.faulty),
                      store.db, es, r, Rest.FromSponsor(s))
  {
    var favours := FillFavourUids(payload.favours, newId);
    var p := payload.(favours := favours);
    es := [];
    if p.uid.None? {
      s := Sponsor(0, "", "", None, [], [], []);
      return Panicked, s, es;
    }
    var tags := Enumerate(p.tags);
    assert Elems(tags) == payload.tags;
    var sponsor := Create.Build(p, p.uid.value, Uids(favours), tags);
    s := sponsor;
    assert Uids(favours) == FilledUids(payload.favours, newId);
    assert s.favours == Create.Build(payload, payload.uid.value, Uids(favours), s.tags).favours;
    var check := Validation.AssertSponsor(sponsor);
    if check.Failure? {
      return Failed(AppError(400, check.error)), s, es;
    }
    var e;
    e, es := Persist(store, user.email, sponsor);
    r := if e.Success? then Done(Rest.FromSponsor(sponsor)) else Failed(FromError(e.error));
  }

  /** The awaited calls of `update` for a validated sponsor; the first fatal
      one that fails ends the handler with its error. */
  method Persist(store: Store, who: string, s: Sponsor) returns (r: Result<(), string>, ghost es: seq<Entry>)
    requires store.Valid()
    modifies store
    ensures store.Valid()
    ensures store.journal == old(store.journal) + es
    ensures Simulate(old(store.db), Plan(who, s), |old(store.journal)|, store.faulty)
            == Run(store.db, es, if r.Success? then None else Some(r.error))
  {
    var plan := Plan(who, s);
    ghost var db0, j0 := store.db, store.journal;
    store.Begin(plan);
    es := [];
    r, es := store.Next(plan, 0, db0, j0, es);
    if r.Failure? { return; }
    r, es := store.Next(plan, 1, db0, j0, es);
    if r.Failure? { return; }
    var k := 2;
    if s.imageUrl.None? {
      var ignored;
      ignored, es := store.Next(plan, 2, db0, j0, es);
      k := 3;
    }
    r, es := Reindex(store, plan, k, db0, j0, es);
  }

  /** The two index calls that end `update`'s plan, both followed by `?`. */
  method Reindex(store: Store, plan: seq<Step>, k: nat, ghost db0: Db, ghost j0: seq<Entry>, ghost es: seq<Entry>)
    returns (r: Result<(), string>, ghost es1: seq<Entry>)
    requires store.Midway(plan, k, db0, j0, es) && k + 2 == |plan|
    requires plan[k].fatal && plan[k + 1].fatal
    modifies store
    ensures store.Valid()
    ensures store.journal == j0 + es1
    ensures Simulate(db0, plan, |j0|, store.faulty) == Run(store.db, es1, if r.Success? then None else Some(r.error))
  {
    es1 := es;
    r, es1 := store.Next(plan, k, db0, j0, es1);
    if r.Failure? { return; }
    r, es1 := store.Next(plan, k + 1, db0, j0, es1);
    if r.Failure? { return; }
    store.Finish(plan, db0, j0, es1);
  }
}
