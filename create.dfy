/** The `create` handler (backend/src/routes/create.rs): the stored sponsor is
    built from the REST payload under fresh ids, validated, and then the change
    is logged, the sponsor inserted and both search indexes updated, each call
    followed by `?`. `Uuid::new_v4` is the parameter `newId`: the sponsor's uid
    is `uid` and the `i`-th favour's is `newId(i)`. */
module Create {

  import opened Wrappers
  import opened Models
  import opened Seqs
  import opened Http
  import opened Store
  import Rest
  import Meili
  import Validation
  import Auth

  /** The stored sponsor the handlers build from a payload: uid `uid`, the
      `i`-th favour gets uid `favourUids[i]` and is owned by `uid`; `tags` is
      the order in which the payload's tag set is yielded. */
  function Build(p: Rest.RestSponsor, uid: Uuid, favourUids: seq<Uuid>, tags: seq<string>): (s: Sponsor)
    requires |favourUids| == |p.favours|
    ensures s.uid == uid && s.tags == tags
    ensures s.name == p.name && s.shortDescription == p.shortDescription && s.imageUrl == p.imageUrl
    ensures |s.fields| == |p.fields|
    ensures forall i :: 0 <= i < |p.fields| ==>
              s.fields[i].name == p.fields[i].name && s.fields[i].value == p.fields[i].value
    ensures |s.favours| == |p.favours|
    ensures forall i :: 0 <= i < |p.favours| ==>
              && s.favours[i].uid == favourUids[i]
              && s.favours[i].sponsorUid == uid
              && s.favours[i].condition == p.favours[i].condition
              && s.favours[i].completed == p.favours[i].completed
              && s.favours[i].dueUntil == p.favours[i].dueUntil
  {
    Sponsor(
      uid,
      p.name,
      p.shortDescription,
      p.imageUrl,
      MapSeq(Rest.ToStoredField, p.fields),
      tags,
      seq(|p.favours|, i requires 0 <= i < |p.favours| =>
        SponsorFavour(favourUids[i], uid, p.favours[i].condition, p.favours[i].completed, p.favours[i].dueUntil)))
  }

  /** The favour uids `create` draws: one fresh id per favour, in order. */
  function FreshUids(n: nat, newId: nat -> Uuid): (r: seq<Uuid>)
    ensures |r| == n && forall i :: 0 <= i < n ==> r[i] == newId(i)
  {
    seq(n, i requires 0 <= i < n => newId(i))
  }

  /** The sponsor `create` stores. */
  function NewSponsor(p: Rest.RestSponsor, uid: Uuid, newId: nat -> Uuid, tags: seq<string>): Sponsor
  {
    Build(p, uid, FreshUids(|p.favours|, newId), tags)
  }

  /** The ids a client sends, for the sponsor and for each favour, are
      discarded: payloads that differ only in them build the same sponsor. */
  lemma ClientIdsDiscarded(p: Rest.RestSponsor, q: Rest.RestSponsor, uid: Uuid, newId: nat -> Uuid, tags: seq<string>)
    requires p.(uid := None, favours := []) == q.(uid := None, favours := [])
    requires |p.favours| == |q.favours|
    requires forall i :: 0 <= i < |p.favours| ==>
               p.favours[i].(uid := None, sponsorUid := None) == q.favours[i].(uid := None, sponsorUid := None)
    ensures NewSponsor(p, uid, newId, tags) == NewSponsor(q, uid, newId, tags)
  {
    var s, t := NewSponsor(p, uid, newId, tags), NewSponsor(q, uid, newId, tags);
    assert p.fields == q.fields by {
      assert p.(uid := None, favours := []).fields == q.(uid := None, favours := []).fields;
    }
    forall i | 0 <= i < |p.favours| ensures s.favours[i] == t.favours[i] {
      assert p.favours[i].(uid := None, sponsorUid := None).condition == q.favours[i].(uid := None, sponsorUid := None).condition;
      assert p.favours[i].(uid := None, sponsorUid := None).dueUntil == q.favours[i].(uid := None, sponsorUid := None).dueUntil;
    }
  }

  /** The calls of `create`, in order; every one is followed by `?`. */
  function Calls(who: string, s: Sponsor): seq<Call>
  {
    [ AddChange(Change(who, AddSponsor(s))),
      Insert(s),
      IndexSponsor(Meili.FromSponsor(s)),
      IndexFavours(Meili.FromSponsorVec(s.favours)) ]
  }

  function Plan(who: string, s: Sponsor): seq<Step>
  {
    Fatal(Calls(who, s))
  }

  /** What a completed create leaves: the change logged, the sponsor stored
      under its uid, its index document and its favours' documents upserted. */
  function Created(db: Db, who: string, s: Sponsor): Db
  {
    db.(changes := db.changes + [Change(who, AddSponsor(s))],
        sponsors := db.sponsors[s.uid := s],
        sponsorIndex := db.sponsorIndex[s.uid := Meili.FromSponsor(s)],
        favourIndex := UpsertFavours(db.favourIndex, Meili.FromSponsorVec(s.favours)))
  }

  /** The change is logged before the insert is attempted, and the indexes are
      touched only after the insert succeeded. */
  lemma LogBeforeInsert(db: Db, who: string, s: Sponsor, pos: nat, faulty: set<nat>)
    ensures var run := Simulate(db, Plan(who, s), pos, faulty);
      && (|run.entries| >= 2 ==>
            run.entries[0] == Entry(AddChange(Change(who, AddSponsor(s))), true) && run.entries[1].call == Insert(s))
      && (|run.entries| >= 3 ==> run.entries[1] == Entry(Insert(s), true))
  {
    var plan := Plan(who, s);
    SimulateCalls(db, plan, pos, faulty);
    if |Simulate(db, plan, pos, faulty).entries| >= 2 {
      EarlierFatalSucceeded(db, plan, pos, faulty, 0, 1);
    }
    if |Simulate(db, plan, pos, faulty).entries| >= 3 {
      EarlierFatalSucceeded(db, plan, pos, faulty, 1, 2);
    }
  }

  /** A create completes exactly when none of its four calls fails for outside
      reasons and the uid is not taken. */
  lemma CreateCompletes(db: Db, who: string, s: Sponsor, pos: nat, faulty: set<nat>)
    ensures Simulate(db, Plan(who, s), pos, faulty).failure.None?
            <==> s.uid !in db.sponsors && forall k :: pos <= k < pos + 4 ==> k !in faulty
  {
    var calls := Calls(who, s);
    SimulateFatal(db, calls, pos, faulty);
    assert calls[0..] == calls && calls[4..] == [];
    ApplyAllFrom(db, calls, 0);
    var db1 := Apply(db, calls[0]);
    ApplyAllFrom(db1, calls, 1);
    var db2 := Apply(db1, calls[1]);
    ApplyAllFrom(db2, calls, 2);
    ApplyAllFrom(Apply(db2, calls[2]), calls, 3);
  }

  /** A completed create leaves `Created`. */
  lemma CreateEffects(db: Db, who: string, s: Sponsor, pos: nat, faulty: set<nat>)
    requires Simulate(db, Plan(who, s), pos, faulty).failure.None?
    ensures Simulate(db, Plan(who, s), pos, faulty).db == Created(db, who, s)
  {
    var calls := Calls(who, s);
    SimulateFatalEffects(db, calls, pos, faulty);
    ApplyAllFour(db, calls);
  }

  /** A create under a uid that is taken still leaves its change-log entry:
      the log is written before the insert that fails. */
  lemma TakenUidStillLogged(db: Db, who: string, s: Sponsor, pos: nat, faulty: set<nat>)
    requires s.uid in db.sponsors && pos !in faulty
    ensures Simulate(db, Plan(who, s), pos, faulty)
            == Run(db.(changes := db.changes + [Change(who, AddSponsor(s))]),
                   [Entry(AddChange(Change(who, AddSponsor(s))), true), Entry(Insert(s), false)],
                   Some(DuplicateKey))
  {
    var plan := Plan(who, s);
    assert plan[1..] == [plan[1], plan[2], plan[3]];
  }

  /** `create`: the payload's uid is replaced by `uid` (line 15), the sponsor
      built and validated; a rejected sponsor is a 400 with the validator's
      message and touches no store, otherwise the plan runs and the answer is
      the REST form of the stored sponsor. */
  method Create(store: Store, user: Auth.User, payload: Rest.RestSponsor, uid: Uuid, newId: nat -> Uuid)
    returns (r: Outcome<Rest.RestSponsor>, ghost s: Sponsor, ghost es: seq<Entry>)
    requires store.Valid()
    modifies store
    ensures store.Valid()
    ensures Distinct(s.tags) && Elems(s.tags) == payload.tags
    ensures s == NewSponsor(payload, uid, newId, s.tags)
    ensures store.journal == old(store.journal) + es
    ensures Validation.AssertSponsor(s).Failure? ==>
              && r == Failed(AppError(400, Validation.AssertSponsor(s).error))
              && es == [] && store.db == old(store.db)
    ensures Validation.AssertSponsor(s).Success? ==>
              Handled(Simulate(old(store.db), Plan(user.email, s), |old(store.journal)|, store.faulty),
                      store.db, es, r, Rest.FromSponsor(s))
  {
    var p := payload.(uid := Some(uid));
    var tags := Enumerate(p.tags);
    assert Elems(tags) == payload.tags;
    var sponsor := Build(p, p.uid.value, FreshUids(|p.favours|, newId), tags);
    s, es := sponsor, [];
    var check := Validation.AssertSponsor(sponsor);
    if check.Failure? {
      return Failed(AppError(400, check.error)), s, es;
    }
    var e;
    e, es := Persist(store, user.email, sponsor);
    r := if e.Success? then Done(Rest.FromSponsor(sponsor)) else Failed(FromError(e.error));
  }

  /** The four awaited calls of `create` for a validated sponsor; the first
      that fails ends the handler with its error. */
  method Persist(store: Store, who: string, s: Sponsor) returns (r: Result<(), string>, ghost es: seq<Entry>)
    requires store.Valid()
    modifies store
    ensures store.Valid()
    ensures store.journal == old(store.journal) + es
    ensures Simulate(old(store.db), Plan(who, s), |old(store.journal)|, store.faulty)
            == Run(store.db, es, if r.Success? then None else Some(r.error))
  {
    var plan := Plan(who, s);
    ghost var db0, j0 := store.db, store.journal;
    store.Begin(plan);
    es := [];
    r, es := store.Next(plan, 0, db0, j0, es);
    if r.Failure? { return; }
    r, es := store.Next(plan, 1, db0, j0, es);
    if r.Failure? { return; }
    r, es := store.Next(plan, 2, db0, j0, es);
    if r.Failure? { return; }
    r, es := store.Next(plan, 3, db0, j0, es);
    if r.Failure? { return; }
    store.Finish(plan, db0, j0, es);
  }
}
