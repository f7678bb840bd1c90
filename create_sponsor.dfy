/** The `create_sponsor` handler (backend/src/routes/create_sponsor.rs): like
    `create` it builds the stored sponsor under fresh ids, but it neither
    validates the sponsor nor logs a change; it inserts the sponsor and
    updates both search indexes, each call followed by `?`. */
module CreateSponsor {

  import opened Wrappers
  import opened Models
  import opened Seqs
  import opened Http
  import opened Store
  import Rest
  import Meili
  import Auth
  import Create

  /** The calls of `create_sponsor`, in order; every one is followed by `?`. */
  function Calls(s: Sponsor): seq<Call>
  {
    [ Insert(s),
      IndexSponsor(Meili.FromSponsor(s)),
      IndexFavours(Meili.FromSponsorVec(s.favours)) ]
  }

  function Plan(s: Sponsor): seq<Step>
  {
    Fatal(Calls(s))
  }

  /** What a completed `create_sponsor` leaves: the sponsor stored under its
      uid and its index documents upserted; the change log is not touched. */
  function Created(db: Db, s: Sponsor): Db
  {
    db.(sponsors := db.sponsors[s.uid := s],
        sponsorIndex := db.sponsorIndex[s.uid := Meili.FromSponsor(s)],
        favourIndex := UpsertFavours(db.favourIndex, Meili.FromSponsorVec(s.favours)))
  }

  /** It completes exactly when none of its three calls fails for outside
      reasons and the uid is not taken; whether the sponsor would pass the
      validator plays no part. */
  lemma Completes(db: Db, s: Sponsor, pos: nat, faulty: set<nat>)
    ensures Simulate(db, Plan(s), pos, faulty).failure.None?
            <==> s.uid !in db.sponsors && forall k :: pos <= k < pos + 3 ==> k !in faulty
  {
    var calls := Calls(s);
    SimulateFatal(db, calls, pos, faulty);
    assert calls[0..] == calls && calls[3..] == [];
    ApplyAllFrom(db, calls, 0);
    var db1 := Apply(db, calls[0]);
    ApplyAllFrom(db1, calls, 1);
    ApplyAllFrom(Apply(db1, calls[1]), calls, 2);
  }

  /** A completed `create_sponsor` leaves `Created`. */
  lemma Effects(db: Db, s: Sponsor, pos: nat, faulty: set<nat>)
    requires Simulate(db, Plan(s), pos, faulty).failure.None?
    ensures Simulate(db, Plan(s), pos, faulty).db == Created(db, s)
  {
    var calls := Calls(s);
    SimulateFatalEffects(db, calls, pos, faulty);
    var db1 := Apply(db, calls[0]);
    assert ApplyAll(db, calls) == ApplyAll(db1, calls[1..]);
    ApplyAllTwo(db1, calls[1..]);
  }

  /** Whether it completes or not, `create_sponsor` adds nothing to the
      change log. */
  lemma NothingLogged(db: Db, s: Sponsor, pos: nat, faulty: set<nat>)
    ensures Simulate(db, Plan(s), pos, faulty).db.changes == db.changes
  {
    var plan := Plan(s);
    var run := Simulate(db, plan, pos, faulty);
    SimulateCalls(db, plan, pos, faulty);
    SimulateEffects(db, plan, pos, faulty);
    forall i | 0 <= i < |run.entries| ensures !run.entries[i].call.AddChange? {
      assert run.entries[i].call == plan[i].call;
    }
    ChangesUntouched(db, run.entries);
  }

  /** `create_sponsor`: the payload's uid is replaced by `uid` (line 14), the
      sponsor built exactly as `create` builds it, and the plan run at once;
      the answer is the REST form of the stored sponsor. */
  method CreateSponsor(store: Store, user: Auth.User, payload: Rest.RestSponsor, uid: Uuid, newId: nat -> Uuid)
    returns (r: Outcome<Rest.RestSponsor>, ghost s: Sponsor, ghost es: seq<Entry>)
    requires store.Valid()
    modifies store
    ensures store.Valid()
    ensures Distinct(s.tags) && Elems(s.tags) == payload.tags
    ensures s == Create.NewSponsor(payload, uid, newId, s.tags)
    ensures store.journal == old(store.journal) + es
    ensures Handled(Simulate(old(store.db), Plan(s), |old(store.journal)|, store.faulty),
                    store.db, es, r, Rest.FromSponsor(s))
  {
    var p := payload.(uid := Some(uid));
    var tags := Enumerate(p.tags);
    assert Elems(tags) == payload.tags;
    var sponsor := Create.Build(p, p.uid.value, Create.FreshUids(|p.favours|, newId), tags);
    s := sponsor;
    var e;
    e, es := Persist(store, sponsor);
    r := if e.Success? then Done(Rest.FromSponsor(sponsor)) else Failed(FromError(e.error));
  }

  /** The three awaited calls; the first that fails ends the handler with its
      error. */
  method Persist(store: Store, s: Sponsor) returns (r: Result<(), string>, ghost es: seq<Entry>)
    requires store.Valid()
    modifies store
    ensures store.Valid()
    ensures store.journal == old(store.journal) + es
    ensures Simulate(old(store.db), Plan(s), |old(store.journal)|, store.faulty)
            == Run(store.db, es, if r.Success? then None else Some(r.error))
  {
    var plan := Plan(s);
    ghost var db0, j0 := store.db, store.journal;
    store.Begin(plan);
    es := [];
    r, es := store.Next(plan, 0, db0, j0, es);
    if r.Failure? { return; }
    r, es := store.Next(plan, 1, db0, j0, es);
    if r.Failure? { return; }
    r, es := store.Next(plan, 2, db0, j0, es);
    if r.Failure? { return; }
    store.Finish(plan, db0, j0, es);
  }
}
