/** The document store and the search index, as the handlers see them: maps keyed
    by id, plus a journal of every call made, in order, and whether it succeeded.
    Which calls fail for reasons outside the program (network, driver) is fixed
    up front by the set `faulty` of journal positions; the only failure the
    stores themselves produce is a duplicate `_id` on insert. */
module Store {

  import opened Wrappers
  import opened Models
  import opened Seqs
  import opened Http
  import Meili

  /** The collections: sponsors by uid, the change log, logos by sponsor uid,
      roles by email, and the two search indexes by document id. */
  datatype Db = Db(
    sponsors: map<Uuid, Sponsor>,
    changes: seq<Change>,
    logos: map<Uuid, seq<Byte>>,
    roles: map<string, Role>,
    sponsorIndex: map<Uuid, Meili.MeiliSponsor>,
    favourIndex: map<Uuid, Meili.MeiliSponsorFavour>)

  /** One call into a store. */
  datatype Call =
    | AddChange(change: Change)
    | Insert(sponsor: Sponsor)
    | Get(uid: Uuid)
    | GetAll
    | Update(uid: Uuid, sponsor: Sponsor)
    | UploadLogo(uid: Uuid, data: seq<Byte>)
    | DeleteLogo(uid: Uuid)
    | AddOrUpdateRole(userRole: UserRole)
    | GetAllAdmins
    | IndexSponsor(doc: Meili.MeiliSponsor)
    | IndexFavours(docs: seq<Meili.MeiliSponsorFavour>)
    | GetIndexedSponsors
    | GetIndexedFavours
    | UnindexSponsor(id: Uuid)
    | UnindexFavours(ids: seq<Uuid>)

  datatype Entry = Entry(call: Call, ok: bool)

  const Unavailable := "store unavailable"
  const DuplicateKey := "duplicate key"

  /** Every index document is stored under its own id. */
  ghost predicate Keyed(db: Db)
  {
    && (forall k :: k in db.sponsorIndex ==> db.sponsorIndex[k].id == k)
    && (forall k :: k in db.favourIndex ==> db.favourIndex[k].id == k)
  }

  function FavourDocIds(docs: seq<Meili.MeiliSponsorFavour>): (r: set<Uuid>)
    ensures forall k :: k in r <==> exists i :: 0 <= i < |docs| && docs[i].id == k
  {
    set i | 0 <= i < |docs| :: docs[i].id
  }

  lemma FavourDocIdsCons(docs: seq<Meili.MeiliSponsorFavour>)
    requires docs != []
    ensures FavourDocIds(docs) == {docs[0].id} + FavourDocIds(docs[1..])
  {
    forall k ensures k in FavourDocIds(docs) <==> k in {docs[0].id} + FavourDocIds(docs[1..]) {
      if k in FavourDocIds(docs) && k != docs[0].id {
        var i :| 0 <= i < |docs| && docs[i].id == k;
        assert docs[1..][i - 1].id == k;
      }
      if k in FavourDocIds(docs[1..]) {
        var i :| 0 <= i < |docs[1..]| && docs[1..][i].id == k;
        assert docs[i + 1].id == k;
      }
    }
  }

  /** `add_documents(docs, Some("id"))` on the favour index: each document
      replaces the one with its id, in order. */
  function UpsertFavours(idx: map<Uuid, Meili.MeiliSponsorFavour>, docs: seq<Meili.MeiliSponsorFavour>)
    : map<Uuid, Meili.MeiliSponsorFavour>
    decreases |docs|
  {
    if docs == [] then idx else UpsertFavours(idx[docs[0].id := docs[0]], docs[1..])
  }

  /** After the upsert the index holds the old ids and the documents' ids, and
      ids no document carries keep their old document. */
  lemma {:induction false} UpsertFavoursKeys(idx: map<Uuid, Meili.MeiliSponsorFavour>, docs: seq<Meili.MeiliSponsorFavour>)
    ensures UpsertFavours(idx, docs).Keys == idx.Keys + FavourDocIds(docs)
    ensures forall k :: k in idx && k !in FavourDocIds(docs) ==> UpsertFavours(idx, docs)[k] == idx[k]
    decreases |docs|
  {
    if docs != [] {
      FavourDocIdsCons(docs);
      UpsertFavoursKeys(idx[docs[0].id := docs[0]], docs[1..]);
    }
  }

  /** The last document with a given id is the one the index keeps. */
  lemma {:induction false} UpsertFavoursLastWins(idx: map<Uuid, Meili.MeiliSponsorFavour>, docs: seq<Meili.MeiliSponsorFavour>, i: nat)
    requires i < |docs|
    requires forall j :: i < j < |docs| ==> docs[j].id != docs[i].id
    ensures docs[i].id in UpsertFavours(idx, docs)
    ensures UpsertFavours(idx, docs)[docs[i].id] == docs[i]
    decreases |docs|
  {
    var next := idx[docs[0].id := docs[0]];
    UpsertFavoursKeys(next, docs[1..]);
    if i == 0 {
      assert docs[0].id !in FavourDocIds(docs[1..]);
    } else {
      UpsertFavoursLastWins(next, docs[1..], i - 1);
    }
  }

  /** Upserting keeps every document under its own id. */
  lemma {:induction false} UpsertFavoursKeyed(idx: map<Uuid, Meili.MeiliSponsorFavour>, docs: seq<Meili.MeiliSponsorFavour>)
    requires forall k :: k in idx ==> idx[k].id == k
    ensures forall k :: k in UpsertFavours(idx, docs) ==> UpsertFavours(idx, docs)[k].id == k
    decreases |docs|
  {
    if docs != [] {
      UpsertFavoursKeyed(idx[docs[0].id := docs[0]], docs[1..]);
    }
  }

  /** A store call that does not fail for outside reasons fails only when it
      inserts a sponsor whose `_id` is taken. */
  predicate Allowed(db: Db, c: Call)
  {
    !(c.Insert? && c.sponsor.uid in db.sponsors)
  }

  predicate Succeeds(db: Db, c: Call, pos: nat, faulty: set<nat>)
  {
    pos !in faulty && Allowed(db, c)
  }

  /** The display text of a failed call's error. */
  function FailureText(db: Db, c: Call): string
  {
    if Allowed(db, c) then Unavailable else DuplicateKey
  }

  /** What a successful call does to the collections. Reads change nothing;
      `update` replaces without upserting; `add_or_update_role` upserts by email. */
  function Apply(db: Db, c: Call): Db
  {
    match c
    case AddChange(ch) => db.(changes := db.changes + [ch])
    case Insert(s) => db.(sponsors := db.sponsors[s.uid := s])
    case Update(uid, s) => if uid in db.sponsors then db.(sponsors := db.sponsors[uid := s]) else db
    case UploadLogo(uid, data) => db.(logos := db.logos[uid := data])
    case DeleteLogo(uid) => db.(logos := db.logos - {uid})
    case AddOrUpdateRole(ur) => db.(roles := db.roles[ur.email := ur.role])
    case IndexSponsor(doc) => db.(sponsorIndex := db.sponsorIndex[doc.id := doc])
    case IndexFavours(docs) => db.(favourIndex := UpsertFavours(db.favourIndex, docs))
    case UnindexSponsor(id) => db.(sponsorIndex := db.sponsorIndex - {id})
    case UnindexFavours(ids) => db.(favourIndex := db.favourIndex - (set i | i in ids))
    case Get(_) => db
    case GetAll => db
    case GetAllAdmins => db
    case GetIndexedSponsors => db
    case GetIndexedFavours => db
  }

  lemma ApplyKeeps(db: Db, c: Call)
    requires Keyed(db)
    ensures Keyed(Apply(db, c))
  {
    if c.IndexFavours? {
      UpsertFavoursKeyed(db.favourIndex, c.docs);
    }
  }

  /** The emails whose stored role is ADMIN. */
  function AdminEmails(roles: map<string, Role>): (r: set<string>)
    ensures forall e :: e in r <==> e in roles && roles[e] == ADMIN
  {
    set e | e in roles && roles[e] == ADMIN
  }

  // ---------------------------------------------------------------------------
  // A handler's fixed sequence of awaited store calls, each followed by `?`

  /** One call of a handler; a non-fatal call's error is ignored (`let _ = ...`). */
  datatype Step = Step(call: Call, fatal: bool)

  /** What a sequence of calls leaves behind: the collections, the journal
      entries it added, and the error that ended it, if one did. */
  datatype Run = Run(db: Db, entries: seq<Entry>, failure: Option<string>)

  function Prefixed(es: seq<Entry>, run: Run): Run
  {
    Run(run.db, es + run.entries, run.failure)
  }

  /** Runs the calls in order from journal position `pos`; the first fatal call
      that fails ends the run with its error. */
  function Simulate(db: Db, plan: seq<Step>, pos: nat, faulty: set<nat>): Run
    decreases |plan|
  {
    if plan == [] then Run(db, [], None)
    else
      var c := plan[0].call;
      var ok := Succeeds(db, c, pos, faulty);
      if !ok && plan[0].fatal then Run(db, [Entry(c, false)], Some(FailureText(db, c)))
      else
        var next := if ok then Apply(db, c) else db;
        Prefixed([Entry(c, ok)], Simulate(next, plan[1..], pos + 1, faulty))
  }

  /** Applies the calls of the journal entries that succeeded, in order. */
  function ApplySucceeded(db: Db, es: seq<Entry>): Db
    decreases |es|
  {
    if es == [] then db
    else ApplySucceeded(if es[0].ok then Apply(db, es[0].call) else db, es[1..])
  }

  /** Calls that neither insert nor replace a stored sponsor leave the
      sponsors as they were. */
  lemma {:induction false} SponsorsUntouched(db: Db, es: seq<Entry>)
    requires forall i :: 0 <= i < |es| ==> !es[i].call.Insert?
    requires forall i :: 0 <= i < |es| && es[i].call.Update? ==> es[i].call.uid !in db.sponsors
    ensures ApplySucceeded(db, es).sponsors == db.sponsors
    decreases |es|
  {
    if es != [] {
      var next := if es[0].ok then Apply(db, es[0].call) else db;
      assert next.sponsors == db.sponsors;
      forall i | 0 <= i < |es[1..]|
        ensures !es[1..][i].call.Insert?
        ensures es[1..][i].call.Update? ==> es[1..][i].call.uid !in next.sponsors
      {
        assert es[1..][i] == es[i + 1];
      }
      SponsorsUntouched(next, es[1..]);
    }
  }

  /** Calls that log no change leave the change log as it was. */
  lemma {:induction false} ChangesUntouched(db: Db, es: seq<Entry>)
    requires forall i :: 0 <= i < |es| ==> !es[i].call.AddChange?
    ensures ApplySucceeded(db, es).changes == db.changes
    decreases |es|
  {
    if es != [] {
      var next := if es[0].ok then Apply(db, es[0].call) else db;
      assert next.changes == db.changes;
      forall i | 0 <= i < |es[1..]| ensures !es[1..][i].call.AddChange? {
        assert es[1..][i] == es[i + 1];
      }
      ChangesUntouched(next, es[1..]);
    }
  }

  /** Applying the entries from position `k` on is applying the `k`-th, if
      it succeeded, and then the rest. */
  lemma ApplySucceededFrom(db: Db, es: seq<Entry>, k: nat)
    requires k < |es|
    ensures ApplySucceeded(db, es[k..])
            == ApplySucceeded(if es[k].ok then Apply(db, es[k].call) else db, es[k + 1..])
  {
    assert es[k..][1..] == es[k + 1..];
  }

  /** The calls a run makes are a prefix of the plan, in plan order. */
  lemma {:induction false} SimulateCalls(db: Db, plan: seq<Step>, pos: nat, faulty: set<nat>)
    decreases |plan|
    ensures var run := Simulate(db, plan, pos, faulty);
      && |run.entries| <= |plan|
      && forall i :: 0 <= i < |run.entries| ==> run.entries[i].call == plan[i].call
  {
    if plan != [] {
      var c := plan[0].call;
      var ok := Succeeds(db, c, pos, faulty);
      if ok || !plan[0].fatal {
        var next := if ok then Apply(db, c) else db;
        SimulateCalls(next, plan[1..], pos + 1, faulty);
        var rest := Simulate(next, plan[1..], pos + 1, faulty);
        var run := Simulate(db, plan, pos, faulty);
        forall i | 1 <= i < |run.entries| ensures run.entries[i].call == plan[i].call {
          assert run.entries[i] == rest.entries[i - 1] && plan[i] == plan[1..][i - 1];
        }
      }
    }
  }

  /** Every fatal call before the last one made succeeded. */
  lemma {:induction false} SimulateEarlierOk(db: Db, plan: seq<Step>, pos: nat, faulty: set<nat>)
    decreases |plan|
    ensures var run := Simulate(db, plan, pos, faulty);
      && |run.entries| <= |plan|
      && forall i :: 0 <= i < |run.entries| - 1 && plan[i].fatal ==> run.entries[i].ok
  {
    if plan != [] {
      var c := plan[0].call;
      var ok := Succeeds(db, c, pos, faulty);
      if ok || !plan[0].fatal {
        var next := if ok then Apply(db, c) else db;
        SimulateEarlierOk(next, plan[1..], pos + 1, faulty);
        var rest := Simulate(next, plan[1..], pos + 1, faulty);
        var run := Simulate(db, plan, pos, faulty);
        forall i | 1 <= i < |run.entries| - 1 && plan[i].fatal ensures run.entries[i].ok {
          assert run.entries[i] == rest.entries[i - 1] && plan[i] == plan[1..][i - 1];
        }
      }
    }
  }

  /** A run that does not fail makes every call of the plan, and every fatal
      one succeeded. */
  lemma {:induction false} SimulateComplete(db: Db, plan: seq<Step>, pos: nat, faulty: set<nat>)
    decreases |plan|
    ensures var run := Simulate(db, plan, pos, faulty);
      run.failure.None? ==> |run.entries| == |plan| && forall i :: 0 <= i < |plan| && plan[i].fatal ==> run.entries[i].ok
  {
    if plan != [] {
      var c := plan[0].call;
      var ok := Succeeds(db, c, pos, faulty);
      if ok || !plan[0].fatal {
        var next := if ok then Apply(db, c) else db;
        SimulateComplete(next, plan[1..], pos + 1, faulty);
        var rest := Simulate(next, plan[1..], pos + 1, faulty);
        var run := Simulate(db, plan, pos, faulty);
        if run.failure.None? {
          forall i | 1 <= i < |plan| && plan[i].fatal ensures run.entries[i].ok {
            assert run.entries[i] == rest.entries[i - 1] && plan[i] == plan[1..][i - 1];
          }
        }
      }
    }
  }

  /** A call the journal records as successful was not at a faulty position,
      and a call other than an insert at a position that is not faulty
      succeeded. */
  lemma {:induction false} SimulateOk(db: Db, plan: seq<Step>, pos: nat, faulty: set<nat>)
    decreases |plan|
    ensures forall i :: 0 <= i < |Simulate(db, plan, pos, faulty).entries| ==>
      var e := Simulate(db, plan, pos, faulty).entries[i];
      && (e.ok ==> pos + i !in faulty)
      && (pos + i !in faulty && !e.call.Insert? ==> e.ok)
  {
    if plan != [] {
      var c := plan[0].call;
      var ok := Succeeds(db, c, pos, faulty);
      if ok || !plan[0].fatal {
        var next := if ok then Apply(db, c) else db;
        SimulateOk(next, plan[1..], pos + 1, faulty);
        var rest := Simulate(next, plan[1..], pos + 1, faulty);
        var run := Simulate(db, plan, pos, faulty);
        assert run.entries == [Entry(c, ok)] + rest.entries;
        forall i | 1 <= i < |run.entries|
          ensures run.entries[i].ok ==> pos + i !in faulty
          ensures pos + i !in faulty && !run.entries[i].call.Insert? ==> run.entries[i].ok
        {
          var j := i - 1;
          assert run.entries[i] == rest.entries[j];
          assert rest.entries[j].ok ==> pos + 1 + j !in faulty;
          assert pos + 1 + j !in faulty && !rest.entries[j].call.Insert? ==> rest.entries[j].ok;
        }
      }
    }
  }

  /** A run fails only at a fatal call that failed, the last one it made. */
  lemma {:induction false} SimulateFailsLast(db: Db, plan: seq<Step>, pos: nat, faulty: set<nat>)
    decreases |plan|
    ensures var run := Simulate(db, plan, pos, faulty);
      run.failure.Some? ==>
        && 0 < |run.entries| <= |plan|
        && !run.entries[|run.entries| - 1].ok && plan[|run.entries| - 1].fatal
  {
    if plan != [] {
      var c := plan[0].call;
      var ok := Succeeds(db, c, pos, faulty);
      if ok || !plan[0].fatal {
        var next := if ok then Apply(db, c) else db;
        SimulateFailsLast(next, plan[1..], pos + 1, faulty);
        var rest := Simulate(next, plan[1..], pos + 1, faulty);
        var run := Simulate(db, plan, pos, faulty);
        if run.failure.Some? {
          var n := |run.entries|;
          assert run.entries[n - 1] == rest.entries[n - 2] && plan[n - 1] == plan[1..][n - 2];
        }
      }
    }
  }

  /** The collections after a run are those of applying, in order, exactly the
      calls that succeeded. */
  lemma {:induction false} SimulateEffects(db: Db, plan: seq<Step>, pos: nat, faulty: set<nat>)
    decreases |plan|
    ensures Simulate(db, plan, pos, faulty).db == ApplySucceeded(db, Simulate(db, plan, pos, faulty).entries)
  {
    if plan != [] {
      var c := plan[0].call;
      var ok := Succeeds(db, c, pos, faulty);
      if ok || !plan[0].fatal {
        var next := if ok then Apply(db, c) else db;
        SimulateEffects(next, plan[1..], pos + 1, faulty);
        var rest := Simulate(next, plan[1..], pos + 1, faulty);
        var run := Simulate(db, plan, pos, faulty);
        assert run.entries[1..] == rest.entries;
      }
    }
  }

  /** Once a later call has been made, every earlier fatal call succeeded. */
  lemma EarlierFatalSucceeded(db: Db, plan: seq<Step>, pos: nat, faulty: set<nat>, j: nat, i: nat)
    requires j < i < |plan| && i < |Simulate(db, plan, pos, faulty).entries|
    requires plan[j].fatal
    ensures Simulate(db, plan, pos, faulty).entries[j] == Entry(plan[j].call, true)
  {
    SimulateCalls(db, plan, pos, faulty);
    SimulateEarlierOk(db, plan, pos, faulty);
  }

  lemma PrefixedTwice(es1: seq<Entry>, es2: seq<Entry>, run: Run)
    ensures Prefixed(es1, Prefixed(es2, run)) == Prefixed(es1 + es2, run)
  {
    assert es1 + (es2 + run.entries) == es1 + es2 + run.entries;
  }

  /** Advancing a run by one call that succeeds. */
  lemma StepSucceeds(db0: Db, plan: seq<Step>, pos0: nat, faulty: set<nat>, k: nat, db: Db, es: seq<Entry>)
    requires k < |plan|
    requires Simulate(db0, plan, pos0, faulty) == Prefixed(es, Simulate(db, plan[k..], pos0 + k, faulty))
    requires Succeeds(db, plan[k].call, pos0 + k, faulty)
    ensures Simulate(db0, plan, pos0, faulty)
            == Prefixed(es + [Entry(plan[k].call, true)],
                        Simulate(Apply(db, plan[k].call), plan[k + 1..], pos0 + k + 1, faulty))
  {
    assert plan[k..][1..] == plan[k + 1..];
  }

  /** Advancing a run by one call that fails: a fatal call ends it. */
  lemma StepFails(db0: Db, plan: seq<Step>, pos0: nat, faulty: set<nat>, k: nat, db: Db, es: seq<Entry>)
    requires k < |plan|
    requires Simulate(db0, plan, pos0, faulty) == Prefixed(es, Simulate(db, plan[k..], pos0 + k, faulty))
    requires !Succeeds(db, plan[k].call, pos0 + k, faulty)
    ensures plan[k].fatal ==>
              Simulate(db0, plan, pos0, faulty)
              == Run(db, es + [Entry(plan[k].call, false)], Some(FailureText(db, plan[k].call)))
    ensures !plan[k].fatal ==>
              Simulate(db0, plan, pos0, faulty)
              == Prefixed(es + [Entry(plan[k].call, false)], Simulate(db, plan[k + 1..], pos0 + k + 1, faulty))
  {
    assert plan[k..][1..] == plan[k + 1..];
  }

  /** A run whose every call has been made. */
  lemma RunComplete(db0: Db, plan: seq<Step>, pos0: nat, faulty: set<nat>, db: Db, es: seq<Entry>)
    requires Simulate(db0, plan, pos0, faulty) == Prefixed(es, Simulate(db, plan[|plan|..], pos0 + |plan|, faulty))
    ensures Simulate(db0, plan, pos0, faulty) == Run(db, es, None)
  {
    assert plan[|plan|..] == [];
  }

  /** Calls each followed by `?`. */
  function Fatal(calls: seq<Call>): (plan: seq<Step>)
    ensures |plan| == |calls| && forall i :: 0 <= i < |calls| ==> plan[i] == Step(calls[i], true)
  {
    seq(|calls|, i requires 0 <= i < |calls| => Step(calls[i], true))
  }

  /** The collections after every call succeeded, in order. */
  function ApplyAll(db: Db, calls: seq<Call>): Db
    decreases |calls|
  {
    if calls == [] then db else ApplyAll(Apply(db, calls[0]), calls[1..])
  }

  /** No call in the sequence is an insert under a taken uid, at the time it is made. */
  predicate AllAllowed(db: Db, calls: seq<Call>)
    decreases |calls|
  {
    calls == [] || (Allowed(db, calls[0]) && AllAllowed(Apply(db, calls[0]), calls[1..]))
  }

  /** Applying the calls from position `k` on is applying the `k`-th and
      then the rest. */
  lemma ApplyAllFrom(db: Db, calls: seq<Call>, k: nat)
    requires k < |calls|
    ensures ApplyAll(db, calls[k..]) == ApplyAll(Apply(db, calls[k]), calls[k + 1..])
    ensures AllAllowed(db, calls[k..]) <==> Allowed(db, calls[k]) && AllAllowed(Apply(db, calls[k]), calls[k + 1..])
  {
    assert calls[k..][1..] == calls[k + 1..];
  }

  /** Calls that insert nothing are always allowed. */
  lemma {:induction false} NoInsertAllowed(db: Db, calls: seq<Call>)
    requires forall i :: 0 <= i < |calls| ==> !calls[i].Insert?
    ensures AllAllowed(db, calls)
    decreases |calls|
  {
    if calls != [] {
      NoInsertAllowed(Apply(db, calls[0]), calls[1..]);
    }
  }

  lemma ApplyAllTwo(db: Db, calls: seq<Call>)
    requires |calls| == 2
    ensures ApplyAll(db, calls) == Apply(Apply(db, calls[0]), calls[1])
  {
    var c1 := calls[1..];
    var d1 := Apply(db, calls[0]);
    assert c1[1..] == [];
    assert ApplyAll(db, calls) == ApplyAll(d1, c1);
    assert ApplyAll(d1, c1) == ApplyAll(Apply(d1, c1[0]), c1[1..]);
  }

  lemma ApplyAllFour(db: Db, calls: seq<Call>)
    requires |calls| == 4
    ensures ApplyAll(db, calls) == Apply(Apply(Apply(Apply(db, calls[0]), calls[1]), calls[2]), calls[3])
  {
    var d1 := Apply(db, calls[0]);
    assert ApplyAll(db, calls) == ApplyAll(d1, calls[1..]);
    ApplyAllTwo(Apply(d1, calls[1]), calls[2..]);
    assert calls[1..][1..] == calls[2..];
  }

  /** Calls each followed by `?` complete exactly when none is at a faulty
      position and none inserts under a taken uid. */
  lemma {:induction false} SimulateFatal(db: Db, calls: seq<Call>, pos: nat, faulty: set<nat>)
    decreases |calls|
    ensures Simulate(db, Fatal(calls), pos, faulty).failure.None?
            <==> (forall k :: pos <= k < pos + |calls| ==> k !in faulty) && AllAllowed(db, calls)
  {
    if calls != [] {
      assert Fatal(calls)[1..] == Fatal(calls[1..]);
      SimulateFatal(Apply(db, calls[0]), calls[1..], pos + 1, faulty);
    }
  }

  /** Calls each followed by `?` that complete leave the collections of
      applying all of them. */
  lemma {:induction false} SimulateFatalEffects(db: Db, calls: seq<Call>, pos: nat, faulty: set<nat>)
    requires Simulate(db, Fatal(calls), pos, faulty).failure.None?
    decreases |calls|
    ensures Simulate(db, Fatal(calls), pos, faulty).db == ApplyAll(db, calls)
  {
    if calls != [] {
      assert Fatal(calls)[1..] == Fatal(calls[1..]);
      SimulateFatalEffects(Apply(db, calls[0]), calls[1..], pos + 1, faulty);
    }
  }

  /** Calls each followed by `?`, except one in between whose error is
      ignored: they complete exactly when the others do. */
  lemma {:induction false} SimulateIgnoring(db: Db, pre: seq<Call>, c: Call, post: seq<Call>, pos: nat, faulty: set<nat>)
    requires !c.Insert?
    decreases |pre|
    ensures var at := pos + |pre|;
      var mid := if at in faulty then ApplyAll(db, pre) else Apply(ApplyAll(db, pre), c);
      Simulate(db, Fatal(pre) + [Step(c, false)] + Fatal(post), pos, faulty).failure.None? <==>
        && (forall k :: pos <= k < at ==> k !in faulty) && AllAllowed(db, pre)
        && (forall k :: at < k <= at + |post| ==> k !in faulty) && AllAllowed(mid, post)
  {
    var plan := Fatal(pre) + [Step(c, false)] + Fatal(post);
    if pre == [] {
      assert plan[0] == Step(c, false) && plan[1..] == Fatal(post);
      var mid := if pos in faulty then db else Apply(db, c);
      SimulateFatal(mid, post, pos + 1, faulty);
    } else {
      var db1 := Apply(db, pre[0]);
      assert plan[0] == Step(pre[0], true);
      assert plan[1..] == Fatal(pre[1..]) + [Step(c, false)] + Fatal(post);
      assert Simulate(db, plan, pos, faulty).failure.None? <==>
        Succeeds(db, pre[0], pos, faulty) && Simulate(db1, plan[1..], pos + 1, faulty).failure.None?;
      assert ApplyAll(db, pre) == ApplyAll(db1, pre[1..]);
      assert AllAllowed(db, pre) <==> Allowed(db, pre[0]) && AllAllowed(db1, pre[1..]);
      SimulateIgnoring(db1, pre[1..], c, post, pos + 1, faulty);
    }
  }

  /** Such calls that complete have the ignored call's effect exactly when it
      was not at a faulty position. */
  lemma {:induction false} SimulateIgnoringEffects(db: Db, pre: seq<Call>, c: Call, post: seq<Call>, pos: nat, faulty: set<nat>)
    requires !c.Insert?
    requires Simulate(db, Fatal(pre) + [Step(c, false)] + Fatal(post), pos, faulty).failure.None?
    decreases |pre|
    ensures var at := pos + |pre|;
      var mid := if at in faulty then ApplyAll(db, pre) else Apply(ApplyAll(db, pre), c);
      Simulate(db, Fatal(pre) + [Step(c, false)] + Fatal(post), pos, faulty).db == ApplyAll(mid, post)
  {
    var plan := Fatal(pre) + [Step(c, false)] + Fatal(post);
    if pre == [] {
      assert plan[0] == Step(c, false) && plan[1..] == Fatal(post);
      var mid := if pos in faulty then db else Apply(db, c);
      SimulateFatalEffects(mid, post, pos + 1, faulty);
    } else {
      assert plan[0] == Step(pre[0], true);
      assert plan[1..] == Fatal(pre[1..]) + [Step(c, false)] + Fatal(post);
      SimulateIgnoringEffects(Apply(db, pre[0]), pre[1..], c, post, pos + 1, faulty);
    }
  }

  /** Every call of a journal stretch succeeded. */
  ghost predicate AllOk(es: seq<Entry>)
  {
    forall i :: 0 <= i < |es| ==> es[i].ok
  }

  lemma AllOkAppend(es1: seq<Entry>, es2: seq<Entry>)
    requires AllOk(es1) && AllOk(es2)
    ensures AllOk(es1 + es2)
  {
  }

  /** A handler that ran `run` and answered `r`: the collections and the new
      journal entries are the run's; it answers `value` when the run did not
      fail, and otherwise the 500 that `?` makes of the failing call's error. */
  predicate Handled<T(==)>(run: Run, db: Db, es: seq<Entry>, r: Outcome<T>, value: T)
  {
    && run.db == db
    && run.entries == es
    && (run.failure.None? ==> r == Done(value))
    && (run.failure.Some? ==> r == Failed(FromError(run.failure.value)))
  }

  /** Journal stretches appended one after the other. */
  lemma JournalAppend(j: seq<Entry>, es1: seq<Entry>, es2: seq<Entry>)
    ensures j + es1 + es2 == j + (es1 + es2)
  {
  }

  // ---------------------------------------------------------------------------

  class Store {
    var db: Db
    var journal: seq<Entry>
    const faulty: set<nat>

    ghost predicate Valid()
      reads this
    {
      Keyed(db)
    }

    constructor (db0: Db, faulty: set<nat>)
      requires Keyed(db0)
      ensures Valid() && db == db0 && journal == [] && this.faulty == faulty
    {
      db := db0;
      journal := [];
      this.faulty := faulty;
    }

    /** A call that changes the collections. */
    method Exec(c: Call) returns (r: Result<(), string>)
      requires Valid()
      modifies this
      ensures Valid()
      ensures r.Success? <==> Succeeds(old(db), c, |old(journal)|, faulty)
      ensures r.Failure? ==> r.error == FailureText(old(db), c)
      ensures journal == old(journal) + [Entry(c, r.Success?)]
      ensures db == if r.Success? then Apply(old(db), c) else old(db)
    {
      if Succeeds(db, c, |journal|, faulty) {
        ApplyKeeps(db, c);
        db := Apply(db, c);
        r := Success(());
      } else {
        r := Failure(FailureText(db, c));
      }
      journal := journal + [Entry(c, r.Success?)];
    }

    /** `add_change(change)`: appends to the change log. */
    method LogChange(ch: Change) returns (r: Result<(), string>)
      requires Valid()
      modifies this
      ensures Valid()
      ensures r.Success? <==> |old(journal)| !in faulty
      ensures r.Failure? ==> r.error == Unavailable
      ensures db == if r.Success? then old(db).(changes := old(db).changes + [ch]) else old(db)
      ensures journal == old(journal) + [Entry(AddChange(ch), r.Success?)]
    {
      r := Exec(AddChange(ch));
    }

    /** `add_or_update_role(model)`: an upsert by email. */
    method SetRole(ur: UserRole) returns (r: Result<(), string>)
      requires Valid()
      modifies this
      ensures Valid()
      ensures r.Success? <==> |old(journal)| !in faulty
      ensures r.Failure? ==> r.error == Unavailable
      ensures db == if r.Success? then old(db).(roles := old(db).roles[ur.email := ur.role]) else old(db)
      ensures journal == old(journal) + [Entry(AddOrUpdateRole(ur), r.Success?)]
    {
      r := Exec(AddOrUpdateRole(ur));
    }

    /** `add_sponsor(doc)` on the sponsor index: an upsert by document id. */
    method IndexDoc(doc: Meili.MeiliSponsor) returns (r: Result<(), string>)
      requires Valid()
      modifies this
      ensures Valid()
      ensures r.Success? <==> |old(journal)| !in faulty
      ensures r.Failure? ==> r.error == Unavailable
      ensures db == if r.Success? then old(db).(sponsorIndex := old(db).sponsorIndex[doc.id := doc]) else old(db)
      ensures journal == old(journal) + [Entry(IndexSponsor(doc), r.Success?)]
    {
      r := Exec(IndexSponsor(doc));
    }

    /** `add_favours(docs)` on the favour index: upserts in order. */
    method IndexFavourDocs(docs: seq<Meili.MeiliSponsorFavour>) returns (r: Result<(), string>)
      requires Valid()
      modifies this
      ensures Valid()
      ensures r.Success? <==> |old(journal)| !in faulty
      ensures r.Failure? ==> r.error == Unavailable
      ensures db == if r.Success? then old(db).(favourIndex := UpsertFavours(old(db).favourIndex, docs)) else old(db)
      ensures journal == old(journal) + [Entry(IndexFavours(docs), r.Success?)]
    {
      r := Exec(IndexFavours(docs));
    }

    /** `delete_sponsor(id)` on the sponsor index. */
    method UnindexSponsor(id: Uuid) returns (r: Result<(), string>)
      requires Valid()
      modifies this
      ensures Valid()
      ensures r.Success? <==> |old(journal)| !in faulty
      ensures r.Failure? ==> r.error == Unavailable
      ensures db == if r.Success? then old(db).(sponsorIndex := old(db).sponsorIndex - {id}) else old(db)
      ensures journal == old(journal) + [Entry(Call.UnindexSponsor(id), r.Success?)]
    {
      r := Exec(Call.UnindexSponsor(id));
    }

    /** `delete_favours(&[id])` on the favour index: one id per request. */
    method UnindexFavour(id: Uuid) returns (r: Result<(), string>)
      requires Valid()
      modifies this
      ensures Valid()
      ensures r.Success? <==> |old(journal)| !in faulty
      ensures r.Failure? ==> r.error == Unavailable
      ensures db == if r.Success? then old(db).(favourIndex := old(db).favourIndex - {id}) else old(db)
      ensures journal == old(journal) + [Entry(Call.UnindexFavours([id]), r.Success?)]
    {
      assert (set x | x in [id]) == {id};
      r := Exec(Call.UnindexFavours([id]));
    }

    /** A handler is `k` calls into `plan`, which it started from `db0` with
        journal `j0`: it has added the entries `es`, and the rest of the run is
        that of the remaining calls from here. */
    ghost predicate Midway(plan: seq<Step>, k: nat, db0: Db, j0: seq<Entry>, es: seq<Entry>)
      reads this
    {
      && Valid()
      && k <= |plan| && journal == j0 + es && |es| == k
      && Simulate(db0, plan, |j0|, faulty) == Prefixed(es, Simulate(db, plan[k..], |journal|, faulty))
    }

    lemma Begin(plan: seq<Step>)
      requires Valid()
      ensures Midway(plan, 0, db, journal, [])
    {
      assert plan[0..] == plan;
      assert journal + [] == journal;
    }

    /** Once every call is made, the run ended without failure. */
    lemma Finish(plan: seq<Step>, db0: Db, j0: seq<Entry>, es: seq<Entry>)
      requires Midway(plan, |plan|, db0, j0, es)
      ensures Simulate(db0, plan, |j0|, faulty) == Run(db, es, None)
    {
      RunComplete(db0, plan, |j0|, faulty, db, es);
    }

    /** Makes the `k`-th call of a handler's plan. */
    method Next(plan: seq<Step>, k: nat, ghost db0: Db, ghost j0: seq<Entry>, ghost es: seq<Entry>)
      returns (r: Result<(), string>, ghost es1: seq<Entry>)
      requires Midway(plan, k, db0, j0, es) && k < |plan|
      modifies this
      ensures Valid()
      ensures es1 == es + [Entry(plan[k].call, r.Success?)] && journal == j0 + es1
      ensures r.Failure? ==> r.error == FailureText(old(db), plan[k].call)
      ensures r.Success? || !plan[k].fatal ==> Midway(plan, k + 1, db0, j0, es1)
      ensures r.Failure? && plan[k].fatal ==> Simulate(db0, plan, |j0|, faulty) == Run(db, es1, Some(r.error))
    {
      ghost var before := db;
      r := Exec(plan[k].call);
      es1 := es + [Entry(plan[k].call, r.Success?)];
      JournalAppend(j0, es, [Entry(plan[k].call, r.Success?)]);
      if r.Success? {
        StepSucceeds(db0, plan, |j0|, faulty, k, before, es);
      } else {
        StepFails(db0, plan, |j0|, faulty, k, before, es);
      }
    }

    /** `get(uid)`: the sponsor stored under `uid`, if any. */
    method Get(uid: Uuid) returns (r: Result<Option<Sponsor>, string>)
      modifies this`journal
      ensures r.Success? <==> |old(journal)| !in faulty
      ensures r.Failure? ==> r.error == Unavailable
      ensures r.Success? ==> r.value == if uid in db.sponsors then Some(db.sponsors[uid]) else None
      ensures journal == old(journal) + [Entry(Call.Get(uid), r.Success?)]
    {
      if |journal| in faulty {
        r := Failure(Unavailable);
      } else {
        r := Success(if uid in db.sponsors then Some(db.sponsors[uid]) else None);
      }
      journal := journal + [Entry(Call.Get(uid), r.Success?)];
    }

    /** `get_all()`: every stored sponsor once, in the cursor's order. */
    method GetAll() returns (r: Result<seq<Sponsor>, string>)
      modifies this`journal
      ensures r.Success? <==> |old(journal)| !in faulty
      ensures r.Failure? ==> r.error == Unavailable
      ensures r.Success? ==> |r.value| == |db.sponsors|
      ensures r.Success? ==> forall s :: s in r.value <==> s in db.sponsors.Values
      ensures journal == old(journal) + [Entry(Call.GetAll, r.Success?)]
    {
      if |journal| in faulty {
        r := Failure(Unavailable);
      } else {
        var m := db.sponsors;
        var ks := Enumerate(m.Keys);
        var docs := seq(|ks|, i requires 0 <= i < |ks| => m[ks[i]]);
        forall s | s in m.Values ensures s in docs {
          var k :| k in m && m[k] == s;
          var i :| 0 <= i < |ks| && ks[i] == k;
          assert docs[i] == s;
        }
        r := Success(docs);
      }
      journal := journal + [Entry(Call.GetAll, r.Success?)];
    }

    /** `get_all_admins()`: the role records whose role is ADMIN, once each. */
    method GetAllAdmins() returns (r: Result<seq<UserRole>, string>)
      modifies this`journal
      ensures r.Success? <==> |old(journal)| !in faulty
      ensures r.Failure? ==> r.error == Unavailable
      ensures r.Success? ==> forall ur :: ur in r.value <==> ur.role == ADMIN && ur.email in AdminEmails(db.roles)
      ensures journal == old(journal) + [Entry(Call.GetAllAdmins, r.Success?)]
    {
      if |journal| in faulty {
        r := Failure(Unavailable);
      } else {
        var es := Enumerate(AdminEmails(db.roles));
        r := Success(MapSeq((e: string) => UserRole(e, ADMIN), es));
      }
      journal := journal + [Entry(Call.GetAllAdmins, r.Success?)];
    }

    /** Every document of the sponsor index once, in the index's order. */
    method GetIndexedSponsors() returns (r: Result<seq<Meili.MeiliSponsor>, string>)
      requires Valid()
      modifies this`journal
      ensures r.Success? <==> |old(journal)| !in faulty
      ensures r.Failure? ==> r.error == Unavailable
      ensures r.Success? ==> Distinct(r.value)
      ensures r.Success? ==> forall d :: d in r.value <==> d.id in db.sponsorIndex && db.sponsorIndex[d.id] == d
      ensures journal == old(journal) + [Entry(Call.GetIndexedSponsors, r.Success?)]
    {
      if |journal| in faulty {
        r := Failure(Unavailable);
      } else {
        var m := db.sponsorIndex;
        var ks := Enumerate(m.Keys);
        var docs := seq(|ks|, i requires 0 <= i < |ks| => m[ks[i]]);
        assert forall i :: 0 <= i < |docs| ==> docs[i].id == ks[i];
        forall d: Meili.MeiliSponsor | d.id in m && m[d.id] == d ensures d in docs {
          var i :| 0 <= i < |ks| && ks[i] == d.id;
          assert docs[i] == d;
        }
        r := Success(docs);
      }
      journal := journal + [Entry(Call.GetIndexedSponsors, r.Success?)];
    }

    /** Every document of the favour index once, in the index's order. */
    method GetIndexedFavours() returns (r: Result<seq<Meili.MeiliSponsorFavour>, string>)
      requires Valid()
      modifies this`journal
      ensures r.Success? <==> |old(journal)| !in faulty
      ensures r.Failure? ==> r.error == Unavailable
      ensures r.Success? ==> Distinct(r.value)
      ensures r.Success? ==> forall d :: d in r.value <==> d.id in db.favourIndex && db.favourIndex[d.id] == d
      ensures journal == old(journal) + [Entry(Call.GetIndexedFavours, r.Success?)]
    {
      if |journal| in faulty {
        r := Failure(Unavailable);
      } else {
        var m := db.favourIndex;
        var ks := Enumerate(m.Keys);
        var docs := seq(|ks|, i requires 0 <= i < |ks| => m[ks[i]]);
        assert forall i :: 0 <= i < |docs| ==> docs[i].id == ks[i];
        forall d: Meili.MeiliSponsorFavour | d.id in m && m[d.id] == d ensures d in docs {
          var i :| 0 <= i < |ks| && ks[i] == d.id;
          assert docs[i] == d;
        }
        r := Success(docs);
      }
      journal := journal + [Entry(Call.GetIndexedFavours, r.Success?)];
    }
  }
}
