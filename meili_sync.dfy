/** The periodic reconciliation of the search indexes with the document store
    (backend/src/meili_sync.rs): drop index documents whose sponsor or favour is
    no longer stored, then index every stored sponsor and its favours again. */
module MeiliSync {

  import opened Wrappers
  import opened Models
  import opened Seqs
  import opened Store
  import Meili

  /** The uids of the given sponsors. */
  function Uids(docs: seq<Sponsor>): set<Uuid>
  {
    set i | 0 <= i < |docs| :: docs[i].uid
  }

  /** The uids of the favours the given sponsors own. */
  function FavourUids(docs: seq<Sponsor>): set<Uuid>
  {
    set i, j | 0 <= i < |docs| && 0 <= j < |docs[i].favours| :: docs[i].favours[j].uid
  }

  /** `after` is `before` with some entries removed, but none whose key is kept. */
  ghost predicate Pruned<V>(before: map<Uuid, V>, after: map<Uuid, V>, keep: set<Uuid>)
  {
    && after.Keys <= before.Keys
    && (forall k :: k in after ==> after[k] == before[k])
    && (forall k :: k in before && k in keep ==> k in after)
  }

  predicate IsUnindexing(c: Call)
  {
    c.GetIndexedSponsors? || c.GetIndexedFavours? || c.UnindexSponsor? || c.UnindexFavours?
  }

  predicate IsIndexing(c: Call)
  {
    c.IndexSponsor? || c.IndexFavours?
  }

  ghost predicate Unindexing(es: seq<Entry>)
  {
    forall i :: 0 <= i < |es| ==> IsUnindexing(es[i].call)
  }

  ghost predicate Indexing(es: seq<Entry>)
  {
    forall i :: 0 <= i < |es| ==> IsIndexing(es[i].call)
  }

  /** Every call succeeded. */
  ghost predicate Clean(es: seq<Entry>)
  {
    forall i :: 0 <= i < |es| ==> es[i].ok
  }

  /** The last call failed and ended the pass; all before it succeeded. */
  ghost predicate Aborted(es: seq<Entry>)
  {
    && es != []
    && !es[|es| - 1].ok
    && forall i :: 0 <= i < |es| - 1 ==> es[i].ok
  }

  lemma AppendEntry(es: seq<Entry>, e: Entry)
    requires Unindexing(es) && Clean(es) && IsUnindexing(e.call)
    ensures Unindexing(es + [e])
    ensures e.ok ==> Clean(es + [e])
    ensures !e.ok ==> Aborted(es + [e])
  {
  }

  /** The ids of the documents listed from an index are pairwise distinct and
      are exactly the index's keys. */
  lemma ListedIds<V>(idx: map<Uuid, V>, listed: seq<V>, id: V -> Uuid, ids: seq<Uuid>)
    requires Distinct(listed)
    requires forall d :: d in listed <==> id(d) in idx && idx[id(d)] == d
    requires forall k :: k in idx ==> id(idx[k]) == k
    requires |ids| == |listed| && forall j :: 0 <= j < |listed| ==> ids[j] == id(listed[j])
    ensures Distinct(ids)
    ensures idx.Keys == Elems(ids)
  {
    forall a, b | 0 <= a < b < |ids| ensures ids[a] != ids[b] {
      assert listed[a] in listed && listed[b] in listed;
    }
    forall k | k in idx ensures k in ids {
      var j :| 0 <= j < |listed| && listed[j] == idx[k];
      assert ids[j] == k;
    }
  }

  /** The ids outside `keep` among the first `n` listed ids. */
  ghost function Dangling(ids: seq<Uuid>, n: nat, keep: set<Uuid>): (r: set<Uuid>)
    requires n <= |ids|
  {
    if n == 0 then {} else Dangling(ids, n - 1, keep) + (if ids[n - 1] in keep then {} else {ids[n - 1]})
  }

  /** The dangling ids are listed ids outside `keep`, and every listed id
      outside `keep` is among them. */
  lemma {:induction false} DanglingMembers(ids: seq<Uuid>, n: nat, keep: set<Uuid>)
    requires n <= |ids|
    ensures forall k :: k in Dangling(ids, n, keep) <==> k !in keep && k in ids[..n]
  {
    if n > 0 {
      DanglingMembers(ids, n - 1, keep);
      assert ids[..n] == ids[..n - 1] + [ids[n - 1]];
    }
  }

  /** A listed id is not dangling before its own position, since listed ids are distinct. */
  lemma DanglingFresh(ids: seq<Uuid>, n: nat, keep: set<Uuid>)
    requires n < |ids| && Distinct(ids)
    ensures ids[n] !in Dangling(ids, n, keep)
  {
    DanglingMembers(ids, n, keep);
  }

  /** How many of the first `n` listed ids lie outside `keep`. */
  ghost function DanglingCount(ids: seq<Uuid>, n: nat, keep: set<Uuid>): nat
    requires n <= |ids|
  {
    if n == 0 then 0 else DanglingCount(ids, n - 1, keep) + (if ids[n - 1] in keep then 0 else 1)
  }

  /** Listed ids are distinct, so counting them counts the dangling set. */
  lemma {:induction false} DanglingCard(ids: seq<Uuid>, n: nat, keep: set<Uuid>)
    requires n <= |ids| && Distinct(ids)
    ensures |Dangling(ids, n, keep)| == DanglingCount(ids, n, keep)
  {
    if n > 0 {
      DanglingCard(ids, n - 1, keep);
      DanglingFresh(ids, n - 1, keep);
    }
  }

  /** Over all listed ids, the dangling ones are the listed ids outside `keep`. */
  lemma DanglingAll(ids: seq<Uuid>, keys: set<Uuid>, keep: set<Uuid>)
    requires keys == Elems(ids)
    ensures Dangling(ids, |ids|, keep) == keys - keep
  {
    DanglingMembers(ids, |ids|, keep);
    assert ids[..|ids|] == ids;
  }

  /** What a deletion loop over the listed ids leaves of the index. */
  lemma PrunedBy<V>(idx: map<Uuid, V>, ids: seq<Uuid>, gone: set<Uuid>, keep: set<Uuid>, finished: bool)
    requires idx.Keys == Elems(ids)
    requires gone !! keep
    requires finished ==> gone == Dangling(ids, |ids|, keep)
    ensures Pruned(idx, idx - gone, keep)
    ensures finished ==> (idx - gone).Keys == idx.Keys * keep && gone == idx.Keys - keep
  {
    if finished {
      DanglingAll(ids, idx.Keys, keep);
    }
  }

  function SponsorDocId(d: Meili.MeiliSponsor): Uuid { d.id }

  function FavourDocId(d: Meili.MeiliSponsorFavour): Uuid { d.id }

  /** Journal entries of two consecutive stretches of a pass. */
  lemma ConcatEntries(es1: seq<Entry>, es2: seq<Entry>)
    requires Unindexing(es1) && Unindexing(es2) && Clean(es1)
    ensures Unindexing(es1 + es2)
    ensures Clean(es2) ==> Clean(es1 + es2)
    ensures Aborted(es2) ==> Aborted(es1 + es2)
  {
    if Aborted(es2) {
      assert (es1 + es2)[|es1 + es2| - 1] == es2[|es2| - 1];
    }
  }

  /** The body of the first loop of `delete_dangling_meili`: deletes, in list
      order, each listed sponsor id outside `keep`, counting the deletions; the
      first failing call ends it. `gone` is what it deleted. */
  method UnindexSponsors(store: Store, ids: seq<Uuid>, keep: set<Uuid>)
    returns (r: Result<nat, string>, ghost gone: set<Uuid>, ghost es: seq<Entry>)
    requires store.Valid() && Distinct(ids)
    modifies store
    ensures store.Valid()
    ensures store.db == old(store.db).(sponsorIndex := old(store.db.sponsorIndex) - gone)
    ensures gone !! keep
    ensures r.Success? ==> gone == Dangling(ids, |ids|, keep) && r.value == |gone|
    ensures r.Failure? ==> r.error == Unavailable
    ensures store.journal == old(store.journal) + es && Unindexing(es)
    ensures r.Success? ==> Clean(es)
    ensures r.Failure? ==> Aborted(es)
  {
    ghost var db0 := store.db;
    gone, es := {}, [];
    var deleted := 0;
    var i := 0;
    while i < |ids|
      invariant 0 <= i <= |ids|
      invariant store.Valid()
      invariant store.db == db0.(sponsorIndex := db0.sponsorIndex - gone)
      invariant gone == Dangling(ids, i, keep)
      invariant deleted == DanglingCount(ids, i, keep)
      invariant store.journal == old(store.journal) + es && Unindexing(es) && Clean(es)
    {
      var id := ids[i];
      if id !in keep {
        var e := store.UnindexSponsor(id);
        AppendEntry(es, Entry(Call.UnindexSponsor(id), e.Success?));
        es := es + [Entry(Call.UnindexSponsor(id), e.Success?)];
        if e.Failure? {
          DanglingMembers(ids, i, keep);
          return Failure(e.error), gone, es;
        }
        assert db0.sponsorIndex - gone - {id} == db0.sponsorIndex - (gone + {id});
        gone := gone + {id};
        deleted := deleted + 1;
      }
      i := i + 1;
    }
    DanglingMembers(ids, i, keep);
    DanglingCard(ids, i, keep);
    r := Success(deleted);
  }

  /** The body of the second loop of `delete_dangling_meili`: deletes, one
      request each and in list order, each listed favour id outside `keep`; the
      first failing call ends it. `gone` is what it deleted. */
  method UnindexFavours(store: Store, ids: seq<Uuid>, keep: set<Uuid>)
    returns (r: Result<(), string>, ghost gone: set<Uuid>, ghost es: seq<Entry>)
    requires store.Valid() && Distinct(ids)
    modifies store
    ensures store.Valid()
    ensures store.db == old(store.db).(favourIndex := old(store.db.favourIndex) - gone)
    ensures gone !! keep
    ensures r.Success? ==> gone == Dangling(ids, |ids|, keep)
    ensures r.Failure? ==> r.error == Unavailable
    ensures store.journal == old(store.journal) + es && Unindexing(es)
    ensures r.Success? ==> Clean(es)
    ensures r.Failure? ==> Aborted(es)
  {
    ghost var db0 := store.db;
    gone, es := {}, [];
    var i := 0;
    while i < |ids|
      invariant 0 <= i <= |ids|
      invariant store.Valid()
      invariant store.db == db0.(favourIndex := db0.favourIndex - gone)
      invariant gone == Dangling(ids, i, keep)
      invariant store.journal == old(store.journal) + es && Unindexing(es) && Clean(es)
    {
      var id := ids[i];
      if id !in keep {
        var e := store.UnindexFavour(id);
        AppendEntry(es, Entry(Call.UnindexFavours([id]), e.Success?));
        es := es + [Entry(Call.UnindexFavours([id]), e.Success?)];
        if e.Failure? {
          DanglingMembers(ids, i, keep);
          return Failure(e.error), gone, es;
        }
        assert db0.favourIndex - gone - {id} == db0.favourIndex - (gone + {id});
        gone := gone + {id};
      }
      i := i + 1;
    }
    DanglingMembers(ids, i, keep);
    r := Success(());
  }

  /** `get_all_sponsors()` on the sponsor index, keeping the documents' ids:
      each indexed id once. */
  method ListSponsorIds(store: Store) returns (r: Result<seq<Uuid>, string>)
    requires store.Valid()
    modifies store`journal
    ensures r.Success? <==> |old(store.journal)| !in store.faulty
    ensures r.Failure? ==> r.error == Unavailable
    ensures r.Success? ==> Distinct(r.value) && Elems(r.value) == store.db.sponsorIndex.Keys
    ensures store.journal == old(store.journal) + [Entry(Call.GetIndexedSponsors, r.Success?)]
  {
    var listed := store.GetIndexedSponsors();
    if listed.Failure? {
      return Failure(listed.error);
    }
    var ids := MapSeq(SponsorDocId, listed.value);
    ListedIds(store.db.sponsorIndex, listed.value, SponsorDocId, ids);
    r := Success(ids);
  }

  /** `get_all_favours()` on the favour index, keeping the documents' ids:
      each indexed id once. */
  method ListFavourIds(store: Store) returns (r: Result<seq<Uuid>, string>)
    requires store.Valid()
    modifies store`journal
    ensures r.Success? <==> |old(store.journal)| !in store.faulty
    ensures r.Failure? ==> r.error == Unavailable
    ensures r.Success? ==> Distinct(r.value) && Elems(r.value) == store.db.favourIndex.Keys
    ensures store.journal == old(store.journal) + [Entry(Call.GetIndexedFavours, r.Success?)]
  {
    var listed := store.GetIndexedFavours();
    if listed.Failure? {
      return Failure(listed.error);
    }
    var ids := MapSeq(FavourDocId, listed.value);
    ListedIds(store.db.favourIndex, listed.value, FavourDocId, ids);
    r := Success(ids);
  }

  /** The first loop of `delete_dangling_meili`: lists the sponsor index and
      removes every document whose id is not in `keep`, counting them; the
      first failing call ends it. Only the sponsor index changes. */
  method PruneSponsors(store: Store, keep: set<Uuid>) returns (r: Result<nat, string>, ghost es: seq<Entry>)
    requires store.Valid()
    modifies store
    ensures store.Valid()
    ensures store.db == old(store.db).(sponsorIndex := store.db.sponsorIndex)
    ensures Pruned(old(store.db.sponsorIndex), store.db.sponsorIndex, keep)
    ensures r.Success? ==> store.db.sponsorIndex.Keys == old(store.db.sponsorIndex).Keys * keep
    ensures r.Success? ==> r.value == |old(store.db.sponsorIndex).Keys - keep|
    ensures r.Failure? ==> r.error == Unavailable
    ensures store.journal == old(store.journal) + es && Unindexing(es)
    ensures r.Success? ==> Clean(es)
    ensures r.Failure? ==> Aborted(es)
  {
    ghost var db0 := store.db;
    var ids := ListSponsorIds(store);
    es := [Entry(Call.GetIndexedSponsors, ids.Success?)];
    if ids.Failure? {
      return Failure(ids.error), es;
    }
    var deleted, gone, es2 := UnindexSponsors(store, ids.value, keep);
    ConcatEntries(es, es2);
    es := es + es2;
    PrunedBy(db0.sponsorIndex, ids.value, gone, keep, deleted.Success?);
    r := deleted;
  }

  /** The second loop of `delete_dangling_meili`: lists the favour index and
      removes, one request each, every document whose id is not in `keep`; the
      first failing call ends it. Only the favour index changes. */
  method PruneFavours(store: Store, keep: set<Uuid>) returns (r: Result<(), string>, ghost es: seq<Entry>)
    requires store.Valid()
    modifies store
    ensures store.Valid()
    ensures store.db == old(store.db).(favourIndex := store.db.favourIndex)
    ensures Pruned(old(store.db.favourIndex), store.db.favourIndex, keep)
    ensures r.Success? ==> store.db.favourIndex.Keys == old(store.db.favourIndex).Keys * keep
    ensures r.Failure? ==> r.error == Unavailable
    ensures store.journal == old(store.journal) + es && Unindexing(es)
    ensures r.Success? ==> Clean(es)
    ensures r.Failure? ==> Aborted(es)
  {
    ghost var db0 := store.db;
    var ids := ListFavourIds(store);
    es := [Entry(Call.GetIndexedFavours, ids.Success?)];
    if ids.Failure? {
      return Failure(ids.error), es;
    }
    var done, gone, es2 := UnindexFavours(store, ids.value, keep);
    ConcatEntries(es, es2);
    es := es + es2;
    PrunedBy(db0.favourIndex, ids.value, gone, keep, done.Success?);
    r := done;
  }

  /** `delete_dangling_meili`: prunes the sponsor index to the stored uids, then
      the favour index to the uids of the stored favours; the count is that of
      the sponsor documents removed. Only the two indexes change. */
  method DeleteDangling(store: Store, docs: seq<Sponsor>) returns (r: Result<nat, string>, ghost es: seq<Entry>)
    requires store.Valid()
    modifies store
    ensures store.Valid()
    ensures store.db == old(store.db).(sponsorIndex := store.db.sponsorIndex, favourIndex := store.db.favourIndex)
    ensures Pruned(old(store.db.sponsorIndex), store.db.sponsorIndex, Uids(docs))
    ensures Pruned(old(store.db.favourIndex), store.db.favourIndex, FavourUids(docs))
    ensures r.Success? ==> store.db.sponsorIndex.Keys == old(store.db.sponsorIndex).Keys * Uids(docs)
    ensures r.Success? ==> store.db.favourIndex.Keys == old(store.db.favourIndex).Keys * FavourUids(docs)
    ensures r.Success? ==> r.value == |old(store.db.sponsorIndex).Keys - Uids(docs)|
    ensures r.Failure? ==> r.error == Unavailable
    ensures store.journal == old(store.journal) + es && Unindexing(es)
    ensures r.Success? ==> Clean(es)
    ensures r.Failure? ==> Aborted(es)
  {
    var uids, owned := Uids(docs), FavourUids(docs);
    ghost var db0, j0 := store.db, store.journal;
    var deleted, es1 := PruneSponsors(store, uids);
    assert Pruned(db0.favourIndex, store.db.favourIndex, owned);
    if deleted.Failure? {
      return Failure(deleted.error), es1;
    }
    ghost var db1 := store.db;
    var favours, es2 := PruneFavours(store, owned);
    assert store.db == db0.(sponsorIndex := db1.sponsorIndex, favourIndex := store.db.favourIndex);
    ConcatEntries(es1, es2);
    es := es1 + es2;
    JournalAppend(j0, es1, es2);
    if favours.Failure? {
      return Failure(favours.error), es;
    }
    r := Success(deleted.value);
  }

  // ---------------------------------------------------------------------------
  // insert_all_to_meili

  /** The favour uids one sponsor owns. */
  function OwnFavourUids(s: Sponsor): set<Uuid>
  {
    set j | 0 <= j < |s.favours| :: s.favours[j].uid
  }

  lemma UidsCons(docs: seq<Sponsor>)
    requires docs != []
    ensures Uids(docs) == {docs[0].uid} + Uids(docs[1..])
    ensures FavourUids(docs) == OwnFavourUids(docs[0]) + FavourUids(docs[1..])
  {
    forall k | k in Uids(docs) ensures k in {docs[0].uid} + Uids(docs[1..]) {
      var i :| 0 <= i < |docs| && docs[i].uid == k;
      if i > 0 { assert docs[1..][i - 1].uid == k; }
    }
    forall k | k in Uids(docs[1..]) ensures k in Uids(docs) {
      var i :| 0 <= i < |docs[1..]| && docs[1..][i].uid == k;
      assert docs[i + 1].uid == k;
    }
    forall k | k in FavourUids(docs) ensures k in OwnFavourUids(docs[0]) + FavourUids(docs[1..]) {
      var i, j :| 0 <= i < |docs| && 0 <= j < |docs[i].favours| && docs[i].favours[j].uid == k;
      if i > 0 { assert docs[1..][i - 1].favours[j].uid == k; }
    }
    forall k | k in FavourUids(docs[1..]) ensures k in FavourUids(docs) {
      var i, j :| 0 <= i < |docs[1..]| && 0 <= j < |docs[1..][i].favours| && docs[1..][i].favours[j].uid == k;
      assert docs[i + 1].favours[j].uid == k;
    }
  }

  /** The favour documents of a sponsor carry exactly its favours' uids. */
  lemma FavourDocIdsOfSponsor(s: Sponsor)
    ensures FavourDocIds(Meili.FromSponsorVec(s.favours)) == OwnFavourUids(s)
  {
    var docs := Meili.FromSponsorVec(s.favours);
    forall k | k in OwnFavourUids(s) ensures k in FavourDocIds(docs) {
      var j :| 0 <= j < |s.favours| && s.favours[j].uid == k;
      assert docs[j].id == k;
    }
  }

  /** The collections once one sponsor's index document and its favours'
      documents have been added. */
  function IndexedOne(db: Db, s: Sponsor): Db
  {
    var doc := Meili.FromSponsor(s);
    var db1 := db.(sponsorIndex := db.sponsorIndex[doc.id := doc]);
    db1.(favourIndex := UpsertFavours(db1.favourIndex, Meili.FromSponsorVec(s.favours)))
  }

  /** Indexing one sponsor adds its uid to the sponsor index and its favours'
      uids to the favour index, and changes nothing else. */
  lemma IndexOneKeys(db: Db, s: Sponsor)
    ensures var db2 := IndexedOne(db, s);
            && db2 == db.(sponsorIndex := db2.sponsorIndex, favourIndex := db2.favourIndex)
            && db2.sponsorIndex == db.sponsorIndex[s.uid := Meili.FromSponsor(s)]
            && db2.favourIndex.Keys == db.favourIndex.Keys + OwnFavourUids(s)
  {
    var favours := Meili.FromSponsorVec(s.favours);
    UpsertFavoursKeys(db.favourIndex, favours);
    FavourDocIdsOfSponsor(s);
  }

  /** The collections after indexing every sponsor and its favours, in order. */
  function IndexAll(db: Db, docs: seq<Sponsor>): Db
    decreases |docs|
  {
    if docs == [] then db else IndexAll(IndexedOne(db, docs[0]), docs[1..])
  }

  /** Indexing every sponsor changes nothing but the two indexes. */
  lemma {:induction false} IndexAllFrame(db: Db, docs: seq<Sponsor>)
    ensures IndexAll(db, docs) == db.(sponsorIndex := IndexAll(db, docs).sponsorIndex,
                                      favourIndex := IndexAll(db, docs).favourIndex)
    decreases |docs|
  {
    if docs != [] {
      IndexAllFrame(IndexedOne(db, docs[0]), docs[1..]);
      IndexOneKeys(db, docs[0]);
    }
  }

  /** Indexing every sponsor adds exactly their uids to the sponsor index and
      their favours' uids to the favour index. */
  lemma {:induction false} IndexAllKeys(db: Db, docs: seq<Sponsor>)
    ensures IndexAll(db, docs).sponsorIndex.Keys == db.sponsorIndex.Keys + Uids(docs)
    ensures IndexAll(db, docs).favourIndex.Keys == db.favourIndex.Keys + FavourUids(docs)
    decreases |docs|
  {
    if docs != [] {
      var db2 := IndexedOne(db, docs[0]);
      IndexAllKeys(db2, docs[1..]);
      IndexOneKeys(db, docs[0]);
      UidsCons(docs);
    }
  }

  /** After indexing every sponsor each of their uids holds the index document
      of a sponsor with that uid, and other ids keep their earlier document. */
  lemma {:induction false} IndexAllDocs(db: Db, docs: seq<Sponsor>)
    ensures forall k :: k in Uids(docs) ==>
              && k in IndexAll(db, docs).sponsorIndex
              && exists i :: 0 <= i < |docs| && docs[i].uid == k
                             && IndexAll(db, docs).sponsorIndex[k] == Meili.FromSponsor(docs[i])
    ensures forall k :: k in db.sponsorIndex && k !in Uids(docs) ==>
              k in IndexAll(db, docs).sponsorIndex && IndexAll(db, docs).sponsorIndex[k] == db.sponsorIndex[k]
    decreases |docs|
  {
    if docs != [] {
      var db2 := IndexedOne(db, docs[0]);
      var after := IndexAll(db, docs);
      assert after == IndexAll(db2, docs[1..]);
      IndexAllDocs(db2, docs[1..]);
      IndexOneKeys(db, docs[0]);
      UidsCons(docs);
      forall k | k in Uids(docs)
        ensures k in after.sponsorIndex
        ensures exists i :: 0 <= i < |docs| && docs[i].uid == k && after.sponsorIndex[k] == Meili.FromSponsor(docs[i])
      {
        if k in Uids(docs[1..]) {
          var i :| 0 <= i < |docs[1..]| && docs[1..][i].uid == k && after.sponsorIndex[k] == Meili.FromSponsor(docs[1..][i]);
          assert docs[i + 1] == docs[1..][i];
        } else {
          assert db2.sponsorIndex[k] == Meili.FromSponsor(docs[0]);
        }
      }
    }
  }

  /** The insertion pass from the `i`-th sponsor on: for each sponsor its index
      document is added, then its favours' documents. Indexing is refused only
      when the store is unavailable, and the first refusal ends the pass. */
  function InsertRun(db: Db, docs: seq<Sponsor>, i: nat, pos: nat, faulty: set<nat>): Run
    requires i <= |docs|
    decreases |docs| - i
  {
    if i == |docs| then Run(db, [], None)
    else
      var doc := Meili.FromSponsor(docs[i]);
      var favourDocs := Meili.FromSponsorVec(docs[i].favours);
      if pos in faulty then Run(db, [Entry(IndexSponsor(doc), false)], Some(Unavailable))
      else if pos + 1 in faulty then
        Run(db.(sponsorIndex := db.sponsorIndex[doc.id := doc]),
            [Entry(IndexSponsor(doc), true), Entry(IndexFavours(favourDocs), false)], Some(Unavailable))
      else
        Prefixed([Entry(IndexSponsor(doc), true), Entry(IndexFavours(favourDocs), true)],
                 InsertRun(IndexedOne(db, docs[i]), docs, i + 1, pos + 2, faulty))
  }

  /** Every call of the insertion pass is an indexing call, all succeed but
      possibly the last, a refusal is the store being unavailable, and only
      the two indexes change. */
  lemma {:induction false} InsertRunIndexes(db: Db, docs: seq<Sponsor>, i: nat, pos: nat, faulty: set<nat>)
    requires i <= |docs|
    ensures var run := InsertRun(db, docs, i, pos, faulty);
            && Indexing(run.entries)
            && (run.failure.None? ==> Clean(run.entries))
            && (run.failure.Some? ==> run.failure == Some(Unavailable) && Aborted(run.entries))
            && run.db == db.(sponsorIndex := run.db.sponsorIndex, favourIndex := run.db.favourIndex)
    decreases |docs| - i
  {
    if i < |docs| && pos !in faulty && pos + 1 !in faulty {
      var run := InsertRun(db, docs, i, pos, faulty);
      var rest := InsertRun(IndexedOne(db, docs[i]), docs, i + 1, pos + 2, faulty);
      InsertRunIndexes(IndexedOne(db, docs[i]), docs, i + 1, pos + 2, faulty);
      assert run.entries[2..] == rest.entries;
    }
  }

  /** A pass that is not refused indexes every remaining sponsor. */
  lemma {:induction false} InsertRunCompletes(db: Db, docs: seq<Sponsor>, i: nat, pos: nat, faulty: set<nat>)
    requires i <= |docs|
    ensures var run := InsertRun(db, docs, i, pos, faulty);
            run.failure.None? ==> run.db == IndexAll(db, docs[i..])
    decreases |docs| - i
  {
    if i == |docs| {
      assert docs[i..] == [];
    } else {
      assert docs[i..][0] == docs[i];
      assert docs[i..][1..] == docs[i + 1..];
      if pos !in faulty && pos + 1 !in faulty {
        InsertRunCompletes(IndexedOne(db, docs[i]), docs, i + 1, pos + 2, faulty);
      }
    }
  }

  /** One iteration of `insert_all_to_meili`: indexes the `i`-th sponsor, then
      its favours; either call failing ends the pass with its error. Otherwise
      the rest of the pass is the pass from the next sponsor. */
  method IndexOne(store: Store, docs: seq<Sponsor>, i: nat) returns (r: Result<(), string>, ghost es: seq<Entry>)
    requires store.Valid()
    requires i < |docs|
    modifies store
    ensures store.Valid()
    ensures store.journal == old(store.journal) + es
    ensures r.Success? ==>
              InsertRun(old(store.db), docs, i, |old(store.journal)|, store.faulty)
              == Prefixed(es, InsertRun(store.db, docs, i + 1, |old(store.journal)| + |es|, store.faulty))
    ensures r.Failure? ==>
              InsertRun(old(store.db), docs, i, |old(store.journal)|, store.faulty)
              == Run(store.db, es, Some(r.error))
  {
    var s := docs[i];
    var e1 := store.IndexDoc(Meili.FromSponsor(s));
    es := [Entry(IndexSponsor(Meili.FromSponsor(s)), e1.Success?)];
    if e1.Failure? {
      return Failure(e1.error), es;
    }
    var e2 := store.IndexFavourDocs(Meili.FromSponsorVec(s.favours));
    es := es + [Entry(IndexFavours(Meili.FromSponsorVec(s.favours)), e2.Success?)];
    if e2.Failure? {
      return Failure(e2.error), es;
    }
    r := Success(());
  }

  /** `insert_all_to_meili`: indexes each sponsor in order, counting them; the
      first failing call ends it. The collections and the journal are those of
      the insertion pass run from the current state. */
  method InsertAll(store: Store, docs: seq<Sponsor>) returns (r: Result<nat, string>, ghost es: seq<Entry>)
    requires store.Valid()
    modifies store
    ensures store.Valid()
    ensures var run := InsertRun(old(store.db), docs, 0, |old(store.journal)|, store.faulty);
            && store.db == run.db
            && es == run.entries
            && (r.Success? <==> run.failure.None?)
            && (r.Failure? ==> run.failure == Some(r.error))
    ensures r.Success? ==> r.value == |docs|
    ensures store.journal == old(store.journal) + es
  {
    ghost var db0, j0 := store.db, store.journal;
    ghost var faulty := store.faulty;
    ghost var total := InsertRun(db0, docs, 0, |j0|, faulty);
    ghost var pos := |j0|;
    es := [];
    var inserted := 0;
    var i := 0;
    while i < |docs|
      invariant 0 <= i <= |docs|
      invariant store.Valid()
      invariant inserted == i
      invariant store.journal == j0 + es && pos == |store.journal|
      invariant total == Prefixed(es, InsertRun(store.db, docs, i, pos, faulty))
    {
      var one, es1 := IndexOne(store, docs, i);
      JournalAppend(j0, es, es1);
      if one.Failure? {
        es := es + es1;
        return Failure(one.error), es;
      }
      PrefixedTwice(es, es1, InsertRun(store.db, docs, i + 1, pos + |es1|, faulty));
      es := es + es1;
      pos := pos + |es1|;
      inserted := inserted + 1;
      i := i + 1;
    }
    assert es + [] == es;
    r := Success(inserted);
  }

  // ---------------------------------------------------------------------------
  // run

  /** The uids of the stored sponsors. */
  function StoredUids(db: Db): set<Uuid>
  {
    set s | s in db.sponsors.Values :: s.uid
  }

  /** The uids of the favours of the stored sponsors. */
  function StoredFavourUids(db: Db): set<Uuid>
  {
    set s, f | s in db.sponsors.Values && f in s.favours :: f.uid
  }

  /** A listing of every stored sponsor carries the stored uids and favour uids. */
  lemma ListingUids(db: Db, docs: seq<Sponsor>)
    requires forall s :: s in docs <==> s in db.sponsors.Values
    ensures Uids(docs) == StoredUids(db)
    ensures FavourUids(docs) == StoredFavourUids(db)
  {
    forall k | k in StoredUids(db) ensures k in Uids(docs) {
      var s :| s in db.sponsors.Values && s.uid == k;
      var i :| 0 <= i < |docs| && docs[i] == s;
    }
    forall k | k in StoredFavourUids(db) ensures k in FavourUids(docs) {
      var s, f :| s in db.sponsors.Values && f in s.favours && f.uid == k;
      var i :| 0 <= i < |docs| && docs[i] == s;
      var j :| 0 <= j < |s.favours| && s.favours[j] == f;
    }
    forall k | k in FavourUids(docs) ensures k in StoredFavourUids(db) {
      var i, j :| 0 <= i < |docs| && 0 <= j < |docs[i].favours| && docs[i].favours[j].uid == k;
      assert docs[i] in docs && docs[i].favours[j] in docs[i].favours;
    }
  }

  /** No call removing index documents comes after one adding them. */
  ghost predicate DeletesFirst(es: seq<Entry>)
  {
    forall i, j :: 0 <= i < j < |es| && IsIndexing(es[i].call) ==> !IsUnindexing(es[j].call)
  }

  /** Deletions, then insertions. */
  lemma ReindexEntries(d: seq<Entry>, ins: seq<Entry>)
    requires Unindexing(d) && Indexing(ins)
    ensures DeletesFirst(d) && DeletesFirst(d + ins)
    ensures Clean(d) && Clean(ins) ==> Clean(d + ins)
    ensures Clean(d) && Aborted(ins) ==> Aborted(d + ins)
  {
    var es := d + ins;
    forall i, j | 0 <= i < j < |es| && IsIndexing(es[i].call) ensures !IsUnindexing(es[j].call) {
      assert i >= |d| && es[j] == ins[j - |d|];
    }
    if Clean(d) && Aborted(ins) {
      assert es[|es| - 1] == ins[|ins| - 1];
      forall i | 0 <= i < |es| - 1 ensures es[i].ok {
        if i >= |d| { assert es[i] == ins[i - |d|]; }
      }
    }
  }

  /** A listing call in front of a journal that removes before it adds. */
  lemma SyncEntries(g: Entry, es: seq<Entry>)
    requires !IsIndexing(g.call) && g.ok && DeletesFirst(es)
    ensures ([g] + es)[0] == g && DeletesFirst([g] + es)
    ensures Clean(es) ==> Clean([g] + es)
    ensures Aborted(es) ==> Aborted([g] + es)
  {
    var all := [g] + es;
    forall i, j | 0 <= i < j < |all| && IsIndexing(all[i].call) ensures !IsUnindexing(all[j].call) {
      assert all[i] == es[i - 1] && all[j] == es[j - 1];
    }
    if Aborted(es) {
      assert all[|all| - 1] == es[|es| - 1];
    }
  }

  /** Pruning to the listed sponsors and then indexing them all leaves exactly
      their uids and their favours' uids in the indexes, and the stored
      collections as they were. */
  lemma ReindexIndexes(db0: Db, db1: Db, docs: seq<Sponsor>)
    requires db1 == db0.(sponsorIndex := db1.sponsorIndex, favourIndex := db1.favourIndex)
    requires db1.sponsorIndex.Keys == db0.sponsorIndex.Keys * Uids(docs)
    requires db1.favourIndex.Keys == db0.favourIndex.Keys * FavourUids(docs)
    ensures var db2 := IndexAll(db1, docs);
            && db2 == db0.(sponsorIndex := db2.sponsorIndex, favourIndex := db2.favourIndex)
            && db2.sponsorIndex.Keys == Uids(docs)
            && db2.favourIndex.Keys == FavourUids(docs)
  {
    IndexAllFrame(db1, docs);
    IndexAllKeys(db1, docs);
  }

  /** After indexing them all, each sponsor document is that of a listed
      sponsor, when the index held only listed uids before. */
  lemma ReindexDocs(db1: Db, docs: seq<Sponsor>)
    requires db1.sponsorIndex.Keys <= Uids(docs)
    ensures var db2 := IndexAll(db1, docs);
            forall k :: k in db2.sponsorIndex ==>
              exists s :: s in docs && s.uid == k && db2.sponsorIndex[k] == Meili.FromSponsor(s)
  {
    var db2 := IndexAll(db1, docs);
    IndexAllKeys(db1, docs);
    IndexAllDocs(db1, docs);
    forall k | k in db2.sponsorIndex
      ensures exists s :: s in docs && s.uid == k && db2.sponsorIndex[k] == Meili.FromSponsor(s)
    {
      var i :| 0 <= i < |docs| && docs[i].uid == k && db2.sponsorIndex[k] == Meili.FromSponsor(docs[i]);
      assert docs[i] in docs;
    }
  }

  /** The two passes of `run` after the listing: `delete_dangling_meili`, then
      `insert_all_to_meili`, over the listed sponsors. */
  method Reindex(store: Store, docs: seq<Sponsor>) returns (r: Result<(), string>, ghost es: seq<Entry>)
    requires store.Valid()
    modifies store
    ensures store.Valid()
    ensures store.journal == old(store.journal) + es
    ensures store.db == old(store.db).(sponsorIndex := store.db.sponsorIndex, favourIndex := store.db.favourIndex)
    ensures DeletesFirst(es)
    ensures r.Success? ==> Clean(es)
    ensures r.Failure? ==> Aborted(es) && r.error == Unavailable
    ensures r.Success? ==> store.db.sponsorIndex.Keys == Uids(docs)
    ensures r.Success? ==> store.db.favourIndex.Keys == FavourUids(docs)
    ensures r.Success? ==>
              forall k :: k in store.db.sponsorIndex ==>
                exists s :: s in docs && s.uid == k && store.db.sponsorIndex[k] == Meili.FromSponsor(s)
  {
    ghost var db0 := store.db;
    var deleted, d := DeleteDangling(store, docs);
    ReindexEntries(d, []);
    if deleted.Failure? {
      return Failure(deleted.error), d;
    }
    ghost var db1, pos := store.db, |store.journal|;
    var inserted, ins := InsertAll(store, docs);
    InsertRunIndexes(db1, docs, 0, pos, store.faulty);
    InsertRunCompletes(db1, docs, 0, pos, store.faulty);
    assert docs[0..] == docs;
    ReindexEntries(d, ins);
    JournalAppend(old(store.journal), d, ins);
    es := d + ins;
    if inserted.Failure? {
      return Failure(inserted.error), es;
    }
    ReindexIndexes(db0, db1, docs);
    ReindexDocs(db1, docs);
    r := Success(());
  }

  /** `run`: lists every stored sponsor, removes the dangling index documents,
      then indexes every stored sponsor and its favours; the first failing call
      ends it with that call's error. Only the indexes change. On success the
      sponsor index holds exactly the stored uids, each under the index document
      of a stored sponsor with that uid, and the favour index holds exactly the
      uids of the stored favours. */
  method Sync(store: Store) returns (r: Result<(), string>, ghost es: seq<Entry>)
    requires store.Valid()
    modifies store
    ensures store.Valid()
    ensures store.journal == old(store.journal) + es
    ensures store.db == old(store.db).(sponsorIndex := store.db.sponsorIndex, favourIndex := store.db.favourIndex)
    ensures es != [] && es[0] == Entry(GetAll, |old(store.journal)| !in store.faulty)
    ensures DeletesFirst(es)
    ensures r.Success? ==> Clean(es)
    ensures r.Failure? ==> Aborted(es) && r.error == Unavailable
    ensures r.Success? ==> store.db.sponsorIndex.Keys == StoredUids(old(store.db))
    ensures r.Success? ==> store.db.favourIndex.Keys == StoredFavourUids(old(store.db))
    ensures r.Success? ==>
              forall k :: k in store.db.sponsorIndex ==>
                exists s :: s in old(store.db).sponsors.Values && s.uid == k
                            && store.db.sponsorIndex[k] == Meili.FromSponsor(s)
  {
    ghost var db0, j0 := store.db, store.journal;
    var all := store.GetAll();
    var g := Entry(GetAll, all.Success?);
    if all.Failure? {
      return Failure(all.error), [g];
    }
    var docs := all.value;
    ListingUids(db0, docs);
    var done, rest := Reindex(store, docs);
    SyncEntries(g, rest);
    JournalAppend(j0, [g], rest);
    es := [g] + rest;
    if done.Failure? {
      return Failure(done.error), es;
    }
    forall k | k in store.db.sponsorIndex
      ensures exists s :: s in db0.sponsors.Values && s.uid == k && store.db.sponsorIndex[k] == Meili.FromSponsor(s)
    {
      var s :| s in docs && s.uid == k && store.db.sponsorIndex[k] == Meili.FromSponsor(s);
    }
    r := Success(());
  }
}
