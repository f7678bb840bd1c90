/** `update_admins` (backend/src/routes/settings/update_admins.rs): makes the set
    of administrators equal to the requested list of emails. The current admins
    and the requested admins are sets of ADMIN role records; every record in
    their symmetric difference is written to the change log, then the requested
    emails that are not admin yet are upserted as ADMIN and the admins that were
    not requested are upserted as USER. Role records are keyed by email and
    written with an upsert. */
module UpdateAdmins {

  import opened Wrappers
  import opened Models
  import opened Seqs
  import opened Store
  import opened Http

  // ---------------------------------------------------------------------------
  // The sets the handler builds

  /** `filter(|r| r.role == Role::ADMIN).collect()`: the current admins. */
  function CurrentAdmins(records: seq<UserRole>): (r: set<UserRole>)
    ensures forall u :: u in r <==> u in records && u.role == ADMIN
  {
    set u | u in records && u.role == ADMIN
  }

  /** `map(|email| UserRole { email, role: ADMIN }).collect()`: the requested admins. */
  function RequestedAdmins(emails: seq<string>): (r: set<UserRole>)
    ensures forall u :: u in r <==> u.role == ADMIN && u.email in emails
  {
    set e | e in emails :: UserRole(e, ADMIN)
  }

  /** The admin records stored in a role table. */
  function AdminRecords(roles: map<string, Role>): (r: set<UserRole>)
    ensures forall u :: u in r <==> u.role == ADMIN && u.email in roles && roles[u.email] == ADMIN
  {
    set e | e in AdminEmails(roles) :: UserRole(e, ADMIN)
  }

  /** The emails of a set of role records. */
  function Emails(rs: set<UserRole>): set<string>
  {
    set u | u in rs :: u.email
  }

  /** The emails of a sequence of role records. */
  ghost function EmailsOf(rs: seq<UserRole>): set<string>
  {
    set u | u in rs :: u.email
  }

  /** The role table after upserting `role` for every email in `emails`
      (`add_or_update_role` replaces the record with that email, or adds one). */
  function Override(roles: map<string, Role>, emails: set<string>, role: Role): (r: map<string, Role>)
    ensures r.Keys == roles.Keys + emails
    ensures forall e :: e in emails ==> r[e] == role
    ensures forall e :: e in roles && e !in emails ==> r[e] == roles[e]
  {
    map e | e in roles.Keys + emails :: if e in emails then role else roles[e]
  }

  /** The role table once the whole request is applied: first the promotions
      (`req_admins - db_admins`), then the demotions (`db_admins - req_admins`). */
  function Reconciled(roles: map<string, Role>, req: set<UserRole>, cur: set<UserRole>): map<string, Role>
  {
    Override(Override(roles, Emails(req - cur), ADMIN), Emails(cur - req), USER)
  }

  /** The change-log entries for the given role records, in order. */
  function RoleChanges(who: string, rs: seq<UserRole>): (r: seq<Change>)
    ensures |r| == |rs|
    ensures forall i :: 0 <= i < |rs| ==> r[i] == Change(who, ChangeUserRole(rs[i]))
  {
    if rs == [] then [] else RoleChanges(who, rs[..|rs| - 1]) + [Change(who, ChangeUserRole(rs[|rs| - 1]))]
  }

  // ---------------------------------------------------------------------------
  // What the reconciliation promises

  /** Repeated emails in the request collapse into one requested admin. */
  lemma DuplicatesCollapse(emails: seq<string>, e: string)
    requires e in emails
    ensures RequestedAdmins(emails + [e]) == RequestedAdmins(emails)
    ensures |RequestedAdmins(emails)| == |Elems(emails)|
  {
    var req := RequestedAdmins(emails);
    assert Emails(req) == Elems(emails) by {
      forall x | x in Elems(emails) ensures x in Emails(req) {
        assert UserRole(x, ADMIN) in req;
      }
    }
    EmailsOfAdmins(req);
  }

  /** Records that all carry ADMIN are as many as their emails. */
  lemma {:induction false} EmailsOfAdmins(rs: set<UserRole>)
    requires forall u :: u in rs ==> u.role == ADMIN
    ensures |Emails(rs)| == |rs|
    decreases |rs|
  {
    if rs != {} {
      var u :| u in rs;
      var rest := rs - {u};
      EmailsOfAdmins(rest);
      assert Emails(rs) == Emails(rest) + {u.email};
      assert u.email !in Emails(rest);
    }
  }

  /** Promotions and demotions concern different emails, and every record in
      either carries ADMIN: a demotion is logged with the role it loses. */
  lemma ChangesDisjoint(req: set<UserRole>, cur: set<UserRole>)
    requires forall u :: u in req ==> u.role == ADMIN
    requires forall u :: u in cur ==> u.role == ADMIN
    ensures Emails(req - cur) !! Emails(cur - req)
    ensures forall u :: u in (req - cur) + (cur - req) ==> u.role == ADMIN
  {
    forall e | e in Emails(req - cur) ensures e !in Emails(cur - req) {
      var u :| u in req - cur && u.email == e;
      assert u.role == ADMIN;
    }
  }

  /** After the request the admins are exactly the requested emails; an email
      in neither set keeps its record as it was. */
  lemma {:induction false} AdminsAfterwards(roles: map<string, Role>, emails: seq<string>)
    ensures var after := Reconciled(roles, RequestedAdmins(emails), AdminRecords(roles));
            && AdminEmails(after) == Elems(emails)
            && (forall e :: e !in emails && e !in AdminEmails(roles) ==>
                  (e in after <==> e in roles) && (e in roles ==> after[e] == roles[e]))
  {
    var req := RequestedAdmins(emails);
    var cur := AdminRecords(roles);
    var after := Reconciled(roles, req, cur);
    ChangesDisjoint(req, cur);
    forall e ensures e in AdminEmails(after) <==> e in Elems(emails) {
      var u := UserRole(e, ADMIN);
      if e in emails {
        assert u in req;
        if u !in cur {
          assert e in Emails(req - cur);
        }
        assert e !in Emails(cur - req);
      } else {
        assert u !in req;
        if u in cur {
          assert e in Emails(cur - req);
        } else {
          assert e !in Emails(req - cur);
        }
      }
    }
    forall e | e !in emails && e !in AdminEmails(roles)
      ensures (e in after <==> e in roles) && (e in roles ==> after[e] == roles[e])
    {
      assert e !in Emails(req - cur);
      assert e !in Emails(cur - req);
    }
  }

  /** Sending the same request again finds nothing to add, remove or log. */
  lemma RepeatIsNoOp(roles: map<string, Role>, emails: seq<string>)
    ensures var after := Reconciled(roles, RequestedAdmins(emails), AdminRecords(roles));
            && RequestedAdmins(emails) == AdminRecords(after)
            && Reconciled(after, RequestedAdmins(emails), AdminRecords(after)) == after
  {
    var after := Reconciled(roles, RequestedAdmins(emails), AdminRecords(roles));
    AdminsAfterwards(roles, emails);
    var req := RequestedAdmins(emails);
    assert req == AdminRecords(after) by {
      forall u ensures u in req <==> u in AdminRecords(after) {
        assert u.role == ADMIN ==> (u.email in AdminEmails(after) <==> u.email in Elems(emails));
      }
    }
    assert Emails({}) == {};
  }

  // ---------------------------------------------------------------------------
  // The handler's loops

  /** The journal entries a loop of store calls left: every call but possibly
      the last succeeded, and the loop failed exactly when the last one did. */
  ghost predicate Halted(es: seq<Entry>, failed: bool)
  {
    && (forall i :: 0 <= i < |es| - 1 ==> es[i].ok)
    && (failed <==> es != [] && !es[|es| - 1].ok)
  }

  /** The first loop: one change-log entry per record, in order; the first
      failing insert ends it. `n` records were logged. */
  method LogRoleChanges(store: Store, who: string, rs: seq<UserRole>)
    returns (r: Result<(), string>, ghost n: nat, ghost es: seq<Entry>)
    requires store.Valid()
    modifies store
    ensures store.Valid()
    ensures n <= |rs| && (r.Success? ==> n == |rs|)
    ensures store.db == old(store.db).(changes := old(store.db.changes) + RoleChanges(who, rs[..n]))
    ensures r.Failure? ==> r.error == Unavailable
    ensures store.journal == old(store.journal) + es
    ensures |es| <= |rs| && Halted(es, r.Failure?)
    ensures forall i {:trigger es[i]} :: 0 <= i < |es| ==> es[i].call == AddChange(Change(who, ChangeUserRole(rs[i])))
    ensures r.Success? ==> |es| == |rs| && AllOk(es)
  {
    ghost var db0 := store.db;
    ghost var j0 := store.journal;
    es := [];
    var i := 0;
    while i < |rs|
      invariant i <= |rs| && |es| == i
      invariant store.Valid()
      invariant store.db == db0.(changes := db0.changes + RoleChanges(who, rs[..i]))
      invariant store.journal == j0 + es
      invariant AllOk(es)
      invariant forall k {:trigger es[k]} :: 0 <= k < |es| ==> es[k].call == AddChange(Change(who, ChangeUserRole(rs[k])))
    {
      var c := Change(who, ChangeUserRole(rs[i]));
      var e := store.LogChange(c);
      es := es + [Entry(AddChange(c), e.Success?)];
      if e.Failure? {
        return Failure(e.error), i, es;
      }
      assert rs[..i + 1][..i] == rs[..i];
      i := i + 1;
    }
    assert rs[..i] == rs;
    r, n := Success(()), i;
  }

  /** Upserting one more email. */
  lemma OverrideStep(roles: map<string, Role>, done: set<string>, e: string, role: Role)
    ensures Override(roles, done, role)[e := role] == Override(roles, done + {e}, role)
  {
  }

  /** Upserting no email changes nothing. */
  lemma OverrideNone(roles: map<string, Role>, role: Role)
    ensures Override(roles, {}, role) == roles
  {
  }

  /** The emails of a growing prefix. */
  lemma EmailsOfPrefix(rs: seq<UserRole>, i: nat)
    requires i < |rs|
    ensures EmailsOf(rs[..i + 1]) == EmailsOf(rs[..i]) + {rs[i].email}
    ensures EmailsOf(rs[..i]) <= EmailsOf(rs)
  {
    assert rs[..i + 1] == rs[..i] + [rs[i]];
  }

  /** The second and third loops: upserts `role` for the email of each record,
      in order; the first failing write ends it. `done` are the emails written. */
  method SetRoles(store: Store, rs: seq<UserRole>, role: Role)
    returns (r: Result<(), string>, ghost done: set<string>, ghost es: seq<Entry>)
    requires store.Valid()
    modifies store
    ensures store.Valid()
    ensures store.db == old(store.db).(roles := Override(old(store.db.roles), done, role))
    ensures done <= EmailsOf(rs) && (r.Success? ==> done == EmailsOf(rs))
    ensures r.Failure? ==> r.error == Unavailable
    ensures store.journal == old(store.journal) + es
    ensures |es| <= |rs| && Halted(es, r.Failure?)
    ensures forall i {:trigger es[i]} :: 0 <= i < |es| ==> es[i].call == AddOrUpdateRole(UserRole(rs[i].email, role))
    ensures r.Success? ==> |es| == |rs| && AllOk(es)
  {
    ghost var db0 := store.db;
    ghost var j0 := store.journal;
    es := [];
    done := {};
    var i := 0;
    while i < |rs|
      invariant i <= |rs| && |es| == i
      invariant done == EmailsOf(rs[..i])
      invariant store.Valid()
      invariant store.db == db0.(roles := Override(db0.roles, done, role))
      invariant store.journal == j0 + es
      invariant AllOk(es)
      invariant forall k {:trigger es[k]} :: 0 <= k < |es| ==> es[k].call == AddOrUpdateRole(UserRole(rs[k].email, role))
    {
      var u := UserRole(rs[i].email, role);
      EmailsOfPrefix(rs, i);
      var e := store.SetRole(u);
      es := es + [Entry(AddOrUpdateRole(u), e.Success?)];
      if e.Failure? {
        return Failure(e.error), done, es;
      }
      OverrideStep(db0.roles, done, rs[i].email, role);
      done := done + {rs[i].email};
      i := i + 1;
    }
    assert rs[..i] == rs;
    r := Success(());
  }

  /** The emails of an enumeration of a set are the set's emails. */
  lemma EnumeratedEmails(rs: seq<UserRole>, s: set<UserRole>)
    requires forall u :: u in rs <==> u in s
    ensures EmailsOf(rs) == Emails(s)
  {
  }

  /** Every change-log call comes before every role write. */
  ghost predicate LogsFirst(es: seq<Entry>)
  {
    forall i, j :: 0 <= i < j < |es| && es[i].call.AddOrUpdateRole? ==> !es[j].call.AddChange?
  }

  /** The journal of the handler is the admin listing, then the log entries,
      then the role writes. */
  lemma JournalOrder(g: Entry, logs: seq<Entry>, writes: seq<Entry>)
    requires !g.call.AddOrUpdateRole?
    requires forall i :: 0 <= i < |logs| ==> logs[i].call.AddChange?
    requires forall i :: 0 <= i < |writes| ==> writes[i].call.AddOrUpdateRole?
    ensures LogsFirst([g] + logs + writes)
  {
    var es := [g] + logs + writes;
    forall k | 0 <= k < |es|
      ensures es[k].call.AddOrUpdateRole? ==> k > |logs|
      ensures es[k].call.AddChange? ==> k <= |logs|
    {
      if 0 < k <= |logs| {
        assert es[k] == logs[k - 1];
      } else if k > |logs| {
        assert es[k] == writes[k - 1 - |logs|];
      }
    }
  }

  /** The differences are disjoint, so the symmetric difference counts both. */
  lemma SymmetricDifferenceCard(req: set<UserRole>, cur: set<UserRole>)
    ensures |(req - cur) + (cur - req)| == |req - cur| + |cur - req|
  {
    assert (req - cur) * (cur - req) == {};
  }

  /** Lines 42-50: one change-log entry per record of the symmetric difference,
      in the order the set yields them. */
  method LogSymmetricDifference(store: Store, who: string, req: set<UserRole>, cur: set<UserRole>)
    returns (r: Result<(), string>, ghost logged: seq<UserRole>, ghost es: seq<Entry>)
    requires store.Valid()
    modifies store
    ensures store.Valid()
    ensures store.db == old(store.db).(changes := old(store.db.changes) + RoleChanges(who, logged))
    ensures forall i :: 0 <= i < |logged| ==> logged[i] in (req - cur) + (cur - req)
    ensures r.Success? ==> Distinct(logged) && Elems(logged) == (req - cur) + (cur - req)
    ensures r.Failure? ==> r.error == Unavailable
    ensures store.journal == old(store.journal) + es
    ensures forall i :: 0 <= i < |es| ==> es[i].call.AddChange?
    ensures r.Success? ==> AllOk(es) && |es| == |(req - cur) + (cur - req)|
  {
    var toLog := Enumerate((req - cur) + (cur - req));
    ghost var n;
    r, n, es := LogRoleChanges(store, who, toLog);
    logged := toLog[..n];
    assert forall i :: 0 <= i < |logged| ==> logged[i] == toLog[i];
    if r.Success? {
      assert logged == toLog;
    }
  }

  /** Lines 52-64: the requested emails that are not admin are upserted as
      ADMIN, then the admins that were not requested are upserted as USER. */
  method WriteRoles(store: Store, req: set<UserRole>, cur: set<UserRole>)
    returns (r: Result<(), string>, ghost promoted: set<string>, ghost demoted: set<string>, ghost es: seq<Entry>)
    requires store.Valid()
    modifies store
    ensures store.Valid()
    ensures store.db == old(store.db).(roles := Override(Override(old(store.db.roles), promoted, ADMIN), demoted, USER))
    ensures promoted <= Emails(req - cur) && demoted <= Emails(cur - req)
    ensures demoted != {} ==> promoted == Emails(req - cur)
    ensures r.Success? ==> promoted == Emails(req - cur) && demoted == Emails(cur - req)
    ensures r.Failure? ==> r.error == Unavailable
    ensures store.journal == old(store.journal) + es
    ensures forall i :: 0 <= i < |es| ==> es[i].call.AddOrUpdateRole?
    ensures r.Success? ==> AllOk(es) && |es| == |req - cur| + |cur - req|
  {
    var toAdd := Enumerate(req - cur);
    var e2;
    ghost var es2;
    e2, promoted, es2 := SetRoles(store, toAdd, ADMIN);
    EnumeratedEmails(toAdd, req - cur);
    demoted := {};
    es := es2;
    if e2.Failure? {
      OverrideNone(store.db.roles, USER);
      return e2, promoted, demoted, es;
    }
    var toRemove := Enumerate(cur - req);
    var e3;
    ghost var es3;
    e3, demoted, es3 := SetRoles(store, toRemove, USER);
    EnumeratedEmails(toRemove, cur - req);
    JournalAppend(old(store.journal), es2, es3);
    es := es2 + es3;
    r := e3;
    if r.Success? {
      AllOkAppend(es2, es3);
    }
  }

  /** Lines 39-64 for given current and requested admins: the log entries,
      then the role writes. */
  method Reconcile(store: Store, who: string, req: set<UserRole>, cur: set<UserRole>)
    returns (r: Result<(), string>, ghost logged: seq<UserRole>, ghost promoted: set<string>,
             ghost demoted: set<string>, ghost logs: seq<Entry>, ghost writes: seq<Entry>)
    requires store.Valid()
    requires forall u :: u in req ==> u.role == ADMIN
    requires forall u :: u in cur ==> u.role == ADMIN
    modifies store
    ensures store.Valid()
    ensures r.Failure? ==> r.error == Unavailable
    ensures store.db == old(store.db).(changes := old(store.db.changes) + RoleChanges(who, logged),
                                       roles := Override(Override(old(store.db.roles), promoted, ADMIN), demoted, USER))
    ensures forall i :: 0 <= i < |logged| ==> logged[i].role == ADMIN && logged[i] in (req - cur) + (cur - req)
    ensures promoted <= Emails(req - cur) && demoted <= Emails(cur - req)
    ensures r.Success? ==> && Distinct(logged) && Elems(logged) == (req - cur) + (cur - req)
                           && store.db.roles == Reconciled(old(store.db.roles), req, cur)
    ensures store.journal == old(store.journal) + logs + writes
    ensures forall i :: 0 <= i < |logs| ==> logs[i].call.AddChange?
    ensures forall i :: 0 <= i < |writes| ==> writes[i].call.AddOrUpdateRole?
    ensures r.Success? ==> AllOk(logs) && AllOk(writes) && |logs| + |writes| == 2 * |Elems(logged)|
  {
    promoted, demoted, writes := {}, {}, [];
    ChangesDisjoint(req, cur);
    r, logged, logs := LogSymmetricDifference(store, who, req, cur);
    if r.Failure? {
      OverrideNone(store.db.roles, ADMIN);
      OverrideNone(store.db.roles, USER);
      return;
    }
    r, promoted, demoted, writes := WriteRoles(store, req, cur);
    if r.Success? {
      SymmetricDifferenceCard(req, cur);
    }
  }

  /** Lines 23-29: the stored admin records, as a set. */
  method ListAdmins(store: Store) returns (r: Result<set<UserRole>, string>)
    modifies store`journal
    ensures r.Success? <==> |old(store.journal)| !in store.faulty
    ensures r.Failure? ==> r.error == Unavailable
    ensures r.Success? ==> r.value == AdminRecords(store.db.roles)
    ensures store.journal == old(store.journal) + [Entry(GetAllAdmins, r.Success?)]
  {
    var listed := store.GetAllAdmins();
    if listed.Failure? {
      return Failure(listed.error);
    }
    r := Success(CurrentAdmins(listed.value));
  }

  /** `update_admins`: reconciles the stored admins with the requested emails.
      A store failure at any step ends the handler with a 500 carrying the
      store's message; the steps already taken stay done. */
  method UpdateAdmins(store: Store, who: string, admins: seq<string>)
    returns (r: Result<Json, AppError>, ghost logged: seq<UserRole>, ghost promoted: set<string>,
             ghost demoted: set<string>, ghost es: seq<Entry>)
    requires store.Valid()
    modifies store
    ensures store.Valid()
    ensures r.Success? ==> r.value == JObject([])
    ensures r.Failure? ==> r.error == FromError(Unavailable)
    ensures var req := RequestedAdmins(admins);
            var cur := AdminRecords(old(store.db.roles));
            && store.db == old(store.db).(changes := old(store.db.changes) + RoleChanges(who, logged),
                                           roles := Override(Override(old(store.db.roles), promoted, ADMIN), demoted, USER))
            && (forall i :: 0 <= i < |logged| ==> logged[i].role == ADMIN && logged[i] in (req - cur) + (cur - req))
            && promoted <= Emails(req - cur) && demoted <= Emails(cur - req)
            && (r.Success? ==> && Distinct(logged) && Elems(logged) == (req - cur) + (cur - req)
                                && store.db.roles == Reconciled(old(store.db.roles), req, cur))
    ensures store.journal == old(store.journal) + es
    ensures es != [] && es[0].call == GetAllAdmins && LogsFirst(es)
    ensures r.Success? ==> AllOk(es) && |es| == 1 + 2 * |Elems(logged)|
  {
    promoted, demoted, logged := {}, {}, [];
    var listed := ListAdmins(store);
    var g := Entry(GetAllAdmins, listed.Success?);
    es := [g];
    if listed.Failure? {
      OverrideNone(store.db.roles, ADMIN);
      OverrideNone(store.db.roles, USER);
      JournalOrder(g, [], []);
      assert [g] + [] + [] == es;
      assert store.db.changes + RoleChanges(who, []) == store.db.changes;
      return Failure(FromError(listed.error)), logged, promoted, demoted, es;
    }
    var dbAdmins := listed.value;
    var reqAdmins := RequestedAdmins(admins);
    var e;
    ghost var logs, writes;
    e, logged, promoted, demoted, logs, writes := Reconcile(store, who, reqAdmins, dbAdmins);
    JournalOrder(g, logs, writes);
    JournalAppend(old(store.journal) + [g], logs, writes);
    JournalAppend(old(store.journal), [g], logs + writes);
    JournalAppend([g], logs, writes);
    es := [g] + (logs + writes);
    if e.Failure? {
      return Failure(FromError(e.error)), logged, promoted, demoted, es;
    }
    AllOkAppend(logs, writes);
    AllOkAppend([g], logs + writes);
    r := Success(JObject([]));
  }
}
