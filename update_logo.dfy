/** The `update_logo` handler (backend/src/routes/update_logo.rs): reads a
    multipart form field by field, checks it holds a sponsor uid and a PNG or
    JPEG image, looks the sponsor up, and then logs the change, stores the logo
    and points the sponsor's image URL at it, each call followed by `?`.
    The multipart stream is a sequence of parts (an error of `next_field` is a
    `Failure` in it); `infer::get`, `Uuid::from_str` and `Uuid::to_string` are
    the parameters `infer`, `parseUuid` and `render`. */
module UpdateLogo {

  import opened Wrappers
  import opened Models
  import opened Http
  import opened Store
  import Rest
  import Meili
  import Auth

  /** One form field: its name, if it has one, and its content read as text
      and as bytes (each read can fail). */
  datatype Part = Part(name: Option<string>, text: Result<string, string>, bytes: Result<seq<Byte>, string>)

  /** What the loop has collected so far. */
  datatype Form = Form(uid: Option<string>, data: Option<seq<Byte>>)

  const UidField := "sponsor_uid"
  const DataField := "data"

  predicate IsUid(p: Result<Part, string>)
  {
    p.Success? && p.value.name.Some? && Lower(p.value.name.value) == UidField
  }

  predicate IsData(p: Result<Part, string>)
  {
    p.Success? && p.value.name.Some? && Lower(p.value.name.value) == DataField
  }

  /** A field the loop accepts: the stream yielded it, it is named, its
      name is one of the two, and its content could be read. */
  predicate Good(p: Result<Part, string>)
  {
    (IsUid(p) && p.value.text.Success?) || (IsData(p) && p.value.bytes.Success?)
  }

  /** One turn of the loop: the error that ends the handler, or the form with
      this field recorded. */
  function ReadPart(p: Result<Part, string>, f: Form): (r: Result<Form, AppError>)
    ensures r.Success? <==> Good(p)
    ensures p.Failure? ==> r == Failure(AppError(500, p.error))
    ensures p.Success? && p.value.name.None? ==> r == Failure(AppError(400, "name field must be set"))
    ensures IsUid(p) && p.value.text.Failure? ==> r == Failure(AppError(500, p.value.text.error))
    ensures IsData(p) && p.value.bytes.Failure? ==> r == Failure(AppError(400, "body too big (max 16MB)"))
    ensures p.Success? && p.value.name.Some? && !IsUid(p) && !IsData(p) ==> r == Failure(AppError(400, "unknown field"))
    ensures IsUid(p) && p.value.text.Success? ==> r == Success(f.(uid := Some(p.value.text.value)))
    ensures IsData(p) && p.value.bytes.Success? ==> r == Success(f.(data := Some(p.value.bytes.value)))
  {
    if p.Failure? then Failure(FromError(p.error))
    else if p.value.name.None? then Failure(AppError(400, "name field must be set"))
    else if Lower(p.value.name.value) == UidField then
      if p.value.text.Failure? then Failure(FromError(p.value.text.error))
      else Success(f.(uid := Some(p.value.text.value)))
    else if Lower(p.value.name.value) == DataField then
      if p.value.bytes.Failure? then Failure(AppError(400, "body too big (max 16MB)"))
      else Success(f.(data := Some(p.value.bytes.value)))
    else Failure(AppError(400, "unknown field"))
  }

  /** The whole loop: the first field that is not accepted ends it. */
  function Scan(parts: seq<Result<Part, string>>, f: Form): Result<Form, AppError>
    decreases |parts|
  {
    if parts == [] then Success(f)
    else
      match ReadPart(parts[0], f)
      case Failure(e) => Failure(e)
      case Success(g) => Scan(parts[1..], g)
  }

  /** `while let Some(field) = multipart.next_field().await? { ... }`. */
  method ReadForm(parts: seq<Result<Part, string>>) returns (r: Result<Form, AppError>)
    ensures r == Scan(parts, Form(None, None))
  {
    var uid: Option<string> := None;
    var data: Option<seq<Byte>> := None;
    var i := 0;
    while i < |parts|
      invariant 0 <= i <= |parts|
      invariant Scan(parts, Form(None, None)) == Scan(parts[i..], Form(uid, data))
    {
      assert parts[i..][1..] == parts[i + 1..];
      var part := parts[i];
      if part.Failure? {
        return Failure(FromError(part.error));
      }
      var field := part.value;
      if field.name.None? {
        return Failure(AppError(400, "name field must be set"));
      }
      var name := Lower(field.name.value);
      if name == UidField {
        if field.text.Failure? {
          return Failure(FromError(field.text.error));
        }
        uid := Some(field.text.value);
      } else if name == DataField {
        if field.bytes.Failure? {
          return Failure(AppError(400, "body too big (max 16MB)"));
        }
        data := Some(field.bytes.value);
      } else {
        return Failure(AppError(400, "unknown field"));
      }
      i := i + 1;
    }
    assert parts[i..] == [];
    r := Success(Form(uid, data));
  }

  /** The loop gets through the stream exactly when every field is accepted. */
  lemma {:induction false} ScanSucceeds(parts: seq<Result<Part, string>>, f: Form)
    decreases |parts|
    ensures Scan(parts, f).Success? <==> forall i :: 0 <= i < |parts| ==> Good(parts[i])
  {
    if parts != [] {
      if Good(parts[0]) {
        ScanSucceeds(parts[1..], ReadPart(parts[0], f).value);
        assert forall i :: 1 <= i < |parts| ==> parts[i] == parts[1..][i - 1];
      }
    }
  }

  /** The first field that is not accepted decides the error. */
  lemma {:induction false} FirstBadDecides(parts: seq<Result<Part, string>>, f: Form, k: nat)
    requires k < |parts| && !Good(parts[k])
    requires forall i :: 0 <= i < k ==> Good(parts[i])
    decreases k
    ensures Scan(parts, f) == Failure(ReadPart(parts[k], f).error)
  {
    if k > 0 {
      var g := ReadPart(parts[0], f).value;
      assert parts[1..][k - 1] == parts[k];
      FirstBadDecides(parts[1..], g, k - 1);
      assert ReadPart(parts[k], g).error == ReadPart(parts[k], f).error;
    }
  }

  /** Reference definitions, read from the end of the stream: the text of the
      last uid field and the bytes of the last data field, or what was there
      before. */
  function LastUid(parts: seq<Result<Part, string>>, u0: Option<string>): Option<string>
    decreases |parts|
  {
    if parts == [] then u0
    else
      var p := parts[|parts| - 1];
      if IsUid(p) && p.value.text.Success? then Some(p.value.text.value)
      else LastUid(parts[..|parts| - 1], u0)
  }

  function LastData(parts: seq<Result<Part, string>>, d0: Option<seq<Byte>>): Option<seq<Byte>>
    decreases |parts|
  {
    if parts == [] then d0
    else
      var p := parts[|parts| - 1];
      if IsData(p) && p.value.bytes.Success? then Some(p.value.bytes.value)
      else LastData(parts[..|parts| - 1], d0)
  }

  lemma {:induction false} LastUidFront(parts: seq<Result<Part, string>>, u0: Option<string>)
    requires parts != []
    decreases |parts|
    ensures LastUid(parts, u0)
            == LastUid(parts[1..], if IsUid(parts[0]) && parts[0].value.text.Success? then Some(parts[0].value.text.value) else u0)
  {
    if |parts| > 1 {
      var init := parts[..|parts| - 1];
      assert init[1..] == parts[1..][..|parts[1..]| - 1];
      LastUidFront(init, u0);
    }
  }

  lemma {:induction false} LastDataFront(parts: seq<Result<Part, string>>, d0: Option<seq<Byte>>)
    requires parts != []
    decreases |parts|
    ensures LastData(parts, d0)
            == LastData(parts[1..], if IsData(parts[0]) && parts[0].value.bytes.Success? then Some(parts[0].value.bytes.value) else d0)
  {
    if |parts| > 1 {
      var init := parts[..|parts| - 1];
      assert init[1..] == parts[1..][..|parts[1..]| - 1];
      LastDataFront(init, d0);
    }
  }

  /** A repeated field is overwritten: when the loop gets through, the form
      holds the last uid and the last data sent. */
  lemma {:induction false} LastWins(parts: seq<Result<Part, string>>, f: Form)
    requires Scan(parts, f).Success?
    decreases |parts|
    ensures Scan(parts, f).value == Form(LastUid(parts, f.uid), LastData(parts, f.data))
  {
    if parts != [] {
      LastUidFront(parts, f.uid);
      LastDataFront(parts, f.data);
      LastWins(parts[1..], ReadPart(parts[0], f).value);
    }
  }

  /** Field names are matched without regard to ASCII case. */
  lemma NameCaseIgnored(p: Part, f: Form)
    requires p.name.Some?
    ensures ReadPart(Success(p), f) == ReadPart(Success(p.(name := Some(Lower(p.name.value)))), f)
  {
    LowerIdempotent(p.name.value);
  }

  /** The image types the handler accepts, by `infer`'s MIME type. */
  predicate AcceptedImage(mime: Option<string>)
  {
    mime == Some("image/png") || mime == Some("image/jpeg")
  }

  /** Everything the handler decides before it touches a store (lines 18-42):
      the sponsor uid and the logo bytes, or the error it answers with. */
  function Prepare(parts: seq<Result<Part, string>>, infer: seq<Byte> -> Option<string>,
                   parseUuid: string -> Result<Uuid, string>): (r: Result<(Uuid, seq<Byte>), AppError>)
  {
    match Scan(parts, Form(None, None))
    case Failure(e) => Failure(e)
    case Success(f) =>
      if f.uid.None? || f.data.None? then Failure(AppError(400, "missing data"))
      else if !AcceptedImage(infer(f.data.value)) then Failure(AppError(400, "invalid file type"))
      else
        match parseUuid(f.uid.value)
        case Failure(e) => Failure(FromError(e))
        case Success(u) => Success((u, f.data.value))
  }

  /** What the handler prepares is the last uid and the last image sent, and
      the image is a PNG or a JPEG. A form whose fields are all accepted is
      refused when it lacks either field, when the last image is not a PNG or
      a JPEG, and when the last uid does not parse. */
  lemma PrepareMeans(parts: seq<Result<Part, string>>, infer: seq<Byte> -> Option<string>,
                     parseUuid: string -> Result<Uuid, string>)
    ensures var r := Prepare(parts, infer, parseUuid);
      && (r.Success? ==>
            && (forall i :: 0 <= i < |parts| ==> Good(parts[i]))
            && LastUid(parts, None).Some?
            && parseUuid(LastUid(parts, None).value) == Success(r.value.0)
            && LastData(parts, None) == Some(r.value.1)
            && AcceptedImage(infer(r.value.1)))
      && (((forall i :: 0 <= i < |parts| ==> Good(parts[i])) && (LastUid(parts, None).None? || LastData(parts, None).None?))
            ==> r == Failure(AppError(400, "missing data")))
      && (((forall i :: 0 <= i < |parts| ==> Good(parts[i])) && LastUid(parts, None).Some? && LastData(parts, None).Some?
           && !AcceptedImage(infer(LastData(parts, None).value)))
            ==> r == Failure(AppError(400, "invalid file type")))
      && (((forall i :: 0 <= i < |parts| ==> Good(parts[i])) && LastUid(parts, None).Some? && LastData(parts, None).Some?
           && AcceptedImage(infer(LastData(parts, None).value)) && parseUuid(LastUid(parts, None).value).Failure?)
            ==> r == Failure(FromError(parseUuid(LastUid(parts, None).value).error)))
  {
    ScanSucceeds(parts, Form(None, None));
    if Scan(parts, Form(None, None)).Success? {
      LastWins(parts, Form(None, None));
    }
  }

  /** The sponsor as `update_logo` stores it: its image URL points at the
      logo route for its uid. */
  function Relinked(s: Sponsor, uid: Uuid, render: Uuid -> string): Sponsor
  {
    s.(imageUrl := Some("/get_logo/" + render(uid)))
  }

  /** The index document does not carry the image URL, so the handler has no
      need to reindex. */
  lemma IndexUnaffected(s: Sponsor, uid: Uuid, render: Uuid -> string)
    ensures Meili.FromSponsor(Relinked(s, uid, render)) == Meili.FromSponsor(s)
  {
  }

  /** The calls after the lookup, in order; every one is followed by `?`. */
  function Calls(who: string, uid: Uuid, data: seq<Byte>, s: Sponsor, render: Uuid -> string): seq<Call>
  {
    [ AddChange(Change(who, ChangeLogo(s))),
      UploadLogo(uid, data),
      Call.Update(uid, Relinked(s, uid, render)) ]
  }

  function Plan(who: string, uid: Uuid, data: seq<Byte>, s: Sponsor, render: Uuid -> string): seq<Step>
  {
    Fatal(Calls(who, uid, data, s, render))
  }

  /** The calls complete exactly when none fails for outside reasons. */
  lemma Completes(db: Db, who: string, uid: Uuid, data: seq<Byte>, s: Sponsor, render: Uuid -> string, pos: nat, faulty: set<nat>)
    ensures Simulate(db, Plan(who, uid, data, s, render), pos, faulty).failure.None?
            <==> forall k :: pos <= k < pos + 3 ==> k !in faulty
  {
    var calls := Calls(who, uid, data, s, render);
    SimulateFatal(db, calls, pos, faulty);
    NoInsertAllowed(db, calls);
  }

  /** Completed on a stored sponsor, they leave the change logged (with the
      sponsor as it was), the logo stored under the uid and the sponsor
      replaced by its relinked form. */
  lemma Effects(db: Db, who: string, uid: Uuid, data: seq<Byte>, s: Sponsor, render: Uuid -> string, pos: nat, faulty: set<nat>)
    requires uid in db.sponsors
    requires Simulate(db, Plan(who, uid, data, s, render), pos, faulty).failure.None?
    ensures Simulate(db, Plan(who, uid, data, s, render), pos, faulty).db
            == db.(changes := db.changes + [Change(who, ChangeLogo(s))],
                   logos := db.logos[uid := data],
                   sponsors := db.sponsors[uid := Relinked(s, uid, render)])
  {
    var calls := Calls(who, uid, data, s, render);
    SimulateFatalEffects(db, calls, pos, faulty);
    var db1 := Apply(db, calls[0]);
    assert ApplyAll(db, calls) == ApplyAll(db1, calls[1..]);
    ApplyAllTwo(db1, calls[1..]);
  }

  /** A failed upload ends the handler after the change was logged and
      before the sponsor's image URL is touched. */
  lemma FailedUploadStillLogged(db: Db, who: string, uid: Uuid, data: seq<Byte>, s: Sponsor, render: Uuid -> string, pos: nat, faulty: set<nat>)
    requires pos !in faulty && pos + 1 in faulty
    ensures Simulate(db, Plan(who, uid, data, s, render), pos, faulty)
            == Run(db.(changes := db.changes + [Change(who, ChangeLogo(s))]),
                   [Entry(AddChange(Change(who, ChangeLogo(s))), true), Entry(UploadLogo(uid, data), false)],
                   Some(Unavailable))
  {
    var plan := Plan(who, uid, data, s, render);
    assert plan[1..] == [plan[1], plan[2]];
  }

  /** `update_logo`: a form refused before the lookup touches no store; a
      failed lookup is a 500, a missing sponsor a 400; otherwise the calls run
      with the sponsor as stored, and the answer is its relinked REST form. */
  method UpdateLogo(store: Store, user: Auth.User, parts: seq<Result<Part, string>>,
                    infer: seq<Byte> -> Option<string>, parseUuid: string -> Result<Uuid, string>,
                    render: Uuid -> string)
    returns (r: Outcome<Rest.RestSponsor>, ghost es: seq<Entry>)
    requires store.Valid()
    modifies store
    ensures store.Valid()
    ensures store.journal == old(store.journal) + es
    ensures Prepare(parts, infer, parseUuid).Failure? ==>
              && r == Failed(Prepare(parts, infer, parseUuid).error)
              && es == [] && store.db == old(store.db)
    ensures Prepare(parts, infer, parseUuid).Success? ==>
              Stored(old(store.db), |old(store.journal)|, store, user.email,
                     Prepare(parts, infer, parseUuid).value.0, Prepare(parts, infer, parseUuid).value.1, render, es, r)
  {
    var prepared := PrepareForm(parts, infer, parseUuid);
    if prepared.Failure? {
      return Failed(prepared.error), [];
    }
    r, es := SetLogo(store, user.email, prepared.value.0, prepared.value.1, render);
  }

  /** Lines 18-42: the form read and checked. */
  method PrepareForm(parts: seq<Result<Part, string>>, infer: seq<Byte> -> Option<string>,
                     parseUuid: string -> Result<Uuid, string>)
    returns (r: Result<(Uuid, seq<Byte>), AppError>)
    ensures r == Prepare(parts, infer, parseUuid)
  {
    var form := ReadForm(parts);
    if form.Failure? {
      return Failure(form.error);
    }
    if form.value.uid.None? || form.value.data.None? {
      return Failure(AppError(400, "missing data"));
    }
    var data := form.value.data.value;
    var mime := infer(data);
    if !AcceptedImage(mime) {
      return Failure(AppError(400, "invalid file type"));
    }
    var parsed := parseUuid(form.value.uid.value);
    if parsed.Failure? {
      return Failure(FromError(parsed.error));
    }
    r := Success((parsed.value, data));
  }

  /** How the handler ends once the form is accepted, starting from `db0`
      with `at` journal entries: the lookup is the first new entry; a failed
      lookup is a 500 and a missing sponsor a 400, neither changing anything;
      otherwise the calls ran with the sponsor as stored. */
  ghost predicate Stored(db0: Db, at: nat, store: Store, who: string, uid: Uuid, data: seq<Byte>,
                         render: Uuid -> string, es: seq<Entry>, r: Outcome<Rest.RestSponsor>)
    reads store
  {
    && |es| >= 1 && es[0] == Entry(Call.Get(uid), at !in store.faulty)
    && (at in store.faulty ==>
          r == Failed(FromError(Unavailable)) && |es| == 1 && store.db == db0)
    && (at !in store.faulty && uid !in db0.sponsors ==>
          r == Failed(AppError(400, "sponsor not found??")) && |es| == 1 && store.db == db0)
    && (at !in store.faulty && uid in db0.sponsors ==>
          var s := db0.sponsors[uid];
          Handled(Simulate(db0, Plan(who, uid, data, s, render), at + 1, store.faulty),
                  store.db, es[1..], r, Rest.FromSponsor(Relinked(s, uid, render))))
  }

  /** Lines 45-53: the lookup, then the three calls. */
  method SetLogo(store: Store, who: string, uid: Uuid, data: seq<Byte>, render: Uuid -> string)
    returns (r: Outcome<Rest.RestSponsor>, ghost es: seq<Entry>)
    requires store.Valid()
    modifies store
    ensures store.Valid()
    ensures store.journal == old(store.journal) + es
    ensures Stored(old(store.db), |old(store.journal)|, store, who, uid, data, render, es, r)
  {
    ghost var j0 := store.journal;
    var found := store.Get(uid);
    es := [Entry(Call.Get(uid), found.Success?)];
    if found.Failure? {
      return Failed(FromError(found.error)), es;
    }
    if found.value.None? {
      return Failed(AppError(400, "sponsor not found??")), es;
    }
    var sponsor := found.value.value;
    var e, rest := Persist(store, who, uid, data, sponsor, render);
    JournalAppend(j0, es, rest);
    es := es + rest;
    assert es[1..] == rest;
    r := if e.Success? then Done(Rest.FromSponsor(Relinked(sponsor, uid, render))) else Failed(FromError(e.error));
  }

  /** The three awaited calls after the lookup. */
  method Persist(store: Store, who: string, uid: Uuid, data: seq<Byte>, s: Sponsor, render: Uuid -> string)
    returns (r: Result<(), string>, ghost es: seq<Entry>)
    requires store.Valid()
    modifies store
    ensures store.Valid()
    ensures store.journal == old(store.journal) + es
    ensures Simulate(old(store.db), Plan(who, uid, data, s, render), |old(store.journal)|, store.faulty)
            == Run(store.db, es, if r.Success? then None else Some(r.error))
  {
    var plan := Plan(who, uid, data, s, render);
    ghost var db0, j0 := store.db, store.journal;
    store.Begin(plan);
    es := [];
    r, es := store.Next(plan, 0, db0, j0, es);
    if r.Failure? { return; }
    r, es := store.Next(plan, 1, db0, j0, es);
    if r.Failure? { return; }
    r, es := store.Next(plan, 2, db0, j0, es);
    if r.Failure? { return; }
    store.Finish(plan, db0, j0, es);
  }
}
