/** The GridFS bucket "logos" behind `upload_logo`, `delete_logo` and
    `get_logo` (backend/src/queries/mongo.rs:124-173). The bucket is a list
    of file documents in upload order. An upload stream records the sponsor
    uid as the document's `filename`. A download by name serves the most
    recent file with that name. The map `Db.logos` of module `Store` is
    `Served` of this list. */
module Logos {

  import opened Wrappers
  import opened Models

  /** One stored file: its id, its `filename` and its bytes. */
  datatype File = File(id: nat, filename: Uuid, data: seq<Byte>)

  /** The key under which a GridFS file document holds its name. */
  const FilenameKey := "filename"
  /** The key `delete_logo` filters on (mongo.rs:140). */
  const FilterKeyAsWritten := "file_name"

  /** The name a file document holds under `key`. Of a file document's
      fields only `filename` holds a name, so any other key finds none. */
  function NameUnder(f: File, key: string): Option<Uuid>
  {
    if key == FilenameKey then Some(f.filename) else None
  }

  /** `find(doc! {key: name}, limit(1))`: the position of the first file whose
      field `key` holds `name`, if there is one. */
  function FindFirst(files: seq<File>, key: string, name: Uuid): (r: Option<nat>)
    decreases |files|
    ensures r.Some? ==> && r.value < |files|
                        && NameUnder(files[r.value], key) == Some(name)
                        && forall j :: 0 <= j < r.value ==> NameUnder(files[j], key) != Some(name)
    ensures r.None? ==> forall j :: 0 <= j < |files| ==> NameUnder(files[j], key) != Some(name)
  {
    if files == [] then None
    else if NameUnder(files[0], key) == Some(name) then Some(0)
    else
      match FindFirst(files[1..], key, name)
      case None => None
      case Some(i) => Some(i + 1)
  }

  /** `delete_logo` with the filter key `key`: the first match, if any, is
      deleted; no match leaves the bucket as it is and is not an error. */
  function DeleteWith(files: seq<File>, key: string, uid: Uuid): seq<File>
  {
    match FindFirst(files, key, uid)
    case None => files
    case Some(i) => files[..i] + files[i + 1..]
  }

  /** `delete_logo` as written, filtering on "file_name". */
  function DeleteLogoAsWritten(files: seq<File>, uid: Uuid): seq<File>
  {
    DeleteWith(files, FilterKeyAsWritten, uid)
  }

  /** `delete_logo` filtering on "filename", as its name promises. */
  function DeleteLogo(files: seq<File>, uid: Uuid): seq<File>
  {
    DeleteWith(files, FilenameKey, uid)
  }

  /** `upload_logo` as written: its own `delete_logo` first, then a new file
      named by the uid. `id` is the id GridFS gives the new file. */
  function UploadLogoAsWritten(files: seq<File>, uid: Uuid, id: nat, data: seq<Byte>): seq<File>
  {
    DeleteLogoAsWritten(files, uid) + [File(id, uid, data)]
  }

  /** `upload_logo` over the corrected `delete_logo`. */
  function UploadLogo(files: seq<File>, uid: Uuid, id: nat, data: seq<Byte>): seq<File>
  {
    DeleteLogo(files, uid) + [File(id, uid, data)]
  }

  /** `open_download_stream_by_name` at its default revision: the most recent
      file with that name, or none (`get_logo` answers `Ok(None)`). */
  function Download(files: seq<File>, uid: Uuid): (r: Option<seq<Byte>>)
    decreases |files|
    ensures r.None? <==> forall i :: 0 <= i < |files| ==> files[i].filename != uid
    ensures r.Some? ==> exists i :: && 0 <= i < |files| && files[i].filename == uid
                                    && r.value == files[i].data
                                    && forall j :: i < j < |files| ==> files[j].filename != uid
  {
    if files == [] then None
    else if files[|files| - 1].filename == uid then Some(files[|files| - 1].data)
    else Download(files[..|files| - 1], uid)
  }

  /** The names of the stored files. */
  function Names(files: seq<File>): (r: set<Uuid>)
    ensures forall u :: u in r <==> exists i :: 0 <= i < |files| && files[i].filename == u
  {
    set i | 0 <= i < |files| :: files[i].filename
  }

  /** What `get_logo` serves, by sponsor uid. */
  function Served(files: seq<File>): (m: map<Uuid, seq<Byte>>)
    ensures m.Keys == Names(files)
    ensures forall u :: u in m ==> Download(files, u) == Some(m[u])
  {
    map u | u in Names(files) :: Download(files, u).value
  }

  /** No two files share a name. */
  ghost predicate Single(files: seq<File>)
  {
    forall i, j :: 0 <= i < j < |files| ==> files[i].filename != files[j].filename
  }

  /** In a bucket without repeated names, a name's one file is what is served. */
  lemma ServedSingle(files: seq<File>, i: nat)
    requires Single(files) && i < |files|
    ensures Download(files, files[i].filename) == Some(files[i].data)
  {
    var u := files[i].filename;
    var k :| 0 <= k < |files| && files[k].filename == u && Download(files, u).value == files[k].data;
    assert k == i;
  }

  /** As written, `delete_logo` deletes nothing: no file document has a
      "file_name" field, so the find matches nothing and the function returns
      `Ok(())` at line 145. The logo stays and `get_logo` still serves it. */
  lemma AsWrittenDeletesNothing(files: seq<File>, uid: Uuid)
    ensures DeleteLogoAsWritten(files, uid) == files
    ensures Served(DeleteLogoAsWritten(files, uid)) == Served(files)
  {
    assert NameUnder(File(0, uid, []), FilterKeyAsWritten) == None;
  }

  /** As written, an uploaded logo survives the delete that `update` makes
      for a sponsor without an image URL (update.rs:45-47). */
  lemma AsWrittenLogoSurvivesDelete(uid: Uuid, data: seq<Byte>)
    ensures var files := UploadLogoAsWritten([], uid, 0, data);
            Download(DeleteLogoAsWritten(files, uid), uid) == Some(data)
  {
    AsWrittenDeletesNothing([], uid);
    var files := UploadLogoAsWritten([], uid, 0, data);
    assert files == [File(0, uid, data)];
    AsWrittenDeletesNothing(files, uid);
  }

  /** As written, an upload still serves the new logo: old files with the
      name pile up, and a download by name takes the most recent. */
  lemma AsWrittenUploadServesLatest(files: seq<File>, uid: Uuid, id: nat, data: seq<Byte>)
    ensures Download(UploadLogoAsWritten(files, uid, id, data), uid) == Some(data)
  {
  }

  /** Deleting position `i` shifts the later files down by one. */
  lemma DeleteAtShifts(files: seq<File>, i: nat)
    requires i < |files|
    ensures var r := files[..i] + files[i + 1..];
            && |r| == |files| - 1
            && forall k :: 0 <= k < |r| ==> r[k] == (if k < i then files[k] else files[k + 1])
  {
  }

  /** Deleting position `i` of a bucket without repeated names: no repeats
      remain, and exactly that file's name is gone. */
  lemma DeleteAt(files: seq<File>, i: nat)
    requires Single(files) && i < |files|
    ensures var r := files[..i] + files[i + 1..];
            && Single(r)
            && Names(r) == Names(files) - {files[i].filename}
  {
    var r := files[..i] + files[i + 1..];
    DeleteAtShifts(files, i);
    forall a, b | 0 <= a < b < |r| ensures r[a].filename != r[b].filename {
      var a', b' := if a < i then a else a + 1, if b < i then b else b + 1;
      assert r[a] == files[a'] && r[b] == files[b'];
    }
    forall u | u in Names(r) ensures u in Names(files) - {files[i].filename} {
      var k :| 0 <= k < |r| && r[k].filename == u;
      var k' := if k < i then k else k + 1;
      assert files[k'] == r[k];
    }
    forall u | u in Names(files) - {files[i].filename} ensures u in Names(r) {
      var k :| 0 <= k < |files| && files[k].filename == u;
      var k' := if k < i then k else k - 1;
      assert r[k'] == files[k];
    }
  }

  /** After deleting position `i` of a bucket without repeated names, every
      name that is left is served as before. */
  lemma DeleteAtServes(files: seq<File>, i: nat, k: nat)
    requires Single(files) && i < |files| && k < |files| - 1
    ensures var r := files[..i] + files[i + 1..];
            Download(r, r[k].filename) == Download(files, r[k].filename)
  {
    var r := files[..i] + files[i + 1..];
    DeleteAt(files, i);
    DeleteAtShifts(files, i);
    var k' := if k < i then k else k + 1;
    ServedSingle(r, k);
    ServedSingle(files, k');
  }

  /** Deleting position `i` of a bucket without repeated names stops serving
      that file's name and serves every other logo as before. */
  lemma DeleteAtRemoves(files: seq<File>, i: nat)
    requires Single(files) && i < |files|
    ensures Served(files[..i] + files[i + 1..]) == Served(files) - {files[i].filename}
  {
    var r := files[..i] + files[i + 1..];
    DeleteAt(files, i);
    var m, m' := Served(r), Served(files) - {files[i].filename};
    forall u | u in m ensures m[u] == m'[u] {
      var k :| 0 <= k < |r| && r[k].filename == u;
      DeleteAtServes(files, i, k);
    }
  }

  /** The corrected `delete_logo` removes the logo: in a bucket without
      repeated names, the uid is no longer served and every other logo is
      served as before. */
  lemma DeleteLogoRemoves(files: seq<File>, uid: Uuid)
    requires Single(files)
    ensures Single(DeleteLogo(files, uid))
    ensures Served(DeleteLogo(files, uid)) == Served(files) - {uid}
  {
    match FindFirst(files, FilenameKey, uid)
    case None =>
      assert uid !in Names(files);
    case Some(i) =>
      DeleteAt(files, i);
      DeleteAtRemoves(files, i);
  }

  /** Appending a file adds its name to the names. */
  lemma AppendNames(d: seq<File>, f: File)
    ensures Names(d + [f]) == Names(d) + {f.filename}
  {
    var r := d + [f];
    forall u | u in Names(r) ensures u in Names(d) + {f.filename} {
      var k :| 0 <= k < |r| && r[k].filename == u;
      if k < |d| { assert d[k] == r[k]; }
    }
    forall u | u in Names(d) ensures u in Names(r) {
      var k :| 0 <= k < |d| && d[k].filename == u;
      assert r[k] == d[k];
    }
    assert r[|d|] == f;
  }

  /** A download from a bucket with one more file: that file under its own
      name, as before under any other. */
  lemma DownloadAppend(d: seq<File>, f: File, u: Uuid)
    ensures Download(d + [f], u) == if u == f.filename then Some(f.data) else Download(d, u)
  {
    assert (d + [f])[..|d|] == d;
  }

  /** Appending a file under a new name keeps the names distinct. */
  lemma AppendSingle(d: seq<File>, f: File)
    requires Single(d) && f.filename !in Names(d)
    ensures Single(d + [f])
  {
    var r := d + [f];
    forall a, b | 0 <= a < b < |r| ensures r[a].filename != r[b].filename {
      assert r[a] == d[a];
      if b == |d| { assert r[a].filename in Names(d); } else { assert r[b] == d[b]; }
    }
  }

  /** Appending a file under a new name serves it under that name, and
      every other logo as before. */
  lemma AppendNew(d: seq<File>, f: File)
    requires Single(d) && f.filename !in Names(d)
    ensures Single(d + [f])
    ensures Served(d + [f]) == Served(d)[f.filename := f.data]
  {
    AppendSingle(d, f);
    AppendNames(d, f);
    var m, m' := Served(d + [f]), Served(d)[f.filename := f.data];
    forall u | u in m ensures m[u] == m'[u] {
      DownloadAppend(d, f, u);
    }
  }

  /** Removing a key before setting it changes nothing. */
  lemma SetAfterRemove(m: map<Uuid, seq<Byte>>, k: Uuid, v: seq<Byte>)
    ensures (m - {k})[k := v] == m[k := v]
  {
  }

  /** The corrected `upload_logo` keeps one file per name and serves the new
      logo under the uid, every other logo as before. */
  lemma UploadLogoReplaces(files: seq<File>, uid: Uuid, id: nat, data: seq<Byte>)
    requires Single(files)
    ensures Single(UploadLogo(files, uid, id, data))
    ensures Served(UploadLogo(files, uid, id, data)) == Served(files)[uid := data]
  {
    DeleteLogoRemoves(files, uid);
    AppendNew(DeleteLogo(files, uid), File(id, uid, data));
    SetAfterRemove(Served(files), uid, data);
  }
}
