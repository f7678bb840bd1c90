# sponsormanager, modelled in Dafny

sponsormanager keeps a list of sponsors. Each sponsor has a name, a short description, an optional image URL, named fields, tags and favours. Each favour has a condition, a due date and a completion flag. The list is kept in a document store (MongoDB), mirrored into a full-text search index (Meilisearch), and edited through an Axum backend and a Nuxt frontend. A user signs in against an LDAP directory and receives a JWT. Every edit is written to a change log. Administrators are the users whose role record says ADMIN.

This project models the following parts of that system:

- **Error rendering and validation.**
  - The backend's error type and how it renders (module `Http`).
  - The sponsor validator (module `Validation`).
- **Data conversions.** The REST and index forms of a sponsor, and the conversions between them (modules `Rest` and `Meili`).
- **Authentication.**
  - Bearer-token extraction, and the claims built from a directory entry (`Auth`).
  - The login handler (`Login`).
- **The write handlers.** `create` (`Create`), `create_sponsor` (`CreateSponsor`), `update` (`Update`), `update_logo` (`UpdateLogo`) and `update_admins` (`UpdateAdmins`).
- **Search.** The search handler (`Search`).
- **Index reconciliation.** The periodic pass that brings the search indexes in line with the document store (`MeiliSync`).
- **Frontend.**
  - The frontend's main store (`FrontStore`, a class with the store's two pieces of state).
  - The global route guard (`NavGuard`).

**How the stores are modelled.** Module `Store` stands for the stores.

- A `Db` value holds, as maps:
  - the sponsors,
  - the change log,
  - the logos,
  - the role table,
  - the two index collections.
- A `Store` object holds a `Db`, and a journal of every call made, each marked as succeeded or failed.
- A set `faulty` of journal positions says which calls fail for outside reasons, such as a lost connection. Any call at one of those positions fails.
- The only failure that comes from the data is an insert under an `_id` that is already taken.
- An `update` (a `replace_one` without upsert) whose uid is not stored succeeds but changes nothing.

**How a handler is modelled.**

- A handler's store calls form a *plan*: a list of calls, each marked as ending the handler on error (`?`) or not (`let _ = ...`).
- The function `Store.Simulate` gives the run of a plan: the collections afterwards, the journal entries, and the error that ended it.
- Each handler method is proved to leave exactly what `Simulate` predicts. Lemmas next to it state, for that plan:
  - when the handler completes,
  - what it leaves behind,
  - in which order its calls happen.

## Model

| member | source | states |
|---|---|---|
| Http.IntoResponse | backend/src/error.rs:8-15 | An error renders exactly when its code is a valid HTTP status (otherwise the `unwrap` panics). The response carries that code and the body `{"error": message}`, with the single key `error`. |
| Http.FromError | backend/src/error.rs:17-21 | Any other error converts to status 500, carrying its display text. |
| Http.ConvertedErrorRenders | backend/src/error.rs:8-21 | A converted error always renders, as a 500 whose body holds its text. |
| Http.Lower | backend/src/routes/search.rs:21 | `to_lowercase` keeps the length, and maps each character by the ASCII lower-casing. |
| Http.LowerIdempotent | backend/src/routes/search.rs:21 | Lower-casing twice is lower-casing once. |
| Validation.AssertSponsor | backend/src/misc.rs:13-26 | Succeeds exactly when every check passes. The name is checked first ("name empty", then the reserved "New Sponsor"), then the description. Favours come before fields. Any other message is the message of the first field that fails. |
| Validation.SomeFavourEmpty | backend/src/misc.rs:17-19 | True exactly when some favour has an empty condition. |
| Validation.FirstFieldError | backend/src/misc.rs:20-23 | None exactly when every field has a name and a value; otherwise it is the message of some failing field. |
| Validation.FirstFieldIsReported | backend/src/misc.rs:20-23 | The first failing field decides the message. |
| Validation.FieldValueMessageNamesField | backend/src/misc.rs:22 | A field with a name but an empty value is reported as "field NAME value empty", once the earlier checks pass. |
| Validation.TagsAndImageIgnored | backend/src/misc.rs:13-26 | The validator's answer does not depend on the tags or the image URL. |
| Rest.FromSponsor | backend/src/models/rest.rs:42-57 | The uid, name, description, image URL and tag set are copied. `favours_completed` is true exactly when every favour is completed, and so true for no favours. Fields and favours are converted one by one, in order. |
| Rest.AllCompleted | backend/src/models/rest.rs:42-57 | `all(completed)`: true exactly when every favour is completed. |
| Rest.FieldRoundTrip | backend/src/models/rest.rs:59-66 | A stored field converted to REST and back is unchanged. |
| Rest.IndexFavourAsRest | backend/src/models/rest.rs:80-90 | An index favour becomes the REST favour with uid = id, and every other attribute copied. |
| Rest.IndexedFavoursAsRest | backend/src/models/rest.rs:68-90 | Converting favours to index form and then to REST equals converting them to REST directly. |
| Meili.FromSponsor | backend/src/models/meili.rs:35-45 | The index document has id = uid, the same name and description, the tags as a set, and the fields in order. |
| Meili.FromSponsorVec | backend/src/models/meili.rs:56-75 | One index favour per favour, in order, with id = uid and every attribute copied. |
| Meili.TagSet | backend/src/models/meili.rs:35-45 | The tag set holds exactly the stored tags. |
| Meili.ImageAndFavoursNotIndexed | backend/src/models/meili.rs:35-45 | Sponsors that differ only in image URL and favours index identically. |
| Auth.HeaderText | backend/src/auth.rs:27 | `to_str` succeeds exactly when every byte is tab or visible ASCII, and then yields those bytes as characters. |
| Auth.Encode | backend/src/auth.rs:27 | The header bytes of a text are its character codes, one per character. |
| Auth.HeaderTextOfEncode | backend/src/auth.rs:27 | Printable text survives encoding and `to_str` unchanged. |
| Auth.PrintableConcat | backend/src/auth.rs:29-32 | Joining two printable texts gives a printable text. |
| Auth.Authenticate | backend/src/auth.rs:25-37 | A missing header is 401 "unauthorized", and that is the only way to get it. Every other failure is the same 400 "invalid auth header". Success requires visible-ASCII bytes, the case-sensitive prefix "Bearer ", and a validating token; the principal is then what the validator returns for the text after byte 7. |
| Auth.BearerRoundTrip | backend/src/auth.rs:25-37 | A header "Bearer TOKEN" built from a printable token hands exactly TOKEN to the validator. |
| Auth.LowerCaseSchemeRejected | backend/src/auth.rs:29-31 | The scheme "bearer " is rejected whatever token follows. |
| Auth.AsUsize | backend/src/auth.rs:140 | `as usize` gives a value below 2^64, and keeps every value in 0 ≤ t < 2^64. |
| Auth.ClaimsFor | backend/src/auth.rs:134-143 | The claims take sub = cn, the email and the dn from the directory result, and expire one day (86400 s) after the clock reading. |
| Auth.ShapeSearch | backend/src/auth.rs:96-111 | No entries is "no user". Otherwise the first entry is used: a missing `cn` attribute is an error, an empty `cn` list panics at `unwrap`, and the result carries the searched mail. |
| Auth.Filter | backend/src/auth.rs:97 | The filter is "(mail=" + mail + ")", with the mail spliced in as it is. |
| Auth.SearchUser | backend/src/auth.rs:91-112 | A directory error propagates. A successful search is shaped by `ShapeSearch`. "No user" happens exactly when the search returns nothing. |
| Login.Login | backend/src/routes/login.rs:17-26 | 404 exactly when the directory has no entry. 401 exactly when the password bind answers false. A panic exactly when the `cn` unwrap panics. Success exactly when the entry is found, the password is accepted and signing succeeds, and then the body is `{"token": signed claims}`. Every error is 404, 401 or 500. |
| Login.UnknownUserSkipsPasswordCheck | backend/src/routes/login.rs:18 | Without a directory entry, the answer does not depend on the password check, the clock or the signer. |
| Login.LoginErrorsRender | backend/src/routes/login.rs:17-26 | Every error the handler returns renders as a response. |
| Login.TokenNamesTheUser | backend/src/routes/login.rs:21-22 | A successful login signs claims whose email is the requested one. |
| Store.Store.constructor | backend/src/queries/mongo.rs:29-64 | A store starts from collections where every index document is under its own id, with an empty journal. |
| Store.Store.Next | backend/src/routes/create.rs:37-43 | One awaited call of a plan: it is journaled with its outcome. A fatal failure ends the run exactly as the plan predicts; otherwise the run goes on with the next call. |
| Store.Store.Exec | backend/src/queries/mongo.rs:66-94 | A store call succeeds exactly when it is not at a faulty position and is not an insert under a taken uid. The journal grows by that call; the collections change by the call's effect only on success. |
| Store.Store.LogChange | backend/src/queries/mongo.rs:175-179 | `add_change` appends to the change log on success, and fails only at a faulty position. |
| Store.Store.SetRole | backend/src/queries/mongo.rs:206-218 | `add_or_update_role` upserts the email's role on success. |
| Store.Store.Get | backend/src/queries/mongo.rs:71-76 | `get` returns the stored sponsor under the uid, or none. |
| Store.Store.GetAll | backend/src/queries/mongo.rs:96-103 | `get_all` lists every stored sponsor, as many as are stored. |
| Store.Store.GetAllAdmins | backend/src/queries/mongo.rs:232-244 | `get_all_admins` lists exactly the records whose role is ADMIN. |
| Store.Store.IndexDoc | backend/src/queries/meili.rs:28-32 | `insert_sponsor` upserts the document under its id. |
| Store.Store.IndexFavourDocs | backend/src/queries/meili.rs:34-38 | `insert_favours` upserts the documents in order. |
| Store.Store.GetIndexedSponsors | backend/src/meili_sync.rs:54 | The sponsor index is listed once per document, each document under its own id. |
| Store.Store.GetIndexedFavours | backend/src/meili_sync.rs:63 | The favour index is listed once per document, each document under its own id. |
| Store.Store.UnindexSponsor | backend/src/meili_sync.rs:59 | `delete_sponsor` removes that id from the sponsor index. |
| Store.Store.UnindexFavour | backend/src/meili_sync.rs:68 | `delete_favours(&[id])` removes that id from the favour index. |
| Store.FavourDocIds | backend/src/queries/meili.rs:34-38 | The ids a batch of favour documents carries: exactly the ids of its documents. |
| Store.UpsertFavoursKeyed | backend/src/queries/meili.rs:34-38 | If every favour document is stored under its own id, that stays true after an upsert. |
| Store.AdminEmails | backend/src/queries/mongo.rs:232-244 | The emails whose stored role is ADMIN, and no others. |
| Store.UpsertFavoursKeys | backend/src/queries/meili.rs:34-38 | After the favour upsert the index holds the old ids and the documents' ids. Ids not among the documents keep their entry. |
| Store.UpsertFavoursLastWins | backend/src/queries/meili.rs:34-38 | When a batch repeats an id, the index keeps the last document with that id. |
| Store.SimulateFatal | backend/src/routes/create.rs:37-43 | Calls each followed by `?` complete exactly when none is at a faulty position and each is allowed when made. |
| Store.SimulateFatalEffects | backend/src/routes/create.rs:37-43 | Such calls that complete leave the collections of applying all of them in order. |
| Store.SimulateIgnoring | backend/src/routes/update.rs:44-52 | One call whose error is ignored (`let _ =`) does not decide whether the handler completes. |
| Store.SimulateIgnoringEffects | backend/src/routes/update.rs:44-52 | An ignored call's effect is present exactly when it succeeded. |
| Store.SimulateEarlierOk | backend/src/routes/create.rs:37-43 | In a run, every fatal call before the last one made succeeded. |
| Store.SimulateComplete | backend/src/routes/create.rs:37-43 | A run that completes made every call of its plan, and every fatal call succeeded. |
| Store.SimulateOk | backend/src/queries/mongo.rs:66-69 | A call made at a faulty position failed. A call that is not an insert, made at any other position, succeeded. |
| Store.SimulateEffects | backend/src/routes/update.rs:42-52 | The collections a run leaves are its successful calls applied in order; ignored failures change nothing. |
| Store.EarlierFatalSucceeded | backend/src/routes/create.rs:37-43 | A fatal call followed by a later call succeeded. |
| Store.Fatal | backend/src/routes/create.rs:37-43 | Every call followed by `?` is a fatal step, in order. |
| Store.SimulateFailsLast | backend/src/routes/create.rs:37-43 | A run fails only at the last call it made, which is a fatal call that failed. |
| Store.SimulateCalls | backend/src/routes/create.rs:37-43 | The calls a run makes are a prefix of its plan, in plan order. |
| Store.SponsorsUntouched | backend/src/queries/mongo.rs:85-94 | Calls that neither insert nor replace a stored sponsor leave the sponsors as they were. |
| Store.ChangesUntouched | backend/src/queries/mongo.rs:175-179 | Calls that log no change leave the change log as it was. |
| Create.Build | backend/src/routes/create.rs:17-31 | The stored sponsor has the given uid and tag order. Name, description, image URL and fields are copied in order. Favour i gets uid number i, is owned by the sponsor, and keeps its condition, completion flag and due date. |
| Create.FreshUids | backend/src/routes/create.rs:24 | One fresh id per favour, in order. |
| Create.ClientIdsDiscarded | backend/src/routes/create.rs:15-31 | Payloads that differ only in the client's sponsor or favour ids build the same sponsor. |
| Create.LogBeforeInsert | backend/src/routes/create.rs:37-43 | The change is logged before the insert is attempted. The indexes are touched only after the insert succeeded. |
| Create.CreateCompletes | backend/src/routes/create.rs:37-43 | A create completes exactly when the uid is free and none of its four calls is at a faulty position. |
| Create.CreateEffects | backend/src/routes/create.rs:37-43 | A completed create adds the change, stores the sponsor under its uid, and upserts its index document and its favours' documents. |
| Create.TakenUidStillLogged | backend/src/routes/create.rs:37-39 | Under a taken uid the change-log entry is written and the insert fails with a duplicate key. Nothing else happens. |
| Create.Create | backend/src/routes/create.rs:13-46 | The tags are the payload's set, enumerated once each. A rejected sponsor answers 400 with the validator's message and touches no store. An accepted one runs the plan, answers its REST form on completion, and answers a 500 with the failing call's error otherwise. |
| Create.Persist | backend/src/routes/create.rs:37-43 | The four awaited calls leave exactly the run the plan predicts. |
| CreateSponsor.Completes | backend/src/routes/create_sponsor.rs:32-37 | `create_sponsor` completes exactly when the uid is free and none of its three calls is at a faulty position. |
| CreateSponsor.Effects | backend/src/routes/create_sponsor.rs:32-37 | A completed `create_sponsor` stores the sponsor and upserts its index documents. |
| CreateSponsor.NothingLogged | backend/src/routes/create_sponsor.rs:32-37 | `create_sponsor` never writes the change log, whether it completes or not. |
| CreateSponsor.CreateSponsor | backend/src/routes/create_sponsor.rs:12-40 | Builds the sponsor like `create`, without validation, runs its three calls, and answers the REST form or the failing call's 500. |
| CreateSponsor.Persist | backend/src/routes/create_sponsor.rs:32-37 | The three awaited calls leave exactly the run the plan predicts. |
| Update.FillFavourUids | backend/src/routes/update.rs:16-20 | Every favour ends with a uid. One the client sent is kept; favour i without one gets fresh id number i. Nothing else about a favour changes. |
| Update.FilledUids | backend/src/routes/update.rs:16-20 | The final favour uids: the client's where sent, a fresh one elsewhere. |
| Update.Uids | backend/src/routes/update.rs:30 | `favour.uid.unwrap()` on favours that all have a uid. |
| Update.LogBeforeReplace | backend/src/routes/update.rs:42-44 | The change is logged before the replace is attempted. |
| Update.ReplaceDoesNotUpsert | backend/src/routes/update.rs:44 | When no sponsor is stored under the uid, an update leaves the stored sponsors unchanged (the replace has `upsert(false)`). |
| Update.CompletesWithImage | backend/src/routes/update.rs:42-52 | With an image URL, an update completes exactly when none of its four calls is at a faulty position. |
| Update.CompletesWithoutImage | backend/src/routes/update.rs:42-52 | Without an image URL, an update completes exactly when the log, replace and index calls are not at faulty positions. The logo delete in between does not matter. |
| Update.LogoDropped | backend/src/routes/update.rs:45-47 | When the logo delete succeeded, a completed update without an image URL also drops the logo. This follows the corrected `delete_logo` (see Findings). |
| Update.LogoDeleteFailureIgnored | backend/src/routes/update.rs:45-47 | A failed logo delete is ignored: the update completes and the logo stays. |
| Update.Update | backend/src/routes/update.rs:13-55 | A payload without a uid panics before any store call. Otherwise the sponsor is built from the filled favours and the payload's uid, and a rejected sponsor answers 400 without touching a store. An accepted one runs the plan and answers its REST form or the failing call's 500. |
| Update.Persist | backend/src/routes/update.rs:42-52 | The awaited calls, with the ignored logo delete, leave exactly the run the plan predicts. |
| Update.Reindex | backend/src/routes/update.rs:49-52 | The two index upserts that end the plan complete the predicted run. |
| UpdateLogo.ReadPart | backend/src/routes/update_logo.rs:18-28 | One field is accepted exactly when the stream yielded it, it has a name, and that name is "sponsor_uid" with readable text or "data" with readable bytes. An accepted field is recorded in its slot. The refusals are: a stream error as a 500, unreadable text of a "sponsor_uid" field as a 500 with its error text, an unnamed field as 400 "name field must be set", unreadable data as 400 "body too big (max 16MB)", and any other name as 400 "unknown field". |
| UpdateLogo.ReadForm | backend/src/routes/update_logo.rs:15-29 | The `while let` loop computes the scan of the whole form. |
| UpdateLogo.ScanSucceeds | backend/src/routes/update_logo.rs:18-29 | The loop gets through exactly when every field is accepted. |
| UpdateLogo.FirstBadDecides | backend/src/routes/update_logo.rs:18-29 | The first field that is not accepted decides the error. |
| UpdateLogo.LastWins | backend/src/routes/update_logo.rs:22-25 | A repeated field is overwritten: the form holds the last uid text and the last bytes sent. |
| UpdateLogo.NameCaseIgnored | backend/src/routes/update_logo.rs:21 | Field names are matched without regard to ASCII case. |
| UpdateLogo.PrepareMeans | backend/src/routes/update_logo.rs:18-42 | An accepted form yields the parsed last uid and the last image, and the image is PNG or JPEG. A form whose fields are all accepted but lacks either field is 400 "missing data"; with both present, an image not sniffed as PNG or JPEG is 400 "invalid file type", and an unparsable uid is a 500 with the parser's text. |
| UpdateLogo.PrepareForm | backend/src/routes/update_logo.rs:18-42 | Lines 18-42 compute the prepared uid and bytes, or the error. |
| UpdateLogo.IndexUnaffected | backend/src/routes/update_logo.rs:50-51 | Relinking the image URL does not change the index document, so no reindex is needed. |
| UpdateLogo.Completes | backend/src/routes/update_logo.rs:47-51 | The three calls complete exactly when none is at a faulty position. |
| UpdateLogo.Effects | backend/src/routes/update_logo.rs:47-51 | On a stored sponsor, they log the change (with the sponsor as it was), store the logo under the uid, and set the image URL to "/get_logo/UID". |
| UpdateLogo.FailedUploadStillLogged | backend/src/routes/update_logo.rs:47-49 | A failed upload ends the handler after the change was logged, before the image URL is touched. |
| UpdateLogo.UpdateLogo | backend/src/routes/update_logo.rs:14-54 | A refused form answers its error and touches no store. Otherwise the lookup comes first: a failed lookup is a 500 and a missing sponsor is 400 "sponsor not found??". Then the calls run with the stored sponsor, and the answer is its relinked REST form. |
| UpdateLogo.SetLogo | backend/src/routes/update_logo.rs:45-53 | The lookup and the three calls leave the state described for `UpdateLogo`. |
| UpdateLogo.Persist | backend/src/routes/update_logo.rs:47-51 | The three awaited calls leave exactly the run the plan predicts. |
| UpdateAdmins.CurrentAdmins | backend/src/routes/settings/update_admins.rs:23-29 | The current admins are exactly the listed records whose role is ADMIN. |
| UpdateAdmins.RequestedAdmins | backend/src/routes/settings/update_admins.rs:30-37 | The requested admins are exactly the ADMIN records of the requested emails. |
| UpdateAdmins.AdminRecords | backend/src/queries/mongo.rs:232-244 | The stored admin records are the ADMIN records of the emails whose role is ADMIN. |
| UpdateAdmins.Override | backend/src/queries/mongo.rs:206-218 | Upserting a role for a set of emails: those emails get the role, others keep theirs, and the keys are the old ones plus the emails. |
| UpdateAdmins.RoleChanges | backend/src/routes/settings/update_admins.rs:42-50 | One change entry per record, in order, attributed to the caller. |
| UpdateAdmins.DuplicatesCollapse | backend/src/routes/settings/update_admins.rs:30-37 | Repeating an email in the request changes nothing. There are as many requested admins as distinct emails. |
| UpdateAdmins.ChangesDisjoint | backend/src/routes/settings/update_admins.rs:39-40 | Promotions and demotions concern different emails, and every record in either is an ADMIN record. |
| UpdateAdmins.AdminsAfterwards | backend/src/routes/settings/update_admins.rs:39-64 | After the request, the admins are exactly the requested emails. An email neither requested nor an admin keeps its role, or stays absent. |
| UpdateAdmins.RepeatIsNoOp | backend/src/routes/settings/update_admins.rs:39-64 | Repeating a request finds nothing to add, remove or log. |
| UpdateAdmins.EmailsOfAdmins | backend/src/routes/settings/update_admins.rs:39-40 | ADMIN records are as many as their emails. |
| UpdateAdmins.SymmetricDifferenceCard | backend/src/routes/settings/update_admins.rs:42 | The symmetric difference counts both differences. |
| UpdateAdmins.OverrideStep | backend/src/routes/settings/update_admins.rs:52-64 | Writing one more role extends the override by that email. |
| UpdateAdmins.OverrideNone | backend/src/routes/settings/update_admins.rs:52-64 | Writing no roles changes nothing. |
| UpdateAdmins.EnumeratedEmails | backend/src/routes/settings/update_admins.rs:52-64 | Enumerating a set of records keeps its emails. |
| UpdateAdmins.JournalOrder | backend/src/routes/settings/update_admins.rs:42-64 | Every change-log call comes before every role write. |
| UpdateAdmins.LogRoleChanges | backend/src/routes/settings/update_admins.rs:42-50 | The loop logs one change per record, in order. The first failure ends it; every entry but the last succeeded, and what was logged is exactly the prefix done. |
| UpdateAdmins.SetRoles | backend/src/routes/settings/update_admins.rs:52-64 | The loop upserts the role for each record's email, in order, and the first failure ends it. The role table is the old one with those emails overridden. |
| UpdateAdmins.LogSymmetricDifference | backend/src/routes/settings/update_admins.rs:42-50 | Each record of the symmetric difference is logged once when the loop completes; each logged record belongs to it. |
| UpdateAdmins.WriteRoles | backend/src/routes/settings/update_admins.rs:52-64 | Promotions are written before demotions. On completion the promoted emails are ADMIN and the demoted ones USER. A demotion happens only after every promotion. |
| UpdateAdmins.Reconcile | backend/src/routes/settings/update_admins.rs:39-64 | Logs, then writes. On completion the log holds the symmetric difference once each, and the role table is reconciled. Errors are the store's. |
| UpdateAdmins.ListAdmins | backend/src/routes/settings/update_admins.rs:23-29 | The admin listing is the set of stored ADMIN records, or the store's error. |
| UpdateAdmins.UpdateAdmins | backend/src/routes/settings/update_admins.rs:18-67 | The journal starts with the admin listing, and log entries come before role writes. On success the answer is `{}`, every call succeeded, and the calls are one listing plus two per changed record. Any failure is a 500. |
| Search.JoinAll | backend/src/routes/search.rs:23-25 | `try_join_all` over the hits' lookups succeeds exactly when every lookup does, giving the results in hit order. Otherwise it gives the error of some failing lookup. |
| Search.HitIds | backend/src/routes/search.rs:25 | The ids of the hits, in order. |
| Search.Search | backend/src/routes/search.rs:13-35 | A missing `search` key is 400 "no search query", checked before the type. A missing `type` is 400 "no type query. must be sponsors or favours". A type that is neither sponsors nor favours, ignoring case, is exactly the 400 "invalid type query". A favours query succeeds exactly when the favour search does, and answers its hits in REST form. A sponsors query succeeds exactly when the sponsor search and every hit's lookup do, and answers sponsor results. Otherwise the answer is a 500 with the error of the sponsor search, the favour search or a failed lookup. |
| Search.TypeCaseIgnored | backend/src/routes/search.rs:21 | Changing only the type's case does not change the answer. |
| Search.SponsorResultsInHitOrder | backend/src/routes/search.rs:22-26 | Sponsor results are the found sponsors of the hits in hit order, with the hits that found nothing dropped. |
| MeiliSync.ListSponsorIds | backend/src/meili_sync.rs:54 | The sponsor index's ids are listed once each, all of them. |
| MeiliSync.ListFavourIds | backend/src/meili_sync.rs:63 | The favour index's ids are listed once each, all of them. |
| MeiliSync.UnindexSponsors | backend/src/meili_sync.rs:54-61 | The ids removed from the sponsor index are never kept ones. On completion they are exactly the listed ids outside the kept set, and the count is how many there were. Every call is a deletion, and every one but possibly the last succeeded. |
| MeiliSync.UnindexFavours | backend/src/meili_sync.rs:63-69 | The same for the favour index, one id per deletion request. |
| MeiliSync.PruneSponsors | backend/src/meili_sync.rs:54-61 | Only dangling documents are removed. On completion the sponsor index holds exactly the stored uids it held before, and the count is the number removed. |
| MeiliSync.PruneFavours | backend/src/meili_sync.rs:63-69 | Only dangling favour documents are removed. On completion exactly the stored favour uids remain. |
| MeiliSync.DeleteDangling | backend/src/meili_sync.rs:52-73 | Both indexes are pruned to the stored uids and favour uids. Every call is a deletion; all succeed but possibly the last. |
| MeiliSync.ListedIds | backend/src/meili_sync.rs:54-57 | Listing an index once per document gives its ids once each, all of them. |
| MeiliSync.DanglingMembers | backend/src/meili_sync.rs:55-57 | The dangling ids of a listing prefix are exactly the ids in it outside the kept set. |
| MeiliSync.DanglingCard | backend/src/meili_sync.rs:53-60 | Counting deletions counts the dangling set, because listed ids are distinct. |
| MeiliSync.DanglingAll | backend/src/meili_sync.rs:54-61 | Over the whole listing, the dangling ids are the index keys outside the kept set. |
| MeiliSync.PrunedBy | backend/src/meili_sync.rs:54-69 | The deletion loop leaves the index without the deleted ids, none of them kept. On completion that is the index restricted to the kept set. |
| MeiliSync.IndexAllFrame | backend/src/meili_sync.rs:77-84 | Indexing every sponsor changes nothing but the two indexes. |
| MeiliSync.IndexOneKeys | backend/src/meili_sync.rs:78-82 | Indexing one sponsor upserts its document under its uid, adds its favours' uids to the favour index, and changes nothing else. |
| MeiliSync.IndexAllKeys | backend/src/meili_sync.rs:77-84 | Indexing every sponsor adds exactly their uids and their favours' uids. |
| MeiliSync.IndexAllDocs | backend/src/meili_sync.rs:77-84 | Each indexed uid holds the document of a sponsor with that uid. Other ids keep their document. |
| MeiliSync.InsertRunIndexes | backend/src/meili_sync.rs:77-84 | The insertion pass makes only indexing calls, all of which succeed but possibly the last. A refusal is the store being unavailable. Nothing but the two indexes changes. |
| MeiliSync.InsertRunCompletes | backend/src/meili_sync.rs:77-84 | A pass that is not refused indexes every remaining sponsor. |
| MeiliSync.IndexOne | backend/src/meili_sync.rs:78-82 | One iteration indexes the sponsor, then its favours. The rest of the pass is the pass from the next sponsor. |
| MeiliSync.InsertAll | backend/src/meili_sync.rs:75-87 | The loop leaves exactly the predicted insertion pass. On completion it counts every sponsor. |
| MeiliSync.ListingUids | backend/src/meili_sync.rs:42 | A listing of every stored sponsor carries the stored uids and favour uids. |
| MeiliSync.ReindexIndexes | backend/src/meili_sync.rs:44-45 | Pruning and then indexing every listed sponsor leaves exactly their uids and favour uids in the indexes. The stored collections stay as they were. |
| MeiliSync.ReindexDocs | backend/src/meili_sync.rs:44-45 | After that, every sponsor document is the index form of a listed sponsor. |
| MeiliSync.Reindex | backend/src/meili_sync.rs:44-45 | Deletions come before insertions. On completion the indexes hold exactly the listed sponsors, each as its index document. |
| MeiliSync.Sync | backend/src/meili_sync.rs:39-50 | The pass lists the store first, and removes before it adds. On completion the sponsor index holds exactly the stored uids, each with a stored sponsor's document, and the favour index holds exactly the stored favour uids. The stored collections are never changed. Any failure is "store unavailable" and ends the pass. |
| Seqs.MapSeq | backend/src/models/meili.rs:68-75 | `map(..).collect()` keeps the length and converts each element in place. |
| Seqs.Present | backend/src/routes/search.rs:26 | The positions holding a value, in increasing order, and all of them. |
| Seqs.FlattenPresent | backend/src/routes/search.rs:26 | `flatten` keeps exactly the present values, in order. |
| Seqs.MapSeqCompose | backend/src/models/rest.rs:80-90 | Mapping twice is mapping by the composition. |
| Seqs.DistinctCard | backend/src/routes/settings/update_admins.rs:39-42 | A list without repeats has as many elements as its set. |
| Seqs.Enumerate | backend/src/routes/create.rs:23 | The stored tags, a hash set turned into a list, list each element exactly once; the set iterations in update_admins.rs:42-64 use the same enumeration. |
| FrontStore.MainStore.constructor | frontend/stores/main.ts:7-10 | The store starts with no sponsors and last fetch time 0. |
| FrontStore.MainStore.ReplaceSponsor | frontend/stores/main.ts:72-75 | `_replaceSponsor` drops every sponsor with the uid and appends the new one. |
| FrontStore.MainStore.DeleteSponsor | frontend/stores/main.ts:67-70 | Posts the delete request, then drops every sponsor with the uid and nothing else, whether or not the request succeeded: the client's interceptor resolves a failed request. |
| FrontStore.MainStore.FetchAllSponsors | frontend/stores/main.ts:12-20 | A request is sent exactly when 4000 ms have passed since the last fetch time, which then becomes now. A successful answer replaces the list. |
| FrontStore.MainStore.FetchSingleSponsor | frontend/stores/main.ts:22-26 | The fetched sponsor replaces its namesakes. |
| FrontStore.MainStore.CreateOrUpdateSponsor | frontend/stores/main.ts:42-65 | The sponsor is posted to /update or /create. When a logo is given and the save succeeded, a second request uploads the logo for the saved uid. The result is the saved sponsor, or the uploaded one with a cache-busting suffix appended to its image URL ("null" when the answer has none). The list is updated through `_replaceSponsor` only on success. |
| FrontStore.WithoutMembers | frontend/stores/main.ts:73 | A sponsor survives the filter exactly when it was listed and has another uid. |
| FrontStore.Kept | frontend/stores/main.ts:73 | Each sponsor is kept exactly when its uid differs. |
| FrontStore.WithoutKeepsOrder | frontend/stores/main.ts:73 | The filter keeps the other sponsors in their order. |
| FrontStore.ReplacedIsLastAndOnly | frontend/stores/main.ts:72-75 | After replacing, exactly one sponsor has the uid, and it is the last. |
| FrontStore.AllFavoursAppend | frontend/stores/main.ts:33-35 | The favours of a concatenated list are the concatenated favours. |
| FrontStore.AllFavoursMembers | frontend/stores/main.ts:33-35 | A favour is listed exactly when some sponsor holds it. |
| FrontStore.RequestsSpaced | frontend/stores/main.ts:13-15 | Over calls with a clock that never goes backwards, successive requests are at least 4000 ms apart, and the first is at least 4000 ms after the last fetch. |
| FrontStore.SavePathChosen | frontend/stores/main.ts:47-50 | The save path is /update exactly when updating, and /create otherwise. |
| NavGuard.AsWrittenNeverAborts | frontend/middleware/navguard.global.ts:9-10 | Comparing the path with "login", which has no slash, never matches a route path, so the guard as written never aborts. A signed-in user on /login proceeds. |
| NavGuard.GuardDecides | frontend/middleware/navguard.global.ts:1-11 | With the slash restored: a visitor who is not signed in is sent to /login from every other page, a signed-in user on /login is aborted, and everything else proceeds. |
| NavGuard.GuardsAgreeElsewhere | frontend/middleware/navguard.global.ts:6-10 | The two guards differ only for a signed-in user on /login. |
| NavGuard.AsWrittenNeverRedirects | frontend/middleware/navguard.global.ts:4-7 | As written, the redirect to /login never happens: a failed /whoami makes `fetchUser` throw, so the guard throws; a successful one yields a user. |
| NavGuard.UserAfter | frontend/stores/auth.ts:9-13 | With the fetch corrected, the user is none exactly when /whoami failed. |
| NavGuard.RunDecides | frontend/middleware/navguard.global.ts:1-11 | The corrected guard always decides: a visitor whose /whoami fails is sent to /login from every other page and let through on it, and a signed-in user is aborted on /login and nowhere else. |
| Logos.FindFirst | backend/src/queries/mongo.rs:137-146 | The find with limit 1 yields the first file whose field under the filter key holds the name, or none when no file does. |
| Logos.Download | backend/src/queries/mongo.rs:153-173 | A download by name yields none exactly when no file has the name, and otherwise the data of the most recent file with it. |
| Logos.Names | backend/src/queries/mongo.rs:124-134 | The names in the bucket are exactly the file names of its documents. |
| Logos.Served | backend/src/queries/mongo.rs:153-173 | The logos served are keyed by exactly the stored names, each with what a download by that name yields. |
| Logos.ServedSingle | backend/src/queries/mongo.rs:153-173 | When no name repeats, a name's one file is what is served for it. |
| Logos.AsWrittenDeletesNothing | backend/src/queries/mongo.rs:136-151 | As written, `delete_logo` filters on "file_name", which no file document holds, so it leaves the bucket and every served logo unchanged. |
| Logos.AsWrittenLogoSurvivesDelete | backend/src/queries/mongo.rs:136-151 | As written, a logo that was uploaded is still served after `delete_logo`. |
| Logos.AsWrittenUploadServesLatest | backend/src/queries/mongo.rs:124-134 | As written, an upload still serves the new logo, because a download takes the most recent file with the name. |
| Logos.DeleteAt | backend/src/queries/mongo.rs:148 | Deleting one file of a bucket without repeated names keeps the names distinct and removes exactly that file's name. |
| Logos.DeleteAtServes | backend/src/queries/mongo.rs:148 | After one file of a bucket without repeated names is deleted, each remaining name downloads as before. |
| Logos.DeleteAtRemoves | backend/src/queries/mongo.rs:148 | Deleting one file of a bucket without repeated names stops serving its name and serves every other logo as before. |
| Logos.DeleteLogoRemoves | backend/src/queries/mongo.rs:136-151 | With the filter on "filename", `delete_logo` keeps the names distinct, stops serving the uid's logo and serves every other logo as before. |
| Logos.AppendNames | backend/src/queries/mongo.rs:127-131 | Writing a file adds exactly its name to the stored names. |
| Logos.DownloadAppend | backend/src/queries/mongo.rs:153-173 | After a file is written, a download by its name yields its data, and by any other name yields what it did before. |
| Logos.AppendSingle | backend/src/queries/mongo.rs:127-131 | Writing a file under a name not yet stored keeps the names distinct. |
| Logos.AppendNew | backend/src/queries/mongo.rs:127-131 | Writing a file under a name not yet stored serves it under that name and every other logo as before. |
| Logos.UploadLogoReplaces | backend/src/queries/mongo.rs:124-134 | With the corrected delete, `upload_logo` keeps the names distinct and serves the new logo under the uid, every other logo as before. |

## Left out

- **Periodic driver.** `meili_sync.rs` lines 1-37 are not modelled: the `Once` guard, the interval timer, the spawned task, `catch_unwind` and logging. Only `run` and its two passes are. `run`'s log message with the counts is not modelled either.
- **LDAP and JWT as parameters.**
  - The LDAP connection, bind and search of `search_user` and `check_password` are the parameters `directory` and `checkPassword`. Whether unbind happens is not modelled.
  - JWT signing and validation (`create_jwt`, `validate_jwt`) are the parameters `sign` and `validate`. Neither signature checking nor expiry is modelled.
- **Clocks.** The clocks are parameters: `now` in `Login` and `FetchAllSponsors`.
  - The timestamp of a `Change` (`Change::new`) is not modelled. A change is its author and its kind.
- **Random values.** `Uuid::new_v4` is the parameter `newId`. Fresh ids are assumed distinct only where the model says so; nothing depends on their randomness.
  - `Math.random` in the logo cache-buster is the parameter `stamp`.
- **UUIDs and file types.** UUID parsing and rendering (`Uuid::from_str`, `to_string`) and MIME sniffing (`infer::get`) are parameters.
- **Auth.Filter.** The LDAP filter is modelled as written, with the mail unescaped. Escaping under section 3 of RFC 4515 is not modelled.
- **Http.Lower.** It lower-cases ASCII letters only. Rust's `to_lowercase` also maps non-ASCII letters.
- **HTTP and JSON.**
  - JSON serialization and the HTTP framework are not modelled. A handler's answer is a value (`Outcome`), and `Search`'s body is the record `Body(results)`.
  - Request extraction (`Json`, `Query`, `Multipart`) is a parameter, already decoded.
- **Hash sets.** A `HashSet` turned into a `Vec` (the stored `tags`) is enumerated by `Seqs.Enumerate`. That fixes one order; the model promises only that each element appears exactly once.
- **Concurrency.**
  - `try_join_all` runs the lookups concurrently. `Search.JoinAll` reports the first error in hit order; the code may report whichever failing lookup finishes first.
  - Concurrent requests are not modelled.
- **Logos.**
  - Module `Logos` models the GridFS bucket as a list of file documents. Module `Store` keeps only what the bucket serves, as the map `logos`.
  - `Store` follows the corrected `delete_logo`: its `DeleteLogo` call removes the logo, and its `UploadLogo` call replaces it (see Findings). `Logos` proves this of the bucket when no name repeats. As written, the delete removes nothing.
  - `upload_logo`'s own ignored `delete_logo` call and its GridFS stream writes are folded into one `UploadLogo` store call.
- **Store internals.** Store failures are "store unavailable" at faulty journal positions, or a duplicate key. The drivers' own error texts are not modelled.
- **Missing search-index client code.**
  - The search-index client's `get_all_sponsors`, `get_all_favours`, `delete_sponsor`, `delete_favours`, `get_sponsors` and `get_favours` are not part of this model. Their behaviour is taken from their names and call sites: listing, deletion by id, and full-text search as the parameters `searchSponsors` and `searchFavours`.
  - The effect of `search` on the index is not modelled.
- **Frontend settings.** The settings part of the frontend store (`fetchSettings`, `saveSettings`, `settings`) is not modelled.
- **HTTP client and auth store.** They are modelled only by their effect on the guard and the main store. `fetchUser` is the outcome of /whoami: a failure, on which it throws (see Findings), or the signed-in user. The `/whoami` session token and the loading bar and notifications are not modelled.
- **Admin role check.** The `RequireAdmin` extractor that guards `update_admins` is not part of this model; the handler receives the caller's email.
- **Search-index tasks.** Meilisearch queues each write as a task: `add_documents` (backend/src/queries/meili.rs:29 and :35) and the deletions return once the task is queued. The model applies each write, never refused for its data, when the call returns. What `MeiliSync` and the reindexing handlers promise about the indexes holds once the queued tasks have run.
- **`AppError::new`.** It is called by the handlers but not defined in `error.rs`. It is modelled as building an `AppError` from its code and message.
- **Auth.AsUsize.** The expiry is the clock plus one day. The claim equals it only while that value lies within 0 ≤ t < 2^64; outside that range the model states only the bound, not the wrapped value.

## Findings

| source | as written | input that shows it | evidently intended | confidence | as-written member | corrected member |
|---|---|---|---|---|---|---|
| frontend/middleware/navguard.global.ts:9 | `to.path === "login"` compares with a path that has no leading slash, so it never matches and the abort never happens | a signed-in user navigating to `/login` proceeds to the login page | a signed-in user is kept off `/login` (`to.path === "/login"`) | high (not executed) | NavGuard.AsWrittenNeverAborts | NavGuard.GuardDecides |
| frontend/stores/auth.ts:10-12 | when /whoami fails, the client's interceptor (frontend/utils/http.ts:29-40) resolves with `undefined`, `fetchUser` reads `.data` of it and throws, and the guard (navguard.global.ts:4) throws before its redirect test | a visitor who is not signed in opens `/` | a failed fetch leaves the user `null`, and the guard sends the visitor to `/login` | medium (not executed) | NavGuard.AsWrittenNeverRedirects | NavGuard.RunDecides |
| backend/src/queries/mongo.rs:140 | `delete_logo` filters on "file_name", but GridFS file documents hold the name under "filename" (written at :129, read at :159), so the find matches nothing and :145 returns `Ok` without deleting | an update (backend/src/routes/update.rs:45-47) of a sponsor that has a logo and no image URL: the logo stays and `get_logo` still serves it | filter on "filename", so the logo is deleted | medium (not executed) | Logos.AsWrittenDeletesNothing | Logos.DeleteLogoRemoves |
