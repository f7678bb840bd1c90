/** `assert_sponsor` (backend/src/misc.rs): the checks a sponsor must pass before
    it is stored, reported as the first failing check's message. */
module Validation {

  import opened Wrappers
  import opened Models

  const NameEmpty := "name empty"
  const ReservedName := "New Sponsor"
  const NameReserved := "New Sponsor name is invalid"
  const DescriptionEmpty := "description empty"
  const FavourEmpty := "favour empty"
  const FieldNameEmpty := "field name empty"

  /** The message for a field whose name is set but whose value is empty. */
  function FieldValueEmpty(name: string): string
  {
    "field " + name + " value empty"
  }

  /** The message a single field fails with, if any. */
  function FieldError(f: SponsorField): Option<string>
  {
    if f.name == "" then Some(FieldNameEmpty)
    else if f.value == "" then Some(FieldValueEmpty(f.name))
    else None
  }

  predicate FieldOk(f: SponsorField)
  {
    f.name != "" && f.value != ""
  }

  /** The loop over the favours: true when some favour has an empty condition. */
  function SomeFavourEmpty(favours: seq<SponsorFavour>): (r: bool)
    ensures r <==> exists i :: 0 <= i < |favours| && favours[i].condition == ""
  {
    if favours == [] then false
    else favours[0].condition == "" || SomeFavourEmpty(favours[1..])
  }

  /** The loop over the fields: the message of the first field that fails. */
  function FirstFieldError(fields: seq<SponsorField>): (r: Option<string>)
    ensures r.None? <==> forall i :: 0 <= i < |fields| ==> FieldOk(fields[i])
    ensures r.Some? ==> exists i :: 0 <= i < |fields| && FieldError(fields[i]) == r
                          && forall j :: 0 <= j < i ==> FieldOk(fields[j])
  {
    if fields == [] then None
    else if FieldError(fields[0]).Some? then FieldError(fields[0])
    else
      var rest := FirstFieldError(fields[1..]);
      assert rest.Some? ==> exists i :: 0 <= i < |fields| && FieldError(fields[i]) == rest
                             && forall j :: 0 <= j < i ==> FieldOk(fields[j]) by {
        if rest.Some? {
          var i :| 0 <= i < |fields[1..]| && FieldError(fields[1..][i]) == rest
                   && forall j :: 0 <= j < i ==> FieldOk(fields[1..][j]);
          assert FieldError(fields[i + 1]) == rest;
          assert forall j :: 0 <= j < i + 1 ==> FieldOk(fields[j]) by {
            forall j | 0 <= j < i + 1 ensures FieldOk(fields[j]) {
              if j > 0 { assert fields[j] == fields[1..][j - 1]; }
            }
          }
        }
      }
      rest
  }

  /** Every check of `assert_sponsor` passes; tags and the image URL are not checked. */
  ghost predicate Acceptable(s: Sponsor)
  {
    && s.name != ""
    && s.name != ReservedName
    && s.shortDescription != ""
    && (forall i :: 0 <= i < |s.favours| ==> s.favours[i].condition != "")
    && (forall i :: 0 <= i < |s.fields| ==> FieldOk(s.fields[i]))
  }

  /** `assert_sponsor`: Ok exactly when every check passes; otherwise the message
      of the first failing check, in the order name, reserved name, description,
      favours, fields. */
  function AssertSponsor(s: Sponsor): (r: Result<(), string>)
    ensures r.Success? <==> Acceptable(s)
    ensures s.name == "" ==> r == Failure(NameEmpty)
    ensures s.name == ReservedName ==> r == Failure(NameReserved)
    ensures s.name != "" && s.name != ReservedName && s.shortDescription == ""
            ==> r == Failure(DescriptionEmpty)
    ensures s.name != "" && s.name != ReservedName && s.shortDescription != ""
            && (exists i :: 0 <= i < |s.favours| && s.favours[i].condition == "")
            ==> r == Failure(FavourEmpty)
    ensures r.Failure? && r.error !in {NameEmpty, NameReserved, DescriptionEmpty, FavourEmpty}
            ==> exists i :: 0 <= i < |s.fields| && FieldError(s.fields[i]) == Some(r.error)
                  && forall j :: 0 <= j < i ==> FieldOk(s.fields[j])
  {
    if s.name == "" then Failure(NameEmpty)
    else if s.name == ReservedName then Failure(NameReserved)
    else if s.shortDescription == "" then Failure(DescriptionEmpty)
    else if SomeFavourEmpty(s.favours) then Failure(FavourEmpty)
    else match FirstFieldError(s.fields)
      case Some(msg) => Failure(msg)
      case None => Success(())
  }

  /** A field whose value is empty is reported by name. */
  lemma FieldValueMessageNamesField(s: Sponsor, i: nat)
    requires i < |s.fields|
    requires s.name != "" && s.name != ReservedName && s.shortDescription != ""
    requires forall k :: 0 <= k < |s.favours| ==> s.favours[k].condition != ""
    requires forall j :: 0 <= j < i ==> FieldOk(s.fields[j])
    requires s.fields[i].name != "" && s.fields[i].value == ""
    ensures AssertSponsor(s) == Failure(FieldValueEmpty(s.fields[i].name))
  {
    FirstFieldIsReported(s.fields, i);
  }

  /** The first failing field decides the message. */
  lemma {:induction false} FirstFieldIsReported(fields: seq<SponsorField>, i: nat)
    requires i < |fields|
    requires forall j :: 0 <= j < i ==> FieldOk(fields[j])
    requires !FieldOk(fields[i])
    ensures FirstFieldError(fields) == FieldError(fields[i])
  {
    if i > 0 {
      FirstFieldIsReported(fields[1..], i - 1);
    }
  }

  /** The validator never looks at the tags or the image URL. */
  lemma TagsAndImageIgnored(s: Sponsor, tags: seq<string>, url: Option<string>)
    ensures AssertSponsor(s.(tags := tags, imageUrl := url)) == AssertSponsor(s)
  {
  }
}
