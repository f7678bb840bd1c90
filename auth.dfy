/** Bearer-token extraction and the session claims built from a directory entry
    (backend/src/auth.rs). Signing and verifying tokens is a library call; it is
    the parameter `validate`, a partial function from token text to claims. */
module Auth {

  import opened Wrappers
  import opened Models
  import opened Http

  /** The session claims, which are also the principal of a request. */
  datatype User = User(sub: string, email: string, dn: string, exp: nat)

  /** A directory entry found by its mail attribute. */
  datatype LdapSearchResult = LdapSearchResult(dn: string, cn: string, email: string)

  /** A raw entry of a directory search: its dn and its attribute values. */
  datatype SearchEntry = SearchEntry(dn: string, attrs: map<string, seq<string>>)

  /** What `search_user` returns: an entry, no entry, an error, or a panic. */
  datatype SearchOutcome = Entry(result: LdapSearchResult) | NoEntry | SearchError(message: string) | SearchPanic

  const Unauthorized := AppError(401, "unauthorized")
  const BadHeader := AppError(400, "invalid auth header")
  const Scheme := "Bearer "
  const SecondsPerDay := 86400
  const UsizeRange := 0x1_0000_0000_0000_0000

  /** `HeaderValue::to_str` accepts only tab and the visible ASCII range. */
  predicate VisibleAscii(b: Byte)
  {
    b == 9 || 32 <= b < 127
  }

  /** `to_str()`: the header bytes as text, when all of them are visible ASCII. */
  function HeaderText(bytes: seq<Byte>): (r: Option<string>)
    ensures r.Some? <==> forall i :: 0 <= i < |bytes| ==> VisibleAscii(bytes[i])
    ensures r.Some? ==> |r.value| == |bytes| && forall i :: 0 <= i < |bytes| ==> r.value[i] as int == bytes[i]
  {
    if bytes == [] then Some("")
    else if !VisibleAscii(bytes[0]) then None
    else match HeaderText(bytes[1..])
      case None => None
      case Some(rest) => Some([bytes[0] as char] + rest)
  }

  /** The ASCII bytes of a text, the inverse of `HeaderText`. */
  function Encode(s: string): (r: seq<Byte>)
    requires forall i :: 0 <= i < |s| ==> s[i] as int < 256
    ensures |r| == |s| && forall i :: 0 <= i < |s| ==> r[i] == s[i] as int
  {
    if s == [] then [] else [s[0] as int as Byte] + Encode(s[1..])
  }

  predicate StartsWith(s: string, prefix: string)
  {
    |prefix| <= |s| && s[..|prefix|] == prefix
  }

  /** `from_request_parts`: the principal of a request, from its Authorization
      header. A missing header is 401; a header that is not visible ASCII, does
      not start with the case-sensitive "Bearer ", or whose remainder does not
      validate is the same 400, so the three cannot be told apart. */
  function Authenticate(header: Option<seq<Byte>>, validate: string -> Option<User>): (r: Result<User, AppError>)
    ensures header.None? <==> r == Failure(Unauthorized)
    ensures header.Some? && r.Failure? ==> r.error == BadHeader
    ensures r.Success? <==>
              && header.Some?
              && HeaderText(header.value).Some?
              && StartsWith(HeaderText(header.value).value, Scheme)
              && validate(HeaderText(header.value).value[|Scheme|..]).Some?
    ensures r.Success? ==> r.value == validate(HeaderText(header.value).value[7..]).value
  {
    if header.None? then Failure(Unauthorized)
    else match HeaderText(header.value)
      case None => Failure(BadHeader)
      case Some(text) =>
        if !StartsWith(text, Scheme) then Failure(BadHeader)
        else match validate(text[7..])
          case None => Failure(BadHeader)
          case Some(user) => Success(user)
  }

  /** Text made of visible ASCII characters only. */
  predicate Printable(s: string)
  {
    forall i :: 0 <= i < |s| ==> 32 <= s[i] as int < 127
  }

  lemma PrintableConcat(a: string, b: string)
    requires Printable(a) && Printable(b)
    ensures Printable(a + b)
  {
    forall i | 0 <= i < |a + b| ensures 32 <= (a + b)[i] as int < 127 {
      if i < |a| { assert (a + b)[i] == a[i]; } else { assert (a + b)[i] == b[i - |a|]; }
    }
  }

  /** Printable text survives encoding to header bytes and `to_str()`. */
  lemma {:induction false} HeaderTextOfEncode(s: string)
    requires Printable(s)
    ensures HeaderText(Encode(s)) == Some(s)
    decreases |s|
  {
    if s != [] {
      HeaderTextOfEncode(s[1..]);
      var b := Encode(s);
      assert b == [s[0] as int as Byte] + Encode(s[1..]);
      assert b[1..] == Encode(s[1..]);
      assert [b[0] as char] + s[1..] == s;
    }
  }

  /** A header "Bearer <token>" built from a printable token hands exactly that
      token to validation. */
  lemma BearerRoundTrip(token: string, validate: string -> Option<User>)
    requires Printable(token)
    ensures Authenticate(Some(Encode(Scheme + token)), validate)
            == if validate(token).Some? then Success(validate(token).value) else Failure(BadHeader)
  {
    var text := Scheme + token;
    assert Scheme[0] as int == 66;
    PrintableConcat(Scheme, token);
    HeaderTextOfEncode(text);
    assert StartsWith(text, Scheme) by { assert text[..7] == Scheme; }
    assert text[7..] == token;
  }

  /** The scheme is matched case-sensitively: "bearer " is rejected whatever follows. */
  lemma LowerCaseSchemeRejected(token: string, validate: string -> Option<User>)
    requires Printable(token)
    ensures Authenticate(Some(Encode("bearer " + token)), validate) == Failure(BadHeader)
  {
    var lower := "bearer ";
    var text := lower + token;
    assert lower[0] as int == 98;
    PrintableConcat(lower, token);
    HeaderTextOfEncode(text);
    assert !StartsWith(text, Scheme) by { assert text[0] != Scheme[0]; }
  }

  /** `timestamp() as usize`: the i64 reinterpreted as an unsigned 64-bit value. */
  function AsUsize(t: int): (r: nat)
    ensures r < UsizeRange
    ensures 0 <= t < UsizeRange ==> r == t
  {
    t % UsizeRange
  }

  /** `From<LdapSearchResult> for User`, at clock reading `now` (seconds). */
  function ClaimsFor(r: LdapSearchResult, now: Timestamp): (u: User)
    ensures u.sub == r.cn && u.email == r.email && u.dn == r.dn
    ensures 0 <= now + SecondsPerDay < UsizeRange ==> u.exp == now + SecondsPerDay
  {
    User(r.cn, r.email, r.dn, AsUsize(now + SecondsPerDay))
  }

  /** The result shaping of `search_user`: the first entry, named by its first
      cn value, with the email that was searched for; a missing cn attribute is
      an error, an empty one a panic (`first().unwrap()`). */
  function ShapeSearch(entries: seq<SearchEntry>, mail: string): (r: SearchOutcome)
    ensures entries == [] <==> r == NoEntry
    ensures r.Entry? ==> && r.result.email == mail
                          && r.result.dn == entries[0].dn
                          && "cn" in entries[0].attrs
                          && |entries[0].attrs["cn"]| > 0
                          && r.result.cn == entries[0].attrs["cn"][0]
    ensures r.SearchError? ==> "cn" !in entries[0].attrs
    ensures r.SearchPanic? ==> "cn" in entries[0].attrs && entries[0].attrs["cn"] == []
  {
    if entries == [] then NoEntry
    else
      var e := entries[0];
      if "cn" !in e.attrs then SearchError("attribute cn not found on " + e.dn)
      else if e.attrs["cn"] == [] then SearchPanic
      else Entry(LdapSearchResult(e.dn, e.attrs["cn"][0], mail))
  }

  /** The search filter `search_user` sends: the mail is spliced in unescaped. */
  function Filter(mail: string): (f: string)
    ensures |f| == |mail| + 7
    ensures f[..6] == "(mail=" && f[6..|f| - 1] == mail && f[|f| - 1] == ')'
  {
    "(mail=" + mail + ")"
  }

  /** `search_user`: the directory query (connect, bind, search, unbind) is the
      parameter `directory`, from filter text to entries or an error's text. */
  function SearchUser(mail: string, directory: string -> Result<seq<SearchEntry>, string>): (r: SearchOutcome)
    ensures directory(Filter(mail)).Failure? ==> r == SearchError(directory(Filter(mail)).error)
    ensures directory(Filter(mail)).Success? ==> r == ShapeSearch(directory(Filter(mail)).value, mail)
    ensures r == NoEntry <==> directory(Filter(mail)) == Success([])
    ensures r.Entry? ==> r.result.email == mail
  {
    match directory(Filter(mail))
    case Failure(m) => SearchError(m)
    case Success(entries) => ShapeSearch(entries, mail)
  }
}
