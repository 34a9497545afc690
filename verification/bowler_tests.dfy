/**
 * The helpers of the federation tests (kepi/bowler_pub/tests/__init__.py)
 * that build documents and messages: the actor document of a mocked remote
 * user, the body and headers of a test message, and the key defaulting of
 * create_local_person. The paging helper create_remote_collection is in
 * Collections with the rest of the paging.
 *
 * The HTTP signer (httpsig's HeaderSigner.sign) and the key file that is
 * read are parameters.
 */
module BowlerTests {
  import opened Wrappers
  import opened Text
  import opened Dicts
  import opened Json
  import opened Collections
  import opened Persons

  const ACTIVITY_ID := "https://example.com/04b065f8-81c4-408e-bec3-9fb1f7c06408"

  const ACTIVITY_DATE := "Thu, 04 Apr 2019 21:12:11 GMT"

  const JSON_TYPE := "application/activity+json"

  // ------------------------------------------------------------ remote_user

  /** The public key object of a remote user's document. */
  function KeyDocument(url: string, publicKey: Json): Dict<Json>
  {
    [("id", JStr(MainKeyId(url))), ("owner", JStr(url)), ("publicKeyPem", publicKey)]
  }

  /** The members remote_user always writes. */
  function RemoteUserFields(url: string, name: Json, publicKey: Json, followers: Json): Dict<Json>
  {
    [("@context", JStr(CONTEXT_URL)), ("id", JStr(url)), ("type", JStr("Person")),
     ("following", JStr("")), ("followers", followers), ("outbox", JStr("")),
     ("featured", JStr("")), ("preferredUsername", name), ("url", JStr(url)),
     ("publicKey", JObj(KeyDocument(url, publicKey)))]
  }

  /** remote_user(url, name, publicKey, inbox, sharedInbox, followers); None is JNull. */
  function RemoteUser(url: string, name: Json, publicKey: Json, inbox: Json, sharedInbox: Json, followers: Json): Dict<Json>
  {
    var result := RemoteUserFields(url, name, publicKey, followers);
    var withInbox := if inbox != JNull then Put(result, "inbox", inbox) else result;
    if sharedInbox != JNull then Put(withInbox, "endpoints", JObj([("sharedInbox", sharedInbox)])) else withInbox
  }

  lemma RemoteUserFieldsShape(url: string, name: Json, publicKey: Json, followers: Json)
    ensures var d := RemoteUserFields(url, name, publicKey, followers);
      && Distinct(d)
      && Lookup(d, "id") == Some(JStr(url))
      && Lookup(d, "publicKey") == Some(JObj(KeyDocument(url, publicKey)))
      && !HasKey(d, "inbox") && !HasKey(d, "endpoints")
  {
    var d := RemoteUserFields(url, name, publicKey, followers);
    DistinctFromIndices(d);
    LookupIndex(d, 1);
    LookupIndex(d, 9);
    NotKeyFromIndices(d, "inbox");
    NotKeyFromIndices(d, "endpoints");
  }

  /**
   * The remote user document: its key names the user as owner under the
   * user's `#main-key` id; `inbox` is there exactly when one was given, and
   * `endpoints.sharedInbox` exactly when a shared inbox was given.
   */
  lemma RemoteUserShape(url: string, name: Json, publicKey: Json, inbox: Json, sharedInbox: Json, followers: Json)
    ensures var d := RemoteUser(url, name, publicKey, inbox, sharedInbox, followers);
      && Distinct(d)
      && Lookup(d, "id") == Some(JStr(url))
      && Lookup(d, "publicKey") == Some(JObj(KeyDocument(url, publicKey)))
      && (HasKey(d, "inbox") <==> inbox != JNull)
      && (inbox != JNull ==> Lookup(d, "inbox") == Some(inbox))
      && (HasKey(d, "endpoints") <==> sharedInbox != JNull)
      && (sharedInbox != JNull ==> Lookup(d, "endpoints") == Some(JObj([("sharedInbox", sharedInbox)])))
  {
    var result := RemoteUserFields(url, name, publicKey, followers);
    var withInbox := if inbox != JNull then Put(result, "inbox", inbox) else result;
    RemoteUserFieldsShape(url, name, publicKey, followers);
    if inbox != JNull {
      PutDistinct(result, "inbox", inbox);
      LookupPut(result, "inbox", inbox, "id");
      LookupPut(result, "inbox", inbox, "publicKey");
      LookupPut(result, "inbox", inbox, "inbox");
      LookupPut(result, "inbox", inbox, "endpoints");
    }
    if sharedInbox != JNull {
      var e := JObj([("sharedInbox", sharedInbox)]);
      PutDistinct(withInbox, "endpoints", e);
      LookupPut(withInbox, "endpoints", e, "id");
      LookupPut(withInbox, "endpoints", e, "publicKey");
      LookupPut(withInbox, "endpoints", e, "inbox");
      LookupPut(withInbox, "endpoints", e, "endpoints");
    }
  }

  /** The key object's id is the owner's `#main-key` id, so the key leads back to its owner. */
  lemma RemoteKeyOwner(url: string, publicKey: Json)
    ensures var k := KeyDocument(url, publicKey);
      && Lookup(k, "id") == Some(JStr(MainKeyId(url)))
      && Lookup(k, "owner") == Some(JStr(url))
      && KeyOwner(MainKeyId(url)) == url
  {
  }

  // --------------------------------------------------------- test messages

  /** A message as the helper returns it: the body document and the headers. */
  datatype Message = Message(body: Dict<Json>, headers: Dict<string>)

  /** What httpsig's HeaderSigner.sign returns for (headers, key id, path). */
  type Signer = (Dict<string>, Json, string) -> Dict<string>

  const SIGNATURE := "Signature"

  function Same(j: Json): Json { j }

  /** Python's s[n:]: empty once n passes the end. */
  function From(s: string, n: nat): string
  {
    if n <= |s| then s[n..] else ""
  }

  /** Unprefixing with Same keeps the values: a stripped key reads its `f_` field. */
  lemma LookupStripped(fields: Dict<Json>, k: string)
    ensures Lookup(Unprefixed(fields, "f_", Same), k) == Lookup(fields, "f_" + k)
  {
    LookupUnprefixed(fields, "f_", Same, k);
    match Lookup(fields, "f_" + k)
    case None =>
    case Some(v) => assert Same(v) == v;
  }

  /** The body before its id is defaulted: the `f_` fields unprefixed, then @context and Host. */
  function BaseBody(fields: Dict<Json>, host: string): Dict<Json>
  {
    Put(Put(Unprefixed(fields, "f_", Same), "@context", JStr(CONTEXT_URL)), "Host", JStr(host))
  }

  /** The final body: the id defaults to ACTIVITY_ID only when the fields gave none. */
  function Body(fields: Dict<Json>, host: string): Dict<Json>
  {
    var body := BaseBody(fields, host);
    if HasKey(body, "id") then body else Put(body, "id", JStr(ACTIVITY_ID))
  }

  /** fields['key_id'] when given, else body['actor'] + '#main-key'. */
  function KeyId(fields: Dict<Json>, body: Dict<Json>): Result<Json>
  {
    if HasKey(fields, "key_id") then Ok(Lookup(fields, "key_id").value)
    else
      match Lookup(body, "actor")
      case None => Err(KeyError)
      case Some(actor) => if actor.JStr? then Ok(JStr(MainKeyId(actor.str))) else Err(TypeError)
  }

  function PlainHeaders(host: string): Dict<string>
  {
    [("content-type", JSON_TYPE), ("date", ACTIVITY_DATE), ("host", host)]
  }

  /** After signing: `Signature` is the Authorization value without its leading "Signature ". */
  function SignatureAdded(headers: Dict<string>): Result<Dict<string>>
  {
    match Lookup(headers, "Authorization")
    case None => Err(KeyError)
    case Some(auth) =>
      if StartsWith(auth, SIGNATURE) then Ok(Put(headers, "Signature", From(auth, |SIGNATURE| + 1)))
      else Ok(headers)
  }

  /** test_message_body_and_headers, as a value. */
  function BodyAndHeaders(fields: Dict<Json>, host: string, path: string, signed: bool, sign: Signer): (r: Result<Message>)
    ensures r.Ok? <==>
      KeyId(fields, BaseBody(fields, host)).Ok? &&
      (signed ==> HasKey(sign(PlainHeaders(host), KeyId(fields, BaseBody(fields, host)).value, path), "Authorization"))
    ensures !HasKey(fields, "key_id") && !HasKey(fields, "f_actor") ==> r == Err(KeyError)
    ensures r.Ok? ==> r.value.body == Body(fields, host)
    ensures r.Ok? && !signed ==> r.value.headers == PlainHeaders(host)
  {
    LookupStripped(fields, "actor");
    assert "f_" + "actor" == "f_actor";
    LookupPut(Unprefixed(fields, "f_", Same), "@context", JStr(CONTEXT_URL), "actor");
    LookupPut(Put(Unprefixed(fields, "f_", Same), "@context", JStr(CONTEXT_URL)), "Host", JStr(host), "actor");
    var keyId :- KeyId(fields, BaseBody(fields, host));
    var headers :- if signed then SignatureAdded(sign(PlainHeaders(host), keyId, path)) else Ok(PlainHeaders(host));
    Ok(Message(Body(fields, host), headers))
  }

  /**
   * The body holds exactly the `f_` fields without their prefix, plus
   * `@context` and `Host`, and `id` defaults only when no `f_id` was given.
   */
  lemma BodyLookup(fields: Dict<Json>, host: string, k: string)
    ensures Lookup(Body(fields, host), k) ==
      if k == "Host" then Some(JStr(host))
      else if k == "@context" then Some(JStr(CONTEXT_URL))
      else if k == "id" && !HasKey(fields, "f_id") then Some(JStr(ACTIVITY_ID))
      else Lookup(fields, "f_" + k)
  {
    var stripped := Unprefixed(fields, "f_", Same);
    var withContext := Put(stripped, "@context", JStr(CONTEXT_URL));
    var body := BaseBody(fields, host);
    LookupStripped(fields, k);
    LookupStripped(fields, "id");
    assert "f_" + "id" == "f_id";
    LookupPut(stripped, "@context", JStr(CONTEXT_URL), k);
    LookupPut(withContext, "Host", JStr(host), k);
    LookupPut(stripped, "@context", JStr(CONTEXT_URL), "id");
    LookupPut(withContext, "Host", JStr(host), "id");
    if !HasKey(body, "id") {
      LookupPut(body, "id", JStr(ACTIVITY_ID), k);
    }
  }

  /** With no key_id given, the key id is the `#main-key` id of the message's actor. */
  lemma DefaultKeyId(fields: Dict<Json>, host: string, actor: string)
    requires !HasKey(fields, "key_id") && Lookup(fields, "f_actor") == Some(JStr(actor))
    ensures KeyId(fields, BaseBody(fields, host)) == Ok(JStr(MainKeyId(actor)))
    ensures var k := KeyId(fields, BaseBody(fields, host)).value.str; IsMainKeyId(k) && KeyOwner(k) == actor
  {
    var stripped := Unprefixed(fields, "f_", Same);
    LookupStripped(fields, "actor");
    assert "f_" + "actor" == "f_actor";
    LookupPut(stripped, "@context", JStr(CONTEXT_URL), "actor");
    LookupPut(Put(stripped, "@context", JStr(CONTEXT_URL)), "Host", JStr(host), "actor");
  }

  /** A given key_id is used as it is. */
  lemma GivenKeyId(fields: Dict<Json>, host: string, key: Json)
    requires Lookup(fields, "key_id") == Some(key)
    ensures KeyId(fields, BaseBody(fields, host)) == Ok(key)
  {
  }

  /** A signer's `Signature <params>` authorization becomes the `Signature` header `<params>`. */
  lemma SignatureHeader(headers: Dict<string>, params: string)
    requires Lookup(headers, "Authorization") == Some(SIGNATURE + " " + params)
    ensures SignatureAdded(headers).Ok?
    ensures Lookup(SignatureAdded(headers).value, "Signature") == Some(params)
    ensures forall k :: k != "Signature" ==> Lookup(SignatureAdded(headers).value, k) == Lookup(headers, k)
  {
    var auth := SIGNATURE + " " + params;
    assert StartsWith(auth, SIGNATURE);
    assert From(auth, |SIGNATURE| + 1) == params;
    forall k {
      LookupPut(headers, "Signature", params, k);
    }
  }

  // ---------------------------------------------------- create_local_person

  /** The keys a caller passed as keyword arguments; None when not passed. */
  datatype KeyArgs = KeyArgs(publicKey: Option<string>, privateKey: Option<string>)

  /** Python's truth test on a string. */
  predicate Truthy(s: string) { s != "" }

  /**
   * The key defaulting as written. Its test `'publicKey' or 'privateKey' not
   * in kwargs` is a non-empty string or'ed with a membership test, so it is
   * always true and the default key file is read even when both keys were
   * given; `keys` is that file's contents, None when it cannot be read.
   */
  function DefaultKeysAsWritten(given: KeyArgs, keys: Option<KeyPair>): Result<KeyArgs>
  {
    if Truthy("publicKey") || given.privateKey.None? then
      match keys
      case None => Err(FileNotFoundError)
      case Some(k) =>
        Ok(KeyArgs(if given.publicKey.None? then Some(k.publicPem) else given.publicKey,
                   if given.privateKey.None? then Some(k.privatePem) else given.privateKey))
    else Ok(given)
  }

  /** The key defaulting as intended: the file is read only when a key is missing. */
  function DefaultKeys(given: KeyArgs, keys: Option<KeyPair>): (r: Result<KeyArgs>)
    ensures given.publicKey.Some? && given.privateKey.Some? ==> r == Ok(given)
    ensures (given.publicKey.None? || given.privateKey.None?) && keys.None? ==> r == Err(FileNotFoundError)
    ensures r.Ok? ==> r.value.publicKey.Some? && r.value.privateKey.Some?
    ensures r.Ok? && given.publicKey.Some? ==> r.value.publicKey == given.publicKey
    ensures r.Ok? && given.privateKey.Some? ==> r.value.privateKey == given.privateKey
    ensures r.Ok? && given.publicKey.None? ==> r.value.publicKey == Some(keys.value.publicPem)
    ensures r.Ok? && given.privateKey.None? ==> r.value.privateKey == Some(keys.value.privatePem)
  {
    if given.publicKey.None? || given.privateKey.None? then
      match keys
      case None => Err(FileNotFoundError)
      case Some(k) =>
        Ok(KeyArgs(if given.publicKey.None? then Some(k.publicPem) else given.publicKey,
                   if given.privateKey.None? then Some(k.privatePem) else given.privateKey))
    else Ok(given)
  }

  /**
   * The two agree whenever a key is missing, and differ when both keys are
   * given and the default file cannot be read: as written the call fails.
   */
  lemma DefaultKeysAlwaysReadsFile(given: KeyArgs, keys: Option<KeyPair>)
    ensures given.publicKey.None? || given.privateKey.None? ==> DefaultKeysAsWritten(given, keys) == DefaultKeys(given, keys)
    ensures given.publicKey.Some? && given.privateKey.Some? && keys.None? ==>
      DefaultKeysAsWritten(given, keys) == Err(FileNotFoundError) && DefaultKeys(given, keys) == Ok(given)
  {
  }

  /**
   * create_local_person with the key defaulting as intended: default the
   * keys, make the person for `name`, and save it. `generated` is what key
   * generation would produce; with both keys present after defaulting it is
   * never used.
   */
  method CreateLocalPerson(name: string, displayName: string, given: KeyArgs, keys: Option<KeyPair>, generated: KeyPair)
    returns (r: Result<LocalPerson>)
    ensures r.Err? <==> DefaultKeys(given, keys).Err?
    ensures given.publicKey.Some? && given.privateKey.Some? ==> r.Ok?
    ensures r.Ok? ==> fresh(r.value) && fresh(r.value.localUser)
    ensures r.Ok? ==> var ks := DefaultKeys(given, keys).value;
      r.value.State() == Defaulted(LocalState(displayName, name, ks.publicKey, ks.privateKey), generated)
      && r.value.stored == Some(r.value.State())
  {
    var ks :- DefaultKeys(given, keys);
    var person := new LocalPerson(name, displayName, ks.publicKey, ks.privateKey);
    person.Save(generated);
    return Ok(person);
  }

  /**
   * create_local_person as written: the key file is opened whatever keys
   * were given, so without it even a call that supplies both keys fails.
   */
  method CreateLocalPersonAsWritten(name: string, displayName: string, given: KeyArgs, keys: Option<KeyPair>,
                                    generated: KeyPair)
    returns (r: Result<LocalPerson>)
    ensures r.Err? <==> keys.None?
    ensures r.Err? ==> r.error == FileNotFoundError
    ensures r.Ok? ==> fresh(r.value) && fresh(r.value.localUser)
    ensures r.Ok? ==> var ks := DefaultKeysAsWritten(given, keys).value;
      r.value.State() == Defaulted(LocalState(displayName, name, ks.publicKey, ks.privateKey), generated)
      && r.value.stored == Some(r.value.State())
  {
    var ks :- DefaultKeysAsWritten(given, keys);
    var person := new LocalPerson(name, displayName, ks.publicKey, ks.privateKey);
    person.Save(generated);
    return Ok(person);
  }

  /** A person made this way keeps the caller's keys, takes the file's for the rest, and never generates any. */
  lemma CreatedKeys(name: string, displayName: string, given: KeyArgs, keys: Option<KeyPair>, generated: KeyPair)
    requires DefaultKeys(given, keys).Ok?
    ensures var ks := DefaultKeys(given, keys).value;
      var s := Defaulted(LocalState(displayName, name, ks.publicKey, ks.privateKey), generated);
      && s.publicKey == (if given.publicKey.Some? then given.publicKey else Some(keys.value.publicPem))
      && s.privateKey == (if given.privateKey.Some? then given.privateKey else Some(keys.value.privatePem))
      && s.displayName == (if displayName == "" then name else displayName)
  {
  }
}
