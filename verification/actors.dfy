/**
 * The actor overrides of django_kepi/models/actor.py on a Thing row of the
 * actor kind: its url and key name, the collection urls, the private and
 * public key fields, the actor document, and the key pair provisioned after
 * creation. The generic dispatch on a row's kind (Get, Set, Url, Form) is
 * here too, since an actor is a Thing with these members overridden.
 */
module Actors {
  import opened Wrappers
  import opened Dicts
  import opened Json
  import opened Settings
  import opened Things
  import opened Text

  const LIST_NAMES: seq<string> := ["inbox", "outbox", "followers", "following"]

  const SUMMARY := "(Kepi user)"

  /** f_preferredUsername as it is formatted into a string. */
  function Username(t: ThingState): string
  {
    ColumnText(t, "preferredUsername")
  }

  /** AcActor.url: the user url of a local actor; a remote actor's id. */
  function ActorUrl(cfg: Config, t: ThingState): (u: string)
    requires cfg.Valid()
    ensures IsLocal(cfg, t) ==>
      u == UserUrl(cfg, Username(t))
    ensures !IsLocal(cfg, t) ==> u == t.remoteUrl.value
  {
    if IsLocal(cfg, t) then UserUrl(cfg, Username(t))
    else ThingUrl(cfg, t)
  }

  /** AcActor.key_name */
  function KeyName(cfg: Config, t: ThingState): (k: string)
    requires cfg.Valid()
    ensures IsMainKeyId(k) && KeyOwner(k) == ActorUrl(cfg, t)
  {
    MainKeyId(ActorUrl(cfg, t))
  }

  /** AcActor.list_url */
  function ListUrl(cfg: Config, t: ThingState, name: string): string
    requires cfg.Valid()
  {
    CollectionUrl(cfg, Username(t), name)
  }

  /** AcActor.short_id: the remote branch names `__super__`, which is not defined. */
  function ShortId(cfg: Config, t: ThingState): (r: Result<string>)
    ensures IsLocal(cfg, t) <==> r.Ok?
    ensures r.Ok? ==> r.value == "@" + Username(t)
    ensures r.Err? ==> r.error == NameError
  {
    if IsLocal(cfg, t) then Ok("@" + Username(t)) else Err(NameError)
  }

  /** AcActor.__str__: the actor's id (its url) in parentheses, then its handle or a remote marker. */
  function ActorStr(cfg: Config, t: ThingState): (s: string)
    requires cfg.Valid()
    ensures var n := |ActorUrl(cfg, t)| + 3;
      && n <= |s| && s[..n] == "(" + ActorUrl(cfg, t) + ") "
      && (IsLocal(cfg, t) ==> s[n..] == "@" + Username(t))
      && (!IsLocal(cfg, t) ==> s[n..] == "[remote user]")
  {
    if IsLocal(cfg, t) then "(" + ActorUrl(cfg, t) + ") @" + Username(t)
    else "(" + ActorUrl(cfg, t) + ") [remote user]"
  }

  /** The private key field, which is not one of the `f_` columns. */
  function PrivateKey(t: ThingState): Option<string>
  {
    if t.kind.ActorThing? then t.kind.privateKey else None
  }

  /** The public key column is NULL or empty. */
  predicate NoPublicKey(t: ThingState)
  {
    var col := Lookup(t.core, "publicKey");
    col.None? || col.value.None? || col.value.value == ""
  }

  /**
   * AcActor.__getitem__: a local actor answers the four collection names and
   * privateKey itself; publicKey is decoded from its column (None when the
   * column is empty); everything else is Thing.__getitem__.
   */
  function ActorGet(cfg: Config, t: ThingState, name: string): (r: Result<Json>)
    requires cfg.Valid()
    ensures IsLocal(cfg, t) && name in LIST_NAMES ==> r == Ok(JStr(ListUrl(cfg, t, name)))
    ensures IsLocal(cfg, t) && name == "privateKey" ==>
      r == Ok(if PrivateKey(t).Some? then JStr(PrivateKey(t).value) else JNull)
    ensures !IsLocal(cfg, t) && name != "publicKey" ==> r == ThingGet(cfg, t, name)
    ensures name == "publicKey" && NoPublicKey(t) ==> r == Ok(JNull)
    ensures name == "publicKey" && !NoPublicKey(t) ==>
      var text := Lookup(t.core, "publicKey").value.value;
      (r.Ok? <==> Decode(text).Some?) && (r.Ok? ==> Some(r.value) == Decode(text)) &&
      (r.Err? ==> r.error == JsonDecodeError)
    ensures IsLocal(cfg, t) && name !in LIST_NAMES && name != "privateKey" && name != "publicKey" ==>
      r == ThingGet(cfg, t, name)
  {
    if IsLocal(cfg, t) && name in LIST_NAMES then Ok(JStr(ListUrl(cfg, t, name)))
    else if IsLocal(cfg, t) && name == "privateKey" then
      Ok(if PrivateKey(t).Some? then JStr(PrivateKey(t).value) else JNull)
    else if name == "publicKey" then
      if NoPublicKey(t) then Ok(JNull)
      else match Decode(Lookup(t.core, "publicKey").value.value)
        case None => Err(JsonDecodeError)
        case Some(j) => Ok(j)
    else ThingGet(cfg, t, name)
  }

  /**
   * AcActor.__setitem__ on the row: a string or None privateKey is stored
   * as given (any other value is a TypeError here), publicKey as its
   * sorted-key JSON text (a value json.dumps cannot encode is a TypeError),
   * and anything else goes to Thing.__setitem__. The save that follows the
   * two key fields is the caller's step.
   */
  function ActorSet(cfg: Config, t: ThingState, name: string, v: Value): (r: Result<ThingState>)
    requires t.kind.ActorThing?
    ensures name == "privateKey" ==> (r.Ok? <==> v == Plain(JNull) || (v.Plain? && v.j.JStr?))
    ensures name == "privateKey" && r.Ok? ==>
      && PrivateKey(r.value) == (if v.j.JStr? then Some(v.j.str) else None)
      && r.value.kind.ActorThing? && r.value.kind.autoFollow == t.kind.autoFollow
      && r.value.(kind := t.kind) == t
    ensures name == "privateKey" && r.Err? ==> r.error == TypeError
    ensures name == "publicKey" && v.Plain? ==>
      r == Ok(t.(core := Put(t.core, "publicKey", Some(EncodeSorted(v.j)))))
    ensures name == "publicKey" && !v.Plain? ==> r == Err(TypeError)
    ensures name != "privateKey" && name != "publicKey" ==> r == ThingSet(cfg, t, name, v)
  {
    if name == "privateKey" then
      match v
      case Plain(JStr(s)) => Ok(t.(kind := t.kind.(privateKey := Some(s))))
      case Plain(JNull) => Ok(t.(kind := t.kind.(privateKey := None)))
      case _ => Err(TypeError)
    else if name == "publicKey" then
      if v.Plain? then Ok(t.(core := Put(t.core, "publicKey", Some(EncodeSorted(v.j)))))
      else Err(TypeError)
    else ThingSet(cfg, t, name, v)
  }

  /** Setting publicKey and reading it back gives the value with its keys sorted. */
  lemma PublicKeyRoundTrip(cfg: Config, t: ThingState, j: Json)
    requires cfg.Valid() && t.kind.ActorThing? && Valid(j)
    ensures ActorGet(cfg, ActorSet(cfg, t, "publicKey", Plain(j)).value, "publicKey") == Ok(SortKeys(j))
  {
    var t' := ActorSet(cfg, t, "publicKey", Plain(j)).value;
    LookupPut(t.core, "publicKey", Some(EncodeSorted(j)), "publicKey");
    DecodeEncodeSorted(j);
    EncodeNotEmpty(SortKeys(j));
  }

  /** A local actor's private key reads back as it was set. */
  lemma PrivateKeyRoundTrip(cfg: Config, t: ThingState, key: string)
    requires cfg.Valid() && t.kind.ActorThing? && IsLocal(cfg, t)
    ensures ActorGet(cfg, ActorSet(cfg, t, "privateKey", Plain(JStr(key))).value, "privateKey") == Ok(JStr(key))
  {
  }

  // ------------------------------------------------------------- document

  /** The endpoints object: sharedInbox exactly when a shared inbox format is configured. */
  function Endpoints(cfg: Config): (e: Json)
    requires cfg.Valid()
    ensures e.JObj? && (HasKey(e.members, "sharedInbox") <==> cfg.sharedInbox.Some?)
  {
    if cfg.sharedInbox.Some? then JObj([("sharedInbox", JStr(SharedInboxUrl(cfg)))])
    else JObj([])
  }

  /** A default image on the local host. */
  function DefaultImage(cfg: Config, file: string): Json
  {
    JObj([("type", JStr("Image")), ("mediaType", JStr("image/jpeg")),
          ("url", JStr("https://" + cfg.hostname + "/static/defaults/" + file))])
  }

  /** The public key object that replaces the stored key text in the document. */
  function KeyObject(cfg: Config, t: ThingState, pem: Json): Json
    requires cfg.Valid()
  {
    JObj([("id", JStr(KeyName(cfg, t))), ("owner", JStr(ActorUrl(cfg, t))), ("publicKeyPem", pem)])
  }

  /** What AcActor.activity_form assigns after the inherited document, in order. */
  function Additions(cfg: Config, t: ThingState): Dict<Json>
    requires cfg.Valid()
  {
    var col := Lookup(t.core, "preferredUsername");
    var name := if col.Some? && col.value.Some? then JStr(col.value.value) else JNull;
    [ ("inbox", JStr(ListUrl(cfg, t, "inbox"))),
      ("outbox", JStr(ListUrl(cfg, t, "outbox"))),
      ("followers", JStr(ListUrl(cfg, t, "followers"))),
      ("following", JStr(ListUrl(cfg, t, "following"))),
      ("url", JStr(ActorUrl(cfg, t))),
      ("name", name),
      ("endpoints", Endpoints(cfg)),
      ("tags", JArr([])),
      ("attachment", JArr([])),
      ("summary", JStr(SUMMARY)),
      ("icon", DefaultImage(cfg, "avatar_0.jpg")),
      ("header", DefaultImage(cfg, "header.jpg")) ]
  }

  /** AcActor.activity_form */
  function ActorForm(cfg: Config, t: ThingState): (r: Result<Dict<Json>>)
    requires cfg.Valid()
    ensures r.Ok? <==> ThingForm(t, ActorUrl(cfg, t)).Ok?
  {
    match ThingForm(t, ActorUrl(cfg, t))
    case Err(e) => Err(e)
    case Ok(base) =>
      var keyed := match Lookup(base, "publicKey")
        case Some(pem) => Put(base, "publicKey", KeyObject(cfg, t, pem))
        case None => base;
      Ok(Update(keyed, Additions(cfg, t)))
  }

  lemma AdditionsDistinct(cfg: Config, t: ThingState)
    requires cfg.Valid()
    ensures Distinct(Additions(cfg, t))
    ensures !HasKey(Additions(cfg, t), "publicKey")
  {
    var a := Additions(cfg, t);
    forall i, j | 0 <= i < j < |a| ensures a[i].0 != a[j].0 { }
    DistinctFromIndices(a);
    forall i | 0 <= i < |a| ensures a[i].0 != "publicKey" { }
    NotKeyFromIndices(a, "publicKey");
  }

  /**
   * The actor document: the additions win, a stored public key is wrapped with
   * the key name as its id and the actor as its owner, and every other key is
   * what the inherited Thing document says.
   */
  lemma ActorFormLookup(cfg: Config, t: ThingState, k: string)
    requires cfg.Valid() && ThingForm(t, ActorUrl(cfg, t)).Ok?
    ensures var base := ThingForm(t, ActorUrl(cfg, t)).value;
      Lookup(ActorForm(cfg, t).value, k) ==
        if HasKey(Additions(cfg, t), k) then Lookup(Additions(cfg, t), k)
        else if k == "publicKey" && HasKey(base, k) then
          Some(JObj([("id", JStr(KeyName(cfg, t))), ("owner", JStr(ActorUrl(cfg, t))),
                     ("publicKeyPem", Lookup(base, k).value)]))
        else Lookup(base, k)
  {
    var base := ThingForm(t, ActorUrl(cfg, t)).value;
    AdditionsDistinct(cfg, t);
    var keyed := match Lookup(base, "publicKey")
      case Some(pem) => Put(base, "publicKey", KeyObject(cfg, t, pem))
      case None => base;
    LookupUpdate(keyed, Additions(cfg, t), k);
    if HasKey(base, "publicKey") {
      LookupPut(base, "publicKey", KeyObject(cfg, t, Lookup(base, "publicKey").value), k);
    }
  }

  /** Each addition appears in the actor document with its value. */
  lemma ActorFormAddition(cfg: Config, t: ThingState, i: nat)
    requires cfg.Valid() && ThingForm(t, ActorUrl(cfg, t)).Ok? && i < |Additions(cfg, t)|
    ensures Lookup(ActorForm(cfg, t).value, Additions(cfg, t)[i].0) == Some(Additions(cfg, t)[i].1)
  {
    AdditionsDistinct(cfg, t);
    LookupIndex(Additions(cfg, t), i);
    ActorFormLookup(cfg, t, Additions(cfg, t)[i].0);
  }

  /** Every actor document carries its four collection urls and its url. */
  lemma ActorFormLists(cfg: Config, t: ThingState)
    requires cfg.Valid() && ThingForm(t, ActorUrl(cfg, t)).Ok?
    ensures var r := ActorForm(cfg, t).value;
      && (forall n :: n in LIST_NAMES ==> Lookup(r, n) == Some(JStr(ListUrl(cfg, t, n))))
      && Lookup(r, "url") == Some(JStr(ActorUrl(cfg, t)))
  {
    ActorFormAddition(cfg, t, 0);
    ActorFormAddition(cfg, t, 1);
    ActorFormAddition(cfg, t, 2);
    ActorFormAddition(cfg, t, 3);
    ActorFormAddition(cfg, t, 4);
  }

  /** Every actor document carries the fixed summary, empty tags and attachment, and the default images. */
  lemma ActorFormFixed(cfg: Config, t: ThingState)
    requires cfg.Valid() && ThingForm(t, ActorUrl(cfg, t)).Ok?
    ensures var r := ActorForm(cfg, t).value;
      && Lookup(r, "endpoints") == Some(Endpoints(cfg))
      && Lookup(r, "tags") == Some(JArr([])) && Lookup(r, "attachment") == Some(JArr([]))
      && Lookup(r, "summary") == Some(JStr(SUMMARY))
      && Lookup(r, "icon") == Some(DefaultImage(cfg, "avatar_0.jpg"))
      && Lookup(r, "header") == Some(DefaultImage(cfg, "header.jpg"))
  {
    ActorFormAddition(cfg, t, 6);
    ActorFormAddition(cfg, t, 7);
    ActorFormAddition(cfg, t, 8);
    ActorFormAddition(cfg, t, 9);
    ActorFormAddition(cfg, t, 10);
    ActorFormAddition(cfg, t, 11);
  }

  // ---------------------------------------------------------- key pair

  /**
   * AcActor._after_create: a local actor with neither key gets the generated
   * pair (private, public PEM text, stored as is); any other actor keeps what
   * it has.
   */
  function AfterCreate(cfg: Config, t: ThingState, pair: (string, string)): (r: ThingState)
    requires t.kind.ActorThing?
    ensures var keyless := PrivateKey(t).None? && Lookup(t.core, "publicKey") == Some(None) && IsLocal(cfg, t);
      && (keyless ==> PrivateKey(r) == Some(pair.0) && Lookup(r.core, "publicKey") == Some(Some(pair.1)))
      && (!keyless ==> r == t)
    ensures r.number == t.number && r.remoteUrl == t.remoteUrl && r.otherFields == t.otherFields
  {
    if PrivateKey(t).None? && Lookup(t.core, "publicKey") == Some(None) && IsLocal(cfg, t) then
      LookupPut(t.core, "publicKey", Some(pair.1), "publicKey");
      t.(kind := t.kind.(privateKey := Some(pair.0)), core := Put(t.core, "publicKey", Some(pair.1)))
    else t
  }

  /** Provisioning keys twice is provisioning them once: existing keys are never replaced. */
  lemma AfterCreateIdempotent(cfg: Config, t: ThingState, pair: (string, string), other: (string, string))
    requires t.kind.ActorThing?
    ensures AfterCreate(cfg, AfterCreate(cfg, t, pair), other) == AfterCreate(cfg, t, pair)
  {
  }

  /**
   * The public key _after_create stores is PEM text, not JSON, so reading
   * publicKey back from a freshly provisioned local actor fails to decode.
   */
  lemma ProvisionedKeyUnreadable(cfg: Config, t: ThingState, pair: (string, string))
    requires cfg.Valid() && t.kind.ActorThing? && IsLocal(cfg, t)
    requires PrivateKey(t).None? && Lookup(t.core, "publicKey") == Some(None)
    requires |pair.1| > 1 && pair.1[0] == '-' && pair.1[1] == '-'
    ensures ActorGet(cfg, AfterCreate(cfg, t, pair), "publicKey") == Err(JsonDecodeError)
  {
    var r := AfterCreate(cfg, t, pair);
    assert SkipSpace(pair.1) == pair.1;
    assert ParseValue(pair.1).None?;
  }

  // ------------------------------------------------------------ dispatch

  /** self[name] on a row of either kind. */
  function Get(cfg: Config, t: ThingState, name: string): Result<Json>
    requires cfg.Valid()
  {
    if t.kind.ActorThing? then ActorGet(cfg, t, name) else ThingGet(cfg, t, name)
  }

  /** self[name] = value on a row of either kind, without the saves that may follow. */
  function Set(cfg: Config, t: ThingState, name: string, v: Value): Result<ThingState>
  {
    if t.kind.ActorThing? then ActorSet(cfg, t, name, v) else ThingSet(cfg, t, name, v)
  }

  /** self.url (and self.id) on a row of either kind. */
  function Url(cfg: Config, t: ThingState): string
    requires cfg.Valid()
  {
    if t.kind.ActorThing? then ActorUrl(cfg, t) else ThingUrl(cfg, t)
  }

  /** self.activity_form on a row of either kind. */
  function Form(cfg: Config, t: ThingState): Result<Dict<Json>>
    requires cfg.Valid()
  {
    if t.kind.ActorThing? then ActorForm(cfg, t) else ThingForm(t, ThingUrl(cfg, t))
  }

  /** `name in self` on a row of either kind. */
  predicate Has(cfg: Config, t: ThingState, name: string)
    requires cfg.Valid()
  {
    Get(cfg, t, name).Ok?
  }
}
