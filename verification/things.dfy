/**
 * The value logic of django_kepi's Thing (models/thing.py): the record a row
 * holds, how a name is resolved on read and write (core column, then audience
 * field, then the JSON map of extension fields), `_normalise_type_for_thing`,
 * the merged `activity_form`, `url`, `is_local`, and the state change `entomb`
 * makes. The class that holds a row and the store it is saved in are in module
 * Models; the actor overrides are in module Actors.
 */
module Things {
  import opened Wrappers
  import opened Text
  import opened Dicts
  import opened Json
  import opened Settings

  /** Which model class a row belongs to; an actor carries its private key and auto_follow. */
  datatype Kind =
    | PlainThing
    | ActorThing(privateKey: Option<string>, autoFollow: bool)

  /** The `f_` columns of each class, without the prefix, in the order dir() lists them. */
  const THING_FIELDS: seq<string> := ["actor", "type"]
  const ACTOR_FIELDS: seq<string> := ["actor", "preferredUsername", "publicKey", "summary", "type"]

  function CoreNames(k: Kind): seq<string>
  {
    if k.ActorThing? then ACTOR_FIELDS else THING_FIELDS
  }

  /**
   * One Thing row. `core` maps each `f_` column to its text (None for SQL
   * NULL); `otherFields` is the JSON text of the extension map; `audiences`
   * holds the Audience rows per field name.
   */
  datatype ThingState = ThingState(
    number: string,
    core: Dict<Option<string>>,
    remoteUrl: Option<string>,
    active: bool,
    otherFields: string,
    audiences: Dict<seq<string>>,
    kind: Kind)

  /** The columns are exactly those of the row's class. */
  predicate WellShaped(t: ThingState)
  {
    Keys(t.core) == CoreNames(t.kind) && Distinct(t.core) && Distinct(t.audiences)
  }

  /** A fresh row with the model defaults: f_type '', other columns NULL, active. */
  function NewState(number: string, kind: Kind): (t: ThingState)
    ensures WellShaped(t) && t.active && t.remoteUrl.None? && t.otherFields == ""
  {
    var cols := CoreNames(kind);
    var core := if kind.ActorThing?
      then [("actor", None), ("preferredUsername", Some("")), ("publicKey", None), ("summary", Some("")), ("type", Some(""))]
      else [("actor", None), ("type", Some(""))];
    ThingState(number, core, None, true, "", [], kind)
  }

  // ------------------------------------------------------------ url, local

  /** Thing.is_local: no remote_url (None or empty), or a remote_url the server calls local. */
  function IsLocal(cfg: Config, t: ThingState): bool
  {
    t.remoteUrl.None? || t.remoteUrl.value == "" || cfg.isLocalUrl(t.remoteUrl.value)
  }

  /** Thing.url, which is also Thing.id. */
  function ThingUrl(cfg: Config, t: ThingState): (u: string)
    requires cfg.Valid()
    ensures t.remoteUrl.Some? ==> u == t.remoteUrl.value
    ensures t.remoteUrl.None? ==> u == ActivityUrl(cfg, t.number)
  {
    if t.remoteUrl.Some? then t.remoteUrl.value
    else ActivityUrl(cfg, t.number)
  }

  // --------------------------------------------------------- normalisation

  /** A value handed to `thing[name] = value`. */
  datatype Value =
    | Plain(j: Json)                                 // None, str, dict, bool, list, or an int
    | ThingRef(url: string)                          // a Thing, known by its url
    | Other(form: Option<Dict<Json>>, text: string)  // another object: its activity_form if any, and str()

  /** _normalise_type_for_thing */
  function Normalise(v: Value): (r: Json)
    ensures !r.JInt?
    ensures v.Plain? && !v.j.JInt? ==> r == v.j
    ensures v.ThingRef? ==> r == JStr(v.url)
  {
    match v
    case Plain(j) => if j.JInt? then JStr(IntToString(j.n)) else j
    case ThingRef(url) => JStr(url)
    case Other(form, text) => if form.Some? then JObj(form.value) else JStr(text)
  }

  /** Normalising an already normalised value changes nothing. */
  lemma NormaliseIdempotent(v: Value)
    ensures Normalise(Plain(Normalise(v))) == Normalise(v)
  {
  }

  // ----------------------------------------------------------- name parts

  /** `name.split('__')`: the field name and the flags after it. */
  function BaseName(name: string): string { Split(name, "__")[0] }

  function Flags(name: string): seq<string> { Split(name, "__")[1..] }

  /** A name without a double underscore is its own field name and has no flags. */
  lemma PlainName(name: string)
    requires !Contains(name, "__")
    ensures BaseName(name) == name && Flags(name) == []
  {
    SplitNoSep(name, "__");
  }

  // ----------------------------------------------------------------- reads

  /** A core column read through __getitem__: decoded unless `raw` is asked for or it is empty. */
  function ReadColumn(col: Option<string>, raw: bool): (r: Result<Json>)
    ensures col.None? ==> r == Ok(JNull)
    ensures col.Some? && (raw || col.value == "") ==> r == Ok(JStr(col.value))
    ensures col.Some? && !raw && col.value != "" ==>
      (r.Ok? <==> Decode(col.value).Some?) && (r.Ok? ==> Some(r.value) == Decode(col.value))
  {
    match col
    case None => Ok(JNull)
    case Some(s) =>
      if raw || s == "" then Ok(JStr(s))
      else match Decode(s)
        case None => Err(JsonDecodeError)
        case Some(j) => Ok(j)
  }

  /** The Audience rows of one field, as the list of their URIs. */
  function AudienceList(t: ThingState, name: string): seq<string>
  {
    match Lookup(t.audiences, name) case Some(us) => us case None => []
  }

  function Strings(us: seq<string>): (r: seq<Json>)
    ensures |r| == |us| && forall i :: 0 <= i < |us| ==> r[i] == JStr(us[i])
  {
    if us == [] then [] else [JStr(us[0])] + Strings(us[1..])
  }

  /**
   * An extension field read from the text of other_fields. Text that is not
   * JSON is discarded (read as {}); JSON that is not an object answers `in`
   * and indexing as Python would for that type.
   */
  function ExtensionGet(text: string, name: string): Result<Json>
  {
    if text == "" then Ok(JNull)
    else match Decode(text)
      case None => Ok(JNull)
      case Some(JObj(m)) => Ok(match Lookup(m, name) case Some(v) => v case None => JNull)
      case Some(JArr(items)) => if JStr(name) in items then Err(TypeError) else Ok(JNull)
      case Some(JStr(s)) => if Contains(s, name) then Err(TypeError) else Ok(JNull)
      case Some(_) => Err(TypeError)
  }

  /** The extension map of other_fields as the setter and activity_form load it. */
  function ExtensionMap(text: string): (r: Result<Dict<Json>>)
    ensures text == "" ==> r == Ok([])
    ensures text != "" && r.Ok? ==> Decode(text) == Some(JObj(r.value))
    ensures text != "" && Decode(text).None? ==> r == Err(JsonDecodeError)
  {
    if text == "" then Ok([])
    else match Decode(text)
      case None => Err(JsonDecodeError)
      case Some(JObj(m)) => Ok(m)
      case Some(_) => Err(TypeError)
  }

  /**
   * One element of the list `dict.update` walks when other_fields loads as a list:
   * it must unpack into exactly two parts, the first being the key. A string
   * unpacks into its characters and an object into its keys. A list or object in
   * key position is unhashable; a number, boolean or None key falls outside `Dict`.
   */
  function UpdatePair(item: Json): (r: Result<(string, Json)>)
    ensures r.Ok? ==> item.JArr? || item.JStr? || item.JObj?
    ensures item.JArr? && r.Ok? ==> |item.items| == 2 && item.items[0] == JStr(r.value.0) && item.items[1] == r.value.1
    ensures item.JStr? ==> (r.Ok? <==> |item.str| == 2) && (r.Ok? ==> r.value == ([item.str[0]], JStr([item.str[1]])))
    ensures (item.JArr? && |item.items| != 2) || (item.JStr? && |item.str| != 2) ==> r == Err(ValueError)
  {
    match item
    case JArr(xs) =>
      if |xs| != 2 then Err(ValueError)
      else if xs[0].JStr? then Ok((xs[0].str, xs[1]))
      else Err(TypeError)
    case JStr(s) => if |s| != 2 then Err(ValueError) else Ok(([s[0]], JStr([s[1]])))
    case JObj(m) => if |m| != 2 then Err(ValueError) else Ok((m[0].0, JStr(m[1].0)))
    case _ => Err(TypeError)
  }

  /** The pairs of a list handed to `dict.update`, in order; the first bad element stops it. */
  function UpdatePairs(items: seq<Json>): (r: Result<Dict<Json>>)
    ensures r.Ok? <==> forall i :: 0 <= i < |items| ==> UpdatePair(items[i]).Ok?
    ensures r.Ok? ==> |r.value| == |items| && forall i :: 0 <= i < |items| ==> UpdatePair(items[i]) == Ok(r.value[i])
    ensures r.Err? ==> exists i :: 0 <= i < |items| && UpdatePair(items[i]) == Err(r.error)
  {
    if items == [] then Ok([])
    else match UpdatePair(items[0])
      case Err(e) => Err(e)
      case Ok(p) =>
        match UpdatePairs(items[1..])
        case Err(e) => Err(e)
        case Ok(rest) => Ok([p] + rest)
  }

  /**
   * What `result.update(json.loads(other_fields))` adds to activity_form: nothing
   * for an empty column, an object's members, the pairs of a list, nothing for an
   * empty string; a non-empty string fails on its first one-character element.
   */
  function FormExtensions(text: string): (r: Result<Dict<Json>>)
    ensures ExtensionMap(text).Ok? ==> r == ExtensionMap(text)
    ensures text != "" && Decode(text).None? ==> r == Err(JsonDecodeError)
    ensures text != "" && Decode(text).Some? && Decode(text).value.JArr? ==>
      r == UpdatePairs(Decode(text).value.items)
    ensures text != "" && Decode(text).Some? && Decode(text).value.JStr? ==>
      (r.Ok? <==> Decode(text).value.str == "") && (r.Err? ==> r.error == ValueError)
    ensures r.Err? && r.error == TypeError ==> ExtensionMap(text) == Err(TypeError)
  {
    if text == "" then Ok([])
    else match Decode(text)
      case None => Err(JsonDecodeError)
      case Some(JObj(m)) => Ok(m)
      case Some(JArr(items)) => UpdatePairs(items)
      case Some(JStr(s)) => if s == "" then Ok([]) else Err(ValueError)
      case Some(_) => Err(TypeError)
  }

  /**
   * Thing.__getitem__ before the `obj` flag's lookup: the core column, else the
   * audience field, else the extension map, where an unknown name reads as None.
   */
  function ThingGet(cfg: Config, t: ThingState, name: string): (r: Result<Json>)
    ensures var base := BaseName(name);
      && (HasKey(t.core, base) ==> r == ReadColumn(Lookup(t.core, base).value, "raw" in Flags(name)))
      && (!HasKey(t.core, base) && base in cfg.audienceNames ==> r == Ok(JArr(Strings(AudienceList(t, base)))))
      && (!HasKey(t.core, base) && base !in cfg.audienceNames ==> r == ExtensionGet(t.otherFields, base))
  {
    var base := BaseName(name);
    match Lookup(t.core, base)
    case Some(col) => ReadColumn(col, "raw" in Flags(name))
    case None =>
      if base in cfg.audienceNames then Ok(JArr(Strings(AudienceList(t, base))))
      else ExtensionGet(t.otherFields, base)
  }

  // ---------------------------------------------------------------- writes

  /** The URIs Audience.add_audiences_for records for a normalised value. */
  function AudienceUris(v: Json): seq<string>
  {
    match v
    case JStr(u) => [u]
    case JArr(items) => StringItems(items)
    case _ => []
  }

  function StringItems(items: seq<Json>): seq<string>
  {
    if items == [] then []
    else (if items[0].JStr? then [items[0].str] else []) + StringItems(items[1..])
  }

  /**
   * Thing.__setitem__ on the row: a core column stores the JSON text of the
   * normalised value, an audience field gains its URIs, and anything else is
   * assigned in the extension map, whose text must load as a JSON object.
   */
  function ThingSet(cfg: Config, t: ThingState, name: string, v: Value): (r: Result<ThingState>)
    ensures HasKey(t.core, name) ==>
      r == Ok(t.(core := Put(t.core, name, Some(Encode(Normalise(v))))))
    ensures !HasKey(t.core, name) && name in cfg.audienceNames ==>
      r == Ok(t.(audiences := Put(t.audiences, name, AudienceList(t, name) + AudienceUris(Normalise(v)))))
    ensures !HasKey(t.core, name) && name !in cfg.audienceNames ==>
      (r.Ok? <==> ExtensionMap(t.otherFields).Ok?) &&
      (r.Ok? ==> r.value == t.(otherFields := Encode(JObj(Put(ExtensionMap(t.otherFields).value, name, Normalise(v))))))
  {
    var nv := Normalise(v);
    if HasKey(t.core, name) then Ok(t.(core := Put(t.core, name, Some(Encode(nv)))))
    else if name in cfg.audienceNames then
      Ok(t.(audiences := Put(t.audiences, name, AudienceList(t, name) + AudienceUris(nv))))
    else
      match ExtensionMap(t.otherFields)
      case Err(e) => Err(e)
      case Ok(others) => Ok(t.(otherFields := Encode(JObj(Put(others, name, nv)))))
  }

  /** other_fields loads as a valid JSON object (or is empty): what the setter writes. */
  predicate ExtensionsValid(t: ThingState)
  {
    ExtensionMap(t.otherFields).Ok? && Valid(JObj(ExtensionMap(t.otherFields).value))
  }

  /** The extension map of a row whose other_fields load. */
  function Extensions(t: ThingState): (m: Dict<Json>)
    requires ExtensionsValid(t)
    ensures Valid(JObj(m)) && ExtensionMap(t.otherFields) == Ok(m)
  {
    ExtensionMap(t.otherFields).value
  }

  /** Text the setter writes for a valid extension map loads back as that map. */
  lemma ExtensionsOfEncoded(t: ThingState, m: Dict<Json>)
    requires Valid(JObj(m)) && t.otherFields == Encode(JObj(m))
    ensures ExtensionsValid(t) && Extensions(t) == m
  {
    DecodeEncode(JObj(m));
    EncodeNotEmpty(JObj(m));
  }

  lemma PutValid(m: Dict<Json>, k: string, v: Json)
    requires Valid(JObj(m)) && Valid(v)
    ensures Valid(JObj(Put(m, k, v)))
  {
    PutDistinct(m, k, v);
    var p := Put(m, k, v);
    forall i | 0 <= i < |p| ensures ValidMember(p[i]) {
      PutEntry(m, k, v, i);
    }
  }

  /** Writing a name and reading it back gives the normalised value (core and extension fields). */
  lemma GetAfterSet(cfg: Config, t: ThingState, name: string, v: Value)
    requires !Contains(name, "__") && (HasKey(t.core, name) || name !in cfg.audienceNames)
    requires ExtensionsValid(t) && Valid(Normalise(v))
    ensures ThingSet(cfg, t, name, v).Ok?
    ensures ThingGet(cfg, ThingSet(cfg, t, name, v).value, name) == Ok(Normalise(v))
  {
    PlainName(name);
    var nv := Normalise(v);
    var t' := ThingSet(cfg, t, name, v).value;
    if HasKey(t.core, name) {
      LookupPut(t.core, name, Some(Encode(nv)), name);
      DecodeEncode(nv);
      EncodeNotEmpty(nv);
    } else {
      var m := Extensions(t);
      PutValid(m, name, nv);
      ExtensionsOfEncoded(t', Put(m, name, nv));
      LookupPut(m, name, nv, name);
      LookupPut(t.core, name, Some(Encode(nv)), name);
      assert t'.core == t.core;
    }
  }

  lemma EncodeNotEmpty(j: Json)
    ensures Encode(j) != ""
  {
    SkipSpaceEncoded(j, "");
  }

  /** With the raw flag, a core field reads back as the JSON text the setter stored. */
  lemma GetRawAfterSet(cfg: Config, t: ThingState, name: string, v: Value)
    requires '_' !in name && HasKey(t.core, name)
    ensures ThingGet(cfg, ThingSet(cfg, t, name, v).value, name + "__raw") == Ok(JStr(Encode(Normalise(v))))
  {
    assert name + "__raw" == name + "__" + "raw";
    SplitAtSep(name, "__", "raw");
    NotContainsFirst("raw", "__");
    SplitNoSep("raw", "__");
    assert Split(name + "__raw", "__") == [name, "raw"];
    LookupPut(t.core, name, Some(Encode(Normalise(v))), name);
  }

  /**
   * Writing an extension field changes that key of the extension map only, and
   * leaves the core columns and audiences as they were.
   */
  lemma SetExtensionOnly(cfg: Config, t: ThingState, name: string, v: Value, k: string)
    requires !HasKey(t.core, name) && name !in cfg.audienceNames
    requires ExtensionsValid(t) && Valid(Normalise(v))
    ensures ThingSet(cfg, t, name, v).Ok?
    ensures var t' := ThingSet(cfg, t, name, v).value;
      && t'.core == t.core && t'.audiences == t.audiences && t'.number == t.number
      && ExtensionsValid(t')
      && Lookup(Extensions(t'), k) == (if k == name then Some(Normalise(v)) else Lookup(Extensions(t), k))
  {
    var nv := Normalise(v);
    var m := Extensions(t);
    var t' := ThingSet(cfg, t, name, v).value;
    PutValid(m, name, nv);
    ExtensionsOfEncoded(t', Put(m, name, nv));
    LookupPut(m, name, nv, k);
  }

  /** Two writes to the same core or extension field: the last one wins. */
  lemma SetTwice(cfg: Config, t: ThingState, name: string, v: Value, w: Value)
    requires name !in cfg.audienceNames
    requires ExtensionsValid(t) && Valid(Normalise(v))
    requires ThingSet(cfg, t, name, v).Ok?
    ensures ThingSet(cfg, ThingSet(cfg, t, name, v).value, name, w) == ThingSet(cfg, t, name, w)
  {
    var t1 := ThingSet(cfg, t, name, v).value;
    if HasKey(t.core, name) {
      LookupPut(t.core, name, Some(Encode(Normalise(v))), name);
      PutSame(t.core, name, Some(Encode(Normalise(v))), Some(Encode(Normalise(w))));
    } else {
      var m := Extensions(t);
      PutValid(m, name, Normalise(v));
      ExtensionsOfEncoded(t1, Put(m, name, Normalise(v)));
      PutSame(m, name, Normalise(v), Normalise(w));
    }
  }

  /** No extension key is also the name of a core column. */
  predicate NoCoreExtensions(t: ThingState)
    requires ExtensionsValid(t)
  {
    forall k :: k in Keys(Extensions(t)) ==> !HasKey(t.core, k)
  }

  /** The setter never puts a core column's name into the extension map. */
  lemma SetKeepsCoreOutOfExtensions(cfg: Config, t: ThingState, name: string, v: Value)
    requires ExtensionsValid(t) && NoCoreExtensions(t) && Valid(Normalise(v))
    requires ThingSet(cfg, t, name, v).Ok?
    ensures var t' := ThingSet(cfg, t, name, v).value; ExtensionsValid(t') && NoCoreExtensions(t')
  {
    var t' := ThingSet(cfg, t, name, v).value;
    if HasKey(t.core, name) {
      forall k ensures HasKey(t'.core, k) == HasKey(t.core, k) {
        LookupPut(t.core, name, Some(Encode(Normalise(v))), k);
      }
      assert t'.otherFields == t.otherFields;
    } else if name !in cfg.audienceNames {
      SetExtensionOnly(cfg, t, name, v, name);
      forall k | k in Keys(Extensions(t')) ensures !HasKey(t'.core, k) {
        SetExtensionOnly(cfg, t, name, v, k);
        KeysHasKey(Extensions(t'), k);
        KeysHasKey(Extensions(t), k);
      }
    }
  }

  // ------------------------------------------------------------- contains

  /** Thing.__contains__: a read that does not raise. */
  predicate ThingContains(cfg: Config, t: ThingState, name: string)
  {
    ThingGet(cfg, t, name).Ok?
  }

  /** A name the row knows nothing about is nevertheless "in" it, reading as None. */
  lemma ContainsAbsent(cfg: Config, t: ThingState, name: string)
    requires !Contains(name, "__") && !HasKey(t.core, name) && name !in cfg.audienceNames
    requires ExtensionsValid(t) && !HasKey(Extensions(t), name)
    ensures ThingContains(cfg, t, name) && ThingGet(cfg, t, name) == Ok(JNull)
  {
    PlainName(name);
    var m := Extensions(t);
    if t.otherFields != "" {
      assert Decode(t.otherFields) == Some(JObj(m));
    }
  }

  // -------------------------------------------------------- activity_form

  /** A column formatted into a string, where NULL prints as 'None'. */
  function ColumnText(t: ThingState, name: string): string
  {
    var col := Lookup(t.core, name);
    if col.Some? && col.value.Some? then col.value.value else "None"
  }

  /** get_f_type_display(): the stored text of f_type, which is not among the choices when JSON-encoded. */
  function TypeDisplay(t: ThingState): Json
  {
    var col := Lookup(t.core, "type");
    if col.Some? && col.value.Some? then JStr(col.value.value) else JNull
  }

  /** A string column as activity_form copies it: '' becomes None. */
  function ColumnValue(s: string): Json
  {
    if s == "" then JNull else JStr(s)
  }

  /** The loop over dir(self): each non-NULL `f_` column, by its name without the prefix. */
  function CoreForm(d: Dict<Json>, core: Dict<Option<string>>): Dict<Json>
    decreases |core|
  {
    if core == [] then d
    else
      var d' := match core[0].1 case Some(s) => Put(d, core[0].0, ColumnValue(s)) case None => d;
      CoreForm(d', core[1..])
  }

  /** Audience.get_audiences_for: each audience field that has rows, as a list of URIs. */
  function AudienceForm(aud: Dict<seq<string>>): Dict<Json>
  {
    if aud == [] then []
    else (if aud[0].1 == [] then [] else [(aud[0].0, JArr(Strings(aud[0].1)))]) + AudienceForm(aud[1..])
  }

  /** Thing.activity_form, for a row whose url (which subclasses override) is `url`. */
  function ThingForm(t: ThingState, url: string): (r: Result<Dict<Json>>)
    ensures r.Err? <==> FormExtensions(t.otherFields).Err?
    ensures r.Err? ==> r == Err(FormExtensions(t.otherFields).error)
    ensures ExtensionMap(t.otherFields).Ok? ==> r.Ok?
  {
    var start := [("id", JStr(url)), ("type", TypeDisplay(t))];
    match FormExtensions(t.otherFields)
    case Err(e) => Err(e)
    case Ok(others) => Ok(Update(Update(CoreForm(start, t.core), others), AudienceForm(t.audiences)))
  }

  /** What a non-NULL column contributes to activity_form, if anything. */
  function ColumnEntry(core: Dict<Option<string>>, k: string): Option<Json>
  {
    var col := Lookup(core, k);
    if col.Some? && col.value.Some? then Some(ColumnValue(col.value.value)) else None
  }

  lemma {:induction false} LookupCoreForm(d: Dict<Json>, core: Dict<Option<string>>, k: string)
    requires Distinct(core)
    ensures Lookup(CoreForm(d, core), k) ==
      if ColumnEntry(core, k).Some? then ColumnEntry(core, k) else Lookup(d, k)
    decreases |core|
  {
    if core != [] {
      var d' := match core[0].1 case Some(s) => Put(d, core[0].0, ColumnValue(s)) case None => d;
      LookupCoreForm(d', core[1..], k);
      if core[0].1.Some? {
        LookupPut(d, core[0].0, ColumnValue(core[0].1.value), k);
      }
    }
  }

  lemma {:induction false} LookupAudienceForm(aud: Dict<seq<string>>, k: string)
    requires Distinct(aud)
    ensures Lookup(AudienceForm(aud), k) ==
      match Lookup(aud, k)
      case Some(us) => if us == [] then None else Some(JArr(Strings(us)))
      case None => None
  {
    if aud != [] {
      LookupAudienceForm(aud[1..], k);
      var head: Dict<Json> := if aud[0].1 == [] then [] else [(aud[0].0, JArr(Strings(aud[0].1)))];
      LookupAppend(head, AudienceForm(aud[1..]), k);
    }
  }

  lemma {:induction false} AudienceFormDistinct(aud: Dict<seq<string>>)
    requires Distinct(aud)
    ensures Distinct(AudienceForm(aud))
  {
    if aud != [] {
      AudienceFormDistinct(aud[1..]);
      LookupAudienceForm(aud[1..], aud[0].0);
      var rest := AudienceForm(aud[1..]);
      if aud[0].1 != [] {
        var r := [(aud[0].0, JArr(Strings(aud[0].1)))] + rest;
        assert r[1..] == rest;
      } else {
        assert AudienceForm(aud) == rest;
      }
    }
  }

  /**
   * activity_form merges three tiers: audiences override extension fields,
   * which override the core columns, which override the id and type it starts with.
   */
  lemma ThingFormLookup(t: ThingState, url: string, k: string)
    requires WellShaped(t) && ExtensionsValid(t)
    ensures ThingForm(t, url).Ok?
    ensures Lookup(ThingForm(t, url).value, k) ==
      var aud := Lookup(AudienceForm(t.audiences), k);
      var ext := Lookup(Extensions(t), k);
      if aud.Some? then aud
      else if ext.Some? then ext
      else if ColumnEntry(t.core, k).Some? then ColumnEntry(t.core, k)
      else if k == "id" then Some(JStr(url))
      else if k == "type" then Some(TypeDisplay(t))
      else None
  {
    var start := [("id", JStr(url)), ("type", TypeDisplay(t))];
    var others := Extensions(t);
    var withCore := CoreForm(start, t.core);
    LookupAudienceForm(t.audiences, k);
    AudienceFormDistinct(t.audiences);
    LookupUpdate(Update(withCore, others), AudienceForm(t.audiences), k);
    LookupUpdate(withCore, others, k);
    LookupCoreForm(start, t.core, k);
    assert start[1..] == [("type", TypeDisplay(t))];
    assert start[1..][1..] == [];
    assert Lookup(start[1..], k) == if k == "type" then Some(TypeDisplay(t)) else None;
    assert Lookup(start, k) ==
      if k == "id" then Some(JStr(url)) else if k == "type" then Some(TypeDisplay(t)) else None;
    assert Distinct(Extensions(t));
  }

  // ----------------------------------------------------------------- entomb

  const TOMBSTONE := "Tombstone"

  /** The row's type, read as JSON, is Tombstone. */
  predicate IsTombstone(cfg: Config, t: ThingState)
  {
    ThingGet(cfg, t, "type") == Ok(JStr(TOMBSTONE))
  }

  /**
   * Thing.entomb as it evidently should behave: a row whose (decoded) type is
   * already Tombstone is left alone, a remote row cannot be entombed, and
   * otherwise the type becomes Tombstone, the row becomes inactive and its
   * extension fields are replaced by exactly former_type. Saving is the
   * caller's step.
   */
  function Entombed(cfg: Config, t: ThingState): (r: Result<ThingState>)
    ensures ThingGet(cfg, t, "type").Err? ==> r.Err?
    ensures r.Ok? ==> r.value == t || (!r.value.active && IsLocal(cfg, t))
    ensures r.Ok? ==> r.value.number == t.number && r.value.remoteUrl == t.remoteUrl && r.value.audiences == t.audiences
  {
    match ThingGet(cfg, t, "type")
    case Err(e) => Err(e)
    case Ok(former) =>
      if IsTombstone(cfg, t) then Ok(t)
      else if !IsLocal(cfg, t) then Err(ValueError)
      else Ok(t.(core := Put(t.core, "type", Some(Encode(JStr(TOMBSTONE)))),
                 active := false,
                 otherFields := Encode(JObj([("former_type", former)]))))
  }

  /** The state change Thing.entomb makes before it fails, and the exception it raises. */
  datatype EntombStep = EntombStep(state: ThingState, outcome: Result<()>)

  /**
   * Thing.entomb as written: the raw column text is compared with 'Tombstone'
   * and overwritten with it, `active` is set to True, and the next statement
   * names ThingField, which is not defined in the module, so NameError is
   * raised before anything is saved.
   */
  function EntombStepAsWritten(cfg: Config, t: ThingState): (r: EntombStep)
    ensures r.outcome.Ok? ==> r.state == t
  {
    if Lookup(t.core, "type") == Some(Some(TOMBSTONE)) then EntombStep(t, Ok(()))
    else if !IsLocal(cfg, t) then EntombStep(t, Err(ValueError))
    else EntombStep(t.(core := Put(t.core, "type", Some(TOMBSTONE)), active := true), Err(NameError))
  }

  /** After f_type is written with the JSON text of j, reading `type` gives j. */
  lemma TypeAfterPut(cfg: Config, t: ThingState, core: Dict<Option<string>>, j: Json)
    requires Valid(j) && t.core == Put(core, "type", Some(Encode(j)))
    ensures ThingGet(cfg, t, "type") == Ok(j)
  {
    NotContainsFirst("type", "__");
    PlainName("type");
    LookupPut(core, "type", Some(Encode(j)), "type");
    DecodeEncode(j);
    EncodeNotEmpty(j);
  }

  /** Entombing twice is entombing once. */
  lemma EntombIdempotent(cfg: Config, t: ThingState)
    requires Entombed(cfg, t).Ok?
    ensures Entombed(cfg, Entombed(cfg, t).value) == Entombed(cfg, t)
  {
    if !IsTombstone(cfg, t) {
      var former := ThingGet(cfg, t, "type").value;
      var t' := Entombed(cfg, t).value;
      assert t' == t.(core := Put(t.core, "type", Some(Encode(JStr(TOMBSTONE)))),
                      active := false,
                      otherFields := Encode(JObj([("former_type", former)])));
      TypeAfterPut(cfg, t', t.core, JStr(TOMBSTONE));
    }
  }

  /** A remote row that is not yet a tombstone cannot be entombed. */
  lemma EntombRemote(cfg: Config, t: ThingState)
    requires ThingGet(cfg, t, "type").Ok? && !IsTombstone(cfg, t)
    ensures IsLocal(cfg, t) <==> Entombed(cfg, t).Ok?
    ensures !IsLocal(cfg, t) ==> Entombed(cfg, t) == Err(ValueError)
  {
  }

  /** What entomb promises: Tombstone type, inactive, and former_type as the only extension field. */
  lemma EntombResult(cfg: Config, t: ThingState)
    requires ThingGet(cfg, t, "type").Ok? && !IsTombstone(cfg, t) && IsLocal(cfg, t)
    requires Valid(ThingGet(cfg, t, "type").value)
    ensures Entombed(cfg, t).Ok?
    ensures var t' := Entombed(cfg, t).value;
      && IsTombstone(cfg, t')
      && !t'.active
      && ExtensionsValid(t')
      && Extensions(t') == [("former_type", ThingGet(cfg, t, "type").value)]
      && t'.number == t.number && t'.remoteUrl == t.remoteUrl && t'.audiences == t.audiences
  {
    var former := ThingGet(cfg, t, "type").value;
    var t' := Entombed(cfg, t).value;
    assert t' == t.(core := Put(t.core, "type", Some(Encode(JStr(TOMBSTONE)))),
                    active := false,
                    otherFields := Encode(JObj([("former_type", former)])));
    TypeAfterPut(cfg, t', t.core, JStr(TOMBSTONE));
    FormerTypeOnly(t', former);
  }

  /** The extension text entomb writes holds former_type and nothing else. */
  lemma FormerTypeOnly(t: ThingState, former: Json)
    requires Valid(former) && t.otherFields == Encode(JObj([("former_type", former)]))
    ensures ExtensionsValid(t) && Extensions(t) == [("former_type", former)]
  {
    var m := [("former_type", former)];
    assert Valid(JObj(m)) by {
      assert ValidMember(m[0]);
    }
    ExtensionsOfEncoded(t, m);
  }

  // Thing.entomb as written, against the corrected Entombed.

  /**
   * A type the setter stored is JSON text, so the raw comparison with
   * 'Tombstone' misses a row that already is one: entomb goes on (and fails)
   * where it should leave the row alone.
   */
  lemma EntombMissesStoredTombstone(cfg: Config, t: ThingState)
    requires HasKey(t.core, "type") && IsLocal(cfg, t)
    ensures var t1 := ThingSet(cfg, t, "type", Plain(JStr(TOMBSTONE))).value;
      && EntombStepAsWritten(cfg, t1).outcome == Err(NameError)
      && EntombStepAsWritten(cfg, t1).state != t1
      && Entombed(cfg, t1) == Ok(t1)
  {
    var t1 := ThingSet(cfg, t, "type", Plain(JStr(TOMBSTONE))).value;
    LookupPut(t.core, "type", Some(Encode(JStr(TOMBSTONE))), "type");
    assert Encode(JStr(TOMBSTONE))[0] == '"';
    TypeAfterPut(cfg, t1, t.core, JStr(TOMBSTONE));
    var t2 := EntombStepAsWritten(cfg, t1).state;
    LookupPut(t1.core, "type", Some(TOMBSTONE), "type");
    assert Lookup(t2.core, "type") != Lookup(t1.core, "type");
  }

  /**
   * The raw 'Tombstone' entomb writes into f_type is not JSON, so afterwards
   * the row's own type cannot be read and `'type' in thing` is False.
   */
  lemma EntombWritesUnreadableType(cfg: Config, t: ThingState)
    requires IsLocal(cfg, t) && Lookup(t.core, "type") != Some(Some(TOMBSTONE))
    ensures ThingGet(cfg, EntombStepAsWritten(cfg, t).state, "type") == Err(JsonDecodeError)
    ensures !ThingContains(cfg, EntombStepAsWritten(cfg, t).state, "type")
  {
    NotContainsFirst("type", "__");
    PlainName("type");
    LookupPut(t.core, "type", Some(TOMBSTONE), "type");
    assert SkipSpace(TOMBSTONE) == TOMBSTONE;
    assert ParseValue(TOMBSTONE).None?;
  }

  /**
   * Entombing a local, inactive row that is not yet a tombstone leaves it
   * active (the corrected version makes it inactive), and always ends in
   * NameError, so nothing of it is saved.
   */
  lemma EntombActivatesAndFails(cfg: Config, t: ThingState)
    requires IsLocal(cfg, t) && Lookup(t.core, "type") != Some(Some(TOMBSTONE))
    ensures EntombStepAsWritten(cfg, t).outcome == Err(NameError)
    ensures EntombStepAsWritten(cfg, t).state.active
    ensures Entombed(cfg, t).Ok? ==> !Entombed(cfg, t).value.active || Entombed(cfg, t).value == t
  {
  }
}
