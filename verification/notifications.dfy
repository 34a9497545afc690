/**
 * Thing.send_notifications: what the server does once an activity has been
 * stored, by the activity's type. Accept and Reject answer a Follow; a Follow
 * of a local user who follows back automatically is accepted at once with a
 * new Accept activity that is delivered, and is otherwise recorded as a
 * request; a Create makes the object it carries; an Update copies new fields
 * onto an object its actor owns.
 *
 * The lookups by URL (`find`), `create`, `deliver` and the follow records of
 * models/following.py are in-memory operations over the store here.
 */
module Notifications {
  import opened Wrappers
  import opened Text
  import opened Dicts
  import opened Json
  import opened Settings
  import opened Things
  import opened Actors
  import opened Models
  import opened FieldWrites

  // ------------------------------------------------------------- the type

  /** json.loads(self.f_type): a NULL column is a TypeError, text that is not JSON a JSONDecodeError. */
  function ActivityType(t: ThingState): (r: Result<Json>)
    ensures Lookup(t.core, "type") == Some(Some("")) ==> r == Err(JsonDecodeError)
    ensures r.Ok? ==>
      Lookup(t.core, "type").Some? && Lookup(t.core, "type").value.Some? &&
      Decode(Lookup(t.core, "type").value.value) == Some(r.value)
  {
    var col := Lookup(t.core, "type");
    if col.Some? && col.value.Some? then
      match Decode(col.value.value)
      case None => Err(JsonDecodeError)
      case Some(j) => Ok(j)
    else Err(TypeError)
  }

  /** What `thing['type'] = j` stores is what send_notifications dispatches on. */
  lemma ActivityTypeAfterSet(cfg: Config, t: ThingState, j: Json)
    requires HasKey(t.core, "type") && Valid(j) && !j.JInt?
    ensures ThingSet(cfg, t, "type", Plain(j)).Ok?
    ensures ActivityType(ThingSet(cfg, t, "type", Plain(j)).value) == Ok(j)
  {
    LookupPut(t.core, "type", Some(Encode(j)), "type");
    DecodeEncode(j);
  }

  // ---------------------------------------------------------------- find

  /** find(ref, local_only): a row whose url is the reference (and that is local, when asked). */
  predicate Matches(cfg: Config, t: ThingState, ref: Json, localOnly: bool)
    requires cfg.Valid()
  {
    ref.JStr? && Url(cfg, t) == ref.str && (localOnly ==> IsLocal(cfg, t))
  }

  /** find: the first stored row that matches, or None. */
  function Find(cfg: Config, rows: Dict<ThingState>, ref: Json, localOnly: bool): (r: Option<ThingState>)
    requires cfg.Valid()
    ensures r.Some? ==> Matches(cfg, r.value, ref, localOnly)
    ensures r.Some? ==> exists i :: 0 <= i < |rows| && rows[i].1 == r.value
    ensures r.None? ==> forall i :: 0 <= i < |rows| ==> !Matches(cfg, rows[i].1, ref, localOnly)
  {
    if rows == [] then None
    else if Matches(cfg, rows[0].1, ref, localOnly) then Some(rows[0].1)
    else
      var r := Find(cfg, rows[1..], ref, localOnly);
      assert r.Some? ==> exists i :: 0 <= i < |rows[1..]| && rows[1..][i].1 == r.value;
      r
  }

  /** A row find returns from a store is stored under its own number. */
  lemma FindStored(cfg: Config, rows: Dict<ThingState>, ref: Json, localOnly: bool)
    requires cfg.Valid() && Keyed(rows) && Distinct(rows)
    requires Find(cfg, rows, ref, localOnly).Some?
    ensures var e := Find(cfg, rows, ref, localOnly).value; Lookup(rows, e.number) == Some(e)
  {
    var e := Find(cfg, rows, ref, localOnly).value;
    var i :| 0 <= i < |rows| && rows[i].1 == e;
    LookupIndex(rows, i);
  }

  /** self[name + '__obj']: the field, and then the local row it names (None when it names none). */
  function Referenced(cfg: Config, rows: Dict<ThingState>, t: ThingState, name: string): (r: Result<Option<ThingState>>)
    requires cfg.Valid()
    ensures Get(cfg, t, name).Err? ==> r == Err(Get(cfg, t, name).error)
    ensures Get(cfg, t, name).Ok? ==> r == Ok(Find(cfg, rows, Get(cfg, t, name).value, true))
  {
    match Get(cfg, t, name)
    case Err(e) => Err(e)
    case Ok(ref) => if ref.JNull? then Ok(None) else Ok(Find(cfg, rows, ref, true))
  }

  // ---------------------------------------------------------------- Follow

  /** The keyword arguments of the Accept that answers a Follow automatically, in order. */
  function AcceptFields(to: string, followed: Json, follow: string): Dict<Value>
  {
    [("to", Plain(JStr(to))), ("type", Plain(JStr("Accept"))), ("actor", Plain(followed)), ("object", Plain(JStr(follow)))]
  }

  lemma NormaliseValid(j: Json)
    requires Valid(j)
    ensures Valid(Normalise(Plain(j)))
  {
  }

  /**
   * The automatic Accept reads back as an Accept by the followed party whose
   * object is the Follow's url.
   */
  lemma AcceptReadsBack(cfg: Config, n: string, to: string, followed: Json, follow: string)
    requires Valid(followed) && "object" !in cfg.audienceNames
    ensures var s := SetAll(cfg, NewState(n, PlainThing), AcceptFields(to, followed, follow));
      && s.Ok?
      && ThingGet(cfg, s.value, "type") == Ok(JStr("Accept"))
      && ThingGet(cfg, s.value, "actor") == Ok(Normalise(Plain(followed)))
      && ThingGet(cfg, s.value, "object") == Ok(JStr(follow))
  {
    AcceptFieldsShape(to, followed, follow);
    ReadsBack(cfg, NewState(n, PlainThing), AcceptFields(to, followed, follow), "type", "actor", "object");
  }

  /** Three names among the fields written to a new ordinary row read back as written. */
  lemma ReadsBack(cfg: Config, t: ThingState, fields: Dict<Value>, k1: string, k2: string, k3: string)
    requires t.kind.PlainThing? && ExtensionsValid(t) && ValidValues(fields) && Distinct(fields)
    requires t.core == NewState(t.number, PlainThing).core
    requires k1 == "type" && k2 == "actor" && k3 !in cfg.audienceNames && '_' !in k3
    requires HasKey(fields, k1) && HasKey(fields, k2) && HasKey(fields, k3)
    ensures var s := SetAll(cfg, t, fields);
      && s.Ok?
      && ThingGet(cfg, s.value, k1) == Ok(Normalise(Lookup(fields, k1).value))
      && ThingGet(cfg, s.value, k2) == Ok(Normalise(Lookup(fields, k2).value))
      && ThingGet(cfg, s.value, k3) == Ok(Normalise(Lookup(fields, k3).value))
  {
    assert HasKey(t.core, "type") && HasKey(t.core, "actor");
    NotContainsFirst("type", "__");
    NotContainsFirst("actor", "__");
    NotContainsFirst(k3, "__");
    SetAllReads(cfg, t, fields, k1);
    SetAllReads(cfg, t, fields, k2);
    SetAllReads(cfg, t, fields, k3);
  }

  lemma AcceptFieldsShape(to: string, followed: Json, follow: string)
    requires Valid(followed)
    ensures var fields := AcceptFields(to, followed, follow);
      && Distinct(fields) && ValidValues(fields)
      && Lookup(fields, "type") == Some(Plain(JStr("Accept")))
      && Lookup(fields, "actor") == Some(Plain(followed))
      && Lookup(fields, "object") == Some(Plain(JStr(follow)))
  {
    var fields := AcceptFields(to, followed, follow);
    NormaliseValid(followed);
    DistinctFromIndices(fields);
    LookupIndex(fields, 1);
    LookupIndex(fields, 2);
    LookupIndex(fields, 3);
  }

  // ---------------------------------------------------------------- Create

  /** [('f_' + f, v) for f, v in obj.items()] */
  function Prefixed(m: Dict<Json>): (r: Dict<Json>)
    ensures |r| == |m|
  {
    if m == [] then [] else [("f_" + m[0].0, m[0].1)] + Prefixed(m[1..])
  }

  function AsValue(j: Json): Value { Plain(j) }

  /** create's `f_` keyword arguments, as the fields it writes; other keywords are not fields. */
  function Kwargs(raw: Dict<Json>): Dict<Value>
  {
    Unprefixed(raw, "f_", AsValue)
  }

  lemma {:induction false} LookupPrefixed(m: Dict<Json>, k: string)
    ensures Lookup(Prefixed(m), "f_" + k) == Lookup(m, k)
  {
    if m != [] {
      assert ("f_" + m[0].0 == "f_" + k) <==> (m[0].0 == k) by {
        if "f_" + m[0].0 == "f_" + k {
          assert m[0].0 == ("f_" + m[0].0)[2..];
        }
      }
      LookupPrefixed(m[1..], k);
    }
  }

  lemma {:induction false} PrefixedDistinct(m: Dict<Json>)
    requires Distinct(m)
    ensures Distinct(Prefixed(m))
  {
    if m != [] {
      LookupPrefixed(m[1..], m[0].0);
      PrefixedDistinct(m[1..]);
    }
  }

  /** Each field create writes is the `f_` argument of that name. */
  lemma LookupKwargs(raw: Dict<Json>, k: string)
    ensures Lookup(Kwargs(raw), k) == match Lookup(raw, "f_" + k) case Some(v) => Some(Plain(v)) case None => None
  {
    LookupUnprefixed(raw, "f_", AsValue, k);
  }

  lemma KwargsDistinct(raw: Dict<Json>)
    requires Distinct(raw)
    ensures Distinct(Kwargs(raw))
  {
    UnprefixedDistinct(raw, "f_", AsValue);
  }

  lemma {:induction false} KwargsValid(raw: Dict<Json>)
    requires Valid(JObj(raw))
    ensures ValidValues(Kwargs(raw))
  {
    if raw != [] {
      assert ValidMember(raw[0]);
      assert Valid(JObj(raw[1..])) by {
        assert forall i :: 0 <= i < |raw[1..]| ==> raw[1..][i] == raw[i + 1];
      }
      KwargsValid(raw[1..]);
      NormaliseValid(raw[0].1);
    }
  }

  /**
   * The checks before anything is created: Ok(false) when the Create is
   * refused and deleted, because its object has no type, or a type that is
   * unknown, abstract (no class) or an activity; a list or object as the type
   * cannot be looked up (TypeError).
   */
  function CreateCheck(cfg: Config, raw: Dict<Json>): (r: Result<bool>)
    ensures !HasKey(raw, "f_type") ==> r == Ok(false)
    ensures HasKey(raw, "f_type") && (Lookup(raw, "f_type").value.JArr? || Lookup(raw, "f_type").value.JObj?) ==>
      r == Err(TypeError)
    ensures r == Ok(true) <==>
      && HasKey(raw, "f_type") && Lookup(raw, "f_type").value.JStr?
      && var info := Lookup(cfg.types, Lookup(raw, "f_type").value.str);
      && info.Some? && info.value.cls.Some? && info.value.cls.value != "Activity"
  {
    match Lookup(raw, "f_type")
    case None => Ok(false)
    case Some(ty) =>
      if ty.JArr? || ty.JObj? then Err(TypeError)
      else if !ty.JStr? then Ok(false)
      else match Lookup(cfg.types, ty.str)
        case None => Ok(false)
        case Some(info) => Ok(info.cls.Some? && info.cls.value != "Activity")
  }

  /** The attribution as evidently intended: the object is attributed to the Create's actor. */
  function CreationFields(raw: Dict<Json>, actor: Json): Dict<Json>
  {
    Put(raw, "f_attributedTo", actor)
  }

  /** The attribution as written: the key lacks the `f_` prefix every other key has. */
  function CreationFieldsAsWritten(raw: Dict<Json>, actor: Json): Dict<Json>
  {
    Put(raw, "attributedTo", actor)
  }

  /** A keyword without the `f_` prefix never reaches the created object's fields. */
  lemma KwargsPutUnprefixed(raw: Dict<Json>, k: string, v: Json)
    requires !StartsWith(k, "f_")
    ensures Kwargs(Put(raw, k, v)) == Kwargs(raw)
  {
    UnprefixedPut(raw, "f_", AsValue, k, v);
  }

  /** As written, the actor of a Create is dropped: the object keeps the attribution its sender chose. */
  lemma AttributionIgnoredAsWritten(raw: Dict<Json>, actor: Json)
    ensures Kwargs(CreationFieldsAsWritten(raw, actor)) == Kwargs(raw)
  {
    assert "attributedTo"[0] != "f_"[0];
    KwargsPutUnprefixed(raw, "attributedTo", actor);
  }

  /**
   * What a Create asks for: the fields of the object to create, or None when
   * the Create is refused. Its object must be a dict (AttributeError
   * otherwise), and the fields are its entries with the attribution set to
   * the Create's actor.
   */
  function CreatePlan(cfg: Config, a: ThingState): (r: Result<Option<Dict<Value>>>)
    requires cfg.Valid()
    ensures Get(cfg, a, "object").Ok? && !Get(cfg, a, "object").value.JObj? ==> r == Err(AttributeError)
    ensures r == Ok(None) <==>
      Get(cfg, a, "object").Ok? && Get(cfg, a, "object").value.JObj? &&
      CreateCheck(cfg, Update([], Prefixed(Get(cfg, a, "object").value.members))) == Ok(false)
    ensures r.Ok? && r.value.Some? ==>
      && Get(cfg, a, "object").Ok? && Get(cfg, a, "object").value.JObj? && Get(cfg, a, "actor").Ok?
      && var raw := Update([], Prefixed(Get(cfg, a, "object").value.members));
      && CreateCheck(cfg, raw) == Ok(true)
      && r.value.value == Kwargs(CreationFields(raw, Get(cfg, a, "actor").value))
  {
    match Get(cfg, a, "object")
    case Err(x) => Err(x)
    case Ok(p) =>
      if !p.JObj? then Err(AttributeError)
      else
        var raw := Update([], Prefixed(p.members));
        match CreateCheck(cfg, raw)
        case Err(x) => Err(x)
        case Ok(go) =>
          if !go then Ok(None)
          else match Get(cfg, a, "actor")
            case Err(x) => Err(x)
            case Ok(actor) => Ok(Some(Kwargs(CreationFields(raw, actor))))
  }

  /** The dict built from an object's prefixed entries is those entries. */
  lemma RawIsPrefixed(m: Dict<Json>)
    requires Distinct(m)
    ensures Update([], Prefixed(m)) == Prefixed(m)
  {
    PrefixedDistinct(m);
    UpdateFresh([], Prefixed(m));
    assert [] + Prefixed(m) == Prefixed(m);
  }

  /**
   * The object a Create makes, with the attribution corrected: attributedTo
   * reads as the Create's actor, and every other field of the object reads as
   * the value it was sent with.
   */
  lemma CreationReadsBack(cfg: Config, n: string, m: Dict<Json>, actor: Json, k: string)
    requires Valid(JObj(m)) && Valid(actor) && "attributedTo" !in cfg.audienceNames
    requires '_' !in k && (k == "attributedTo" || HasKey(m, k))
    requires k == "actor" || k == "type" || k !in cfg.audienceNames
    ensures var fields := Kwargs(CreationFields(Update([], Prefixed(m)), actor));
      && SetAll(cfg, NewState(n, PlainThing), fields).Ok?
      && ThingGet(cfg, SetAll(cfg, NewState(n, PlainThing), fields).value, k) ==
         Ok(Normalise(Plain(if k == "attributedTo" then actor else Lookup(m, k).value)))
  {
    assert "f_attributedTo" == "f_" + "attributedTo";
    RawIsPrefixed(m);
    AttributedFields(m, actor, "attributedTo");
    var t := NewState(n, PlainThing);
    assert HasKey(t.core, "type") && HasKey(t.core, "actor");
    NotContainsFirst(k, "__");
    SetAllReads(cfg, t, Kwargs(CreationFields(Prefixed(m), actor)), k);
  }

  /** The fields create writes for an object with one more `f_` entry: that entry and the object's own. */
  lemma AttributedFields(m: Dict<Json>, actor: Json, a: string)
    requires Valid(JObj(m)) && Valid(actor)
    ensures var fields := Kwargs(Put(Prefixed(m), "f_" + a, actor));
      && Distinct(fields) && ValidValues(fields)
      && forall k :: Lookup(fields, k) ==
           if k == a then Some(Plain(actor)) else match Lookup(m, k) case Some(v) => Some(Plain(v)) case None => None
  {
    var raw := Put(Prefixed(m), "f_" + a, actor);
    PrefixedDistinct(m);
    PutDistinct(Prefixed(m), "f_" + a, actor);
    KwargsDistinct(raw);
    PrefixedValid(m);
    PutValid(Prefixed(m), "f_" + a, actor);
    KwargsValid(raw);
    forall k ensures Lookup(Kwargs(raw), k) ==
      if k == a then Some(Plain(actor)) else match Lookup(m, k) case Some(v) => Some(Plain(v)) case None => None
    {
      LookupKwargs(raw, k);
      LookupPut(Prefixed(m), "f_" + a, actor, "f_" + k);
      assert ("f_" + k == "f_" + a) <==> (k == a) by {
        if "f_" + k == "f_" + a {
          assert k == ("f_" + k)[2..] && a == ("f_" + a)[2..];
        }
      }
      LookupPrefixed(m, k);
    }
  }

  lemma {:induction false} PrefixedValid(m: Dict<Json>)
    requires Valid(JObj(m))
    ensures forall i :: 0 <= i < |Prefixed(m)| ==> ValidMember(Prefixed(m)[i])
  {
    if m != [] {
      assert ValidMember(m[0]);
      assert Valid(JObj(m[1..])) by {
        assert forall i :: 0 <= i < |m[1..]| ==> m[1..][i] == m[i + 1];
      }
      PrefixedValid(m[1..]);
      forall i | 0 <= i < |Prefixed(m)| ensures ValidMember(Prefixed(m)[i]) {
        if i > 0 {
          assert Prefixed(m)[i] == Prefixed(m[1..])[i - 1];
        }
      }
    }
  }

  // ---------------------------------------------------------------- Update

  /** `'id' in new_object`, for each type the object field can hold. */
  function HasIdMember(o: Json): (r: Result<bool>)
    ensures o.JObj? ==> r == Ok(HasKey(o.members, "id"))
    ensures o.JNull? || o.JBool? || o.JInt? ==> r == Err(TypeError)
  {
    match o
    case JObj(m) => Ok(HasKey(m, "id"))
    case JArr(items) => Ok(JStr("id") in items)
    case JStr(s) => Ok(Contains(s, "id"))
    case _ => Err(TypeError)
  }

  /** new_object['id'] once 'id' is in it: only a dict can be indexed by a string. */
  function IdMember(o: Json): (r: Result<Json>)
    ensures r.Ok? <==> o.JObj? && HasKey(o.members, "id")
    ensures r.Ok? ==> r.value == Lookup(o.members, "id").value
  {
    match o
    case JObj(m) => if HasKey(m, "id") then Ok(Lookup(m, "id").value) else Err(KeyError)
    case _ => Err(TypeError)
  }

  /**
   * The object an Update may change, and the fields it brings: Ok(None) when
   * the Update is refused and deleted, because it names no id, names no local
   * row, or names a row attributed to someone other than its actor (compared
   * with Python's `!=`, so key order does not count).
   */
  function UpdateTarget(cfg: Config, rows: Dict<ThingState>, a: ThingState): (r: Result<Option<(ThingState, Dict<Json>)>>)
    requires cfg.Valid()
    ensures r.Ok? && r.value.Some? ==>
      var (e, m) := r.value.value;
      && Get(cfg, a, "object") == Ok(JObj(m)) && HasKey(m, "id")
      && Find(cfg, rows, Lookup(m, "id").value, true) == Some(e)
      && Get(cfg, e, "attributedTo").Ok? && Get(cfg, a, "actor").Ok?
      && PyEq(Get(cfg, e, "attributedTo").value, Get(cfg, a, "actor").value)
    ensures r == Ok(None) <==>
      && Get(cfg, a, "object").Ok? && var o := Get(cfg, a, "object").value;
      || HasIdMember(o) == Ok(false)
      || (IdMember(o).Ok? && var e := Find(cfg, rows, IdMember(o).value, true);
          || e.None?
          || (Get(cfg, e.value, "attributedTo").Ok? && Get(cfg, a, "actor").Ok? &&
              !PyEq(Get(cfg, e.value, "attributedTo").value, Get(cfg, a, "actor").value)))
  {
    match Get(cfg, a, "object")
    case Err(x) => Err(x)
    case Ok(o) =>
      match HasIdMember(o)
      case Err(x) => Err(x)
      case Ok(has) =>
        if !has then Ok(None)
        else match IdMember(o)
          case Err(x) => Err(x)
          case Ok(id) =>
            match Find(cfg, rows, id, true)
            case None => Ok(None)
            case Some(e) =>
              match Get(cfg, e, "attributedTo")
              case Err(x) => Err(x)
              case Ok(owner) =>
                match Get(cfg, a, "actor")
                case Err(x) => Err(x)
                case Ok(actor) => if !PyEq(owner, actor) then Ok(None) else Ok(Some((e, o.members)))
  }

  /** The writes of an Update: the object's fields in sorted order, except id. */
  function UpdateFields(items: Dict<Json>): Dict<Value>
  {
    if items == [] then []
    else (if items[0].0 == "id" then [] else [(items[0].0, Plain(items[0].1))]) + UpdateFields(items[1..])
  }

  lemma {:induction false} UpdateFieldsAppend(items: Dict<Json>, p: (string, Json))
    ensures UpdateFields(items + [p]) == UpdateFields(items) + UpdateFields([p])
  {
    if items == [] {
      assert items + [p] == [p];
    } else {
      assert (items + [p])[1..] == items[1..] + [p];
      UpdateFieldsAppend(items[1..], p);
    }
  }

  lemma {:induction false} LookupUpdateFields(items: Dict<Json>, k: string)
    ensures Lookup(UpdateFields(items), k) ==
      if k == "id" then None else match Lookup(items, k) case Some(v) => Some(Plain(v)) case None => None
  {
    if items != [] {
      LookupUpdateFields(items[1..], k);
      var head: Dict<Value> := if items[0].0 == "id" then [] else [(items[0].0, Plain(items[0].1))];
      assert UpdateFields(items) == head + UpdateFields(items[1..]);
      LookupAppend(head, UpdateFields(items[1..]), k);
    }
  }

  lemma {:induction false} UpdateFieldsValid(items: Dict<Json>)
    requires Distinct(items) && forall i :: 0 <= i < |items| ==> ValidMember(items[i])
    ensures Distinct(UpdateFields(items)) && ValidValues(UpdateFields(items))
  {
    if items != [] {
      UpdateFieldsValid(items[1..]);
      LookupUpdateFields(items[1..], items[0].0);
      assert ValidMember(items[0]);
      NormaliseValid(items[0].1);
      var rest := UpdateFields(items[1..]);
      if items[0].0 != "id" {
        var all := [(items[0].0, Plain(items[0].1))] + rest;
        assert UpdateFields(items) == all && all[1..] == rest;
        forall i | 0 <= i < |all| ensures Valid(Normalise(all[i].1)) {
          if i > 0 {
            assert all[i] == rest[i - 1];
          }
        }
      } else {
        assert UpdateFields(items) == rest;
      }
    }
  }

  /**
   * After an Update is applied to an ordinary row, each field the Update
   * carries (id apart) reads as the value it brought, and every field it does
   * not carry reads as before.
   */
  lemma UpdateCopies(cfg: Config, e: ThingState, m: Dict<Json>, k: string)
    requires e.kind.PlainThing? && ExtensionsValid(e) && Valid(JObj(m))
    requires k != "id" && !Contains(k, "__") && (HasKey(e.core, k) || k !in cfg.audienceNames)
    ensures SetAll(cfg, e, UpdateFields(SortByKey(m))).Ok?
    ensures ThingGet(cfg, SetAll(cfg, e, UpdateFields(SortByKey(m))).value, k) ==
      if HasKey(m, k) then Ok(Normalise(Plain(Lookup(m, k).value))) else ThingGet(cfg, e, k)
  {
    var items := SortByKey(m);
    SortByKeyEntries(m);
    SortedValid(m);
    UpdateFieldsValid(items);
    LookupUpdateFields(items, k);
    if HasKey(m, k) {
      SetAllReads(cfg, e, UpdateFields(items), k);
    } else {
      SetAllKeepsRead(cfg, e, UpdateFields(items), k);
    }
  }

  lemma SortedValid(m: Dict<Json>)
    requires Valid(JObj(m))
    ensures forall i :: 0 <= i < |SortByKey(m)| ==> ValidMember(SortByKey(m)[i])
  {
    SortByKeyEntries(m);
    forall i | 0 <= i < |SortByKey(m)| ensures ValidMember(SortByKey(m)[i]) {
      var s := SortByKey(m);
      LookupIndex(s, i);
      var j := LookupSome(m, s[i].0);
      assert ValidMember(m[j]);
    }
  }

  /** The entry a successful lookup found. */
  lemma {:induction false} LookupSome(m: Dict<Json>, k: string) returns (j: nat)
    requires HasKey(m, k)
    ensures j < |m| && m[j] == (k, Lookup(m, k).value)
  {
    if m[0].0 == k {
      j := 0;
    } else {
      var j' := LookupSome(m[1..], k);
      j := j' + 1;
    }
  }

  // --------------------------------------------------------------- engine

  /** A follow between two actors, as models/following.py records it. */
  datatype Following = Requested | Accepted

  /** How send_notifications ended when it did not raise. */
  datatype Outcome =
    | Handled              // the activity took effect
    | Ignored              // nothing to do for it
    | Deleted              // it was refused and its row deleted
    | Created(number: string)  // a Create made the object stored under this number

  /**
   * What an Accept (accept = true) or Reject of a Follow does, from the rows
   * `rows`, the activity `a` and the follow table before (f0) and after (f1):
   * the follow from the Follow's actor to the activity's actor is accepted,
   * or removed. The object must be a stored Follow; any other object is
   * ignored, and none is a TypeError.
   */
  predicate Answered(cfg: Config, rows: Dict<ThingState>, a: ThingState, accept: bool,
                     f0: map<(Json, Json), Following>, f1: map<(Json, Json), Following>, r: Result<Outcome>)
    requires cfg.Valid()
  {
    var o := Referenced(cfg, rows, a, "object");
    && (o.Err? ==> r == Err(o.error) && f1 == f0)
    && (o == Ok(None) ==> r == Err(TypeError) && f1 == f0)
    && (o.Ok? && o.value.Some? ==>
         var ty := Get(cfg, o.value.value, "type");
         && (ty.Err? ==> r == Err(ty.error) && f1 == f0)
         && (ty.Ok? && ty.value != JStr("Follow") ==> r == Ok(Ignored) && f1 == f0)
         && (ty == Ok(JStr("Follow")) ==>
              var follower := Get(cfg, o.value.value, "actor");
              var following := Get(cfg, a, "actor");
              && (follower.Err? ==> r == Err(follower.error) && f1 == f0)
              && (follower.Ok? && following.Err? ==> r == Err(following.error) && f1 == f0)
              && (follower.Ok? && following.Ok? ==>
                   r == Ok(Handled) &&
                   f1 == if accept then f0[(follower.value, following.value) := Accepted]
                         else f0 - {(follower.value, following.value)})))
  }

  /**
   * create(**fields) stores a new row when a draw remains, the first draw
   * names no row, and the fields can be written to a fresh row.
   */
  predicate CreateGoesThrough(cfg: Config, rows: Dict<ThingState>, draws: seq<nat>, fields: Dict<Value>)
  {
    draws != [] && !HasKey(rows, NumberText(draws[0]))
    && SetAll(cfg, NewState(NumberText(draws[0]), PlainThing), fields).Ok?
  }

  /** The errors create(**fields) can raise: the draws run out, or a field write fails. */
  predicate CreateFailsWith(cfg: Config, draws: seq<nat>, fields: Dict<Value>, e: Exception)
  {
    e == EntropyExhausted
    || (draws != [] && SetAll(cfg, NewState(NumberText(draws[0]), PlainThing), fields) == Err(e))
  }

  /** The Create's object field is an extension whose text does not load. */
  predicate ObjectUnwritable(cfg: Config, a: ThingState)
  {
    !HasKey(a.core, "object") && "object" !in cfg.audienceNames && ExtensionMap(a.otherFields).Err?
  }

  /** `self['object'] = …; self.save()` on a stored Create cannot go through. */
  predicate AttachBlocked(cfg: Config, rows: Dict<ThingState>, a: ThingState)
  {
    ObjectUnwritable(cfg, a) || UrlTaken(rows, a)
  }

  /** The errors of `self['object'] = …; self.save()`: the write, or the remote_url clash on save. */
  predicate AttachFailsWith(cfg: Config, rows: Dict<ThingState>, a: ThingState, e: Exception)
  {
    (ObjectUnwritable(cfg, a) && ExtensionMap(a.otherFields) == Err(e))
    || (e == IntegrityError && UrlTaken(rows, a))
  }

  /**
   * What a Follow `a` does, from rows, follow table and delivered numbers
   * before (rows0, f0, d0) and after (rows1, f1, d1), with the draws `draws`
   * to come: a local actor with auto_follow is followed at once, and an
   * Accept by that actor of this Follow is created and delivered to the
   * follower; otherwise the follow is recorded as a request. A followed local
   * row that is not an actor has no auto_follow (AttributeError), and neither
   * has a follower find cannot resolve, once the follow is accepted. The
   * Accept is made whenever create can make it, and otherwise the error is
   * create's.
   */
  predicate Followed(cfg: Config, a: ThingState, draws: seq<nat>, rows0: Dict<ThingState>, rows1: Dict<ThingState>,
                     f0: map<(Json, Json), Following>, f1: map<(Json, Json), Following>,
                     d0: seq<string>, d1: seq<string>, r: Result<Outcome>)
    requires cfg.Valid()
  {
    var obj := Get(cfg, a, "object");
    var actor := Get(cfg, a, "actor");
    var same := f1 == f0 && d1 == d0 && rows1 == rows0;
    && (obj.Err? ==> r == Err(obj.error) && same)
    && (obj.Ok? && actor.Err? ==> r == Err(actor.error) && same)
    && (obj.Ok? && actor.Ok? ==>
         var local := Find(cfg, rows0, obj.value, true);
         var remote := Find(cfg, rows0, actor.value, false);
         && (local.Some? && local.value.kind.PlainThing? ==> r == Err(AttributeError) && same)
         && (local.None? || (local.value.kind.ActorThing? && !local.value.kind.autoFollow) ==>
              r == Ok(Handled) && f1 == f0[(actor.value, obj.value) := Requested] && d1 == d0 && rows1 == rows0)
         && (local.Some? && local.value.kind.ActorThing? && local.value.kind.autoFollow ==>
              && f1 == f0[(actor.value, obj.value) := Accepted]
              && (remote.None? ==> r == Err(AttributeError))
              && (remote.Some? ==>
                   var fields := AcceptFields(Url(cfg, remote.value), obj.value, Url(cfg, a));
                   && (CreateGoesThrough(cfg, rows0, draws, fields) ==> r.Ok?)
                   && (r.Err? ==> CreateFailsWith(cfg, draws, fields, r.error)))
              && (r.Err? ==> d1 == d0 && rows1 == rows0)
              && (r.Ok? ==>
                   && r == Ok(Handled) && remote.Some?
                   && |d1| == |d0| + 1 && d1[..|d0|] == d0
                   && var n := d1[|d0|];
                   && !HasKey(rows0, n) && HasKey(rows1, n)
                   && rows1 == Put(rows0, n, Lookup(rows1, n).value)
                   && SetAll(cfg, NewState(n, PlainThing), AcceptFields(Url(cfg, remote.value), obj.value, Url(cfg, a)))
                      == Ok(Lookup(rows1, n).value))))
  }

  /**
   * What a Create does, from the activity and rows before (a0, rows0) and
   * after (a1, rows1), with the draws `draws` to come: the object it carries
   * is created, attributed to the Create's actor, and the Create's object
   * field then names it. A Create whose object has no type, an unknown or
   * abstract type, or an activity's type is deleted instead. It goes through
   * whenever create can make the object and the Create can be written and
   * saved; a failure after the object was made leaves that row stored.
   */
  predicate CreatedFrom(cfg: Config, a0: ThingState, a1: ThingState, draws: seq<nat>,
                        rows0: Dict<ThingState>, rows1: Dict<ThingState>, r: Result<Outcome>)
    requires cfg.Valid()
  {
    var plan := CreatePlan(cfg, a0);
    && (plan.Err? ==> r == Err(plan.error) && rows1 == rows0 && a1 == a0)
    && (plan == Ok(None) ==> r == Ok(Deleted) && rows1 == Remove(rows0, a0.number) && a1 == a0)
    && (plan.Ok? && plan.value.Some? && r.Ok? ==>
         && r.value.Created?
         && var n := r.value.number;
         && !HasKey(rows0, n) && HasKey(rows1, n)
         && SetAll(cfg, NewState(n, PlainThing), plan.value.value) == Ok(Lookup(rows1, n).value)
         && Set(cfg, a0, "object", ThingRef(ActivityUrl(cfg, n))) == Ok(a1)
         && rows1 == Put(Put(rows0, n, Lookup(rows1, n).value), a0.number, a1))
    && (plan.Ok? && plan.value.Some? ==>
         var fields := plan.value.value;
         && (CreateGoesThrough(cfg, rows0, draws, fields) && !AttachBlocked(cfg, rows0, a0) ==> r.Ok?)
         && (r.Err? ==>
              || (CreateFailsWith(cfg, draws, fields, r.error) && rows1 == rows0 && a1 == a0)
              || (&& AttachFailsWith(cfg, rows0, a0, r.error)
                  && |rows1| == |rows0| + 1 && rows1[..|rows0|] == rows0
                  && !HasKey(rows0, rows1[|rows0|].0)
                  && SetAll(cfg, NewState(rows1[|rows0|].0, PlainThing), fields) == Ok(rows1[|rows0|].1))))
  }

  /**
   * Once create(**fields) has stored the new object `made` under n, the
   * outcome of attaching it to the Create is the Create branch's outcome.
   */
  lemma AttachedAfterCreate(cfg: Config, a0: ThingState, a1: ThingState, draws: seq<nat>,
                            rows0: Dict<ThingState>, mid: Dict<ThingState>, rows1: Dict<ThingState>,
                            fields: Dict<Value>, n: string, made: ThingState, r: Result<Outcome>)
    requires cfg.Valid() && CreatePlan(cfg, a0) == Ok(Some(fields))
    requires SetAll(cfg, NewState(n, PlainThing), fields) == Ok(made) && !HasKey(rows0, n)
    requires mid == rows0 + [(n, made)] && UrlTaken(mid, a0) == UrlTaken(rows0, a0)
    requires r.Ok? ==>
      && r == Ok(Created(n))
      && Lookup(rows1, n) == Some(made)
      && Set(cfg, a0, "object", ThingRef(ActivityUrl(cfg, n))) == Ok(a1)
      && rows1 == Put(mid, a0.number, a1)
    requires r.Err? ==> rows1 == mid && AttachFailsWith(cfg, mid, a0, r.error)
    requires !AttachBlocked(cfg, mid, a0) ==> r.Ok?
    ensures CreatedFrom(cfg, a0, a1, draws, rows0, rows1, r)
  {
    PutFresh(rows0, n, made);
    assert AttachBlocked(cfg, mid, a0) == AttachBlocked(cfg, rows0, a0);
    if r.Err? {
      assert AttachFailsWith(cfg, rows0, a0, r.error);
      assert rows1[..|rows0|] == rows0 && rows1[|rows0|] == (n, made);
    } else {
      assert HasKey(rows1, n) && Lookup(rows1, n).value == made;
    }
  }

  /**
   * What an Update `a` does to the rows (rows0 before, rows1 after): the
   * object it names, when that is a local row attributed to the Update's
   * actor, gets each field of the Update's object (id apart) in sorted order
   * and is saved; otherwise the Update is deleted. It goes through whenever
   * the writes succeed and no other row has the object's remote_url; on a
   * failure only the object's own row may have changed.
   */
  ghost predicate UpdatedBy(cfg: Config, a: ThingState, rows0: Dict<ThingState>, rows1: Dict<ThingState>, r: Result<Outcome>)
    requires cfg.Valid()
  {
    var target := UpdateTarget(cfg, rows0, a);
    && (target.Err? ==> r == Err(target.error) && rows1 == rows0)
    && (target == Ok(None) ==> r == Ok(Deleted) && rows1 == Remove(rows0, a.number))
    && (target.Ok? && target.value.Some? && r.Ok? ==>
         var (e, m) := target.value.value;
         && r == Ok(Handled)
         && SetAll(cfg, e, UpdateFields(SortByKey(m))).Ok?
         && rows1 == Put(rows0, e.number, SetAll(cfg, e, UpdateFields(SortByKey(m))).value))
    && (target.Ok? && target.value.Some? ==>
         var (e, m) := target.value.value;
         var written := SetAll(cfg, e, UpdateFields(SortByKey(m)));
         && (written.Ok? && !UrlTaken(rows0, e) ==> r == Ok(Handled))
         && (r.Err? ==>
              && SameBut(rows1, rows0, e.number)
              && (written == Err(r.error) || (r.error == IntegrityError && UrlTaken(rows0, e)))))
  }

  /**
   * The Accept and Reject branches as written: `django_kepi` is never bound
   * as a name in the module (only names imported from its submodules are),
   * so once the object is known to be a Follow the call through
   * `django_kepi.models.following` raises NameError, before its arguments are
   * evaluated. Accept and Reject do the same.
   */
  function AnswerAsWritten(cfg: Config, rows: Dict<ThingState>, a: ThingState): (r: Result<Outcome>)
    requires cfg.Valid()
    ensures r.Ok? ==> r == Ok(Ignored)
    ensures r.Ok? <==>
      var o := Referenced(cfg, rows, a, "object");
      o.Ok? && o.value.Some? && Get(cfg, o.value.value, "type").Ok? && Get(cfg, o.value.value, "type") != Ok(JStr("Follow"))
  {
    var o :- Referenced(cfg, rows, a, "object");
    if o.None? then Err(TypeError)
    else
      var ty :- Get(cfg, o.value, "type");
      if ty != JStr("Follow") then Ok(Ignored) else Err(NameError)
  }

  /**
   * Wherever the intended branch accepts or rejects a follow, the branch as
   * written raises NameError instead; elsewhere the two agree, apart from
   * the errors the intended branch raises later than the NameError.
   */
  lemma AnswerAsWrittenDiverges(cfg: Config, rows: Dict<ThingState>, a: ThingState, accept: bool,
                                f0: map<(Json, Json), Following>, f1: map<(Json, Json), Following>, r: Result<Outcome>)
    requires cfg.Valid() && Answered(cfg, rows, a, accept, f0, f1, r)
    ensures r == Ok(Handled) ==> AnswerAsWritten(cfg, rows, a) == Err(NameError)
    ensures f1 != f0 ==> AnswerAsWritten(cfg, rows, a) == Err(NameError)
    ensures AnswerAsWritten(cfg, rows, a) == r || AnswerAsWritten(cfg, rows, a) == Err(NameError)
  {
  }

  /**
   * The Follow branch as written: after the object and actor are read and
   * looked up, a local row that is not an actor has no auto_follow
   * (AttributeError); otherwise both arms call through the unbound name
   * `django_kepi` (NameError), so no follow is recorded and no Accept is
   * created or delivered.
   */
  function FollowAsWritten(cfg: Config, rows: Dict<ThingState>, a: ThingState): (r: Result<Outcome>)
    requires cfg.Valid()
    ensures r.Err?
    ensures Get(cfg, a, "object").Ok? && Get(cfg, a, "actor").Ok? ==>
      var local := Find(cfg, rows, Get(cfg, a, "object").value, true);
      r == Err(if local.Some? && local.value.kind.PlainThing? then AttributeError else NameError)
  {
    var obj :- Get(cfg, a, "object");
    var local := Find(cfg, rows, obj, true);
    var actor :- Get(cfg, a, "actor");
    if local.Some? && local.value.kind.PlainThing? then Err(AttributeError) else Err(NameError)
  }

  /**
   * Wherever the intended Follow branch takes effect, the branch as written
   * raises NameError instead; elsewhere the two agree, apart from the errors
   * the intended branch raises later than the NameError.
   */
  lemma FollowAsWrittenDiverges(cfg: Config, a: ThingState, draws: seq<nat>, rows0: Dict<ThingState>, rows1: Dict<ThingState>,
                                f0: map<(Json, Json), Following>, f1: map<(Json, Json), Following>,
                                d0: seq<string>, d1: seq<string>, r: Result<Outcome>)
    requires cfg.Valid() && Followed(cfg, a, draws, rows0, rows1, f0, f1, d0, d1, r)
    ensures r.Ok? ==> FollowAsWritten(cfg, rows0, a) == Err(NameError)
    ensures d1 != d0 ==> FollowAsWritten(cfg, rows0, a) == Err(NameError)
    ensures FollowAsWritten(cfg, rows0, a) == r || FollowAsWritten(cfg, rows0, a) == Err(NameError)
  {
  }

  /** The server state send_notifications works on. */
  class Engine {
    const store: Store
    var follows: map<(Json, Json), Following>  // (follower, following)
    var delivered: seq<string>                  // numbers handed to deliver(), in order

    constructor(store: Store)
      ensures this.store == store && follows == map[] && delivered == []
    {
      this.store := store;
      follows := map[];
      delivered := [];
    }

    /** create(**fields): a new ordinary row with the fields written in order, saved. */
    method Create(cfg: Config, fields: Dict<Value>) returns (r: Result<Thing>)
      requires store.Valid()
      modifies store
      ensures store.Valid()
      ensures r.Ok? ==> fresh(r.value) && !r.value.adding
      ensures r.Ok? ==> SetAll(cfg, NewState(r.value.number, PlainThing), fields) == Ok(r.value.State())
      ensures r.Ok? ==> !HasKey(old(store.rows), r.value.number)
      ensures r.Ok? ==> store.rows == Put(old(store.rows), r.value.number, r.value.State())
      ensures r.Err? ==> store.rows == old(store.rows)
      ensures CreateGoesThrough(cfg, old(store.rows), old(store.draws), fields) ==> r.Ok?
      ensures r.Err? ==> CreateFailsWith(cfg, old(store.draws), fields, r.error)
    {
      var n :- store.NewNumber();
      var s :- SetAll(cfg, NewState(n, PlainThing), fields);
      var t := new Thing(n, PlainThing);
      t.Assign(s);
      var saved := t.Save(store);
      if saved.Err? {
        return Err(saved.error);
      }
      SetAllRenumber(cfg, NewState(n, PlainThing), fields, t.number);
      assert NewState(n, PlainThing).(number := t.number) == NewState(t.number, PlainThing);
      r := Ok(t);
    }

    /** The Accept (accept = true) and Reject branches, with the `following` calls they evidently intend. */
    method Answer(cfg: Config, act: Thing, accept: bool) returns (r: Result<Outcome>)
      requires cfg.Valid()
      modifies this
      ensures delivered == old(delivered)
      ensures Answered(cfg, store.rows, act.State(), accept, old(follows), follows, r)
    {
      var o :- Referenced(cfg, store.rows, act.State(), "object");
      if o.None? {
        return Err(TypeError);
      }
      var obj := o.value;
      var ty :- Get(cfg, obj, "type");
      if ty != JStr("Follow") {
        return Ok(Ignored);
      }
      var follower :- Get(cfg, obj, "actor");
      var following :- Get(cfg, act.State(), "actor");
      if accept {
        follows := follows[(follower, following) := Accepted];
      } else {
        follows := follows - {(follower, following)};
      }
      r := Ok(Handled);
    }

    /** The Follow branch, with the `following` calls it evidently intends. */
    method Follow(cfg: Config, act: Thing) returns (r: Result<Outcome>)
      requires cfg.Valid() && store.Valid()
      modifies this, store
      ensures store.Valid()
      ensures Followed(cfg, act.State(), old(store.draws), old(store.rows), store.rows, old(follows), follows, old(delivered), delivered, r)
    {
      var a := act.State();
      var obj :- Get(cfg, a, "object");
      var local := Find(cfg, store.rows, obj, true);
      var actor :- Get(cfg, a, "actor");
      var remote := Find(cfg, store.rows, actor, false);
      if local.Some? && local.value.kind.PlainThing? {
        return Err(AttributeError);
      }
      if local.Some? && local.value.kind.autoFollow {
        follows := follows[(actor, obj) := Accepted];
        if remote.None? {
          return Err(AttributeError);
        }
        var accepted :- Create(cfg, AcceptFields(Url(cfg, remote.value), obj, Url(cfg, a)));
        LookupPut(old(store.rows), accepted.number, accepted.State(), accepted.number);
        delivered := delivered + [accepted.number];
        r := Ok(Handled);
      } else {
        follows := follows[(actor, obj) := Requested];
        r := Ok(Handled);
      }
    }

    /** The Create branch. */
    method CreateObject(cfg: Config, act: Thing) returns (r: Result<Outcome>)
      requires cfg.Valid() && store.Valid() && !act.adding && HasKey(store.rows, act.number)
      modifies store, act
      ensures store.Valid()
      ensures CreatedFrom(cfg, old(act.State()), act.State(), old(store.draws), old(store.rows), store.rows, r)
    {
      var plan :- CreatePlan(cfg, act.State());
      if plan.None? {
        store.Delete(act.number);
        return Ok(Deleted);
      }
      ghost var before, a0 := store.rows, act.State();
      var creation :- Create(cfg, plan.value);
      ghost var n, made, mid := creation.number, creation.State(), store.rows;
      LookupPut(before, n, made, n);
      LookupPut(before, n, made, act.number);
      PutFresh(before, n, made);
      UrlTakenAppendLocal(before, n, made, a0);
      assert act.State() == a0;
      r := Attach(cfg, act, creation);
      AttachedAfterCreate(cfg, a0, act.State(), old(store.draws), before, mid, store.rows, plan.value, n, made, r);
    }

    /** self['object'] = creation; self.save(): the Create names the object it made. */
    method Attach(cfg: Config, act: Thing, creation: Thing) returns (r: Result<Outcome>)
      requires cfg.Valid() && store.Valid() && !act.adding && HasKey(store.rows, act.number)
      requires !creation.adding && creation.State().kind.PlainThing? && creation.State().remoteUrl.None?
      requires Lookup(store.rows, creation.number) == Some(creation.State())
      requires creation.number != act.number
      modifies store, act
      ensures store.Valid()
      ensures r.Ok? ==>
        && r == Ok(Created(creation.number))
        && Lookup(store.rows, creation.number) == Some(creation.State())
        && Set(cfg, old(act.State()), "object", ThingRef(ActivityUrl(cfg, creation.number))) == Ok(act.State())
        && act.number == old(act.number)
        && store.rows == Put(old(store.rows), act.number, act.State())
      ensures r.Err? ==> store.rows == old(store.rows) && AttachFailsWith(cfg, old(store.rows), old(act.State()), r.error)
      ensures !AttachBlocked(cfg, old(store.rows), old(act.State())) ==> r.Ok?
    {
      var n := creation.number;
      var made := creation.State();
      var written := act.SetItem(cfg, "object", ThingRef(Url(cfg, made)), store);
      if written.Err? {
        return Err(written.error);
      }
      SetKeepsNumber(cfg, old(act.State()), "object", ThingRef(Url(cfg, made)));
      var saved := act.Save(store);
      if saved.Err? {
        return Err(saved.error);
      }
      LookupPut(old(store.rows), act.number, act.State(), n);
      r := Ok(Created(n));
    }

    /** The Update branch. */
    method UpdateObject(cfg: Config, act: Thing) returns (r: Result<Outcome>)
      requires cfg.Valid() && store.Valid()
      modifies store
      ensures store.Valid()
      ensures UpdatedBy(cfg, act.State(), old(store.rows), store.rows, r)
    {
      ghost var rows0 := store.rows;
      var target :- UpdateTarget(cfg, store.rows, act.State());
      if target.None? {
        store.Delete(act.number);
        return Ok(Deleted);
      }
      var (e, m) := target.value;
      var existing := new Thing.Loaded(e);
      var applied := Apply(cfg, existing, SortByKey(m));
      if applied.Err? {
        return Err(applied.error);
      }
      ghost var mid := store.rows;
      if UrlTaken(mid, existing.State()) {
        UrlTakenSameBut(mid, rows0, existing.State());
      }
      var done := existing.Save(store);
      if done.Err? {
        return Err(done.error);
      }
      r := Ok(Handled);
    }

    /** `for f, v in items: if f != 'id': existing[f] = v`, on a stored object. */
    method Apply(cfg: Config, existing: Thing, items: Dict<Json>) returns (r: Result<()>)
      requires store.Valid() && !existing.adding
      modifies store, existing
      ensures store.Valid() && !existing.adding && existing.number == old(existing.number)
      ensures r.Ok? ==> SetAll(cfg, old(existing.State()), UpdateFields(items)) == Ok(existing.State())
      ensures SameBut(store.rows, old(store.rows), existing.number)
      ensures r.Err? ==>
        || SetAll(cfg, old(existing.State()), UpdateFields(items)) == Err(r.error)
        || (r.error == IntegrityError && UrlTaken(old(store.rows), old(existing.State())))
    {
      var i := 0;
      while i < |items|
        invariant 0 <= i <= |items|
        invariant store.Valid() && !existing.adding && existing.number == old(existing.number)
        invariant existing.remoteUrl == old(existing.remoteUrl)
        invariant SetAll(cfg, old(existing.State()), UpdateFields(items)) == SetAll(cfg, existing.State(), UpdateFields(items[i..]))
        invariant SameBut(store.rows, old(store.rows), existing.number)
      {
        var (f, v) := items[i];
        assert items[i..][1..] == items[i + 1..];
        var rest := UpdateFields(items[i + 1..]);
        if f != "id" {
          assert UpdateFields(items[i..]) == [(f, Plain(v))] + rest;
          assert ([(f, Plain(v))] + rest)[1..] == rest;
          ghost var before := store.rows;
          ghost var prev := existing.State();
          var written := SetStored(cfg, existing, f, Plain(v));
          SameButTrans(store.rows, before, old(store.rows), existing.number);
          if written.Err? {
            if written.error == IntegrityError && UrlTaken(before, prev) {
              UrlTakenSameBut(before, old(store.rows), prev);
            }
            return Err(written.error);
          }
        } else {
          assert UpdateFields(items[i..]) == rest;
        }
        i := i + 1;
      }
      r := Ok(());
    }

    /** `existing[f] = v` on a stored object: only that object's row can change. */
    method SetStored(cfg: Config, existing: Thing, f: string, v: Value) returns (r: Result<()>)
      requires store.Valid() && !existing.adding
      modifies store, existing
      ensures store.Valid() && !existing.adding && existing.number == old(existing.number)
      ensures r.Ok? ==> Set(cfg, old(existing.State()), f, v) == Ok(existing.State())
      ensures r.Ok? ==> existing.remoteUrl == old(existing.remoteUrl)
      ensures SameBut(store.rows, old(store.rows), existing.number)
      ensures r.Err? ==>
        || Set(cfg, old(existing.State()), f, v) == Err(r.error)
        || (r.error == IntegrityError && UrlTaken(old(store.rows), old(existing.State())))
    {
      ghost var before := store.rows;
      ghost var prev := existing.State();
      r := existing.SetItem(cfg, f, v, store);
      if Set(cfg, prev, f, v).Ok? {
        SetKeepsNumber(cfg, prev, f, v);
      }
      if r.Ok? {
        assert existing.State() == Set(cfg, prev, f, v).value;
        if store.rows != before {
          SameButPut(before, before, existing.number, existing.State());
        }
      }
    }

    /**
     * send_notifications: the activity's type, decoded from its column,
     * chooses the handler; any other type does nothing.
     */
    method SendNotifications(cfg: Config, act: Thing) returns (r: Result<Outcome>)
      requires cfg.Valid() && store.Valid() && !act.adding && HasKey(store.rows, act.number)
      modifies this, store, act
      ensures store.Valid()
      ensures var ty := ActivityType(old(act.State()));
        ty.Err? ==> r == Err(ty.error) && unchanged(this, act) && store.rows == old(store.rows)
      ensures var ty := ActivityType(old(act.State()));
        ty.Ok? && ty.value !in {JStr("Accept"), JStr("Follow"), JStr("Reject"), JStr("Create"), JStr("Update")} ==>
        r == Ok(Ignored) && unchanged(this, act) && store.rows == old(store.rows)
      ensures ActivityType(old(act.State())) != Ok(JStr("Create")) ==> act.State() == old(act.State())
      ensures ActivityType(old(act.State())) == Ok(JStr("Accept")) ==>
        && Answered(cfg, old(store.rows), old(act.State()), true, old(follows), follows, r)
        && delivered == old(delivered) && store.rows == old(store.rows)
      ensures ActivityType(old(act.State())) == Ok(JStr("Reject")) ==>
        && Answered(cfg, old(store.rows), old(act.State()), false, old(follows), follows, r)
        && delivered == old(delivered) && store.rows == old(store.rows)
      ensures ActivityType(old(act.State())) == Ok(JStr("Follow")) ==>
        Followed(cfg, old(act.State()), old(store.draws), old(store.rows), store.rows, old(follows), follows, old(delivered), delivered, r)
      ensures ActivityType(old(act.State())) == Ok(JStr("Create")) ==>
        && CreatedFrom(cfg, old(act.State()), act.State(), old(store.draws), old(store.rows), store.rows, r)
        && follows == old(follows) && delivered == old(delivered)
      ensures ActivityType(old(act.State())) == Ok(JStr("Update")) ==>
        && UpdatedBy(cfg, old(act.State()), old(store.rows), store.rows, r)
        && follows == old(follows) && delivered == old(delivered)
    {
      var ty :- ActivityType(act.State());
      if ty == JStr("Accept") {
        r := Answer(cfg, act, true);
      } else if ty == JStr("Follow") {
        r := Follow(cfg, act);
      } else if ty == JStr("Reject") {
        r := Answer(cfg, act, false);
      } else if ty == JStr("Create") {
        r := CreateObject(cfg, act);
      } else if ty == JStr("Update") {
        r := UpdateObject(cfg, act);
      } else {
        r := Ok(Ignored);
      }
    }
  }
}
