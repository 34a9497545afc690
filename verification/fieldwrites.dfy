/**
 * Several `thing[name] = value` writes in a row, as `create` applies its
 * `f_` keyword arguments and an Update applies the fields of its object,
 * and what a row reads after them.
 */
module FieldWrites {
  import opened Wrappers
  import opened Text
  import opened Dicts
  import opened Json
  import opened Settings
  import opened Things
  import opened Actors

  /** `thing[k] = v` for each entry in order; the first write that raises stops the rest. */
  function SetAll(cfg: Config, t: ThingState, fields: Dict<Value>): (r: Result<ThingState>)
    ensures r.Ok? ==> r.value.number == t.number && r.value.remoteUrl == t.remoteUrl
    ensures r.Ok? ==> r.value.kind.ActorThing? == t.kind.ActorThing?
    decreases |fields|
  {
    if fields == [] then Ok(t)
    else match Set(cfg, t, fields[0].0, fields[0].1)
      case Err(e) => Err(e)
      case Ok(t') => SetAll(cfg, t', fields[1..])
  }

  /** One more write after the others. */
  lemma {:induction false} SetAllAppend(cfg: Config, t: ThingState, fields: Dict<Value>, name: string, v: Value)
    ensures SetAll(cfg, t, fields + [(name, v)]) ==
      match SetAll(cfg, t, fields)
      case Err(e) => Err(e)
      case Ok(s) => Set(cfg, s, name, v)
    decreases |fields|
  {
    if fields == [] {
      assert fields + [(name, v)] == [(name, v)];
    } else {
      assert (fields + [(name, v)])[1..] == fields[1..] + [(name, v)];
      match Set(cfg, t, fields[0].0, fields[0].1)
      case Err(e) =>
      case Ok(t') => SetAllAppend(cfg, t', fields[1..], name, v);
    }
  }

  /** The writes never look at the row's number: renumbering before or after is the same. */
  lemma {:induction false} SetAllRenumber(cfg: Config, t: ThingState, fields: Dict<Value>, n: string)
    ensures SetAll(cfg, t.(number := n), fields).Ok? == SetAll(cfg, t, fields).Ok?
    ensures SetAll(cfg, t, fields).Ok? ==>
      SetAll(cfg, t.(number := n), fields).value == SetAll(cfg, t, fields).value.(number := n)
    decreases |fields|
  {
    if fields != [] {
      var s := Set(cfg, t, fields[0].0, fields[0].1);
      assert Set(cfg, t.(number := n), fields[0].0, fields[0].1) ==
        if s.Ok? then Ok(s.value.(number := n)) else s;
      if s.Ok? {
        SetAllRenumber(cfg, s.value, fields[1..], n);
      }
    }
  }

  /** Every value normalises to a valid JSON value. */
  predicate ValidValues(fields: Dict<Value>)
  {
    forall i :: 0 <= i < |fields| ==> Valid(Normalise(fields[i].1))
  }

  /** The extension read of a row whose other_fields load. */
  lemma ExtensionGetOf(t: ThingState, k: string)
    requires ExtensionsValid(t)
    ensures ExtensionGet(t.otherFields, k) ==
      Ok(match Lookup(Extensions(t), k) case Some(v) => v case None => JNull)
  {
    if t.otherFields != "" {
      assert Decode(t.otherFields) == Some(JObj(Extensions(t)));
    }
  }

  /**
   * A write to an ordinary row succeeds, keeps other_fields loadable and the
   * set of core columns, and leaves every other plain name reading as before.
   */
  lemma SetKeepsRead(cfg: Config, t: ThingState, name: string, v: Value, k: string)
    requires t.kind.PlainThing? && ExtensionsValid(t) && Valid(Normalise(v))
    requires k != name && !Contains(k, "__")
    ensures Set(cfg, t, name, v).Ok?
    ensures var t' := Set(cfg, t, name, v).value;
      && t'.kind == t.kind && ExtensionsValid(t')
      && HasKey(t'.core, k) == HasKey(t.core, k)
      && ThingGet(cfg, t', k) == ThingGet(cfg, t, k)
  {
    PlainName(k);
    var nv := Normalise(v);
    var t' := ThingSet(cfg, t, name, v).value;
    LookupPut(t.core, name, Some(Encode(nv)), k);
    if HasKey(t.core, name) {
      assert t'.otherFields == t.otherFields && t'.audiences == t.audiences;
    } else if name in cfg.audienceNames {
      LookupPut(t.audiences, name, AudienceList(t, name) + AudienceUris(nv), k);
      assert AudienceList(t', k) == AudienceList(t, k);
    } else {
      SetExtensionOnly(cfg, t, name, v, k);
      ExtensionGetOf(t, k);
      ExtensionGetOf(t', k);
    }
  }

  /** Writes to other names keep a plain name's reading. */
  lemma {:induction false} SetAllKeepsRead(cfg: Config, t: ThingState, fields: Dict<Value>, k: string)
    requires t.kind.PlainThing? && ExtensionsValid(t) && ValidValues(fields)
    requires !HasKey(fields, k) && !Contains(k, "__")
    ensures SetAll(cfg, t, fields).Ok?
    ensures var s := SetAll(cfg, t, fields).value;
      && s.kind == t.kind && ExtensionsValid(s)
      && HasKey(s.core, k) == HasKey(t.core, k)
      && ThingGet(cfg, s, k) == ThingGet(cfg, t, k)
    decreases |fields|
  {
    if fields != [] {
      SetKeepsRead(cfg, t, fields[0].0, fields[0].1, k);
      var t' := Set(cfg, t, fields[0].0, fields[0].1).value;
      SetAllKeepsRead(cfg, t', fields[1..], k);
    }
  }

  /** A write to an ordinary row succeeds and keeps other_fields loadable. */
  lemma SetKeepsValid(cfg: Config, t: ThingState, name: string, v: Value)
    requires t.kind.PlainThing? && ExtensionsValid(t) && Valid(Normalise(v))
    ensures Set(cfg, t, name, v).Ok?
    ensures Set(cfg, t, name, v).value.kind == t.kind && ExtensionsValid(Set(cfg, t, name, v).value)
  {
    if !HasKey(t.core, name) && name !in cfg.audienceNames {
      SetExtensionOnly(cfg, t, name, v, name);
    }
  }

  /**
   * After writing a dict of fields to an ordinary row, each core or extension
   * name among them reads back as its normalised value.
   */
  lemma {:induction false} SetAllReads(cfg: Config, t: ThingState, fields: Dict<Value>, k: string)
    requires t.kind.PlainThing? && ExtensionsValid(t) && ValidValues(fields) && Distinct(fields)
    requires HasKey(fields, k) && !Contains(k, "__") && (HasKey(t.core, k) || k !in cfg.audienceNames)
    ensures SetAll(cfg, t, fields).Ok?
    ensures ThingGet(cfg, SetAll(cfg, t, fields).value, k) == Ok(Normalise(Lookup(fields, k).value))
    decreases |fields|
  {
    var t' := Set(cfg, t, fields[0].0, fields[0].1).value;
    if fields[0].0 == k {
      GetAfterSet(cfg, t, k, fields[0].1);
      SetKeepsValid(cfg, t, k, fields[0].1);
      SetAllKeepsRead(cfg, t', fields[1..], k);
    } else {
      SetKeepsRead(cfg, t, fields[0].0, fields[0].1, k);
      SetAllReads(cfg, t', fields[1..], k);
    }
  }
}
