/**
 * The stateful side of django_kepi/models/thing.py: a Thing object whose
 * fields the methods update in place, the table of saved rows it is written
 * to, `_new_number`, and `save` with its retry on IntegrityError.
 */
module Models {
  import opened Wrappers
  import opened Text
  import opened Dicts
  import opened Json
  import opened Settings
  import opened Things
  import opened Actors

  /** '%08x' % n */
  function NumberText(n: nat): string
  {
    HexDigits(n, 8)
  }

  /** A row number: eight lower-case hexadecimal digits. */
  predicate IsNumber(s: string)
  {
    |s| == 8 && forall i :: 0 <= i < 8 ==> IsHexDigit(s[i])
  }

  const MAX_DRAW := 0xffff_ffff

  /** Every draw of randint(0, 0xffffffff) gives a row number, and reading it back gives the draw. */
  lemma NumberTextRoundTrip(n: nat)
    requires n <= MAX_DRAW
    ensures IsNumber(NumberText(n)) && HexValue(NumberText(n)) == n
  {
    assert Pow16(8) == 0x1_0000_0000;
    HexDigitsRoundTrip(n, 8);
  }

  /** Distinct draws give distinct row numbers. */
  lemma NumberTextInjective(m: nat, n: nat)
    requires m <= MAX_DRAW && n <= MAX_DRAW && NumberText(m) == NumberText(n)
    ensures m == n
  {
    NumberTextRoundTrip(m);
    NumberTextRoundTrip(n);
  }

  /** Another row already holds this row's remote_url, which the unique constraint refuses. */
  predicate UrlTaken(rows: Dict<ThingState>, t: ThingState)
  {
    t.remoteUrl.Some? && exists i :: 0 <= i < |rows| && rows[i].0 != t.number && rows[i].1.remoteUrl == t.remoteUrl
  }

  /** An INSERT of a new row whose number is already used. */
  predicate NumberTaken(rows: Dict<ThingState>, t: ThingState, adding: bool)
  {
    adding && HasKey(rows, t.number)
  }

  /** None of the upcoming draws names a row that exists. */
  predicate FreshDraws(draws: seq<nat>, rows: Dict<ThingState>)
  {
    forall i :: 0 <= i < |draws| ==> !HasKey(rows, NumberText(draws[i]))
  }

  /** Every row is stored under its own number. */
  predicate Keyed(rows: Dict<ThingState>)
  {
    forall i :: 0 <= i < |rows| ==> rows[i].0 == rows[i].1.number
  }

  lemma PutKeyed(rows: Dict<ThingState>, t: ThingState)
    requires Keyed(rows)
    ensures Keyed(Put(rows, t.number, t))
  {
    forall i | 0 <= i < |Put(rows, t.number, t)| ensures Put(rows, t.number, t)[i].0 == Put(rows, t.number, t)[i].1.number {
      PutEntry(rows, t.number, t, i);
    }
  }

  /** In a keyed table, the row found under a number carries that number. */
  lemma {:induction false} LookupKeyed(rows: Dict<ThingState>, k: string)
    requires Keyed(rows) && HasKey(rows, k)
    ensures Lookup(rows, k).value.number == k
  {
    if rows[0].0 != k {
      assert Keyed(rows[1..]) by {
        forall i | 0 <= i < |rows[1..]| ensures rows[1..][i].0 == rows[1..][i].1.number {
          assert rows[1..][i] == rows[i + 1];
        }
      }
      LookupKeyed(rows[1..], k);
    }
  }

  /**
   * Storing t under a number another row already holds replaces that row:
   * the table does not grow, and the row that was there is stored nowhere.
   */
  lemma OverwriteDropsRow(rows: Dict<ThingState>, t: ThingState)
    requires Distinct(rows) && Keyed(rows) && HasKey(rows, t.number) && Lookup(rows, t.number).value != t
    ensures |Put(rows, t.number, t)| == |rows|
    ensures forall i :: 0 <= i < |Put(rows, t.number, t)| ==> Put(rows, t.number, t)[i].1 != Lookup(rows, t.number).value
  {
    var after := Put(rows, t.number, t);
    var held := Lookup(rows, t.number).value;
    PutLength(rows, t.number, t);
    PutDistinct(rows, t.number, t);
    PutKeyed(rows, t);
    LookupKeyed(rows, t.number);
    forall i | 0 <= i < |after| ensures after[i].1 != held {
      if after[i].1 == held {
        LookupIndex(after, i);
        LookupPut(rows, t.number, t, t.number);
      }
    }
  }

  lemma RemoveKeyed(rows: Dict<ThingState>, number: string)
    requires Keyed(rows)
    ensures Keyed(Remove(rows, number))
  {
    forall i | 0 <= i < |Remove(rows, number)| ensures Remove(rows, number)[i].0 == Remove(rows, number)[i].1.number {
      RemoveEntry(rows, number, i);
    }
  }

  /** The saved rows, keyed by number in the order they were first stored, and the random draws still to come. */
  class Store {
    var rows: Dict<ThingState>
    var draws: seq<nat>

    predicate Valid()
      reads this
    {
      Distinct(rows) && Keyed(rows) && forall i :: 0 <= i < |draws| ==> draws[i] <= MAX_DRAW
    }

    constructor(rows: Dict<ThingState>, draws: seq<nat>)
      requires Distinct(rows) && Keyed(rows) && forall i :: 0 <= i < |draws| ==> draws[i] <= MAX_DRAW
      ensures Valid() && this.rows == rows && this.draws == draws
    {
      this.rows := rows;
      this.draws := draws;
    }

    /** _new_number: the next draw, formatted; the model's draws may run out. */
    method NewNumber() returns (r: Result<string>)
      requires Valid()
      modifies this
      ensures Valid() && rows == old(rows)
      ensures old(draws) == [] ==> r == Err(EntropyExhausted) && draws == []
      ensures old(draws) != [] ==> r == Ok(NumberText(old(draws)[0])) && draws == old(draws)[1..]
      ensures r.Ok? ==> IsNumber(r.value)
    {
      if draws == [] {
        r := Err(EntropyExhausted);
      } else {
        NumberTextRoundTrip(draws[0]);
        r := Ok(NumberText(draws[0]));
        draws := draws[1..];
      }
    }

    /** Thing.delete(): the row with this number is gone. */
    method Delete(number: string)
      requires Valid()
      modifies this
      ensures Valid() && rows == Remove(old(rows), number) && draws == old(draws)
    {
      RemoveDistinct(rows, number);
      RemoveKeyed(rows, number);
      rows := Remove(rows, number);
    }
  }

  /** One Thing object: a row's fields, and whether it has been stored yet. */
  class Thing {
    var number: string
    var core: Dict<Option<string>>
    var remoteUrl: Option<string>
    var active: bool
    var otherFields: string
    var audiences: Dict<seq<string>>
    var kind: Kind
    var adding: bool

    function State(): ThingState
      reads this
    {
      ThingState(number, core, remoteUrl, active, otherFields, audiences, kind)
    }

    /** A new, unsaved object with the model defaults. */
    constructor(number: string, kind: Kind)
      ensures State() == NewState(number, kind) && adding
    {
      var s := NewState(number, kind);
      this.number := s.number;
      this.core := s.core;
      this.remoteUrl := s.remoteUrl;
      this.active := s.active;
      this.otherFields := s.otherFields;
      this.audiences := s.audiences;
      this.kind := s.kind;
      this.adding := true;
    }

    /** An object loaded from a saved row. */
    constructor Loaded(s: ThingState)
      ensures State() == s && !adding
    {
      this.number := s.number;
      this.core := s.core;
      this.remoteUrl := s.remoteUrl;
      this.active := s.active;
      this.otherFields := s.otherFields;
      this.audiences := s.audiences;
      this.kind := s.kind;
      this.adding := false;
    }

    /** Overwrite every field with those of s. */
    method Assign(s: ThingState)
      modifies this
      ensures State() == s && adding == old(adding)
    {
      number := s.number;
      core := s.core;
      remoteUrl := s.remoteUrl;
      active := s.active;
      otherFields := s.otherFields;
      audiences := s.audiences;
      kind := s.kind;
    }

    /**
     * Thing.save as it evidently should behave: a number clash on INSERT draws
     * a fresh number and tries again, while a remote_url clash, which a new
     * number cannot cure, is reported as IntegrityError.
     */
    method Save(store: Store) returns (r: Result<()>)
      requires store.Valid()
      modifies this, store
      ensures store.Valid()
      ensures State() == old(State()).(number := number)
      ensures number != old(number) ==> IsNumber(number)
      ensures r.Ok? ==> store.rows == Put(old(store.rows), number, State()) && !adding
      ensures r.Ok? && old(adding) ==> !HasKey(old(store.rows), number)
      ensures r.Ok? ==> !UrlTaken(old(store.rows), State())
      ensures !old(adding) ==> number == old(number)
      ensures adding == (old(adding) && r.Err?)
      ensures r.Err? ==> store.rows == old(store.rows)
      ensures r.Err? ==> r.error == IntegrityError || r.error == EntropyExhausted
      ensures old(State()).remoteUrl.None? && r.Err? ==> r.error == EntropyExhausted
      ensures old(UrlTaken(store.rows, State())) ==> r == Err(IntegrityError) && number == old(number)
      ensures !old(UrlTaken(store.rows, State())) && !old(NumberTaken(store.rows, State(), adding)) ==>
        r == Ok(()) && number == old(number)
    {
      while true
        invariant store.Valid() && store.rows == old(store.rows)
        invariant State() == old(State()).(number := number) && adding == old(adding)
        invariant number != old(number) ==> IsNumber(number)
        invariant !adding ==> number == old(number)
        invariant old(UrlTaken(store.rows, State())) ==> number == old(number)
        invariant !old(UrlTaken(store.rows, State())) && !old(NumberTaken(store.rows, State(), adding)) ==>
          number == old(number)
        decreases |store.draws|
      {
        if UrlTaken(store.rows, State()) {
          return Err(IntegrityError);
        }
        if !NumberTaken(store.rows, State(), adding) {
          break;
        }
        var n := store.NewNumber();
        if n.Err? {
          return Err(EntropyExhausted);
        }
        number := n.value;
      }
      PutDistinct(store.rows, number, State());
      PutKeyed(store.rows, State());
      store.rows := Put(store.rows, number, State());
      adding := false;
      r := Ok(());
    }

    /**
     * Thing.save as written, under the Django 2.1 its migrations were made
     * with: a row whose number is set is first UPDATEd, so an object whose
     * number another row holds overwrites that row. Only a remote_url clash
     * raises IntegrityError, and every one draws a fresh number and tries
     * again, until the draws run out (in Python, until the recursion limit).
     */
    method SaveAsWritten(store: Store) returns (r: Result<()>)
      requires store.Valid()
      modifies this, store
      ensures store.Valid()
      ensures State() == old(State()).(number := number)
      ensures r.Ok? ==> store.rows == Put(old(store.rows), number, State()) && !adding
      ensures r.Ok? ==> !UrlTaken(old(store.rows), State())
      ensures r.Err? ==> store.rows == old(store.rows) && r.error == EntropyExhausted
      ensures adding == (old(adding) && r.Err?)
      ensures !old(UrlTaken(store.rows, State())) ==> r == Ok(()) && number == old(number)
      ensures old(UrlTaken(store.rows, State())) && old(FreshDraws(store.draws, store.rows)) ==>
        r == Err(EntropyExhausted) && store.draws == []
    {
      while UrlTaken(store.rows, State())
        invariant store.Valid() && store.rows == old(store.rows)
        invariant State() == old(State()).(number := number) && adding == old(adding)
        invariant !old(UrlTaken(store.rows, State())) ==> number == old(number)
        invariant old(UrlTaken(store.rows, State())) && old(FreshDraws(store.draws, store.rows)) ==>
          UrlTaken(store.rows, State()) && FreshDraws(store.draws, store.rows)
        decreases |store.draws|
      {
        var before := State();
        var n := store.NewNumber();
        if n.Err? {
          return Err(EntropyExhausted);
        }
        number := n.value;
        if old(UrlTaken(store.rows, State())) && old(FreshDraws(store.draws, store.rows)) {
          KeepsUrlTaken(store.rows, before, State());
        }
      }
      PutDistinct(store.rows, number, State());
      PutKeyed(store.rows, State());
      store.rows := Put(store.rows, number, State());
      adding := false;
      r := Ok(());
    }

    /**
     * Thing.__setitem__ (AcActor.__setitem__ for an actor): the row changes as
     * Set says, and writing tag, or an actor's privateKey or publicKey, saves
     * the object straight away.
     */
    method SetItem(cfg: Config, name: string, v: Value, store: Store) returns (r: Result<()>)
      requires store.Valid()
      modifies this, store
      ensures store.Valid()
      ensures Set(cfg, old(State()), name, v).Err? ==>
        r == Err(Set(cfg, old(State()), name, v).error) && State() == old(State()) && store.rows == old(store.rows)
      ensures Set(cfg, old(State()), name, v).Ok? && !SavesAfterSet(old(State()), name) ==>
        r == Ok(()) && State() == Set(cfg, old(State()), name, v).value && store.rows == old(store.rows)
      ensures Set(cfg, old(State()), name, v).Ok? && SavesAfterSet(old(State()), name) ==>
        State() == Set(cfg, old(State()), name, v).value.(number := number) &&
        (r.Ok? ==> store.rows == Put(old(store.rows), number, State())) &&
        (r.Err? ==> store.rows == old(store.rows) && (r.error == IntegrityError || r.error == EntropyExhausted))
      ensures Set(cfg, old(State()), name, v).Ok? && SavesAfterSet(old(State()), name) && !old(adding) ==>
        r == (if old(UrlTaken(store.rows, State())) then Err(IntegrityError) else Ok(()))
      ensures Set(cfg, old(State()), name, v).Ok? && !old(adding) ==> State() == Set(cfg, old(State()), name, v).value
      ensures adding == (old(adding) && !(r.Ok? && Set(cfg, old(State()), name, v).Ok? && SavesAfterSet(old(State()), name)))
    {
      var before := State();
      var s := Set(cfg, before, name, v);
      if s.Err? {
        return Err(s.error);
      }
      SetKeepsNumber(cfg, before, name, v);
      Assign(s.value);
      if SavesAfterSet(before, name) {
        r := Save(store);
      } else {
        r := Ok(());
      }
    }

    /** Thing.entomb as it evidently should behave, saving the entombed row. */
    method Entomb(cfg: Config, store: Store) returns (r: Result<()>)
      requires store.Valid()
      modifies this, store
      ensures store.Valid()
      ensures Entombed(cfg, old(State())).Err? ==>
        r == Err(Entombed(cfg, old(State())).error) && State() == old(State()) && store.rows == old(store.rows)
      ensures IsTombstone(cfg, old(State())) ==> r == Ok(()) && State() == old(State()) && store.rows == old(store.rows)
      ensures Entombed(cfg, old(State())).Ok? && !IsTombstone(cfg, old(State())) ==>
        State() == Entombed(cfg, old(State())).value.(number := number) &&
        (r.Ok? ==> store.rows == Put(old(store.rows), number, State()))
    {
      var e := Entombed(cfg, State());
      if e.Err? {
        return Err(e.error);
      }
      if IsTombstone(cfg, State()) {
        return Ok(());
      }
      Assign(e.value);
      r := Save(store);
    }

    /** Thing.entomb as written: the in-memory changes, then NameError before any save. */
    method EntombAsWritten(cfg: Config) returns (r: Result<()>)
      modifies this
      ensures State() == EntombStepAsWritten(cfg, old(State())).state
      ensures r == EntombStepAsWritten(cfg, old(State())).outcome
      ensures adding == old(adding)
    {
      var step := EntombStepAsWritten(cfg, State());
      Assign(step.state);
      r := step.outcome;
    }

    /** AcActor._after_create on this object. */
    method AfterCreate(cfg: Config, pair: (string, string))
      requires kind.ActorThing?
      modifies this
      ensures State() == Actors.AfterCreate(cfg, old(State()), pair) && adding == old(adding)
    {
      Assign(Actors.AfterCreate(cfg, State(), pair));
    }
  }

  /** The writes that save the object at once: tag (for its mentions) and an actor's two keys. */
  predicate SavesAfterSet(t: ThingState, name: string)
  {
    name == "tag" || (t.kind.ActorThing? && (name == "privateKey" || name == "publicKey"))
  }

  lemma SetKeepsNumber(cfg: Config, t: ThingState, name: string, v: Value)
    requires Set(cfg, t, name, v).Ok?
    ensures Set(cfg, t, name, v).value.number == t.number
    ensures Set(cfg, t, name, v).value.remoteUrl == t.remoteUrl
  {
  }

  /** A clash with another row does not depend on what is stored under the row's own number. */
  lemma UrlTakenSameBut(a: Dict<ThingState>, b: Dict<ThingState>, t: ThingState)
    requires SameBut(a, b, t.number) && UrlTaken(a, t)
    ensures UrlTaken(b, t)
  {
    var i :| 0 <= i < |a| && a[i].0 != t.number && a[i].1.remoteUrl == t.remoteUrl;
    PutAt(a, t.number, t, i);
    assert Put(a, t.number, t) == Put(b, t.number, t);
    PutEntry(b, t.number, t, i);
    var j :| 0 <= j < |b| && b[j] == a[i];
  }

  /** A row stored without a remote_url clashes with nothing. */
  lemma UrlTakenAppendLocal(rows: Dict<ThingState>, n: string, x: ThingState, t: ThingState)
    requires x.remoteUrl.None?
    ensures UrlTaken(rows + [(n, x)], t) == UrlTaken(rows, t)
  {
    var all := rows + [(n, x)];
    if UrlTaken(all, t) {
      var i :| 0 <= i < |all| && all[i].0 != t.number && all[i].1.remoteUrl == t.remoteUrl;
      assert i < |rows| && rows[i] == all[i];
    }
    if UrlTaken(rows, t) {
      var i :| 0 <= i < |rows| && rows[i].0 != t.number && rows[i].1.remoteUrl == t.remoteUrl;
      assert all[i] == rows[i];
    }
  }

  /** Changing only the number to one no row has keeps another row's remote_url clash. */
  lemma KeepsUrlTaken(rows: Dict<ThingState>, t: ThingState, t': ThingState)
    requires UrlTaken(rows, t) && t' == t.(number := t'.number) && !HasKey(rows, t'.number)
    ensures UrlTaken(rows, t')
  {
    var i :| 0 <= i < |rows| && rows[i].0 != t.number && rows[i].1.remoteUrl == t.remoteUrl;
    LookupAt(rows, i);
  }
}
