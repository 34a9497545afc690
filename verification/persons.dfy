/**
 * The people of the Mastodon-style API (kepi/trilby_api/models/person.py):
 * default images, a remote person's display string and host name, the
 * fetch status codes, a local person's save-time defaults and key name,
 * and the follower and following counts over follow records.
 *
 * A person's database id, the follow table and the key pair that
 * `crypto.Key()` generates are parameters; `urlparse(...).netloc` is the
 * parameter `netloc`.
 */
module Persons {
  import opened Wrappers
  import opened Text
  import opened Settings

  // ---------------------------------------------------------- default images

  /** Django's truth test on an image field: unset and empty both fail it. */
  predicate Given(image: Option<string>)
  {
    image.Some? && image.value != ""
  }

  /** The default avatar a person gets: Python's `id % 10`, a residue of `id`. */
  function AvatarNumber(id: int): (w: nat)
    ensures w < 10 && (id - w) % 10 == 0
  {
    id % 10
  }

  function AvatarPath(w: nat): string
  {
    "/static/defaults/avatar_" + NatToString(w) + ".jpg"
  }

  const HEADER_PATH := "/static/defaults/header.jpg"

  /** Person.icon_or_default */
  function IconOrDefault(cfg: Config, icon: Option<string>, id: int): (r: string)
    ensures Given(icon) ==> r == cfg.uriToUrl(icon.value)
    ensures !Given(icon) ==> exists w :: 0 <= w < 10 && (id - w) % 10 == 0 && r == cfg.uriToUrl(AvatarPath(w))
  {
    if Given(icon) then cfg.uriToUrl(icon.value)
    else
      var w := AvatarNumber(id);
      assert 0 <= w < 10 && (id - w) % 10 == 0;
      cfg.uriToUrl(AvatarPath(w))
  }

  /** Person.header_or_default */
  function HeaderOrDefault(cfg: Config, header: Option<string>): (r: string)
    ensures Given(header) ==> r == cfg.uriToUrl(header.value)
    ensures !Given(header) ==> r == cfg.uriToUrl(HEADER_PATH)
  {
    if Given(header) then cfg.uriToUrl(header.value) else cfg.uriToUrl(HEADER_PATH)
  }

  /** Different avatar numbers name different files, so there are ten default avatars. */
  lemma AvatarPathsDistinct(v: nat, w: nat)
    requires AvatarPath(v) == AvatarPath(w)
    ensures v == w
  {
    var p := "/static/defaults/avatar_";
    var a := AvatarPath(v);
    var b := AvatarPath(w);
    NatToStringShape(v);
    NatToStringShape(w);
    assert |a| == |b|;
    assert a[|p|..|a| - 4] == NatToString(v);
    assert b[|p|..|b| - 4] == NatToString(w);
    NatToStringInjective(v, w);
  }

  /** Two people without an icon share a default avatar exactly when their ids agree modulo 10. */
  lemma DefaultAvatarShared(a: int, b: int)
    ensures AvatarPath(AvatarNumber(a)) == AvatarPath(AvatarNumber(b)) <==> (a - b) % 10 == 0
  {
    if AvatarPath(AvatarNumber(a)) == AvatarPath(AvatarNumber(b)) {
      AvatarPathsDistinct(AvatarNumber(a), AvatarNumber(b));
    }
  }

  // ----------------------------------------------------------- fetch status

  /** The choices of RemotePerson.status. */
  datatype FetchStatus = Pending | Found | NotFound | Gone | RemoteError

  const DEFAULT_STATUS := Pending

  /** The integer each status is stored as. */
  function Code(s: FetchStatus): int
  {
    match s
    case Pending => 0
    case Found => 200
    case NotFound => 404
    case Gone => 410
    case RemoteError => 500
  }

  /** The status a stored integer stands for, if it is one of the choices. */
  function FromCode(c: int): (r: Option<FetchStatus>)
    ensures r.Some? ==> Code(r.value) == c
    ensures r.None? ==> forall s :: Code(s) != c
  {
    if c == 0 then Some(Pending)
    else if c == 200 then Some(Found)
    else if c == 404 then Some(NotFound)
    else if c == 410 then Some(Gone)
    else if c == 500 then Some(RemoteError)
    else None
  }

  /** Every status survives being stored, and a new remote person is pending (code 0). */
  lemma StatusRoundTrip(s: FetchStatus)
    ensures FromCode(Code(s)) == Some(s)
    ensures Code(DEFAULT_STATUS) == 0
  {
  }

  // ----------------------------------------------------------- remote people

  datatype RemotePerson = RemotePerson(
    url: Option<string>,
    acct: Option<string>,
    status: FetchStatus
  )

  /** RemotePerson.__str__: the url, else the acct, else `<empty>`, in brackets. */
  function RemoteStr(p: RemotePerson): (s: string)
    ensures |s| >= 2 && s[0] == '[' && s[|s| - 1] == ']'
    ensures p.url.Some? ==> s[1..|s| - 1] == p.url.value
    ensures p.url.None? && p.acct.Some? ==> s[1..|s| - 1] == p.acct.value
    ensures p.url.None? && p.acct.None? ==> s[1..|s| - 1] == "<empty>"
  {
    var shown := if p.url.Some? then p.url.value else if p.acct.Some? then p.acct.value else "<empty>";
    var s := "[" + shown + "]";
    assert s[1..|s| - 1] == shown;
    s
  }

  /**
   * RemotePerson.hostname. An acct without a second `@`-separated part
   * fails with IndexError, as `parts[1]` does.
   */
  function Hostname(p: RemotePerson, netloc: string -> string): (r: Result<Option<string>>)
    ensures p.url.Some? ==> r == Ok(Some(netloc(p.url.value)))
    ensures p.url.None? && p.acct.None? ==> r == Ok(None)
    ensures p.url.None? && p.acct.Some? && '@' !in p.acct.value ==> r == Err(IndexError)
  {
    if p.url.Some? then Ok(Some(netloc(p.url.value)))
    else if p.acct.Some? then
      var parts := Split(p.acct.value, "@");
      var rest := if parts[0] == "" then parts[1..] else parts;
      if '@' !in p.acct.value then
        NotContainsFirst(p.acct.value, "@");
        SplitNoSep(p.acct.value, "@");
        assert |rest| < 2;
        Err(IndexError)
      else if |rest| < 2 then Err(IndexError)
      else Ok(Some(rest[1]))
    else Ok(None)
  }

  /** `user@host` and `@user@host` both give `host`. */
  lemma AcctHostname(user: string, host: string, netloc: string -> string)
    requires '@' !in user && '@' !in host
    ensures user != "" ==> Hostname(RemotePerson(None, Some(user + "@" + host), Pending), netloc) == Ok(Some(host))
    ensures Hostname(RemotePerson(None, Some("@" + user + "@" + host), Pending), netloc) == Ok(Some(host))
  {
    NotContainsFirst(host, "@");
    SplitNoSep(host, "@");
    SplitAtSep(user, "@", host);
    assert Split(user + "@" + host, "@") == [user, host];
    SplitAtSep("", "@", user + "@" + host);
    assert "" + "@" + (user + "@" + host) == "@" + user + "@" + host;
    assert Split("@" + user + "@" + host, "@") == ["", user, host];
  }

  // ------------------------------------------------------------ local people

  /** The key pair `crypto.Key()` would produce, as PEM text. */
  datatype KeyPair = KeyPair(privatePem: string, publicPem: string)

  /** The columns of a local person that saving touches. */
  datatype LocalState = LocalState(
    displayName: string,
    username: string,
    publicKey: Option<string>,
    privateKey: Option<string>
  )

  /**
   * The defaults LocalPerson.save fills in: an empty display name becomes
   * the username, and a fresh key pair is generated only when neither key
   * is present.
   */
  function Defaulted(s: LocalState, keys: KeyPair): (r: LocalState)
    ensures r.username == s.username
    ensures s.displayName != "" ==> r.displayName == s.displayName
    ensures s.displayName == "" ==> r.displayName == s.username
    ensures s.publicKey.Some? || s.privateKey.Some? ==> r.publicKey == s.publicKey && r.privateKey == s.privateKey
    ensures s.publicKey.None? && s.privateKey.None? ==> r.publicKey == Some(keys.publicPem) && r.privateKey == Some(keys.privatePem)
  {
    var named := if s.displayName == "" then s.(displayName := s.username) else s;
    if named.privateKey.None? && named.publicKey.None? then
      named.(privateKey := Some(keys.privatePem), publicKey := Some(keys.publicPem))
    else named
  }

  /**
   * Saving twice is saving once, whatever keys the second save would
   * generate; and a saved person with a username has a display name and at
   * least one key.
   */
  lemma DefaultedStable(s: LocalState, keys: KeyPair, other: KeyPair)
    ensures Defaulted(Defaulted(s, keys), other) == Defaulted(s, keys)
    ensures s.username != "" ==> Defaulted(s, keys).displayName != ""
    ensures Defaulted(s, keys).publicKey.Some? || Defaulted(s, keys).privateKey.Some?
  {
  }

  /** The Django user row behind a local person: its username and what was last saved. */
  class TrilbyUser {
    var username: string
    var stored: Option<string>

    constructor (username: string)
      ensures this.username == username && stored == Some(username)
    {
      this.username := username;
      stored := Some(username);
    }
  }

  class LocalPerson {
    const localUser: TrilbyUser
    var displayName: string
    var publicKey: Option<string>
    var privateKey: Option<string>
    /** The row as last written to the database. */
    var stored: Option<LocalState>

    function State(): LocalState
      reads this, localUser
    {
      LocalState(displayName, localUser.username, publicKey, privateKey)
    }

    /** LocalPerson(username=..., ...): a new user row is made for the username. */
    constructor (username: string, displayName: string, publicKey: Option<string>, privateKey: Option<string>)
      ensures fresh(localUser) && localUser.stored == Some(username)
      ensures State() == LocalState(displayName, username, publicKey, privateKey)
      ensures stored == None
    {
      localUser := new TrilbyUser(username);
      this.displayName := displayName;
      this.publicKey := publicKey;
      this.privateKey := privateKey;
      stored := None;
    }

    /** LocalPerson.save: fill in the defaults, then write the row. */
    method Save(keys: KeyPair)
      modifies this
      ensures State() == Defaulted(old(State()), keys)
      ensures stored == Some(State())
    {
      if displayName == "" {
        displayName := localUser.username;
      }
      if privateKey.None? && publicKey.None? {
        privateKey := Some(keys.privatePem);
        publicKey := Some(keys.publicPem);
      }
      stored := Some(State());
    }

    /** The `username` setter: renames and saves the user row; the person's own row is untouched. */
    method SetUsername(newname: string)
      modifies localUser
      ensures State() == old(State()).(username := newname)
      ensures localUser.stored == Some(newname) && stored == old(stored)
    {
      localUser.username := newname;
      localUser.stored := Some(newname);
    }
  }

  /** LocalPerson.url: USER_LINK filled with the username, through uri_to_url. */
  function LocalUrl(cfg: Config, username: string): string
    requires cfg.Valid()
  {
    cfg.uriToUrl(UserLink(cfg, username))
  }

  /** LocalPerson.key_name: the key id whose owner is the person's url. */
  function LocalKeyName(cfg: Config, username: string): (k: string)
    requires cfg.Valid()
    ensures IsMainKeyId(k) && KeyOwner(k) == LocalUrl(cfg, username)
  {
    MainKeyId(LocalUrl(cfg, username))
  }

  // ------------------------------------------------------------------ counts

  /** A row of the follow table; `requested` marks a request not yet accepted. */
  datatype Follow = Follow(follower: string, following: string, requested: bool)

  datatype Side = FollowerSide | FollowingSide

  function Party(f: Follow, side: Side): string
  {
    if side == FollowerSide then f.follower else f.following
  }

  /** Whether a row counts for `p` on `side`: p is on that side and the follow is accepted. */
  predicate Counted(f: Follow, p: string, side: Side)
  {
    Party(f, side) == p && !f.requested
  }

  /** `Follow.objects.filter(<side> = p, requested = False).count()` */
  function AcceptedCount(fs: seq<Follow>, p: string, side: Side): (n: nat)
    ensures n <= |fs|
  {
    if fs == [] then 0
    else AcceptedCount(fs[..|fs| - 1], p, side) + (if Counted(fs[|fs| - 1], p, side) then 1 else 0)
  }

  /** LocalPerson.following_count */
  function FollowingCount(fs: seq<Follow>, p: string): nat
  {
    AcceptedCount(fs, p, FollowerSide)
  }

  /** LocalPerson.followers_count */
  function FollowersCount(fs: seq<Follow>, p: string): nat
  {
    AcceptedCount(fs, p, FollowingSide)
  }

  /** Counting splits over a concatenation of follow tables. */
  lemma {:induction false} CountAppend(fs: seq<Follow>, gs: seq<Follow>, p: string, side: Side)
    ensures AcceptedCount(fs + gs, p, side) == AcceptedCount(fs, p, side) + AcceptedCount(gs, p, side)
    decreases |gs|
  {
    if gs != [] {
      var last := gs[|gs| - 1];
      assert (fs + gs)[..|fs + gs| - 1] == fs + gs[..|gs| - 1];
      CountAppend(fs, gs[..|gs| - 1], p, side);
    } else {
      assert fs + gs == fs;
    }
  }

  /** A count is positive exactly when an accepted follow has `p` on that side. */
  lemma {:induction false} CountPositive(fs: seq<Follow>, p: string, side: Side)
    ensures AcceptedCount(fs, p, side) > 0 <==> exists i :: 0 <= i < |fs| && Counted(fs[i], p, side)
  {
    if fs != [] {
      var init := fs[..|fs| - 1];
      CountPositive(init, p, side);
      if exists i :: 0 <= i < |init| && Counted(init[i], p, side) {
        var i :| 0 <= i < |init| && Counted(init[i], p, side);
        assert fs[i] == init[i];
      }
      if exists i :: 0 <= i < |fs| && Counted(fs[i], p, side) {
        var i :| 0 <= i < |fs| && Counted(fs[i], p, side);
        if i < |init| {
          assert init[i] == fs[i];
        }
      }
    }
  }

  /** A follow request that is still pending counts for nobody. */
  lemma RequestNotCounted(fs: seq<Follow>, f: Follow, p: string, side: Side)
    requires f.requested
    ensures AcceptedCount(fs + [f], p, side) == AcceptedCount(fs, p, side)
  {
    CountAppend(fs, [f], p, side);
    assert [f][..0] == [];
  }

  /**
   * Accepting a pending request adds one to the follower's following count
   * and to the followed person's followers count, and changes no other count.
   */
  lemma AcceptCounts(fs: seq<Follow>, i: nat, p: string, side: Side)
    requires i < |fs| && fs[i].requested
    ensures AcceptedCount(fs[i := fs[i].(requested := false)], p, side)
      == AcceptedCount(fs, p, side) + (if Party(fs[i], side) == p then 1 else 0)
  {
    var accepted := fs[i].(requested := false);
    var gs := fs[i := accepted];
    assert fs == fs[..i] + [fs[i]] + fs[i + 1..];
    assert gs == fs[..i] + [accepted] + fs[i + 1..];
    CountAppend(fs[..i] + [fs[i]], fs[i + 1..], p, side);
    CountAppend(fs[..i], [fs[i]], p, side);
    CountAppend(fs[..i] + [accepted], fs[i + 1..], p, side);
    CountAppend(fs[..i], [accepted], p, side);
    assert [fs[i]][..0] == [] && [accepted][..0] == [];
  }
}
