/**
 * The test-only models of things_for_testing/models.py: ThingUser and
 * ThingArticle, each with an identifier built from a fixed url prefix, a
 * document, and a `find_activity` that strips the prefix and looks the
 * rest up with `objects.get`. A table is a sequence of rows.
 */
module TestFixtures {
  import opened Wrappers
  import opened Text
  import opened Dicts
  import opened Json
  import opened Collections

  // ------------------------------------------------------------ table gets

  /** The rows whose key is k, in table order. */
  function Matching<T>(rows: seq<T>, key: T -> string, k: string): (m: seq<T>)
    ensures |m| <= |rows|
    ensures forall x :: x in m ==> x in rows && key(x) == k
  {
    if rows == [] then []
    else (if key(rows[0]) == k then [rows[0]] else []) + Matching(rows[1..], key, k)
  }

  /** `objects.get(<key>=k)`: the one matching row, or the exception Django raises. */
  function GetBy<T>(rows: seq<T>, key: T -> string, k: string): (r: Result<T>)
    ensures r.Ok? ==> r.value in rows && key(r.value) == k
    ensures r.Err? ==> r.error == DoesNotExist || r.error == MultipleObjectsReturned
  {
    var m := Matching(rows, key, k);
    if |m| == 0 then Err(DoesNotExist)
    else if |m| > 1 then Err(MultipleObjectsReturned)
    else Ok(m[0])
  }

  /** No two rows share a key. */
  predicate KeysUnique<T>(rows: seq<T>, key: T -> string)
  {
    forall i, j :: 0 <= i < j < |rows| ==> key(rows[i]) != key(rows[j])
  }

  /** With unique keys, a row is the only match for its own key. */
  lemma {:induction false} MatchingUnique<T>(rows: seq<T>, key: T -> string, x: T)
    requires KeysUnique(rows, key) && x in rows
    ensures Matching(rows, key, key(x)) == [x]
  {
    if rows[0] == x {
      MatchingNone(rows[1..], key, key(x));
    } else {
      assert KeysUnique(rows[1..], key) by {
        forall i, j | 0 <= i < j < |rows| - 1
          ensures key(rows[1..][i]) != key(rows[1..][j])
        {
          assert key(rows[i + 1]) != key(rows[j + 1]);
        }
      }
      var n :| 0 <= n < |rows| && rows[n] == x;
      assert rows[1..][n - 1] == x;
      assert key(rows[0]) != key(x);
      MatchingUnique(rows[1..], key, x);
    }
  }

  /** A key no row has matches nothing. */
  lemma {:induction false} MatchingNone<T>(rows: seq<T>, key: T -> string, k: string)
    requires forall i :: 0 <= i < |rows| ==> key(rows[i]) != k
    ensures Matching(rows, key, k) == []
  {
    if rows != [] {
      MatchingNone(rows[1..], key, k);
    }
  }

  /** `find_activity`: None for a url outside the prefix, otherwise a get on the rest of the url. */
  function FindBy<T>(rows: seq<T>, key: T -> string, prefix: string, url: string): (r: Result<Option<T>>)
    ensures !StartsWith(url, prefix) ==> r == Ok(None)
    ensures StartsWith(url, prefix) ==> r != Ok(None)
  {
    if !StartsWith(url, prefix) then Ok(None)
    else
      match GetBy(rows, key, url[|prefix|..])
      case Ok(x) => Ok(Some(x))
      case Err(e) => Err(e)
  }

  /** Finding the url built from a row's key gives back that row. */
  lemma FindByRoundTrip<T>(rows: seq<T>, key: T -> string, prefix: string, x: T)
    requires KeysUnique(rows, key) && x in rows
    ensures FindBy(rows, key, prefix, prefix + key(x)) == Ok(Some(x))
  {
    assert (prefix + key(x))[|prefix|..] == key(x);
    MatchingUnique(rows, key, x);
  }

  /** Finding the url of a key no row has fails with DoesNotExist. */
  lemma FindByMissing<T>(rows: seq<T>, key: T -> string, prefix: string, k: string)
    requires forall i :: 0 <= i < |rows| ==> key(rows[i]) != k
    ensures FindBy(rows, key, prefix, prefix + k) == Err(DoesNotExist)
  {
    assert (prefix + k)[|prefix|..] == k;
    MatchingNone(rows, key, k);
  }

  // ------------------------------------------------------------- ThingUser

  datatype ThingUser = ThingUser(name: string, favouriteColour: string)

  const DEFAULT_COLOUR := "chartreuse"

  const USER_PREFIX := "https://example.com/user/"

  /** The name that ThingUser.activity treats as deleted. */
  const TOMBSTONED_NAME := "Queen Anne"

  /** ThingUser(name=...): the colour defaults to chartreuse. */
  function NewUser(name: string): ThingUser
  {
    ThingUser(name, DEFAULT_COLOUR)
  }

  function UserName(u: ThingUser): string { u.name }

  /** ThingUser.activity_id */
  function ActivityId(u: ThingUser): string
  {
    USER_PREFIX + u.name
  }

  /** The document ThingUser.activity returns when it does not raise. */
  function UserDocument(u: ThingUser): Dict<Json>
  {
    [("id", JStr(ActivityId(u))), ("type", JStr("Person")), ("name", JStr(u.name)),
     ("favourite_colour", JStr(u.favouriteColour))]
  }

  /** ThingUser.activity: one magic name raises a tombstone carrying the original type. */
  function UserActivity(u: ThingUser): (r: Rendering)
    ensures r.Tombstoned? <==> u.name == TOMBSTONED_NAME
    ensures r.Tombstoned? ==> r.fields == [("original_type", JStr("Person"))]
    ensures r.Live? ==> r.activity == UserDocument(u)
  {
    if u.name == TOMBSTONED_NAME then Tombstoned([("original_type", JStr("Person"))])
    else Live(UserDocument(u))
  }

  /** The user document is a dict holding exactly id, type Person, name and colour. */
  lemma UserDocumentShape(u: ThingUser)
    ensures var d := UserDocument(u);
      && Distinct(d) && Keys(d) == ["id", "type", "name", "favourite_colour"]
      && Lookup(d, "id") == Some(JStr(ActivityId(u)))
      && Lookup(d, "type") == Some(JStr("Person"))
      && Lookup(d, "name") == Some(JStr(u.name))
      && Lookup(d, "favourite_colour") == Some(JStr(u.favouriteColour))
  {
    var d := UserDocument(u);
    DistinctFromIndices(d);
    LookupIndex(d, 0);
    LookupIndex(d, 1);
    LookupIndex(d, 2);
    LookupIndex(d, 3);
    KeysIndex(d);
  }

  /** In a collection page a user reads as a Person, or as a Tombstone in its place. */
  lemma UserType(u: ThingUser)
    ensures TypeOf(UserActivity(u)) == Some(JStr(if u.name == TOMBSTONED_NAME then "Tombstone" else "Person"))
  {
    if u.name != TOMBSTONED_NAME {
      UserDocumentShape(u);
    }
  }

  /** ThingUser.find_activity */
  function FindUser(rows: seq<ThingUser>, url: string): Result<Option<ThingUser>>
  {
    FindBy(rows, UserName, USER_PREFIX, url)
  }

  /**
   * find_activity inverts activity_id: it recovers a stored user from its
   * id, reports DoesNotExist for an unknown name, and ignores other hosts.
   */
  lemma UserRoundTrip(rows: seq<ThingUser>, u: ThingUser, url: string)
    requires KeysUnique(rows, UserName)
    ensures u in rows ==> FindUser(rows, ActivityId(u)) == Ok(Some(u))
    ensures (forall i :: 0 <= i < |rows| ==> rows[i].name != u.name) ==> FindUser(rows, ActivityId(u)) == Err(DoesNotExist)
    ensures !StartsWith(url, USER_PREFIX) ==> FindUser(rows, url) == Ok(None)
  {
    if u in rows {
      FindByRoundTrip(rows, UserName, USER_PREFIX, u);
    }
    if forall i :: 0 <= i < |rows| ==> rows[i].name != u.name {
      FindByMissing(rows, UserName, USER_PREFIX, u.name);
    }
  }

  // ----------------------------------------------------------- ThingArticle

  datatype ThingArticle = ThingArticle(title: string)

  const ARTICLE_PREFIX := "https://articles.example.com/"

  function Title(a: ThingArticle): string { a.title }

  /** ThingArticle.url_identifier */
  function UrlIdentifier(a: ThingArticle): string
  {
    ARTICLE_PREFIX + a.title
  }

  /** ThingArticle.serialize */
  function Serialize(a: ThingArticle): Dict<Json>
  {
    [("id", JStr(UrlIdentifier(a))), ("type", JStr("Article")), ("title", JStr(a.title))]
  }

  /** The serialized article is a dict holding exactly its id, type Article and title. */
  lemma SerializeShape(a: ThingArticle)
    ensures var d := Serialize(a);
      && Distinct(d) && Keys(d) == ["id", "type", "title"]
      && Lookup(d, "id") == Some(JStr(UrlIdentifier(a)))
      && Lookup(d, "type") == Some(JStr("Article"))
      && Lookup(d, "title") == Some(JStr(a.title))
  {
    var d := Serialize(a);
    DistinctFromIndices(d);
    LookupIndex(d, 0);
    LookupIndex(d, 1);
    LookupIndex(d, 2);
    KeysIndex(d);
  }

  /** ThingArticle.find_activity */
  function FindArticle(rows: seq<ThingArticle>, url: string): Result<Option<ThingArticle>>
  {
    FindBy(rows, Title, ARTICLE_PREFIX, url)
  }

  /** find_activity inverts url_identifier and ignores urls outside the article prefix. */
  lemma ArticleRoundTrip(rows: seq<ThingArticle>, a: ThingArticle, url: string)
    requires KeysUnique(rows, Title)
    ensures a in rows ==> FindArticle(rows, UrlIdentifier(a)) == Ok(Some(a))
    ensures (forall i :: 0 <= i < |rows| ==> rows[i].title != a.title) ==> FindArticle(rows, UrlIdentifier(a)) == Err(DoesNotExist)
    ensures !StartsWith(url, ARTICLE_PREFIX) ==> FindArticle(rows, url) == Ok(None)
  {
    if a in rows {
      FindByRoundTrip(rows, Title, ARTICLE_PREFIX, a);
    }
    if forall i :: 0 <= i < |rows| ==> rows[i].title != a.title {
      FindByMissing(rows, Title, ARTICLE_PREFIX, a.title);
    }
  }

  /** The two prefixes are disjoint: a user id is never found as an article, nor the reverse. */
  lemma PrefixesDisjoint(u: ThingUser, a: ThingArticle, users: seq<ThingUser>, articles: seq<ThingArticle>)
    ensures FindArticle(articles, ActivityId(u)) == Ok(None)
    ensures FindUser(users, UrlIdentifier(a)) == Ok(None)
  {
    assert ActivityId(u)[8] != ARTICLE_PREFIX[8];
    assert UrlIdentifier(a)[8] != USER_PREFIX[8];
  }
}
