/**
 * The configuration the models read from `settings.KEPI`, as one explicit
 * record, together with the parts of the server that are not modelled here
 * and are therefore given as parameters: `find.is_local`, `uri_to_url`, the
 * audience field names and the ACTIVITYPUB_TYPES table.
 */
module Settings {
  import opened Wrappers
  import opened Dicts

  /** A `%`-format template: literal text and named slots such as `%(username)s`. */
  datatype Piece = Lit(text: string) | Slot(key: string)

  type Template = seq<Piece>

  /** The slot names a template uses are all among `keys`. */
  predicate SlotsAmong(t: Template, keys: set<string>)
  {
    forall i :: 0 <= i < |t| ==> t[i].Slot? ==> t[i].key in keys
  }

  /** `template % values` */
  function Fill(t: Template, values: Dict<string>): string
    requires forall i :: 0 <= i < |t| ==> t[i].Slot? ==> HasKey(values, t[i].key)
  {
    if t == [] then ""
    else
      var head := if t[0].Lit? then t[0].text else assert HasKey(values, t[0].key); Lookup(values, t[0].key).value;
      head + Fill(t[1..], values)
  }

  /** The entry of ACTIVITYPUB_TYPES for one type name: `class` is absent for abstract types. */
  datatype TypeInfo = TypeInfo(cls: Option<string>)

  datatype Config = Config(
    hostname: string,                   // LOCAL_OBJECT_HOSTNAME
    activityUrlFormat: Template,        // ACTIVITY_URL_FORMAT, slot "number"
    userUrlFormat: Template,            // USER_URL_FORMAT, slots "username" and "hostname"
    collectionUrl: Template,            // COLLECTION_URL, slots "hostname", "username", "listname"
    sharedInbox: Option<Template>,      // SHARED_INBOX when configured, slot "hostname"
    userLink: Template,                 // USER_LINK of the Mastodon-style API, slot "username"
    audienceNames: set<string>,         // the keys of AUDIENCE_FIELD_NAMES
    types: Dict<TypeInfo>,              // ACTIVITYPUB_TYPES
    isLocalUrl: string -> bool,         // django_kepi.find.is_local
    uriToUrl: string -> string          // bowler_pub.utils.uri_to_url
  )
  {
    /** Every template names only the slots the code supplies for it. */
    predicate Valid()
    {
      && SlotsAmong(activityUrlFormat, {"number"})
      && SlotsAmong(userUrlFormat, {"username", "hostname"})
      && SlotsAmong(collectionUrl, {"hostname", "username", "listname"})
      && (sharedInbox.Some? ==> SlotsAmong(sharedInbox.value, {"hostname"}))
      && SlotsAmong(userLink, {"username"})
    }
  }

  /** ACTIVITY_URL_FORMAT % (number,) */
  function ActivityUrl(cfg: Config, number: string): string
    requires cfg.Valid()
  {
    Fill(cfg.activityUrlFormat, [("number", number)])
  }

  /** USER_URL_FORMAT % {'username': ..., 'hostname': LOCAL_OBJECT_HOSTNAME} */
  function UserUrl(cfg: Config, username: string): string
    requires cfg.Valid()
  {
    var values := [("username", username), ("hostname", cfg.hostname)];
    LookupAt(values, 0); LookupAt(values, 1);
    Fill(cfg.userUrlFormat, values)
  }

  /** COLLECTION_URL % {'hostname': ..., 'username': ..., 'listname': ...} */
  function CollectionUrl(cfg: Config, username: string, listname: string): string
    requires cfg.Valid()
  {
    var values := [("hostname", cfg.hostname), ("username", username), ("listname", listname)];
    LookupAt(values, 0); LookupAt(values, 1); LookupAt(values, 2);
    Fill(cfg.collectionUrl, values)
  }

  /** SHARED_INBOX % {'hostname': ...}, when configured */
  function SharedInboxUrl(cfg: Config): string
    requires cfg.Valid() && cfg.sharedInbox.Some?
  {
    Fill(cfg.sharedInbox.value, [("hostname", cfg.hostname)])
  }

  /** USER_LINK % {'username': ...} */
  function UserLink(cfg: Config, username: string): string
    requires cfg.Valid()
  {
    Fill(cfg.userLink, [("username", username)])
  }
}
