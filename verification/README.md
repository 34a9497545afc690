# A Dafny model of the kepi object store and its neighbours

This project models the core of kepi, an ActivityPub server written on
Django:

- **The generic object store, `Thing`.** Each object is a row with a few
  `f_` core columns, a `remote_url`, an `active` flag and an eight-digit
  hexadecimal `number`. It also has audience fields, and the JSON text
  `other_fields` holds every other field.
- **Reads and writes.** `thing[name]` and `thing[name] = value` resolve a
  name in a fixed order: core column, then audience field, then extension
  map.
- **`activity_form`.** The document that merges the three tiers.
- **`entomb`.** The one-way soft delete.
- **`save`.** It retries with a fresh number when the database raises
  IntegrityError.
- **`send_notifications`.** The side effects of a stored Accept, Follow,
  Reject, Create or Update.
- **The actor overrides of `AcActor`.** The key fields, the collection
  urls, the actor document and key provisioning.
- **The people of the Mastodon-style API.** Default images, host names,
  fetch status codes, the save-time defaults of a local person and the
  follower counts.
- **The object and collection response contract** that the response tests
  pin down. These are ActivityStreams 2.0 Core OrderedCollection documents,
  split into OrderedCollectionPage pages as section 5.2.5 of that
  specification describes.
- **The helpers of the federation tests.** Remote collections, remote user
  documents, signed test messages and local people.
- **The two test models** `ThingUser` and `ThingArticle`.

## Form of the model

- **Pure logic** becomes datatypes and functions with lemmas about them.
  This covers `url`, `__getitem__`, `activity_form`,
  `_normalise_type_for_thing`, the actor document, the person helpers, the
  response documents and the test models.
- **Code that changes state** becomes classes and methods, each proved
  against those functions.
  - `Models.Thing` is a row held in memory: its fields, and whether it was
    ever stored. `Models.Store` is the table of saved rows together with
    the random draws still to come.
  - `Notifications.Engine` holds the store, the follow relation and the
    list of delivered activities.
  - `Persons.LocalPerson` and `Persons.TrilbyUser` are the person row and
    its Django user.
  - `Collections.CreateRemoteCollection` is the loop that registers a
    remote collection's index and pages.

JSON text is modelled concretely:

- `Json.Encode` follows `json.dumps` with its default separators.
- `Json.Decode` is a strict parser.
- Decoding an encoded value gives that value back (`Json.DecodeEncode`).
- Because text is kept as text, the mix of raw and JSON-encoded column
  contents in the source shows up in the model.

Python dicts are association lists in insertion order, since Python dicts
keep that order.

| module | file |
|---|---|
| Wrappers, Text, Dicts, Json | general support: results, strings and numbers, ordered dicts, JSON text |
| Settings | the `KEPI` settings the code reads: url formats, host name, `uri_to_url` |
| Things | the value logic of thing.py |
| Actors | the overrides of actor.py, and dispatch on a row's kind |
| Models | the `Thing` object and the table it is saved in |
| FieldWrites | several writes in a row, as `create` and Update perform them |
| Notifications | `send_notifications` |
| Persons | person.py |
| Collections | the response contract and `create_remote_collection` |
| TestFixtures | things_for_testing/models.py |
| BowlerTests | the other helpers of kepi/bowler_pub/tests/__init__.py |

## Model

| member | source | states |
|---|---|---|
| Models.NumberTextRoundTrip | django_kepi/models/thing.py:21-22 | every draw of `randint(0, 0xffffffff)` formats as eight lower-case hex digits that read back as the draw |
| Models.NumberTextInjective | django_kepi/models/thing.py:21-22 | distinct draws give distinct row numbers |
| Models.Store.NewNumber | django_kepi/models/thing.py:21-22 | `_new_number` consumes one draw and yields its eight-digit text; the saved rows are unchanged |
| Models.Store.Delete | django_kepi/models/thing.py:28-33 | deleting removes exactly the row with that number and keeps the table keyed by number |
| Things.NewState | django_kepi/models/thing.py:28-62 | a new row has exactly its class's columns, is active, is not remote and has empty `other_fields` |
| Models.Thing.constructor | django_kepi/models/thing.py:28-62 | a new object holds the model defaults and is not yet stored |
| Things.ThingUrl | django_kepi/models/thing.py:64-73 | `url` (and `id`) is `remote_url` when set, otherwise the activity url format filled with the number |
| Things.Normalise | django_kepi/models/thing.py:483-502 | None, strings, dicts, booleans and lists pass through unchanged; a Thing becomes its url; the result is never an integer |
| Things.NormaliseIdempotent | django_kepi/models/thing.py:483-502 | normalising a normalised value changes nothing |
| Things.PlainName | django_kepi/models/thing.py:179-180 | a name without `__` is its own field name and carries no flags |
| Things.ReadColumn | django_kepi/models/thing.py:182-187 | a core column reads as None when NULL; as its raw text with `__raw` or when empty; otherwise decoded, or a decode error |
| Things.ExtensionMap | django_kepi/models/thing.py:197-207 | empty `other_fields` is the empty map; otherwise the map is what the text decodes to, and text that is not JSON is a decode error |
| Things.ThingGet | django_kepi/models/thing.py:175-218 | a read takes the core column first, then the audience field, then the extension map; an unknown name reads as None |
| Things.ThingSet | django_kepi/models/thing.py:220-252 | a core column stores the JSON text of the normalised value; an audience field gains its URIs; any other name is put into the extension map and re-encoded |
| Things.Extensions | django_kepi/models/thing.py:245-252 | the extension map of a row whose `other_fields` load is a valid JSON object |
| Things.ExtensionsOfEncoded | django_kepi/models/thing.py:245-252 | text the setter writes for a map loads back as that map |
| Things.GetAfterSet | django_kepi/models/thing.py:182-187 | writing a core or extension name and reading it back gives the normalised value |
| Things.GetRawAfterSet | django_kepi/models/thing.py:182-187 | with `__raw`, a core column reads back as the JSON text the setter stored |
| Things.SetExtensionOnly | django_kepi/models/thing.py:244-252 | writing an extension field changes that key of the map only, and leaves the core columns and audiences alone |
| Things.SetTwice | django_kepi/models/thing.py:220-252 | two writes to the same core or extension name: the last one wins |
| Things.SetKeepsCoreOutOfExtensions | django_kepi/models/thing.py:230-252 | the setter never puts a core column's name into the extension map |
| Things.ContainsAbsent | django_kepi/models/thing.py:168-173 | a name the row knows nothing about is nevertheless `in` it, and reads as None |
| Things.ThingForm | django_kepi/models/thing.py:140-166 | `activity_form` fails exactly when `dict.update` cannot take what `other_fields` loads as, with that error; whenever the setter can load the column, the document exists |
| Things.UpdatePairs | django_kepi/models/thing.py:161-162 | a loaded list is taken element by element, in order: it is accepted exactly when every element unpacks into a key and a value, gives one pair per element, and otherwise fails with the first bad element's error |
| Things.UpdatePair | django_kepi/models/thing.py:161-162 | an element unpacks only when it is a list, string or object; a list or string of other than two parts is a ValueError; a two-element list with a string key gives that key and value, a two-character string its two characters |
| Things.FormExtensions | django_kepi/models/thing.py:161-162 | what `update` adds agrees with the setter's reading whenever that reading is an object; text that does not load is a JSON decode error; a loaded list is taken pair by pair; a loaded string adds nothing when empty and is otherwise a ValueError |
| Things.ThingFormLookup | django_kepi/models/thing.py:140-166 | in the document, audiences override extension fields, which override non-NULL core columns (empty text as None), which override the starting id and type |
| Things.Entombed | django_kepi/models/thing.py:446-471 | corrected entomb: a row already of type Tombstone is left alone; a remote row is a ValueError; otherwise the type becomes Tombstone, the row becomes inactive and `former_type` is the only extension field |
| Things.EntombIdempotent | django_kepi/models/thing.py:449-451 | entombing twice is entombing once |
| Things.EntombRemote | django_kepi/models/thing.py:453-455 | a row that is not yet a tombstone can be entombed exactly when it is local; a remote one is a ValueError |
| Things.EntombResult | django_kepi/models/thing.py:457-468 | after entombing, the type reads as Tombstone, the row is inactive, the number and remote url are kept, and the extension map is exactly `former_type` = the previous type |
| Things.EntombStepAsWritten | django_kepi/models/thing.py:446-462 | entomb as written: the raw type text is compared and overwritten, `active` is set, and the run ends in NameError; an already-entombed row is left as it is |
| Things.EntombMissesStoredTombstone | django_kepi/models/thing.py:449 | a row whose type was set to Tombstone through the setter is not recognised by the raw comparison, and entomb goes on to fail |
| Things.EntombWritesUnreadableType | django_kepi/models/thing.py:459 | after the raw write, reading `type` is a decode error, and `'type' in thing` is False |
| Things.EntombActivatesAndFails | django_kepi/models/thing.py:460-462 | as written, entomb leaves the row active and always ends in NameError |
| Models.Thing.Entomb | django_kepi/models/thing.py:446-471 | the object becomes the corrected entombed row and is saved; a tombstone is left untouched; a remote row fails with nothing saved |
| Models.Thing.EntombAsWritten | django_kepi/models/thing.py:446-462 | the object takes the as-written in-memory changes and the method returns NameError before any save |
| Models.Thing.Save | django_kepi/models/thing.py:473-479 | corrected save, saving a new object as an INSERT: on success the row is stored under a number no other row held (a fresh eight-digit number after a clash), so no stored row is lost; a remote_url clash is reported as IntegrityError with the table unchanged |
| Models.Thing.SaveAsWritten | django_kepi/models/thing.py:473-479 | save as written, on the UPDATE-first `save()` of Django 2.1: without a remote_url clash it succeeds under its own number, overwriting any row that holds that number; a remote_url clash is retried with fresh numbers until the draws run out, and only entropy exhaustion is an error |
| Models.OverwriteDropsRow | django_kepi/models/thing.py:27-32 | storing a row under a number another row holds leaves the table the same size, and the row that held the number is stored nowhere |
| Models.Thing.SetItem | django_kepi/models/thing.py:220-259 | the object changes as the setter says; writing `tag`, or an actor's key, saves it at once; a failed write changes nothing; a failed save keeps the new state in memory only, with the table unchanged, and for a stored row it fails exactly when another row holds its remote url (IntegrityError) |
| Models.Thing.AfterCreate | django_kepi/models/actor.py:83-95 | the object takes the state `_after_create` computes |
| Models.Thing.Loaded | django_kepi/models/thing.py:26-62 | an object loaded from a saved row holds that row and counts as stored |
| FieldWrites.SetAll | django_kepi/models/thing.py:423-427 | successive writes keep the number, the remote url and the row's kind |
| FieldWrites.SetKeepsRead | django_kepi/models/thing.py:220-252 | a write to an ordinary row succeeds, keeps `other_fields` loadable, and leaves every other plain name reading as before |
| FieldWrites.SetAllKeepsRead | django_kepi/models/thing.py:423-427 | writes to other names keep a name's reading |
| FieldWrites.SetAllReads | django_kepi/models/thing.py:423-427 | after the writes of a dict of fields, each core or extension name among them reads back as its normalised value |
| Json.DecodeEncode | django_kepi/models/thing.py:187 | the text `json.dumps` writes for a valid value is read back by `json.loads` as that value |
| Json.DecodeEncodeSorted | django_kepi/models/actor.py:128-133 | the text written with `sort_keys=True` reads back as the value with its keys sorted |
| Json.PyEqRefl | django_kepi/models/thing.py:410 | Python's `==` on a value of the shape Python builds holds of the value and itself |
| Json.PyEqSym | django_kepi/models/thing.py:410 | Python's `==` on these values is symmetric, so `existing['attributedTo'] != self['actor']` does not depend on the side each value is on |
| Json.PyEqKeyOrder | django_kepi/models/thing.py:410 | Python's `==` ignores key order (two objects listing the same members in a different order are equal though not identical) and takes True as equal to 1 |
| Actors.ActorUrl | django_kepi/models/actor.py:73-81 | a local actor's url is the user url filled with its preferred username; a remote actor's is its remote url |
| Actors.KeyName | django_kepi/models/actor.py:108-113 | `key_name` is a main-key id whose owner is the actor's url |
| Actors.ShortId | django_kepi/models/actor.py:66-71 | a local actor's short id is `@` plus its username; for a remote actor the undefined `__super__` raises NameError |
| Actors.ActorGet | django_kepi/models/actor.py:137-156 | a local actor answers the four collection names with their list urls, and its private key from its own field; publicKey is None when the column is empty, otherwise the decoded column, and a JSON decode error exactly when the column does not decode; every other name, of any actor, is the Thing read |
| Actors.ActorStr | django_kepi/models/actor.py:97-106 | the display string is the actor's id in parentheses, then `@` and the username for a local actor, or `[remote user]` |
| Actors.ActorSet | django_kepi/models/actor.py:122-135 | publicKey is stored as sorted-key JSON (a non-JSON value is a TypeError); a string or None privateKey is stored as given and nothing else changes, any other privateKey is a TypeError; other names go to the Thing setter |
| Actors.PublicKeyRoundTrip | django_kepi/models/actor.py:128-133 | setting publicKey and reading it back gives the value with sorted keys |
| Actors.PrivateKeyRoundTrip | django_kepi/models/actor.py:123-127 | a local actor's private key reads back as it was set |
| Actors.Endpoints | django_kepi/models/actor.py:175-180 | `endpoints.sharedInbox` is present exactly when a shared inbox format is configured |
| Actors.ActorForm | django_kepi/models/actor.py:158-204 | the actor document exists exactly when the inherited Thing document does |
| Actors.ActorFormLookup | django_kepi/models/actor.py:158-204 | the additions win; a stored public key becomes `{id: key name, owner: url, publicKeyPem: stored value}`; an absent one stays absent; every other key is the inherited document's |
| Actors.ActorFormAddition | django_kepi/models/actor.py:169-202 | each addition appears in the document with its value |
| Actors.ActorFormLists | django_kepi/models/actor.py:169-173 | the document carries the four collection urls, `url`, and `name` = preferred username |
| Actors.ActorFormFixed | django_kepi/models/actor.py:182-202 | the document carries summary `(Kepi user)`, empty tags and attachment, and Image-typed default icon and header |
| Actors.AfterCreate | django_kepi/models/actor.py:83-95 | only a local actor with neither key gets the generated pair; all other state is kept |
| Actors.AfterCreateIdempotent | django_kepi/models/actor.py:83-95 | existing keys are never replaced, so provisioning twice is provisioning once |
| Actors.ProvisionedKeyUnreadable | django_kepi/models/actor.py:83-95 | the PEM text `_after_create` stores cannot be read back through `publicKey`, which expects JSON (lines 145-154) |
| Notifications.ActivityType | django_kepi/models/thing.py:271 | the dispatch type is the decoded type column; an empty column is a decode error |
| Notifications.ActivityTypeAfterSet | django_kepi/models/thing.py:271 | what `thing['type'] = j` stores is what the dispatch reads |
| Notifications.Find | django_kepi/models/thing.py:290-291 | `find` returns a stored row whose url is the reference, local when asked for, or None when no row matches |
| Notifications.FindStored | django_kepi/models/thing.py:401-402 | a row that `find` returns is stored under its own number |
| Notifications.Referenced | django_kepi/models/thing.py:214-216 | the `__obj` flag reads the field, then finds the local row it names |
| Notifications.Engine.Answer | django_kepi/models/thing.py:273-286 | corrected (the `following` call made through a bound name): Accept and Reject: an object that is not a Follow is ignored and a missing object is a TypeError; otherwise the follow from the Follow's actor to this actor is accepted (or, for Reject, removed), and nothing is delivered |
| Notifications.Engine.Follow | django_kepi/models/thing.py:288-317 | corrected (the `following` calls made through a bound name): a Follow of a local auto-follow actor is accepted, and exactly one new Accept row, by the followed party with the Follow's url as its object, is created and delivered; this succeeds whenever `create` can make that row, and otherwise fails with `create`'s error, delivering nothing; an unknown follower of such an actor is an AttributeError; any other Follow is recorded as a request; a followed row that is not an actor is an AttributeError |
| Notifications.AnswerAsWritten | django_kepi/models/thing.py:273-286 | as written, Accept and Reject never succeed except by ignoring a non-Follow object: a Follow object ends in NameError |
| Notifications.AnswerAsWrittenDiverges | django_kepi/models/thing.py:283-286 | wherever the corrected branch accepts or rejects a follow, the branch as written raises NameError; elsewhere the two agree |
| Notifications.FollowAsWritten | django_kepi/models/thing.py:288-317 | as written, every Follow fails: AttributeError for a followed row that is not an actor, NameError otherwise, so no Accept is created or delivered |
| Notifications.FollowAsWrittenDiverges | django_kepi/models/thing.py:296-317 | wherever the corrected branch records a follow or delivers an Accept, the branch as written raises NameError; elsewhere the two agree |
| Notifications.AcceptReadsBack | django_kepi/models/thing.py:302-311 | the automatic Accept reads back with type Accept, the followed party as actor and the Follow's url as object |
| Notifications.AcceptFieldsShape | django_kepi/models/thing.py:302-311 | the Accept's fields are distinct and valid, and hold type, actor and object |
| Notifications.ReadsBack | django_kepi/models/thing.py:302-311 | three named fields written to a new row read back as written |
| Notifications.Engine.Create | django_kepi/models/thing.py:386-390 | `create` stores a new ordinary row under a number no row had, holding the fields written in order; it succeeds whenever a draw is left, the first one is free and the writes succeed; it fails only with the writes' error or entropy exhaustion, and then the table is unchanged |
| Notifications.Prefixed | django_kepi/models/thing.py:338-339 | prefixing keeps one entry per field |
| Notifications.LookupKwargs | django_kepi/models/thing.py:338-339 | each field `create` writes is the `f_` argument of that name |
| Notifications.CreateCheck | django_kepi/models/thing.py:341-371 | a Create goes ahead exactly when its object has a known, concrete, non-activity type; a missing type refuses it; a list or dict type is a TypeError |
| Notifications.CreatePlan | django_kepi/models/thing.py:334-384 | a non-dict object is an AttributeError; a refused Create yields None; otherwise the fields are the object's, with the attribution set to the Create's actor |
| Notifications.CreationReadsBack | django_kepi/models/thing.py:373-390 | corrected: the created object's attributedTo reads as the Create's actor, and every other field reads as sent |
| Notifications.AttributedFields | django_kepi/models/thing.py:373-381 | the fields written for an object with one more `f_` entry are that entry and the object's own |
| Notifications.KwargsPutUnprefixed | django_kepi/models/thing.py:338-339 | a keyword without the `f_` prefix never reaches the created object |
| Notifications.AttributionIgnoredAsWritten | django_kepi/models/thing.py:373-381 | as written, the unprefixed attribution key is dropped, so the object keeps the attribution its sender chose |
| Notifications.Engine.CreateObject | django_kepi/models/thing.py:334-390 | a refused Create is deleted; otherwise a new row holds the planned fields and the Create's object names it; this succeeds whenever `create` succeeds and the Create can take its object field and be saved; when `create` fails the store and the activity are left alone; when attaching fails afterwards the created row stays stored and the rest of the table is unchanged |
| Notifications.AttachedAfterCreate | django_kepi/models/thing.py:385-389 | once `create` has stored the new row, attaching it gives the Create branch's whole outcome: success naming the new row, or an attach error with only that row added |
| Notifications.Engine.Attach | django_kepi/models/thing.py:388-390 | the Create's object field names the created row, and the Create is saved; the created row is untouched; it fails only when `other_fields` cannot take `object` or another row holds the Create's remote url, and then the table is unchanged |
| Notifications.HasIdMember | django_kepi/models/thing.py:396-399 | `'id' in object` is key membership for a dict, and a TypeError for None, booleans and integers |
| Notifications.IdMember | django_kepi/models/thing.py:396-401 | `object['id']` succeeds exactly on a dict holding an id, and gives that id |
| Notifications.UpdateTarget | django_kepi/models/thing.py:392-417 | an Update is refused when it names no id, names no local row, or names a row attributed to someone other than its actor, compared as Python's `!=` does (key order does not count, True equals 1); otherwise it yields that row and the fields |
| Notifications.UpdateCopies | django_kepi/models/thing.py:419-427 | after an Update, every field it carries (id apart) reads as the value it brought, and every other field reads as before |
| Notifications.Engine.Apply | django_kepi/models/thing.py:423-427 | the loop writes the fields in order except id; only the target's row can change in the table; it succeeds whenever the writes succeed and no other row holds the target's remote url, and otherwise fails with the writes' error or IntegrityError |
| Notifications.Engine.SetStored | django_kepi/models/thing.py:425-427 | one write to a stored object changes only that object's row and keeps its remote url; an error is the write's or an IntegrityError from a remote url clash |
| Notifications.Engine.UpdateObject | django_kepi/models/thing.py:392-433 | a refused Update is deleted; otherwise the target's row becomes the row after the sorted writes; this succeeds whenever the writes succeed and no other row holds the target's remote url; on an error only the target's row may have changed |
| Notifications.Engine.SendNotifications | django_kepi/models/thing.py:266-434 | the decoded type chooses the handler: Accept and Reject do what Answer promises (accepting or removing), Follow what Follow promises, Create what CreateObject promises and Update what UpdateObject promises, each leaving the other parts of the state alone; an undecodable type raises; any other type changes nothing; only a Create changes the activity itself |
| Persons.AvatarNumber | kepi/trilby_api/models/person.py:24-32 | the default avatar number is `id % 10` as Python computes it: within 0..9 and congruent to the id |
| Persons.IconOrDefault | kepi/trilby_api/models/person.py:24-32 | a person's own icon when one is set, otherwise the default avatar numbered `id mod 10` |
| Persons.HeaderOrDefault | kepi/trilby_api/models/person.py:34-39 | a person's own header when one is set, otherwise the single default header |
| Persons.AvatarPathsDistinct | kepi/trilby_api/models/person.py:24-32 | different avatar numbers name different files |
| Persons.DefaultAvatarShared | kepi/trilby_api/models/person.py:24-32 | two people without icons share a default avatar exactly when their ids agree mod 10 |
| Persons.FromCode | kepi/trilby_api/models/person.py:125-134 | a stored integer is read as the status it codes, or as no status when no choice has that code |
| Persons.StatusRoundTrip | kepi/trilby_api/models/person.py:125-134 | every status survives being stored, and the default is pending (code 0) |
| Persons.RemoteStr | kepi/trilby_api/models/person.py:207-213 | the bracketed url, else the acct, else `<empty>` |
| Persons.Hostname | kepi/trilby_api/models/person.py:215-229 | the url's host when there is a url; None with neither url nor acct; an acct without `@` is an IndexError |
| Persons.AcctHostname | kepi/trilby_api/models/person.py:215-229 | `user@host` and `@user@host` both give `host` |
| Persons.Defaulted | kepi/trilby_api/models/person.py:297-311 | an empty display name becomes the username; a fresh key pair is used only when both keys are absent; existing keys are kept |
| Persons.DefaultedStable | kepi/trilby_api/models/person.py:297-311 | saving twice is saving once, and a saved person has a display name (given a username) and a key |
| Persons.TrilbyUser.constructor | kepi/trilby_api/models/person.py:284-287 | a new user row holds the username and is saved |
| Persons.LocalPerson.constructor | kepi/trilby_api/models/person.py:282-295 | a username given to the constructor creates and saves a new user row with it; the person is not yet saved |
| Persons.LocalPerson.Save | kepi/trilby_api/models/person.py:297-311 | the stored row is the defaulted state |
| Persons.LocalPerson.SetUsername | kepi/trilby_api/models/person.py:313-320 | renaming changes and saves the user row only |
| Persons.LocalKeyName | kepi/trilby_api/models/person.py:333-337 | `key_name` is a main-key id owned by the person's url (lines 369-371) |
| Persons.AcceptedCount | kepi/trilby_api/models/person.py:339-357 | a count never exceeds the number of follow rows |
| Persons.CountAppend | kepi/trilby_api/models/person.py:339-357 | counting splits over concatenated follow tables |
| Persons.CountPositive | kepi/trilby_api/models/person.py:339-357 | a count is positive exactly when an accepted follow has the person on that side |
| Persons.RequestNotCounted | kepi/trilby_api/models/person.py:344-347 | a pending request counts for nobody |
| Persons.AcceptCounts | kepi/trilby_api/models/person.py:339-357 | accepting a request adds one to the follower's following count and to the followed person's followers count, and changes no other count |
| Collections.TombstoneActivity | tests/tests_response.py:26-39 | a tombstone's activity has type Tombstone |
| Collections.TombstoneFields | tests/tests_response.py:26-39 | and otherwise keeps its keyword fields |
| Collections.ObjectResponse | tests/tests_response.py:41-84 | no item gives an empty body; a live item gives 200 with its activity; a tombstoned item gives 410 with the tombstone form |
| Collections.Slice | tests/tests_response.py:141-142 | a page holds at most one page's worth of items |
| Collections.PagesPrefix | tests/tests_response.py:149-173 | pages 1 to k hold exactly the first k times size items |
| Collections.PageCountLeast | tests/tests_response.py:153 | the page count is the least k with k times size at least n |
| Collections.AllPages | tests/tests_response.py:149-173 | concatenating every page gives back the items in order |
| Collections.PageSizes | tests/tests_response.py:149-173 | every page but the last is full, and the last is not empty |
| Collections.IndexDocShape | tests/tests_response.py:110-123 | the index has type OrderedCollection, its own id and the count; `first` is present exactly when there is an item, and names page 1 |
| Collections.PageDocShape | tests/tests_response.py:130-173 | a page has its type, url, `partOf` index, the full count, its items' forms in order, `prev` except on page 1, and `next` before the last page |
| Collections.NextTest | tests/tests_response.py:285 | the test `(p-1) < int((n-1)/50)` holds exactly when p < ceil(n/50), for every n including 0 |
| Collections.NextOnPages | tests/tests_response.py:165-173 | on pages 1 to ceil(n/50), `next` is absent exactly on the last, and the test at line 285 agrees with the document |
| Collections.TombstonesInPlace | tests/tests_response.py:175-192 | a tombstoned item is rendered in place, so the page keeps one type per item, in order |
| Collections.RemotePages | kepi/bowler_pub/tests/__init__.py:195-216 | one registration per page |
| Collections.CreateRemoteCollection | kepi/bowler_pub/tests/__init__.py:176-216 | registers the index, then pages 1 to len(items)//n + 1 in order; a zero page size divides by zero after the index is registered |
| Collections.RemoteIndexShape | kepi/bowler_pub/tests/__init__.py:184-193 | the index has the item count and always a `first` link to page 1 |
| Collections.RemotePagesCover | kepi/bowler_pub/tests/__init__.py:195-204 | the served pages, concatenated, are the items |
| Collections.RemoteLastPage | kepi/bowler_pub/tests/__init__.py:195-204 | every page but the last is full; the last is empty exactly when the count is a multiple of the page size |
| Collections.RemoteLinks | kepi/bowler_pub/tests/__init__.py:205-211 | `prev` is present exactly when i > 1 and `next` exactly when i < page_count + 1, and they name those pages |
| TestFixtures.Matching | things_for_testing/models.py:48 | the rows a get considers are stored rows with that key |
| TestFixtures.GetBy | things_for_testing/models.py:48 | `objects.get` returns a stored row with the key, or DoesNotExist / MultipleObjectsReturned |
| TestFixtures.FindBy | things_for_testing/models.py:40-48 | `find_activity` gives None exactly for urls outside the prefix |
| TestFixtures.UserActivity | things_for_testing/models.py:17-32 | a tombstone carrying `original_type` Person exactly for Queen Anne, else the user document |
| TestFixtures.UserDocumentShape | things_for_testing/models.py:23-38 | the document is exactly id (prefix plus name), type Person, name and favourite colour |
| TestFixtures.UserType | things_for_testing/models.py:17-32 | in a page a user reads as Person, or as Tombstone for the magic name |
| TestFixtures.UserRoundTrip | things_for_testing/models.py:34-48 | `find_activity` recovers a stored user from its id, reports DoesNotExist for an unknown name, and gives None for other urls |
| TestFixtures.SerializeShape | things_for_testing/models.py:57-67 | `serialize` is exactly id (`url_identifier`), type Article and title |
| TestFixtures.ArticleRoundTrip | things_for_testing/models.py:64-93 | `find_activity` recovers a stored article from its identifier and ignores other urls |
| TestFixtures.PrefixesDisjoint | things_for_testing/models.py:40-93 | a user id is never found as an article, nor the reverse |
| BowlerTests.RemoteUserFieldsShape | kepi/bowler_pub/tests/__init__.py:330-345 | the base document's fields are distinct, and it holds its id and the key document |
| BowlerTests.RemoteUserShape | kepi/bowler_pub/tests/__init__.py:324-355 | `inbox` is present exactly when an inbox was given, and `endpoints` exactly when a shared inbox was given, each with its value |
| BowlerTests.RemoteKeyOwner | kepi/bowler_pub/tests/__init__.py:330-345 | `publicKey.id` is url + `#main-key`, and its owner is the url |
| BowlerTests.BodyAndHeaders | kepi/bowler_pub/tests/__init__.py:218-263 | the message exists exactly when a key id can be found (given, or the actor as a string) and, when signing, the signed headers carry Authorization; with neither key id nor actor it is a KeyError; its body is the defaulted body and, unsigned, its headers are the three plain ones |
| BowlerTests.BodyLookup | kepi/bowler_pub/tests/__init__.py:224-226 | the body holds Host and `@context`, each `f_` field without its prefix, and the default id exactly when none was given (lines 258-259) |
| BowlerTests.DefaultKeyId | kepi/bowler_pub/tests/__init__.py:234-237 | without a key id, it is the actor plus `#main-key` |
| BowlerTests.GivenKeyId | kepi/bowler_pub/tests/__init__.py:234-237 | a given key id is used as is |
| BowlerTests.SignatureHeader | kepi/bowler_pub/tests/__init__.py:254-256 | the Signature header is the Authorization value without its leading `Signature ` |
| BowlerTests.DefaultKeys | kepi/bowler_pub/tests/__init__.py:52-59 | corrected: given keys are kept; only missing ones come from the key file, and the file matters only when a key is missing |
| BowlerTests.DefaultKeysAlwaysReadsFile | kepi/bowler_pub/tests/__init__.py:52 | as written, the key file is read even when both keys are given, so its absence fails a call the corrected version answers |
| BowlerTests.CreateLocalPerson | kepi/bowler_pub/tests/__init__.py:48-67 | corrected: a fresh person with the defaulted keys is made and saved; a missing key file fails only when a key is missing, so a call that gives both keys always succeeds |
| BowlerTests.CreateLocalPersonAsWritten | kepi/bowler_pub/tests/__init__.py:48-67 | as written: the call fails with FileNotFoundError exactly when the key file is missing, whatever keys were given; otherwise the person with the keys defaulted from the file is made and saved |
| BowlerTests.CreatedKeys | kepi/bowler_pub/tests/__init__.py:52-65 | the created person keeps a given key |

## Left out

- **The Django ORM, querysets and polymorphic dispatch.** The table of
  rows is an ordered map from number to row. Each row records its kind:
  plain Thing or actor.
- **`find`, `create`, `deliver`, `Audience`, `Mention` and `following.*`**
  are code outside the modelled files. They are modelled as in-memory
  operations, with the contract that their call sites rely on.
  - `find` looks a url up among the stored rows and never fetches remote
    objects.
  - `create` always makes an ordinary Thing.
  - `deliver` appends the activity's number to a list.
  - The follow relation is a map from (follower, followed) to requested or
    accepted.
- **Tag-to-Mention indexing** in `__setitem__` is a database side effect
  into code outside this model. Only the save that writing `tag` causes is
  modelled.
- **The save `__setitem__` makes before adding audiences to an unsaved
  row** is not modelled. Audience rows are part of the row's state here,
  so no foreign key is needed.
- **Crypto.**
  - The key pair `crypto.Key()` generates is a parameter.
  - The HTTP signing of `httpsig` is the `Signer` parameter of the test
    message.
- **`urlparse(...).netloc`, `uri_to_url` and the `is_local` of `find`**
  are library or outside code. They are parameters of the settings record
  or of the function that uses them.
- **Randomness.** The draws of `random.randint` are a sequence held by the
  store. When they run out the result is `EntropyExhausted`. Python would
  instead go on drawing, or reach its recursion limit in `save`.
- **JSON.**
  - There are no floating-point numbers.
  - Apart from the short escapes (`\n`, `\t` and the like), only control
    characters below U+0020 are written as `\uXXXX`.
    `json.dumps` also escapes DEL and every non-ASCII character
    (`ensure_ascii`), which the model writes as it is. The difference
    shows in the stored text of `other_fields`, of a core column, of
    publicKey, and in what a `__raw` read returns; every decoded reading
    is the same.
  - Only the JSON values that the code under model produces are modelled.
  - A value that `json.dumps` cannot encode is modelled by the `Other`
    case of a written value.
- **The `CollectionResponse` and `ActivityObjectResponse` classes** are not
  part of this model. The contract their tests pin down is modelled
  instead, as pure functions from items and page number to documents.
  - `Collections.ObjectResponse` keeps only the status and the decoded
    body.
- **Test plumbing of the federation tests.**
  - `httpretty` registration becomes a list of (url, document) pairs.
  - `as_json` returns the document itself.
  - The key-file read of `create_local_person` is an optional key-pair
    parameter.
  - `Collections.CreateRemoteCollection` takes the page size as a
    natural number, so a negative page size is not modelled.
- **Members not modelled.**
  - `Thing.pretty` and `Thing.__str__`: display strings.
  - `test_message` (kepi/bowler_pub/tests/__init__.py:265-283) wraps the
    result of `test_message_body_and_headers` in an `IncomingMessage`,
    whose class is not part of this model; `BowlerTests.BodyAndHeaders`
    models the latter only.
  - `statuses_count`, `LocalPerson.acct`, `LocalPerson.__str__` and
    `register_type`: thin queries, or registration into outside code.
- **Logging** throughout.
- **The `kepi-show` command, url routing, migrations and the
  REST-level tests** hold no logic of the modelled core.
- Actors.ActorUrl: a remote actor's url is taken to be its remote url.
  The base class `acobject.AcObject`, which defines `id`, is not part of
  this model; were its `id` that of Thing (thing.py:71-73, `id` is `url`),
  the remote branch at actor.py:80-81 would recurse without end.
  `KeyName`, `ActorStr` and the actor document inherit this assumption.
- Actors.ActorSet: a privateKey that is neither a string nor None is a
  TypeError here. Django keeps any assigned value on the object and stores
  its `str()` text; Python's `str()` of other values is not modelled.
- Notifications.Kwargs: `create` is taken to write only its `f_`-prefixed
  keywords as fields and to drop the others. django_kepi/create.py is not
  part of this model, and chapeau/tests/mastodon/test_like.py:23 passes
  unprefixed names to it, so `create` may accept those too.
- Notifications.AcceptReadsBack: proves that type, actor and object of the
  automatic Accept read back; the `to` field is written but its read-back
  is not proved.
- Models.Thing.Save: saves a new object as an INSERT, as Django 3.0 and
  later do for a primary key with a default (or `force_insert=True`), so a
  number clash is an error it can retry. Under Django 2.1 the same call
  UPDATEs the row holding that number; `SaveAsWritten` models that.
- Models.Thing.SaveAsWritten: ends in `EntropyExhausted` where Python
  would recurse until it hits the recursion limit.
- Things.UpdatePair: an element of a loaded list whose key would be a
  number, a boolean or None is a TypeError here. Python's `dict.update`
  accepts such keys, but the activity document is keyed by strings only.
  A two-key object element gives its second key as a string value, as
  Python does.

## Findings

| source | as written | input that shows it | evidently intended | confidence | as-written member | corrected member |
|---|---|---|---|---|---|---|
| django_kepi/models/thing.py:449,459 | `entomb` compares and writes `f_type` raw, but the setter stores it JSON-encoded and every reader decodes it | a local row whose type was set to `Tombstone` through `thing['type']` (stored as `"Tombstone"` with quotes) | a row already a tombstone is left alone, and the type written is readable | not executed | Things.EntombMissesStoredTombstone | Things.EntombIdempotent |
| django_kepi/models/thing.py:459 | after the raw write, `thing['type']` raises a decode error and `'type' in thing` is False | any local row that is not yet a tombstone | the type reads back as Tombstone | not executed | Things.EntombWritesUnreadableType | Things.EntombResult |
| django_kepi/models/thing.py:460 | `entomb` sets `active = True` | a local inactive row that is not yet a tombstone | an entombed row is inactive | not executed | Things.EntombActivatesAndFails | Things.Entombed |
| django_kepi/models/thing.py:462-468 | `ThingField` is not defined in the module, so `entomb` raises NameError before saving | any local row that is not yet a tombstone | `former_type` becomes the only extension field and the row is saved | not executed | Models.Thing.EntombAsWritten | Models.Thing.Entomb |
| django_kepi/models/thing.py:477-479 | every IntegrityError is retried with a new number, including a clash on the unique `remote_url` that no new number can cure | saving a new row whose remote_url another row already holds | report the remote_url clash instead of retrying for ever | not executed | Models.Thing.SaveAsWritten | Models.Thing.Save |
| django_kepi/models/thing.py:473-476 | `super().save()` on an object whose primary key `number` is already set first runs an UPDATE under Django 2.1 (the version the migrations were made with), so a new object whose drawn number another row holds overwrites that row: no IntegrityError, no new number (`Models.OverwriteDropsRow` shows the lost row) | a new Thing whose `_new_number` draw equals a stored row's number, with no remote_url clash | a number collision draws a new number and leaves the stored row alone | not executed | Models.Thing.SaveAsWritten | Models.Thing.Save |
| django_kepi/models/thing.py:283,329 | `django_kepi` is never bound as a name in the module, so `django_kepi.models.following.accept` and `.reject` raise NameError | an Accept or Reject whose object is a stored Follow | the follow is accepted, or removed | not executed | Notifications.AnswerAsWritten | Notifications.Engine.Answer |
| django_kepi/models/thing.py:296,314 | the same unbound name in both arms of the Follow branch raises NameError, so the Accept at lines 302-311 is never created or delivered | any Follow of an actor, or of a url no local row has | the follow is accepted (with an Accept delivered) or requested | not executed | Notifications.FollowAsWritten | Notifications.Engine.Follow |
| django_kepi/models/thing.py:373-381 | the attribution is checked and set under `attributedTo`, but the keys passed to `create` are `f_`-prefixed, so the unprefixed key is dropped (given `create` keeps only `f_` keywords, an assumption listed under Left out; `raw_material.get('attributedTo')` at line 373 is None in any case) | a Create by actor A of an object with `attributedTo` B | the created object is attributed to A | not executed | Notifications.AttributionIgnoredAsWritten | Notifications.CreationReadsBack |
| kepi/bowler_pub/tests/__init__.py:52 | `'publicKey' or 'privateKey' not in kwargs` is always true, so the key file is always read | both keys given and no key file present | read the file only when a key is missing | not executed | BowlerTests.DefaultKeysAlwaysReadsFile | BowlerTests.DefaultKeys |
| kepi/bowler_pub/tests/__init__.py:52-53 | `create_local_person` opens the key file before looking at the keys it was given | `create_local_person(publicKey=…, privateKey=…)` with no key file present | a person made with the given keys | not executed | BowlerTests.CreateLocalPersonAsWritten | BowlerTests.CreateLocalPerson |
