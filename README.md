# Brightcove Player reconciliation and video search, in Dafny

This project models two parts of the Brightcove integration module for Drupal.

**The Brightcove Player entity** (`player.dfy`, module `BrightcovePlayer`).
A remote Brightcove Player is a `RemotePlayer`: its id, name, creation time,
the master branch's update time, the configuration's playlist flag and
template version, and the optional studio configuration's player settings
(`StudioPlayer`). A stored entity is a `PlayerRecord`: Brightcove id, owning
API client, created and changed times, name, playlist, version, and the five
secondary fields `adjusted`, `height`, `width`, `units` and `responsive`. Each
secondary field is an `Option`, and `None` is NULL, the "unset" value.

The entity storage is the class `Storage`. It holds:
- `records`: the records by entity id;
- `nextId`: the id the next new entity receives;
- `saved`: the log of the entity ids passed to `save`.

A loaded entity is a copy of its record. Setters are record updates on that
copy, and `save` writes the copy back.

`Storage.CreateOrUpdate` reconciles one remote player. It returns the outcome
(`Created`, `Updated` or `Skipped`, with the entity id) or the error
`MissingApiClientId`. Its contract ties the new store to two specification
functions:
- `NewRecord` gives the record a first reconciliation creates;
- `Refreshed` gives the record an update writes.

Both functions state what the code promises: which values are copied, that
the identity fields stay fixed, and how the studio configuration is applied
or cleared. The store-wide guarantees are ensures of `CreateOrUpdate`:
- records are never removed;
- Brightcove id, API client and creation time never change;
- changed times never decrease;
- unique Brightcove ids stay unique.

`ReconcileTwice` shows that a second reconciliation of the same remote player
writes nothing when no two records share a Brightcove id, which
`CreateOrUpdate` keeps true. When several records share one, the second call
may pick another of them, still older than the remote player, and update it. `GetList` and `LoadByPlayerId` are the read-only queries.

**The video keyword search** (`video_search.dfy`, module `BrightcoveVideoSearch`).
This part covers:
- the access check;
- the LIKE pattern made from the escaped keywords (`CollapseStars`, `LikePattern`);
- the status filter made from the user's two permissions;
- the conditions of the video query;
- `prepareResults` and `execute`.

`CollapseStars` has its own characterisation, proved by induction:
- no `*` is left (`CollapseRemovesStars`);
- text without `*` is unchanged (`CollapseWithoutStars`);
- collapsing distributes over a split after a literal character (`CollapseAppend`);
- each maximal run of `*` becomes exactly one `%` (`CollapseRun`).

`wrappers.dfy` holds the `Option` and `Result` datatypes.

Points of the code's behaviour that the model keeps:
- The code saves the entity whenever the remote player is newer, even when no
  field value differs.
- When several entities share a Brightcove id, the code takes the first query
  result and reports no integrity error.
- A player created without studio configuration gets the schema defaults
  `units = 'px'` and `responsive = FALSE`, and NULL for the other three. So
  its secondary fields are neither all present nor all unset. A later update
  from a remote player still without studio configuration sets all five to
  NULL. `CreatedDefaultsClearedOnUpdate` states this.
- Each "set it if it differs" step uses PHP's loose `!=`. A stored NULL is
  loosely equal to FALSE, 0.0 and `''`, so a NULL secondary field stays NULL
  when the studio value is one of those. `LooselyEqual` and `SetIfDiffers`
  model this comparison, and `FalsyStudioValuesLeaveNull` shows it on a
  created record.

## Model

| member | source | states |
|---|---|---|
| `BrightcovePlayer.NewRecord` | src/Entity/BrightcovePlayer.php:335-369 | A created record has the remote id, the given API client, the remote creation time, name, playlist and version, and changed = the master update time (so it is not stale). With studio configuration, the five secondary fields hold its values. Without it, adjusted/height/width are unset and units/responsive hold the schema defaults 'px'/FALSE. |
| `BrightcovePlayer.SetIfDiffers` | src/Entity/BrightcovePlayer.php:287-315 | After "set if it differs" under PHP's loose `!=`, the field loosely equals the value. It is untouched when it already did. A present field holds exactly the value. It is NULL iff it was NULL and the value is loosely NULL (FALSE, 0.0 or ''). |
| `BrightcovePlayer.Refreshed` | src/Entity/BrightcovePlayer.php:268-369 | An update keeps Brightcove id, API client and creation time, and takes name, playlist, version and changed from the remote player. A stale record's changed time strictly increases. With studio configuration, every secondary field loosely equals the studio value, a field that already did is unchanged, and a present field takes the studio value, so a fully present record gets exactly the studio values. Without it all five become NULL whatever they held before. |
| `BrightcovePlayer.RefreshedIdempotent` | src/Entity/BrightcovePlayer.php:268-369 | Applying the same remote player to an already refreshed record changes nothing. |
| `BrightcovePlayer.FalsyStudioValuesLeaveNull` | src/Entity/BrightcovePlayer.php:287-315 | A record created without studio configuration, updated from a studio configuration with adjusted FALSE and height and width 0.0, keeps those three NULL, while units and responsive take the studio values. |
| `BrightcovePlayer.CreatedDefaultsClearedOnUpdate` | src/Entity/BrightcovePlayer.php:317-324 | A record created without studio configuration holds 'px' and FALSE. A newer remote player, also without it, makes that record stale, and updating it sets all five secondary fields to NULL. |
| `BrightcovePlayer.QueriesAfterCreate` | src/Entity/BrightcovePlayer.php:250-252 | Storing a record under a new id adds that id to the player_id query of its own Brightcove id and to the api_client query of its own client (the query of getList, lines 419-421), and changes no other query result. |
| `BrightcovePlayer.QueriesAfterUpdate` | src/Entity/BrightcovePlayer.php:250-252 | Replacing a record by one with the same identity, as an update does, leaves every player_id and api_client query result unchanged (the api_client query is the one at lines 419-421). |
| `BrightcovePlayer.Seed` | src/Entity/BrightcovePlayer.php:403-413 | The starting list holds the default-player key iff entity ids are not used, and then only that entry, labelled as the default player. |
| `BrightcovePlayer.ApplyConfiguration` | src/Entity/BrightcovePlayer.php:271-324 | The field-by-field diff of playlist, version and studio configuration gives exactly the refreshed record, apart from changed time and name, which the save step sets. |
| `BrightcovePlayer.ApplyStudioConfiguration` | src/Entity/BrightcovePlayer.php:283-324 | Only the five secondary fields change. With studio configuration each is set to the studio value where it loosely differs: afterwards each loosely equals the studio value, one that already did is unchanged, and a present one holds the studio value. Without it all five are NULL. |
| `BrightcovePlayer.Storage.CreateOrUpdate` | src/Entity/BrightcovePlayer.php:248-371 | Error iff no record has the remote id and no API client id is given; then nothing is created or saved. Created iff no record matches and an id is given: the new record is `NewRecord`, stored under a fresh id and saved once; it is then the only match of its Brightcove id and appears in its API client's player query. Otherwise some matching record is chosen. It is Updated (replaced by `Refreshed` and saved once, even if no value differed) iff its changed time is strictly older than the remote update time; otherwise Skipped with no change and no save. Records are never removed, identity fields never change, changed times never decrease, and unique Brightcove ids stay unique. |
| `BrightcovePlayer.Storage.SaveNew` | src/Entity/BrightcovePlayer.php:355-369 | Saving a new entity stores it under the next id, which was unused, logs one save, and keeps every other record. The new id joins the player_id and api_client query results of the entity's own Brightcove id and client. |
| `BrightcovePlayer.Storage.Save` | src/Entity/BrightcovePlayer.php:360-369 | Saving a loaded entity replaces its record and logs one save. When identity is kept and changed does not decrease, those facts hold store-wide and Brightcove ids stay unique. When identity is kept, the player_id and api_client query results are unchanged. |
| `BrightcovePlayer.Storage.LoadByPlayerId` | src/Entity/BrightcovePlayer.php:382-387 | NULL iff no record has the Brightcove id; otherwise a stored record with that id. |
| `BrightcovePlayer.Storage.GetList` | src/Entity/BrightcovePlayer.php:402-427 | The default key is present iff entity ids are not used. A falsy API client (NULL, '' or '0') yields exactly the seed. Otherwise the keys are the seed's plus one per player of that client (entity id or Brightcove id). Each value is the name of a player with that key, or the default label for the default key when no player has that key. In entity-id mode each player's entry is its own name. |
| `BrightcovePlayer.ReconcileTwice` | src/Entity/BrightcovePlayer.php:248-371 | With unique Brightcove ids, reconciling the same remote player twice fails twice with no change, or succeeds and then skips the same entity. The final store is the first call's result: the created record (`NewRecord`) or the refreshed one (`Refreshed`) under that id, with one save, or the unchanged store with no save when the first call skipped. |
| `BrightcoveVideoSearch.Access` | src/Plugin/Search/BrightcoveVideoSearch.php:84-90 | Access is allowed iff the account may view videos of some status, that is iff it has the published or the unpublished permission, for any operation. |
| `BrightcoveVideoSearch.CollapseRemovesStars` | src/Plugin/Search/BrightcoveVideoSearch.php:183 | The wildcard replacement leaves no '*'. |
| `BrightcoveVideoSearch.CollapseWithoutStars` | src/Plugin/Search/BrightcoveVideoSearch.php:183 | Keywords without '*' are unchanged by the replacement. |
| `BrightcoveVideoSearch.CollapseAppend` | src/Plugin/Search/BrightcoveVideoSearch.php:183 | Splitting the keywords right after a character other than '*' and replacing each part gives the replacement of the whole. |
| `BrightcoveVideoSearch.CollapseInRun` | src/Plugin/Search/BrightcoveVideoSearch.php:183 | Further '*' inside a run that was already replaced add nothing. |
| `BrightcoveVideoSearch.CollapseRun` | src/Plugin/Search/BrightcoveVideoSearch.php:183 | A maximal run of one or more '*' between two parts becomes exactly one '%' between their replacements. |
| `BrightcoveVideoSearch.LikePattern` | src/Plugin/Search/BrightcoveVideoSearch.php:180-184 | The LIKE pattern has at least two characters, begins and ends with '%', and contains no '*'. |
| `BrightcoveVideoSearch.LikePatternLiteral` | src/Plugin/Search/BrightcoveVideoSearch.php:180-184 | Keywords without '*' are searched for as a substring, '%' + keywords + '%'. |
| `BrightcoveVideoSearch.LikePatternWildcard` | src/Plugin/Search/BrightcoveVideoSearch.php:180-184 | 'a' + run of '*' + 'b', with no '*' in a or b, gives '%a%b%'. |
| `BrightcoveVideoSearch.StatusFilter` | src/Plugin/Search/BrightcoveVideoSearch.php:197-210 | The list is never empty and has no repeats. PUBLISHED (1) is in it iff the user has the published permission, and NOT_PUBLISHED (0) iff the user has the unpublished permission, with published first. NULL is in it iff neither permission is held (then it is exactly [NULL]), which is exactly when access is denied. |
| `BrightcoveVideoSearch.QueryConditions` | src/Plugin/Search/BrightcoveVideoSearch.php:175-214 | The query matches the LIKE pattern against name, description, long_description and related_link__title (any of them), filters on the status list, sorts on created descending and pages by RESULT_LIMIT = 15. |
| `BrightcoveVideoSearch.PrepareResults` | src/Plugin/Search/BrightcoveVideoSearch.php:153-167 | The result is the initial results, unchanged, followed by one {title, link} entry per entity in input order (name and URL), so its length is the initial length plus the entity count. |
| `BrightcoveVideoSearch.Execute` | src/Plugin/Search/BrightcoveVideoSearch.php:114-120 | A search that is not executable returns an empty list. Otherwise there is exactly one result per video the query returned, in order. |

## Left out

- Entity-schema declarations (`baseFieldDefinitions`): only the field set and the defaults 'px' and FALSE are modelled. The uuid, langcode, uid and status base fields are not part of the record.
- Date parsing: `strtotime` on the remote date strings is a foreign call. Timestamps enter the model already parsed, as integers.
- Floats: `height` and `width` are Dafny `real`s, only compared for equality.
- PHP's loose `!=` between two present values: the model compares them by strict equality. The remote values are typed (bool, float, string), and stored values are treated as values of the field's type, so values loaded from the database as strings are not modelled.
- BrightcovePlayer.Refreshed: version, name and units are compared as exact strings. PHP compares two numeric strings by their numeric value, so for example a stored version "1" and a remote version "1.0" are loosely equal and the stored one is kept. The model replaces it.
- The entity name before the first save is the empty string, not NULL. It is replaced by the remote name unless the two are equal.
- The host storage's save hooks (such as automatic changed-time stamping) and its failures: `save` is a plain write.
- Query string comparison is exact equality. Database collation is not modelled.
- BrightcovePlayer.Storage.CreateOrUpdate: when several records share a Brightcove id, it states that some matching record is used, not which one, because the order of the query result is not modelled.
- BrightcovePlayer.Storage.LoadByPlayerId: with several matches it states that some matching record is returned, not which one, for the same reason.
- BrightcovePlayer.Storage.GetList: it returns an unordered map, not PHP's ordered array. With several players of the client sharing a Brightcove id, it states that the entry holds the name of one of them, not of the last one loaded. The `$api_client` argument is modelled as a single id or NULL; an array of ids, which the entity query treats as an IN condition, is not modelled (a one-element array behaves as its one id).
- BrightcoveAPIClient is not part of this model. The value of its DEFAULT_PLAYER constant is taken to be 'default'. Labels are plain strings: no translation.
- Search services: `escapeLike`, `isSearchExecutable`, running the query, `loadMultiple` and `toUrl()` belong to the database and the host. The model takes the escaped keywords, the executable flag, the returned videos and each video's rendered URL as inputs.
- The pager beyond its page size, cache tags and `addCacheableDependency`, `getHelp`, the plugin factory `create`, and the AccessResult object that `access` returns when `$return_as_object` is set. Permissions are a set of names, with no super-user rule.
- Forms (`getPlayerOptions`, AJAX and messages), the media-source plugin, the event subscriber, the validation constraint and its validator: host wiring around the modelled core.
