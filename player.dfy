/**
 * The Brightcove Player entity: local mirror records of remote Brightcove
 * players, the reconciliation of one remote player into the entity storage
 * (createOrUpdate), the lookup by Brightcove id and the id -> name listing.
 *
 * A loaded entity is a copy of its stored record; the entity's setters are
 * record updates on that copy and `save` writes it back to the storage.
 */
module BrightcovePlayer {
  import opened Wrappers

  /** The `height` and `width` float fields; only ever compared for equality. */
  type Float = real

  /** Schema default of the `units` base field. */
  const DefaultUnits: string := "px"
  /** Schema default of the `responsive` base field. */
  const DefaultResponsive: bool := false
  /** BrightcoveAPIClient::DEFAULT_PLAYER, the key of the default-player entry. */
  const DefaultPlayerId: string := "default"
  /** Label of the default-player entry. */
  const DefaultPlayerLabel: string := "Brightcove Default Player"

  /** The player settings held by a remote player's optional studio configuration. */
  datatype StudioPlayer = StudioPlayer(
    adjusted: bool,
    height: Float,
    width: Float,
    units: string,
    responsive: bool)

  /**
   * A remote Brightcove Player with its object graph flattened:
   * `updatedAt`, `playlist`, `version` and `studio` come from the master
   * branch and its configuration; dates are already-parsed timestamps.
   */
  datatype RemotePlayer = RemotePlayer(
    id: string,
    name: string,
    createdAt: int,
    updatedAt: int,
    playlist: bool,
    version: string,
    studio: Option<StudioPlayer>)

  /** The stored fields of a Brightcove Player entity; None is NULL (unset). */
  datatype PlayerRecord = PlayerRecord(
    playerId: string,
    apiClient: string,
    created: int,
    changed: int,
    name: string,
    playlist: bool,
    version: string,
    adjusted: Option<bool>,
    height: Option<Float>,
    width: Option<Float>,
    units: Option<string>,
    responsive: Option<bool>)

  /** What a successful createOrUpdate did, and to which entity id. */
  datatype Outcome = Created(id: int) | Updated(id: int) | Skipped(id: int)

  /** The exception createOrUpdate throws. */
  datatype ReconcileError = MissingApiClientId

  /** The remote player was changed on Brightcove after the local record. */
  predicate IsStale(r: PlayerRecord, p: RemotePlayer) {
    r.changed < p.updatedAt
  }

  /** The record carries the remote player's primary values and update time. */
  predicate MirrorsContent(r: PlayerRecord, p: RemotePlayer) {
    && r.name == p.name
    && r.playlist == p.playlist
    && r.version == p.version
    && r.changed == p.updatedAt
  }

  /** The five secondary fields hold the studio configuration's values. */
  predicate HasStudioValues(r: PlayerRecord, s: StudioPlayer) {
    && r.adjusted == Some(s.adjusted)
    && r.height == Some(s.height)
    && r.width == Some(s.width)
    && r.units == Some(s.units)
    && r.responsive == Some(s.responsive)
  }

  /** All five secondary fields are NULL. */
  predicate SecondaryUnset(r: PlayerRecord) {
    r.adjusted.None? && r.height.None? && r.width.None? && r.units.None? && r.responsive.None?
  }

  /** The secondary fields as the schema leaves them when none is supplied. */
  predicate SecondaryDefaults(r: PlayerRecord) {
    && r.adjusted.None? && r.height.None? && r.width.None?
    && r.units == Some(DefaultUnits)
    && r.responsive == Some(DefaultResponsive)
  }

  /** The fields fixed at creation: Brightcove id, owning API client, creation time. */
  predicate SameIdentity(a: PlayerRecord, b: PlayerRecord) {
    a.playerId == b.playerId && a.apiClient == b.apiClient && a.created == b.created
  }

  // ---- PHP's loose comparison of a stored field with a supplied value ----

  /**
   * PHP's loose `==` between a stored field, NULL when `None`, and a value of
   * the field's type. NULL equals exactly the values that `nullLike` says are
   * loosely NULL; a present value equals only itself.
   */
  predicate LooselyEqual<T(==)>(stored: Option<T>, value: T, nullLike: bool) {
    if stored.None? then nullLike else stored.value == value
  }

  /** NULL == FALSE, and NULL != TRUE. */
  predicate NullLikeBool(b: bool) {
    !b
  }

  /** NULL == 0.0, and NULL differs from every other float. */
  predicate NullLikeFloat(x: Float) {
    x == 0.0
  }

  /** NULL == '', and NULL differs from every other string, '0' included. */
  predicate NullLikeString(s: string) {
    s == ""
  }

  /**
   * A field after "set it to `value` if it differs" under PHP's loose `!=`:
   * afterwards it loosely equals `value`, it is untouched when it already did,
   * a present field holds exactly `value`, and NULL stays only for a value
   * loosely equal to NULL.
   */
  function SetIfDiffers<T(==)>(stored: Option<T>, value: T, nullLike: bool): (f: Option<T>)
    ensures LooselyEqual(f, value, nullLike)
    ensures LooselyEqual(stored, value, nullLike) ==> f == stored
    ensures stored.Some? ==> f == Some(value)
    ensures f.None? <==> stored.None? && nullLike
  {
    if LooselyEqual(stored, value, nullLike) then stored else Some(value)
  }

  /** Every secondary field loosely equals the studio configuration's value. */
  predicate LooselyHoldsStudio(r: PlayerRecord, s: StudioPlayer) {
    && LooselyEqual(r.adjusted, s.adjusted, NullLikeBool(s.adjusted))
    && LooselyEqual(r.height, s.height, NullLikeFloat(s.height))
    && LooselyEqual(r.width, s.width, NullLikeFloat(s.width))
    && LooselyEqual(r.units, s.units, NullLikeString(s.units))
    && LooselyEqual(r.responsive, s.responsive, NullLikeBool(s.responsive))
  }

  /** Each secondary field of `r` that already loosely equals the studio value is unchanged in `u`. */
  predicate KeepsLooselyEqual(r: PlayerRecord, u: PlayerRecord, s: StudioPlayer) {
    && (LooselyEqual(r.adjusted, s.adjusted, NullLikeBool(s.adjusted)) ==> u.adjusted == r.adjusted)
    && (LooselyEqual(r.height, s.height, NullLikeFloat(s.height)) ==> u.height == r.height)
    && (LooselyEqual(r.width, s.width, NullLikeFloat(s.width)) ==> u.width == r.width)
    && (LooselyEqual(r.units, s.units, NullLikeString(s.units)) ==> u.units == r.units)
    && (LooselyEqual(r.responsive, s.responsive, NullLikeBool(s.responsive)) ==> u.responsive == r.responsive)
  }

  /** Each secondary field present in `r` holds the studio value in `u`. */
  predicate PresentTakeStudio(r: PlayerRecord, u: PlayerRecord, s: StudioPlayer) {
    && (r.adjusted.Some? ==> u.adjusted == Some(s.adjusted))
    && (r.height.Some? ==> u.height == Some(s.height))
    && (r.width.Some? ==> u.width == Some(s.width))
    && (r.units.Some? ==> u.units == Some(s.units))
    && (r.responsive.Some? ==> u.responsive == Some(s.responsive))
  }

  /** All five secondary fields are present. */
  predicate SecondaryPresent(r: PlayerRecord) {
    r.adjusted.Some? && r.height.Some? && r.width.Some? && r.units.Some? && r.responsive.Some?
  }

  /** The record a first reconciliation of `p` stores for API client `apiClient`. */
  function NewRecord(p: RemotePlayer, apiClient: string): (r: PlayerRecord)
    ensures r.playerId == p.id && r.apiClient == apiClient && r.created == p.createdAt
    ensures MirrorsContent(r, p) && !IsStale(r, p)
    ensures p.studio.Some? ==> HasStudioValues(r, p.studio.value)
    ensures p.studio.None? ==> SecondaryDefaults(r)
  {
    match p.studio
    case None =>
      PlayerRecord(p.id, apiClient, p.createdAt, p.updatedAt, p.name, p.playlist, p.version,
                   None, None, None, Some(DefaultUnits), Some(DefaultResponsive))
    case Some(s) =>
      PlayerRecord(p.id, apiClient, p.createdAt, p.updatedAt, p.name, p.playlist, p.version,
                   Some(s.adjusted), Some(s.height), Some(s.width), Some(s.units), Some(s.responsive))
  }

  /** The record after an update of `r` from a newer remote player `p`. */
  function Refreshed(r: PlayerRecord, p: RemotePlayer): (u: PlayerRecord)
    ensures SameIdentity(u, r)
    ensures MirrorsContent(u, p) && !IsStale(u, p)
    ensures IsStale(r, p) ==> r.changed < u.changed
    ensures p.studio.Some? ==> LooselyHoldsStudio(u, p.studio.value)
    ensures p.studio.Some? ==> KeepsLooselyEqual(r, u, p.studio.value)
    ensures p.studio.Some? ==> PresentTakeStudio(r, u, p.studio.value)
    ensures p.studio.Some? && SecondaryPresent(r) ==> HasStudioValues(u, p.studio.value)
    ensures p.studio.None? ==> SecondaryUnset(u)
  {
    var primary := r.(changed := p.updatedAt, name := p.name, playlist := p.playlist, version := p.version);
    match p.studio
    case None =>
      primary.(adjusted := None, height := None, width := None, units := None, responsive := None)
    case Some(s) =>
      primary.(adjusted := SetIfDiffers(r.adjusted, s.adjusted, NullLikeBool(s.adjusted)),
               height := SetIfDiffers(r.height, s.height, NullLikeFloat(s.height)),
               width := SetIfDiffers(r.width, s.width, NullLikeFloat(s.width)),
               units := SetIfDiffers(r.units, s.units, NullLikeString(s.units)),
               responsive := SetIfDiffers(r.responsive, s.responsive, NullLikeBool(s.responsive)))
  }

  /** Applying the same remote player a second time changes nothing more. */
  lemma RefreshedIdempotent(r: PlayerRecord, p: RemotePlayer)
    ensures Refreshed(Refreshed(r, p), p) == Refreshed(r, p)
  {
  }

  /**
   * A record created without studio configuration, updated from a newer
   * remote whose studio configuration has adjusted FALSE and height and width
   * 0.0: those three fields were NULL, loosely equal to the new values, and
   * stay NULL, while units and responsive, present from the schema defaults,
   * take the studio values.
   */
  lemma FalsyStudioValuesLeaveNull(p: RemotePlayer, q: RemotePlayer, apiClient: string)
    requires p.studio.None? && q.studio.Some?
    requires !q.studio.value.adjusted && q.studio.value.height == 0.0 && q.studio.value.width == 0.0
    ensures Refreshed(NewRecord(p, apiClient), q).adjusted.None?
    ensures Refreshed(NewRecord(p, apiClient), q).height.None?
    ensures Refreshed(NewRecord(p, apiClient), q).width.None?
    ensures Refreshed(NewRecord(p, apiClient), q).units == Some(q.studio.value.units)
    ensures Refreshed(NewRecord(p, apiClient), q).responsive == Some(q.studio.value.responsive)
  {
  }

  /**
   * The two paths disagree on a player without studio configuration: a
   * created record keeps the schema defaults 'px' and FALSE, while a later
   * update from a remote still without it sets every secondary field to NULL.
   */
  lemma CreatedDefaultsClearedOnUpdate(p: RemotePlayer, q: RemotePlayer, apiClient: string)
    requires p.studio.None? && q.studio.None? && p.updatedAt < q.updatedAt
    ensures NewRecord(p, apiClient).units == Some(DefaultUnits)
    ensures NewRecord(p, apiClient).responsive == Some(DefaultResponsive)
    ensures IsStale(NewRecord(p, apiClient), q)
    ensures SecondaryUnset(Refreshed(NewRecord(p, apiClient), q))
  {
  }

  /** The entity ids whose record has Brightcove id `playerId`: the entity query. */
  function Matches(records: map<int, PlayerRecord>, playerId: string): set<int> {
    set id | id in records && records[id].playerId == playerId
  }

  /** No two records share a Brightcove id. */
  ghost predicate UniquePlayerIds(records: map<int, PlayerRecord>) {
    forall i, j :: i in records && j in records && records[i].playerId == records[j].playerId ==> i == j
  }

  /** PHP falsiness of the `$api_client` argument of getList. */
  predicate Falsy(apiClient: Option<string>) {
    apiClient.None? || apiClient.value == "" || apiClient.value == "0"
  }

  /** A key of the player list: an entity id or a Brightcove player id. */
  datatype ListKey = EntityId(id: int) | BrightcoveId(playerId: string)

  /** The key of the default-player entry. */
  const DefaultKey: ListKey := BrightcoveId(DefaultPlayerId)

  /** The list getList starts from: the default player unless entity ids are used. */
  function Seed(useEntityId: bool): (m: map<ListKey, string>)
    ensures DefaultKey in m <==> !useEntityId
    ensures forall k :: k in m ==> k == DefaultKey && m[k] == DefaultPlayerLabel
  {
    if useEntityId then map[] else map[DefaultKey := DefaultPlayerLabel]
  }

  /** The entity ids of the players referencing API client `apiClient`. */
  function OwnedBy(records: map<int, PlayerRecord>, apiClient: string): set<int> {
    set id | id in records && records[id].apiClient == apiClient
  }

  /** The list key of a stored player. */
  function KeyFor(records: map<int, PlayerRecord>, id: int, useEntityId: bool): ListKey
    requires id in records
  {
    if useEntityId then EntityId(id) else BrightcoveId(records[id].playerId)
  }

  /** The list keys of the stored players `ids`. */
  ghost function KeysOf(records: map<int, PlayerRecord>, ids: set<int>, useEntityId: bool): set<ListKey> {
    set id | id in ids && id in records :: KeyFor(records, id, useEntityId)
  }

  /** Some player among `ids` has list key `k` and name `name`. */
  ghost predicate NamedAmong(records: map<int, PlayerRecord>, ids: set<int>, useEntityId: bool, k: ListKey, name: string) {
    exists id :: id in ids && id in records && KeyFor(records, id, useEntityId) == k && records[id].name == name
  }

  /**
   * Storing a record under a new entity id adds that id to the two entity
   * queries for its own Brightcove id and API client, and to no other.
   */
  lemma QueriesAfterCreate(records: map<int, PlayerRecord>, id: int, r: PlayerRecord, playerId: string, apiClient: string)
    requires id !in records
    ensures Matches(records[id := r], playerId) ==
      if r.playerId == playerId then Matches(records, playerId) + {id} else Matches(records, playerId)
    ensures OwnedBy(records[id := r], apiClient) ==
      if r.apiClient == apiClient then OwnedBy(records, apiClient) + {id} else OwnedBy(records, apiClient)
  {
  }

  /**
   * Replacing a stored record by one with the same identity leaves both
   * entity queries unchanged, for every Brightcove id and API client.
   */
  lemma QueriesAfterUpdate(records: map<int, PlayerRecord>, id: int, r: PlayerRecord, playerId: string, apiClient: string)
    requires id in records && SameIdentity(r, records[id])
    ensures Matches(records[id := r], playerId) == Matches(records, playerId)
    ensures OwnedBy(records[id := r], apiClient) == OwnedBy(records, apiClient)
  {
  }

  /**
   * The configuration part of an update: playlist and version set to the
   * remote values where they differ, then the studio configuration applied.
   * The changed time and the name are left to the save step.
   */
  method ApplyConfiguration(entity: PlayerRecord, p: RemotePlayer) returns (e: PlayerRecord)
    ensures e == Refreshed(entity, p).(changed := entity.changed, name := entity.name)
  {
    e := entity;
    if e.playlist != p.playlist {
      e := e.(playlist := p.playlist);
    }
    if e.version != p.version {
      e := e.(version := p.version);
    }
    e := ApplyStudioConfiguration(e, p.studio);
  }

  /**
   * The studio-configuration part of an update: each secondary field set to
   * the studio value where it loosely differs, or all five set to NULL
   * without one.
   */
  method ApplyStudioConfiguration(entity: PlayerRecord, studio: Option<StudioPlayer>) returns (e: PlayerRecord)
    ensures e == entity.(adjusted := e.adjusted, height := e.height, width := e.width,
                         units := e.units, responsive := e.responsive)
    ensures studio.Some? ==> LooselyHoldsStudio(e, studio.value)
    ensures studio.Some? ==> KeepsLooselyEqual(entity, e, studio.value)
    ensures studio.Some? ==> PresentTakeStudio(entity, e, studio.value)
    ensures studio.None? ==> SecondaryUnset(e)
  {
    e := entity;
    match studio {
      case Some(s) =>
        var adjusted, height, width, units, responsive := e.adjusted, e.height, e.width, e.units, e.responsive;
        if !LooselyEqual(adjusted, s.adjusted, NullLikeBool(s.adjusted)) {
          adjusted := Some(s.adjusted);
        }
        assert adjusted == SetIfDiffers(entity.adjusted, s.adjusted, NullLikeBool(s.adjusted));
        if !LooselyEqual(height, s.height, NullLikeFloat(s.height)) {
          height := Some(s.height);
        }
        assert height == SetIfDiffers(entity.height, s.height, NullLikeFloat(s.height));
        if !LooselyEqual(width, s.width, NullLikeFloat(s.width)) {
          width := Some(s.width);
        }
        assert width == SetIfDiffers(entity.width, s.width, NullLikeFloat(s.width));
        if !LooselyEqual(units, s.units, NullLikeString(s.units)) {
          units := Some(s.units);
        }
        assert units == SetIfDiffers(entity.units, s.units, NullLikeString(s.units));
        if !LooselyEqual(responsive, s.responsive, NullLikeBool(s.responsive)) {
          responsive := Some(s.responsive);
        }
        assert responsive == SetIfDiffers(entity.responsive, s.responsive, NullLikeBool(s.responsive));
        e := e.(adjusted := adjusted, height := height, width := width, units := units, responsive := responsive);
      case None =>
        // No studio configuration: every secondary field becomes NULL.
        e := e.(adjusted := None);
        e := e.(height := None);
        e := e.(width := None);
        e := e.(units := None);
        e := e.(responsive := None);
    }
  }

  /** Adding a record under an unused entity id keeps every other record, and unique Brightcove ids when its own is new. */
  lemma InsertKeepsStore(before: map<int, PlayerRecord>, id: int, r: PlayerRecord)
    requires id !in before
    ensures forall i :: i in before ==> i in before[id := r] && before[id := r][i] == before[i]
    ensures UniquePlayerIds(before) && Matches(before, r.playerId) == {} ==> UniquePlayerIds(before[id := r])
  {
    if Matches(before, r.playerId) == {} {
      forall i | i in before
        ensures before[i].playerId != r.playerId
      {
        assert i !in Matches(before, r.playerId);
      }
    }
  }

  /** Replacing a record by one with the same identity and a later changed time. */
  lemma ReplaceKeepsStore(before: map<int, PlayerRecord>, id: int, r: PlayerRecord)
    requires id in before && SameIdentity(r, before[id]) && before[id].changed <= r.changed
    ensures forall i :: i in before ==>
      i in before[id := r] && SameIdentity(before[id := r][i], before[i]) && before[i].changed <= before[id := r][i].changed
    ensures UniquePlayerIds(before) ==> UniquePlayerIds(before[id := r])
  {
  }

  /** The Brightcove Player entity storage. */
  class Storage {
    /** The stored players, by entity id (bcpid). */
    var records: map<int, PlayerRecord>
    /** The entity id the next created player receives. */
    var nextId: int
    /** The entity ids passed to save, in order. */
    var saved: seq<int>

    ghost predicate Valid()
      reads this
    {
      forall id :: id in records ==> id < nextId
    }

    constructor ()
      ensures Valid() && records == map[] && saved == []
    {
      records := map[];
      nextId := 1;
      saved := [];
    }

    /**
     * Creates or updates the entity of remote player `p`.
     * With no entity for `p.id`, a missing `apiClientId` is an error and
     * nothing is written; otherwise a new record is created and saved.
     * With an entity (some match of the query), it is updated and saved
     * exactly when its changed time is older than the remote update time.
     */
    method CreateOrUpdate(p: RemotePlayer, apiClientId: Option<string>) returns (res: Result<Outcome, ReconcileError>)
      requires Valid()
      modifies this
      ensures Valid()
      ensures res.Err? <==> Matches(old(records), p.id) == {} && apiClientId.None?
      ensures res.Err? ==> res.error == MissingApiClientId
      ensures res.Err? ==> records == old(records) && nextId == old(nextId) && saved == old(saved)
      ensures (res.Ok? && res.value.Created?) <==> Matches(old(records), p.id) == {} && apiClientId.Some?
      ensures res.Ok? && res.value.Created? ==>
        && res.value.id == old(nextId) && res.value.id !in old(records)
        && records == old(records)[res.value.id := NewRecord(p, apiClientId.value)]
        && nextId == old(nextId) + 1
        && saved == old(saved) + [res.value.id]
        && Matches(records, p.id) == {res.value.id}
        && res.value.id in OwnedBy(records, apiClientId.value)
      ensures res.Ok? && !res.value.Created? ==>
        && res.value.id in Matches(old(records), p.id)
        && nextId == old(nextId)
        && (res.value.Updated? <==> IsStale(old(records)[res.value.id], p))
      ensures res.Ok? && res.value.Updated? ==>
        && records == old(records)[res.value.id := Refreshed(old(records)[res.value.id], p)]
        && saved == old(saved) + [res.value.id]
      ensures res.Ok? && res.value.Skipped? ==> records == old(records) && saved == old(saved)
      ensures old(records).Keys <= records.Keys
      ensures forall id :: id in old(records) ==>
        SameIdentity(records[id], old(records)[id]) && old(records)[id].changed <= records[id].changed
      ensures UniquePlayerIds(old(records)) ==> UniquePlayerIds(records)
      ensures res.Ok? ==>
        res.value.id in records && records[res.value.id].playerId == p.id && !IsStale(records[res.value.id], p)
    {
      // The entity query on the Brightcove id.
      var existing := Matches(records, p.id);
      var needsSave := false;
      var id: int;
      var entity: PlayerRecord;

      if existing != {} {
        // The first query result: some matching entity.
        assert (forall i :: i !in existing) ==> existing == {};
        id :| id in existing;
        entity := records[id];

        // Only a record older than the remote player is refreshed.
        if entity.changed < p.updatedAt {
          needsSave := true;
          entity := ApplyConfiguration(entity, p);
        }
      } else {
        if apiClientId.None? {
          return Err(MissingApiClientId);
        }
        // The supplied values; the schema defaults fill the rest. The name
        // and the changed time are set below, before the save.
        entity := PlayerRecord(p.id, apiClientId.value, p.createdAt, 0, "", p.playlist, p.version,
                               None, None, None, Some(DefaultUnits), Some(DefaultResponsive));
        match p.studio {
          case Some(s) =>
            entity := entity.(adjusted := Some(s.adjusted), height := Some(s.height), width := Some(s.width),
                              units := Some(s.units), responsive := Some(s.responsive));
          case None =>
        }
        needsSave := true;
      }

      // A created or refreshed entity gets the remote update time and name, then is saved.
      if needsSave {
        entity := entity.(changed := p.updatedAt);
        if entity.name != p.name {
          entity := entity.(name := p.name);
        }
        if existing == {} {
          assert entity == NewRecord(p, apiClientId.value);
          id := SaveNew(entity);
        } else {
          assert entity == Refreshed(records[id], p);
          Save(id, entity);
        }
      }

      if existing == {} {
        res := Ok(Created(id));
      } else if needsSave {
        res := Ok(Updated(id));
      } else {
        res := Ok(Skipped(id));
      }
    }

    /** Saves a new entity, which receives the next entity id. */
    method SaveNew(entity: PlayerRecord) returns (id: int)
      requires Valid()
      modifies this
      ensures Valid()
      ensures id == old(nextId) && id !in old(records)
      ensures records == old(records)[id := entity] && nextId == old(nextId) + 1 && saved == old(saved) + [id]
      ensures forall i :: i in old(records) ==> i in records && records[i] == old(records)[i]
      ensures UniquePlayerIds(old(records)) && Matches(old(records), entity.playerId) == {} ==> UniquePlayerIds(records)
      ensures Matches(records, entity.playerId) == Matches(old(records), entity.playerId) + {id}
      ensures OwnedBy(records, entity.apiClient) == OwnedBy(old(records), entity.apiClient) + {id}
    {
      id := nextId;
      InsertKeepsStore(records, id, entity);
      QueriesAfterCreate(records, id, entity, entity.playerId, entity.apiClient);
      records := records[id := entity];
      saved := saved + [id];
      nextId := nextId + 1;
    }

    /** Saves a loaded entity back under its id. */
    method Save(id: int, entity: PlayerRecord)
      requires Valid() && id in records
      modifies this
      ensures Valid()
      ensures records == old(records)[id := entity] && nextId == old(nextId) && saved == old(saved) + [id]
      ensures SameIdentity(entity, old(records)[id]) && old(records)[id].changed <= entity.changed ==>
        && (forall i :: i in old(records) ==>
              i in records && SameIdentity(records[i], old(records)[i]) && old(records)[i].changed <= records[i].changed)
        && (UniquePlayerIds(old(records)) ==> UniquePlayerIds(records))
      ensures SameIdentity(entity, old(records)[id]) ==>
        && Matches(records, entity.playerId) == Matches(old(records), entity.playerId)
        && OwnedBy(records, entity.apiClient) == OwnedBy(old(records), entity.apiClient)
    {
      if SameIdentity(entity, records[id]) && records[id].changed <= entity.changed {
        ReplaceKeepsStore(records, id, entity);
      }
      if SameIdentity(entity, records[id]) {
        QueriesAfterUpdate(records, id, entity, entity.playerId, entity.apiClient);
      }
      records := records[id := entity];
      saved := saved + [id];
    }

    /** loadByPlayerId: the entity of some record with Brightcove id `playerId`, or NULL. */
    method LoadByPlayerId(playerId: string) returns (r: Option<PlayerRecord>)
      ensures r.None? <==> Matches(records, playerId) == {}
      ensures r.Some? ==> r.value.playerId == playerId && r.value in records.Values
    {
      var ids := Matches(records, playerId);
      if ids == {} {
        r := None;
      } else {
        assert (forall i :: i !in ids) ==> ids == {};
        var id :| id in ids;
        r := Some(records[id]);
      }
    }

    /**
     * getList: the names of the players of API client `apiClient`, keyed by
     * entity id or by Brightcove id, seeded with the default player unless
     * entity ids are used; a falsy API client yields the seed alone.
     */
    method GetList(apiClient: Option<string>, useEntityId: bool) returns (players: map<ListKey, string>)
      ensures DefaultKey in players <==> !useEntityId
      ensures Falsy(apiClient) ==> players == Seed(useEntityId)
      ensures !Falsy(apiClient) ==>
        players.Keys == Seed(useEntityId).Keys + KeysOf(records, OwnedBy(records, apiClient.value), useEntityId)
      ensures !Falsy(apiClient) ==> forall k :: k in players ==>
        || NamedAmong(records, OwnedBy(records, apiClient.value), useEntityId, k, players[k])
        || (k == DefaultKey && !useEntityId && players[k] == DefaultPlayerLabel
            && k !in KeysOf(records, OwnedBy(records, apiClient.value), useEntityId))
      ensures !Falsy(apiClient) && useEntityId ==> forall id :: id in OwnedBy(records, apiClient.value) ==>
        EntityId(id) in players && players[EntityId(id)] == records[id].name
    {
      players := Seed(useEntityId);
      if Falsy(apiClient) {
        return;
      }

      // One entry per player of the API client, in no particular order.
      var owned := OwnedBy(records, apiClient.value);
      var todo := owned;
      ghost var done: set<int> := {};
      while todo != {}
        invariant todo <= owned && done == owned - todo
        invariant players.Keys == Seed(useEntityId).Keys + KeysOf(records, done, useEntityId)
        invariant forall k :: k in players ==>
          || NamedAmong(records, done, useEntityId, k, players[k])
          || (k == DefaultKey && !useEntityId && players[k] == DefaultPlayerLabel
              && k !in KeysOf(records, done, useEntityId))
        invariant useEntityId ==> forall i :: i in done ==>
          EntityId(i) in players && players[EntityId(i)] == records[i].name
        decreases todo
      {
        assert (forall i :: i !in todo) ==> todo == {};
        var id :| id in todo;
        var key := KeyFor(records, id, useEntityId);
        players := players[key := records[id].name];
        todo := todo - {id};
        done := done + {id};
      }
    }
  }

  /**
   * Reconciling the same remote player twice in a row: the second call
   * finds the record the first one wrote, is not newer than it, and writes
   * nothing.
   */
  method ReconcileTwice(s: Storage, p: RemotePlayer, apiClientId: Option<string>)
    returns (first: Result<Outcome, ReconcileError>, second: Result<Outcome, ReconcileError>)
    requires s.Valid() && UniquePlayerIds(s.records)
    modifies s
    ensures s.Valid() && UniquePlayerIds(s.records)
    ensures first.Err? ==> second == first && s.records == old(s.records) && s.saved == old(s.saved)
    ensures first.Ok? ==> second == Ok(Skipped(first.value.id))
    ensures first.Ok? && first.value.Created? ==>
      && apiClientId.Some?
      && s.records == old(s.records)[first.value.id := NewRecord(p, apiClientId.value)]
      && s.saved == old(s.saved) + [first.value.id]
    ensures first.Ok? && first.value.Updated? ==>
      && first.value.id in old(s.records)
      && s.records == old(s.records)[first.value.id := Refreshed(old(s.records)[first.value.id], p)]
      && s.saved == old(s.saved) + [first.value.id]
    ensures first.Ok? && first.value.Skipped? ==> s.records == old(s.records) && s.saved == old(s.saved)
    ensures |s.saved| <= |old(s.saved)| + 1
  {
    first := s.CreateOrUpdate(p, apiClientId);
    second := s.CreateOrUpdate(p, apiClientId);
  }
}
