/**
 * The flush hook that marks a station as needing a restart when one of its
 * mounts, editable remotes or (under manual AutoDJ) playlists is inserted,
 * updated or deleted.
 *
 * The specification functions (Relevant, Filtered, Contributions, ToRestart)
 * say which stations a batch selects; the methods (PruneIgnored, the scan
 * methods and OnFlush) do what the hook does, step by step, and are proved
 * against those functions.
 */
module StationRequiresRestart {
  import opened Entities

  /** Reflection could not find a changed field on the entity's class. */
  datatype Failure = UnknownProperty(field: Field)

  datatype Result<T> = Ok(value: T) | Err(error: Failure)

  // ---------------------------------------------------------------------
  // Specification
  // ---------------------------------------------------------------------

  /** An entity whose change can make its station's running process stale. */
  predicate Relevant(e: Entity)
  {
    match e
    case Mount(_) => true
    case Remote(_, editable) => editable
    case Playlist(station) => station.useManualAutoDJ
    case Other => false
  }

  /** The class information of a station-owned entity. */
  function ClassOf(meta: Metadata, e: Entity): ClassInfo
    requires !e.Other?
  {
    match e
    case Mount(_) => meta.mount
    case Remote(_, _) => meta.remote
    case Playlist(_) => meta.playlist
  }

  /** The change set without the fields marked as ignored. */
  function Filtered(changes: ChangeSet, info: ClassInfo): (r: ChangeSet)
    ensures forall f :: f in r <==> f in changes && f !in info.ignored
    ensures forall f :: f in r ==> r[f] == changes[f]
  {
    changes - info.ignored
  }

  /** A relevant update names a field its class does not declare. */
  predicate UpdateFails(u: Update, meta: Metadata)
  {
    Relevant(u.entity) && !(u.changes.Keys <= ClassOf(meta, u.entity).properties)
  }

  /** A relevant update with at least one changed field that is not ignored. */
  predicate UpdateTriggers(u: Update, meta: Metadata)
  {
    Relevant(u.entity) && Filtered(u.changes, ClassOf(meta, u.entity)) != map[]
  }

  /** The hook aborts the flush: some relevant update names an unknown field. */
  predicate BatchFails(b: Batch, meta: Metadata)
  {
    exists i :: 0 <= i < |b.updates| && UpdateFails(b.updates[i], meta)
  }

  /** The stations of the relevant entities of an insert or delete batch, in order. */
  function Owners(es: seq<Entity>): seq<Station>
  {
    if es == [] then []
    else
      var e := es[|es| - 1];
      Owners(es[..|es| - 1]) + (if Relevant(e) then [e.station] else [])
  }

  /** The stations of the updates that trigger a restart, in order. */
  function UpdateOwners(us: seq<Update>, meta: Metadata): seq<Station>
  {
    if us == [] then []
    else
      var u := us[|us| - 1];
      UpdateOwners(us[..|us| - 1], meta) + (if UpdateTriggers(u, meta) then [u.entity.station] else [])
  }

  /** Every station the scan adds to the dictionary, in scanning order. */
  function Contributions(b: Batch, meta: Metadata): seq<Station>
  {
    Owners(b.insertions) + UpdateOwners(b.updates, meta) + Owners(b.deletions)
  }

  /** Adds the stations of `s` to `acc` by id; a later station replaces an earlier one. */
  function KeyedFrom(acc: map<StationId, Station>, s: seq<Station>): map<StationId, Station>
  {
    if s == [] then acc
    else
      var x := s[|s| - 1];
      KeyedFrom(acc, s[..|s| - 1])[x.id := x]
  }

  /** The dictionary of stations to restart that the scan of a batch builds. */
  function ToRestart(b: Batch, meta: Metadata): map<StationId, Station>
  {
    KeyedFrom(map[], Contributions(b, meta))
  }

  /** The ids of the stations to restart. */
  function RestartIds(b: Batch, meta: Metadata): set<StationId>
  {
    ToRestart(b, meta).Keys
  }

  function IdsOf(s: seq<Station>): set<StationId>
  {
    set x | x in s :: x.id
  }

  /** Every station some entity of the batch refers to. */
  function Referenced(b: Batch): set<Station>
  {
    (set e | e in b.insertions && !e.Other? :: e.station)
    + (set u | u in b.updates && !u.entity.Other? :: u.entity.station)
    + (set e | e in b.deletions && !e.Other? :: e.station)
  }

  /** Some entity of the batch qualifies and belongs to a station with this id. */
  ghost predicate Qualifies(b: Batch, meta: Metadata, id: StationId)
  {
    || (exists i :: 0 <= i < |b.insertions| && Relevant(b.insertions[i]) && b.insertions[i].station.id == id)
    || (exists i :: 0 <= i < |b.updates| && UpdateTriggers(b.updates[i], meta) && b.updates[i].entity.station.id == id)
    || (exists i :: 0 <= i < |b.deletions| && Relevant(b.deletions[i]) && b.deletions[i].station.id == id)
  }

  /** The persistence layer keeps one object per station id. */
  ghost predicate IdentityMap(b: Batch)
  {
    forall s, t :: s in Referenced(b) && t in Referenced(b) && s.id == t.id ==> s == t
  }

  // ---------------------------------------------------------------------
  // Lemmas about the dictionary
  // ---------------------------------------------------------------------

  lemma {:induction false} KeyedFromSnoc(acc: map<StationId, Station>, s: seq<Station>, x: Station)
    ensures KeyedFrom(acc, s + [x]) == KeyedFrom(acc, s)[x.id := x]
  {
    assert (s + [x])[..|s + [x]| - 1] == s;
  }

  lemma {:induction false} KeyedFromAppend(acc: map<StationId, Station>, s: seq<Station>, t: seq<Station>)
    ensures KeyedFrom(acc, s + t) == KeyedFrom(KeyedFrom(acc, s), t)
  {
    if t == [] {
      assert s + t == s;
    } else {
      var t', x := t[..|t| - 1], t[|t| - 1];
      assert t == t' + [x];
      assert s + t == (s + t') + [x];
      KeyedFromSnoc(acc, s + t', x);
      KeyedFromAppend(acc, s, t');
      KeyedFromSnoc(KeyedFrom(acc, s), t', x);
    }
  }

  /** The dictionary holds exactly the ids of the stations added to it. */
  lemma {:induction false} KeyedFromKeys(acc: map<StationId, Station>, s: seq<Station>)
    ensures KeyedFrom(acc, s).Keys == acc.Keys + IdsOf(s)
  {
    if s != [] {
      var s', x := s[..|s| - 1], s[|s| - 1];
      assert s == s' + [x];
      KeyedFromKeys(acc, s');
      assert IdsOf(s) == IdsOf(s') + {x.id};
    }
  }

  /** Every entry is filed under its own id and is a station that was added. */
  lemma {:induction false} KeyedFromEntries(acc: map<StationId, Station>, s: seq<Station>)
    requires forall k :: k in acc ==> acc[k].id == k
    ensures forall k :: k in KeyedFrom(acc, s) ==>
      KeyedFrom(acc, s)[k].id == k && (KeyedFrom(acc, s)[k] in s || KeyedFrom(acc, s)[k] in acc.Values)
  {
    if s != [] {
      var s', x := s[..|s| - 1], s[|s| - 1];
      assert s == s' + [x];
      KeyedFromEntries(acc, s');
    }
  }

  /** Each id is counted once, however many of its stations were added. */
  lemma {:induction false} IdsOfBound(s: seq<Station>)
    ensures |IdsOf(s)| <= |s|
  {
    if s != [] {
      var s', x := s[..|s| - 1], s[|s| - 1];
      assert s == s' + [x];
      assert IdsOf(s) == IdsOf(s') + {x.id};
      IdsOfBound(s');
    }
  }

  // ---------------------------------------------------------------------
  // Lemmas about the contributions
  // ---------------------------------------------------------------------

  lemma {:induction false} OwnersAppend(a: seq<Entity>, c: seq<Entity>)
    ensures Owners(a + c) == Owners(a) + Owners(c)
  {
    if c == [] {
      assert a + c == a;
    } else {
      var c', e := c[..|c| - 1], c[|c| - 1];
      assert c == c' + [e];
      assert (a + c)[..|a + c| - 1] == a + c';
      OwnersAppend(a, c');
    }
  }

  lemma {:induction false} UpdateOwnersAppend(a: seq<Update>, c: seq<Update>, meta: Metadata)
    ensures UpdateOwners(a + c, meta) == UpdateOwners(a, meta) + UpdateOwners(c, meta)
  {
    if c == [] {
      assert a + c == a;
    } else {
      var c', u := c[..|c| - 1], c[|c| - 1];
      assert c == c' + [u];
      assert (a + c)[..|a + c| - 1] == a + c';
      UpdateOwnersAppend(a, c', meta);
    }
  }

  /** A station is an owner iff some relevant entity of the sequence belongs to it. */
  lemma {:induction false} OwnersMembers(es: seq<Entity>, x: Station)
    ensures x in Owners(es) <==> exists i :: 0 <= i < |es| && Relevant(es[i]) && es[i].station == x
  {
    if es != [] {
      var es', e := es[..|es| - 1], es[|es| - 1];
      OwnersMembers(es', x);
      if exists i :: 0 <= i < |es| && Relevant(es[i]) && es[i].station == x {
        var i :| 0 <= i < |es| && Relevant(es[i]) && es[i].station == x;
        if i < |es'| {
          assert es'[i] == es[i];
        }
      }
      if exists i :: 0 <= i < |es'| && Relevant(es'[i]) && es'[i].station == x {
        var i :| 0 <= i < |es'| && Relevant(es'[i]) && es'[i].station == x;
        assert es[i] == es'[i];
      }
    }
  }

  /** A station is an update owner iff some triggering update belongs to it. */
  lemma {:induction false} UpdateOwnersMembers(us: seq<Update>, meta: Metadata, x: Station)
    ensures x in UpdateOwners(us, meta) <==>
      exists i :: 0 <= i < |us| && UpdateTriggers(us[i], meta) && us[i].entity.station == x
  {
    if us != [] {
      var us', u := us[..|us| - 1], us[|us| - 1];
      UpdateOwnersMembers(us', meta, x);
      if exists i :: 0 <= i < |us| && UpdateTriggers(us[i], meta) && us[i].entity.station == x {
        var i :| 0 <= i < |us| && UpdateTriggers(us[i], meta) && us[i].entity.station == x;
        if i < |us'| {
          assert us'[i] == us[i];
        }
      }
      if exists i :: 0 <= i < |us'| && UpdateTriggers(us'[i], meta) && us'[i].entity.station == x {
        var i :| 0 <= i < |us'| && UpdateTriggers(us'[i], meta) && us'[i].entity.station == x;
        assert us[i] == us'[i];
      }
    }
  }

  /** Every contributed station is one the batch refers to. */
  lemma ContributionsReferenced(b: Batch, meta: Metadata)
    ensures forall x :: x in Contributions(b, meta) ==> x in Referenced(b)
  {
    forall x | x in Contributions(b, meta)
      ensures x in Referenced(b)
    {
      OwnersMembers(b.insertions, x);
      UpdateOwnersMembers(b.updates, meta, x);
      OwnersMembers(b.deletions, x);
      if x in Owners(b.insertions) {
        var i :| 0 <= i < |b.insertions| && Relevant(b.insertions[i]) && b.insertions[i].station == x;
        assert b.insertions[i] in b.insertions;
      } else if x in UpdateOwners(b.updates, meta) {
        var i :| 0 <= i < |b.updates| && UpdateTriggers(b.updates[i], meta) && b.updates[i].entity.station == x;
        assert b.updates[i] in b.updates;
      } else {
        var i :| 0 <= i < |b.deletions| && Relevant(b.deletions[i]) && b.deletions[i].station == x;
        assert b.deletions[i] in b.deletions;
      }
    }
  }

  // ---------------------------------------------------------------------
  // Properties of the selected stations
  // ---------------------------------------------------------------------

  /** A station id is selected iff some qualifying entity of any batch belongs to it. */
  lemma RestartIdsExactly(b: Batch, meta: Metadata, id: StationId)
    ensures id in RestartIds(b, meta) <==> Qualifies(b, meta, id)
  {
    var c := Contributions(b, meta);
    KeyedFromKeys(map[], c);
    if id in RestartIds(b, meta) {
      var x :| x in c && x.id == id;
      OwnersMembers(b.insertions, x);
      UpdateOwnersMembers(b.updates, meta, x);
      OwnersMembers(b.deletions, x);
    }
    if Qualifies(b, meta, id) {
      if exists i :: 0 <= i < |b.insertions| && Relevant(b.insertions[i]) && b.insertions[i].station.id == id {
        var i :| 0 <= i < |b.insertions| && Relevant(b.insertions[i]) && b.insertions[i].station.id == id;
        OwnersMembers(b.insertions, b.insertions[i].station);
        assert b.insertions[i].station in c;
      } else if exists i :: 0 <= i < |b.updates| && UpdateTriggers(b.updates[i], meta) && b.updates[i].entity.station.id == id {
        var i :| 0 <= i < |b.updates| && UpdateTriggers(b.updates[i], meta) && b.updates[i].entity.station.id == id;
        UpdateOwnersMembers(b.updates, meta, b.updates[i].entity.station);
        assert b.updates[i].entity.station in c;
      } else {
        var i :| 0 <= i < |b.deletions| && Relevant(b.deletions[i]) && b.deletions[i].station.id == id;
        OwnersMembers(b.deletions, b.deletions[i].station);
        assert b.deletions[i].station in c;
      }
    }
  }

  /** A relevant inserted or deleted entity selects its station, whatever fields are ignored. */
  lemma InsertedOrDeletedAlwaysRestarts(b: Batch, meta: Metadata, e: Entity)
    requires Relevant(e)
    requires e in b.insertions || e in b.deletions
    ensures e.station.id in RestartIds(b, meta)
  {
    if e in b.insertions {
      var i :| 0 <= i < |b.insertions| && b.insertions[i] == e;
    } else {
      var i :| 0 <= i < |b.deletions| && b.deletions[i] == e;
    }
    RestartIdsExactly(b, meta, e.station.id);
  }

  /** A batch with no relevant entity selects nothing and cannot fail. */
  lemma NothingRelevantNothingRestarts(b: Batch, meta: Metadata)
    requires forall i :: 0 <= i < |b.insertions| ==> !Relevant(b.insertions[i])
    requires forall i :: 0 <= i < |b.updates| ==> !Relevant(b.updates[i].entity)
    requires forall i :: 0 <= i < |b.deletions| ==> !Relevant(b.deletions[i])
    ensures RestartIds(b, meta) == {}
    ensures !BatchFails(b, meta)
  {
    forall id | id in RestartIds(b, meta)
      ensures false
    {
      RestartIdsExactly(b, meta, id);
    }
  }

  /** An inserted entity that is not relevant changes nothing. */
  lemma IrrelevantInsertionIgnored(b: Batch, meta: Metadata, k: nat, e: Entity)
    requires k <= |b.insertions| && !Relevant(e)
    ensures var b' := b.(insertions := b.insertions[..k] + [e] + b.insertions[k..]);
      ToRestart(b', meta) == ToRestart(b, meta) && BatchFails(b', meta) == BatchFails(b, meta)
  {
    var a, c := b.insertions[..k], b.insertions[k..];
    assert b.insertions == a + c;
    OwnersAppend(a + [e], c);
    OwnersAppend(a, [e]);
    OwnersAppend(a, c);
    assert Owners([e]) == [] by {
      assert [e][..0] == [];
    }
    assert Owners(a + [e] + c) == Owners(a + c);
  }

  /** A deleted entity that is not relevant changes nothing. */
  lemma IrrelevantDeletionIgnored(b: Batch, meta: Metadata, k: nat, e: Entity)
    requires k <= |b.deletions| && !Relevant(e)
    ensures var b' := b.(deletions := b.deletions[..k] + [e] + b.deletions[k..]);
      ToRestart(b', meta) == ToRestart(b, meta) && BatchFails(b', meta) == BatchFails(b, meta)
  {
    var a, c := b.deletions[..k], b.deletions[k..];
    assert b.deletions == a + c;
    OwnersAppend(a + [e], c);
    OwnersAppend(a, [e]);
    OwnersAppend(a, c);
    assert Owners([e]) == [] by {
      assert [e][..0] == [];
    }
    assert Owners(a + [e] + c) == Owners(a + c);
  }

  /** Splicing an update that does not fail into a sequence leaves its failure unchanged. */
  lemma SpliceKeepsFailure(a: seq<Update>, u: Update, c: seq<Update>, meta: Metadata)
    requires !UpdateFails(u, meta)
    ensures (exists i :: 0 <= i < |a + [u] + c| && UpdateFails((a + [u] + c)[i], meta))
        <==> (exists i :: 0 <= i < |a + c| && UpdateFails((a + c)[i], meta))
  {
    var us, vs := a + [u] + c, a + c;
    if exists i :: 0 <= i < |us| && UpdateFails(us[i], meta) {
      var i :| 0 <= i < |us| && UpdateFails(us[i], meta);
      if i < |a| {
        assert vs[i] == us[i];
      } else {
        assert i != |a|;
        assert vs[i - 1] == us[i];
      }
    }
    if exists i :: 0 <= i < |vs| && UpdateFails(vs[i], meta) {
      var i :| 0 <= i < |vs| && UpdateFails(vs[i], meta);
      if i < |a| {
        assert us[i] == vs[i];
      } else {
        assert us[i + 1] == vs[i];
      }
    }
  }

  /**
   * An update that does not trigger (an irrelevant entity, an empty change
   * set, or only ignored fields changed) and does not fail changes nothing.
   */
  lemma SilentUpdateIgnored(b: Batch, meta: Metadata, k: nat, u: Update)
    requires k <= |b.updates| && !UpdateTriggers(u, meta) && !UpdateFails(u, meta)
    ensures var b' := b.(updates := b.updates[..k] + [u] + b.updates[k..]);
      ToRestart(b', meta) == ToRestart(b, meta) && BatchFails(b', meta) == BatchFails(b, meta)
  {
    var a, c := b.updates[..k], b.updates[k..];
    assert b.updates == a + c;
    UpdateOwnersAppend(a + [u], c, meta);
    UpdateOwnersAppend(a, [u], meta);
    UpdateOwnersAppend(a, c, meta);
    assert UpdateOwners([u], meta) == [] by {
      assert [u][..0] == [];
    }
    assert UpdateOwners(a + [u] + c, meta) == UpdateOwners(a + c, meta);
    SpliceKeepsFailure(a, u, c, meta);
  }

  /** However many entities of one station qualify, its id is selected once. */
  lemma SharedStationRestartedOnce(b: Batch, meta: Metadata, id: StationId)
    requires Contributions(b, meta) != []
    requires forall x :: x in Contributions(b, meta) ==> x.id == id
    ensures RestartIds(b, meta) == {id}
  {
    var c := Contributions(b, meta);
    KeyedFromKeys(map[], c);
    assert c[0] in c;
  }

  /** No more stations are selected than qualifying entities were seen. */
  lemma RestartIdsBound(b: Batch, meta: Metadata)
    ensures |RestartIds(b, meta)| <= |Contributions(b, meta)|
  {
    KeyedFromKeys(map[], Contributions(b, meta));
    IdsOfBound(Contributions(b, meta));
  }

  /** Every entry of the dictionary is a referenced station filed under its own id. */
  lemma ToRestartEntries(b: Batch, meta: Metadata)
    ensures forall k :: k in ToRestart(b, meta) ==>
      ToRestart(b, meta)[k].id == k && ToRestart(b, meta)[k] in Referenced(b)
    ensures ToRestart(b, meta).Values <= Referenced(b)
  {
    KeyedFromEntries(map[], Contributions(b, meta));
    ContributionsReferenced(b, meta);
  }

  /**
   * With one object per station id, the stations flagged are exactly the
   * stations of the qualifying entities.
   */
  lemma FlaggedAreContributors(b: Batch, meta: Metadata)
    requires IdentityMap(b)
    ensures ToRestart(b, meta).Values == set x | x in Contributions(b, meta)
  {
    var c := Contributions(b, meta);
    var m := ToRestart(b, meta);
    KeyedFromKeys(map[], c);
    KeyedFromEntries(map[], c);
    ContributionsReferenced(b, meta);
    forall x | x in c
      ensures x in m.Values
    {
      assert x.id in m;
      assert m[x.id] in c;
    }
  }

  // ---------------------------------------------------------------------
  // The hook
  // ---------------------------------------------------------------------

  /**
   * Checks every changed field against the class and drops the ignored ones,
   * failing on the first field the class does not declare.
   */
  method PruneIgnored(changes: ChangeSet, info: ClassInfo) returns (r: Result<ChangeSet>)
    ensures r.Err? <==> !(changes.Keys <= info.properties)
    ensures r.Err? ==> r.error.field in changes && r.error.field !in info.properties
    ensures r.Ok? ==> r.value == Filtered(changes, info)
  {
    var kept := changes;
    var pending := changes.Keys;
    while pending != {}
      invariant pending <= changes.Keys
      invariant forall f :: f in changes && f !in pending ==> f in info.properties
      invariant kept == changes - (info.ignored - pending)
      decreases pending
    {
      var f :| f in pending;
      if f !in info.properties {
        return Err(UnknownProperty(f));
      }
      if f in info.ignored {
        kept := kept - {f};
      }
      pending := pending - {f};
    }
    return Ok(kept);
  }

  /** The scan of the insertions or of the deletions. */
  method AddOwners(acc: map<StationId, Station>, es: seq<Entity>) returns (m: map<StationId, Station>)
    ensures m == KeyedFrom(acc, Owners(es))
  {
    m := acc;
    for i := 0 to |es|
      invariant m == KeyedFrom(acc, Owners(es[..i]))
    {
      var e := es[i];
      assert es[..i + 1][..i] == es[..i];
      if Relevant(e) {
        assert Owners(es[..i + 1]) == Owners(es[..i]) + [e.station];
        KeyedFromSnoc(acc, Owners(es[..i]), e.station);
        m := m[e.station.id := e.station];
        assert m == KeyedFrom(acc, Owners(es[..i + 1]));
      } else {
        assert Owners(es[..i + 1]) == Owners(es[..i]);
        assert m == KeyedFrom(acc, Owners(es[..i + 1]));
      }
    }
    assert es[..|es|] == es;
  }

  /** The scan of the updates: drops ignored fields first, skips what is left empty. */
  method AddUpdateOwners(acc: map<StationId, Station>, us: seq<Update>, meta: Metadata)
    returns (r: Result<map<StationId, Station>>)
    ensures r.Err? <==> exists i :: 0 <= i < |us| && UpdateFails(us[i], meta)
    ensures r.Err? ==> exists i :: (0 <= i < |us| && Relevant(us[i].entity)
      && r.error.field in us[i].changes && r.error.field !in ClassOf(meta, us[i].entity).properties)
    ensures r.Ok? ==> r.value == KeyedFrom(acc, UpdateOwners(us, meta))
  {
    var m := acc;
    for i := 0 to |us|
      invariant m == KeyedFrom(acc, UpdateOwners(us[..i], meta))
      invariant forall j :: 0 <= j < i ==> !UpdateFails(us[j], meta)
    {
      var u := us[i];
      assert us[..i + 1][..i] == us[..i];
      if Relevant(u.entity) {
        var pruned := PruneIgnored(u.changes, ClassOf(meta, u.entity));
        if pruned.Err? {
          return Err(pruned.error);
        }
        if pruned.value == map[] {
          assert UpdateOwners(us[..i + 1], meta) == UpdateOwners(us[..i], meta);
          continue;
        }
        assert UpdateTriggers(u, meta);
        assert UpdateOwners(us[..i + 1], meta) == UpdateOwners(us[..i], meta) + [u.entity.station];
        KeyedFromSnoc(acc, UpdateOwners(us[..i], meta), u.entity.station);
        m := m[u.entity.station.id := u.entity.station];
      } else {
        assert UpdateOwners(us[..i + 1], meta) == UpdateOwners(us[..i], meta);
      }
    }
    assert us[..|us|] == us;
    return Ok(m);
  }

  /** Builds the dictionary of stations to restart, keyed by station id. */
  method CollectStationsToRestart(b: Batch, meta: Metadata) returns (r: Result<map<StationId, Station>>)
    ensures r.Err? <==> BatchFails(b, meta)
    ensures r.Err? ==> exists i :: (0 <= i < |b.updates| && Relevant(b.updates[i].entity)
      && r.error.field in b.updates[i].changes
      && r.error.field !in ClassOf(meta, b.updates[i].entity).properties)
    ensures r.Ok? ==> r.value == ToRestart(b, meta)
  {
    var m := AddOwners(map[], b.insertions);
    var updated := AddUpdateOwners(m, b.updates, meta);
    if updated.Err? {
      return Err(updated.error);
    }
    m := AddOwners(updated.value, b.deletions);
    KeyedFromAppend(map[], Owners(b.insertions), UpdateOwners(b.updates, meta));
    KeyedFromAppend(map[], Owners(b.insertions) + UpdateOwners(b.updates, meta), Owners(b.deletions));
    return Ok(m);
  }

  /** Sets the restart flag of every station of the dictionary, and of no other object. */
  method SetNeedsRestartAll(toRestart: map<StationId, Station>)
    modifies toRestart.Values
    ensures forall s :: s in toRestart.Values ==> s.needsRestart
  {
    var pending := toRestart.Values;
    while pending != {}
      invariant pending <= toRestart.Values
      invariant forall s :: s in toRestart.Values && s !in pending ==> s.needsRestart
      decreases pending
    {
      var station :| station in pending;
      station.SetNeedsRestart(true);
      pending := pending - {station};
    }
  }

  /**
   * The flush hook: selects the stations to restart and sets their flag.
   * On failure no station is touched. Otherwise each referenced station ends
   * with its flag set iff it was set before or it was selected; stations the
   * batch does not refer to are outside the frame.
   */
  method OnFlush(b: Batch, meta: Metadata) returns (r: Result<set<StationId>>)
    modifies Referenced(b)
    ensures r.Err? <==> BatchFails(b, meta)
    ensures r.Ok? ==> r.value == RestartIds(b, meta)
    ensures forall s :: s in Referenced(b) ==>
      s.needsRestart == (old(s.needsRestart) || (r.Ok? && s in ToRestart(b, meta).Values))
    ensures r.Ok? ==> forall s :: s in ToRestart(b, meta).Values ==> s.needsRestart
    ensures r == Ok({}) ==> forall s :: s in Referenced(b) ==> s.needsRestart == old(s.needsRestart)
  {
    var collected := CollectStationsToRestart(b, meta);
    if collected.Err? {
      return Err(collected.error);
    }
    var toRestart := collected.value;
    ToRestartEntries(b, meta);
    if |toRestart| > 0 {
      SetNeedsRestartAll(toRestart);
    }
    return Ok(toRestart.Keys);
  }

  /** Running the hook twice on one batch selects the same stations and leaves the same flags. */
  method FlushTwice(b: Batch, meta: Metadata) returns (first: Result<set<StationId>>, second: Result<set<StationId>>)
    modifies Referenced(b)
    ensures first.Ok? == second.Ok?
    ensures first.Ok? ==> first == second
    ensures forall s :: s in Referenced(b) ==>
      s.needsRestart == (old(s.needsRestart) || (first.Ok? && s in ToRestart(b, meta).Values))
  {
    first := OnFlush(b, meta);
    second := OnFlush(b, meta);
    ToRestartEntries(b, meta);
  }

  // ---------------------------------------------------------------------
  // Scenarios
  // ---------------------------------------------------------------------

  /** One inserted mount of station 7 selects station 7. */
  lemma InsertedMountScenario(s: Station, meta: Metadata)
    requires s.id == 7
    ensures RestartIds(Batch([Mount(s)], [], []), meta) == {7}
    ensures !BatchFails(Batch([Mount(s)], [], []), meta)
  {
    RestartIdsExactly(Batch([Mount(s)], [], []), meta, 7);
    SharedStationRestartedOnce(Batch([Mount(s)], [], []), meta, 7);
  }

  /** An editable remote whose one changed field is ignored selects nothing. */
  lemma IgnoredRemoteFieldScenario(s: Station, meta: Metadata, f: Field, c: Change)
    requires f in meta.remote.properties && f in meta.remote.ignored
    ensures RestartIds(Batch([], [Update(Remote(s, true), map[f := c])], []), meta) == {}
    ensures !BatchFails(Batch([], [Update(Remote(s, true), map[f := c])], []), meta)
  {
    var b := Batch([], [Update(Remote(s, true), map[f := c])], []);
    assert Filtered(map[f := c], meta.remote) == map[];
    SingleSilentUpdate(b, meta);
  }

  /** A playlist update under manual AutoDJ with a changed field that is not ignored selects its station. */
  lemma ManualPlaylistScenario(s: Station, meta: Metadata, f: Field, c: Change)
    requires s.id == 3 && s.useManualAutoDJ
    requires f in meta.playlist.properties && f !in meta.playlist.ignored
    ensures RestartIds(Batch([], [Update(Playlist(s), map[f := c])], []), meta) == {3}
    ensures !BatchFails(Batch([], [Update(Playlist(s), map[f := c])], []), meta)
  {
    var b := Batch([], [Update(Playlist(s), map[f := c])], []);
    assert f in Filtered(map[f := c], meta.playlist);
    assert UpdateOwners(b.updates, meta) == [s] by {
      assert b.updates[..0] == [];
    }
    SharedStationRestartedOnce(b, meta, 3);
  }

  /** A remote that is not editable selects nothing, whatever the mutation. */
  lemma ReadOnlyRemoteScenario(s: Station, meta: Metadata, changes: ChangeSet)
    ensures RestartIds(Batch([Remote(s, false)], [Update(Remote(s, false), changes)], [Remote(s, false)]), meta) == {}
  {
    NothingRelevantNothingRestarts(
      Batch([Remote(s, false)], [Update(Remote(s, false), changes)], [Remote(s, false)]), meta);
  }

  /** Two updated mounts of station 5 select station 5 once. */
  lemma TwoMountsOneStationScenario(s: Station, meta: Metadata, f: Field, c: Change)
    requires s.id == 5
    requires f in meta.mount.properties && f !in meta.mount.ignored
    ensures RestartIds(Batch([], [Update(Mount(s), map[f := c]), Update(Mount(s), map[f := c])], []), meta) == {5}
  {
    var u := Update(Mount(s), map[f := c]);
    var b := Batch([], [u, u], []);
    assert f in Filtered(map[f := c], meta.mount);
    assert UpdateOwners([u], meta) == [s] by {
      assert [u][..0] == [];
    }
    assert [u, u][..1] == [u];
    assert UpdateOwners(b.updates, meta) == [s, s];
    SharedStationRestartedOnce(b, meta, 5);
  }

  /** A batch whose one update triggers nothing selects nothing. */
  lemma SingleSilentUpdate(b: Batch, meta: Metadata)
    requires b.insertions == [] && b.deletions == [] && |b.updates| == 1
    requires !UpdateTriggers(b.updates[0], meta) && !UpdateFails(b.updates[0], meta)
    ensures RestartIds(b, meta) == {}
    ensures !BatchFails(b, meta)
  {
    assert b.updates[..0] == [];
    assert UpdateOwners(b.updates, meta) == [];
    assert Contributions(b, meta) == [];
  }
}
