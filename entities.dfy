/**
 * The entities the restart hook looks at: stations, the station-owned
 * entities (mounts, remotes, playlists) and the pending mutation batch the
 * persistence layer hands to the hook during a flush.
 */
module Entities {

  type StationId = int
  type Field = string

  /**
   * A station. Its id and its AutoDJ mode are only read by the hook, so they
   * are constants here; the restart flag is the one field the hook writes.
   */
  class Station {
    const id: StationId
    const useManualAutoDJ: bool
    var needsRestart: bool

    constructor (id: StationId, useManualAutoDJ: bool, needsRestart: bool)
      ensures this.id == id
      ensures this.useManualAutoDJ == useManualAutoDJ
      ensures this.needsRestart == needsRestart
    {
      this.id := id;
      this.useManualAutoDJ := useManualAutoDJ;
      this.needsRestart := needsRestart;
    }

    method SetNeedsRestart(needsRestart: bool)
      modifies this
      ensures this.needsRestart == needsRestart
    {
      this.needsRestart := needsRestart;
    }
  }

  /**
   * The entity kinds the hook distinguishes. Every other entity class of the
   * application is `Other`; it owns no station the hook could reach.
   */
  datatype Entity =
    | Mount(station: Station)
    | Remote(station: Station, editable: bool)
    | Playlist(station: Station)
    | Other

  /** A field value as the change tracker reports it; the hook never looks inside. */
  datatype Value = Null | Bool(b: bool) | Int(i: int) | Text(s: string)

  /** The before/after pair of one changed field. */
  datatype Change = Change(before: Value, after: Value)

  /** Changed field name to its before/after pair. */
  type ChangeSet = map<Field, Change>

  /** A scheduled update together with its change set. */
  datatype Update = Update(entity: Entity, changes: ChangeSet)

  /** The scheduled insertions, updates and deletions of one flush, in order. */
  datatype Batch = Batch(insertions: seq<Entity>, updates: seq<Update>, deletions: seq<Entity>)

  /**
   * What reflection and the annotation reader say about one entity class:
   * the property names the class declares, and those of them that carry the
   * audit-ignore annotation.
   */
  datatype ClassInfo = ClassInfo(properties: set<Field>, ignored: set<Field>)

  /** Class information for the three station-owned entity classes. */
  datatype Metadata = Metadata(mount: ClassInfo, remote: ClassInfo, playlist: ClassInfo)
}
