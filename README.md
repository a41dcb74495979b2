# Station restart trigger

This is a Dafny model of AzuraCast's `StationRequiresRestart` subscriber, a Doctrine `onFlush` hook. During a flush it looks at the scheduled insertions, updates and deletions. A station gets `needsRestart = true` when one of these changes:

- one of its mounts;
- one of its editable remotes;
- one of its playlists, but only while the station uses manual AutoDJ.

For updates, changed fields that carry the audit-ignore annotation do not count. An update with nothing left after that filter triggers nothing. Stations are collected in a dictionary keyed by station id, so each one is written once.

Files:

- `entities.dfy` (module `Entities`): the data the hook sees.
  - `Station` is a class. Its `id` and `useManualAutoDJ` are constants, because the hook only reads them. Its `needsRestart` is a variable, because the hook writes it.
  - The closed entity variant `Mount | Remote(editable) | Playlist | Other`.
  - The change set is a map from field name to a before/after pair.
  - The batch holds the three scheduled sequences.
  - `ClassInfo` / `Metadata` replace reflection and the annotation reader. For each entity class they give the declared property names and the names marked ignored.
- `station_requires_restart.dfy` (module `StationRequiresRestart`):
  - Specification functions: `Relevant`, `Filtered`, `UpdateTriggers`, `UpdateFails`, `Contributions`, `KeyedFrom`, `ToRestart`, `RestartIds`.
  - Lemmas about those functions.
  - The hook itself as imperative methods, each proved against the functions:
    - `PruneIgnored`: the `unset` loop over the change set.
    - `AddOwners` and `AddUpdateOwners`: the scans of the three collections.
    - `CollectStationsToRestart`: builds the id-keyed dictionary.
    - `SetNeedsRestartAll`: the final flag loop.
    - `OnFlush`: ties these together.

The source throws a reflection exception when a changed field is not a property of the entity's class. The model treats this as an error result, `Err(UnknownProperty(field))`, not as a precondition. It happens exactly when some relevant update has such a field. When it happens, no station is changed, because the flag loop runs only after the whole scan.

The change set is a map, so the order of the prune loop is left open. On an error, the model therefore promises only that it reports *some* field of a relevant update that its class does not declare. The source reports the first such field in PHP array order.

The dictionary is "last seen wins", exactly as the source assigns `$stations_to_restart[$id] = $station`. `FlaggedAreContributors` assumes Doctrine's identity map, i.e. one object per station id. Under that assumption, the flagged objects are exactly the stations of the qualifying entities.

## Model

| member | source | states |
|---|---|---|
| `StationRequiresRestart.Filtered` | src/Doctrine/Event/StationRequiresRestart.php:57-65 | a field stays in the filtered change set iff it was changed and is not marked ignored, and its before/after pair is kept unchanged |
| `StationRequiresRestart.PruneIgnored` | src/Doctrine/Event/StationRequiresRestart.php:53-65 | the loop fails iff some changed field is not a declared property, and then names such a field; otherwise it returns exactly the change set minus the ignored fields |
| `StationRequiresRestart.AddOwners` | src/Doctrine/Event/StationRequiresRestart.php:48-75 | scanning inserted or deleted entities with no field filtering adds the station of every relevant entity to the dictionary by id, in order, later entries replacing earlier ones |
| `StationRequiresRestart.AddUpdateOwners` | src/Doctrine/Event/StationRequiresRestart.php:48-75 | scanning updates fails iff some relevant update names an undeclared field; otherwise it adds, by id, the station of every relevant update whose filtered change set is not empty, and skips every other update |
| `StationRequiresRestart.CollectStationsToRestart` | src/Doctrine/Event/StationRequiresRestart.php:40-77 | the scan of insertions, updates and deletions fails iff the batch has a relevant update with an undeclared field; otherwise it yields exactly the id-keyed dictionary `ToRestart` |
| `StationRequiresRestart.SetNeedsRestartAll` | src/Doctrine/Event/StationRequiresRestart.php:80-81 | after the flag loop every station in the dictionary has `needsRestart` set, and only those stations are in the frame |
| `StationRequiresRestart.OnFlush` | src/Doctrine/Event/StationRequiresRestart.php:35-88 | fails iff the batch fails and then changes no flag; on success it returns the selected ids, and every referenced station's flag afterwards is its old value OR-ed with "selected", so the flag is only set, never cleared, and an empty selection changes nothing |
| `StationRequiresRestart.FlushTwice` | src/Doctrine/Event/StationRequiresRestart.php:74-81 | running the hook twice on one batch gives the same outcome and leaves the same flags as running it once (idempotence) |
| `StationRequiresRestart.RestartIdsExactly` | src/Doctrine/Event/StationRequiresRestart.php:46-77 | a station id is selected iff some relevant inserted or deleted entity, or some triggering update, in any of the three collections belongs to a station with that id |
| `StationRequiresRestart.InsertedOrDeletedAlwaysRestarts` | src/Doctrine/Event/StationRequiresRestart.php:52-74 | a relevant inserted or deleted entity always selects its station, for every field-exclusion configuration |
| `StationRequiresRestart.NothingRelevantNothingRestarts` | src/Doctrine/Event/StationRequiresRestart.php:49-51 | a batch without relevant entities selects no station and cannot fail |
| `StationRequiresRestart.IrrelevantInsertionIgnored` | src/Doctrine/Event/StationRequiresRestart.php:49-51 | adding an irrelevant entity anywhere among the insertions changes neither the selection nor the failure |
| `StationRequiresRestart.IrrelevantDeletionIgnored` | src/Doctrine/Event/StationRequiresRestart.php:49-51 | adding an irrelevant entity anywhere among the deletions changes neither the selection nor the failure |
| `StationRequiresRestart.SilentUpdateIgnored` | src/Doctrine/Event/StationRequiresRestart.php:49-69 | adding, anywhere among the updates, an update that does not fail and does not trigger (an irrelevant entity, no changes, or only ignored fields changed) changes neither the selection nor the failure |
| `StationRequiresRestart.SharedStationRestartedOnce` | src/Doctrine/Event/StationRequiresRestart.php:73-74 | when every qualifying entity belongs to stations with one id, exactly that one id is selected |
| `StationRequiresRestart.RestartIdsBound` | src/Doctrine/Event/StationRequiresRestart.php:73-74 | no more ids are selected than qualifying entities were seen (deduplication by id) |
| `StationRequiresRestart.KeyedFromKeys` | src/Doctrine/Event/StationRequiresRestart.php:74 | the id-keyed dictionary holds exactly the ids of the stations stored into it |
| `StationRequiresRestart.KeyedFromEntries` | src/Doctrine/Event/StationRequiresRestart.php:74 | every dictionary entry is filed under its own station's id and is one of the stations stored |
| `StationRequiresRestart.ToRestartEntries` | src/Doctrine/Event/StationRequiresRestart.php:73-74 | every selected station is filed under its own id and is a station the batch refers to |
| `StationRequiresRestart.FlaggedAreContributors` | src/Doctrine/Event/StationRequiresRestart.php:73-81 | with one object per station id, the stations flagged are exactly the stations of the qualifying entities |
| `StationRequiresRestart.InsertedMountScenario` | src/Doctrine/Event/StationRequiresRestart.php:49 | one inserted mount of station 7 selects exactly station 7 |
| `StationRequiresRestart.IgnoredRemoteFieldScenario` | src/Doctrine/Event/StationRequiresRestart.php:62-69 | an editable remote whose only changed field is ignored selects nothing |
| `StationRequiresRestart.ManualPlaylistScenario` | src/Doctrine/Event/StationRequiresRestart.php:51-74 | a playlist update under manual AutoDJ, with a changed field that is not ignored, selects exactly its station, 3 |
| `StationRequiresRestart.ReadOnlyRemoteScenario` | src/Doctrine/Event/StationRequiresRestart.php:50 | a remote that is not editable selects nothing whether inserted, updated or deleted |
| `StationRequiresRestart.TwoMountsOneStationScenario` | src/Doctrine/Event/StationRequiresRestart.php:73-74 | two updated mounts of station 5 select exactly station 5 |
| `Entities.Station.SetNeedsRestart` | src/Doctrine/Event/StationRequiresRestart.php:81 | the station's restart flag takes the given value |

## Left out

- Doctrine wiring is outside the model: the entity manager and unit of work (lines 37-38), `persist` and `recomputeSingleEntityChangeSet` (lines 82-85), the constructor and `getSubscribedEvents`. The batch and the class metadata are inputs. The flag write is the only effect.
- Reflection and the annotation reader are replaced by `ClassInfo`. The `ReflectionException` becomes the `UnknownProperty` error result.
- The broadcast restart itself is not part of this model. It is only implied by the flag.
- A station's AutoDJ mode and a remote's `editable` flag are taken as their in-memory values at flush time. The hook cannot change them while it runs. The order in which Doctrine applied earlier changes to them is not modelled.
- A station id is an unbounded integer. PHP's coercion of a `null` id (an unsaved station) to the array key `""` is not modelled.
- StationRequiresRestart.PruneIgnored: on failure it names some undeclared changed field, not necessarily the first one in PHP array order, because the change set is a map.
- StationRequiresRestart.AddUpdateOwners: names some undeclared field of some relevant update on failure, for the same reason.
- StationRequiresRestart.CollectStationsToRestart: names some undeclared field of some relevant update on failure, for the same reason.
- The order of the flag writes is not modelled. The final loop visits the selected stations in an unspecified order, and the writes commute.
