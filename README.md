# MetaHuman DNA add-on: a verified model of its core

This project models, in Dafny, the logic at the heart of the MetaHuman DNA
Blender add-on and its Send to Unreal and Unreal-side helpers, and proves
what that logic promises.

- **DNA calibration write-back** (`DNACalibrator`): edited scene data is merged
  back into a DNA document in three passes, followed by a single write.
  - The vertex pass replaces a stored vertex only when the sample moved more than 1e-6.
  - The shape-key pass replaces each target's sparse index/delta set with the deltas above a threshold.
    Each kept delta is rotated -90 degrees about X and divided by the linear modifier.
  - The bone pass replaces joint translations beyond 1e-3, and replaces rotations only for `FACIAL_` bones.
- **The import side of the same deltas**: `create_shape_key` and the
  re-import operator. The model proves that re-import is undone exactly by
  calibration, and that `create_shape_key` followed by calibration flips the
  signs of y and z.
- **The add-on's small state machines**: the UI list operators (add, remove,
  move with wrap-around), deletion of an empty rig-logic instance, the modal
  progress queue and the shape-key import command queue.
- **Name and string logic**:
  - left/right bone mirroring;
  - animation curve-name parsing for the JSON and FBX imports;
  - topology-group dropdowns, LOD visibility and the Send to Unreal templates;
  - LOD indices, asset paths and LOD file names in the Send to Unreal extension;
  - sequencer binding paths and curve keys.
- **Vertex-array helpers**: middle-vertex zeroing, offsets, centroids,
  bounding boxes, closest vertex and vertex-group membership.

## How the model is built

- The DNA reader is an immutable record of parallel arrays.
- The DNA writer is a class whose state is the log of setter calls made on it. "The last set wins" and "`write()` once" are functions of that log.
- Each pass of the calibrator is a method with a loop. It is proved against a left-recursive specification function that has the shape of the loop. Lemmas then state what the source promises about that function.
- Python exceptions (`KeyError`, `IndexError`, `RuntimeError`, `ValueError`, `AttributeError`, ...) are values of an `Exception` datatype. Each operation returns one where the source would raise.
- Lengths are compared through squared lengths (`|v| > t` as `t < 0 || |v|^2 > t^2`), so no square root is needed.
- Numbers are exact reals. The ±90 degree rotations about X are exact sign permutations.
- Blender objects whose fields the source updates in place are classes: the mesh object, the UI lists, the progress queue, the armature, the action library and the Send to Unreal extension.

## Model

| member | source | states |
|---|---|---|
| Calibrator.LookupLast | src/addons/meta_human_dna/dna_io/calibrator.py:20 | the mesh-name lookup keeps the LAST index of a repeated name; None exactly when the name is absent |
| Calibrator.CalibrateVertexIdempotent | src/addons/meta_human_dna/dna_io/calibrator.py:37-45 | the per-vertex rule (the sample replaces the stored vertex only beyond 1e-6) applied twice with the same sample is applied once |
| Calibrator.MergeSamplesMeaning | src/addons/meta_human_dna/dna_io/calibrator.py:33-45 | merging succeeds iff every sampled index is in range; then a sampled vertex (however often sampled) follows the 1e-6 rule and every other vertex is untouched |
| Calibrator.UneditedMeshUnchanged | src/addons/meta_human_dna/dna_io/calibrator.py:33-50 | when every sample lies within 1e-6 of the stored vertex, the positions come back bit-identical |
| Calibrator.MergeSamplesErrFinal | src/addons/meta_human_dna/dna_io/calibrator.py:37-39 | once a sampled index is out of range (IndexError), later samples do not change the outcome |
| Calibrator.VertexMesh | src/addons/meta_human_dna/dna_io/calibrator.py:25-50 | an object whose stripped name is no DNA mesh gives KeyError; otherwise the one call sets a whole mesh at the stored vertex count |
| Calibrator.VertexPassCompletes | src/addons/meta_human_dna/dna_io/calibrator.py:22-50 | the vertex pass completes iff every export mesh's own step succeeds |
| Calibrator.VertexPassCalls | src/addons/meta_human_dna/dna_io/calibrator.py:22-50 | a completed vertex pass makes exactly one `setVertexPositions` per export mesh, in order, each the mesh's own result |
| Calibrator.VertexPassCallsKeepLengths | src/addons/meta_human_dna/dna_io/calibrator.py:47-50 | every call of the vertex pass sets an existing mesh with one position per stored vertex |
| Calibrator.VertexPassUnknownMeshRaises | src/addons/meta_human_dna/dna_io/calibrator.py:20-27 | a mesh name that, with every `<instance>_` removed, is no DNA mesh makes the pass raise, with KeyError when it is the first failure |
| Calibrator.VertexPassRaisedFinal | src/addons/meta_human_dna/dna_io/calibrator.py:22-27 | once the pass has raised, the remaining objects are never reached |
| Calibrator.KeptMembership | src/addons/meta_human_dna/dna_io/calibrator.py:108-117 | the reference kept set holds exactly the sampled vertices whose rotated delta is longer than the threshold |
| Calibrator.TargetDeltasMeaning | src/addons/meta_human_dna/dna_io/calibrator.py:104-122 | the target loop succeeds iff all samples are in range; its indices are the kept set in sample order and each delta is the -90 degree X rotation of shape minus basis, divided by the linear modifier |
| Calibrator.TargetDeltasErrFinal | src/addons/meta_human_dna/dna_io/calibrator.py:108-111 | an out-of-range sample ends the target loop with that error |
| Calibrator.TargetCallsMeaning | src/addons/meta_human_dna/dna_io/calibrator.py:91-138 | a target whose `<mesh>__<channel>` name is too long or has no key block makes no call; otherwise exactly two setter calls replace (never merge) its index set and deltas, of equal length |
| Calibrator.MissingBasisRaises | src/addons/meta_human_dna/dna_io/calibrator.py:76-78 | a mesh object with shape-key data but no basis key raises RuntimeError naming the object, with no call |
| Calibrator.MeshSetsTargetsOnly | src/addons/meta_human_dna/dna_io/calibrator.py:64-138 | one mesh of the shape-key pass only sets sparse sets of its existing targets |
| Calibrator.ShapeKeyPassSetsTargetsOnly | src/addons/meta_human_dna/dna_io/calibrator.py:52-138 | the shape-key pass only ever sets sparse sets of existing targets, and never writes |
| Calibrator.BoneStepPolicy | src/addons/meta_human_dna/dna_io/calibrator.py:159-191 | for a mapped bone, the translation is replaced iff it moved more than 1e-3; the rotation iff the bone is `FACIAL_` and it turned more than 1e-3; other joints keep their values |
| Calibrator.BoneFoldChangesOnlyMapped | src/addons/meta_human_dna/dna_io/calibrator.py:159-191 | after the bone loop, a changed translation has a mapped bone, and a changed rotation has a mapped `FACIAL_` bone |
| Calibrator.BoneFoldUnedited | src/addons/meta_human_dna/dna_io/calibrator.py:159-191 | a rig whose mapped bones all lie within 1e-3 of the DNA leaves the joints unchanged |
| Calibrator.BonePass | src/addons/meta_human_dna/dna_io/calibrator.py:193-198 | the bone pass sets both joint arrays in full, at the stored joint count |
| Calibrator.StagesNeverWrite | src/addons/meta_human_dna/dna_io/calibrator.py:206-211 | no stage calls `write()` |
| Calibrator.RunInvalidDoesNothing | src/addons/meta_human_dna/dna_io/calibrator.py:202-204 | a failed validation returns its own (False, title, message, fix), with no stage run and no call |
| Calibrator.RunWritesOnce | src/addons/meta_human_dna/dna_io/calibrator.py:200-214 | after a good validation `write()` is called exactly once, as the last call, when no stage raised, and never when one did |
| Calibrator.RunOrder | src/addons/meta_human_dna/dna_io/calibrator.py:206-214 | the enabled stages run in the order vertices, shape keys, bones, followed by the write |
| Calibrator.RunStatus | src/addons/meta_human_dna/dna_io/calibrator.py:214-223 | a bad status after the write raises RuntimeError with the status message; a good one returns (True, "Success", "Calibration successful.", None) |
| Calibrator.UnknownMeshPreventsWrite | src/addons/meta_human_dna/dna_io/calibrator.py:20-27 | an unknown mesh in an enabled vertex pass reaches neither the later stages nor `write()` |
| Calibrator.MergeSampledPositions | src/addons/meta_human_dna/dna_io/calibrator.py:33-50 | the in-place loop over the X/Y/Z arrays computes the merge specification |
| Calibrator.ComputeTargetDeltas | src/addons/meta_human_dna/dna_io/calibrator.py:104-122 | the appending loop of one target computes the target-delta specification |
| Calibrator.DnaCalibrator.CalibrateVertexPositions | src/addons/meta_human_dna/dna_io/calibrator.py:19-50 | the writer's log grows by exactly the vertex pass's calls, and the method raises what the pass raises |
| Calibrator.DnaCalibrator.CalibrateTarget | src/addons/meta_human_dna/dna_io/calibrator.py:91-138 | one target: the log grows by that target's calls |
| Calibrator.DnaCalibrator.CalibrateMeshShapeKeys | src/addons/meta_human_dna/dna_io/calibrator.py:64-138 | one mesh: the log grows by that mesh's calls; the basis error is returned as specified |
| Calibrator.DnaCalibrator.CalibrateLodShapeKeys | src/addons/meta_human_dna/dna_io/calibrator.py:57-138 | one LOD: skipped without channels, otherwise its meshes in order |
| Calibrator.DnaCalibrator.CalibrateShapeKeys | src/addons/meta_human_dna/dna_io/calibrator.py:52-140 | the whole shape-key pass; nothing for a non-head component |
| Calibrator.DnaCalibrator.CalibrateBoneTransforms | src/addons/meta_human_dna/dna_io/calibrator.py:142-198 | the six joint arrays are updated bone by bone, and then both are set in full |
| Calibrator.DnaCalibrator.CalibrateMeshStages | src/addons/meta_human_dna/dna_io/calibrator.py:206-209 | the shape-key stage runs only when the vertex stage did not raise |
| Calibrator.DnaCalibrator.CalibrateStages | src/addons/meta_human_dna/dna_io/calibrator.py:206-211 | the enabled stages, in order, stopping at the first exception |
| Calibrator.SequenceComplete | src/addons/meta_human_dna/dna_io/calibrator.py:206-211 | the stages complete exactly when none of them raises, and then they make all their writer calls in order |
| Calibrator.SequenceStopsAtFirstRaise | src/addons/meta_human_dna/dna_io/calibrator.py:206-211 | when stage `k` is the first to raise, the run makes the calls of the stages before it and its own calls, and ends with its exception |
| Calibrator.DnaCalibrator.Run | src/addons/meta_human_dna/dna_io/calibrator.py:200-223 | the log and outcome are those of the run specification (validation, stages, one write, status check) |
| DnaIo.WriteCountAppend | src/addons/meta_human_dna/dna_io/calibrator.py:214 | the number of writes in a concatenated log is the sum of the parts' |
| DnaIo.LastTargetVertexIndices | src/addons/meta_human_dna/dna_io/calibrator.py:128-132 | the sparse set a target holds after a log is the one given by a single setter call in it |
| DnaMisc.GetDnaReader | src/addons/meta_human_dna/dna_io/misc.py:21-60 | FileNotFoundError for a missing file; ValueError for a format other than binary/json (any case); RuntimeError when the status after `read()` is bad; otherwise the reader of that format |
| DnaMisc.GetDnaWriter | src/addons/meta_human_dna/dna_io/misc.py:62-84 | ValueError for a format other than binary/json (any case); otherwise the writer of that format |
| DnaMisc.FormatCaseInsensitive | src/addons/meta_human_dna/dna_io/misc.py:48-53 | the format is matched case-insensitively by the reader and the writer |
| DnaMisc.Entries | src/addons/meta_human_dna/dna_io/misc.py:123 | the rows are the target's four arrays zipped, up to the shortest |
| DnaMisc.ImportedDelta | src/addons/meta_human_dna/dna_io/misc.py:111-126 | the DNA delta scaled by the linear modifier and rotated -90 degrees about X is lm·(dx, dz, -dy) |
| DnaMisc.ApplyEntriesUntouched | src/addons/meta_human_dna/dna_io/misc.py:123-133 | a vertex named by no row keeps the coordinate the new key was created with |
| DnaMisc.ApplyEntriesLastRow | src/addons/meta_human_dna/dna_io/misc.py:123-133 | a vertex named by rows ends at base plus the imported delta of the last such row; an out-of-range row is skipped and later rows still apply |
| DnaMisc.OffsetIndicesMeaning | src/addons/meta_human_dna/dna_io/misc.py:118-133 | the offset list holds exactly the in-range indices whose scaled delta is longer than the threshold; it lists the vertex of each such row in DNA row order, once per row, so a vertex named by several such rows is listed several times |
| DnaMisc.ReplaceKeyKeepsUnique | src/addons/meta_human_dna/dna_io/misc.py:100-108 | removing any key of the name and then adding one leaves key names unique, with exactly one key of that name |
| DnaMisc.ReplaceGroupKeepsUnique | src/addons/meta_human_dna/dna_io/misc.py:136-140 | the same for the shape key's vertex group |
| DnaMisc.FullWeights | src/addons/meta_human_dna/dna_io/misc.py:141-145 | the recreated group holds exactly the offset indices, each at weight 1.0 |
| DnaMisc.ApplyTargetRows | src/addons/meta_human_dna/dna_io/misc.py:120-133 | the row loop computes the key's coordinates and the offset list |
| DnaMisc.MeshObject.CreateShapeKey | src/addons/meta_human_dna/dna_io/misc.py:87-151 | a mesh without key blocks (no `data.shape_keys`) raises AttributeError and nothing changes; otherwise the key named `<prefix><name>` is replaced by one new locked key with the applied rows, the vertex group is recreated from the offset list, and names stay unique |
| Operators.MovedMeaning | src/addons/meta_human_dna/operators.py:1671 | a move puts the moved entry at the target position, leaves the other entries in their order and keeps the same multiset of entries |
| Operators.Removed | src/addons/meta_human_dna/operators.py:1653 | removing entry `i` shortens the list by one, keeps the entries before `i` and shifts the later ones down by one |
| Operators.Inserted | src/addons/meta_human_dna/operators.py:1670-1671 | inserting at `i` lengthens the list by one, puts the new entry at `i`, keeps the entries before it and shifts the later ones up by one |
| Operators.MovedBack | src/addons/meta_human_dna/operators.py:1776 | moving an entry and then moving it back restores the list |
| Operators.MovedNeighbourSwaps | src/addons/meta_human_dna/operators.py:1776 | moving to an adjacent position swaps the two entries |
| Operators.AppendThenMove | src/addons/meta_human_dna/operators.py:1670-1671 | adding a default entry and moving the new last entry to `i` inserts it at `i` |
| Operators.UiList.RemoveAt | src/addons/meta_human_dna/operators.py:1653 | `remove(i)` succeeds exactly for an index inside the list and removes that entry; otherwise it raises and leaves the list as it was |
| Operators.UiList.Append | src/addons/meta_human_dna/operators.py:1670 | `add()` puts a new entry at the end |
| Operators.UiList.MoveEntry | src/addons/meta_human_dna/operators.py:1671 | `move(from, to)` succeeds exactly when both positions are inside the list and reorders it as `Moved`; otherwise it raises with the bad position |
| Operators.RemoveEntry | src/addons/meta_human_dna/operators.py:1649-1656 | the remove operator succeeds exactly when the active index is inside the list, removes that entry and sets the active index to min(active, new length - 1) |
| Operators.RemovedActiveInRange | src/addons/meta_human_dna/operators.py:1654 | after a remove the new active index is -1 when the list became empty and a valid position otherwise |
| Operators.RemoveInstanceEntry | src/addons/meta_human_dna/operators.py:1682-1701 | the rig-logic remove fails for a position Python indexing rejects, also fails for a negative one at `remove`, and otherwise removes the entry |
| Operators.AddEntry | src/addons/meta_human_dna/operators.py:1665-1673 | the add operator inserts a new entry at min(length, active + 1), which becomes active; a negative target makes the move fail with the new entry left at the end |
| Operators.AddedEntryIsActive | src/addons/meta_human_dna/operators.py:1669-1672 | the inserted entry sits at the new active index, and removing it gives back the old list |
| Operators.MoveTarget | src/addons/meta_human_dna/operators.py:1741-1746 | the target index is always a position in the list |
| Operators.MoveTargetWraps | src/addons/meta_human_dna/operators.py:1741-1746 | moving down from the last entry wraps to the first, up from the first wraps to the last, otherwise the neighbour is chosen |
| Operators.ExchangeLocations | src/addons/meta_human_dna/operators.py:1751-1774 | with body rigs on both instances the body rigs exchange their x, the head rigs take the body rigs' x and the face boards shift by the difference; otherwise with head rigs on both the same for the head rigs; otherwise nothing moves. An unset head rig or face board in the branch taken raises AttributeError, and the assignments made before it stay. A shared face board does not move, and an instance moved onto itself only has its head rig take its body rig's x |
| Operators.MoveInstanceEntry | src/addons/meta_human_dna/operators.py:1739-1778 | the move operator raises on an empty list or an index Python rejects. Otherwise the locations of the entry's and the neighbour's rigs are exchanged as `ExchangeLocations` states, and no other rig object moves. If the exchange raises, or the list's `move` rejects a negative index, the list is unchanged but the locations already exchanged stay. Otherwise the entry moves to the neighbour (wrapping) and becomes active |
| Operators.Fraction | src/addons/meta_human_dna/operators.py:67 | the progress is a share between 0 and 1: 0 with nothing run, 1 with everything run |
| Operators.FractionGrows | src/addons/meta_human_dna/operators.py:61-67 | taking one more command off the queue strictly increases the progress |
| Operators.ProgressQueueOperator.Execute | src/addons/meta_human_dna/operators.py:73-87 | a failed validation cancels; a passed one adds the timer; with a head the progress is reset and the queue is filled with the head's commands |
| Operators.ProgressQueueOperator.Finish | src/addons/meta_human_dna/operators.py:90-98 | the timer is removed and the progress shows complete; the queue is untouched |
| Operators.ProgressQueueOperator.Modal | src/addons/meta_human_dna/operators.py:51-71 | ESC or a timer event on an empty queue finishes; a timer event otherwise runs exactly the oldest command, shows its formatted description and raises the progress to the share now done; other events change nothing |
| Operators.FindKey | src/addons/meta_human_dna/operators.py:1111 | `find` gives the first position of a key with that name, or -1 exactly when none has it |
| Operators.LockedBlocks | src/addons/meta_human_dna/operators.py:1106-1110 | the locking loop locks each block whose name differs from the edited one, then unlocks the edited block |
| Operators.LockAllOtherShapeKeys | src/addons/meta_human_dna/operators.py:1095-1112 | the mesh's key blocks are locked except those with the edited name, the edited block is unlocked, and the active index is the first block with that name |
| Operators.LockedKeysKeepNames | src/addons/meta_human_dna/operators.py:1106-1110 | changing only lock flags keeps key names unique, coordinates and every lookup by name |
| Operators.LockAllOthersMeaning | src/addons/meta_human_dna/operators.py:1105-1111 | when the edited block carries that name and names are unique, it is the only unlocked block and becomes the active one |
| Operators.ShortNameOfImportedKey | src/addons/meta_human_dna/operators.py:1320 | the short name of a key `<mesh>__<channel>` is the channel name |
| Operators.MeshIndexOf | src/addons/meta_human_dna/operators.py:1313 | the inverted lookup finds a mesh index exactly when some entry has that name, and the one it finds is the last such entry |
| Operators.LastNamedBefore | src/addons/meta_human_dna/operators.py:1313 | the dict built from the lookup keeps, for a name, the last position with that name; no later position has that name, and no position at all has it when nothing is found |
| Operators.FirstTargetNamed | src/addons/meta_human_dna/operators.py:1326-1332 | the first target of the mesh whose channel has the name, or none when no target has it |
| Operators.ReimportedDelta | src/addons/meta_human_dna/operators.py:1339-1350 | the re-imported delta is the DNA delta scaled by the linear modifier and turned +90 degrees about X |
| Operators.ReimportedLastRow | src/addons/meta_human_dna/operators.py:1347-1353 | a vertex named by rows ends at its base vertex plus the delta of the last row naming it |
| Operators.ReimportedUntouched | src/addons/meta_human_dna/operators.py:1347-1355 | a vertex no row names keeps its coordinate |
| Operators.ReimportThenCalibrate | src/addons/meta_human_dna/operators.py:1339-1353 | calibrating a re-imported vertex gives back exactly the DNA delta that was re-imported |
| Operators.CreateThenCalibrate | src/addons/meta_human_dna/operators.py:1339-1353 | calibrating a vertex of a key made on import gives the DNA delta with y and z negated: the import and the re-import use opposite rotations |
| Operators.FindTarget | src/addons/meta_human_dna/operators.py:1326-1332 | the lookup loop returns the first target whose channel has the short name |
| Operators.ReimportRows | src/addons/meta_human_dna/operators.py:1347-1355 | the coordinate loop computes the re-imported coordinates |
| Operators.ReImportThisShapeKey | src/addons/meta_human_dna/operators.py:1120-1361 | without a head nothing happens; a failed validation, a missing mesh index or a missing target cancels with the matching report; for a non-Basis key the found block becomes the active shape key (set by `validate` before any later cancel), the Basis path leaves the active index; otherwise the edited block gets the re-imported coordinates, or the base vertices with neutral shapes, and the vertices, groups and other blocks stay |
| Operators.ChannelTypes | src/addons/meta_human_dna/operators.py:236-242 | each channel is in the set exactly when its toggle is on |
| Operators.BakeAnimation | src/addons/meta_human_dna/operators.py:229-255 | a start frame after the end frame cancels; otherwise the bake runs exactly when there is a head with a rig, with the enabled channels |
| Operators.BakeChannelsExact | src/addons/meta_human_dna/operators.py:236-242 | the channel set is exactly the enabled subset of location, rotation and scale |
| Head.CommandQueue.Put | src/addons/meta_human_dna/components/head.py:359-374 | `put` appends the command at the back of the queue |
| Head.CommandQueue.Get | src/addons/meta_human_dna/components/head.py:356-374 | `get` takes the oldest command |
| Head.CreateCommands | src/addons/meta_human_dna/components/head.py:367-374 | the create commands of a mesh are one per target, in target order |
| Head.TargetCounts | src/addons/meta_human_dna/components/head.py:356-357 | one target count per mesh of the DNA |
| Head.QueuePlanStep | src/addons/meta_human_dna/components/head.py:356-374 | the commands for one more mesh come after those of the meshes before it |
| Head.QueuePlanLength | src/addons/meta_human_dna/components/head.py:356-374 | the queue holds, summed over the meshes, the target count plus one initialisation for a mesh with targets; a mesh without targets enqueues nothing |
| Head.MeshCommandsShape | src/addons/meta_human_dna/components/head.py:358-374 | every command of a mesh names that mesh, and a create command names one of its targets |
| Head.QueuePlanMembers | src/addons/meta_human_dna/components/head.py:356-374 | every queued command names a mesh that has targets, and every create command one of that mesh's targets |
| Head.QueuePlanOrdered | src/addons/meta_human_dna/components/head.py:356-374 | mesh indices never decrease along the queue |
| Head.MeshCommandsOrder | src/addons/meta_human_dna/components/head.py:358-374 | a mesh with targets enqueues its initialisation first and then creates 0 .. count - 1, each with the description `index/count {name} ...` |
| Head.EnqueueMesh | src/addons/meta_human_dna/components/head.py:357-374 | the inner loop appends exactly one mesh's commands |
| Head.ImportShapeKeys | src/addons/meta_human_dna/components/head.py:327-376 | without a head mesh a ValueError is raised before anything is queued; otherwise every mesh's commands are queued in ascending mesh order and an empty list is returned |
| Head.GetCreateKwargs | src/addons/meta_human_dna/components/head.py:340-354 | the key the create command makes is named prefix + channel name, which is the name the calibrator looks that target up under, on the object the calibrator reads; `is_neutral` carries the instance's neutral-shapes setting |
| Head.FirstWithFaceBoard | src/addons/meta_human_dna/components/head.py:52 | the first instance with a face board, or none exactly when no instance has one |
| Head.ChooseFaceBoard | src/addons/meta_human_dna/components/head.py:46-52 | import exactly when no instance has a face board; duplicate exactly when some has one, this instance has none and reuse is off; otherwise reuse the first instance that has one |
| Head.ExtraTranslation | src/addons/meta_human_dna/components/head.py:314-320 | the extra bone's default location has its y multiplied by the height factor and is turned to Z-up |
| Head.LookupExtra | src/addons/meta_human_dna/components/head.py:300-309 | the lookup in the table copy finds the last entry with that name, or none exactly when no entry has it |
| Head.RevertAction | src/addons/meta_human_dna/components/head.py:310-324 | `root` takes the rig's world matrix; an extra bone its scaled default; any other bone its DNA matrix when there is one, and nothing otherwise |
| Head.ScaleStoredY | src/addons/meta_human_dna/components/head.py:317 | rescaling a stored default keeps the table's length |
| Head.TableAfterRevert | src/addons/meta_human_dna/components/head.py:307-317 | one revert rescales the stored default of each selected extra bone, in the table itself |
| Head.RevertActions | src/addons/meta_human_dna/components/head.py:307-324 | one action per selected bone, each seeing the table as the bones before it left it |
| Head.RevertSnoc | src/addons/meta_human_dna/components/head.py:307-324 | one more selected bone adds its action and its rescaling to what the bones before it did |
| Head.RevertBoneTransforms | src/addons/meta_human_dna/components/head.py:298-324 | as written: nothing without a head rig; otherwise the actions above, and the table's stored defaults are rescaled in place |
| Head.RevertTwiceCompounds | src/addons/meta_human_dna/components/head.py:313-317 | reverting an extra bone in two successive calls gives different matrices whenever the factor is not 0 or 1 and the stored y is not 0 |
| Head.LookupExtraSameNames | src/addons/meta_human_dna/components/head.py:309 | tables with the same names give the same lookup |
| Head.TableAfterRevertOthers | src/addons/meta_human_dna/components/head.py:307-317 | reverting other bones leaves a bone's entry and its lookup as they were |
| Head.RevertActionsDistinct | src/addons/meta_human_dna/components/head.py:307-324 | within one call, with each bone selected once, every bone gets the action of the untouched table |
| Head.RevertBoneTransformsOnCopy | src/addons/meta_human_dna/components/head.py:298-324 | the intended revert: every bone's action is computed from the untouched table, and the table is not modified |
| ComponentBase.LinearModifier | src/addons/meta_human_dna/components/base.py:140-149 | a centimetre unit, in any case, gives the reciprocal of the scale factor; any other unit gives 1 |
| ComponentBase.AngleModifier | src/addons/meta_human_dna/components/base.py:151-160 | degrees give 180/pi, radians pi/180, any other unit 1, compared in lower case |
| ComponentBase.UnitModifiersIgnoreCase | src/addons/meta_human_dna/components/base.py:144-158 | both modifiers depend only on the unit name in lower case |
| ComponentBase.MirrorName | src/addons/meta_human_dna/components/base.py:671-686 | a bone is mirrored exactly when it has a side; a `_l` suffix becomes `_r`, else a `FACIAL_L` prefix becomes `FACIAL_R`, and symmetrically for the right side |
| ComponentBase.PrefixIgnoresSuffixSwap | src/addons/meta_human_dna/components/base.py:673-686 | swapping the side suffix does not change whether a `FACIAL_` prefix is present |
| ComponentBase.SuffixIgnoresPrefixSwap | src/addons/meta_human_dna/components/base.py:673-686 | swapping the `FACIAL_` prefix does not change whether a side suffix is present |
| ComponentBase.MirrorSuffixSwap | src/addons/meta_human_dna/components/base.py:673-683 | `<p>_l` and `<p>_r` mirror onto each other and lie on opposite sides |
| ComponentBase.MirrorPrefixSwap | src/addons/meta_human_dna/components/base.py:677-686 | `FACIAL_L<q>` and `FACIAL_R<q>` mirror onto each other and lie on opposite sides |
| ComponentBase.MirrorNameInvolutive | src/addons/meta_human_dna/components/base.py:671-686 | a name with exactly one side marker mirrors onto a name with one marker on the other side, and mirroring that gives the name back |
| ComponentBase.MirrorX | src/addons/meta_human_dna/components/base.py:476-477 | the mirrored location has x negated and y, z kept |
| ComponentBase.MirrorBoneTo | src/addons/meta_human_dna/components/base.py:469-482 | the target bone gets a translation to the source bone's location with x negated exactly when the rig has it; otherwise the missing bone is reported and nothing changes |
| ComponentBase.Unignored | src/addons/meta_human_dna/components/base.py:646-649 | the kept bones are exactly the selected bones not on the ignored list |
| ComponentBase.CountSide | src/addons/meta_human_dna/components/base.py:652-662 | a side count never exceeds the number of bones |
| ComponentBase.CountSideZero | src/addons/meta_human_dna/components/base.py:652-664 | a side count is 0 exactly when no bone is on that side |
| ComponentBase.MirrorAll | src/addons/meta_human_dna/components/base.py:671-689 | the mirror loop keeps the set of bones and only adds to the selection |
| ComponentBase.CountSideSnoc | src/addons/meta_human_dna/components/base.py:654-662 | one more bone adds one to its side's count |
| ComponentBase.CountSides | src/addons/meta_human_dna/components/base.py:652-662 | the counting loop computes the left and right counts |
| ComponentBase.MirrorEach | src/addons/meta_human_dna/components/base.py:671-689 | the mirror loop over the rig computes the state `MirrorAll` describes |
| ComponentBase.MirrorSelectedBones | src/addons/meta_human_dna/components/base.py:643-689 | the non-ignored selection is refused exactly when it has bones on both sides, with the counts in the message and nothing moved; otherwise every bone is mirrored in order |
| ComponentBase.MirrorAllUntargeted | src/addons/meta_human_dna/components/base.py:671-689 | a bone no selected bone mirrors onto keeps its matrix |
| ComponentBase.MirrorAllOneSide | src/addons/meta_human_dna/components/base.py:664-689 | when every selected sided bone carries exactly one side marker, all on the same side, every existing counterpart ends at its source bone's original location with x negated |
| ComponentBase.CheckConversion | src/addons/meta_human_dna/components/base.py:612-639 | the checks fail in the order no data, not exactly one UV layer, no active layer, UV count mismatch (with the summed difference), and pass exactly when all hold |
| ComponentBase.ValidateConversion | src/addons/meta_human_dna/components/base.py:607-641 | success with "Validation successful!" exactly when every check passes, otherwise a failure message |
| ComponentBase.DeleteRigLogicInstance | src/addons/meta_human_dna/components/base.py:484-490 | only an instance with no head mesh, head rig, body mesh or body rig is removed, at the active index, which becomes min(active, new length - 1) |
| ComponentBase.Candidates | src/addons/meta_human_dna/components/base.py:301-312 | the alternate paths tried are, per extension, the lower-case then the upper-case file in the maps folder |
| ComponentBase.FirstExisting | src/addons/meta_human_dna/components/base.py:306-312 | the first path of the list that exists, or none exactly when none exists |
| ComponentBase.TryExtensionsFirstCandidate | src/addons/meta_human_dna/components/base.py:301-312 | the extension loop returns the first existing candidate path |
| ComponentBase.AlternateImagePath | src/addons/meta_human_dna/components/base.py:293-313 | an existing file is kept; otherwise a non-empty alternate name gives the first existing candidate; anything returned other than the file exists |
| Callbacks.ActiveRigLogic | src/addons/meta_human_dna/ui/callbacks.py:41-48 | nothing exactly for an empty list; the entry at the active index with Python indexing; an IndexError exactly for an index outside -n .. n-1 |
| Callbacks.ActiveAfterAdd | src/addons/meta_human_dna/ui/callbacks.py:41-48 | after the add operator, the active instance is the entry just added |
| Callbacks.TopoLabelHasNoUnderscore | src/addons/meta_human_dna/ui/callbacks.py:130 | a topology group's label is capitalized words joined by spaces, with no underscore left |
| Callbacks.TopoItems | src/addons/meta_human_dna/ui/callbacks.py:125-133 | the getters list at most one item per vertex group |
| Callbacks.TopoItemsKept | src/addons/meta_human_dna/ui/callbacks.py:125-155 | every item listed is a `TOPO_GROUP_` vertex group of the mesh that the mode keeps, with its label |
| Callbacks.BodyModesSplit | src/addons/meta_human_dna/ui/callbacks.py:150-155 | the body's high-level and detailed lists together hold every topology group exactly once |
| Callbacks.BodyModesPartition | src/addons/meta_human_dna/ui/callbacks.py:150-155 | no group is in both of the body's lists |
| Callbacks.InsertById | src/addons/meta_human_dna/ui/callbacks.py:136 | inserting an item adds exactly that item |
| Callbacks.SortById | src/addons/meta_human_dna/ui/callbacks.py:136-158 | sorting keeps exactly the collected items |
| Callbacks.InsertKeepsSorted | src/addons/meta_human_dna/ui/callbacks.py:136 | inserting into a list sorted by identifier keeps it sorted |
| Callbacks.SortByIdSorted | src/addons/meta_human_dna/ui/callbacks.py:136-158 | the dropdown comes out sorted by identifier and holds exactly the collected items |
| Callbacks.CollectTopoItems | src/addons/meta_human_dna/ui/callbacks.py:125-155 | the getter loop collects exactly the groups the mode keeps, in vertex-group order |
| Callbacks.MeshTopologyGroups | src/addons/meta_human_dna/ui/callbacks.py:121-159 | without an instance or mesh the list is empty; otherwise it is the kept groups sorted by identifier |
| Callbacks.LodVisibility | src/addons/meta_human_dna/ui/callbacks.py:352-362 | an object of the instance that is a mesh is hidden exactly when it is not that LOD's mesh or is one of the four ignored meshes; any other object is untouched |
| Callbacks.LodVisibilityIdempotent | src/addons/meta_human_dna/ui/callbacks.py:350-362 | choosing the same LOD again changes nothing, whatever was visible before |
| Callbacks.SetActiveLod | src/addons/meta_human_dna/ui/callbacks.py:350-362 | the LOD is stored and every scene object gets the visibility above |
| Callbacks.NodeGroup.ApplyPreview | src/addons/meta_human_dna/ui/callbacks.py:410-430 | each of the four preview values sets its three factors; any other value leaves them |
| Callbacks.PreviewFactorsDistinct | src/addons/meta_human_dna/ui/callbacks.py:410-430 | the four previews set four different combinations of factors |
| Callbacks.SetActiveMaterialPreview | src/addons/meta_human_dna/ui/callbacks.py:399-430 | the value is stored; the head node group gets the factors, then the body's; a missing head group ends the callback with the body group untouched |
| Callbacks.CopiedInstanceName | src/addons/meta_human_dna/ui/callbacks.py:375-385 | a stored value wins; otherwise `<name>_copy` when the instance has both meshes, its own name exactly when one is missing, and '' without an instance |
| Callbacks.ShiftedTemplates | src/addons/meta_human_dna/ui/callbacks.py:242-246 | the other add-on's templates never include the default's identifier |
| Callbacks.ShiftedTemplatesMembers | src/addons/meta_human_dna/ui/callbacks.py:242-246 | every listed template is one of the other add-on's with its index one higher, and every one not named as the default is listed |
| Callbacks.ShiftedTemplatesInOrder | src/addons/meta_human_dna/ui/callbacks.py:242-246 | the `j`-th template listed is the other add-on's `j`-th template that is not the default, with its index one higher, so the order is kept |
| Callbacks.ShiftTemplates | src/addons/meta_human_dna/ui/callbacks.py:242-246 | the loop computes exactly the shifted templates |
| Callbacks.Send2UeSettingsTemplates | src/addons/meta_human_dna/ui/callbacks.py:228-247 | the add-on's own template is first at index 0; when the other add-on is installed it is followed by that add-on's templates other than the default, in their own order, each with its index one higher |
| Callbacks.DefaultTemplateOnce | src/addons/meta_human_dna/ui/callbacks.py:228-247 | the default template is listed once, at index 0 |
| Callbacks.ExistingLodItems | src/addons/meta_human_dna/ui/callbacks.py:711-714 | the loop yields one `lod<i>` item per existing head LOD mesh, in LOD order |
| Callbacks.ExistingLods | src/addons/meta_human_dna/ui/callbacks.py:711-714 | the LODs below the count whose `<instance>_head_lod<i>_mesh` is in the scene: every one of them, each once, ascending |
| Callbacks.HeadMeshLodItems | src/addons/meta_human_dna/ui/callbacks.py:704-724 | the existing head LODs in order, or a single `lod0` item when there are none or no instance; the list is never empty |
| MeshUtil.OffsetAll | src/addons/meta_human_dna/utilities/mesh.py:99-101 | moving the listed vertices keeps the vertex count |
| MeshUtil.OffsetAllCounts | src/addons/meta_human_dna/utilities/mesh.py:99-101 | each vertex ends moved by the offset once per time it is listed; an unlisted vertex stays where it is |
| MeshUtil.AddScaleStep | src/addons/meta_human_dna/utilities/mesh.py:101 | adding the offset once more after c times is adding it c + 1 times |
| MeshUtil.UpdateVertexPositions | src/addons/meta_human_dna/utilities/mesh.py:89-104 | succeeds exactly when every index is valid (negative ones counting from the end) and then moves each listed vertex; an invalid index raises before the write-back and the mesh is unchanged |
| MeshUtil.ZeroMiddleX | src/addons/meta_human_dna/utilities/mesh.py:132-133 | a vertex strictly inside the band gets x = 0; any other vertex is unchanged; y and z never change |
| MeshUtil.ZeroXOnMiddleVertices | src/addons/meta_human_dna/utilities/mesh.py:123-136 | every vertex of the mesh is zeroed as above |
| MeshUtil.ZeroMiddleXIdempotent | src/addons/meta_human_dna/utilities/mesh.py:123-136 | zeroing twice is zeroing once, and zeroing keeps a vertex in or out of the band |
| MeshUtil.MiddleIndices | src/addons/meta_human_dna/utilities/mesh.py:115-117 | the middle vertices are exactly those strictly inside the band, in ascending order |
| MeshUtil.GetMiddleVertices | src/addons/meta_human_dna/utilities/mesh.py:106-121 | the loop collects exactly the middle vertices for the 0.001 band |
| MeshUtil.ZeroedCoords | src/addons/meta_human_dna/utilities/mesh.py:131-133 | each vertex of the mesh zeroed on its own |
| MeshUtil.MiddleIndicesAfterZeroing | src/addons/meta_human_dna/utilities/mesh.py:106-136 | zeroing the middle does not change which vertices are in the middle |
| MeshUtil.Translated | src/addons/meta_human_dna/utilities/mesh.py:99-101 | each point moved by the offset |
| MeshUtil.SumOfTranslated | src/addons/meta_human_dna/utilities/mesh.py:274-277 | the sum of translated points is the sum plus n times the offset |
| MeshUtil.MeanOfTranslated | src/addons/meta_human_dna/utilities/mesh.py:270-283 | moving every point by an offset moves their centre by that offset |
| MeshUtil.SelectedCoords | src/addons/meta_human_dna/utilities/mesh.py:265 | at most one coordinate per vertex |
| MeshUtil.SumLoop | src/addons/meta_human_dna/utilities/mesh.py:274-293 | the summing loop computes the component-wise sum |
| MeshUtil.CenterOfSelectedVertices | src/addons/meta_human_dna/utilities/mesh.py:260-283 | the origin when nothing is selected, otherwise the mean of the selected coordinates |
| MeshUtil.CenterOfVectors | src/addons/meta_human_dna/utilities/mesh.py:286-299 | the mean of the vectors; with none the division raises ZeroDivisionError |
| MeshUtil.MaxOf | src/addons/meta_human_dna/utilities/mesh.py:368 | the maximum is one of the values and no value exceeds it |
| MeshUtil.MinOf | src/addons/meta_human_dna/utilities/mesh.py:368 | the minimum is one of the values and none is below it |
| MeshUtil.BoundingBoxWidth | src/addons/meta_human_dna/utilities/mesh.py:359-369 | 0 without a bounding box; otherwise a non-negative width that is the difference of two corners' x and spans every corner's x |
| MeshUtil.BoundingBoxHeight | src/addons/meta_human_dna/utilities/mesh.py:371-381 | the same over z |
| MeshUtil.BoundingBoxLeftX | src/addons/meta_human_dna/utilities/mesh.py:343-349 | the smallest corner x, and a ValueError exactly when there are no corners |
| MeshUtil.BoundingBoxRightX | src/addons/meta_human_dna/utilities/mesh.py:351-357 | the largest corner x, and a ValueError exactly when there are no corners |
| MeshUtil.LeftOfRight | src/addons/meta_human_dna/utilities/mesh.py:343-369 | the left edge is never right of the right edge, and their distance is the width of the same corners |
| MeshUtil.BoundingBoxCenter | src/addons/meta_human_dna/utilities/mesh.py:336-341 | for the eight corners of a bounding box, their mean |
| MeshUtil.ClosestIndex | src/addons/meta_human_dna/utilities/mesh.py:383-387 | the first vertex of smallest squared distance |
| MeshUtil.FindClosestVertex | src/addons/meta_human_dna/utilities/mesh.py:383-387 | a vertex of the list no farther than any other; an empty list raises ValueError exactly |
| MeshUtil.GroupMembers | src/addons/meta_human_dna/utilities/mesh.py:505-511 | exactly the vertices in the group at or above the weight threshold, in ascending order |
| MeshUtil.VertexGroupVertices | src/addons/meta_human_dna/utilities/mesh.py:496-511 | nothing for a missing group; otherwise a vertex is listed exactly when it is in the group at or above the threshold, in ascending order |
| MeshUtil.LodIndex | src/addons/meta_human_dna/utilities/mesh.py:244-258 | -1 exactly when the pattern does not match; any other result is a digit 0-9; a match with no groups raises IndexError |
| MeshUtil.LodIndexLastDigitOnly | src/addons/meta_human_dna/utilities/mesh.py:256-257 | a last group ending in a digit gives that digit, whatever precedes it, so `lod12` reads as 2 |
| ActionUtil.CurveTarget | src/addons/meta_human_dna/utilities/action.py:17-31 | no or an empty data path means location, unscaled; `rotation` means Euler rotation; any other path is lower-cased; every named path is scaled by -0.01 |
| ActionUtil.AxisIndex | src/addons/meta_human_dna/utilities/action.py:20-34 | an axis letter in either case gives its component index, and any other text gives none |
| ActionUtil.AxisIndexIgnoresCase | src/addons/meta_human_dna/utilities/action.py:34 | the axis lookup ignores case |
| ActionUtil.Scaled | src/addons/meta_human_dna/utilities/action.py:42-44 | one point per key, each at the key's frame with the value multiplied by the scale |
| ActionUtil.KeyedCurveValues | src/addons/meta_human_dna/utilities/action.py:17-44 | location keys keep their values; keys on a named path are scaled by -0.01; every point keeps its key's frame |
| ActionUtil.Action.SetKeysOnBone | src/addons/meta_human_dna/utilities/action.py:10-44 | one new fcurve on the bone's channel is appended, with one point per key in key order |
| ActionUtil.Action.RemoveAllCurves | src/addons/meta_human_dna/utilities/action.py:122-123 | the action ends with no fcurves |
| ActionUtil.Armature.AssignAction | src/addons/meta_human_dna/utilities/action.py:104-107 | the armature has animation data and the action assigned |
| ActionUtil.ActionLibrary.Recreate | src/addons/meta_human_dna/utilities/action.py:87-91 | any action of that name is removed and a new empty one is stored under the name |
| ActionUtil.UseEulerXyz | src/addons/meta_human_dna/utilities/action.py:126-127 | every pose bone's rotation mode becomes `XYZ` |
| ActionUtil.ParseCurveName | src/addons/meta_human_dna/utilities/action.py:136-145 | a parsed name has a non-empty bone and axis without dots, and three pieces or two pieces give back the name they came from; more than three pieces never parse |
| ActionUtil.ParseCurveNameRoundTrip | src/addons/meta_human_dna/utilities/action.py:136-143 | `bone.path.axis`, `bone.axis` and a bare bone name parse back to their parts, the bare name keyed on Y |
| ActionUtil.JsonCurves | src/addons/meta_human_dna/utilities/action.py:131-154 | every curve name of the file gives either one fcurve or one logged error |
| ActionUtil.JsonCurvesSnoc | src/addons/meta_human_dna/utilities/action.py:131-154 | one more entry adds its fcurve or its error after the earlier ones |
| ActionUtil.JsonCurvesAllParsed | src/addons/meta_human_dna/utilities/action.py:131-154 | when every name parses, every curve is written in file order and nothing is logged |
| ActionUtil.JsonActionName | src/addons/meta_human_dna/utilities/action.py:116 | the action name is the file name up to its first dot, so it holds no dot |
| ActionUtil.JsonActionNameOfFile | src/addons/meta_human_dna/utilities/action.py:116 | for `folder/stem.ext` with a dot-free stem the action is named `stem` |
| ActionUtil.WriteJsonCurves | src/addons/meta_human_dna/utilities/action.py:131-154 | the loop appends exactly the file's fcurves and returns exactly its errors |
| ActionUtil.ImportActionFromJson | src/addons/meta_human_dna/utilities/action.py:110-156 | the action named after the file is reused or created, emptied, filled with the file's curves in order, assigned to the armature, and every pose bone uses Euler XYZ; no other action in the library changes |
| ActionUtil.FbxCurveName | src/addons/meta_human_dna/utilities/action.py:62 | a take's curve name holds no dot |
| ActionUtil.FbxCurveNameOfTake | src/addons/meta_human_dna/utilities/action.py:61-62 | a take named after a curve gives that curve's name back |
| ActionUtil.FbxAxis | src/addons/meta_human_dna/utilities/action.py:54-66 | a component index has an axis letter exactly when it is below 3 |
| ActionUtil.FbxAxisRoundTrip | src/addons/meta_human_dna/utilities/action.py:34-66 | the FBX axis letter maps back to the component it came from |
| ActionUtil.PointPairs | src/addons/meta_human_dna/utilities/action.py:67-69 | one (frame, value) pair per keyframe, in order |
| ActionUtil.WithTakeCurves | src/addons/meta_human_dna/utilities/action.py:63-69 | recording a take changes only entries of its own curve name and loses no other entry |
| ActionUtil.WithoutCurve | src/addons/meta_human_dna/utilities/action.py:63 | `curves[curve_name] = {}` drops exactly that curve's entries |
| ActionUtil.FbxCurvesFromTakes | src/addons/meta_human_dna/utilities/action.py:60-69 | every collected curve comes from a take whose curve name it carries |
| ActionUtil.LastTakeWins | src/addons/meta_human_dna/utilities/action.py:60-69 | the last take of a curve name alone decides that curve's entries: which channels it has and their keyframes |
| ActionUtil.TakeCurvesKeys | src/addons/meta_human_dna/utilities/action.py:63-69 | after a take, a curve of that name is present exactly when the take has an fcurve on that channel |
| ActionUtil.TakeCurvesLast | src/addons/meta_human_dna/utilities/action.py:63-69 | a channel of a take holds the keyframe pairs of the take's last fcurve on that data path and axis |
| ActionUtil.RecordTake | src/addons/meta_human_dna/utilities/action.py:63-69 | the fcurve loop of one take records its channels in order, a later fcurve on the same channel winning |
| ActionUtil.GetAnimationCurvesFromFbx | src/addons/meta_human_dna/utilities/action.py:46-80 | the loop over the imported actions collects exactly the curves described by `FbxCurves` |
| ActionUtil.FbxFCurves | src/addons/meta_human_dna/utilities/action.py:93-102 | one fcurve per listed curve, in the listed order |
| ActionUtil.FbxFCurvesSnoc | src/addons/meta_human_dna/utilities/action.py:93-102 | writing one more curve appends its fcurve |
| ActionUtil.FbxFCurvesHaveEach | src/addons/meta_human_dna/utilities/action.py:93-102 | every collected curve has its fcurve among those written |
| ActionUtil.FbxFCurvesOnlyCurves | src/addons/meta_human_dna/utilities/action.py:93-102 | every fcurve written is the fcurve of a collected curve |
| ActionUtil.FbxFCurvesCover | src/addons/meta_human_dna/utilities/action.py:93-102 | writing the curves in any order that lists each once gives exactly one fcurve per curve |
| ActionUtil.CurveOrder | src/addons/meta_human_dna/utilities/action.py:93-95 | the dictionary's iteration lists every collected curve exactly once |
| ActionUtil.WriteFbxCurves | src/addons/meta_human_dna/utilities/action.py:93-102 | the loop writes one fcurve per curve in iteration order; a curve without an axis letter stops it with an AttributeError exactly |
| ActionUtil.WriteFbxAction | src/addons/meta_human_dna/utilities/action.py:87-102 | the action of that name is recreated; the write fails exactly when some curve lacks an axis letter |
| ActionUtil.ImportActionFromFbx | src/addons/meta_human_dna/utilities/action.py:83-107 | the action named after the file's stem is recreated with one fcurve per collected curve and assigned to the armature; a curve without an axis letter raises AttributeError and leaves the armature's action as it was |
| Send2UeExtension.Neutral | src/addons/meta_human_dna/resources/send2ue/meta_human_dna_extension.py:43-45 | a leaf `CTRL_` bone is put at the origin; every other bone is unchanged |
| Send2UeExtension.NeutralIdempotent | src/addons/meta_human_dna/resources/send2ue/meta_human_dna_extension.py:43-45 | neutralising twice is neutralising once |
| Send2UeExtension.PreOperation | src/addons/meta_human_dna/resources/send2ue/meta_human_dna_extension.py:36-46 | dependency-graph evaluation is switched off; with an active instance every face-board bone is neutralised in place; an active instance without a face board raises AttributeError |
| Send2UeExtension.FirstError | src/addons/meta_human_dna/resources/send2ue/meta_human_dna_extension.py:53-75 | no error exactly when every check passes; otherwise one of the checks' errors |
| Send2UeExtension.FirstErrorAt | src/addons/meta_human_dna/resources/send2ue/meta_human_dna_extension.py:53-75 | an error after only passing checks is the one reported |
| Send2UeExtension.FirstErrorAppend | src/addons/meta_human_dna/resources/send2ue/meta_human_dna_extension.py:53-75 | the first error of two runs of checks is the first run's, if it has one |
| Send2UeExtension.ScanErrors | src/addons/meta_human_dna/resources/send2ue/meta_human_dna_extension.py:60-75 | the check loop returns the first error |
| Send2UeExtension.PreValidations | src/addons/meta_human_dna/resources/send2ue/meta_human_dna_extension.py:49-76 | with the extension enabled and an instance with a head mesh, the first error of folder, then asset paths, then slot paths is reported and stops the export; otherwise the export goes on |
| Send2UeExtension.Chosen | src/addons/meta_human_dna/resources/send2ue/meta_human_dna_extension.py:89-95 | an object is chosen exactly when an included output item holds it and its LOD index is in the set |
| Send2UeExtension.SelectItems | src/addons/meta_human_dna/resources/send2ue/meta_human_dna_extension.py:89-95 | the chosen objects are made visible and selected, and nothing is exported |
| Send2UeExtension.Segments | src/addons/meta_human_dna/resources/send2ue/meta_human_dna_extension.py:101 | the non-empty pieces of the folder, each one of the pieces |
| Send2UeExtension.SegmentsAppend | src/addons/meta_human_dna/resources/send2ue/meta_human_dna_extension.py:101 | the segments of two piece lists are the segments of each, in order |
| Send2UeExtension.SegmentsOfSegments | src/addons/meta_human_dna/resources/send2ue/meta_human_dna_extension.py:101 | a list of non-empty pieces is its own segments |
| Send2UeExtension.AssetFolderPieces | src/addons/meta_human_dna/resources/send2ue/meta_human_dna_extension.py:101 | a normalised folder splits into its segments between two empty ends |
| Send2UeExtension.SegmentsOfFolderPieces | src/addons/meta_human_dna/resources/send2ue/meta_human_dna_extension.py:101 | the segments of a normalised folder are the segments it was built from |
| Send2UeExtension.AssetFolderIdempotent | src/addons/meta_human_dna/resources/send2ue/meta_human_dna_extension.py:101 | normalising an already normalised folder changes nothing |
| Send2UeExtension.PreMeshExport | src/addons/meta_human_dna/resources/send2ue/meta_human_dna_extension.py:78-108 | only for the head mesh with the extension enabled: the selection becomes the included LOD 0 and LOD-less objects, made visible, and the asset's file, folder and path are renamed after the instance; otherwise nothing changes |
| Send2UeExtension.PostMeshExport | src/addons/meta_human_dna/resources/send2ue/meta_human_dna_extension.py:110-116 | the exporter's own LOD export is skipped exactly when the extension is enabled and the asset has LOD files; nothing else changes |
| Send2UeExtension.LodOrder | src/addons/meta_human_dna/resources/send2ue/meta_human_dna_extension.py:128-134 | the LOD indices collected never include 0 or -1 and are all different |
| Send2UeExtension.LodOrderMembers | src/addons/meta_human_dna/resources/send2ue/meta_human_dna_extension.py:128-134 | a LOD index is collected exactly when some included item with an object has it and it is not 0 or -1 |
| Send2UeExtension.LodOrderFirstSeen | src/addons/meta_human_dna/resources/send2ue/meta_human_dna_extension.py:128-134 | the LODs of a prefix of the output list come first, in the same order |
| Send2UeExtension.LodKeys | src/addons/meta_human_dna/resources/send2ue/meta_human_dna_extension.py:135 | the keys are exactly the collected LOD indices as text |
| Send2UeExtension.LodFiles | src/addons/meta_human_dna/resources/send2ue/meta_human_dna_extension.py:132-135 | one entry per collected LOD, keyed by the index as text, holding `<stem>_lod<i>_mesh.fbx` beside the main file |
| Send2UeExtension.LodFilesAppend | src/addons/meta_human_dna/resources/send2ue/meta_human_dna_extension.py:132-135 | one more LOD adds its own entry and keeps the others |
| Send2UeExtension.CollectLods | src/addons/meta_human_dna/resources/send2ue/meta_human_dna_extension.py:125-135 | the output-list loop computes the LOD order and the `lods` entries together |
| Send2UeExtension.LodExportsOfOutput | src/addons/meta_human_dna/resources/send2ue/meta_human_dna_extension.py:143-166 | exactly one export per collected LOD, in order, each with that LOD's objects and the head rig |
| Send2UeExtension.LodExportsSnoc | src/addons/meta_human_dna/resources/send2ue/meta_human_dna_extension.py:143-166 | one more LOD adds its export after the earlier ones |
| Send2UeExtension.ExportLod | src/addons/meta_human_dna/resources/send2ue/meta_human_dna_extension.py:148-166 | one LOD export selects and shows only that LOD's objects and the head rig, then exports them |
| Send2UeExtension.ExportLods | src/addons/meta_human_dna/resources/send2ue/meta_human_dna_extension.py:143-166 | the export loop exports the LODs one after the other, each with its own selection |
| Send2UeExtension.PreImport | src/addons/meta_human_dna/resources/send2ue/meta_human_dna_extension.py:118-166 | only for the head mesh with the extension enabled: `lods` holds one file per LOD other than 0 and -1, `skip` is reset and each LOD is exported; otherwise nothing changes |
| Send2UeExtension.PostImport | src/addons/meta_human_dna/resources/send2ue/meta_human_dna_extension.py:168-171 | with the extension enabled, the imported mesh's name and asset path are remembered; otherwise nothing changes |
| Send2UeExtension.SlotPaths | src/addons/meta_human_dna/resources/send2ue/meta_human_dna_extension.py:202 | every slot's name is a key, each mapped to the path of a slot with that name |
| Send2UeExtension.SlotPathsLastWins | src/addons/meta_human_dna/resources/send2ue/meta_human_dna_extension.py:202 | for a repeated slot name the dictionary holds the asset path of the last slot with that name, as the comprehension's later assignment overwrites the earlier |
| Send2UeExtension.FaceUpdate | src/addons/meta_human_dna/resources/send2ue/meta_human_dna_extension.py:192-203 | the update names the instance's exported DNA file and its head material, or '' without one |
| Send2UeExtension.PostOperationAsWritten | src/addons/meta_human_dna/resources/send2ue/meta_human_dna_extension.py:173-208 | as written: with the extension enabled and no active instance the hook raises AttributeError and the extension stays enabled with evaluation off; otherwise the update is sent for the head mesh and the extension is switched off |
| Send2UeExtension.PostOperation | src/addons/meta_human_dna/resources/send2ue/meta_human_dna_extension.py:173-208 | the intended hook: the update is sent exactly when the enabled extension exported the instance's head mesh, and the extension always ends off with evaluation on |
| LevelSequence.Reverse | src/addons/meta_human_dna/resources/unreal/meta_human_dna_utilities/level_sequence.py:15 | the names in reverse order |
| LevelSequence.WalkEnd | src/addons/meta_human_dna/resources/unreal/meta_human_dna_utilities/level_sequence.py:12-17 | the walk up the hierarchy stops at the first ancestor with an empty name, or at the root |
| LevelSequence.JoinReverseStep | src/addons/meta_human_dna/resources/unreal/meta_human_dna_utilities/level_sequence.py:15 | putting one more ancestor in front adds `<name>/` before the path |
| LevelSequence.PathFromJoins | src/addons/meta_human_dna/resources/unreal/meta_human_dna_utilities/level_sequence.py:5-17 | the recursion joins the names from the last ancestor reached down to the binding with `/` |
| LevelSequence.BindingPathJoins | src/addons/meta_human_dna/resources/unreal/meta_human_dna_utilities/level_sequence.py:5-17 | a binding's path is the names from its outermost ancestor reached without passing an empty name, down to the binding, joined by `/` |
| LevelSequence.BindingPathOfTopLevel | src/addons/meta_human_dna/resources/unreal/meta_human_dna_utilities/level_sequence.py:12-17 | a binding whose parent has an empty name is known by its own name alone |
| LevelSequence.KeyPairs | src/addons/meta_human_dna/resources/unreal/meta_human_dna_utilities/level_sequence.py:29-34 | one (frame, value) pair per key, in key order |
| LevelSequence.KeyframesFromChannel | src/addons/meta_human_dna/resources/unreal/meta_human_dna_utilities/level_sequence.py:19-34 | the loop collects exactly those pairs |
| LevelSequence.CurveKeyOfChannel | src/addons/meta_human_dna/resources/unreal/meta_human_dna_utilities/level_sequence.py:63 | the channel `<curve>_<component>` keys `<curve>` |
| LevelSequence.CurveKeyframes | src/addons/meta_human_dna/resources/unreal/meta_human_dna_utilities/level_sequence.py:59-66 | every recorded curve has at least one keyframe |
| LevelSequence.CurveKeyframesKeys | src/addons/meta_human_dna/resources/unreal/meta_human_dna_utilities/level_sequence.py:60-66 | a curve is recorded exactly when some channel with keys names it |
| LevelSequence.CurveKeyframesLastWins | src/addons/meta_human_dna/resources/unreal/meta_human_dna_utilities/level_sequence.py:60-66 | the last keyed channel of a curve decides its keyframes |
| LevelSequence.SectionKeyframes | src/addons/meta_human_dna/resources/unreal/meta_human_dna_utilities/level_sequence.py:59-66 | the channel loop computes exactly those curves |
| LevelSequence.FindBinding | src/addons/meta_human_dna/resources/unreal/meta_human_dna_utilities/level_sequence.py:51-52 | a binding is found exactly when some binding has that path, and the one found is the last such |
| LevelSequence.SequenceTrackKeyframes | src/addons/meta_human_dna/resources/unreal/meta_human_dna_utilities/level_sequence.py:36-68 | nothing for an unknown path; IndexError when the binding has no track or its first track no section; otherwise the curves of the first section |
| LevelSequence.LevelSequencePathKeepsFolder | src/addons/meta_human_dna/resources/unreal/meta_human_dna_utilities/level_sequence.py:82-84 | the asset path is the folder as given between `/`s, then the name, so a folder starting with `/` gives `//` |
| Text.FindFrom | src/addons/meta_human_dna/operators.py:1320 | the first occurrence at or after a position, or none exactly when there is none |
| Text.RFindBefore | src/addons/meta_human_dna/components/base.py:674 | the last occurrence ending at or before a position, or none exactly when there is none |
| Text.ReplaceFirstOfPrefix | src/addons/meta_human_dna/components/base.py:678 | replacing the first occurrence of a prefix replaces the prefix |
| Text.ReplaceLastOfSuffix | src/addons/meta_human_dna/components/base.py:674-675 | replacing the last occurrence of a suffix replaces the suffix |
| Text.ReplaceAllTrailing | src/addons/meta_human_dna/utilities/action.py:62 | removing a trailing pattern whose first character the rest never contains gives the rest |
| Text.SplitWithoutSeparator | src/addons/meta_human_dna/utilities/action.py:136-143 | a string without the separator splits into itself alone |
| Text.SplitConcat | src/addons/meta_human_dna/utilities/action.py:136 | splitting at a separator splits the two sides independently |
| Text.JoinSplit | src/addons/meta_human_dna/utilities/action.py:136 | joining the pieces of a split with the separator gives back the string |
| Text.SplitJoin | src/addons/meta_human_dna/resources/unreal/meta_human_dna_utilities/level_sequence.py:82-84 | splitting a join of separator-free pieces gives the pieces back |
| Text.FileNameParts | src/addons/meta_human_dna/utilities/action.py:88 | a file `<folder>/<stem>.<extension>` has that base name, stem and extension |
| Text.Lower | src/addons/meta_human_dna/components/base.py:144 | lower-casing maps each character and keeps the length |
| Text.LowerIdempotent | src/addons/meta_human_dna/components/base.py:144 | lower-casing twice is lower-casing once |
| Text.Capitalize | src/addons/meta_human_dna/ui/callbacks.py:130 | the first character upper case, the rest lower case, the length kept |
| Text.LessEqTotal | src/addons/meta_human_dna/ui/callbacks.py:136 | any two identifiers are ordered one way or the other |
| Text.LessEqTransitive | src/addons/meta_human_dna/ui/callbacks.py:136 | the identifier order is transitive |
| Text.LessEqAntisymmetric | src/addons/meta_human_dna/ui/callbacks.py:136 | identifiers ordered both ways are equal |
| Text.DigitValue | src/addons/meta_human_dna/utilities/mesh.py:257 | a digit character gives its value, and any other character none |
| Geometry.RotationsCancel | src/addons/meta_human_dna/operators.py:1339 | the -90 and +90 degree turns about X undo each other |
| Geometry.RotationsPreserveLength | src/addons/meta_human_dna/dna_io/calibrator.py:89-114 | both turns keep a vector's length |
| Geometry.RotationIsLinear | src/addons/meta_human_dna/operators.py:1349-1350 | turning a scaled vector is scaling the turned vector |
| Geometry.DivUndoesScale | src/addons/meta_human_dna/dna_io/calibrator.py:89-114 | dividing by a non-zero factor undoes scaling by it |
| Geometry.ZeroNeverLonger | src/addons/meta_human_dna/dna_io/calibrator.py:114 | the zero delta is never above a length threshold |
| Geometry.Zip3 | src/addons/meta_human_dna/dna_io/calibrator.py:49 | `zip` of three arrays stops at the shortest and pairs their entries |
| Geometry.Zip3Update | src/addons/meta_human_dna/dna_io/calibrator.py:194-197 | writing one row into three parallel arrays writes that triple into their zip |

## Left out

- The Blender, Unreal and riglogic hosts are not modelled. The DNA reader's arrays, scene objects, bones, shape keys, `bpy.data` collections, the Send to Unreal formatter results and files on disk all become parameters or records.
- Floating point is not modelled: numbers are exact reals, and `math.pi`-based unit conversions are taken as given constants.
- Square roots are not modelled: length thresholds are compared through squared lengths, which is exact for reals.
- Constants defined in `constants.py` (`EXTRA_BONES` contents, `SCALE_FACTOR`, the shape-key delta thresholds, `DEFAULT_HEAD_MESH_VERTEX_POSITION_COUNT`, `NUMBER_OF_HEAD_LODS`) are parameters, because that file is not part of this model.
- Exceptions raised by Blender or riglogic (an out-of-range `remove`/`move`, a missing key block) are modelled as the nearest Python exception (`IndexError`, `KeyError`), because the hosts' own exception classes are not visible.
- Case mapping (`lower()`, `upper()`) covers ASCII letters only, because there is no Unicode case folding here.
- Paths are plain strings assumed to be normalised. `os.path` and `pathlib` are modelled only as far as `basename`, `stem`, `splitext` and `parent / name`.
- ComponentBase.MirrorAllOneSide: the promise is proved only when every selected sided bone carries exactly one side marker (a `_l`/`_r` suffix or a `FACIAL_L`/`FACIAL_R` prefix). The count check at base.py 654-668 also accepts a name such as `FACIAL_L_a_r`, whose first marker found is on the selected side. With both `FACIAL_L_a_l` and `FACIAL_L_a_r` selected, the first bone's mirror overwrites `FACIAL_L_a_r` before that bone is read, so no such promise holds there.
- ComponentBase.MirrorSelectedBones: the closing `utilities.apply_pose(self.head_rig_object, selected=True)` (base.py 692) is not modelled. That helper is not part of this model, so the rest pose it bakes is not captured. Only the pose translations and the selection are.
- Head.GetCreateKwargs: the record carries `is_neutral` (head.py 351) as the source builds it, but `create_shape_key` (dna_io/misc.py 87-96) declares no such parameter, so `callback(**kwargs)` (operators.py 68) raises TypeError unless the `exclude_rig_logic_evaluation` decorator drops it. That decorator is not part of this model, so the model does not say whether the create step raises there.
- Operators.ReImportThisShapeKey: selecting the edited key in the instance's own shape-key list (`shape_key_list_active_index`, operators.py 1140-1144) is not modelled, because the instance's list is not part of the method's state; the mesh's active shape key is.
- Head.RevertBoneTransforms: every selected bone is taken to be a bone of the head rig. A selected name the rig lacks raises KeyError at `edit_bones[bone_name]` (head.py 308), which the model does not represent.
- ComponentBase.MirrorSelectedBones: its precondition that every selected pose bone is a bone of the head rig is an assumption. With several armatures in pose mode, `selected_pose_bones` can also hold bones of another armature, and that case is not modelled.
- Operators.ReImportThisShapeKey: two failures inside `validate` are folded into the cancel without a report (`keyIndex` none). One is the Basis path on a mesh without a `Basis` block, where `key_blocks.get` gives None (operators.py 1125) and the later `.data` access raises AttributeError. The other is an uncaught KeyError from `head_channel_name_to_index_lookup[...]` (operators.py 1087). Blender cancels the operator in both cases, but the model does not carry the exception.
- ActionUtil.Action.SetKeysOnBone: Blender's `fcurves.new` (action.py 35-38) is modelled as always appending. Its own errors are host behaviour that the source does not show, so they are not modelled: a TypeError for an axis that maps to no index, and a RuntimeError for a second fcurve on the same data path and index.
- ActionUtil.ImportActionFromJson: because of the `SetKeysOnBone` line above, a curve name with an axis other than x, y or z (`bone.w`), or two names on one channel (`bone.x` and `bone.X`), still produces an fcurve and the assignment to the armature. In Blender the import would stop before `armature.animation_data.action = action`.
- ActionUtil.ImportActionFromFbx: for the same reason, two data paths that lower-case to the same channel (`location` and `Location`) give two fcurves rather than a RuntimeError, and `OneFCurvePerCurve` and the assignment are promised there too.
- ActionUtil.ImportActionFromFbx: removing the objects and actions the FBX import brought in (action.py 71-78) is host clean-up that is not modelled, together with the FBX importer itself.
- ActionUtil.ImportActionFromFbx: the order in which the FBX curves come out of the importer's dictionary is not modelled, only which curves are created with which keys.
- ActionUtil.ImportActionFromJson: removing fcurves while iterating over the same collection is modelled as removing all of them, because the host collection's behaviour under that loop is not visible.
- MeshUtil.LodIndex: the regular expression in `get_lod_index` is not modelled. The function takes the match (or its absence) and its groups as input.
- The binding-path walk in `_get_binding_path` follows the code. It stops at the first ancestor whose parent has an empty name, so a non-empty name above an empty one is never reached.
- In the head component, the head rig is taken to exist wherever the source reads it without a check.
- The rig-logic remove operator's deletion of output objects, images and collections (operators.py 1684-1697) is not modelled. Only the list update and the new active index are modelled.
- Not modelled: rig evaluation, `export_file`, the Unreal remote-call plumbing (`make_remote`, RPC), `sys.path` handling, and scene and context switching (mode switches, selection, redraws). They only move data between hosts.
- `add_asset_to_level_sequence` and the Unreal asset loading and creation it depends on are not modelled, because they are calls into the Unreal editor.
- The exporter and importer classes that the calibrator and the DNA file helpers call are not modelled. Their results are parameters.

## Findings

| source | as written | input that shows it | evidently intended | confidence | as-written member | corrected member |
|---|---|---|---|---|---|---|
| src/addons/meta_human_dna/components/head.py:307-320 | `dict(EXTRA_BONES)` copies only the outer table, so `location.y = location.y * height_factor` rescales the shared default location in place | two successive reverts of the same extra bone, with a height factor other than 0 and 1 and a stored y other than 0: the second revert uses y times the factor squared | each revert scales a copy of the stored default, so every call gives the same matrix and the table is never changed | medium, not executed | Head.RevertTwiceCompounds | Head.RevertBoneTransformsOnCopy |
| src/addons/meta_human_dna/resources/send2ue/meta_human_dna_extension.py:184-208 | `post_operation` reads `instance.head_material` before the check that an instance exists | the extension enabled with no active rig-logic instance: `AttributeError` is raised, so the extension stays enabled and dependency-graph evaluation is not switched back on | read the instance only after the check, and always switch the extension off and evaluation back on | high, not executed | Send2UeExtension.PostOperationAsWritten | Send2UeExtension.PostOperation |
