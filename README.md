# A verified model of a voxel world's core

The program is a Minecraft-like voxel world built on the Bevy engine. Its core does the following:

- **Storage.** The world is a set of 32 x 256 x 32 *chunks* of 16-bit *voxels*. Each chunk is stored as a dense `VoxelBuffer` under its integer *chunk key* (the chunk's minimum corner) in the chunk map.
- **Chunk loading.** Each frame the chunk lifecycle works out which chunk the player stands in. It queues the keys inside a circular view radius that have no entity yet, plus the registered keys that have moved out of view. A later system spawns an entity for every created key and registers it in the key-to-entity registry. Another system despawns destroyed keys and drops their buffers.
- **Terrain generation.** A new chunk entity gets a generation task. The task loads the chunk's file from the world's save directory if it decodes. Otherwise it generates the chunk from three noise fields (continentalness, erosion, peaks/valleys) and saves it. A finished task hands its buffer to the chunk map and marks the chunk dirty.
- **Meshing.** Every dirty, registered, stored chunk gets a meshing task. The task saves a copy of the chunk, copies it with a one-voxel border into a scratch buffer and turns the greedy mesher's quads into vertex attributes. A finished task replaces the entity's mesh.
- **Block edits.** A right click places the selected material in front of the face under the crosshair. A left click turns the hit block into air. Both write through the chunk map and mark the chunk dirty.
- **Block registry.** Block states carry textures. The textures' pattern (single, top/bottom, top/bottom/sides, all six) decides which image each face shows. Five built-in blocks own contiguous ranges of the seven built-in states.

## How the model is built

The model is written in the source's own form:

- Objects the source mutates are classes whose methods have `modifies` clauses: the voxel buffer, the chunk map, the registry, the dirty set, the command queue, the ECS world, the mesh buffers, the disk, the terrain generator, the state map and the block map.
- Pure computations are functions with contracts.
- Every loop of the source is a `while` loop with its invariants.

Each operation is proved against an independent specification function (for example `Spawned`/`Attached`, `CreateRequests`, `BuildMesh`, `GeneratedCell`, `LoadOutcome`, `RangeStates`, `DefaultStates`, `DefaultBlocks`). The properties the program relies on are lemmas about those functions.

Some behaviour is supplied as inputs or modelled indirectly:

- Inputs:
  - the ray cast;
  - the greedy mesher's quads and block_mesh's face geometry;
  - the raw noise fields;
  - which asynchronous tasks have completed;
  - which file-system calls fail.
- An asset handle is modelled as the path it was loaded from.
- A panic is modelled as `ok == false` or an `Err` result.

## Model

| member | source | states |
|---|---|---|
| Voxels.Default | src/voxel/voxel.rs:11-15 | The default voxel is the empty voxel, id 0. |
| Voxels.GetVisibility | src/voxel/voxel.rs:19-28 | Ids 0 and 1 (air) are empty, id 8 is translucent, every other id is opaque. |
| Voxels.MergeEqualIffEqual | src/voxel/voxel.rs:31-38 | Two voxels have equal merge values exactly when they are equal, so the mesher merges exactly equal voxels. |
| Voxels.AsMatId | src/voxel/voxel.rs:44-48 | The material index is the voxel's raw id: the voxel is recovered from it. |
| Storage.LinearizeInjective | src/core/storage/buffer.rs:120-128 | Distinct in-bounds positions address distinct cells of the flat array. |
| Storage.VoxelBuffer.New | src/core/storage/buffer.rs:103-108 | A fresh buffer of the given shape with every cell holding the initial value. |
| Storage.VoxelBuffer.NewEmpty | src/core/storage/buffer.rs:111-116 | A fresh buffer of the given shape with every cell holding the default voxel. |
| Storage.VoxelBuffer.FromData | src/core/storage/buffer.rs:84-87 | The deserialised buffer holds the decoded data with the chunk shape, whatever the data's length. |
| Storage.VoxelBuffer.Set | src/core/storage/buffer.rs:126-128 | Writing through `voxel_at_mut` changes exactly the addressed cell. |
| Storage.VoxelBuffer.FillExtent | src/core/storage/buffer.rs:147-155 | Every cell inside the extent becomes the value, and every other cell is unchanged. |
| Storage.VoxelBuffer.Clone | src/core/storage/buffer.rs:11 | The clone is a fresh buffer with the same shape and the same voxels. |
| BufferSerde.VisitSeq | src/core/storage/buffer.rs:54-65 | The first sequence element is the data; an empty sequence is an invalid-length error. |
| BufferSerde.VisitMap | src/core/storage/buffer.rs:67-88 | The map loop yields exactly the outcome of `MapOutcome`: unknown key, duplicate field, missing field, or the single data value. |
| BufferSerde.DeserializeBuffer | src/core/storage/buffer.rs:35-95 | A decode error is passed on; on success the buffer is fresh, has the chunk shape and holds the decoded voxels. |
| BufferSerde.MapAcceptsOnlySingleData | src/core/storage/buffer.rs:67-88 | The map visitor succeeds exactly on a single "data" entry, and then returns its value. |
| BufferSerde.MapMissingIffEmpty | src/core/storage/buffer.rs:82 | A missing-field error is reported exactly for an empty map. |
| BufferSerde.MapDuplicateIff | src/core/storage/buffer.rs:72-79 | A duplicate-field error is reported exactly when the first two keys are both "data". |
| BufferSerde.RoundTrip | src/core/storage/buffer.rs:21-95 | Deserialising a serialised buffer gives back its voxels, in both the sequence and the map presentation. |
| Chunks.ChunkFloor | src/voxel/world/chunks.rs:16-22 | The chunk origin of a coordinate is a multiple of 32 at most 32 below it. |
| Chunks.ChunkFloorUnique | src/voxel/world/chunks.rs:16-22 | That origin is the only multiple of 32 within 32 below the coordinate. |
| Chunks.ChunkForPos | src/voxel/world/chunks.rs:16-22 | The chunk position holds the point horizontally and has height 0. |
| Chunks.ChunkKeyForPos | src/voxel/world/chunks.rs:32-37 | The integer key is exactly the chunk position, since the chunk position has whole-number coordinates. |
| Chunks.CreateRequestsExact | src/voxel/world/chunks.rs:51-77 | The load pass requests exactly the keys in view that have no entity, each once. |
| Chunks.RowRequestsMember | src/voxel/world/chunks.rs:52-76 | A key is requested by one column of the loop exactly when it is that column's in-view, unregistered key. |
| Chunks.RowRequestsDistinct | src/voxel/world/chunks.rs:52-76 | One column never requests a key twice. |
| Chunks.GridRequestsMember | src/voxel/world/chunks.rs:51-77 | A key is requested by the loop from column x on exactly when it lies in those columns, in view and unregistered. |
| Chunks.GridRequestsDistinct | src/voxel/world/chunks.rs:51-77 | The whole load pass never requests a key twice. |
| Chunks.FarViewKey | src/voxel/world/chunks.rs:85-86 | The key at chunk offset (x, z) is far exactly when x² + z² > r². |
| Chunks.ViewPassDisjoint | src/voxel/world/chunks.rs:51-91 | No key is both requested for creation and queued for destruction by one pass. |
| Chunks.ViewKeysNotFar | src/voxel/world/chunks.rs:54-90 | A key in view is never far, so it stays loaded while the player stays in that chunk. |
| Chunks.BoundaryKeyUntouched | src/voxel/world/chunks.rs:54-90 | A key exactly on the circle (x² + z² == r²) is neither requested nor destroyed. |
| Chunks.ViewKeyInjective | src/voxel/world/chunks.rs:58-70 | Distinct chunk offsets give distinct keys. |
| Chunks.InsertByDistPerm | src/voxel/world/chunks.rs:94-96 | Inserting by distance gives a permutation of the queue plus the key. |
| Chunks.InsertByDistSorted | src/voxel/world/chunks.rs:94-96 | Inserting into a distance-sorted queue keeps it sorted. |
| Chunks.SortByDistance | src/voxel/world/chunks.rs:94-96 | The sorted create queue is a permutation of the queue in non-decreasing distance from the player's chunk. |
| Chunks.ChunkEntities.EntityAt | src/voxel/world/chunks.rs:151-153 | The registry lookup is Some exactly for a registered key, and gives that key's entity. |
| Chunks.ChunkEntities.AttachEntity | src/voxel/world/chunks.rs:156-158 | Attaching maps the key to the entity, overwriting any earlier entity; other keys are unchanged. |
| Chunks.ChunkEntities.DetachEntity | src/voxel/world/chunks.rs:161-163 | Detaching removes the key and returns its entity, or None for an unregistered key. |
| Chunks.ChunkEntities.Len | src/voxel/world/chunks.rs:171-173 | The length is the number of registered keys. |
| Chunks.DirtyChunks.MarkDirty | src/voxel/world/chunks.rs:182-184 | The key joins the dirty set; marking a dirty key again changes nothing. |
| Chunks.DirtyChunks.NumDirty | src/voxel/world/chunks.rs:190-192 | The count is the number of distinct dirty keys. |
| Chunks.DirtyChunks.Clear | src/voxel/world/chunks.rs:134-136 | The dirty set becomes empty. |
| Chunks.CurrentLocalPlayerChunk.constructor | src/voxel/world/chunks.rs:229-232 | The player's chunk and world position both start at the origin. |
| Chunks.ChunkCommandQueue.QueueUnload | src/voxel/world/chunks.rs:217-219 | The region is appended to the destroy queue in order; the create queue is unchanged. |
| Chunks.UpdatePlayerPos | src/voxel/world/chunks.rs:25-40 | With a moved player, the stored position follows it and the chunk key becomes the key of the chunk holding it; otherwise nothing changes. |
| Chunks.CollectCreateRequests | src/voxel/world/chunks.rs:51-77 | The outer load loop collects exactly `CreateRequests` for the player's chunk and the registry. |
| Chunks.CollectRow | src/voxel/world/chunks.rs:52-76 | The inner load loop collects exactly the row's requests. |
| Chunks.CollectDestroyRequests | src/voxel/world/chunks.rs:80-91 | The unload loop queues every registered far key exactly once, and nothing else. |
| Chunks.UpdateViewChunks | src/voxel/world/chunks.rs:43-97 | The create queue gains the in-view keys without an entity, sorted by distance; the destroy queue gains the far registered keys. |
| Chunks.SpawnedSpec | src/voxel/world/chunks.rs:105-118 | Spawning adds exactly the entities with the next ids, each carrying its request's key. |
| Chunks.AttachedSpec | src/voxel/world/chunks.rs:105-118 | After attaching, every requested key is registered to an entity spawned for it, and other keys keep their entity. |
| Chunks.AttachedKeys | src/voxel/world/chunks.rs:105-118 | The registered keys after attaching are the old ones plus the requests. |
| Chunks.AttachedKept | src/voxel/world/chunks.rs:105-118 | A key that was not requested keeps its entity. |
| Chunks.AttachedFromRequest | src/voxel/world/chunks.rs:105-118 | A requested key is registered to the entity of its last request. |
| Chunks.CreateKeepsConsistent | src/voxel/world/chunks.rs:100-119 | Distinct, unregistered requests keep the registry and the live chunk entities in one-to-one correspondence. |
| Chunks.ConsistentAttach | src/voxel/world/chunks.rs:156-158 | Registering a new key for a new entity keeps the correspondence. |
| Chunks.CreateChunks | src/voxel/world/chunks.rs:100-119 | Draining the create queue empties it, spawns `Spawned` and registers `Attached`. |
| Chunks.DestroyKeepsConsistent | src/voxel/world/chunks.rs:127-131 | Removing keys together with their entities keeps the correspondence. |
| Chunks.DestroyChunks | src/voxel/world/chunks.rs:121-132 | As written: the drain panics exactly when the queue repeats a key or holds an unregistered one. Otherwise the keys, their buffers and their entities are gone and the queue is empty. |
| Chunks.DestroyChunksSkippingMissing | src/voxel/world/chunks.rs:121-132 | The corrected drain never panics. For any queue it ends in the state the as-written drain reaches on a sound queue. |
| Chunks.UnloadAllRacesViewPass | src/debug/debug_ui.rs:163 | Unloading every chunk in the same frame as a view pass that queues a far key repeats that key, so the as-written drain panics. |
| Chunks.UnloadAllRacesViewPassExample | src/debug/debug_ui.rs:163 | Concrete instance: player at the origin, radius 8, the chunk ten chunks east still loaded. |
| Ecs.World.Spawn | src/voxel/world/chunks.rs:112-116 | Spawning returns a fresh entity id carrying the chunk component; nothing else changes. |
| Ecs.World.Despawn | src/voxel/world/chunks.rs:128-129 | Despawning removes the entity with all its components. |
| Noise.ScaleField | src/core/terraingen/noise.rs:113-116 | Each raw value becomes `abs(v) * scale`; the length is kept and every value is non-negative. |
| Noise.ChunkErosion | src/core/terraingen/noise.rs:113-116 | The erosion field keeps the raw field's length, and its values (magnitudes times 700) are never negative. |
| Noise.ChunkPeaksValleys | src/core/terraingen/noise.rs:158-161 | The peaks/valleys field keeps the raw field's length, and its values (magnitudes times 1200) are never negative. |
| Noise.ChunkContinentalness | src/core/terraingen/noise.rs:199-202 | The continentalness field keeps the raw field's length, and its values (magnitudes times 1400) are never negative. |
| Noise.Heightmap.Get | src/core/terraingen/noise.rs:217-219 | `get` is `getf` rounded half away from zero and cast to u32: within 0.5 of the value when in range, 0 below zero. |
| Noise.FromSlice | src/core/terraingen/noise.rs:228-230 | The view wraps the slice unchanged; every grid column is readable when the slice holds W*H values. |
| Noise.GridIndexBounds | src/core/terraingen/noise.rs:217-224 | Every grid column's index lies below W*H. |
| Noise.GridIndexInjective | src/core/terraingen/noise.rs:217-224 | Distinct grid columns read distinct slice cells. |
| Noise.RoundHalfAway | src/core/terraingen/noise.rs:218 | `f32::round`: the nearest integer, halves away from zero. |
| Noise.CastU32 | src/core/terraingen/noise.rs:218 | `as u32` saturates at 0 and at u32::MAX, and is exact in between. |
| TerrainGen.TerrainGenerator.constructor | src/voxel/terraingen/mod.rs:30-34 | The default generator has no biomes in the map or the list. |
| TerrainGen.TerrainGenerator.RegisterBiomeGenerator | src/voxel/terraingen/mod.rs:39-46 | The biome is stored under its chance, replacing an earlier one with the same chance. |
| TerrainGen.TerrainGenerator.RegisterBiome | src/voxel/terraingen/mod.rs:48-54 | The biome is appended to the list. |
| TerrainGen.TerrainGenerator.BiomeAtXz | src/voxel/terraingen/mod.rs:70-95 | The biome is the list entry `BiomeChoice` picks from the humidity and temperature read at the column, after the two's-complement `i32 as u32` casts. |
| TerrainGen.AsU32 | src/voxel/terraingen/mod.rs:77-78 | `i32 as u32` wraps negative values modulo 2^32. |
| TerrainGen.BiomeChoice | src/voxel/terraingen/mod.rs:82-86 | The match chooses index 2, 1 or 0 by the humidity and temperature thresholds; a temperature of exactly 0.2 falls to 0. |
| TerrainGen.RegisterDefaultBiomes | src/voxel/terraingen/mod.rs:142-168 | The plugin registers plains, desert and snowy in that order. |
| TerrainGen.DefaultBiomeIndices | src/voxel/terraingen/mod.rs:159-167 | With the plugin's biomes, entry 0 is plains, entry 1 desert and entry 2 snowy. |
| TerrainGen.ChunkNoiseFrom | src/voxel/terraingen/mod.rs:99-105 | The three views wrap the scaled continentalness, erosion and peaks/valleys fields. |
| TerrainGen.AsI32 | src/voxel/terraingen/mod.rs:112 | `f32 as i32` truncates toward zero and saturates at the i32 range. |
| TerrainGen.SurfaceAboveBase | src/voxel/terraingen/mod.rs:107-112 | No column's surface lies below the base level 62, since the noise fields are never negative. |
| TerrainGen.FillColumn | src/voxel/terraingen/mod.rs:122-127 | One column: rock below the surface, water from the surface up to 64, and nothing else changes. |
| TerrainGen.FillRow | src/voxel/terraingen/mod.rs:111-129 | Each column of the row is filled from its own surface; the level is reset to 62 after every column. |
| TerrainGen.Generate | src/voxel/terraingen/mod.rs:97-137 | Every cell ends as `GeneratedCell`: its column's fill, with the bottom layer overwritten by the border. |
| TerrainGen.GeneratedCellCases | src/voxel/terraingen/mod.rs:107-134 | A generated cell is the border at y 0, rock below the surface, water up to sea level, and otherwise its previous contents. |
| MeshAssembly.BuildMeshLengths | src/voxel/render/mesh.rs:89-118 | Each quad adds four vertices and six indices, and all vertex attributes have the same length. |
| MeshAssembly.BuildMeshQuad | src/voxel/render/mesh.rs:105-118 | Quad k owns material entries 4k..4k+3, all the id of the source voxel under its corner. It owns index entries 6k..6k+5, built from base 4k. |
| MeshAssembly.BuildMeshSameVoxels | src/voxel/render/mesh.rs:105-118 | The mesh depends on the buffer only through its shape and voxels. |
| MeshAssembly.MeshBuffers.constructor | src/voxel/render/mesh.rs:31-39 | The scratch buffer is two larger on every axis and starts empty. |
| MeshAssembly.CopyPadded | src/voxel/render/mesh.rs:59-67 | Source cell p lands at scratch cell p + (1, 1, 1), and the border stays empty. |
| MeshAssembly.MeshBuffer | src/voxel/render/mesh.rs:44-174 | The mesh handed to the renderer is `BuildMesh` of the greedy quads taken in face order. |
| MeshAssembly.EmitAll | src/voxel/render/mesh.rs:97-104 | The outer loop emits every group, zipped with the faces in order. |
| MeshAssembly.EmitGroup | src/voxel/render/mesh.rs:105-139 | The inner loop emits the quads of one group in order. |
| Meshing.PreparedBundle | src/core/world/meshing.rs:33-42 | The mesh is empty, placed at the key minus (1, 1, 1), hidden, with the box of the unpadded chunk. |
| Meshing.PreparedBoxIsChunk | src/core/world/meshing.rs:33-42 | In world space the box is exactly the chunk's voxels, and the padded cell of voxel p sits at key + p. |
| Meshing.PrepareChunks | src/core/world/meshing.rs:22-44 | Every added chunk entity gets its prepared bundle; nothing else changes. |
| Meshing.MeshQueuedAdd | src/core/world/meshing.rs:77-95 | Queueing one more key adds its entity's task when the key is registered and stored, and nothing else. |
| Meshing.SavedFile | src/core/world/meshing.rs:62-63 | A queued key whose save does not fail ends with its file holding its encoding. |
| Meshing.SavedAllSnoc | src/core/world/meshing.rs:77-95 | One more dirty key adds its save, when it is registered and stored, on top of the saves before it. |
| Meshing.UnsavedPathKept | src/core/world/meshing.rs:62-63 | A path that is no queued key's chunk file keeps its contents. |
| Meshing.QueueMeshTask | src/core/world/meshing.rs:77-95 | One dirty key gets its task when it has an entity and a buffer, and is skipped otherwise. |
| Meshing.MeshTask | src/core/world/meshing.rs:62-75 | The task clones the buffer, saves the clone ignoring the result (the disk ends as `SaveEffect` says, including the truncated file of a failed write), and yields the clone's mesh at scale 1.0. |
| Meshing.QueueMeshLoop | src/core/world/meshing.rs:77-95 | The loop over the dirty keys ends with the tasks of `MeshQueued` and the disk of `SavedAll`, the saves one after another with their faults. |
| Meshing.QueueMeshTasks | src/core/world/meshing.rs:51-96 | Every dirty, registered, stored chunk gets one task yielding its mesh; other tasks stay. The disk ends as `SavedAll`: each such chunk saved in the dirty set's order, a failed write leaving its file truncated. |
| Meshing.ProcessMeshTasks | src/core/world/meshing.rs:99-111 | Every completed task replaces its entity's mesh and is removed; incomplete tasks change nothing. |
| Meshing.ProcessOne | src/core/world/meshing.rs:104-110 | One polled entity: a completed task hands over its mesh and is removed. |
| Meshing.QueuedMeshShown | src/core/world/meshing.rs:51-111 | After queueing then processing, a prepared dirty chunk whose task completed shows exactly its chunk's mesh, with placement and visibility unchanged. |
| Player.AsU32Sat | src/voxel/world/player.rs:245-249 | `f32 as u32` truncates toward zero and saturates at 0 and u32::MAX. |
| Player.InRangeHit | src/voxel/world/player.rs:170-173 | A hit is used exactly when it is closer than 10 units, as its position and normal. |
| Player.EditTargets | src/voxel/world/player.rs:236-255 | Both edits address the nudged point's chunk, the column holding the point inside it, and the layer one below its height. |
| Player.LocalColumn | src/voxel/world/player.rs:241 | A coordinate inside a chunk gives a local column below 32 that holds the coordinate. |
| Player.Edit | src/voxel/world/player.rs:243-260 | No stored chunk: no change. Cell outside the chunk: no change. Otherwise the chunk is marked dirty, and the cell is written unless placing onto a non-air cell. |
| Player.WriteThrough | src/voxel/world/player.rs:252-256 | A write through the map changes that cell of that chunk and nothing else. |
| Player.PlaceBlock | src/voxel/world/player.rs:233-265 | A right click with grabbed cursor and in-range hit places the selected material at the place target if it is air. The chunk is marked dirty even when the cell is kept. |
| Player.RemoveBlock | src/voxel/world/player.rs:267-292 | A left click with grabbed cursor and in-range hit writes air at the remove target whatever it held, and marks the chunk dirty. |
| Player.KeyOfPointInChunk | src/voxel/world/chunks.rs:16-22 | A point inside a chunk's column resolves to that chunk's key. |
| Player.CastInCell | src/voxel/world/player.rs:245-249 | A coordinate inside cell i casts to i under `as u32`. |
| Player.TopFaceEditsOneLayerLow | src/voxel/world/player.rs:236-281 | As written, a click on the top face of the drawn cell c misses by one layer. The point in front of the face is drawn in the cell above c, but place aims at c. The point behind the face is drawn in c, but remove aims at the cell below c. |
| Player.CorrectedTargetsDrawn | src/core/world/meshing.rs:33-42 | Without the `- 1`, both targets are the chunk and the cell in whose drawn cube the nudged point lies, for every hit at a chunk height. |
| Player.TopFaceEditsCorrected | src/voxel/world/player.rs:236-281 | Corrected, a click on the top face of c places into the cell above c and removes c. |
| ChunkPaths.NatToString | src/voxel/world/terrain.rs:36 | The decimal form is non-empty and all digits. |
| ChunkPaths.IntToString | src/voxel/world/terrain.rs:36 | The `Display` form of an i32 has no comma and starts with '-' exactly for a negative number. |
| ChunkPaths.NatToStringInjective | src/voxel/world/terrain.rs:36 | Distinct numbers print differently. |
| ChunkPaths.IntToStringInjective | src/voxel/world/terrain.rs:36 | Distinct integers print differently. |
| ChunkPaths.KeyDisplayInjective | src/voxel/world/terrain.rs:36 | Distinct keys have distinct `[x, y, z]` forms. |
| ChunkPaths.ChunkPathInjective | src/voxel/world/terrain.rs:31-36 | Within one world, distinct chunks have distinct files. |
| ChunkPaths.ChunkPathInSavesDir | src/voxel/world/terrain.rs:31-36 | Every chunk file lies in the world's save directory. |
| TerrainTasks.SaveChunkToDisk | src/voxel/world/terrain.rs:23-43 | Creates the save directory, then writes the encoding to the chunk's file; the disk ends as `SaveEffect` says. It fails exactly when a call fails: a failed directory creation changes nothing, a file that cannot be created is left alone, and a write that fails after `fs::write` truncated the file leaves `TRUNCATED` in it. |
| TerrainTasks.TruncatedDoesNotDecode | src/voxel/world/terrain.rs:59-60 | What a failed write leaves in a chunk file does not decode. |
| TerrainTasks.SaveEffectElsewhere | src/voxel/world/terrain.rs:31-38 | A save changes no file but its chunk's and adds no directory but the save directory. |
| TerrainTasks.LoadChunkFromDisk | src/voxel/world/terrain.rs:45-68 | Error when the directory cannot be made, None when there is no file, error on a read or decode failure, otherwise a fresh chunk buffer of the decoded voxels. |
| TerrainTasks.SaveThenLoad | src/voxel/world/terrain.rs:23-68 | After one save a chunk loads back with the same voxels when the save succeeded, fails to decode when the write failed, and loads as before when the file was never opened. |
| TerrainTasks.SaveKeepsOtherChunks | src/voxel/world/terrain.rs:36-56 | Saving one chunk, whatever fails, leaves what every other chunk loads unchanged. |
| TerrainTasks.UnsavedLoadsNone | src/voxel/world/terrain.rs:57-64 | A chunk without a file loads as None, unless the directory cannot be created. |
| TerrainTasks.SaveKeepsFilesHoldChunks | src/voxel/world/terrain.rs:23-43 | Saving a chunk-sized buffer, whatever fails, keeps every decodable file chunk-sized. |
| TerrainTasks.LoadedChunkSized | src/voxel/world/terrain.rs:45-68 | A decoded chunk file fills a chunk exactly. |
| TerrainTasks.TaskGen | src/voxel/world/terrain.rs:82-96 | A fresh buffer holding `TaskContents`: the saved voxels if the chunk loads, with the files unchanged; otherwise every cell as the generator fills an empty chunk, with the files as `SaveEffect` leaves them. The directories are those the load creates (`LoadDirs`), plus the save directory when the chunk is generated and its save can create it. |
| TerrainTasks.OwnedAfterHandOver | src/voxel/world/terrain.rs:139-145 | Handing a task's buffer to the chunk map keeps every remaining task's buffer unshared. |
| TerrainTasks.ConsistentKeysUnique | src/voxel/world/chunks.rs:100-119 | The registry's correspondence gives every live chunk entity its own key. |
| TerrainTasks.QueueOne | src/voxel/world/terrain.rs:82-130 | The new chunk entity gets a fresh task buffer holding what `task_gen` yields for its key, and the files and directories end as `task_gen` leaves them; no other task changes. |
| TerrainTasks.QueueTerrainGen | src/voxel/world/terrain.rs:72-131 | Every new chunk entity gets a fresh chunk buffer; the other tasks and components are unchanged. With distinct entities and keys, each buffer holds what its key loads or generates from the files before the first task. |
| TerrainTasks.QueueStep | src/voxel/world/terrain.rs:117-130 | One iteration adds the next entity's task and keeps the tasks before it. |
| TerrainTasks.QueueNext | src/voxel/world/terrain.rs:117-130 | With distinct keys, the next task sees its chunk's file as it was before the first task, and saves no file a later task loads. |
| TerrainTasks.UnseenAfterSave | src/voxel/world/terrain.rs:82-96 | One task's save leaves every later key's chunk loading as before the first task. |
| TerrainTasks.WrapUpStep | src/voxel/world/terrain.rs:140-144 | One completed task: its buffer is stored under its entity's key, the key is dirty, and the task is removed. |
| TerrainTasks.FinishedInAnyOrder | src/voxel/world/terrain.rs:139-145 | With distinct keys, folding finished tasks in any order stores the same buffers. |
| TerrainTasks.CompletedIn | src/voxel/world/terrain.rs:139-140 | The completed entities of the query, in query order, each once. |
| TerrainTasks.CompletedTasksRemoved | src/voxel/world/terrain.rs:139-145 | After the walk exactly the completed tasks are gone. |
| TerrainTasks.WrapUpOrderIrrelevant | src/voxel/world/terrain.rs:139-145 | What `wrap_up` stores is the completed tasks' buffers under their keys, whatever the query order. |
| TerrainTasks.WrapUpNext | src/voxel/world/terrain.rs:140-144 | One more completed task moves the fold one step forward. |
| TerrainTasks.WrapUpVisit | src/voxel/world/terrain.rs:139-145 | One iteration hands over the entity's task exactly when it has completed. |
| TerrainTasks.WrapUpLoop | src/voxel/world/terrain.rs:139-145 | The loop folds in every completed task in query order. |
| TerrainTasks.WrapUp | src/voxel/world/terrain.rs:133-146 | Completed tasks are removed and their buffers stored and marked dirty; pending tasks stay. |
| Textures.LoadPaths | src/core/blocks/state/textures.rs:88-96 | One texture per path. |
| Textures.LoadPathsImages | src/core/blocks/state/textures.rs:88-96 | Texture i is loaded from `textures/blocks/` plus path i. |
| Textures.LoadPathsNames | src/core/blocks/state/textures.rs:88-96 | Every loaded texture lies in the texture directory and gives back the path it came from. |
| Textures.New | src/core/blocks/state/textures.rs:32-58 | Succeeds exactly for 0, 1, 2, 3 or 6 paths, with the loaded textures. The pattern is None exactly for no paths, and is never Custom. Any other count is the panic. |
| Textures.Get | src/core/blocks/state/textures.rs:63-80 | `textures.get(i)` is Some exactly when i is in range, and then gives texture i. |
| Textures.GetTextureObject | src/core/blocks/state/textures.rs:60-82 | None and Custom give no texture; any texture given is one of the state's. |
| Textures.GetTexture | src/core/blocks/state/textures.rs:84-86 | An image is given exactly when the face has a texture, and it is one of the state's images. |
| Textures.FaceIndex | src/core/blocks/state/textures.rs:60-82 | The face table picks an index below the texture count. |
| Textures.NewFaces | src/core/blocks/state/textures.rs:32-86 | With at least one path, every face shows the image of the path the table assigns it. |
| Textures.NewEmpty | src/core/blocks/state/textures.rs:27-30 | No paths gives `NONE`, which gives no face a texture. |
| Textures.AllFacesDistinct | src/core/blocks/state/textures.rs:73-80 | With six textures, different faces show different paths. |
| BlockStates.StateTextures | src/core/blocks/state/list.rs:25-28 | No paths give `NONE`, other paths give `BlockTextures::new`. |
| BlockStates.RangeStatesSpec | src/core/blocks/state/list.rs:36-40 | The range form registers exactly ids lo..lo+n, each under its own id with the block id, textures and model. |
| BlockStates.ZippedStatesSpec | src/core/blocks/state/list.rs:41-45 | The zipped form registers one state per id, pairing model i with paths i. |
| BlockStates.FirstInvalid | src/core/blocks/state/list.rs:41-45 | The first paths whose texture count `new` rejects: the panic point of the zipped range. |
| BlockStates.StatesMap.RegisterStateWith | src/core/blocks/state/list.rs:19-32 | One state is inserted under its id, replacing an earlier one; a bad texture count panics and leaves the map unchanged. |
| BlockStates.StatesMap.RegisterState | src/core/blocks/state/list.rs:5-18 | Without a model, no paths means no model and any paths mean the standard model. |
| BlockStates.StatesMap.RegisterStateRange | src/core/blocks/state/list.rs:35-40 | Every id of the range is registered with the same paths, in order; the map ends as `old + RangeStates`. An empty range changes nothing. |
| BlockStates.StatesMap.RegisterStateRangeZipped | src/core/blocks/state/list.rs:41-45 | The zipped loop registers up to the first invalid paths or the shortest length, and panics unless the lengths agree and all paths are valid. |
| BlockStates.StatesMap.CreateStates | src/core/blocks/state/list.rs:50-67 | The built-in states are registered over the map: it ends as `old + DefaultStates()`, keeping ids matched. |
| BlockStates.DefaultStatesAsRegistered | src/core/blocks/state/list.rs:50-67 | The registration sequence of `create_states` puts exactly `DefaultStates()` over the earlier map. |
| BlockStates.DefaultStatesEntries | src/core/blocks/state/list.rs:51-67 | States 0 to 6: none for 0, stone for 1, dirt for 2, grass top/bottom/sides for 3 to 4, oak log top/bottom for 5 to 6. |
| BlockStates.DefaultStateBlockId | src/core/blocks/state/list.rs:51-67 | A state id is registered exactly when it is at most 6, with block id 0, 1, 2, 3 (ids 3 to 4) or 4 (ids 5 to 6). |
| BlockStates.DefaultStatesTextured | src/core/blocks/state/list.rs:13-28 | A built-in state has no model exactly when it has no textures, and every textured one gives each face an image. |
| Blocks.DefaultProperties | src/core/blocks/block/properties.rs:8-16 | The default block is collidable, opaque and not air. |
| Blocks.BlocksMap.RegisterBlock | src/core/blocks/block/list.rs:3-15 | The block is inserted under its id, replacing an earlier one. |
| Blocks.BlocksMap.CreateBlocks | src/core/blocks/block/list.rs:17-68 | The five built-in blocks are registered over the map, keeping ids matched. |
| Blocks.DefaultBlocksAsRegistered | src/core/blocks/block/list.rs:17-68 | The five registrations put exactly `DefaultBlocks()` over the earlier map. |
| Blocks.DefaultBlocksEntries | src/core/blocks/block/list.rs:17-68 | Blocks 0 to 4 are registered under their ids. Air (0) alone is air, and the others have the default properties. |
| Blocks.DefaultRangesPartition | src/core/blocks/block/list.rs:20-68 | The state ranges are non-empty and contiguous from 0 to 6, and no state belongs to two blocks. |
| Blocks.DefaultRangesCover | src/core/blocks/block/list.rs:20-68 | A state id belongs to some built-in block exactly when it is at most 6. |
| Blocks.DefaultBlocksMatchStates | src/core/blocks/block/list.rs:50-68 | A block's state range is exactly the set of states registered with its block id. |

## Left out

- **Sources not part of this model:**
  - The chunk map of src/voxel/storage is not part of this model. `ChunkMaps.ChunkMap` stands in for it with the behaviour its callers rely on: lookup, insert and remove of owned buffers.
  - The materials registry of src/voxel/world/materials is not part of this model. The rock, water and border voxels are parameters (`MaterialIds`); only air's id 1 is fixed, as src/voxel/voxel.rs:24 states.
  - src/voxel/terraingen/common.rs is not part of this model. The world-bottom border is modelled as filling the bottom layer with the border voxel.
  - src/core/enums (the `Direction` enum) is not part of this model; the six faces are a local datatype.
  - The block models of src/core/blocks/state/model.rs are not part of this model. `BlockModel` keeps only the variant the registry chooses, without mesh payloads.
- **Noise:**
  - The fractal noise (`fbm_2d_offset`) and the random and Voronoi helpers of src/core/terraingen/noise.rs:5-76 are not modelled. The raw noise fields are inputs.
  - The noise functions take a seed, but `generate` calls them without one. Its `seed` parameter is therefore unused, and generation depends only on the raw fields given for the key.
- **Floating point.** f32 arithmetic is modelled on exact reals. Rounding, NaN and infinities are not modelled.
- **Concurrency.**
  - Asynchronous tasks are computed eagerly when queued.
  - Which tasks have completed when they are polled is an input.
  - The global generator's `RwLock` and Bevy's scheduling and change detection are not modelled. Query orders and the "added this frame" sets are inputs.
- **I/O.**
  - File-system failures are inputs (`IoFaults`).
  - The platform data directory is a parameter.
  - A missing data directory (the panic at src/voxel/world/terrain.rs:41 and 66) is not modelled.
  - A partial `create_dir_all` failure is modelled as no directory at all.
  - A write that fails part-way leaves some prefix of the encoding in the file. The model stands for every such prefix with one constant, `TRUNCATED`, that does not decode. A prefix that happened to decode is not modelled.
  - Logging is dropped.
- **bincode.** Its byte encoding is not modelled. A file holds the serde data model value the deserialiser is handed. `bincode::serialize` (src/voxel/world/terrain.rs:35) is treated as never failing.
- **Greedy meshing:**
  - The greedy meshing algorithm and block_mesh's per-face geometry (positions, normals, texture coordinates, index pattern) are inputs.
  - ndshape's linearisation is any bijection between in-bounds positions and [0, size).
  - The relation of quads to visibility is not stated.
- **Player:**
  - Camera movement (yaw, pitch, speed), cursor grabbing, gamepad input and the crosshair are not modelled.
  - The ray cast is an input.
- **Rendering.** The render pipeline, materials, sky and the debug UI are not modelled. The debug UI's "clear loaded chunks" appears only as the caller of `queue_unload`.
- **Integer widths:**
  - Entity ids, `u32` ids and `usize` counts are unbounded naturals.
  - The i32 chunk-key arithmetic of the view pass (`pow`, multiplication by 32) is unbounded, so overflow for keys near the i32 limits is not modelled.
- **Panics.** A panic (`unwrap` on a missing entity, `BlockTextures::new` with an invalid count, `zip_eq` on unequal lengths, indexing past the biome list) is modelled as an `ok == false` flag or an `Err` result. Nothing is promised about the state it leaves.
- **Contracts stated weaker than the source:**
  - TerrainTasks.QueueTerrainGen: it states what each task's buffer holds only when the new entities are distinct and carry distinct keys, which Bevy's query and the chunk registry keep true. It states nothing about the files after the loop beyond `FilesHoldChunks`.
  - TerrainTasks.TaskGen: requires `FilesHoldChunks`, that every chunk file that decodes holds exactly one chunk's voxels. The saves keep this true. A file of another length that decodes, written by something else, is excluded: for it the source would build a buffer of the wrong size.
  - TerrainTasks.QueueOne: requires `FilesHoldChunks`, for the reason given for `TaskGen`.
  - TerrainTasks.QueueTerrainGen: requires `FilesHoldChunks`, for the reason given for `TaskGen`.
  - TerrainGen.Generate: requires every column's surface to lie within 0..=256. Outside that range the source panics or writes into another column's cells, and that path is not modelled. ndshape's linearisation of ChunkShape (src/voxel/world/mod.rs:59) is x + 32y + 8192z, so a height of 256 or more addresses a cell of column (x, z + 1), or lies past the buffer on the last row. A negative surface turns `h as u32` into a huge height.
  - TerrainGen.TerrainGenerator.BiomeAtXz: requires readable columns and that the index `BiomeChoice` picks is below the number of registered biomes (the plugin registers three, so every choice is in range there). The source panics when the chosen index is at least the length of `biome_list`, or when a column lies outside the maps, and that path is not modelled.
  - Player.Edit: a target layer above the chunk is modelled as the no-change outcome `OutOfChunk`. In the source, `voxel_at_mut` with such a position panics or addresses another cell, depending on the linearisation.
- **Chunk file names.** A chunk's file name follows the code, glam's `Display` of `IVec3`: `[x, y, z].chunk`.

## Findings

| source | as written | input that shows it | evidently intended | confidence | as-written member | corrected member |
|---|---|---|---|---|---|---|
| src/voxel/world/chunks.rs:127-131 | `destroy_chunks` calls `detach_entity(command).unwrap()` for every queued key, so a key queued twice (or no longer registered) panics. | The debug UI's "clear loaded chunks" (src/debug/debug_ui.rs:163) queues every registered key. In the same frame the view pass queues a registered far key. Example: player at the origin, radius 8, chunk (320, 0, 0) still loaded. The key then occurs twice in the destroy queue, and the second `unwrap` panics. | Skip keys that are no longer registered, so the drain never panics and ends with the same state as on a queue without repeats. | not executed | Chunks.DestroyChunks, Chunks.UnloadAllRacesViewPassExample | Chunks.DestroyChunksSkippingMissing |
| src/voxel/world/player.rs:236-281 | Both handlers subtract one from the local height: `pos - chunk_pos - Vec3::Y` in `place_block` and `pos_in_chunk.y - 1.` in `remove_block`. The chunk mesh, however, is placed at key − (1, 1, 1) and each voxel sits at its padded position + 1 (src/core/world/meshing.rs:37-41), so local voxel (x, y, z) is drawn at key + (x, y, z) with no vertical shift. | The top face of the solid voxel (0, 63, 0) of chunk (0, 0, 0), hit at (0.5, 64.0, 0.5) with normal +y. A right click aims at (0, 63, 0), which is not air, so nothing is placed. A left click clears (0, 62, 0) and leaves the hit voxel standing. | Drop the `- 1`, so that place fills the cell in front of the hit face and remove clears the hit cell. | not executed | Player.TopFaceEditsOneLayerLow | Player.CorrectedTargetsDrawn, Player.TopFaceEditsCorrected |

`Player.PlaceBlock` and `Player.RemoveBlock` keep the handlers as written, with `PlaceTarget` and `RemoveTarget`. The corrected targets, `PlaceTargetCorrected` and `RemoveTargetCorrected`, are defined beside them, and the two corrected lemmas are about them.
