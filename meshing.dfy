/**
 * Meshing scheduling (src/core/world/meshing.rs): new chunk entities get their
 * render components, every dirty chunk that is registered and stored gets a
 * meshing task over a copy of its voxels, and a completed task replaces the
 * chunk's mesh. Tasks run to completion when they are queued; which of them
 * have completed when polled is an input.
 */
module Meshing {
  import opened Geometry
  import opened Voxels
  import opened Storage
  import opened BufferSerde
  import opened ChunkPaths
  import opened ChunkMaps
  import opened Ecs
  import opened MeshAssembly
  import opened Seqs
  import Chunks
  import TerrainTasks

  // ---------------------------------------------------------------------------
  // prepare_chunks

  /**
   * The components `prepare_chunks` inserts for a chunk: an empty mesh, placed
   * one voxel below and behind the chunk's key (the mesh is built in padded
   * coordinates), hidden, with the bounding box of the unpadded voxels.
   */
  function PreparedBundle(key: IVec3): RenderBundle {
    RenderBundle(
      EMPTY_MESH,
      AsVec3(key).Sub(Vec3(1.0, 1.0, 1.0)),
      true,
      Vec3(1.0, 1.0, 1.0),
      Vec3(CHUNK_LENGTH as real + 1.0, CHUNK_HEIGHT as real + 1.0, CHUNK_LENGTH as real + 1.0))
  }

  /**
   * In world space the bounding box is exactly the chunk's block of voxels, and
   * the padded mesh cell of source voxel `p` sits at the key plus `p`.
   */
  lemma PreparedBoxIsChunk(key: IVec3, p: UVec3)
    ensures var b := PreparedBundle(key);
      && b.translation.Add(b.aabbMin) == AsVec3(key)
      && b.translation.Add(b.aabbMax) == AsVec3(key).Add(Vec3(32.0, 256.0, 32.0))
      && b.translation.Add(AsVec3(IVec3(p.x + 1, p.y + 1, p.z + 1))) == AsVec3(key).Add(AsVec3(IVec3(p.x, p.y, p.z)))
  {
  }

  /** The render components after preparing the entities of `added`; bundles already present are replaced. */
  ghost function Prepared(render: map<Entity, RenderBundle>, chunk: map<Entity, IVec3>, added: set<Entity>): map<Entity, RenderBundle>
    requires added <= chunk.Keys
  {
    map e | e in render.Keys + added :: if e in added then PreparedBundle(chunk[e]) else render[e]
  }

  lemma PreparedAdd(render: map<Entity, RenderBundle>, chunk: map<Entity, IVec3>, added: set<Entity>, e: Entity)
    requires added <= chunk.Keys && e in chunk
    ensures Prepared(render, chunk, added + {e}) == Prepared(render, chunk, added)[e := PreparedBundle(chunk[e])]
  {
  }

  /** `prepare_chunks`: every chunk entity added since the last run (`added`, in query order) gets its bundle. */
  method PrepareChunks(world: World, added: seq<Entity>)
    requires world.Valid() && Elements(added) <= world.chunk.Keys
    modifies world
    ensures world.Valid() && world.next == old(world.next) && world.chunk == old(world.chunk)
    ensures world.render == Prepared(old(world.render), world.chunk, Elements(added))
    ensures world.genTask == old(world.genTask) && world.meshTask == old(world.meshTask)
  {
    ghost var r0 := world.render;
    var i := 0;
    assert Elements(added[..0]) == {};
    while i < |added|
      invariant 0 <= i <= |added|
      invariant world.Valid() && world.next == old(world.next) && world.chunk == old(world.chunk)
      invariant Elements(added[..i]) <= Elements(added)
      invariant world.render == Prepared(r0, world.chunk, Elements(added[..i]))
      invariant world.genTask == old(world.genTask) && world.meshTask == old(world.meshTask)
    {
      var chunk := added[i];
      assert added[..i + 1] == added[..i] + [chunk];
      ElementsSnoc(added[..i], chunk);
      PreparedAdd(r0, world.chunk, Elements(added[..i]), chunk);
      world.render := world.render[chunk := PreparedBundle(world.chunk[chunk])];
      i := i + 1;
    }
    assert added[..i] == added;
  }

  // ---------------------------------------------------------------------------
  // queue_mesh_tasks

  /** The greedy mesher's output for every chunk: six groups, every quad over a voxel of the chunk. */
  ghost predicate GroupsOverChunks(groupsOf: IVec3 -> seq<seq<Quad>>) {
    forall k {:trigger groupsOf(k)} :: |groupsOf(k)| == |FACES| && QuadsOverSource(CHUNK_DIMS, groupsOf(k))
  }

  /** The mesh each stored chunk's task yields: its buffer meshed at scale 1.0. */
  ghost function ChunkMeshes(chunks: ChunkMap, groupsOf: IVec3 -> seq<seq<Quad>>, g: FaceGeometry): map<IVec3, MeshData>
    reads chunks, chunks.Arrays()
    requires chunks.Valid() && GroupsOverChunks(groupsOf)
  {
    map k | k in chunks.buffers :: ChunkMesh(chunks.buffers[k], groupsOf(k), g, 1.0)
  }

  /** What the save at the start of each stored chunk's task writes. */
  ghost function ChunkEncodings(chunks: ChunkMap): map<IVec3, DeInput>
    reads chunks, chunks.Arrays()
  {
    map k | k in chunks.buffers :: TerrainTasks.Encoded(chunks.buffers[k])
  }

  /** The live chunk entities whose key is among `keys` and has a stored buffer. */
  ghost function MeshSelected(chunk: map<Entity, IVec3>, keys: set<IVec3>, meshes: map<IVec3, MeshData>): set<Entity> {
    set e | e in chunk && chunk[e] in keys && chunk[e] in meshes
  }

  /**
   * The meshing tasks after queueing the dirty `keys`: each selected entity's
   * task (new, or replacing a pending one) yields its chunk's mesh; the other
   * pending tasks stay.
   */
  ghost function MeshQueued(tasks: map<Entity, MeshData>, chunk: map<Entity, IVec3>, keys: set<IVec3>,
                            meshes: map<IVec3, MeshData>): map<Entity, MeshData> {
    map e | e in tasks.Keys + MeshSelected(chunk, keys, meshes) ::
      if e in MeshSelected(chunk, keys, meshes) then meshes[chunk[e]] else tasks[e]
  }

  /** Queueing one more key adds the task of its entity, if it is registered and stored, and nothing else. */
  lemma MeshQueuedAdd(tasks: map<Entity, MeshData>, registry: map<IVec3, Entity>, chunk: map<Entity, IVec3>,
                      keys: set<IVec3>, meshes: map<IVec3, MeshData>, k: IVec3)
    requires Chunks.Consistent(registry, chunk)
    ensures k in registry && k in meshes ==>
              MeshQueued(tasks, chunk, keys + {k}, meshes) == MeshQueued(tasks, chunk, keys, meshes)[registry[k] := meshes[k]]
    ensures !(k in registry && k in meshes) ==> MeshQueued(tasks, chunk, keys + {k}, meshes) == MeshQueued(tasks, chunk, keys, meshes)
  {
    if k in registry && k in meshes {
      assert MeshSelected(chunk, keys + {k}, meshes) == MeshSelected(chunk, keys, meshes) + {registry[k]};
    } else {
      assert MeshSelected(chunk, keys + {k}, meshes) == MeshSelected(chunk, keys, meshes);
    }
  }

  /** The saves of the tasks queued for the keys of `order`, in order: only registered, stored keys are saved. */
  function SavedAll(d: TerrainTasks.DiskImage, order: seq<IVec3>, registered: set<IVec3>, enc: map<IVec3, DeInput>,
                    worldName: string, dataDir: string, faults: IVec3 -> TerrainTasks.IoFaults): TerrainTasks.DiskImage {
    if order == [] then d
    else
      var before := SavedAll(d, order[..|order| - 1], registered, enc, worldName, dataDir, faults);
      var k := order[|order| - 1];
      if k in registered && k in enc then TerrainTasks.SaveEffect(before, k, enc[k], worldName, dataDir, faults(k)) else before
  }

  /** Saving one more key: its save, when it is registered and stored, on top of the saves before it. */
  lemma SavedAllSnoc(d: TerrainTasks.DiskImage, done: seq<IVec3>, k: IVec3, registered: set<IVec3>, enc: map<IVec3, DeInput>,
                     worldName: string, dataDir: string, faults: IVec3 -> TerrainTasks.IoFaults)
    ensures SavedAll(d, done + [k], registered, enc, worldName, dataDir, faults) ==
            if k in registered && k in enc then
              TerrainTasks.SaveEffect(SavedAll(d, done, registered, enc, worldName, dataDir, faults), k, enc[k], worldName, dataDir, faults(k))
            else SavedAll(d, done, registered, enc, worldName, dataDir, faults)
  {
    assert (done + [k])[..|done|] == done;
  }

  /** A saved key whose save did not fail ends with its file holding its encoding. */
  lemma {:induction false} SavedFile(d: TerrainTasks.DiskImage, order: seq<IVec3>, registered: set<IVec3>, enc: map<IVec3, DeInput>,
                                     worldName: string, dataDir: string, faults: IVec3 -> TerrainTasks.IoFaults, k: IVec3)
    requires Distinct(order) && k in order && k in registered && k in enc
    requires TerrainTasks.SaveSucceeds(faults(k))
    ensures var files := SavedAll(d, order, registered, enc, worldName, dataDir, faults).files;
      ChunkPath(dataDir, worldName, k) in files && files[ChunkPath(dataDir, worldName, k)] == enc[k]
  {
    var init, last := order[..|order| - 1], order[|order| - 1];
    assert order == init + [last];
    DistinctSnoc(init, last);
    if last != k {
      assert k in init;
      SavedFile(d, init, registered, enc, worldName, dataDir, faults, k);
      ChunkPathInjective(dataDir, worldName, k, last);
    }
  }

  /** A path that is no key's chunk file keeps its contents. */
  lemma {:induction false} UnsavedPathKept(d: TerrainTasks.DiskImage, order: seq<IVec3>, registered: set<IVec3>, enc: map<IVec3, DeInput>,
                                           worldName: string, dataDir: string, faults: IVec3 -> TerrainTasks.IoFaults, path: string)
    requires forall k :: k in order ==> ChunkPath(dataDir, worldName, k) != path
    ensures var files := SavedAll(d, order, registered, enc, worldName, dataDir, faults).files;
      (path in files <==> path in d.files) && (path in d.files ==> files[path] == d.files[path])
    ensures SavedAll(d, order, registered, enc, worldName, dataDir, faults).dirs <= d.dirs + {SavesDir(dataDir, worldName)}
  {
    if order != [] {
      var init, last := order[..|order| - 1], order[|order| - 1];
      assert forall k :: k in init ==> k in order;
      UnsavedPathKept(d, init, registered, enc, worldName, dataDir, faults, path);
      if last in registered && last in enc {
        TerrainTasks.SaveEffectElsewhere(SavedAll(d, init, registered, enc, worldName, dataDir, faults), last, enc[last],
                                         worldName, dataDir, faults(last), path);
      }
    }
  }

  /** The state after queueing the tasks of the keys in `done`. */
  ghost predicate QueuedUpTo(world: World, disk: TerrainTasks.Disk, mb: MeshBuffers, done: seq<IVec3>,
                             t0: map<Entity, MeshData>, d0: TerrainTasks.DiskImage, registered: set<IVec3>, meshes: map<IVec3, MeshData>,
                             enc: map<IVec3, DeInput>, worldName: string, dataDir: string, faults: IVec3 -> TerrainTasks.IoFaults)
    reads world, disk, mb, mb.scratch.data
  {
    && world.Valid() && mb.Valid() && mb.sourceDims == CHUNK_DIMS
    && world.meshTask == MeshQueued(t0, world.chunk, Elements(done), meshes)
    && TerrainTasks.DiskImage(disk.dirs, disk.files) == SavedAll(d0, done, registered, enc, worldName, dataDir, faults)
  }

  /** `meshes` and `enc` hold what the task of a stored chunk yields and saves. */
  ghost predicate TaskValues(chunks: ChunkMap, groupsOf: IVec3 -> seq<seq<Quad>>, g: FaceGeometry, key: IVec3,
                             meshes: map<IVec3, MeshData>, enc: map<IVec3, DeInput>)
    reads chunks, chunks.Arrays()
    requires chunks.Valid() && GroupsOverChunks(groupsOf)
  {
    && (key in meshes <==> key in chunks.buffers) && (key in enc <==> key in chunks.buffers)
    && (key in chunks.buffers ==>
          && meshes[key] == ChunkMesh(chunks.buffers[key], groupsOf(key), g, 1.0)
          && enc[key] == TerrainTasks.Encoded(chunks.buffers[key]))
  }

  /**
   * One key of the dirty set: if it has an entity and a stored buffer, clone
   * the buffer, save the clone ignoring the result, mesh the clone at scale 1.0
   * and insert the task on the entity.
   */
  method QueueMeshTask(world: World, entities: Chunks.ChunkEntities, chunks: ChunkMap, disk: TerrainTasks.Disk,
                       key: IVec3, worldName: string, dataDir: string, faults: IVec3 -> TerrainTasks.IoFaults,
                       mb: MeshBuffers, groupsOf: IVec3 -> seq<seq<Quad>>, g: FaceGeometry,
                       ghost done: seq<IVec3>, ghost t0: map<Entity, MeshData>, ghost d0: TerrainTasks.DiskImage,
                       ghost meshes: map<IVec3, MeshData>, ghost enc: map<IVec3, DeInput>)
    requires chunks.Valid() && Chunks.Consistent(entities.entities, world.chunk)
    requires mb.scratch.data !in chunks.Arrays() && GroupsOverChunks(groupsOf) && ValidGeometry(g)
    requires TaskValues(chunks, groupsOf, g, key, meshes, enc)
    requires QueuedUpTo(world, disk, mb, done, t0, d0, entities.Keys(), meshes, enc, worldName, dataDir, faults)
    modifies world, disk, mb, mb.scratch.data
    ensures QueuedUpTo(world, disk, mb, done + [key], t0, d0, entities.Keys(), meshes, enc, worldName, dataDir, faults)
    ensures world.next == old(world.next) && world.chunk == old(world.chunk)
    ensures world.genTask == old(world.genTask) && world.render == old(world.render)
  {
    ElementsSnoc(done, key);
    MeshQueuedAdd(t0, entities.entities, world.chunk, Elements(done), meshes, key);
    SavedAllSnoc(d0, done, key, entities.Keys(), enc, worldName, dataDir, faults);
    match entities.EntityAt(key)
    case None =>
    case Some(entity) =>
      match chunks.BufferAt(key)
      case None =>
      case Some(buffer) =>
        assert buffer.data in chunks.Arrays();
        var mesh := MeshTask(buffer, disk, key, worldName, dataDir, faults(key), mb, groupsOf(key), g);
        world.meshTask := world.meshTask[entity := mesh];
  }

  /**
   * The work of one meshing task: the buffer is cloned, the clone saved with
   * the result ignored, and the clone meshed at scale 1.0 in the shared buffers.
   */
  method MeshTask(buffer: VoxelBuffer, disk: TerrainTasks.Disk, key: IVec3, worldName: string, dataDir: string,
                  faults: TerrainTasks.IoFaults, mb: MeshBuffers, groups: seq<seq<Quad>>, g: FaceGeometry)
    returns (mesh: MeshData)
    requires buffer.Valid() && IsChunkShape(buffer.shape) && mb.scratch.data != buffer.data
    requires mb.Valid() && mb.sourceDims == CHUNK_DIMS
    requires |groups| == |FACES| && QuadsOverSource(CHUNK_DIMS, groups) && ValidGeometry(g)
    modifies disk, mb, mb.scratch.data
    ensures mb.Valid() && mesh == ChunkMesh(buffer, groups, g, 1.0)
    ensures TerrainTasks.DiskImage(disk.dirs, disk.files) ==
              TerrainTasks.SaveEffect(old(TerrainTasks.DiskImage(disk.dirs, disk.files)), key, TerrainTasks.Encoded(buffer), worldName, dataDir, faults)
  {
    var data := buffer.Clone();
    var _ := TerrainTasks.SaveChunkToDisk(disk, data, key, worldName, dataDir, faults);
    mesh := MeshBuffer(data, mb, 1.0, groups, g);
    BuildMeshSameVoxels(data, buffer, FaceQuads(groups, |FACES|), g, 1.0);
  }

  /** The mesh and the encoding of every stored chunk meet `TaskValues`. */
  lemma ChunkTaskValues(chunks: ChunkMap, groupsOf: IVec3 -> seq<seq<Quad>>, g: FaceGeometry, key: IVec3)
    requires chunks.Valid() && GroupsOverChunks(groupsOf)
    ensures TaskValues(chunks, groupsOf, g, key, ChunkMeshes(chunks, groupsOf, g), ChunkEncodings(chunks))
  {
  }

  /** The loop of `queue_mesh_tasks`, from the tasks `t0` and the disk `d0` through every key of `order`. */
  method QueueMeshLoop(world: World, entities: Chunks.ChunkEntities, chunks: ChunkMap, disk: TerrainTasks.Disk,
                       order: seq<IVec3>, worldName: string, dataDir: string, faults: IVec3 -> TerrainTasks.IoFaults,
                       mb: MeshBuffers, groupsOf: IVec3 -> seq<seq<Quad>>, g: FaceGeometry,
                       ghost t0: map<Entity, MeshData>, ghost d0: TerrainTasks.DiskImage,
                       ghost meshes: map<IVec3, MeshData>, ghost enc: map<IVec3, DeInput>)
    requires chunks.Valid() && Chunks.Consistent(entities.entities, world.chunk)
    requires mb.scratch.data !in chunks.Arrays() && GroupsOverChunks(groupsOf) && ValidGeometry(g)
    requires forall k :: TaskValues(chunks, groupsOf, g, k, meshes, enc)
    requires QueuedUpTo(world, disk, mb, [], t0, d0, entities.Keys(), meshes, enc, worldName, dataDir, faults)
    modifies world, disk, mb, mb.scratch.data
    ensures QueuedUpTo(world, disk, mb, order, t0, d0, entities.Keys(), meshes, enc, worldName, dataDir, faults)
    ensures world.next == old(world.next) && world.chunk == old(world.chunk)
    ensures world.genTask == old(world.genTask) && world.render == old(world.render)
  {
    var i := 0;
    assert order[..0] == [];
    while i < |order|
      invariant 0 <= i <= |order|
      invariant QueuedUpTo(world, disk, mb, order[..i], t0, d0, entities.Keys(), meshes, enc, worldName, dataDir, faults)
      invariant world.next == old(world.next) && world.chunk == old(world.chunk)
      invariant world.genTask == old(world.genTask) && world.render == old(world.render)
    {
      assert order[..i + 1] == order[..i] + [order[i]];
      QueueMeshTask(world, entities, chunks, disk, order[i], worldName, dataDir, faults, mb, groupsOf, g, order[..i], t0, d0, meshes, enc);
      i := i + 1;
    }
    assert order[..i] == order;
  }

  /**
   * `queue_mesh_tasks`: over the dirty keys (in the set's iteration order,
   * `order`), every key with a registered entity and a stored buffer gets one
   * task, which saves a copy of the buffer (ignoring failure) and yields its
   * mesh at scale 1.0; other dirty keys are skipped.
   */
  method QueueMeshTasks(world: World, entities: Chunks.ChunkEntities, chunks: ChunkMap, dirty: Chunks.DirtyChunks,
                        disk: TerrainTasks.Disk, order: seq<IVec3>, worldName: string, dataDir: string,
                        faults: IVec3 -> TerrainTasks.IoFaults, mb: MeshBuffers, groupsOf: IVec3 -> seq<seq<Quad>>,
                        g: FaceGeometry)
    requires world.Valid() && chunks.Valid() && Chunks.Consistent(entities.entities, world.chunk)
    requires Distinct(order) && Elements(order) == dirty.dirty
    requires mb.Valid() && mb.sourceDims == CHUNK_DIMS && mb.scratch.data !in chunks.Arrays()
    requires GroupsOverChunks(groupsOf) && ValidGeometry(g)
    modifies world, disk, mb, mb.scratch.data
    ensures world.Valid() && mb.Valid()
    ensures world.meshTask == MeshQueued(old(world.meshTask), world.chunk, dirty.dirty, old(ChunkMeshes(chunks, groupsOf, g)))
    ensures TerrainTasks.DiskImage(disk.dirs, disk.files) ==
              SavedAll(old(TerrainTasks.DiskImage(disk.dirs, disk.files)), order, entities.Keys(), old(ChunkEncodings(chunks)), worldName, dataDir, faults)
    ensures world.next == old(world.next) && world.chunk == old(world.chunk)
    ensures world.genTask == old(world.genTask) && world.render == old(world.render)
  {
    ghost var t0, d0 := world.meshTask, TerrainTasks.DiskImage(disk.dirs, disk.files);
    ghost var meshes, enc := ChunkMeshes(chunks, groupsOf, g), ChunkEncodings(chunks);
    assert QueuedUpTo(world, disk, mb, [], t0, d0, entities.Keys(), meshes, enc, worldName, dataDir, faults) by {
      MeshQueuedNone(t0, world.chunk, meshes);
    }
    forall k
      ensures TaskValues(chunks, groupsOf, g, k, meshes, enc)
    {
      ChunkTaskValues(chunks, groupsOf, g, k);
    }
    QueueMeshLoop(world, entities, chunks, disk, order, worldName, dataDir, faults, mb, groupsOf, g, t0, d0, meshes, enc);
  }

  /** Queueing no key changes no task. */
  lemma MeshQueuedNone(tasks: map<Entity, MeshData>, chunk: map<Entity, IVec3>, meshes: map<IVec3, MeshData>)
    ensures MeshQueued(tasks, chunk, {}, meshes) == tasks
  {
    assert MeshSelected(chunk, {}, meshes) == {};
  }

  // ---------------------------------------------------------------------------
  // process_mesh_tasks

  /** The render components after the completed tasks in `done` hand over their meshes. */
  ghost function Processed(render: map<Entity, RenderBundle>, tasks: map<Entity, MeshData>, done: set<Entity>): map<Entity, RenderBundle> {
    map e | e in render :: if e in done && e in tasks then render[e].(mesh := tasks[e]) else render[e]
  }

  lemma ProcessedAdd(render: map<Entity, RenderBundle>, tasks: map<Entity, MeshData>, done: set<Entity>, e: Entity)
    requires e in render && e in tasks
    ensures Processed(render, tasks, done + {e}) == Processed(render, tasks, done)[e := render[e].(mesh := tasks[e])]
  {
  }

  /**
   * `process_mesh_tasks`: over the chunk entities holding a mesh and a task (in
   * query order, `polled`), each task that has completed (the `completed`
   * entities) replaces the entity's mesh and is removed; an incomplete task
   * changes nothing.
   */
  method ProcessMeshTasks(world: World, polled: seq<Entity>, completed: set<Entity>)
    requires world.Valid() && Distinct(polled) && Elements(polled) == world.meshTask.Keys * world.render.Keys
    modifies world
    ensures world.Valid()
    ensures world.render == Processed(old(world.render), old(world.meshTask), completed)
    ensures world.meshTask == old(world.meshTask) - (completed * old(world.render).Keys)
    ensures world.next == old(world.next) && world.chunk == old(world.chunk) && world.genTask == old(world.genTask)
  {
    ghost var r0, t0 := world.render, world.meshTask;
    var i := 0;
    assert Elements(polled[..0]) == {};
    while i < |polled|
      invariant 0 <= i <= |polled|
      invariant world.Valid()
      invariant world.render == Processed(r0, t0, completed * Elements(polled[..i]))
      invariant world.meshTask == t0 - (completed * Elements(polled[..i]))
      invariant world.next == old(world.next) && world.chunk == old(world.chunk) && world.genTask == old(world.genTask)
    {
      ProcessOne(world, polled, i, completed, r0, t0);
      i := i + 1;
    }
    assert polled[..i] == polled;
    assert t0 - (completed * Elements(polled)) == t0 - (completed * r0.Keys);
  }

  /** One polled entity: its completed task hands over its mesh and is removed. */
  method ProcessOne(world: World, polled: seq<Entity>, i: nat, completed: set<Entity>,
                    ghost r0: map<Entity, RenderBundle>, ghost t0: map<Entity, MeshData>)
    requires i < |polled| && Distinct(polled) && Elements(polled) == t0.Keys * r0.Keys
    requires world.Valid()
    requires world.render == Processed(r0, t0, completed * Elements(polled[..i]))
    requires world.meshTask == t0 - (completed * Elements(polled[..i]))
    modifies world
    ensures world.Valid()
    ensures world.render == Processed(r0, t0, completed * Elements(polled[..i + 1]))
    ensures world.meshTask == t0 - (completed * Elements(polled[..i + 1]))
    ensures world.next == old(world.next) && world.chunk == old(world.chunk) && world.genTask == old(world.genTask)
  {
    var entity := polled[i];
    assert polled[..i + 1] == polled[..i] + [entity];
    ElementsSnoc(polled[..i], entity);
    assert entity in Elements(polled);
    if entity in completed {
      ghost var done := completed * Elements(polled[..i]);
      ProcessedAdd(r0, t0, done, entity);
      DistinctFresh(polled, i);
      assert completed * Elements(polled[..i + 1]) == done + {entity};
      MinusOneMore(t0, done, entity);
      world.render := world.render[entity := world.render[entity].(mesh := world.meshTask[entity])];
      world.meshTask := world.meshTask - {entity};
    } else {
      assert completed * Elements(polled[..i + 1]) == completed * Elements(polled[..i]);
    }
  }

  /**
   * Queueing then processing: a dirty, registered, stored and prepared chunk
   * whose task has completed shows exactly its chunk's mesh, with its placement
   * and visibility untouched.
   */
  lemma QueuedMeshShown(render: map<Entity, RenderBundle>, tasks: map<Entity, MeshData>, chunk: map<Entity, IVec3>,
                        keys: set<IVec3>, meshes: map<IVec3, MeshData>, completed: set<Entity>, e: Entity)
    requires e in render && e in chunk && chunk[e] in keys && chunk[e] in meshes && e in completed
    ensures var shown := Processed(render, MeshQueued(tasks, chunk, keys, meshes), completed);
      e in shown && shown[e] == render[e].(mesh := meshes[chunk[e]])
  {
    assert e in MeshSelected(chunk, keys, meshes);
  }
}
