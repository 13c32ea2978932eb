/**
 * Chunk persistence and the terrain generation tasks of
 * src/voxel/world/terrain.rs: saving and loading chunk files, the task that
 * loads a chunk or else generates and saves it, queueing one task per new
 * chunk entity, and folding finished tasks into the chunk map.
 */
module TerrainTasks {
  import opened Geometry
  import opened Wrappers
  import opened Voxels
  import opened Storage
  import opened BufferSerde
  import opened ChunkPaths
  import opened ChunkMaps
  import opened Ecs
  import opened Noise
  import opened TerrainGen
  import opened Seqs
  import Chunks

  /**
   * The file system as the two functions see it: the directories created so
   * far and the contents of every file, as the deserialiser is handed them.
   */
  class Disk {
    var dirs: set<string>
    var files: map<string, DeInput>

    constructor (dirs: set<string>, files: map<string, DeInput>)
      ensures this.dirs == dirs && this.files == files
    {
      this.dirs := dirs;
      this.files := files;
    }
  }

  /**
   * Which file-system calls of one save or load fail: creating the save
   * directory, reading the chunk file, creating (and so truncating) the chunk
   * file, and writing its bytes.
   */
  datatype IoFaults = IoFaults(createDirFails: bool, readFails: bool, openFails: bool, writeFails: bool)

  const NO_FAULTS: IoFaults := IoFaults(false, false, false, false)

  /** The error of a save or load: a failed file-system call or a failed decode. */
  datatype IoError = Io | Decode(error: DeError)

  /** What bincode writes for a buffer, in the form the deserialiser reads it back. */
  function Encoded(b: VoxelBuffer): DeInput
    reads b.data
  {
    AsSeqForm(Serialize(b))
  }

  /**
   * What a chunk file holds once `fs::write` has created (truncated) it and
   * writing the bytes has failed part-way: a prefix of an encoding, which is
   * stood for by the empty sequence. It never decodes.
   */
  const TRUNCATED: DeInput := SeqForm([])

  lemma TruncatedDoesNotDecode()
    ensures Deserialize(TRUNCATED) == Err(InvalidLength(0))
  {
  }

  /**
   * Every chunk file that decodes holds exactly one chunk's worth of voxels;
   * files the save function writes keep this so.
   */
  ghost predicate FilesHoldChunks(files: map<string, DeInput>) {
    forall path :: path in files && Deserialize(files[path]).Ok? ==> |Deserialize(files[path]).value| == CHUNK_SIZE
  }

  /** The directories and files of the disk, as a value. */
  datatype DiskImage = DiskImage(dirs: set<string>, files: map<string, DeInput>)

  /**
   * One save of `data` for `key`, as `save_chunk_to_disk` performs it: a failed
   * directory creation changes nothing; otherwise the directory exists, and the
   * chunk file is left alone if it cannot be created, holds `TRUNCATED` if the
   * write fails, and holds `data` otherwise.
   */
  function SaveEffect(d: DiskImage, key: IVec3, data: DeInput, worldName: string, dataDir: string, faults: IoFaults): DiskImage {
    var path := ChunkPath(dataDir, worldName, key);
    if faults.createDirFails then d
    else DiskImage(d.dirs + {SavesDir(dataDir, worldName)},
                   if faults.openFails then d.files
                   else if faults.writeFails then d.files[path := TRUNCATED]
                   else d.files[path := data])
  }

  /** A save touches no file other than its chunk's and no directory other than the save directory. */
  lemma SaveEffectElsewhere(d: DiskImage, key: IVec3, data: DeInput, worldName: string, dataDir: string, faults: IoFaults, path: string)
    requires path != ChunkPath(dataDir, worldName, key)
    ensures var after := SaveEffect(d, key, data, worldName, dataDir, faults);
      && (path in after.files <==> path in d.files) && (path in d.files ==> after.files[path] == d.files[path])
      && d.dirs <= after.dirs <= d.dirs + {SavesDir(dataDir, worldName)}
  {
  }

  /** Whether every file-system call of a save succeeds. */
  predicate SaveSucceeds(faults: IoFaults) {
    !faults.createDirFails && !faults.openFails && !faults.writeFails
  }

  /**
   * `save_chunk_to_disk`: creates the save directory, then writes the
   * encoded buffer to the chunk's file, replacing an older copy. Any failing
   * call makes it return an error.
   */
  method SaveChunkToDisk(disk: Disk, chunkData: VoxelBuffer, key: IVec3, worldName: string, dataDir: string, faults: IoFaults)
    returns (r: Result<(), IoError>)
    modifies disk
    ensures r.Ok? <==> SaveSucceeds(faults)
    ensures r.Err? ==> r.error == Io
    ensures DiskImage(disk.dirs, disk.files) ==
              SaveEffect(old(DiskImage(disk.dirs, disk.files)), key, Encoded(chunkData), worldName, dataDir, faults)
  {
    var savesDir := SavesDir(dataDir, worldName);
    if faults.createDirFails {
      return Err(Io);
    }
    disk.dirs := disk.dirs + {savesDir};
    var encodedChunkData := Encoded(chunkData);
    var chunkPath := savesDir + "/" + KeyDisplay(key) + ".chunk";
    if faults.openFails {
      return Err(Io);
    }
    if faults.writeFails {
      disk.files := disk.files[chunkPath := TRUNCATED];
      return Err(Io);
    }
    disk.files := disk.files[chunkPath := encodedChunkData];
    r := Ok(());
  }

  /**
   * What `load_chunk_from_disk` yields: an error when the directory cannot be
   * created, `None` when the chunk has no file, an error when the file cannot
   * be read or decoded, and the decoded voxels otherwise.
   */
  function LoadOutcome(files: map<string, DeInput>, path: string, faults: IoFaults): Result<Option<seq<Voxel>>, IoError> {
    if faults.createDirFails then Err(Io)
    else if path !in files then Ok(None)
    else if faults.readFails then Err(Io)
    else match Deserialize(files[path])
      case Err(e) => Err(Decode(e))
      case Ok(d) => Ok(Some(d))
  }

  /** The directories after `load_chunk_from_disk`: the save directory is created unless that call fails. */
  function LoadDirs(dirs: set<string>, worldName: string, dataDir: string, faults: IoFaults): set<string> {
    if faults.createDirFails then dirs else dirs + {SavesDir(dataDir, worldName)}
  }

  /** `load_chunk_from_disk`: the decoded chunk, if it has a file, as a fresh buffer of the chunk shape. */
  method LoadChunkFromDisk(disk: Disk, key: IVec3, worldName: string, dataDir: string, faults: IoFaults, chunkShape: Shape)
    returns (r: Result<Option<VoxelBuffer>, IoError>)
    modifies disk
    ensures disk.files == old(disk.files)
    ensures disk.dirs == LoadDirs(old(disk.dirs), worldName, dataDir, faults)
    ensures var o := LoadOutcome(disk.files, ChunkPath(dataDir, worldName, key), faults);
      && (o.Err? <==> r.Err?) && (o.Err? ==> r.error == o.error)
      && (o.Ok? ==> r.Ok? && (o.value.None? <==> r.value.None?))
      && (o.Ok? && o.value.Some? ==>
            r.Ok? && r.value.Some? && fresh(r.value.value) && fresh(r.value.value.data)
            && r.value.value.shape == chunkShape && r.value.value.data[..] == o.value.value)
  {
    var savesDir := SavesDir(dataDir, worldName);
    if faults.createDirFails {
      return Err(Io);
    }
    disk.dirs := disk.dirs + {savesDir};
    var chunkPath := savesDir + "/" + KeyDisplay(key) + ".chunk";
    if chunkPath !in disk.files {
      return Ok(None);
    }
    if faults.readFails {
      return Err(Io);
    }
    var decoded := DeserializeBuffer(disk.files[chunkPath], chunkShape);
    if decoded.Err? {
      return Err(Decode(decoded.error));
    }
    r := Ok(Some(decoded.value));
  }

  /**
   * What a chunk loads as after one save of it: its voxels when every call of
   * the save succeeded, a decode error when the write failed after the file
   * was truncated, and what it loaded as before when the file was never opened.
   */
  lemma SaveThenLoad(d: DiskImage, b: VoxelBuffer, dataDir: string, worldName: string, key: IVec3, faults: IoFaults)
    ensures var path := ChunkPath(dataDir, worldName, key);
      var o := LoadOutcome(SaveEffect(d, key, Encoded(b), worldName, dataDir, faults).files, path, NO_FAULTS);
      if SaveSucceeds(faults) then o == Ok(Some(b.data[..]))
      else if !faults.createDirFails && !faults.openFails then o == Err(Decode(InvalidLength(0)))
      else o == LoadOutcome(d.files, path, NO_FAULTS)
  {
    RoundTrip(b);
    TruncatedDoesNotDecode();
  }

  /** Saving one chunk, whatever fails, leaves what every other chunk of the world loads as it was. */
  lemma SaveKeepsOtherChunks(d: DiskImage, data: DeInput, dataDir: string, worldName: string,
                             key: IVec3, other: IVec3, saveFaults: IoFaults, faults: IoFaults)
    requires key != other
    ensures var saved := SaveEffect(d, key, data, worldName, dataDir, saveFaults).files;
      LoadOutcome(saved, ChunkPath(dataDir, worldName, other), faults) == LoadOutcome(d.files, ChunkPath(dataDir, worldName, other), faults)
  {
    ChunkPathInjective(dataDir, worldName, key, other);
  }

  /** A chunk never saved loads as `None` unless the directory cannot be created. */
  lemma UnsavedLoadsNone(files: map<string, DeInput>, path: string, faults: IoFaults)
    requires path !in files
    ensures LoadOutcome(files, path, faults) == if faults.createDirFails then Err(Io) else Ok(None)
  {
  }

  /** Saving a chunk-sized buffer, whatever fails, keeps every decodable file chunk-sized. */
  lemma SaveKeepsFilesHoldChunks(d: DiskImage, b: VoxelBuffer, key: IVec3, worldName: string, dataDir: string, faults: IoFaults)
    requires FilesHoldChunks(d.files) && b.Valid() && IsChunkShape(b.shape)
    ensures FilesHoldChunks(SaveEffect(d, key, Encoded(b), worldName, dataDir, faults).files)
  {
    RoundTrip(b);
    TruncatedDoesNotDecode();
  }

  /** A decoded chunk file fills a buffer of the chunk shape exactly. */
  lemma LoadedChunkSized(files: map<string, DeInput>, path: string, faults: IoFaults)
    requires FilesHoldChunks(files)
    ensures var o := LoadOutcome(files, path, faults);
      o.Ok? && o.value.Some? ==> |o.value.value| == CHUNK_SIZE
  {
  }

  /** The size of every chunk-shaped buffer. */
  lemma ChunkShapeSize(s: Shape)
    requires IsChunkShape(s)
    ensures s.Size() == CHUNK_SIZE
  {
  }

  /** Whether the chunk file at `path` loads as saved voxels. */
  predicate LoadsSaved(files: map<string, DeInput>, path: string, faults: IoFaults) {
    var o := LoadOutcome(files, path, faults);
    o.Ok? && o.value.Some?
  }

  /** Every cell of `data`, laid out in `chunkShape`, as the generator fills an empty chunk. */
  ghost predicate GeneratedChunk(data: seq<Voxel>, chunkShape: Shape, n: ChunkNoise, m: MaterialIds) {
    && IsChunkShape(chunkShape) && SurfacesInChunk(n) && |data| == chunkShape.Size()
    && forall p :: chunkShape.InBounds(p) ==> data[chunkShape.linearize(p)] == GeneratedCell(n, m, p, EMPTY_VOXEL)
  }

  /**
   * The voxels the task of `key` yields, given the files it starts from: the
   * saved voxels when the chunk loads, and otherwise the generated chunk.
   */
  ghost predicate TaskContents(data: seq<Voxel>, files: map<string, DeInput>, key: IVec3, worldName: string, dataDir: string,
                               loadFaults: IoFaults, chunkShape: Shape, n: ChunkNoise, m: MaterialIds)
  {
    var path := ChunkPath(dataDir, worldName, key);
    if LoadsSaved(files, path, loadFaults) then data == LoadOutcome(files, path, loadFaults).value.value
    else GeneratedChunk(data, chunkShape, n, m)
  }

  /** The buffer the task of `key` yields: a chunk-shaped buffer holding its `TaskContents`. */
  ghost predicate TaskData(chunkData: VoxelBuffer, files: map<string, DeInput>, key: IVec3, worldName: string, dataDir: string,
                           loadFaults: IoFaults, chunkShape: Shape, n: ChunkNoise, m: MaterialIds)
    reads chunkData, chunkData.data
  {
    && chunkData.Valid() && chunkData.shape == chunkShape
    && TaskContents(chunkData.data[..], files, key, worldName, dataDir, loadFaults, chunkShape, n, m)
  }

  /**
   * `task_gen`: the chunk's saved copy if it loads, and otherwise (missing,
   * unreadable or undecodable) a freshly generated chunk, which is then saved,
   * ignoring whether the save succeeds.
   */
  method TaskGen(disk: Disk, key: IVec3, seed: int, worldName: string, dataDir: string,
                 loadFaults: IoFaults, saveFaults: IoFaults, chunkShape: Shape, n: ChunkNoise, m: MaterialIds)
    returns (chunkData: VoxelBuffer)
    requires IsChunkShape(chunkShape) && SurfacesInChunk(n) && FilesHoldChunks(disk.files)
    modifies disk
    ensures fresh(chunkData) && fresh(chunkData.data)
    ensures TaskData(chunkData, old(disk.files), key, worldName, dataDir, loadFaults, chunkShape, n, m)
    ensures disk.files == if LoadsSaved(old(disk.files), ChunkPath(dataDir, worldName, key), loadFaults) then old(disk.files)
                          else SaveEffect(old(DiskImage(disk.dirs, disk.files)), key, Encoded(chunkData), worldName, dataDir, saveFaults).files
    ensures disk.dirs == if LoadsSaved(old(disk.files), ChunkPath(dataDir, worldName, key), loadFaults)
                         then LoadDirs(old(disk.dirs), worldName, dataDir, loadFaults)
                         else SaveEffect(DiskImage(LoadDirs(old(disk.dirs), worldName, dataDir, loadFaults), old(disk.files)),
                                         key, Encoded(chunkData), worldName, dataDir, saveFaults).dirs
    ensures FilesHoldChunks(disk.files)
  {
    ChunkShapeSize(chunkShape);
    LoadedChunkSized(disk.files, ChunkPath(dataDir, worldName, key), loadFaults);
    var loaded := LoadChunkFromDisk(disk, key, worldName, dataDir, loadFaults, chunkShape);
    if loaded.Ok? && loaded.value.Some? {
      return loaded.value.value;
    }
    chunkData := new VoxelBuffer.NewEmpty(chunkShape);
    Generate(key, chunkData, seed, n, m);
    SaveKeepsFilesHoldChunks(DiskImage(disk.dirs, disk.files), chunkData, key, worldName, dataDir, saveFaults);
    var _ := SaveChunkToDisk(disk, chunkData, key, worldName, dataDir, saveFaults);
  }

  /**
   * The buffers of pending generation tasks are well-formed chunk buffers that
   * own their storage: no task shares it with another task or with the chunk map.
   */
  ghost predicate TasksOwned(world: World, chunks: ChunkMap)
    reads world, chunks
  {
    OwnedTasks(world.genTask, chunks.buffers)
  }

  ghost predicate OwnedTasks(genTask: map<Entity, VoxelBuffer>, buffers: map<IVec3, VoxelBuffer>) {
    && (forall e :: e in genTask ==> genTask[e].Valid() && IsChunkShape(genTask[e].shape))
    && (forall e, k :: e in genTask && k in buffers ==> genTask[e].data != buffers[k].data)
    && (forall e1, e2 :: e1 in genTask && e2 in genTask && e1 != e2 ==> genTask[e1].data != genTask[e2].data)
  }

  /** Handing a task's buffer to the chunk map keeps the remaining tasks owning theirs. */
  lemma OwnedAfterHandOver(genTask: map<Entity, VoxelBuffer>, buffers: map<IVec3, VoxelBuffer>, e: Entity, key: IVec3)
    requires OwnedTasks(genTask, buffers) && e in genTask
    ensures OwnedTasks(genTask - {e}, buffers[key := genTask[e]])
  {
    var g', b' := genTask - {e}, buffers[key := genTask[e]];
    forall e', k | e' in g' && k in b'
      ensures g'[e'].data != b'[k].data
    {
      if k == key {
        assert e' != e;
      }
    }
  }

  /** No two chunk entities carry the same key. */
  ghost predicate KeysUnique(chunk: map<Entity, IVec3>) {
    forall e1, e2 :: e1 in chunk && e2 in chunk && e1 != e2 ==> chunk[e1] != chunk[e2]
  }

  /** The registry's one-to-one correspondence gives every live chunk entity its own key. */
  lemma ConsistentKeysUnique(registry: map<IVec3, Entity>, chunk: map<Entity, IVec3>)
    requires Chunks.Consistent(registry, chunk)
    ensures KeysUnique(chunk)
  {
    forall e1, e2 | e1 in chunk && e2 in chunk && e1 != e2
      ensures chunk[e1] != chunk[e2]
    {
      assert registry[chunk[e1]] == e1 && registry[chunk[e2]] == e2;
    }
  }

  /** Files that load alike at one chunk path give the same task data for that chunk. */
  lemma TaskDataSameLoad(b: VoxelBuffer, f1: map<string, DeInput>, f2: map<string, DeInput>, key: IVec3, worldName: string,
                         dataDir: string, loadFaults: IoFaults, chunkShape: Shape, n: ChunkNoise, m: MaterialIds)
    requires LoadOutcome(f1, ChunkPath(dataDir, worldName, key), loadFaults) == LoadOutcome(f2, ChunkPath(dataDir, worldName, key), loadFaults)
    ensures TaskData(b, f1, key, worldName, dataDir, loadFaults, chunkShape, n, m) <==> TaskData(b, f2, key, worldName, dataDir, loadFaults, chunkShape, n, m)
  {
  }

  /** The task `queue_terrain_gen` attaches to one new chunk entity: `task_gen` for its key. */
  method QueueOne(world: World, chunks: ChunkMap, disk: Disk, entity: Entity, seed: int, worldName: string, dataDir: string,
                  loadFaults: IoFaults, saveFaults: IoFaults, chunkShape: Shape, n: ChunkNoise, m: MaterialIds)
    requires world.Valid() && TasksOwned(world, chunks) && FilesHoldChunks(disk.files)
    requires IsChunkShape(chunkShape) && SurfacesInChunk(n) && entity in world.chunk
    modifies world, disk
    ensures world.Valid() && TasksOwned(world, chunks) && FilesHoldChunks(disk.files)
    ensures entity in world.genTask && fresh(world.genTask[entity]) && fresh(world.genTask[entity].data)
    ensures world.genTask == old(world.genTask)[entity := world.genTask[entity]]
    ensures var key := world.chunk[entity];
      && TaskData(world.genTask[entity], old(disk.files), key, worldName, dataDir, loadFaults, chunkShape, n, m)
      && disk.files == (if LoadsSaved(old(disk.files), ChunkPath(dataDir, worldName, key), loadFaults) then old(disk.files)
                        else SaveEffect(old(DiskImage(disk.dirs, disk.files)), key, Encoded(world.genTask[entity]),
                                        worldName, dataDir, saveFaults).files)
      && disk.dirs == if LoadsSaved(old(disk.files), ChunkPath(dataDir, worldName, key), loadFaults)
                      then LoadDirs(old(disk.dirs), worldName, dataDir, loadFaults)
                      else SaveEffect(DiskImage(LoadDirs(old(disk.dirs), worldName, dataDir, loadFaults), old(disk.files)),
                                      key, Encoded(world.genTask[entity]), worldName, dataDir, saveFaults).dirs
    ensures world.next == old(world.next) && world.chunk == old(world.chunk)
    ensures world.meshTask == old(world.meshTask) && world.render == old(world.render)
  {
    var genTask := TaskGen(disk, world.chunk[entity], seed, worldName, dataDir, loadFaults, saveFaults, chunkShape, n, m);
    world.genTask := world.genTask[entity := genTask];
  }

  /**
   * `queue_terrain_gen`: every newly added chunk entity gets a generation task
   * for its key. The task runs to completion here, in queue order; the noise of
   * each key and the faults of each file-system call are inputs. When the
   * entities are distinct and carry distinct keys (as the chunk registry keeps
   * them), no task sees another's save, so each task's buffer is what its key
   * loads or generates from the files as they were before the first task.
   */
  method QueueTerrainGen(world: World, chunks: ChunkMap, disk: Disk, newChunks: seq<Entity>, seed: int,
                         worldName: string, dataDir: string, loadFaults: IVec3 -> IoFaults, saveFaults: IVec3 -> IoFaults,
                         chunkShape: Shape, noiseOf: IVec3 -> ChunkNoise, m: MaterialIds)
    requires world.Valid() && TasksOwned(world, chunks) && FilesHoldChunks(disk.files)
    requires IsChunkShape(chunkShape) && forall k :: SurfacesInChunk(noiseOf(k))
    requires forall i :: 0 <= i < |newChunks| ==> newChunks[i] in world.chunk
    modifies world, disk
    ensures world.Valid() && TasksOwned(world, chunks) && FilesHoldChunks(disk.files)
    ensures world.genTask.Keys == old(world.genTask.Keys) + Elements(newChunks)
    ensures forall e :: e in old(world.genTask) && e !in Elements(newChunks) ==> world.genTask[e] == old(world.genTask[e])
    ensures forall e :: e in Elements(newChunks) ==> fresh(world.genTask[e]) && world.genTask[e].shape == chunkShape
    ensures Distinct(newChunks) && KeysUnique(world.chunk) ==>
      forall e :: e in Elements(newChunks) ==>
        TaskData(world.genTask[e], old(disk.files), world.chunk[e], worldName, dataDir, loadFaults(world.chunk[e]),
                 chunkShape, noiseOf(world.chunk[e]), m)
    ensures world.next == old(world.next) && world.chunk == old(world.chunk)
    ensures world.meshTask == old(world.meshTask) && world.render == old(world.render)
  {
    ghost var files0, tasks0 := disk.files, world.genTask;
    ghost var uniq := Distinct(newChunks) && KeysUnique(world.chunk);
    var i := 0;
    while i < |newChunks|
      invariant 0 <= i <= |newChunks|
      invariant world.Valid() && TasksOwned(world, chunks) && FilesHoldChunks(disk.files)
      invariant world.genTask.Keys == tasks0.Keys + Elements(newChunks[..i])
      invariant forall e :: e in tasks0 && e !in Elements(newChunks[..i]) ==> world.genTask[e] == tasks0[e]
      invariant forall e :: e in Elements(newChunks[..i]) ==> world.genTask[e].shape == chunkShape
      invariant forall e :: e in Elements(newChunks[..i]) ==> fresh(world.genTask[e])
      invariant world.next == old(world.next) && world.chunk == old(world.chunk)
      invariant world.meshTask == old(world.meshTask) && world.render == old(world.render)
      invariant uniq ==> forall j :: i <= j < |newChunks| ==> Unseen(disk.files, files0, world.chunk[newChunks[j]], worldName, dataDir, loadFaults)
      invariant uniq ==> forall e :: e in Elements(newChunks[..i]) ==> e in world.genTask && TaskOf(world, e, files0, worldName, dataDir, loadFaults, chunkShape, noiseOf, m)
    {
      var entity := newChunks[i];
      ghost var tasksBefore := world.genTask;
      QueueStep(world, chunks, disk, newChunks, i, seed, worldName, dataDir, loadFaults, saveFaults, chunkShape, noiseOf, m,
                files0, tasks0);
      ElementsPrefixStep(newChunks, i);
      forall e | e in Elements(newChunks[..i + 1])
        ensures fresh(world.genTask[e])
      {
        if e != entity {
          assert world.genTask[e] == tasksBefore[e];
        }
      }
      i := i + 1;
    }
    assert newChunks[..i] == newChunks;
  }

  /** The task of entity `e` holds its `TaskData` against the files `files0`. */
  ghost predicate TaskOf(world: World, e: Entity, files0: map<string, DeInput>, worldName: string, dataDir: string,
                         loadFaults: IVec3 -> IoFaults, chunkShape: Shape, noiseOf: IVec3 -> ChunkNoise, m: MaterialIds)
    reads world, if e in world.genTask then {world.genTask[e], world.genTask[e].data} else {}
  {
    && e in world.genTask && e in world.chunk
    && TaskData(world.genTask[e], files0, world.chunk[e], worldName, dataDir, loadFaults(world.chunk[e]),
                chunkShape, noiseOf(world.chunk[e]), m)
  }

  /** The loop step of `queue_terrain_gen`, with the tasks queued so far. */
  method QueueStep(world: World, chunks: ChunkMap, disk: Disk, newChunks: seq<Entity>, i: nat, seed: int,
                   worldName: string, dataDir: string, loadFaults: IVec3 -> IoFaults, saveFaults: IVec3 -> IoFaults,
                   chunkShape: Shape, noiseOf: IVec3 -> ChunkNoise, m: MaterialIds,
                   ghost files0: map<string, DeInput>, ghost tasks0: map<Entity, VoxelBuffer>)
    requires world.Valid() && TasksOwned(world, chunks) && FilesHoldChunks(disk.files)
    requires IsChunkShape(chunkShape) && forall k :: SurfacesInChunk(noiseOf(k))
    requires i < |newChunks| && forall j :: 0 <= j < |newChunks| ==> newChunks[j] in world.chunk
    requires world.genTask.Keys == tasks0.Keys + Elements(newChunks[..i])
    requires forall e :: e in tasks0 && e !in Elements(newChunks[..i]) ==> world.genTask[e] == tasks0[e]
    requires forall e :: e in Elements(newChunks[..i]) ==> world.genTask[e].shape == chunkShape
    requires Distinct(newChunks) && KeysUnique(world.chunk) ==>
      && (forall j :: i <= j < |newChunks| ==> Unseen(disk.files, files0, world.chunk[newChunks[j]], worldName, dataDir, loadFaults))
      && (forall e :: e in Elements(newChunks[..i]) ==> e in world.genTask && TaskOf(world, e, files0, worldName, dataDir, loadFaults, chunkShape, noiseOf, m))
    modifies world, disk
    ensures world.Valid() && TasksOwned(world, chunks) && FilesHoldChunks(disk.files)
    ensures var entity := newChunks[i];
      && entity in world.genTask && fresh(world.genTask[entity]) && fresh(world.genTask[entity].data)
      && world.genTask == old(world.genTask)[entity := world.genTask[entity]]
    ensures world.genTask.Keys == tasks0.Keys + Elements(newChunks[..i + 1])
    ensures forall e :: e in tasks0 && e !in Elements(newChunks[..i + 1]) ==> world.genTask[e] == tasks0[e]
    ensures forall e :: e in Elements(newChunks[..i + 1]) ==> world.genTask[e].shape == chunkShape
    ensures world.next == old(world.next) && world.chunk == old(world.chunk)
    ensures world.meshTask == old(world.meshTask) && world.render == old(world.render)
    ensures Distinct(newChunks) && KeysUnique(world.chunk) ==>
      && (forall j :: i + 1 <= j < |newChunks| ==> Unseen(disk.files, files0, world.chunk[newChunks[j]], worldName, dataDir, loadFaults))
      && (forall e :: e in Elements(newChunks[..i + 1]) ==> e in world.genTask && TaskOf(world, e, files0, worldName, dataDir, loadFaults, chunkShape, noiseOf, m))
  {
    ghost var tasksBefore := world.genTask;
    QueueNext(world, chunks, disk, newChunks, i, seed, worldName, dataDir, loadFaults, saveFaults, chunkShape, noiseOf, m, files0);
    ElementsPrefixStep(newChunks, i);
    assert world.genTask.Keys == tasksBefore.Keys + {newChunks[i]};
  }

  /** The task of the `i`-th new chunk, and what it keeps of the tasks before it. */
  method QueueNext(world: World, chunks: ChunkMap, disk: Disk, newChunks: seq<Entity>, i: nat, seed: int,
                   worldName: string, dataDir: string, loadFaults: IVec3 -> IoFaults, saveFaults: IVec3 -> IoFaults,
                   chunkShape: Shape, noiseOf: IVec3 -> ChunkNoise, m: MaterialIds, ghost files0: map<string, DeInput>)
    requires world.Valid() && TasksOwned(world, chunks) && FilesHoldChunks(disk.files)
    requires IsChunkShape(chunkShape) && forall k :: SurfacesInChunk(noiseOf(k))
    requires i < |newChunks| && forall j :: 0 <= j < |newChunks| ==> newChunks[j] in world.chunk
    requires Distinct(newChunks) && KeysUnique(world.chunk) ==>
      && (forall j :: i <= j < |newChunks| ==> Unseen(disk.files, files0, world.chunk[newChunks[j]], worldName, dataDir, loadFaults))
      && (forall e :: e in Elements(newChunks[..i]) ==> e in world.genTask && TaskOf(world, e, files0, worldName, dataDir, loadFaults, chunkShape, noiseOf, m))
    modifies world, disk
    ensures world.Valid() && TasksOwned(world, chunks) && FilesHoldChunks(disk.files)
    ensures var entity := newChunks[i];
      && entity in world.genTask && fresh(world.genTask[entity]) && fresh(world.genTask[entity].data)
      && world.genTask[entity].shape == chunkShape
      && world.genTask == old(world.genTask)[entity := world.genTask[entity]]
    ensures world.next == old(world.next) && world.chunk == old(world.chunk)
    ensures world.meshTask == old(world.meshTask) && world.render == old(world.render)
    ensures Distinct(newChunks) && KeysUnique(world.chunk) ==>
      && (forall j :: i + 1 <= j < |newChunks| ==> Unseen(disk.files, files0, world.chunk[newChunks[j]], worldName, dataDir, loadFaults))
      && (forall e :: e in Elements(newChunks[..i + 1]) ==> e in world.genTask && TaskOf(world, e, files0, worldName, dataDir, loadFaults, chunkShape, noiseOf, m))
  {
    var entity := newChunks[i];
    var key := world.chunk[entity];
    ghost var before, dirsBefore, tasksBefore := disk.files, disk.dirs, world.genTask;
    ghost var uniq := Distinct(newChunks) && KeysUnique(world.chunk);
    assert uniq ==> Unseen(before, files0, key, worldName, dataDir, loadFaults);
    QueueOne(world, chunks, disk, entity, seed, worldName, dataDir, loadFaults(key), saveFaults(key), chunkShape, noiseOf(key), m);
    if uniq {
      ElementsPrefixStep(newChunks, i);
      TaskDataSameLoad(world.genTask[entity], before, files0, key, worldName, dataDir, loadFaults(key), chunkShape, noiseOf(key), m);
      UnseenAfterSave(before, disk.files, files0, DiskImage(dirsBefore, before), Encoded(world.genTask[entity]),
                      newChunks, world.chunk, i, worldName, dataDir, loadFaults, saveFaults(key));
      forall e | e in Elements(newChunks[..i + 1])
        ensures e in world.genTask && TaskOf(world, e, files0, worldName, dataDir, loadFaults, chunkShape, noiseOf, m)
      {
        if e != entity {
          assert e in Elements(newChunks[..i]);
          var b := tasksBefore[e];
          assert old(TaskData(b, files0, world.chunk[e], worldName, dataDir, loadFaults(world.chunk[e]), chunkShape, noiseOf(world.chunk[e]), m));
          assert world.genTask[e] == b;
        }
      }
    }
  }

  /**
   * The task of the `i`-th new chunk saves only its own file (or nothing), so
   * the chunks after it still load as they did before the first task.
   */
  lemma UnseenAfterSave(before: map<string, DeInput>, after: map<string, DeInput>, files0: map<string, DeInput>,
                        d: DiskImage, data: DeInput, newChunks: seq<Entity>, chunk: map<Entity, IVec3>, i: nat,
                        worldName: string, dataDir: string, loadFaults: IVec3 -> IoFaults, saveFaults: IoFaults)
    requires Distinct(newChunks) && KeysUnique(chunk) && i < |newChunks|
    requires forall j :: 0 <= j < |newChunks| ==> newChunks[j] in chunk
    requires forall j :: i <= j < |newChunks| ==> Unseen(before, files0, chunk[newChunks[j]], worldName, dataDir, loadFaults)
    requires d.files == before
    requires after == before || after == SaveEffect(d, chunk[newChunks[i]], data, worldName, dataDir, saveFaults).files
    ensures forall j :: i + 1 <= j < |newChunks| ==> Unseen(after, files0, chunk[newChunks[j]], worldName, dataDir, loadFaults)
  {
    forall j | i + 1 <= j < |newChunks|
      ensures Unseen(after, files0, chunk[newChunks[j]], worldName, dataDir, loadFaults)
    {
      var key, other := chunk[newChunks[i]], chunk[newChunks[j]];
      assert Unseen(before, files0, other, worldName, dataDir, loadFaults);
      assert newChunks[i] != newChunks[j];
      SaveKeepsOtherChunks(d, data, dataDir, worldName, key, other, saveFaults, loadFaults(other));
    }
  }

  /** The chunk file of `key` loads from `files` as it did from `files0`. */
  ghost predicate Unseen(files: map<string, DeInput>, files0: map<string, DeInput>, key: IVec3, worldName: string, dataDir: string,
                         loadFaults: IVec3 -> IoFaults)
  {
    LoadOutcome(files, ChunkPath(dataDir, worldName, key), loadFaults(key)) == LoadOutcome(files0, ChunkPath(dataDir, worldName, key), loadFaults(key))
  }

  /** The keys of the finished tasks among `done`, each with the buffer its task yielded. */
  ghost function Finished(chunk: map<Entity, IVec3>, genTask: map<Entity, VoxelBuffer>, done: set<Entity>): map<IVec3, VoxelBuffer>
    requires done <= genTask.Keys <= chunk.Keys && KeysUnique(chunk)
  {
    map e | e in done :: chunk[e] := genTask[e]
  }

  /** Finishing one more task adds its key and buffer. */
  lemma FinishedAdd(chunk: map<Entity, IVec3>, genTask: map<Entity, VoxelBuffer>, done: set<Entity>, e: Entity)
    requires done <= genTask.Keys <= chunk.Keys && KeysUnique(chunk) && e in genTask && e !in done
    ensures Finished(chunk, genTask, done + {e}) == Finished(chunk, genTask, done)[chunk[e] := genTask[e]]
  {
  }

  /** One completed task of `wrap_up`: insert its buffer under its key, mark the key dirty, drop the task. */
  method WrapUpStep(world: World, chunks: ChunkMap, dirty: Chunks.DirtyChunks, entity: Entity)
    requires world.Valid() && chunks.Valid() && TasksOwned(world, chunks) && entity in world.genTask
    modifies world, chunks, dirty
    ensures world.Valid() && chunks.Valid() && TasksOwned(world, chunks)
    ensures world.genTask == old(world.genTask) - {entity}
    ensures chunks.buffers == old(chunks.buffers)[old(world.chunk)[entity] := old(world.genTask)[entity]]
    ensures dirty.dirty == old(dirty.dirty) + {old(world.chunk)[entity]}
    ensures world.next == old(world.next) && world.chunk == old(world.chunk)
    ensures world.meshTask == old(world.meshTask) && world.render == old(world.render)
  {
    var key := world.chunk[entity];
    var data := world.genTask[entity];
    OwnedAfterHandOver(world.genTask, chunks.buffers, entity, key);
    chunks.Insert(key, data);
    dirty.MarkDirty(key);
    world.genTask := world.genTask - {entity};
  }

  /** The keys and buffers of the tasks finished in the order `order`. */
  ghost function FinishedInOrder(chunk: map<Entity, IVec3>, genTask: map<Entity, VoxelBuffer>, order: seq<Entity>): map<IVec3, VoxelBuffer>
    requires Elements(order) <= genTask.Keys <= chunk.Keys
  {
    if order == [] then map[]
    else
      var last := order[|order| - 1];
      ElementsSnoc(order[..|order| - 1], last);
      assert order == order[..|order| - 1] + [last];
      FinishedInOrder(chunk, genTask, order[..|order| - 1])[chunk[last] := genTask[last]]
  }

  /** With distinct keys, the order in which tasks finish does not matter. */
  lemma {:induction false} FinishedInAnyOrder(chunk: map<Entity, IVec3>, genTask: map<Entity, VoxelBuffer>, order: seq<Entity>)
    requires Elements(order) <= genTask.Keys <= chunk.Keys && KeysUnique(chunk) && Distinct(order)
    ensures FinishedInOrder(chunk, genTask, order) == Finished(chunk, genTask, Elements(order))
  {
    if order != [] {
      var init, last := order[..|order| - 1], order[|order| - 1];
      assert order == init + [last];
      ElementsSnoc(init, last);
      DistinctSnoc(init, last);
      FinishedInAnyOrder(chunk, genTask, init);
      FinishedAdd(chunk, genTask, Elements(init), last);
    }
  }

  /** Finishing one more task in the order. */
  lemma FinishedInOrderSnoc(chunk: map<Entity, IVec3>, genTask: map<Entity, VoxelBuffer>, order: seq<Entity>, e: Entity)
    requires Elements(order) <= genTask.Keys <= chunk.Keys && e in genTask
    ensures Elements(order + [e]) <= genTask.Keys
    ensures FinishedInOrder(chunk, genTask, order + [e]) == FinishedInOrder(chunk, genTask, order)[chunk[e] := genTask[e]]
  {
    ElementsSnoc(order, e);
    assert (order + [e])[..|order|] == order;
  }

  /** The entities of `s` whose task has completed, in query order. */
  function CompletedIn(s: seq<Entity>, completed: set<Entity>): (r: seq<Entity>)
    ensures Elements(r) == Elements(s) * completed
    ensures Distinct(s) ==> Distinct(r)
  {
    if s == [] then []
    else
      var init, last := s[..|s| - 1], s[|s| - 1];
      assert s == init + [last];
      ElementsSnoc(init, last);
      DistinctSnoc(init, last);
      var r := CompletedIn(init, completed);
      if last in completed then
        ElementsSnoc(r, last);
        DistinctSnoc(r, last);
        r + [last]
      else r
  }

  /** The query order extended by one entity. */
  lemma CompletedInSnoc(s: seq<Entity>, x: Entity, completed: set<Entity>)
    ensures CompletedIn(s + [x], completed) == if x in completed then CompletedIn(s, completed) + [x] else CompletedIn(s, completed)
  {
    assert (s + [x])[..|s|] == s;
  }

  /** Removing keys a map does not have changes nothing. */
  lemma MinusOwnKeys<K, V>(m: map<K, V>, s: set<K>)
    ensures m - (m.Keys * s) == m - s
  {
  }

  /** Once the whole query is walked, exactly the completed tasks are gone. */
  lemma CompletedTasksRemoved(g0: map<Entity, VoxelBuffer>, generated: seq<Entity>, completed: set<Entity>)
    requires Elements(generated) == g0.Keys
    ensures g0 - Elements(CompletedIn(generated, completed)) == g0 - completed
  {
    MinusOwnKeys(g0, completed);
  }

  /**
   * What `wrap_up` stores does not depend on the query order: it is the
   * completed tasks' buffers, each under its entity's key.
   */
  lemma WrapUpOrderIrrelevant(c0: map<Entity, IVec3>, g0: map<Entity, VoxelBuffer>, generated: seq<Entity>, completed: set<Entity>)
    requires g0.Keys <= c0.Keys && KeysUnique(c0) && Distinct(generated) && Elements(generated) == g0.Keys
    ensures FinishedInOrder(c0, g0, CompletedIn(generated, completed)) == Finished(c0, g0, g0.Keys * completed)
  {
    FinishedInAnyOrder(c0, g0, CompletedIn(generated, completed));
  }

  /**
   * The state of `wrap_up` once the tasks of `order` are folded in, starting
   * from tasks `g0`, chunk keys `c0`, buffers `b0` and dirty set `d0`.
   */
  ghost predicate WrappedUpTo(world: World, chunks: ChunkMap, dirty: Chunks.DirtyChunks, order: seq<Entity>,
                              g0: map<Entity, VoxelBuffer>, c0: map<Entity, IVec3>, b0: map<IVec3, VoxelBuffer>, d0: set<IVec3>)
    reads world, chunks, dirty
  {
    && Elements(order) <= g0.Keys <= c0.Keys
    && world.Valid() && chunks.Valid() && TasksOwned(world, chunks) && world.chunk == c0
    && world.genTask == g0 - Elements(order)
    && chunks.buffers == b0 + FinishedInOrder(c0, g0, order)
    && dirty.dirty == d0 + FinishedInOrder(c0, g0, order).Keys
  }

  /** `wrap_up` on one completed task, from the state after the tasks before it. */
  method WrapUpNext(world: World, chunks: ChunkMap, dirty: Chunks.DirtyChunks, entity: Entity, ghost order: seq<Entity>,
                    ghost g0: map<Entity, VoxelBuffer>, ghost c0: map<Entity, IVec3>, ghost b0: map<IVec3, VoxelBuffer>, ghost d0: set<IVec3>)
    requires WrappedUpTo(world, chunks, dirty, order, g0, c0, b0, d0) && entity in g0 && entity !in Elements(order)
    modifies world, chunks, dirty
    ensures WrappedUpTo(world, chunks, dirty, order + [entity], g0, c0, b0, d0)
    ensures world.next == old(world.next) && world.meshTask == old(world.meshTask) && world.render == old(world.render)
  {
    MinusOneMore(g0, Elements(order), entity);
    UnionUpdate(b0, FinishedInOrder(c0, g0, order), c0[entity], g0[entity]);
    FinishedInOrderSnoc(c0, g0, order, entity);
    ElementsSnoc(order, entity);
    WrapUpStep(world, chunks, dirty, entity);
  }

  /** One iteration of the `wrap_up` loop: the task of `generated[i]` is handed over if it has completed. */
  method WrapUpVisit(world: World, chunks: ChunkMap, dirty: Chunks.DirtyChunks, generated: seq<Entity>, i: nat, completed: set<Entity>,
                     ghost g0: map<Entity, VoxelBuffer>, ghost c0: map<Entity, IVec3>, ghost b0: map<IVec3, VoxelBuffer>, ghost d0: set<IVec3>)
    requires i < |generated| && Distinct(generated) && Elements(generated) == g0.Keys
    requires WrappedUpTo(world, chunks, dirty, CompletedIn(generated[..i], completed), g0, c0, b0, d0)
    modifies world, chunks, dirty
    ensures WrappedUpTo(world, chunks, dirty, CompletedIn(generated[..i + 1], completed), g0, c0, b0, d0)
    ensures world.next == old(world.next) && world.meshTask == old(world.meshTask) && world.render == old(world.render)
  {
    var entity := generated[i];
    assert generated[..i + 1] == generated[..i] + [entity];
    CompletedInSnoc(generated[..i], entity, completed);
    assert entity in Elements(generated);
    DistinctFresh(generated, i);
    if entity in completed {
      WrapUpNext(world, chunks, dirty, entity, CompletedIn(generated[..i], completed), g0, c0, b0, d0);
    }
  }

  /** The loop of `wrap_up`, from the state `g0`, `c0`, `b0`, `d0` to the fold of every completed task. */
  method WrapUpLoop(world: World, chunks: ChunkMap, dirty: Chunks.DirtyChunks, generated: seq<Entity>, completed: set<Entity>,
                    ghost g0: map<Entity, VoxelBuffer>, ghost c0: map<Entity, IVec3>, ghost b0: map<IVec3, VoxelBuffer>, ghost d0: set<IVec3>)
    requires WrappedUpTo(world, chunks, dirty, [], g0, c0, b0, d0)
    requires Distinct(generated) && Elements(generated) == g0.Keys
    modifies world, chunks, dirty
    ensures WrappedUpTo(world, chunks, dirty, CompletedIn(generated, completed), g0, c0, b0, d0)
    ensures world.next == old(world.next) && world.meshTask == old(world.meshTask) && world.render == old(world.render)
  {
    var i := 0;
    assert CompletedIn(generated[..0], completed) == [];
    while i < |generated|
      invariant 0 <= i <= |generated|
      invariant WrappedUpTo(world, chunks, dirty, CompletedIn(generated[..i], completed), g0, c0, b0, d0)
      invariant world.next == old(world.next) && world.meshTask == old(world.meshTask) && world.render == old(world.render)
    {
      WrapUpVisit(world, chunks, dirty, generated, i, completed, g0, c0, b0, d0);
      i := i + 1;
    }
    assert generated[..i] == generated;
  }

  /**
   * `wrap_up`: in query order (`generated`, the entities holding a task), every
   * task that has completed (the `completed` entities) hands its buffer to the
   * chunk map under the entity's key, marks the key dirty and is removed; the
   * other tasks stay pending.
   */
  method WrapUp(world: World, chunks: ChunkMap, dirty: Chunks.DirtyChunks, generated: seq<Entity>, completed: set<Entity>)
    requires world.Valid() && chunks.Valid() && TasksOwned(world, chunks) && KeysUnique(world.chunk)
    requires Distinct(generated) && Elements(generated) == world.genTask.Keys
    modifies world, chunks, dirty
    ensures world.Valid() && chunks.Valid() && TasksOwned(world, chunks)
    ensures world.genTask == old(world.genTask) - completed
    ensures chunks.buffers == old(chunks.buffers) + FinishedInOrder(old(world.chunk), old(world.genTask), CompletedIn(generated, completed))
    ensures dirty.dirty == old(dirty.dirty) + FinishedInOrder(old(world.chunk), old(world.genTask), CompletedIn(generated, completed)).Keys
    ensures world.next == old(world.next) && world.chunk == old(world.chunk)
    ensures world.meshTask == old(world.meshTask) && world.render == old(world.render)
  {
    ghost var g0, c0, b0, d0 := world.genTask, world.chunk, chunks.buffers, dirty.dirty;
    assert b0 + map[] == b0 && g0 - {} == g0;
    WrapUpLoop(world, chunks, dirty, generated, completed, g0, c0, b0, d0);
    CompletedTasksRemoved(g0, generated, completed);
  }
}
