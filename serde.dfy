/**
 * The hand-written `Serialize` / `Deserialize` impls of `VoxelBuffer`
 * (src/core/storage/buffer.rs), stated in serde's data model: the buffer is a
 * struct named "VoxelBuffer" with the single field "data"; a compact format
 * (bincode) hands the deserialiser the field values as a sequence, a
 * self-describing format hands it key/value entries.
 */
module BufferSerde {
  import opened Voxels
  import opened Wrappers
  import opened Storage

  /** A serialised struct: its name and its (field name, value) pairs in order. */
  datatype SerializedStruct = SerializedStruct(name: string, fields: seq<(string, seq<Voxel>)>)

  /** What a format presents to the visitor of `deserialize_struct`. */
  datatype DeInput =
    | SeqForm(elements: seq<seq<Voxel>>)
    | MapForm(entries: seq<(string, seq<Voxel>)>)

  /** serde's error constructors used by the visitor. */
  datatype DeError =
    | InvalidLength(len: nat)
    | DuplicateField(field: string)
    | MissingField(field: string)
    /** The derived `Field` identifier knows only "data"; any other key fails to decode. */
    | UnknownField(key: string)

  /** The only field of the struct. */
  const DATA_FIELD: string := "data"

  /** `serialize`: one field, "data", holding the flat voxel array; the shape is not written. */
  function Serialize(b: VoxelBuffer): SerializedStruct
    reads b.data
  {
    SerializedStruct("VoxelBuffer", [(DATA_FIELD, b.data[..])])
  }

  /** The sequence presentation (bincode): the field values in order. */
  function AsSeqForm(s: SerializedStruct): DeInput {
    SeqForm(seq(|s.fields|, i requires 0 <= i < |s.fields| => s.fields[i].1))
  }

  /** The map presentation: the (key, value) entries in order. */
  function AsMapForm(s: SerializedStruct): DeInput {
    MapForm(s.fields)
  }

  /** `visit_seq`: the first element is the data; an empty sequence is an error. */
  function VisitSeq(elements: seq<seq<Voxel>>): (r: Result<seq<Voxel>, DeError>)
    ensures r.Err? <==> elements == []
    ensures r.Err? ==> r.error == InvalidLength(0)
    ensures r.Ok? ==> r.value == elements[0]
  {
    if |elements| == 0 then Err(InvalidLength(0)) else Ok(elements[0])
  }

  /**
   * What `visit_map` yields on a list of entries: the first non-"data" key among
   * the first two is reported as unknown, a second "data" key as a duplicate, no
   * key at all as a missing field, and a lone "data" entry gives its value.
   */
  function MapOutcome(entries: seq<(string, seq<Voxel>)>): Result<seq<Voxel>, DeError> {
    if |entries| == 0 then Err(MissingField(DATA_FIELD))
    else if entries[0].0 != DATA_FIELD then Err(UnknownField(entries[0].0))
    else if |entries| == 1 then Ok(entries[0].1)
    else if entries[1].0 != DATA_FIELD then Err(UnknownField(entries[1].0))
    else Err(DuplicateField(DATA_FIELD))
  }

  /** `visit_map`: the `while let` loop that accumulates an `Option` for the data. */
  method VisitMap(entries: seq<(string, seq<Voxel>)>) returns (r: Result<seq<Voxel>, DeError>)
    ensures r == MapOutcome(entries)
  {
    var data: Option<seq<Voxel>> := None;
    var i := 0;
    while i < |entries|
      invariant 0 <= i <= |entries| && i <= 1
      invariant i == 0 ==> data == None
      invariant i == 1 ==> entries[0].0 == DATA_FIELD && data == Some(entries[0].1)
    {
      var (key, value) := entries[i];
      if key != DATA_FIELD {
        return Err(UnknownField(key));
      }
      if data.Some? {
        return Err(DuplicateField(DATA_FIELD));
      }
      data := Some(value);
      i := i + 1;
    }
    if data.None? {
      return Err(MissingField(DATA_FIELD));
    }
    r := Ok(data.value);
  }

  /** `deserialize`: the decoded voxel array, whichever presentation the format uses. */
  function Deserialize(input: DeInput): Result<seq<Voxel>, DeError> {
    match input
    case SeqForm(elements) => VisitSeq(elements)
    case MapForm(entries) => MapOutcome(entries)
  }

  /**
   * The decoded buffer: the data with the constant chunk shape. Nothing checks that
   * the data has the shape's size.
   */
  method DeserializeBuffer(input: DeInput, chunkShape: Shape) returns (r: Result<VoxelBuffer, DeError>)
    ensures Deserialize(input).Err? ==> r == Err(Deserialize(input).error)
    ensures Deserialize(input).Ok? ==>
              r.Ok? && fresh(r.value) && fresh(r.value.data) && r.value.shape == chunkShape
              && r.value.data[..] == Deserialize(input).value
  {
    var d: Result<seq<Voxel>, DeError>;
    match input {
      case SeqForm(elements) => d := VisitSeq(elements);
      case MapForm(entries) => d := VisitMap(entries);
    }
    if d.Err? {
      return Err(d.error);
    }
    var b := new VoxelBuffer.FromData(chunkShape, d.value);
    r := Ok(b);
  }

  /** The map visitor accepts exactly a single "data" entry. */
  lemma MapAcceptsOnlySingleData(entries: seq<(string, seq<Voxel>)>)
    ensures MapOutcome(entries).Ok? <==> |entries| == 1 && entries[0].0 == DATA_FIELD
  {
  }

  /** A missing field is reported exactly for an empty map. */
  lemma MapMissingIffEmpty(entries: seq<(string, seq<Voxel>)>)
    ensures MapOutcome(entries) == Err(MissingField(DATA_FIELD)) <==> entries == []
  {
  }

  /** A duplicate is reported exactly when the first two keys are both "data". */
  lemma MapDuplicateIff(entries: seq<(string, seq<Voxel>)>)
    ensures MapOutcome(entries) == Err(DuplicateField(DATA_FIELD)) <==>
              |entries| >= 2 && entries[0].0 == DATA_FIELD && entries[1].0 == DATA_FIELD
  {
  }

  /** Serialising then deserialising gives back the data, in both presentations. */
  lemma RoundTrip(b: VoxelBuffer)
    ensures Deserialize(AsSeqForm(Serialize(b))) == Ok(b.data[..])
    ensures Deserialize(AsMapForm(Serialize(b))) == Ok(b.data[..])
  {
  }
}
