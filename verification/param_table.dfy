/**
  The parameter table: five `SimParams` records in one uniform buffer, one
  record per 256-byte slot, each selected by a dynamic offset into a single
  256-byte binding that starts at byte 0 of the buffer.
 */
module ParamTable {
  import opened Words
  import opened Results
  import opened SimParamsLayout

  /** Number of records in the table. */
  const TableSize: nat := 5

  /** Minimum alignment of a dynamic uniform-buffer offset; also the slot stride. */
  const Alignment: nat := 256

  /** Size in bytes of the uniform buffer holding the table. */
  const BufferSize: nat := TableSize * Alignment

  /** Size in bytes of the dynamically offset binding. */
  const BindingSize: nat := 256

  /** Metadata tag step: record `i` carries `64 * 5 * i`. */
  const TagStep: nat := 64 * 5

  datatype BindError = UnalignedOffset | OffsetOutOfBounds

  /** Record `i` of the table: the defaults with its own offset tag. */
  function Record(i: nat): (r: SimParams)
    requires i < TableSize
    ensures r.offset == 320 * i
    ensures r.(offset := 0) == Defaults
  {
    Defaults.(offset := TagStep * i)
  }

  /** Records are told apart by their tags alone. */
  lemma RecordsDistinct(i: nat, j: nat)
    requires i < TableSize && j < TableSize && i != j
    ensures Record(i) != Record(j)
    ensures Encode(Record(i)) != Encode(Record(j))
  {
    if Encode(Record(i)) == Encode(Record(j)) {
      EncodeInjective(Record(i), Record(j));
    }
  }

  /** Byte offset at which record `i` is written and from which it is bound. */
  function SlotOffset(i: nat): (r: nat)
    requires i < TableSize
    ensures r % Alignment == 0
    ensures r + BindingSize <= BufferSize
    ensures r + Size <= BufferSize
    ensures r / Alignment == i
  {
    Alignment * i
  }

  /** The 32-byte writes of two different records never overlap. */
  lemma SlotsDisjoint(i: nat, j: nat)
    requires i < TableSize && j < TableSize && i != j
    ensures SlotOffset(i) + Size <= SlotOffset(j) || SlotOffset(j) + Size <= SlotOffset(i)
  {
    if i < j {
      assert SlotOffset(j) - SlotOffset(i) == Alignment * (j - i) >= Alignment;
    } else {
      assert SlotOffset(i) - SlotOffset(j) == Alignment * (i - j) >= Alignment;
    }
  }

  /** A byte lies inside one of the first `k` record images. */
  predicate InRecord(b: nat, k: nat) {
    b / Alignment < k && b % Alignment < Size
  }

  /** A byte inside the image of record `i` lies in slot `i`, below the image size. */
  lemma InSlot(b: nat, i: nat)
    requires i < TableSize
    requires SlotOffset(i) <= b < SlotOffset(i) + Size
    ensures b / Alignment == i && b % Alignment == b - SlotOffset(i)
  {
  }

  /**
    The first `k` record images sit in their slots and every byte outside
    them is still zero.
   */
  predicate RecordsWritten(buf: seq<byte>, k: nat)
    requires k <= TableSize
  {
    && |buf| == BufferSize
    && (forall i :: 0 <= i < k ==> buf[SlotOffset(i) .. SlotOffset(i) + Size] == Encode(Record(i)))
    && (forall b :: 0 <= b < BufferSize && !InRecord(b, k) ==> buf[b] == 0)
  }

  /** Writing record `k` leaves the images of records `0 .. k-1` and the padding intact. */
  lemma WriteRecordStep(prev: seq<byte>, k: nat, r: seq<byte>)
    requires k < TableSize
    requires RecordsWritten(prev, k)
    requires r == WriteBytes(prev, SlotOffset(k), Encode(Record(k)))
    ensures RecordsWritten(r, k + 1)
  {
    forall i | 0 <= i < k
      ensures r[SlotOffset(i) .. SlotOffset(i) + Size] == Encode(Record(i))
    {
      SlotsDisjoint(i, k);
      assert r[SlotOffset(i) .. SlotOffset(i) + Size] == prev[SlotOffset(i) .. SlotOffset(i) + Size];
    }
    forall b | 0 <= b < BufferSize && !InRecord(b, k + 1)
      ensures r[b] == 0
    {
      if SlotOffset(k) <= b < SlotOffset(k) + Size {
        InSlot(b, k);
      }
    }
  }

  /**
    Construction of the table: a zeroed buffer of `BufferSize` bytes, then
    record `i` written at slot `i` for `i` from 0 to 4.
   */
  method WriteParamTable() returns (buf: seq<byte>)
    ensures IsParamTable(buf)
  {
    buf := Zeroes(BufferSize);
    for i := 0 to TableSize
      invariant RecordsWritten(buf, i)
    {
      var next := WriteBytes(buf, SlotOffset(i), Encode(Record(i)));
      WriteRecordStep(buf, i, next);
      buf := next;
    }
  }

  /** What a well-formed parameter buffer holds: every record image in its slot, zero padding. */
  predicate IsParamTable(buf: seq<byte>) {
    RecordsWritten(buf, TableSize)
  }

  /**
    Binding the uniform buffer at a dynamic offset and reading the record
    the shader sees. The offset must be aligned and the 256-byte binding must
    stay inside the buffer; otherwise the binding is rejected.
   */
  function SelectRecord(buf: seq<byte>, dynamicOffset: nat): (r: Result<SimParams, BindError>)
    ensures r.Ok? <==> dynamicOffset % Alignment == 0 && dynamicOffset + BindingSize <= |buf|
    ensures r == Err(UnalignedOffset) <==> dynamicOffset % Alignment != 0
  {
    if dynamicOffset % Alignment != 0 then Err(UnalignedOffset)
    else if dynamicOffset + BindingSize > |buf| then Err(OffsetOutOfBounds)
    else Ok(Decode(buf[dynamicOffset .. dynamicOffset + Size]))
  }

  /** Selecting slot `i` of a well-formed table yields exactly record `i`. */
  lemma SelectSlot(buf: seq<byte>, i: nat)
    requires IsParamTable(buf)
    requires i < TableSize
    ensures SelectRecord(buf, SlotOffset(i)) == Ok(Record(i))
  {
    RoundTrip(Record(i));
  }

  /** Every slot offset selects its own record. */
  predicate SelectsRecords(buf: seq<byte>) {
    forall i :: 0 <= i < TableSize ==> SelectRecord(buf, SlotOffset(i)) == Ok(Record(i))
  }

  /** A well-formed table selects record `i` at slot `i`, for every slot. */
  lemma ParamTableSelects(buf: seq<byte>)
    requires IsParamTable(buf)
    ensures SelectsRecords(buf)
  {
    forall i | 0 <= i < TableSize
      ensures SelectRecord(buf, SlotOffset(i)) == Ok(Record(i))
    {
      SelectSlot(buf, i);
    }
  }

  /** In a well-formed table the accepted dynamic offsets are exactly the five slot offsets. */
  lemma SelectAcceptsOnlySlots(buf: seq<byte>, dynamicOffset: nat)
    requires IsParamTable(buf)
    ensures SelectRecord(buf, dynamicOffset).Ok? <==> exists i :: 0 <= i < TableSize && dynamicOffset == SlotOffset(i)
  {
    if SelectRecord(buf, dynamicOffset).Ok? {
      var i := dynamicOffset / Alignment;
      assert dynamicOffset == SlotOffset(i);
    }
  }

  /** The binding holds a whole record, as the layout's minimum binding size demands. */
  lemma BindingHoldsRecord()
    ensures Size <= BindingSize
  {
  }
}
