/**
 * The double-buffered shared-memory reader of TelemetryApp/MappedDoubleBuffer.cs.
 *
 * The simulation writes each record alternately into two named memory-mapped
 * files and guards both with one named mutex. A reader takes the mutex, looks
 * at buffer 1's header to learn which buffer is current, copies bytes out of
 * that buffer, releases the mutex and only then decodes.
 *
 * The mapped regions are byte sequences handed in with each read, the mutex
 * wait is an input outcome, and the binary layouts (record size, header sizes,
 * header and record decoders) are parameters: they belong to the producer.
 * Each read method is proved against a pure function (FullRead, PartialRead)
 * over a value snapshot of the reader; the lemmas are about those functions.
 */
module SharedMemory {
  import opened Wrappers

  newtype byte = x: int | 0 <= x < 0x100

  /** The decoded rF2MappedBufferHeaderWithSize: currency flag and updated-bytes hint. */
  datatype HeaderWithSize = HeaderWithSize(currentRead: int, bytesUpdatedHint: int)

  /** The fixed binary layout of one mapped record type. */
  datatype Layout<T> = Layout(
    recordSize: nat,                                // Marshal.SizeOf(MappedBufferT)
    headerSize: nat,                                // RF2_BUFFER_HEADER_SIZE_BYTES
    headerWithSizeSize: nat,                        // RF2_BUFFER_HEADER_WITH_SIZE_SIZE_BYTES
    currentRead: seq<byte> -> int,                  // mCurrentRead of an rF2MappedBufferHeader
    headerWithSize: seq<byte> -> HeaderWithSize,    // an rF2MappedBufferHeaderWithSize
    decode: seq<byte> -> T)                         // Marshal.PtrToStructure into MappedBufferT

  /** How the bounded WaitOne(5000) on the mutex ends. */
  datatype LockOutcome = Acquired | TimedOut | Threw

  /** What the two mapped files hold, and how the mutex wait ends, at the time of one read. */
  datatype Memory = Memory(region1: seq<byte>, region2: seq<byte>, lock: LockOutcome)

  /** The exceptions a connect or a read can raise. */
  datatype Fault =
    | ResourceNotFound(name: string)   // OpenExisting on a name the simulation has not created
    | NullReference                    // a handle used while it is null
    | LockFailed                       // WaitOne threw
    | NegativeCount                    // BinaryReader.ReadBytes with a negative count
    | NullBuffer                       // Array.Copy into a null fullSizeBuffer
    | CopyOverflow                     // Array.Copy of more bytes than fullSizeBuffer holds

  /** An open mutex or memory-mapped file, known by its name. */
  datatype Handle = Handle(name: string)

  /** The observable steps of the reader, in order. */
  datatype Event =
    | Acquire
    | ReadHeader(buffer: nat)
    | ReadPayload(buffer: nat, count: nat)
    | Release
    | Copy(count: nat)
    | Decode
    | Dispose(handle: Handle)

  /** BinaryReader.ReadBytes from offset 0 of a view: `count` bytes, fewer at the end of the view. */
  function ReadBytes(region: seq<byte>, count: nat): (bytes: seq<byte>)
    ensures |bytes| == if count <= |region| then count else |region|
    ensures bytes <= region
  {
    if count <= |region| then region[..count] else region
  }

  /** True when buffer 1's short header marks it as the buffer to read. */
  predicate Buffer1Current<T>(layout: Layout<T>, region1: seq<byte>)
  {
    layout.currentRead(ReadBytes(region1, layout.headerSize)) == 1
  }

  /** The header-with-size at the front of a region. */
  function HeaderOf<T>(layout: Layout<T>, region: seq<byte>): HeaderWithSize
  {
    layout.headerWithSize(ReadBytes(region, layout.headerWithSizeSize))
  }

  /** The region a partial read takes its bytes from: buffer 1 when its header says so, else buffer 2. */
  function ChosenRegion<T>(layout: Layout<T>, m: Memory): seq<byte>
  {
    if HeaderOf(layout, m.region1).currentRead == 1 then m.region1 else m.region2
  }

  /** The number of bytes a partial read asks for: the hint, or the whole record when the hint is 0. */
  function PartialCount<T>(layout: Layout<T>, header: HeaderWithSize): int
  {
    if header.bytesUpdatedHint != 0 then header.bytesUpdatedHint else layout.recordSize
  }

  /** What happens while the mutex is held: the events, and the bytes read or the fault raised. */
  datatype Section = Section(events: seq<Event>, read: Result<seq<byte>, Fault>)

  /** The critical section of GetMappedData, given which files are open. */
  function FullSection<T>(layout: Layout<T>, open1: bool, open2: bool, m: Memory): Section
  {
    if !open1 then Section([], Failure(NullReference))
    else if Buffer1Current(layout, m.region1) then
      Section([ReadHeader(1), ReadPayload(1, layout.recordSize)], Success(ReadBytes(m.region1, layout.recordSize)))
    else if !open2 then Section([ReadHeader(1)], Failure(NullReference))
    else
      Section([ReadHeader(1), ReadPayload(2, layout.recordSize)], Success(ReadBytes(m.region2, layout.recordSize)))
  }

  /** The critical section of GetMappedDataPartial, given which files are open. */
  function PartialSection<T>(layout: Layout<T>, open1: bool, open2: bool, m: Memory): Section
  {
    if !open1 then Section([], Failure(NullReference))
    else
      var header1 := HeaderOf(layout, m.region1);
      if header1.currentRead == 1 then
        var count := PartialCount(layout, header1);
        if count < 0 then Section([ReadHeader(1)], Failure(NegativeCount))
        else Section([ReadHeader(1), ReadPayload(1, count)], Success(ReadBytes(m.region1, count)))
      else if !open2 then Section([ReadHeader(1)], Failure(NullReference))
      else
        var header2 := HeaderOf(layout, m.region2);
        var count := PartialCount(layout, header2);
        if count < 0 then Section([ReadHeader(1), ReadHeader(2)], Failure(NegativeCount))
        else Section([ReadHeader(1), ReadHeader(2), ReadPayload(2, count)], Success(ReadBytes(m.region2, count)))
  }

  /** Array.Copy of `read` over the front of `retained`: the new image of fullSizeBuffer. */
  function Merge(retained: seq<byte>, read: seq<byte>): (image: seq<byte>)
    requires |read| <= |retained|
    ensures |image| == |retained|
    ensures image[..|read|] == read
    ensures image[|read|..] == retained[|read|..]
  {
    read + retained[|read|..]
  }

  /** A value snapshot of a reader: its three handles and the contents of fullSizeBuffer, if any. */
  datatype ReaderState = ReaderState(
    mutex: Option<Handle>,
    file1: Option<Handle>,
    file2: Option<Handle>,
    retained: Option<seq<byte>>)

  /** A reader after a successful Connect. */
  predicate Connected(st: ReaderState)
  {
    st.mutex.Some? && st.file1.Some? && st.file2.Some? && st.retained.Some?
  }

  /** How a read ends: with a decoded record, with nothing (lock timed out), or with an exception. */
  datatype ReadResult<T> = Decoded(value: T) | Skipped | Faulted(fault: Fault)

  /** One read: the events it produces, the new contents of fullSizeBuffer and its result. */
  datatype ReadStep<T> = ReadStep(events: seq<Event>, retained: Option<seq<byte>>, result: ReadResult<T>)

  /** The value the caller's `ref mappedData` holds after a read. */
  function Assign<T>(result: ReadResult<T>, current: T): T
  {
    if result.Decoded? then result.value else current
  }

  /** The exception a read raises, if any. */
  function FaultOf<T>(result: ReadResult<T>): Option<Fault>
  {
    if result.Faulted? then Some(result.fault) else None
  }

  /** GetMappedData as a function of the reader's state and the memory. */
  function FullRead<T>(layout: Layout<T>, st: ReaderState, m: Memory): ReadStep<T>
  {
    if st.mutex.None? then ReadStep([], st.retained, Faulted(NullReference))
    else match m.lock
      case TimedOut => ReadStep([], st.retained, Skipped)
      case Threw => ReadStep([], st.retained, Faulted(LockFailed))
      case Acquired =>
        var s := FullSection(layout, st.file1.Some?, st.file2.Some?, m);
        var held := [Acquire] + s.events + [Release];
        match s.read
        case Failure(f) => ReadStep(held, st.retained, Faulted(f))
        case Success(bytes) => ReadStep(held + [Decode], st.retained, Decoded(layout.decode(bytes)))
  }

  /** GetMappedDataPartial as a function of the reader's state and the memory. */
  function PartialRead<T>(layout: Layout<T>, st: ReaderState, m: Memory): ReadStep<T>
  {
    if st.mutex.None? then ReadStep([], st.retained, Faulted(NullReference))
    else match m.lock
      case TimedOut => ReadStep([], st.retained, Skipped)
      case Threw => ReadStep([], st.retained, Faulted(LockFailed))
      case Acquired =>
        var s := PartialSection(layout, st.file1.Some?, st.file2.Some?, m);
        var held := [Acquire] + s.events + [Release];
        match s.read
        case Failure(f) => ReadStep(held, st.retained, Faulted(f))
        case Success(bytes) =>
          match st.retained
          case None => ReadStep(held, None, Faulted(NullBuffer))
          case Some(image) =>
            if |bytes| > |image| then ReadStep(held, st.retained, Faulted(CopyOverflow))
            else
              var merged := Merge(image, bytes);
              ReadStep(held + [Copy(|bytes|), Decode], Some(merged), Decoded(layout.decode(merged)))
  }

  /** The Dispose event of a handle that is open. */
  function DisposeIfOpen(h: Option<Handle>): seq<Event>
  {
    if h.Some? then [Dispose(h.value)] else []
  }

  /** The handles Disconnect disposes, in its order: file 1, file 2, mutex. */
  function Disposals(st: ReaderState): seq<Event>
  {
    DisposeIfOpen(st.file1) + DisposeIfOpen(st.file2) + DisposeIfOpen(st.mutex)
  }

  /** A fresh byte array's contents. */
  function Zeros(n: nat): (s: seq<byte>)
    ensures |s| == n && forall i :: 0 <= i < n ==> s[i] == 0
  {
    seq(n, _ => 0)
  }

  /**
   * The lock discipline of one read: either the mutex is never taken, or the
   * events are Acquire, then only reads of the mapped files, then exactly one
   * Release, and after it only the copy into fullSizeBuffer and the decode.
   */
  predicate LockBracketed(events: seq<Event>)
  {
    events == [] ||
    exists k :: 0 < k < |events| && events[0] == Acquire && events[k] == Release
      && (forall i :: 0 < i < k ==> events[i].ReadHeader? || events[i].ReadPayload?)
      && (forall i :: k < i < |events| ==> events[i].Copy? || events[i].Decode?)
  }

  // ---------------------------------------------------------------------------
  // Properties of the two reads
  // ---------------------------------------------------------------------------

  /** Both reads take the mutex on every path that acquires it, and release it before copying or decoding. */
  lemma ReadsAreLockBracketed<T>(layout: Layout<T>, st: ReaderState, m: Memory)
    ensures LockBracketed(FullRead(layout, st, m).events)
    ensures LockBracketed(PartialRead(layout, st, m).events)
  {
    if st.mutex.Some? && m.lock == Acquired {
      var fs := FullSection(layout, st.file1.Some?, st.file2.Some?, m);
      var full := FullRead(layout, st, m).events;
      assert full[|fs.events| + 1] == Release;
      assert LockBracketed(full);
      var ps := PartialSection(layout, st.file1.Some?, st.file2.Some?, m);
      var partial := PartialRead(layout, st, m).events;
      assert partial[|ps.events| + 1] == Release;
      assert LockBracketed(partial);
    }
  }

  /** A read whose mutex wait times out reads nothing, changes nothing and raises nothing. */
  lemma TimeoutChangesNothing<T>(layout: Layout<T>, st: ReaderState, m: Memory)
    requires st.mutex.Some? && m.lock == TimedOut
    ensures FullRead(layout, st, m) == ReadStep([], st.retained, Skipped)
    ensures PartialRead(layout, st, m) == ReadStep([], st.retained, Skipped)
  {
  }

  /**
   * GetMappedData decodes the first recordSize bytes of buffer 1 exactly when
   * buffer 1's header says mCurrentRead == 1, and of buffer 2 otherwise; it never
   * changes fullSizeBuffer.
   */
  lemma FullReadDecodesCurrentBuffer<T>(layout: Layout<T>, st: ReaderState, m: Memory)
    requires Connected(st) && m.lock == Acquired
    requires |m.region1| >= layout.recordSize && |m.region2| >= layout.recordSize
    ensures FullRead(layout, st, m).retained == st.retained
    ensures Buffer1Current(layout, m.region1) ==>
      FullRead(layout, st, m).result == Decoded(layout.decode(m.region1[..layout.recordSize]))
    ensures !Buffer1Current(layout, m.region1) ==>
      FullRead(layout, st, m).result == Decoded(layout.decode(m.region2[..layout.recordSize]))
  {
  }

  /**
   * GetMappedDataPartial reads from offset 0 of the chosen buffer as many bytes
   * as that buffer's own hint says (the whole record for hint 0), copies them
   * over the front of fullSizeBuffer, keeps the rest and decodes the result.
   */
  lemma PartialReadMergesChosenPrefix<T>(layout: Layout<T>, st: ReaderState, m: Memory)
    requires Connected(st) && m.lock == Acquired
    ensures var count := PartialCount(layout, HeaderOf(layout, ChosenRegion(layout, m)));
      var step := PartialRead(layout, st, m);
      && (count < 0 ==> step == ReadStep(step.events, st.retained, Faulted(NegativeCount)))
      && (count >= 0 && |ReadBytes(ChosenRegion(layout, m), count)| > |st.retained.value| ==>
            step == ReadStep(step.events, st.retained, Faulted(CopyOverflow)))
      && (count >= 0 && |ReadBytes(ChosenRegion(layout, m), count)| <= |st.retained.value| ==>
            var bytes := ReadBytes(ChosenRegion(layout, m), count);
            && step.retained == Some(Merge(st.retained.value, bytes))
            && step.retained.value[..|bytes|] == bytes
            && step.retained.value[|bytes|..] == st.retained.value[|bytes|..]
            && step.result == Decoded(layout.decode(step.retained.value)))
  {
  }

  /**
   * With a hint of 0 (or of the whole record size) in the chosen buffer, a
   * partial read decodes the same record as a full read of the same memory,
   * provided both header views of buffer 1 agree on its currency flag.
   */
  lemma PartialWholeRecordMatchesFull<T>(layout: Layout<T>, st: ReaderState, m: Memory)
    requires Connected(st) && m.lock == Acquired
    requires |st.retained.value| == layout.recordSize
    requires |m.region1| >= layout.recordSize && |m.region2| >= layout.recordSize
    requires Buffer1Current(layout, m.region1) <==> HeaderOf(layout, m.region1).currentRead == 1
    requires HeaderOf(layout, ChosenRegion(layout, m)).bytesUpdatedHint in {0, layout.recordSize}
    ensures PartialRead(layout, st, m).result == FullRead(layout, st, m).result
    ensures PartialRead(layout, st, m).retained == Some(ChosenRegion(layout, m)[..layout.recordSize])
  {
    var bytes := ChosenRegion(layout, m)[..layout.recordSize];
    assert Merge(st.retained.value, bytes) == bytes;
  }

  // ---------------------------------------------------------------------------
  // The retained buffer across ticks
  // ---------------------------------------------------------------------------

  /** fullSizeBuffer after a series of partial reads that each copied `copies[i]`. */
  function MergeAll(retained: seq<byte>, copies: seq<seq<byte>>): (image: seq<byte>)
    requires forall i :: 0 <= i < |copies| ==> |copies[i]| <= |retained|
    ensures |image| == |retained|
    decreases |copies|
  {
    if copies == [] then retained
    else Merge(MergeAll(retained, copies[..|copies| - 1]), copies[|copies| - 1])
  }

  /** The last of `copies` that reached byte k, if any. */
  function LastWriter(copies: seq<seq<byte>>, k: nat): (w: Option<nat>)
    ensures w.Some? ==> w.value < |copies| && k < |copies[w.value]|
    ensures w.Some? ==> forall j :: w.value < j < |copies| ==> k >= |copies[j]|
    ensures w.None? ==> forall j :: 0 <= j < |copies| ==> k >= |copies[j]|
    decreases |copies|
  {
    if copies == [] then None
    else if k < |copies[|copies| - 1]| then Some(|copies| - 1)
    else LastWriter(copies[..|copies| - 1], k)
  }

  /**
   * After any series of partial reads, each byte of fullSizeBuffer is the byte
   * the latest read covering it delivered, or the byte it held before the series.
   */
  lemma {:induction false} RetainedByteIsLatestWrite(retained: seq<byte>, copies: seq<seq<byte>>, k: nat)
    requires forall i :: 0 <= i < |copies| ==> |copies[i]| <= |retained|
    requires k < |retained|
    ensures MergeAll(retained, copies)[k] ==
      match LastWriter(copies, k)
      case Some(j) => copies[j][k]
      case None => retained[k]
  {
    if copies != [] {
      var n := |copies| - 1;
      var before := MergeAll(retained, copies[..n]);
      if k < |copies[n]| {
        assert Merge(before, copies[n])[..|copies[n]|][k] == copies[n][k];
      } else {
        assert Merge(before, copies[n])[|copies[n]|..][k - |copies[n]|] == before[|copies[n]|..][k - |copies[n]|];
        RetainedByteIsLatestWrite(retained, copies[..n], k);
        assert copies[..n][..n] == copies[..n];
      }
    }
  }

  // ---------------------------------------------------------------------------
  // The reader object
  // ---------------------------------------------------------------------------

  /** MappedDoubleBuffer<MappedBufferT>: the handles, the retained buffer and the two reads. */
  class MappedDoubleBuffer<T> {
    const layout: Layout<T>
    const buffer1Name: string
    const buffer2Name: string
    const mutexName: string

    var fullSizeBuffer: array?<byte>
    var mutex: Option<Handle>
    var memoryMappedFile1: Option<Handle>
    var memoryMappedFile2: Option<Handle>

    /** Everything the reader has done, in order. */
    ghost var log: seq<Event>

    ghost predicate Valid()
      reads this
    {
      fullSizeBuffer != null ==> fullSizeBuffer.Length == layout.recordSize
    }

    ghost function State(): ReaderState
      reads this, fullSizeBuffer
    {
      ReaderState(mutex, memoryMappedFile1, memoryMappedFile2,
        if fullSizeBuffer == null then None else Some(fullSizeBuffer[..]))
    }

    constructor (layout: Layout<T>, buff1Name: string, buff2Name: string, mutexName: string)
      ensures Valid()
      ensures this.layout == layout && buffer1Name == buff1Name && buffer2Name == buff2Name
      ensures this.mutexName == mutexName
      ensures State() == ReaderState(None, None, None, None) && log == []
    {
      this.layout := layout;
      buffer1Name := buff1Name;
      buffer2Name := buff2Name;
      this.mutexName := mutexName;
      fullSizeBuffer := null;
      mutex := None;
      memoryMappedFile1 := None;
      memoryMappedFile2 := None;
      log := [];
    }

    /**
     * Opens the mutex, then file 1, then file 2, each by name among the objects
     * the simulation has created, and allocates a zeroed fullSizeBuffer. A missing
     * name raises at that step, leaving the handles opened before it in place.
     */
    method Connect(existing: set<string>) returns (fault: Option<Fault>)
      requires Valid()
      modifies this
      ensures Valid() && log == old(log)
      ensures mutexName !in existing ==>
        fault == Some(ResourceNotFound(mutexName)) && State() == old(State())
      ensures mutexName in existing && buffer1Name !in existing ==>
        fault == Some(ResourceNotFound(buffer1Name))
        && State() == old(State()).(mutex := Some(Handle(mutexName)))
      ensures mutexName in existing && buffer1Name in existing && buffer2Name !in existing ==>
        fault == Some(ResourceNotFound(buffer2Name))
        && State() == old(State()).(mutex := Some(Handle(mutexName)), file1 := Some(Handle(buffer1Name)))
      ensures mutexName in existing && buffer1Name in existing && buffer2Name in existing ==>
        fault == None && fresh(fullSizeBuffer)
        && State() == ReaderState(Some(Handle(mutexName)), Some(Handle(buffer1Name)), Some(Handle(buffer2Name)),
                                  Some(Zeros(layout.recordSize)))
    {
      if mutexName !in existing {
        fault := Some(ResourceNotFound(mutexName));
        return;
      }
      mutex := Some(Handle(mutexName));
      if buffer1Name !in existing {
        fault := Some(ResourceNotFound(buffer1Name));
        return;
      }
      memoryMappedFile1 := Some(Handle(buffer1Name));
      if buffer2Name !in existing {
        fault := Some(ResourceNotFound(buffer2Name));
        return;
      }
      memoryMappedFile2 := Some(Handle(buffer2Name));
      fullSizeBuffer := new byte[layout.recordSize](_ => 0);
      assert fullSizeBuffer[..] == Zeros(layout.recordSize);
      fault := None;
    }

    /** Disposes the open handles (file 1, file 2, mutex) and drops all handles and fullSizeBuffer. */
    method Disconnect()
      requires Valid()
      modifies this
      ensures Valid()
      ensures State() == ReaderState(None, None, None, None)
      ensures log == old(log) + Disposals(old(State()))
    {
      if memoryMappedFile1.Some? {
        log := log + [Dispose(memoryMappedFile1.value)];
      }
      if memoryMappedFile2.Some? {
        log := log + [Dispose(memoryMappedFile2.value)];
      }
      if mutex.Some? {
        log := log + [Dispose(mutex.value)];
      }
      memoryMappedFile1 := None;
      memoryMappedFile2 := None;
      fullSizeBuffer := null;
      mutex := None;
    }

    /** The try block of GetMappedData: reads buffer 1's header, then the whole record from the current buffer. */
    method ReadFullSection(m: Memory) returns (read: Result<seq<byte>, Fault>)
      modifies this`log
      ensures var s := FullSection(layout, memoryMappedFile1.Some?, memoryMappedFile2.Some?, m);
        log == old(log) + s.events && read == s.read
    {
      var sharedMemoryReadBuffer: seq<byte>;
      var buf1Current := false;
      if memoryMappedFile1.None? {
        return Failure(NullReference);
      }
      sharedMemoryReadBuffer := ReadBytes(m.region1, layout.headerSize);
      log := log + [ReadHeader(1)];
      if layout.currentRead(sharedMemoryReadBuffer) == 1 {
        sharedMemoryReadBuffer := ReadBytes(m.region1, layout.recordSize);
        log := log + [ReadPayload(1, layout.recordSize)];
        buf1Current := true;
      }
      if !buf1Current {
        if memoryMappedFile2.None? {
          return Failure(NullReference);
        }
        sharedMemoryReadBuffer := ReadBytes(m.region2, layout.recordSize);
        log := log + [ReadPayload(2, layout.recordSize)];
      }
      read := Success(sharedMemoryReadBuffer);
    }

    /** Reads the whole record from the current buffer under the mutex and decodes it. */
    method GetMappedData(mappedData: T, m: Memory) returns (data: T, fault: Option<Fault>)
      requires Valid()
      modifies this`log
      ensures Valid()
      ensures var step := FullRead(layout, State(), m);
        && log == old(log) + step.events
        && data == Assign(step.result, mappedData)
        && fault == FaultOf(step.result)
    {
      data, fault := mappedData, None;
      if mutex.None? {
        fault := Some(NullReference);
        return;
      }
      if m.lock == TimedOut {
        return;
      }
      if m.lock == Threw {
        fault := Some(LockFailed);
        return;
      }
      log := log + [Acquire];
      var read := ReadFullSection(m);
      log := log + [Release];
      if read.Failure? {
        fault := Some(read.error);
        return;
      }
      data := layout.decode(read.value);
      log := log + [Decode];
    }

    /**
     * The try block of GetMappedDataPartial: reads buffer 1's header; if it is
     * current, its hinted prefix, else buffer 2's header and its hinted prefix.
     */
    method ReadPartialSection(m: Memory) returns (read: Result<seq<byte>, Fault>)
      modifies this`log
      ensures var s := PartialSection(layout, memoryMappedFile1.Some?, memoryMappedFile2.Some?, m);
        log == old(log) + s.events && read == s.read
    {
      var sharedMemoryReadBuffer: seq<byte>;
      var buf1Current := false;
      if memoryMappedFile1.None? {
        return Failure(NullReference);
      }
      sharedMemoryReadBuffer := ReadBytes(m.region1, layout.headerWithSizeSize);
      log := log + [ReadHeader(1)];
      var header := layout.headerWithSize(sharedMemoryReadBuffer);
      if header.currentRead == 1 {
        var count := PartialCount(layout, header);
        if count < 0 {
          return Failure(NegativeCount);
        }
        sharedMemoryReadBuffer := ReadBytes(m.region1, count);
        log := log + [ReadPayload(1, count)];
        buf1Current := true;
      }
      if !buf1Current {
        if memoryMappedFile2.None? {
          return Failure(NullReference);
        }
        sharedMemoryReadBuffer := ReadBytes(m.region2, layout.headerWithSizeSize);
        log := log + [ReadHeader(2)];
        var header2 := layout.headerWithSize(sharedMemoryReadBuffer);
        var count := PartialCount(layout, header2);
        if count < 0 {
          return Failure(NegativeCount);
        }
        sharedMemoryReadBuffer := ReadBytes(m.region2, count);
        log := log + [ReadPayload(2, count)];
      }
      read := Success(sharedMemoryReadBuffer);
    }

    /**
     * Reads only the bytes the current buffer's hint says were updated, copies
     * them over the front of fullSizeBuffer after releasing the mutex, and
     * decodes the merged image.
     */
    method GetMappedDataPartial(mappedData: T, m: Memory) returns (data: T, fault: Option<Fault>)
      requires Valid()
      modifies this`log, fullSizeBuffer
      ensures Valid()
      ensures var step := PartialRead(layout, old(State()), m);
        && State() == old(State()).(retained := step.retained)
        && log == old(log) + step.events
        && data == Assign(step.result, mappedData)
        && fault == FaultOf(step.result)
    {
      data, fault := mappedData, None;
      if mutex.None? {
        fault := Some(NullReference);
        return;
      }
      if m.lock == TimedOut {
        return;
      }
      if m.lock == Threw {
        fault := Some(LockFailed);
        return;
      }
      log := log + [Acquire];
      var read := ReadPartialSection(m);
      log := log + [Release];
      if read.Failure? {
        fault := Some(read.error);
        return;
      }
      var sharedMemoryReadBuffer := read.value;
      if fullSizeBuffer == null {
        fault := Some(NullBuffer);
        return;
      }
      if |sharedMemoryReadBuffer| > fullSizeBuffer.Length {
        fault := Some(CopyOverflow);
        return;
      }
      ghost var before := fullSizeBuffer[..];
      forall i | 0 <= i < |sharedMemoryReadBuffer| {
        fullSizeBuffer[i] := sharedMemoryReadBuffer[i];
      }
      assert fullSizeBuffer[..] == Merge(before, sharedMemoryReadBuffer);
      log := log + [Copy(|sharedMemoryReadBuffer|)];
      data := layout.decode(fullSizeBuffer[..]);
      log := log + [Decode];
    }
  }
}
