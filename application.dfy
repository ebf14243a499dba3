/**
 * The polling loop of TelemetryApp/ApplicationManager.cs. Each tick reads the
 * scoring record and then the telemetry record with partial reads, disconnects
 * and returns when either read raises, and otherwise, when both vehicle counts
 * are non-zero and the session is under green flag, maps telemetry ids to
 * array positions, scans the scoring vehicles for the player and sends one
 * message built from the player's telemetry entry.
 *
 * The locals of Run that persist across iterations (telemetry, scoring,
 * playerScoring, playerTelemetry) are fields of ApplicationManager, so the
 * player selection carries over from one tick to the next as in the source.
 */
module Application {
  import opened Wrappers
  import opened SharedMemory
  import opened Rf2Data
  import opened TelemetryMessage

  // ---------------------------------------------------------------------------
  // MapmIdToPositionInArray
  // ---------------------------------------------------------------------------

  /** The id -> index dictionary of `vehicles`, filled front to back and keeping the first index of each id. */
  function IdMap(vehicles: seq<Rf2VehicleTelemetry>): (ids: map<int, int>)
    ensures forall id :: id in ids ==> 0 <= ids[id] < |vehicles| && vehicles[ids[id]].id == id
    decreases |vehicles|
  {
    if vehicles == [] then map[]
    else
      var ids := IdMap(vehicles[..|vehicles| - 1]);
      var last := vehicles[|vehicles| - 1];
      if last.id in ids then ids else ids[last.id := |vehicles| - 1]
  }

  /** An index of `vehicles` is in the map exactly when it is the first index carrying its id. */
  lemma {:induction false} IdMapFirstOccurrence(vehicles: seq<Rf2VehicleTelemetry>, id: int, i: int)
    ensures (id in IdMap(vehicles) && IdMap(vehicles)[id] == i) <==>
      (0 <= i < |vehicles| && vehicles[i].id == id && forall j :: 0 <= j < i ==> vehicles[j].id != id)
  {
    if vehicles != [] {
      var n := |vehicles| - 1;
      var front := vehicles[..n];
      IdMapFirstOccurrence(front, id, i);
      assert forall j :: 0 <= j < n ==> front[j] == vehicles[j];
      if id !in IdMap(front) && vehicles[n].id == id {
        forall j | 0 <= j < n
          ensures vehicles[j].id != id
        {
          if vehicles[j].id == id {
            IdMapKeys(front, id, j);
          }
        }
      }
    }
  }

  /** Every id carried at some index is a key of the map. */
  lemma {:induction false} IdMapKeys(vehicles: seq<Rf2VehicleTelemetry>, id: int, i: int)
    requires 0 <= i < |vehicles| && vehicles[i].id == id
    ensures id in IdMap(vehicles)
  {
    var n := |vehicles| - 1;
    if i < n {
      IdMapKeys(vehicles[..n], id, i);
    }
  }

  /** The telemetry entries the mapping loop visits: indices 0 .. mNumVehicles - 1. */
  function CountedVehicles(telemetry: Rf2Telemetry): (vs: seq<Rf2VehicleTelemetry>)
    requires telemetry.numVehicles <= |telemetry.vehicles|
    ensures |vs| == if telemetry.numVehicles <= 0 then 0 else telemetry.numVehicles
    ensures vs <= telemetry.vehicles
  {
    if telemetry.numVehicles <= 0 then [] else telemetry.vehicles[..telemetry.numVehicles]
  }

  /**
   * MapmIdToPositionInArray: for i from 0 while i < mNumVehicles, adds
   * mVehicles[i].mID -> i unless the id is already a key. When mNumVehicles
   * exceeds the array, the indexing raises once i reaches the array's end.
   */
  method MapIdToPositionInArray(telemetry: Rf2Telemetry) returns (idsToTelIndices: map<int, int>, outOfRange: bool)
    ensures outOfRange <==> telemetry.numVehicles > |telemetry.vehicles|
    ensures !outOfRange ==> idsToTelIndices == IdMap(CountedVehicles(telemetry))
    ensures !outOfRange ==>
      (forall id, i :: 0 <= i < |telemetry.vehicles| && i < telemetry.numVehicles
        && telemetry.vehicles[i].id == id && (forall j :: 0 <= j < i ==> telemetry.vehicles[j].id != id)
        ==> id in idsToTelIndices && idsToTelIndices[id] == i)
  {
    idsToTelIndices := map[];
    var i := 0;
    while i < telemetry.numVehicles
      invariant 0 <= i <= |telemetry.vehicles|
      invariant i == 0 || i <= telemetry.numVehicles
      invariant idsToTelIndices == IdMap(telemetry.vehicles[..i])
    {
      if i == |telemetry.vehicles| {
        return idsToTelIndices, true;
      }
      var id := telemetry.vehicles[i].id;
      assert telemetry.vehicles[..i + 1][..i] == telemetry.vehicles[..i];
      if id !in idsToTelIndices {
        idsToTelIndices := idsToTelIndices[id := i];
      }
      i := i + 1;
    }
    outOfRange := false;
    assert idsToTelIndices == IdMap(CountedVehicles(telemetry));
    forall id, k | 0 <= k < |telemetry.vehicles| && k < telemetry.numVehicles
      && telemetry.vehicles[k].id == id && (forall j :: 0 <= j < k ==> telemetry.vehicles[j].id != id)
      ensures id in idsToTelIndices && idsToTelIndices[id] == k
    {
      IdMapFirstOccurrence(CountedVehicles(telemetry), id, k);
    }
  }

  /** The example of ids [5, 5, 7]: 5 maps to 0 and 7 to 2. */
  lemma IdMapExample()
    ensures var vs := [Rf2VehicleTelemetry(5, []), Rf2VehicleTelemetry(5, []), Rf2VehicleTelemetry(7, [])];
      IdMap(vs) == map[5 := 0, 7 := 2]
  {
  }

  // ---------------------------------------------------------------------------
  // The player scan
  // ---------------------------------------------------------------------------

  /** The control modes the scan looks at; any other mode is skipped with `continue`. */
  predicate Eligible(control: Rf2Control)
  {
    control == AI || control == Player || control == Remote
  }

  /** An entry the scan would assign to playerScoring. */
  predicate Flagged(v: Rf2VehicleScoring)
  {
    Eligible(v.control) && v.isPlayer == 1
  }

  /**
   * The foreach over scoring.mVehicles, starting from the selection carried in:
   * an eligible entry with mIsPlayer == 1 replaces the selection, and after each
   * eligible entry the scan stops if the (possibly carried) selection has
   * mIsPlayer == 1.
   */
  function Scan(vehicles: seq<Rf2VehicleScoring>, selected: Rf2VehicleScoring): Rf2VehicleScoring
    decreases |vehicles|
  {
    if vehicles == [] then selected
    else if !Eligible(vehicles[0].control) then Scan(vehicles[1..], selected)
    else
      var next := if vehicles[0].isPlayer == 1 then vehicles[0] else selected;
      if next.isPlayer == 1 then next else Scan(vehicles[1..], next)
  }

  /** The first entry the scan looks at, if any. */
  function FirstEligible(vehicles: seq<Rf2VehicleScoring>): (v: Option<Rf2VehicleScoring>)
    ensures v.Some? ==> Eligible(v.value.control)
    ensures v.Some? ==>
      exists i :: 0 <= i < |vehicles| && vehicles[i] == v.value && forall j :: 0 <= j < i ==> !Eligible(vehicles[j].control)
    ensures v.None? ==> forall i :: 0 <= i < |vehicles| ==> !Eligible(vehicles[i].control)
  {
    if vehicles == [] then None
    else if Eligible(vehicles[0].control) then Some(vehicles[0])
    else FirstEligible(vehicles[1..])
  }

  /** The first eligible entry with mIsPlayer == 1, if any. */
  function FirstFlagged(vehicles: seq<Rf2VehicleScoring>): (v: Option<Rf2VehicleScoring>)
    ensures v.Some? ==> Flagged(v.value)
    ensures v.Some? ==>
      exists i :: 0 <= i < |vehicles| && vehicles[i] == v.value && forall j :: 0 <= j < i ==> !Flagged(vehicles[j])
    ensures v.None? ==> forall i :: 0 <= i < |vehicles| ==> !Flagged(vehicles[i])
  {
    if vehicles == [] then None
    else if Flagged(vehicles[0]) then Some(vehicles[0])
    else FirstFlagged(vehicles[1..])
  }

  /** The scan either keeps the selection it was given or picks an eligible entry with mIsPlayer == 1. */
  lemma {:induction false} ScanKeepsOrPicksFlagged(vehicles: seq<Rf2VehicleScoring>, selected: Rf2VehicleScoring)
    ensures Scan(vehicles, selected) == selected
      || (Scan(vehicles, selected) in vehicles && Flagged(Scan(vehicles, selected)))
  {
    if vehicles != [] {
      var next := if Eligible(vehicles[0].control) && vehicles[0].isPlayer == 1 then vehicles[0] else selected;
      ScanKeepsOrPicksFlagged(vehicles[1..], next);
    }
  }

  /**
   * With no player carried in (mIsPlayer != 1, as on the first tick), the scan
   * picks the first eligible entry with mIsPlayer == 1, and keeps the carried
   * record when there is none.
   */
  lemma {:induction false} ScanWithoutCarriedPlayer(vehicles: seq<Rf2VehicleScoring>, selected: Rf2VehicleScoring)
    requires selected.isPlayer != 1
    ensures Scan(vehicles, selected) == match FirstFlagged(vehicles)
      case Some(v) => v
      case None => selected
  {
    if vehicles != [] && !Flagged(vehicles[0]) {
      ScanWithoutCarriedPlayer(vehicles[1..], selected);
    }
  }

  /**
   * With a player carried in from an earlier tick, the scan stops at the first
   * eligible entry: it takes that entry if it has mIsPlayer == 1 and keeps the
   * carried record otherwise, whatever the later entries hold.
   */
  lemma {:induction false} ScanWithCarriedPlayer(vehicles: seq<Rf2VehicleScoring>, selected: Rf2VehicleScoring)
    requires selected.isPlayer == 1
    ensures Scan(vehicles, selected) == match FirstEligible(vehicles)
      case None => selected
      case Some(v) => if v.isPlayer == 1 then v else selected
  {
    if vehicles != [] && !Eligible(vehicles[0].control) {
      ScanWithCarriedPlayer(vehicles[1..], selected);
    }
  }

  /** Entries (1, Player, not player) and (2, Remote, player) on a first tick: vehicle 2 is selected. */
  lemma ScanExample()
    ensures Scan([Rf2VehicleScoring(1, Player, 0), Rf2VehicleScoring(2, Remote, 1)], DefaultVehicleScoring).id == 2
  {
  }

  /**
   * A carried player whose entry has moved behind an eligible non-player entry
   * is not refreshed: the scan stops at that first entry and keeps the old record.
   */
  lemma StaleSelectionExample(previous: Rf2VehicleScoring)
    requires previous.isPlayer == 1
    ensures Scan([Rf2VehicleScoring(2, AI, 0), Rf2VehicleScoring(1, Player, 1)], previous) == previous
  {
  }

  // ---------------------------------------------------------------------------
  // One tick's correlation
  // ---------------------------------------------------------------------------

  /** The emission gate: both vehicle counts non-zero and the session under green flag. */
  predicate GateOpen(scoring: Rf2Scoring, telemetry: Rf2Telemetry)
  {
    telemetry.numVehicles != 0 && scoring.scoringInfo.numVehicles != 0 && scoring.scoringInfo.gamePhase == GreenFlag
  }

  /** What a tick does after both reads: nothing, raise in the mapping loop, or scan and maybe send. */
  datatype Correlation =
    | GateClosed
    | MapIndexOutOfRange
    | Scanned(player: Rf2VehicleScoring, found: Option<Rf2VehicleTelemetry>)

  /** The correlation step of a tick, given the records and the selection carried in. */
  function Correlate(scoring: Rf2Scoring, telemetry: Rf2Telemetry, carried: Rf2VehicleScoring): Correlation
  {
    if !GateOpen(scoring, telemetry) then GateClosed
    else if telemetry.numVehicles > |telemetry.vehicles| then MapIndexOutOfRange
    else
      var ids := IdMap(CountedVehicles(telemetry));
      var player := Scan(scoring.vehicles, carried);
      Scanned(player, if player.id in ids then Some(telemetry.vehicles[ids[player.id]]) else None)
  }

  /** The messages a correlation sends: at most one. */
  function Sent(c: Correlation): (out: seq<Telemetry>)
    ensures |out| <= 1
  {
    if c.Scanned? && c.found.Some? then [TelemetryOf(c.found.value)] else []
  }

  /**
   * A tick sends a message exactly when the gate is open, the counted vehicles
   * fit the array, and the scanned selection's id occurs among the counted
   * telemetry entries; the message is built from the first such entry, whose id
   * is the selection's.
   */
  lemma CorrelateSendsIffMapped(scoring: Rf2Scoring, telemetry: Rf2Telemetry, carried: Rf2VehicleScoring)
    ensures var c := Correlate(scoring, telemetry, carried);
      (c.Scanned? && c.found.Some?) <==>
        (GateOpen(scoring, telemetry) && telemetry.numVehicles <= |telemetry.vehicles|
         && exists i :: 0 <= i < telemetry.numVehicles && telemetry.vehicles[i].id == Scan(scoring.vehicles, carried).id)
    ensures var c := Correlate(scoring, telemetry, carried);
      c.Scanned? && c.found.Some? ==>
        exists i :: 0 <= i < telemetry.numVehicles && c.found.value == telemetry.vehicles[i]
          && c.found.value.id == c.player.id
          && forall j :: 0 <= j < i ==> telemetry.vehicles[j].id != c.player.id
  {
    var c := Correlate(scoring, telemetry, carried);
    if GateOpen(scoring, telemetry) && telemetry.numVehicles <= |telemetry.vehicles| {
      var vs := CountedVehicles(telemetry);
      var id := Scan(scoring.vehicles, carried).id;
      if exists i :: 0 <= i < telemetry.numVehicles && telemetry.vehicles[i].id == id {
        var i :| 0 <= i < telemetry.numVehicles && telemetry.vehicles[i].id == id;
        IdMapKeys(vs, id, i);
      }
      if id in IdMap(vs) {
        var i := IdMap(vs)[id];
        IdMapFirstOccurrence(vs, id, i);
        assert c.found.value == telemetry.vehicles[i];
      }
    }
  }

  /** Outside green flag, or with an empty vehicle array, a tick sends nothing and keeps the selection. */
  lemma GateClosedSendsNothing(scoring: Rf2Scoring, telemetry: Rf2Telemetry, carried: Rf2VehicleScoring)
    requires !GateOpen(scoring, telemetry)
    ensures Correlate(scoring, telemetry, carried) == GateClosed && Sent(Correlate(scoring, telemetry, carried)) == []
  {
  }

  /**
   * On a first tick where no scoring entry has mIsPlayer == 1, the default
   * selection (mID 0) is looked up all the same, and a telemetry entry with
   * id 0 is sent.
   */
  lemma DefaultSelectionIsLookedUp()
    ensures var scoring := Rf2Scoring(Rf2ScoringInfo(1, GreenFlag), [Rf2VehicleScoring(7, AI, 0)]);
      var telemetry := Rf2Telemetry(1, [Rf2VehicleTelemetry(0, [])]);
      Sent(Correlate(scoring, telemetry, DefaultVehicleScoring)) == [TelemetryOf(Rf2VehicleTelemetry(0, []))]
  {
  }

  // ---------------------------------------------------------------------------
  // The loop
  // ---------------------------------------------------------------------------

  /** How an iteration of Run ends: the loop goes on, Run returns, or an exception escapes Run. */
  datatype TickOutcome = Continued | Returned | Crashed

  /** A reader after Disconnect: no handle and no retained buffer. */
  const Disconnected := ReaderState(None, None, None, None)

  /** A value snapshot of everything an iteration reads and changes: both readers and Run's locals. */
  datatype LoopState = LoopState(
    scoringReader: ReaderState,
    telemetryReader: ReaderState,
    scoring: Rf2Scoring,
    telemetry: Rf2Telemetry,
    playerScoring: Rf2VehicleScoring,
    playerTelemetry: Rf2VehicleTelemetry,
    sent: seq<Telemetry>)

  /** The state after one iteration and how the iteration ended. */
  datatype Step = Step(next: LoopState, outcome: TickOutcome)

  /**
   * One iteration of Run's loop as a function of the loop state and the two
   * memories: the scoring read, the telemetry read only if the scoring read
   * did not raise, disconnect-and-return on either exception, and otherwise
   * the correlation from the carried selection.
   */
  function TickStep(scoringLayout: Layout<Rf2Scoring>, telemetryLayout: Layout<Rf2Telemetry>,
                    s: LoopState, scoringMemory: Memory, telemetryMemory: Memory): Step
  {
    var scoringRead := PartialRead(scoringLayout, s.scoringReader, scoringMemory);
    if scoringRead.result.Faulted? then
      Step(s.(scoringReader := Disconnected, telemetryReader := Disconnected), Returned)
    else
      var scoring := Assign(scoringRead.result, s.scoring);
      var telemetryRead := PartialRead(telemetryLayout, s.telemetryReader, telemetryMemory);
      if telemetryRead.result.Faulted? then
        Step(s.(scoringReader := Disconnected, telemetryReader := Disconnected, scoring := scoring), Returned)
      else
        var telemetry := Assign(telemetryRead.result, s.telemetry);
        var c := Correlate(scoring, telemetry, s.playerScoring);
        Step(LoopState(
               s.scoringReader.(retained := scoringRead.retained),
               s.telemetryReader.(retained := telemetryRead.retained),
               scoring, telemetry,
               if c.Scanned? then c.player else s.playerScoring,
               if c.Scanned? && c.found.Some? then c.found.value else s.playerTelemetry,
               s.sent + Sent(c)),
             if c.MapIndexOutOfRange? then Crashed else Continued)
  }

  /**
   * How an iteration ends: it returns exactly when one of the reads raises,
   * after disconnecting both readers and with the selection and the messages
   * untouched; it crashes exactly when the reads succeed and the vehicle count
   * overruns the telemetry array; otherwise the readers keep their handles and
   * at most one message is added.
   */
  lemma TickOutcomes(scoringLayout: Layout<Rf2Scoring>, telemetryLayout: Layout<Rf2Telemetry>,
                     s: LoopState, scoringMemory: Memory, telemetryMemory: Memory)
    ensures var step := TickStep(scoringLayout, telemetryLayout, s, scoringMemory, telemetryMemory);
      var scoringRead := PartialRead(scoringLayout, s.scoringReader, scoringMemory);
      var telemetryRead := PartialRead(telemetryLayout, s.telemetryReader, telemetryMemory);
      && (step.outcome == Returned <==> scoringRead.result.Faulted? || telemetryRead.result.Faulted?)
      && (step.outcome == Returned ==>
            && step.next.scoringReader == Disconnected && step.next.telemetryReader == Disconnected
            && step.next.telemetry == s.telemetry && step.next.playerScoring == s.playerScoring
            && step.next.playerTelemetry == s.playerTelemetry && step.next.sent == s.sent)
      && (step.outcome == Crashed <==>
            && !scoringRead.result.Faulted? && !telemetryRead.result.Faulted?
            && Correlate(step.next.scoring, step.next.telemetry, s.playerScoring).MapIndexOutOfRange?)
      && (step.outcome != Returned ==>
            && step.next.scoringReader == s.scoringReader.(retained := scoringRead.retained)
            && step.next.telemetryReader == s.telemetryReader.(retained := telemetryRead.retained)
            && step.next.sent == s.sent + Sent(Correlate(step.next.scoring, step.next.telemetry, s.playerScoring)))
  {
  }

  /** Run's records as the loop first sees them: new, default-valued structs. */
  function Started(s: LoopState): (start: LoopState)
    ensures start.scoringReader == s.scoringReader && start.telemetryReader == s.telemetryReader
    ensures start.sent == s.sent
    ensures start.playerScoring.id == 0 && start.playerScoring.isPlayer == 0
  {
    s.(scoring := DefaultScoring, telemetry := DefaultTelemetry,
       playerScoring := DefaultVehicleScoring, playerTelemetry := DefaultVehicleTelemetry)
  }

  /** Where Run's loop ends: the last state, how many iterations ran and how the last one ended. */
  datatype RunEnd = RunEnd(last: LoopState, executed: nat, outcome: TickOutcome)

  /** Run's loop over a finite series of (scoring, telemetry) memories, stopping after the first iteration that does not continue. */
  function RunFrom(scoringLayout: Layout<Rf2Scoring>, telemetryLayout: Layout<Rf2Telemetry>,
                   s: LoopState, ticks: seq<(Memory, Memory)>): RunEnd
    decreases |ticks|
  {
    if ticks == [] then RunEnd(s, 0, Continued)
    else
      var step := TickStep(scoringLayout, telemetryLayout, s, ticks[0].0, ticks[0].1);
      if step.outcome != Continued then RunEnd(step.next, 1, step.outcome)
      else
        var rest := RunFrom(scoringLayout, telemetryLayout, step.next, ticks[1..]);
        RunEnd(rest.last, rest.executed + 1, rest.outcome)
  }

  /**
   * The loop stops only through an iteration that returns or crashes: it runs
   * every tick while they continue, and when it stops early, every tick before
   * the last continued and the last one is an ordinary iteration from the state
   * the earlier ones left.
   */
  lemma {:induction false} RunStopsOnlyAtFailure(scoringLayout: Layout<Rf2Scoring>, telemetryLayout: Layout<Rf2Telemetry>,
                                                 s: LoopState, ticks: seq<(Memory, Memory)>)
    ensures var r := RunFrom(scoringLayout, telemetryLayout, s, ticks);
      && r.executed <= |ticks|
      && (r.outcome == Continued ==> r.executed == |ticks|)
      && (r.outcome != Continued ==>
            && 0 < r.executed
            && var before := RunFrom(scoringLayout, telemetryLayout, s, ticks[..r.executed - 1]);
            && before.executed == r.executed - 1 && before.outcome == Continued
            && TickStep(scoringLayout, telemetryLayout, before.last, ticks[r.executed - 1].0, ticks[r.executed - 1].1)
               == Step(r.last, r.outcome))
    decreases |ticks|
  {
    if ticks != [] {
      var step := TickStep(scoringLayout, telemetryLayout, s, ticks[0].0, ticks[0].1);
      if step.outcome == Continued {
        RunStopsOnlyAtFailure(scoringLayout, telemetryLayout, step.next, ticks[1..]);
        var r := RunFrom(scoringLayout, telemetryLayout, s, ticks);
        if r.outcome != Continued {
          assert ticks[..r.executed - 1][1..] == ticks[1..][..r.executed - 2];
          assert ticks[..r.executed - 1] != [];
        }
      } else {
        assert ticks[..0] == [];
      }
    }
  }

  /** A loop that returns leaves both readers disconnected. */
  lemma {:induction false} RunReturnedDisconnects(scoringLayout: Layout<Rf2Scoring>, telemetryLayout: Layout<Rf2Telemetry>,
                                                  s: LoopState, ticks: seq<(Memory, Memory)>)
    ensures var r := RunFrom(scoringLayout, telemetryLayout, s, ticks);
      r.outcome == Returned ==> r.last.scoringReader == Disconnected && r.last.telemetryReader == Disconnected
    decreases |ticks|
  {
    if ticks != [] {
      var step := TickStep(scoringLayout, telemetryLayout, s, ticks[0].0, ticks[0].1);
      if step.outcome == Continued {
        RunReturnedDisconnects(scoringLayout, telemetryLayout, step.next, ticks[1..]);
      } else {
        TickOutcomes(scoringLayout, telemetryLayout, s, ticks[0].0, ticks[0].1);
      }
    }
  }

  /** The loop only appends messages, at most one per iteration it runs. */
  lemma {:induction false} RunSendsAtMostOnePerTick(scoringLayout: Layout<Rf2Scoring>, telemetryLayout: Layout<Rf2Telemetry>,
                                                    s: LoopState, ticks: seq<(Memory, Memory)>)
    ensures var r := RunFrom(scoringLayout, telemetryLayout, s, ticks);
      |s.sent| <= |r.last.sent| <= |s.sent| + r.executed && r.last.sent[..|s.sent|] == s.sent
    decreases |ticks|
  {
    if ticks != [] {
      var step := TickStep(scoringLayout, telemetryLayout, s, ticks[0].0, ticks[0].1);
      TickOutcomes(scoringLayout, telemetryLayout, s, ticks[0].0, ticks[0].1);
      if step.outcome == Continued {
        RunSendsAtMostOnePerTick(scoringLayout, telemetryLayout, step.next, ticks[1..]);
        var r := RunFrom(scoringLayout, telemetryLayout, s, ticks);
        assert r.last.sent[..|step.next.sent|][..|s.sent|] == r.last.sent[..|s.sent|];
      }
    }
  }

  /** ApplicationManager with the locals of Run that persist across iterations. */
  class ApplicationManager {
    const scoringBuffer: MappedDoubleBuffer<Rf2Scoring>
    const telemetryBuffer: MappedDoubleBuffer<Rf2Telemetry>

    var telemetry: Rf2Telemetry
    var scoring: Rf2Scoring
    var playerScoring: Rf2VehicleScoring
    var playerTelemetry: Rf2VehicleTelemetry

    /** The messages handed to the hub connection, oldest first. */
    var sent: seq<Telemetry>

    ghost predicate Valid()
      reads this, scoringBuffer, telemetryBuffer
    {
      scoringBuffer.Valid() && telemetryBuffer.Valid()
      && (scoringBuffer.fullSizeBuffer != null ==> scoringBuffer.fullSizeBuffer != telemetryBuffer.fullSizeBuffer)
    }

    /** The loop state this object and its two readers hold. */
    ghost function Snapshot(): LoopState
      reads this, scoringBuffer, telemetryBuffer, scoringBuffer.fullSizeBuffer, telemetryBuffer.fullSizeBuffer
    {
      LoopState(scoringBuffer.State(), telemetryBuffer.State(), scoring, telemetry, playerScoring, playerTelemetry, sent)
    }

    constructor (telemetryBuffer: MappedDoubleBuffer<Rf2Telemetry>, scoringBuffer: MappedDoubleBuffer<Rf2Scoring>)
      requires scoringBuffer.Valid() && telemetryBuffer.Valid()
      requires scoringBuffer.fullSizeBuffer != null ==> scoringBuffer.fullSizeBuffer != telemetryBuffer.fullSizeBuffer
      ensures Valid()
      ensures this.scoringBuffer == scoringBuffer && this.telemetryBuffer == telemetryBuffer && sent == []
      ensures telemetry == DefaultTelemetry && scoring == DefaultScoring
      ensures playerScoring == DefaultVehicleScoring && playerTelemetry == DefaultVehicleTelemetry
    {
      this.scoringBuffer := scoringBuffer;
      this.telemetryBuffer := telemetryBuffer;
      telemetry := DefaultTelemetry;
      scoring := DefaultScoring;
      playerScoring := DefaultVehicleScoring;
      playerTelemetry := DefaultVehicleTelemetry;
      sent := [];
    }

    /**
     * One iteration of Run's loop, after the delay: the two partial reads, the
     * disconnect-and-return on a read exception, the gate, the id map, the scan
     * and the lookup-and-send.
     */
    method Tick(scoringMemory: Memory, telemetryMemory: Memory) returns (outcome: TickOutcome)
      requires Valid()
      requires Connected(scoringBuffer.State()) && Connected(telemetryBuffer.State())
      modifies this, scoringBuffer, telemetryBuffer, scoringBuffer.fullSizeBuffer, telemetryBuffer.fullSizeBuffer
      ensures Valid()
      ensures Step(Snapshot(), outcome)
              == TickStep(scoringBuffer.layout, telemetryBuffer.layout, old(Snapshot()), scoringMemory, telemetryMemory)
      ensures var scoringStep := PartialRead(scoringBuffer.layout, old(scoringBuffer.State()), scoringMemory);
        var telemetryStep := PartialRead(telemetryBuffer.layout, old(telemetryBuffer.State()), telemetryMemory);
        if scoringStep.result.Faulted? then
          && scoringBuffer.log == old(scoringBuffer.log) + scoringStep.events + Disposals(old(scoringBuffer.State()))
          && telemetryBuffer.log == old(telemetryBuffer.log) + Disposals(old(telemetryBuffer.State()))
        else if telemetryStep.result.Faulted? then
          && scoringBuffer.log == old(scoringBuffer.log) + scoringStep.events + Disposals(old(scoringBuffer.State()))
          && telemetryBuffer.log == old(telemetryBuffer.log) + telemetryStep.events + Disposals(old(telemetryBuffer.State()))
        else
          && scoringBuffer.fullSizeBuffer == old(scoringBuffer.fullSizeBuffer)
          && telemetryBuffer.fullSizeBuffer == old(telemetryBuffer.fullSizeBuffer)
          && scoringBuffer.log == old(scoringBuffer.log) + scoringStep.events
          && telemetryBuffer.log == old(telemetryBuffer.log) + telemetryStep.events
    {
      var failed: Option<Fault>;
      scoring, failed := scoringBuffer.GetMappedDataPartial(scoring, scoringMemory);
      if failed.None? {
        telemetry, failed := telemetryBuffer.GetMappedDataPartial(telemetry, telemetryMemory);
      }
      if failed.Some? {
        // IConnectionManager.Disconnect: scoring buffer first, then telemetry.
        scoringBuffer.Disconnect();
        telemetryBuffer.Disconnect();
        return Returned;
      }

      outcome := CorrelateAndSend();
    }

    /**
     * The part of an iteration after the reads: the gate, MapmIdToPositionInArray,
     * the scan and the lookup-and-send.
     */
    method CorrelateAndSend() returns (outcome: TickOutcome)
      modifies this`playerScoring, this`playerTelemetry, this`sent
      ensures var c := Correlate(scoring, telemetry, old(playerScoring));
        && outcome == (if c.MapIndexOutOfRange? then Crashed else Continued)
        && playerScoring == (if c.Scanned? then c.player else old(playerScoring))
        && playerTelemetry == (if c.Scanned? && c.found.Some? then c.found.value else old(playerTelemetry))
        && sent == old(sent) + Sent(c)
    {
      if !(telemetry.numVehicles != 0 && scoring.scoringInfo.numVehicles != 0 && scoring.scoringInfo.gamePhase == GreenFlag) {
        return Continued;
      }

      var mappedIds, outOfRange := MapIdToPositionInArray(telemetry);
      if outOfRange {
        return Crashed;
      }

      ScanScoringVehicles();

      if playerScoring.id in mappedIds {
        playerTelemetry := telemetry.vehicles[mappedIds[playerScoring.id]];
      } else {
        return Continued;
      }
      sent := sent + [TelemetryOf(playerTelemetry)];
      outcome := Continued;
    }

    /** The foreach over scoring.mVehicles with its switch, `continue` and `break`, updating playerScoring in place. */
    method ScanScoringVehicles()
      modifies this`playerScoring
      ensures playerScoring == Scan(scoring.vehicles, old(playerScoring))
    {
      var vehicles := scoring.vehicles;
      var i := 0;
      while i < |vehicles|
        invariant 0 <= i <= |vehicles|
        invariant Scan(vehicles[i..], playerScoring) == Scan(vehicles, old(playerScoring))
      {
        var scoringVehicle := vehicles[i];
        assert vehicles[i..][1..] == vehicles[i + 1..];
        if !Eligible(scoringVehicle.control) {
          i := i + 1;
          continue;
        }
        if scoringVehicle.isPlayer == 1 {
          playerScoring := scoringVehicle;
        }
        if playerScoring.isPlayer == 1 {
          break;
        }
        i := i + 1;
      }
    }

    /**
     * Run's loop over the ticks the environment supplies, after Run has reset
     * its locals to default records. The loop goes on until a tick returns or
     * raises: nothing else stops it.
     */
    method Run(ticks: seq<(Memory, Memory)>) returns (executed: nat, outcome: TickOutcome)
      requires Valid()
      requires Connected(scoringBuffer.State()) && Connected(telemetryBuffer.State())
      modifies this, scoringBuffer, telemetryBuffer, scoringBuffer.fullSizeBuffer, telemetryBuffer.fullSizeBuffer
      ensures Valid()
      ensures RunFrom(scoringBuffer.layout, telemetryBuffer.layout, Started(old(Snapshot())), ticks)
              == RunEnd(Snapshot(), executed, outcome)
    {
      telemetry := DefaultTelemetry;
      scoring := DefaultScoring;
      playerScoring := DefaultVehicleScoring;
      playerTelemetry := DefaultVehicleTelemetry;
      ghost var start := Snapshot();
      assert start == Started(old(Snapshot()));
      executed, outcome := 0, Continued;
      while executed < |ticks|
        invariant Valid()
        invariant executed <= |ticks|
        invariant Connected(scoringBuffer.State()) && Connected(telemetryBuffer.State())
        invariant scoringBuffer.fullSizeBuffer == old(scoringBuffer.fullSizeBuffer)
        invariant telemetryBuffer.fullSizeBuffer == old(telemetryBuffer.fullSizeBuffer)
        invariant outcome == Continued
        invariant var rest := RunFrom(scoringBuffer.layout, telemetryBuffer.layout, Snapshot(), ticks[executed..]);
          RunFrom(scoringBuffer.layout, telemetryBuffer.layout, start, ticks)
          == RunEnd(rest.last, executed + rest.executed, rest.outcome)
      {
        assert ticks[executed..][1..] == ticks[executed + 1..];
        outcome := Tick(ticks[executed].0, ticks[executed].1);
        executed := executed + 1;
        if outcome != Continued {
          return;
        }
      }
    }
  }
}
