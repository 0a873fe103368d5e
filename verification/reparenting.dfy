/**
 * Moving a part between locations on Aerospike (aerospike/reparenting/all.py).
 *
 * A location record has the bins `type`, `parts` (a map used as a set of
 * part ids) and `xfers` (a map from transfer id to a request entry). A part
 * record has the bin `location`. A transfer record has `status`, `xfer_out`,
 * `xfer_in`, `from_loc`, `to_loc`, `part` and `ts`. A transfer leaves its
 * source and enters its destination in two independent steps. Each step
 * is requested by an entry in that location's `xfers` map, and marked done
 * on the transfer record. The part record moves only once both steps are
 * done.
 *
 * A put writes only the bins it names, creating the record when it is
 * missing; a bin never written is `None`. Every write bumps the record's
 * generation.
 */
module Reparenting {
  import opened Wrappers
  import opened Tokens

  /** An entry of a location's `xfers` map. */
  datatype XferEntry = XferEntry(part: string, toLoc: Option<string>, fromLoc: Option<string>, xferIn: string, xferOut: string)

  datatype Location = Location(kind: Option<string>, parts: set<string>, xfers: Option<map<string, XferEntry>>, gen: nat)

  datatype Part = Part(location: Option<string>, gen: nat)

  datatype Xfer = Xfer(
    status: Option<string>, xferOut: Option<string>, xferIn: Option<string>,
    fromLoc: Option<string>, toLoc: Option<string>, part: Option<string>, ts: Option<int>, gen: nat)

  const NoLocation: Location := Location(None, {}, None, 0)
  const NoPart: Part := Part(None, 0)
  const NoXfer: Xfer := Xfer(None, None, None, None, None, None, None, 0)

  datatype Outcome = Done | NotFound | KeyError

  /** The two halves of a transfer: out of the source, into the destination. */
  datatype Side = Out | In

  function LocationOf(locations: map<string, Location>, name: string): Location
  {
    if name in locations then locations[name] else NoLocation
  }

  function PartOf(parts: map<string, Part>, name: string): Part
  {
    if name in parts then parts[name] else NoPart
  }

  function XferOf(xfers: map<string, Xfer>, id: string): Xfer
  {
    if id in xfers then xfers[id] else NoXfer
  }

  function EntriesOf(l: Location): map<string, XferEntry>
  {
    if l.xfers.Some? then l.xfers.value else map[]
  }

  /** A map_put into the location's `xfers` bin (creating the bin and the record if need be). */
  function PutEntry(l: Location, id: string, e: XferEntry): Location
  {
    l.(xfers := Some(EntriesOf(l)[id := e]), gen := l.gen + 1)
  }

  /** The entry `add_transfer_requests` files at the source. */
  function OutRequest(x: Xfer): XferEntry
    requires x.part.Some? && x.toLoc.Some?
  {
    XferEntry(x.part.value, x.toLoc, None, "", "Requested")
  }

  /** The entry `add_transfer_requests` files at the destination. */
  function InRequest(x: Xfer): XferEntry
    requires x.part.Some? && x.fromLoc.Some?
  {
    XferEntry(x.part.value, None, x.fromLoc, "Requested", "")
  }

  // ---------------------------------------------------------------------
  // Processing one side of the requests at a location
  // ---------------------------------------------------------------------

  predicate Requested(e: XferEntry, side: Side)
  {
    (if side == Out then e.xferOut else e.xferIn) == "Requested"
  }

  /** The entries requested on `side` among those the loop has passed (all but `todo`). */
  function RequestedAmong(entries: map<string, XferEntry>, side: Side, todo: set<string>): set<string>
  {
    set k | k in entries && k !in todo && Requested(entries[k], side)
  }

  /** Every entry requested on `side`. */
  function RequestedKeys(entries: map<string, XferEntry>, side: Side): set<string>
  {
    set k | k in entries && Requested(entries[k], side)
  }

  /** The parts the given entries move. */
  function PartsOf(entries: map<string, XferEntry>, ks: set<string>): set<string>
  {
    set k | k in ks && k in entries :: entries[k].part
  }

  /** Moving parts out removes them from the location's parts; moving them in adds them. */
  function Moved(parts: set<string>, side: Side, moved: set<string>): set<string>
  {
    if side == Out then parts - moved else parts + moved
  }

  /** The put of `xfer_out: Done` or `xfer_in: Done` on a transfer record. */
  function MarkDone(x: Xfer, side: Side): Xfer
  {
    if side == Out then x.(xferOut := Some("Done"), gen := x.gen + 1)
    else x.(xferIn := Some("Done"), gen := x.gen + 1)
  }

  /** The transfer records once those in `ks` have been marked done on `side`. */
  function MarkedDone(xfers: map<string, Xfer>, side: Side, ks: set<string>): map<string, Xfer>
  {
    map k | k in xfers.Keys + ks :: if k in ks then MarkDone(XferOf(xfers, k), side) else xfers[k]
  }

  /** The location once the entries in `done` have been processed on `side`, one operate each. */
  function ProcessedAmong(l: Location, side: Side, done: set<string>): Location
  {
    l.(xfers := Some(EntriesOf(l) - done), parts := Moved(l.parts, side, PartsOf(EntriesOf(l), done)),
       gen := l.gen + |done|)
  }

  /** The location once every entry requested on `side` has been processed. */
  function Processed(l: Location, side: Side): Location
  {
    ProcessedAmong(l, side, RequestedKeys(EntriesOf(l), side))
  }

  /**
   * After processing, no entry requested on that side is left; the others
   * stay as they were; the parts the requests named have left (out) or
   * arrived (in), and the location's other parts are untouched.
   */
  lemma ProcessedSpec(l: Location, side: Side)
    ensures var p := Processed(l, side);
      && p.kind == l.kind && p.xfers.Some?
      && (forall k :: k in p.xfers.value ==> !Requested(p.xfers.value[k], side))
      && (forall k :: k in EntriesOf(l) && !Requested(EntriesOf(l)[k], side) ==>
            k in p.xfers.value && p.xfers.value[k] == EntriesOf(l)[k])
      && (forall k :: k in EntriesOf(l) && Requested(EntriesOf(l)[k], side) ==>
            if side == Out then EntriesOf(l)[k].part !in p.parts else EntriesOf(l)[k].part in p.parts)
      && (forall q :: q in l.parts && q !in PartsOf(EntriesOf(l), RequestedKeys(EntriesOf(l), side)) ==> q in p.parts)
  {
    var entries := EntriesOf(l);
    var ks := RequestedKeys(entries, side);
    forall k | k in entries && Requested(entries[k], side)
      ensures entries[k].part in PartsOf(entries, ks)
    {
      assert k in ks;
    }
  }

  lemma RequestedAmongStep(entries: map<string, XferEntry>, side: Side, todo: set<string>, k: string)
    requires k in todo && k in entries
    ensures RequestedAmong(entries, side, todo - {k}) ==
      if Requested(entries[k], side) then RequestedAmong(entries, side, todo) + {k} else RequestedAmong(entries, side, todo)
  {
  }

  /** The location once the entries in `done` have been processed, field by field. */
  ghost predicate PartlyProcessed(now: Location, l: Location, side: Side, done: set<string>)
  {
    && now.kind == l.kind && now.xfers.Some?
    && EntriesOf(now) == EntriesOf(l) - done
    && now.parts == Moved(l.parts, side, PartsOf(EntriesOf(l), done))
    && now.gen == l.gen + |done|
  }

  /** The transfer records once those in `done` have been marked, key by key. */
  ghost predicate PartlyMarked(xfers: map<string, Xfer>, xfers0: map<string, Xfer>, side: Side, done: set<string>)
  {
    && (forall j :: j in xfers <==> j in xfers0 || j in done)
    && (forall j :: j in xfers ==> xfers[j] == if j in done then MarkDone(XferOf(xfers0, j), side) else xfers0[j])
  }

  lemma PartsOfStep(entries: map<string, XferEntry>, done: set<string>, k: string)
    requires k in entries
    ensures PartsOf(entries, done + {k}) == PartsOf(entries, done) + {entries[k].part}
  {
  }

  /** The operate on the location for one entry: remove the entry, move its part, bump the generation. */
  function MoveOne(now: Location, side: Side, k: string, part: string): Location
  {
    now.(xfers := Some(EntriesOf(now) - {k}),
         parts := if side == Out then now.parts - {part} else now.parts + {part},
         gen := now.gen + 1)
  }

  /** Processing one more requested entry. */
  lemma ProcessOne(now: Location, l: Location, side: Side, done: set<string>, k: string)
    requires PartlyProcessed(now, l, side, done)
    requires k in EntriesOf(l) && k !in done
    ensures PartlyProcessed(MoveOne(now, side, k, EntriesOf(l)[k].part), l, side, done + {k})
  {
    var entries := EntriesOf(l);
    PartsOfStep(entries, done, k);
    assert entries - (done + {k}) == (entries - done) - {k};
  }

  lemma ScanStart(l: Location, side: Side, xfers0: map<string, Xfer>)
    ensures PartlyProcessed(l.(xfers := Some(EntriesOf(l))), l, side, RequestedAmong(EntriesOf(l), side, EntriesOf(l).Keys))
    ensures PartlyMarked(xfers0, xfers0, side, RequestedAmong(EntriesOf(l), side, EntriesOf(l).Keys))
  {
    var entries := EntriesOf(l);
    assert RequestedAmong(entries, side, entries.Keys) == {};
    assert entries - {} == entries;
    assert PartsOf(entries, {}) == {};
    assert Moved(l.parts, side, {}) == l.parts;
  }

  /** Marking one more transfer done. */
  lemma MarkOne(xfers: map<string, Xfer>, xfers0: map<string, Xfer>, side: Side, done: set<string>, k: string)
    requires PartlyMarked(xfers, xfers0, side, done) && k !in done
    ensures PartlyMarked(xfers[k := MarkDone(XferOf(xfers, k), side)], xfers0, side, done + {k})
  {
    assert XferOf(xfers, k) == XferOf(xfers0, k);
  }

  lemma ProcessedAll(now: Location, l: Location, side: Side)
    requires PartlyProcessed(now, l, side, RequestedKeys(EntriesOf(l), side))
    ensures now == Processed(l, side)
  {
  }

  lemma MarkedAll(xfers: map<string, Xfer>, xfers0: map<string, Xfer>, side: Side, done: set<string>)
    requires PartlyMarked(xfers, xfers0, side, done)
    ensures xfers == MarkedDone(xfers0, side, done)
  {
  }

  /**
   * The loop of `process_xfer_out` / `process_xfer_in` over the entries
   * read from the location: each entry requested on `side` is removed
   * together with its part's move (one operate on the location, whose
   * generation check always matches the meta the loop carries), and its
   * transfer record is marked done.
   */
  method ScanRequests(l: Location, side: Side, xfers0: map<string, Xfer>)
    returns (current: Location, xfers: map<string, Xfer>)
    ensures current == Processed(l, side)
    ensures xfers == MarkedDone(xfers0, side, RequestedKeys(EntriesOf(l), side))
  {
    var entries := EntriesOf(l);
    var todo := entries.Keys;
    ScanStart(l, side, xfers0);
    current, xfers := l.(xfers := Some(entries)), xfers0;
    var meta := l.gen;
    while todo != {}
      invariant todo <= entries.Keys
      invariant PartlyProcessed(current, l, side, RequestedAmong(entries, side, todo))
      invariant PartlyMarked(xfers, xfers0, side, RequestedAmong(entries, side, todo))
      invariant meta == current.gen
      decreases |todo|
    {
      var k :| k in todo;
      ghost var done := RequestedAmong(entries, side, todo);
      RequestedAmongStep(entries, side, todo, k);
      var e := entries[k];
      if Requested(e, side) {
        ProcessOne(current, l, side, done, k);
        MarkOne(xfers, xfers0, side, done, k);
        // operate(key, [remove xfers[k], move parts[e.part]], meta, gen-equal)
        current := MoveOne(current, side, k, e.part);
        meta := current.gen;
        // put(xfers:k, {xfer_out | xfer_in: Done})
        xfers := xfers[k := MarkDone(XferOf(xfers, k), side)];
      }
      todo := todo - {k};
    }
    assert RequestedAmong(entries, side, {}) == RequestedKeys(entries, side);
    ProcessedAll(current, l, side);
    MarkedAll(xfers, xfers0, side, RequestedKeys(entries, side));
  }

  /** `order` lists every key in `keys` once: the order in which iterating the dict visits them. */
  predicate IterationOrder(order: seq<string>, keys: set<string>)
  {
    && (forall i, j :: 0 <= i < j < |order| ==> order[i] != order[j])
    && (forall i :: 0 <= i < |order| ==> order[i] in keys)
    && (forall k :: k in keys ==> k in order)
  }

  /** The position of the first entry from `from` on in `order` that is requested on `side`, or |order|. */
  function FirstRequested(entries: map<string, XferEntry>, side: Side, order: seq<string>, from: nat): (r: nat)
    requires from <= |order|
    requires forall i :: 0 <= i < |order| ==> order[i] in entries
    ensures from <= r <= |order|
    ensures forall j :: from <= j < r ==> !Requested(entries[order[j]], side)
    ensures r < |order| ==> Requested(entries[order[r]], side)
    decreases |order| - from
  {
    if from == |order| || Requested(entries[order[from]], side) then from
    else FirstRequested(entries, side, order, from + 1)
  }

  /**
   * The loop of `process_xfer_out` / `process_xfer_in` as written, visiting
   * the entries in `order`. The operate for a requested entry rebinds
   * `record` to the operate's own result, whose bins hold no `xfers` map,
   * so reading the next entry raises. One call therefore processes only the
   * first requested entry, and raises when any entry is visited after it.
   */
  method ScanRequestsAsWritten(l: Location, side: Side, xfers0: map<string, Xfer>, order: seq<string>)
    returns (current: Location, xfers: map<string, Xfer>, outcome: Outcome)
    requires IterationOrder(order, EntriesOf(l).Keys)
    ensures var f := FirstRequested(EntriesOf(l), side, order, 0);
      if f == |order| then
        current == l && xfers == xfers0 && outcome == Done
      else
        var k := order[f];
        && current == MoveOne(l, side, k, EntriesOf(l)[k].part)
        && xfers == xfers0[k := MarkDone(XferOf(xfers0, k), side)]
        && outcome == if f + 1 < |order| then KeyError else Done
  {
    var entries := EntriesOf(l);
    current, xfers, outcome := l, xfers0, Done;
    var record: Option<map<string, XferEntry>> := Some(entries);
    ghost var f := FirstRequested(entries, side, order, 0);
    for i := 0 to |order|
      invariant record.Some? ==> record == Some(entries) && i <= f && current == l && xfers == xfers0
      invariant record.None? ==>
        && f < |order| && i == f + 1
        && current == MoveOne(l, side, order[f], entries[order[f]].part)
        && xfers == xfers0[order[f] := MarkDone(XferOf(xfers0, order[f]), side)]
    {
      if record.None? {
        // `record` holds the operate's bins, without `xfers`
        outcome := KeyError;
        return;
      }
      var k := order[i];
      var e := record.value[k];
      if Requested(e, side) {
        // operate(key, [remove xfers[k], move parts[e.part]], meta, gen-equal): the meta is current
        current := MoveOne(current, side, k, e.part);
        record := None;
        // put(xfers:k, {xfer_out | xfer_in: Done})
        xfers := xfers[k := MarkDone(XferOf(xfers, k), side)];
      }
    }
  }

  /** Las Vegas holding out-requests for two transfers, X1 (part P1) and X2 (part P2). */
  function TwoRequests(): Location
  {
    Location(Some("Warehouse"), {"P1", "P2"},
             Some(map["X1" := XferEntry("P1", Some("Mountain View"), None, "", "Requested"),
                      "X2" := XferEntry("P2", Some("Mountain View"), None, "", "Requested")]), 3)
  }

  /**
   * `process_xfer_out` as written on TwoRequests, X1 visited first: P1
   * leaves and X1 is marked Done, then reading X2 raises, so P2 stays.
   */
  method TwoRequestsAsWritten() returns (outcome: Outcome, left: set<string>, marked: set<string>)
    ensures outcome == KeyError && left == {"P2"} && marked == {"X1"}
  {
    var l := TwoRequests();
    var order := ["X1", "X2"];
    assert EntriesOf(l).Keys == {"X1", "X2"};
    assert FirstRequested(EntriesOf(l), Out, order, 0) == 0;
    var current, xs;
    current, xs, outcome := ScanRequestsAsWritten(l, Out, map[], order);
    assert current == MoveOne(l, Out, "X1", "P1");
    left, marked := current.parts, xs.Keys;
  }

  /** The corrected loop on TwoRequests moves both parts and marks both transfers. */
  method TwoRequestsCorrected() returns (left: set<string>, marked: set<string>)
    ensures left == {} && marked == {"X1", "X2"}
  {
    var l := TwoRequests();
    assert RequestedKeys(EntriesOf(l), Out) == {"X1", "X2"};
    assert PartsOf(EntriesOf(l), {"X1", "X2"}) == {"P1", "P2"};
    var current, xs := ScanRequests(l, Out, map[]);
    left, marked := current.parts, xs.Keys;
  }

  /** Processing a location whose only entry is one request on `side`. */
  lemma ProcessedSingle(l: Location, side: Side, id: string, e: XferEntry, xfers0: map<string, Xfer>)
    requires l.xfers == Some(map[id := e]) && Requested(e, side)
    ensures Processed(l, side) == l.(xfers := Some(map[]), parts := Moved(l.parts, side, {e.part}), gen := l.gen + 1)
    ensures MarkedDone(xfers0, side, RequestedKeys(EntriesOf(l), side)) == xfers0[id := MarkDone(XferOf(xfers0, id), side)]
  {
    assert RequestedKeys(EntriesOf(l), side) == {id};
    assert PartsOf(EntriesOf(l), {id}) == {e.part};
    assert map[id := e] - {id} == map[];
  }

  class ReparentingStore {
    var locations: map<string, Location>
    var parts: map<string, Part>
    var xfers: map<string, Xfer>

    constructor ()
      ensures locations == map[] && parts == map[] && xfers == map[]
    {
      locations, parts, xfers := map[], map[], map[];
    }

    /** `create_location`: one operate writing the type and adding the part to `parts`. */
    method CreateLocation(name: string, kind: string, part: string)
      modifies this
      ensures var l := LocationOf(old(locations), name);
        locations == old(locations)[name := l.(kind := Some(kind), parts := l.parts + {part}, gen := l.gen + 1)]
      ensures parts == old(parts) && xfers == old(xfers)
    {
      var l := LocationOf(locations, name);
      locations := locations[name := l.(kind := Some(kind), parts := l.parts + {part}, gen := l.gen + 1)];
    }

    /** `create_part`: a put of the location bin. */
    method CreatePart(part: string, location: string)
      modifies this
      ensures var p := PartOf(old(parts), part);
        parts == old(parts)[part := Part(Some(location), p.gen + 1)]
      ensures locations == old(locations) && xfers == old(xfers)
    {
      var p := PartOf(parts, part);
      parts := parts[part := Part(Some(location), p.gen + 1)];
    }

    /** `start_transfer`: a fresh id and a put of the whole transfer record, both sides Ready. */
    method StartTransfer(part: string, fromLoc: string, toLoc: string, choices: seq<nat>, now: int)
      returns (id: string)
      requires Choices(choices)
      modifies this
      ensures IsToken(id)
      ensures xfers == old(xfers)[id := Xfer(Some("Started"), Some("Ready"), Some("Ready"), Some(fromLoc), Some(toLoc),
                                              Some(part), Some(now), XferOf(old(xfers), id).gen + 1)]
      ensures locations == old(locations) && parts == old(parts)
    {
      id := GenerateToken(choices);
      xfers := xfers[id := Xfer(Some("Started"), Some("Ready"), Some("Ready"), Some(fromLoc), Some(toLoc),
                                Some(part), Some(now), XferOf(xfers, id).gen + 1)];
    }

    /**
     * `add_transfer_requests`: reads the transfer and, for each side still
     * Ready, files a request entry at that side's location. The transfer
     * record itself is not written. A missing record is NotFound; a
     * missing bin read along the way is a KeyError, after the writes
     * already made.
     */
    method AddTransferRequests(id: string) returns (outcome: Outcome)
      modifies this
      ensures id !in old(xfers) ==> outcome == NotFound && locations == old(locations)
      ensures id in old(xfers) ==>
        var x := old(xfers)[id];
        x.xferOut.Some? && x.xferIn.Some? && x.part.Some? && x.fromLoc.Some? && x.toLoc.Some? ==>
          var afterOut := if x.xferOut.value == "Ready"
            then old(locations)[x.fromLoc.value := PutEntry(LocationOf(old(locations), x.fromLoc.value), id, OutRequest(x))]
            else old(locations);
          && outcome == Done
          && locations == (if x.xferIn.value == "Ready"
               then afterOut[x.toLoc.value := PutEntry(LocationOf(afterOut, x.toLoc.value), id, InRequest(x))]
               else afterOut)
      ensures id in old(xfers) && old(xfers)[id].xferOut.None? ==> outcome == KeyError && locations == old(locations)
      ensures xfers == old(xfers) && parts == old(parts)
    {
      if id !in xfers {
        return NotFound;
      }
      var x := xfers[id];
      if x.xferOut.None? {
        return KeyError;
      }
      if x.xferOut.value == "Ready" {
        if x.fromLoc.None? || x.part.None? || x.toLoc.None? {
          return KeyError;
        }
        locations := locations[x.fromLoc.value := PutEntry(LocationOf(locations, x.fromLoc.value), id, OutRequest(x))];
      }
      if x.xferIn.None? {
        return KeyError;
      }
      if x.xferIn.value == "Ready" {
        if x.toLoc.None? || x.part.None? || x.fromLoc.None? {
          return KeyError;
        }
        locations := locations[x.toLoc.value := PutEntry(LocationOf(locations, x.toLoc.value), id, InRequest(x))];
      }
      outcome := Done;
    }

    /** `process_xfer_out` (side Out) and `process_xfer_in` (side In) at one location. */
    method ProcessXfers(location: string, side: Side) returns (outcome: Outcome)
      modifies this
      ensures location !in old(locations) ==> outcome == NotFound && locations == old(locations) && xfers == old(xfers)
      ensures location in old(locations) && old(locations)[location].xfers.None? ==>
        outcome == KeyError && locations == old(locations) && xfers == old(xfers)
      ensures location in old(locations) && old(locations)[location].xfers.Some? ==>
        var l := old(locations)[location];
        && outcome == Done
        && locations == old(locations)[location := Processed(l, side)]
        && xfers == MarkedDone(old(xfers), side, RequestedKeys(EntriesOf(l), side))
      ensures parts == old(parts)
    {
      if location !in locations {
        return NotFound;
      }
      var l := locations[location];
      if l.xfers.None? {
        return KeyError;
      }
      assert l.(xfers := Some(EntriesOf(l))) == l;
      var current, xs := ScanRequests(l, side, xfers);
      locations := locations[location := current];
      xfers := xs;
      outcome := Done;
    }

    /**
     * `process_xfer_out` (side Out) and `process_xfer_in` (side In) as
     * written, the location's entries visited in `order`.
     */
    method ProcessXfersAsWritten(location: string, side: Side, order: seq<string>) returns (outcome: Outcome)
      requires location in locations ==> IterationOrder(order, EntriesOf(locations[location]).Keys)
      modifies this
      ensures location !in old(locations) ==> outcome == NotFound && locations == old(locations) && xfers == old(xfers)
      ensures location in old(locations) && old(locations)[location].xfers.None? ==>
        outcome == KeyError && locations == old(locations) && xfers == old(xfers)
      ensures location in old(locations) && old(locations)[location].xfers.Some? ==>
        var l := old(locations)[location];
        var f := FirstRequested(EntriesOf(l), side, order, 0);
        if f == |order| then
          outcome == Done && locations == old(locations) && xfers == old(xfers)
        else
          var k := order[f];
          && locations == old(locations)[location := MoveOne(l, side, k, EntriesOf(l)[k].part)]
          && xfers == old(xfers)[k := MarkDone(XferOf(old(xfers), k), side)]
          && outcome == if f + 1 < |order| then KeyError else Done
      ensures parts == old(parts)
    {
      if location !in locations {
        return NotFound;
      }
      var l := locations[location];
      if l.xfers.None? {
        return KeyError;
      }
      var current, xs;
      current, xs, outcome := ScanRequestsAsWritten(l, side, xfers, order);
      locations := locations[location := current];
      xfers := xs;
    }

    method ProcessXferOut(location: string) returns (outcome: Outcome)
      modifies this
      ensures location in old(locations) && old(locations)[location].xfers.Some? ==>
        var l := old(locations)[location];
        && outcome == Done
        && locations == old(locations)[location := Processed(l, Out)]
        && xfers == MarkedDone(old(xfers), Out, RequestedKeys(EntriesOf(l), Out))
      ensures !(location in old(locations) && old(locations)[location].xfers.Some?) ==>
        outcome != Done && locations == old(locations) && xfers == old(xfers)
      ensures parts == old(parts)
    {
      outcome := ProcessXfers(location, Out);
    }

    method ProcessXferIn(location: string) returns (outcome: Outcome)
      modifies this
      ensures location in old(locations) && old(locations)[location].xfers.Some? ==>
        var l := old(locations)[location];
        && outcome == Done
        && locations == old(locations)[location := Processed(l, In)]
        && xfers == MarkedDone(old(xfers), In, RequestedKeys(EntriesOf(l), In))
      ensures !(location in old(locations) && old(locations)[location].xfers.Some?) ==>
        outcome != Done && locations == old(locations) && xfers == old(xfers)
      ensures parts == old(parts)
    {
      outcome := ProcessXfers(location, In);
    }

    /**
     * `complete_xfer`: only when both sides are Done, the transfer is
     * marked Finished and the part record moves to the destination. The
     * status is written before the part is read, so a missing part record
     * (NotFound) or a missing `part` or `to_loc` bin (KeyError) leaves the
     * transfer Finished and the part where it was.
     */
    method CompleteXfer(id: string) returns (outcome: Outcome)
      modifies this
      ensures id !in old(xfers) ==> outcome == NotFound && xfers == old(xfers) && parts == old(parts)
      ensures id in old(xfers) && old(xfers)[id].xferIn.Some? && old(xfers)[id].xferIn.value != "Done" ==>
        outcome == Done && xfers == old(xfers) && parts == old(parts)
      ensures id in old(xfers) && old(xfers)[id].xferIn == Some("Done") && old(xfers)[id].xferOut.Some?
              && old(xfers)[id].xferOut.value != "Done" ==>
        outcome == Done && xfers == old(xfers) && parts == old(parts)
      ensures id in old(xfers) && old(xfers)[id].xferIn.None? ==>
        outcome == KeyError && xfers == old(xfers) && parts == old(parts)
      ensures id in old(xfers) && old(xfers)[id].xferIn == Some("Done") && old(xfers)[id].xferOut.None? ==>
        outcome == KeyError && xfers == old(xfers) && parts == old(parts)
      ensures id in old(xfers) ==>
        var x := old(xfers)[id];
        var finished := old(xfers)[id := x.(status := Some("Finished"), gen := x.gen + 1)];
        x.xferIn == Some("Done") && x.xferOut == Some("Done") ==>
          && xfers == finished
          && (x.part.None? ==> outcome == KeyError && parts == old(parts))
          && (x.part.Some? && x.part.value !in old(parts) ==> outcome == NotFound && parts == old(parts))
          && (x.part.Some? && x.part.value in old(parts) && x.toLoc.None? ==> outcome == KeyError && parts == old(parts))
          && (x.part.Some? && x.part.value in old(parts) && x.toLoc.Some? ==>
                && outcome == Done
                && parts == old(parts)[x.part.value := Part(x.toLoc, old(parts)[x.part.value].gen + 1)])
      ensures locations == old(locations)
    {
      if id !in xfers {
        return NotFound;
      }
      var x := xfers[id];
      if x.xferIn.None? {
        return KeyError;
      }
      if x.xferIn.value != "Done" {
        return Done;
      }
      if x.xferOut.None? {
        return KeyError;
      }
      if x.xferOut.value != "Done" {
        return Done;
      }
      // put(key, {status: Finished}, meta, gen-equal): the meta just read matches
      xfers := xfers[id := x.(status := Some("Finished"), gen := x.gen + 1)];
      if x.part.None? {
        return KeyError;
      }
      if x.part.value !in parts {
        return NotFound;
      }
      var p := parts[x.part.value];
      if x.toLoc.None? {
        return KeyError;
      }
      parts := parts[x.part.value := Part(x.toLoc, p.gen + 1)];
      outcome := Done;
    }
  }

  /** The script up to `add_transfer_requests`: both locations hold one request for the transfer. */
  method RequestRun(choices: seq<nat>, now: int) returns (s: ReparentingStore, id: string, x: Xfer)
    requires Choices(choices)
    ensures fresh(s)
    ensures "Las Vegas" in s.locations && "Mountain View" in s.locations
    ensures x.part == Some("8BQWQM") && x.toLoc == Some("Mountain View") && x.fromLoc == Some("Las Vegas")
    ensures s.locations["Las Vegas"].parts == {"8BQWQM"} && s.locations["Las Vegas"].xfers == Some(map[id := OutRequest(x)])
    ensures s.locations["Mountain View"].parts == {"ABC123"} && s.locations["Mountain View"].xfers == Some(map[id := InRequest(x)])
    ensures "8BQWQM" in s.parts && id in s.xfers && s.xfers[id] == x
    ensures x.xferIn == Some("Ready") && x.xferOut == Some("Ready")
  {
    var part, fromLoc, toLoc := "8BQWQM", "Las Vegas", "Mountain View";
    s := new ReparentingStore();
    s.CreateLocation(fromLoc, "Warehouse", part);
    s.CreateLocation(toLoc, "Store", "ABC123");
    s.CreatePart(part, fromLoc);
    id := s.StartTransfer(part, fromLoc, toLoc, choices, now);
    x := s.xfers[id];
    var o1 := s.AddTransferRequests(id);
  }

  /**
   * The script: part 8BQWQM moves from the Las Vegas warehouse to the
   * Mountain View store. Afterwards the part is listed only at Mountain
   * View, neither location holds a request, the part record points at
   * Mountain View and the transfer is Finished.
   */
  method TransferRun(choices: seq<nat>, now: int) returns (s: ReparentingStore, id: string)
    requires Choices(choices)
    ensures "Las Vegas" in s.locations && "Mountain View" in s.locations
    ensures s.locations["Las Vegas"].parts == {} && s.locations["Las Vegas"].xfers == Some(map[])
    ensures s.locations["Mountain View"].parts == {"ABC123", "8BQWQM"} && s.locations["Mountain View"].xfers == Some(map[])
    ensures "8BQWQM" in s.parts && s.parts["8BQWQM"].location == Some("Mountain View")
    ensures id in s.xfers && s.xfers[id].status == Some("Finished")
  {
    var x;
    s, id, x := RequestRun(choices, now);
    ProcessedSingle(s.locations["Las Vegas"], Out, id, OutRequest(x), s.xfers);
    var o2 := s.ProcessXferOut("Las Vegas");
    ProcessedSingle(s.locations["Mountain View"], In, id, InRequest(x), s.xfers);
    var o3 := s.ProcessXferIn("Mountain View");
    var o4 := s.CompleteXfer(id);
  }
}
