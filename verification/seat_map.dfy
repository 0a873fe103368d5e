/**
 * Seat maps for numbered seating (redis/inventory/check_inventory.py).
 *
 * Each row of an event is one integer whose bit i-1 is set while seat i is
 * free. Rows are named "A", "B", ..., "Z", "AA", "AB", ... (bijective base 26).
 * A block of k seats starting at seat i is free when bits i-1 .. i+k-2 are
 * set; reserving it takes a hold on every seat and XORs the block out of the
 * row.
 */
module SeatMap {
  import opened Bits

  // ---------------------------------------------------------------------
  // Row names
  // ---------------------------------------------------------------------

  predicate IsUpper(c: char)
  {
    'A' <= c <= 'Z'
  }

  predicate AllUpper(s: string)
  {
    forall i :: 0 <= i < |s| ==> IsUpper(s[i])
  }

  /** The value of an upper-case letter as a bijective base-26 digit: A = 1, ..., Z = 26. */
  function Digit(c: char): int
  {
    c as int - 'A' as int + 1
  }

  /** The number a row name stands for in bijective base 26: "A" = 1, "Z" = 26, "AA" = 27. */
  function Value(s: string): nat
    requires AllUpper(s)
  {
    if s == [] then 0 else 26 * Value(s[..|s| - 1]) + Digit(s[|s| - 1])
  }

  function Repeat(c: char, n: nat): (r: string)
    ensures |r| == n && forall i :: 0 <= i < n ==> r[i] == c
  {
    if n == 0 then [] else Repeat(c, n - 1) + [c]
  }

  /** `increment_char`: 'Z' wraps to 'A', anything else becomes the next character. */
  function IncrementChar(c: char): (r: char)
    requires c == 'Z' || c as int < 255
    ensures IsUpper(c) ==> IsUpper(r) && Digit(r) == Digit(c) % 26 + 1
  {
    if c != 'Z' then (c as int + 1) as char else 'A'
  }

  /** `s.rstrip('Z')` */
  function RStripZ(s: string): (r: string)
    ensures |r| <= |s| && r == s[..|r|]
    ensures forall i :: |r| <= i < |s| ==> s[i] == 'Z'
    ensures r == [] || r[|r| - 1] != 'Z'
  {
    if |s| > 0 && s[|s| - 1] == 'Z' then RStripZ(s[..|s| - 1]) else s
  }

  /** The character `increment_str` increments has a successor (Python 2 `chr` stops at 255). */
  predicate Incrementable(s: string)
  {
    var lpart := RStripZ(s);
    lpart == [] || lpart[|lpart| - 1] as int < 255
  }

  /** `increment_str` */
  function IncrementStr(s: string): string
    requires Incrementable(s)
  {
    var lpart := RStripZ(s);
    var numReplacements := |s| - |lpart|;
    (if lpart != [] then lpart[..|lpart| - 1] + [IncrementChar(lpart[|lpart| - 1])] else "A")
      + Repeat('A', numReplacements)
  }

  lemma IncrementStrZ(p: string)
    requires Incrementable(p)
    ensures Incrementable(p + ['Z'])
    ensures IncrementStr(p + ['Z']) == IncrementStr(p) + ['A']
  {
    assert (p + ['Z'])[..|p|] == p;
    assert RStripZ(p + ['Z']) == RStripZ(p);
  }

  lemma IncrementStrLastChar(p: string, c: char)
    requires c != 'Z' && c as int < 255
    ensures Incrementable(p + [c])
    ensures IncrementStr(p + [c]) == p + [IncrementChar(c)]
  {
    assert (p + [c])[..|p|] == p;
  }

  /**
   * When s holds a character other than 'Z': the trailing 'Z's become 'A's,
   * the last non-'Z' character is incremented, everything before it stays,
   * and the length is unchanged.
   */
  lemma {:induction false} IncrementStrSplit(pre: string, c: char, n: nat)
    requires c != 'Z' && c as int < 255
    ensures Incrementable(pre + [c] + Repeat('Z', n))
    ensures IncrementStr(pre + [c] + Repeat('Z', n)) == pre + [IncrementChar(c)] + Repeat('A', n)
  {
    if n == 0 {
      assert pre + [c] + Repeat('Z', 0) == pre + [c];
      IncrementStrLastChar(pre, c);
    } else {
      var w := pre + [c] + Repeat('Z', n - 1);
      IncrementStrSplit(pre, c, n - 1);
      assert Repeat('Z', n) == Repeat('Z', n - 1) + ['Z'];
      assert pre + [c] + Repeat('Z', n) == w + ['Z'];
      IncrementStrZ(w);
      assert Repeat('A', n) == Repeat('A', n - 1) + ['A'];
      assert pre + [IncrementChar(c)] + Repeat('A', n) == (pre + [IncrementChar(c)] + Repeat('A', n - 1)) + ['A'];
    }
  }

  /** A string of n 'Z's, the empty string included, becomes n + 1 'A's: "Z" to "AA". */
  lemma {:induction false} IncrementStrAllZ(n: nat)
    ensures Incrementable(Repeat('Z', n))
    ensures IncrementStr(Repeat('Z', n)) == Repeat('A', n + 1)
  {
    if n > 0 {
      IncrementStrAllZ(n - 1);
      IncrementStrZ(Repeat('Z', n - 1));
    }
  }

  /** On row names, `increment_str` is "add one" in bijective base 26. */
  lemma {:induction false} IncrementStrAddsOne(s: string)
    requires AllUpper(s)
    ensures Incrementable(s)
    ensures AllUpper(IncrementStr(s)) && Value(IncrementStr(s)) == Value(s) + 1
  {
    if s == [] {
      assert IncrementStr(s) == "A";
    } else {
      var p, c := s[..|s| - 1], s[|s| - 1];
      assert s == p + [c];
      if c == 'Z' {
        IncrementStrAddsOne(p);
        IncrementStrZ(p);
        var q := IncrementStr(p);
        assert (q + ['A'])[..|q|] == q;
      } else {
        IncrementStrLastChar(p, c);
        assert (p + [IncrementChar(c)])[..|p|] == p;
      }
    }
  }

  /** Row k of an event (from 0): "A", then successive `increment_str` values. */
  function RowName(k: nat): (r: string)
    ensures AllUpper(r) && Value(r) == k + 1
  {
    if k == 0 then "A"
    else
      var prev := RowName(k - 1);
      IncrementStrAddsOne(prev);
      IncrementStr(prev)
  }

  lemma {:induction false} ValueInjective(s: string, t: string)
    requires AllUpper(s) && AllUpper(t) && Value(s) == Value(t)
    ensures s == t
    decreases |s|
  {
    if s != [] && t != [] {
      ValueInjective(s[..|s| - 1], t[..|t| - 1]);
      assert s == s[..|s| - 1] + [s[|s| - 1]];
      assert t == t[..|t| - 1] + [t[|t| - 1]];
    }
  }

  /** Every non-empty upper-case name is reached: it is row Value(s) - 1. */
  lemma {:induction false} EveryNameIsARow(s: string)
    requires AllUpper(s) && s != []
    ensures Value(s) >= 1 && RowName(Value(s) - 1) == s
  {
    ValuePositive(s);
    RowNameOfValue(s, Value(s) - 1);
  }

  lemma ValuePositive(s: string)
    requires AllUpper(s) && s != []
    ensures Value(s) >= 1
  {
    assert Digit(s[|s| - 1]) >= 1;
  }

  lemma RowNameOfValue(s: string, k: nat)
    requires AllUpper(s) && Value(s) == k + 1
    ensures RowName(k) == s
  {
    ValueInjective(RowName(k), s);
  }

  // ---------------------------------------------------------------------
  // Finding free blocks in a row
  // ---------------------------------------------------------------------

  datatype SeatBlock = SeatBlock(firstSeat: int, lastSeat: int)

  /** Last start seat `get_availbale` tries: bit_length + 1, or first_seat + seats_required - 1. */
  function EndSeat(seatMap: nat, seatsRequired: nat, firstSeat: int): int
  {
    if firstSeat != -1 then firstSeat + seatsRequired - 1 else BitLength(seatMap) + 1
  }

  /** The blocks a scan over start seats 1 .. end reports, in the order found. */
  function Available(seatMap: nat, k: nat, end: int): seq<SeatBlock>
    decreases if end < 1 then 0 else end
  {
    if end < 1 then []
    else
      Available(seatMap, k, end - 1)
        + (if AllSet(seatMap, end - 1, k) then [SeatBlock(end, end + k - 1)] else [])
  }

  /**
   * The scan reports exactly the fully free blocks starting at seats 1 .. end,
   * each of k seats, in increasing order of first seat.
   */
  lemma {:induction false} AvailableSpec(seatMap: nat, k: nat, end: int)
    ensures forall b :: b in Available(seatMap, k, end) <==>
      1 <= b.firstSeat <= end && b.lastSeat == b.firstSeat + k - 1 && AllSet(seatMap, b.firstSeat - 1, k)
    ensures forall i, j :: 0 <= i < j < |Available(seatMap, k, end)| ==>
      Available(seatMap, k, end)[i].firstSeat < Available(seatMap, k, end)[j].firstSeat
    decreases if end < 1 then 0 else end
  {
    if end >= 1 {
      AvailableSpec(seatMap, k, end - 1);
    }
  }

  /** The blocks of a row `get_availbale` reports when no first seat is given. */
  function FreeBlocks(seatMap: nat, k: nat): seq<SeatBlock>
  {
    Available(seatMap, k, EndSeat(seatMap, k, -1))
  }

  /** Without a first seat, the scan misses no free block of the row. */
  lemma ScanFindsEveryBlock(seatMap: nat, k: nat, first: int)
    requires k >= 1 && first >= 1 && AllSet(seatMap, first - 1, k)
    ensures SeatBlock(first, first + k - 1) in FreeBlocks(seatMap, k)
  {
    BitBelowLength(seatMap, first - 1);
    AvailableSpec(seatMap, k, EndSeat(seatMap, k, -1));
  }

  /** `get_availbale(seat_map, seats_required, first_seat)`; -1 stands for "no first seat". */
  method GetAvailable(seatMap: nat, seatsRequired: nat, firstSeat: int) returns (seats: seq<SeatBlock>)
    ensures seats == Available(seatMap, seatsRequired, EndSeat(seatMap, seatsRequired, firstSeat))
  {
    seats := [];
    var endSeat := if firstSeat != -1 then firstSeat + seatsRequired - 1 else BitLength(seatMap) + 1;
    var requiredBlock := Mask(seatsRequired);
    var i := 1;
    while i <= endSeat
      invariant 1 <= i <= (if endSeat < 1 then 1 else endSeat + 1)
      invariant requiredBlock == Shl(Mask(seatsRequired), i - 1)
      invariant seats == Available(seatMap, seatsRequired, i - 1)
    {
      MaskedTest(seatMap, seatsRequired, i - 1);
      if And(seatMap, requiredBlock) == requiredBlock {
        seats := seats + [SeatBlock(i, i + seatsRequired - 1)];
      }
      assert Shl(requiredBlock, 1) == 2 * requiredBlock == Shl(Mask(seatsRequired), i);
      requiredBlock := Shl(requiredBlock, 1);
      i := i + 1;
    }
  }

  // ---------------------------------------------------------------------
  // The store: rows, per-seat holds and order holds
  // ---------------------------------------------------------------------

  /** The key `events:<event>:<row>`. */
  datatype RowKey = RowKey(event: string, row: string)
  /** The key `orders:<event>:<row>:<seat>`. */
  datatype SeatKey = SeatKey(event: string, row: string, seat: int)
  /** The key `orders:<event>:<row>:<order id>`. */
  datatype OrderKey = OrderKey(event: string, row: string, orderId: string)
  /** The hash `events:<event>`. */
  datatype Layout = Layout(rows: int, seatsPerRow: nat)

  /**
   * The rows `create_event(event, rows, ...)` writes: the rows of the event
   * whose names are the numerals 1 .. rows in bijective base 26, that is
   * RowName(0) .. RowName(rows - 1) (see EveryNameIsARow).
   */
  predicate EventRow(event: string, rows: int, key: RowKey)
  {
    key.event == event && AllUpper(key.row) && 1 <= Value(key.row) <= rows
  }

  /** Each row written adds exactly one new row name. */
  lemma EventRowStep(event: string, i: nat, name: string, key: RowKey)
    requires AllUpper(name) && Value(name) == i + 1
    ensures EventRow(event, i + 1, key) <==> EventRow(event, i, key) || key == RowKey(event, name)
  {
    if EventRow(event, i + 1, key) && Value(key.row) == i + 1 {
      ValueInjective(key.row, name);
    }
  }

  /** Seat holds first .. stop-1 of a row. */
  ghost function SeatRange(event: string, row: string, first: int, stop: int): set<SeatKey>
  {
    set s | first <= s < stop :: SeatKey(event, row, s)
  }

  /** The first seat of first .. last that already holds a hold, or last + 1 when none does. */
  function FirstTaken(holds: set<SeatKey>, event: string, row: string, first: int, last: int): (r: int)
    ensures first <= r <= last + 1 || (first > last + 1 && r == first)
    ensures forall s :: first <= s < r ==> SeatKey(event, row, s) !in holds
    ensures r <= last ==> SeatKey(event, row, r) in holds
    decreases last - first + 1
  {
    if first > last then first
    else if SeatKey(event, row, first) in holds then first
    else FirstTaken(holds, event, row, first + 1, last)
  }

  /**
   * Row maps are stored with `struct.pack('l', ...)`, a signed 64-bit long
   * on the platforms the script targets: a non-negative map packs exactly
   * when it is below 2^63.
   */
  predicate FitsLong(v: nat)
  {
    v < Pow2(63)
  }

  /** A full row of k seats packs exactly when k is at most 63. */
  lemma MaskFitsLong(k: nat)
    ensures FitsLong(Mask(k)) <==> k < 64
  {
    if k < 64 {
      Pow2Monotone(k, 63);
    } else {
      Pow2Monotone(64, k);
      assert Pow2(64) == 2 * Pow2(63);
    }
  }

  /** Small maps such as the script's pack without error. */
  lemma SmallFitsLong(v: nat)
    requires v < 4
    ensures FitsLong(v)
  {
    Pow2Monotone(2, 63);
    assert Pow2(2) == 4;
  }

  class SeatStore {
    var layouts: map<string, Layout>
    var rowMaps: map<RowKey, nat>
    var seatHolds: set<SeatKey>
    var orderHolds: map<OrderKey, nat>

    /** An empty store, as after `flushall`. */
    constructor ()
      ensures layouts == map[] && rowMaps == map[] && seatHolds == {} && orderHolds == map[]
    {
      layouts, rowMaps, seatHolds, orderHolds := map[], map[], {}, map[];
    }

    /**
     * `create_event`: records the layout and writes rows RowName(0) ..
     * RowName(rows - 1) of the event with every seat free; other rows are
     * left as they were.
     */
    method CreateEvent(event: string, rows: int, seatsPerRow: nat) returns (packed: bool)
      modifies this
      ensures packed <==> rows <= 0 || FitsLong(Mask(seatsPerRow))
      ensures layouts == old(layouts)[event := Layout(rows, seatsPerRow)]
      ensures !packed ==> rowMaps == old(rowMaps)
      ensures packed ==> forall key :: key in rowMaps <==> key in old(rowMaps) || EventRow(event, rows, key)
      ensures packed ==> forall key :: key in rowMaps ==>
        rowMaps[key] == if EventRow(event, rows, key) then Mask(seatsPerRow) else old(rowMaps)[key]
      ensures seatHolds == old(seatHolds) && orderHolds == old(orderHolds)
    {
      layouts := layouts[event := Layout(rows, seatsPerRow)];
      var rowName := "A";
      var i := 0;
      while i < rows
        invariant 0 <= i <= (if rows < 0 then 0 else rows)
        invariant i > 0 ==> FitsLong(Mask(seatsPerRow))
        invariant AllUpper(rowName) && Value(rowName) == i + 1
        invariant forall key :: key in rowMaps <==> key in old(rowMaps) || EventRow(event, i, key)
        invariant forall key :: key in rowMaps ==>
          rowMaps[key] == if EventRow(event, i, key) then Mask(seatsPerRow) else old(rowMaps)[key]
        invariant layouts == old(layouts)[event := Layout(rows, seatsPerRow)]
        invariant seatHolds == old(seatHolds) && orderHolds == old(orderHolds)
      {
        var filledSeatMap := Mask(seatsPerRow);
        if !FitsLong(filledSeatMap) {
          // struct.error: the first row's pack raises, no row has been written
          assert i == 0 && rowMaps.Keys == old(rowMaps).Keys;
          return false;
        }
        rowMaps := rowMaps[RowKey(event, rowName) := filledSeatMap];
        forall key
          ensures EventRow(event, i + 1, key) <==> EventRow(event, i, key) || key == RowKey(event, rowName)
        {
          EventRowStep(event, i, rowName, key);
        }
        IncrementStrAddsOne(rowName);
        rowName := IncrementStr(rowName);
        i := i + 1;
      }
      packed := true;
    }

    /** `set_seat_map`: the `struct.pack('l', map)` raises for a map that does not fit a long. */
    method SetSeatMap(event: string, row: string, seatMap: nat) returns (packed: bool)
      modifies this
      ensures packed <==> FitsLong(seatMap)
      ensures rowMaps == if packed then old(rowMaps)[RowKey(event, row) := seatMap] else old(rowMaps)
      ensures layouts == old(layouts) && seatHolds == old(seatHolds) && orderHolds == old(orderHolds)
    {
      if !FitsLong(seatMap) {
        return false;
      }
      rowMaps := rowMaps[RowKey(event, row) := seatMap];
      packed := true;
    }

    /**
     * `find_seat_selection`: for every row of the event that has at least one
     * free block of `seatsRequired` seats, the blocks `get_availbale` reports.
     * KEYS returns rows in no fixed order, so the result is keyed by row name.
     */
    method FindSeatSelection(event: string, seatsRequired: nat) returns (found: map<string, seq<SeatBlock>>)
      ensures found.Keys == set key | key in rowMaps && key.event == event
                                      && FreeBlocks(rowMaps[key], seatsRequired) != []
                                    :: key.row
      ensures forall row :: row in found ==>
        (RowKey(event, row) in rowMaps && found[row] == FreeBlocks(rowMaps[RowKey(event, row)], seatsRequired))
    {
      found := map[];
      var rows := set key | key in rowMaps && key.event == event :: key.row;
      ghost var done: set<string> := {};
      while rows != {}
        invariant rows !! done
        invariant rows + done == set key | key in rowMaps && key.event == event :: key.row
        invariant found.Keys == set key | key in rowMaps && key.event == event && key.row in done
                                          && FreeBlocks(rowMaps[key], seatsRequired) != []
                                        :: key.row
        invariant forall row :: row in found ==>
          (RowKey(event, row) in rowMaps && found[row] == FreeBlocks(rowMaps[RowKey(event, row)], seatsRequired))
        decreases rows
      {
        var row :| row in rows;
        assert RowKey(event, row) in rowMaps;
        var seatMap := rowMaps[RowKey(event, row)];
        var rowBlocks := GetAvailable(seatMap, seatsRequired, -1);
        if |rowBlocks| > 0 {
          found := found[row := rowBlocks];
        }
        rows := rows - {row};
        done := done + {row};
      }
    }

    /**
     * `reservation`, as written. The availability test passes the first seat
     * to `get_availbale`, whose scan still starts at seat 1, so it accepts
     * the request when ANY block of the right size starting at seats
     * 1 .. last is free. Holds are taken seat by seat; the first seat already
     * held ends the attempt (the holds already taken stay). The row is then
     * XORed with the value under the order key: the block, unless that key
     * was already set.
     */
    method Reservation(event: string, row: string, firstSeat: int, lastSeat: int, orderId: string)
      returns (reserved: bool)
      requires RowKey(event, row) in rowMaps
      requires 1 <= firstSeat <= lastSeat + 1
      modifies this
      ensures var m := old(rowMaps[RowKey(event, row)]);
              var found := Available(m, lastSeat - firstSeat + 1, lastSeat) != [];
              var stop := FirstTaken(old(seatHolds), event, row, firstSeat, lastSeat);
              && (reserved <==> found && stop == lastSeat + 1)
              && seatHolds == (if found then old(seatHolds) + SeatRange(event, row, firstSeat, stop) else old(seatHolds))
      ensures var key := OrderKey(event, row, orderId);
              var block := Shl(Mask(lastSeat - firstSeat + 1), firstSeat - 1);
              && orderHolds == (if reserved && key !in old(orderHolds) then old(orderHolds)[key := block] else old(orderHolds))
              && rowMaps == (if reserved then old(rowMaps)[RowKey(event, row) := Xor(old(rowMaps[RowKey(event, row)]), orderHolds[key])]
                             else old(rowMaps))
      ensures layouts == old(layouts)
    {
      var seatMap := rowMaps[RowKey(event, row)];
      var seats := GetAvailable(seatMap, lastSeat - firstSeat + 1, firstSeat);
      reserved := false;
      if |seats| > 0 {
        var i := firstSeat;
        while i <= lastSeat
          invariant firstSeat <= i <= lastSeat + 1
          invariant forall s :: firstSeat <= s < i ==> SeatKey(event, row, s) !in old(seatHolds)
          invariant seatHolds == old(seatHolds) + SeatRange(event, row, firstSeat, i)
          invariant rowMaps == old(rowMaps) && orderHolds == old(orderHolds) && layouts == old(layouts)
        {
          if SeatKey(event, row, i) in seatHolds {
            assert SeatKey(event, row, i) in old(seatHolds);
            return;
          }
          seatHolds := seatHolds + {SeatKey(event, row, i)};
          i := i + 1;
        }
        var requiredBlock := Shl(Mask(lastSeat - firstSeat + 1), firstSeat - 1);
        var key := OrderKey(event, row, orderId);
        if key !in orderHolds {
          orderHolds := orderHolds[key := requiredBlock];
        }
        rowMaps := rowMaps[RowKey(event, row) := Xor(seatMap, orderHolds[key])];
        reserved := true;
      }
    }

    /**
     * `reservation` with the availability test the code intends: the block
     * first .. last itself must be free. When the order key was not taken
     * before, the reservation clears exactly the seats of the block, which
     * were all free, and leaves every other seat as it was.
     */
    method ReserveBlock(event: string, row: string, firstSeat: int, lastSeat: int, orderId: string)
      returns (reserved: bool)
      requires RowKey(event, row) in rowMaps
      requires 1 <= firstSeat <= lastSeat + 1
      modifies this
      ensures var m := old(rowMaps[RowKey(event, row)]);
              var free := AllSet(m, firstSeat - 1, lastSeat - firstSeat + 1);
              var stop := FirstTaken(old(seatHolds), event, row, firstSeat, lastSeat);
              && (reserved <==> free && stop == lastSeat + 1)
              && seatHolds == (if free then old(seatHolds) + SeatRange(event, row, firstSeat, stop) else old(seatHolds))
      ensures !reserved ==> rowMaps == old(rowMaps) && orderHolds == old(orderHolds)
      ensures reserved ==> rowMaps.Keys == old(rowMaps.Keys) && RowKey(event, row) in rowMaps
      ensures reserved ==> forall key :: key in rowMaps && key != RowKey(event, row) ==> rowMaps[key] == old(rowMaps[key])
      ensures reserved && OrderKey(event, row, orderId) !in old(orderHolds) ==>
        forall j: nat :: Bit(rowMaps[RowKey(event, row)], j) <==>
          Bit(old(rowMaps[RowKey(event, row)]), j) && !(firstSeat - 1 <= j < lastSeat)
      ensures layouts == old(layouts)
    {
      var seatMap := rowMaps[RowKey(event, row)];
      var k := lastSeat - firstSeat + 1;
      var requiredBlock := Shl(Mask(k), firstSeat - 1);
      MaskedTest(seatMap, k, firstSeat - 1);
      reserved := false;
      if And(seatMap, requiredBlock) == requiredBlock {
        var i := firstSeat;
        while i <= lastSeat
          invariant firstSeat <= i <= lastSeat + 1
          invariant forall s :: firstSeat <= s < i ==> SeatKey(event, row, s) !in old(seatHolds)
          invariant seatHolds == old(seatHolds) + SeatRange(event, row, firstSeat, i)
          invariant rowMaps == old(rowMaps) && orderHolds == old(orderHolds) && layouts == old(layouts)
        {
          if SeatKey(event, row, i) in seatHolds {
            assert SeatKey(event, row, i) in old(seatHolds);
            return;
          }
          seatHolds := seatHolds + {SeatKey(event, row, i)};
          i := i + 1;
        }
        var key := OrderKey(event, row, orderId);
        if key !in orderHolds {
          orderHolds := orderHolds[key := requiredBlock];
        }
        rowMaps := rowMaps[RowKey(event, row) := Xor(seatMap, orderHolds[key])];
        reserved := true;
        forall j: nat | key !in old(orderHolds)
          ensures Bit(rowMaps[RowKey(event, row)], j) <==> Bit(seatMap, j) && !(firstSeat - 1 <= j < lastSeat)
        {
          XorBlock(seatMap, k, firstSeat - 1, j);
        }
      }
    }
  }

  /**
   * The as-written `reservation` accepts seats that are already sold: in a
   * row where only seats 1 and 2 are free (map 3), reserving seats 3 .. 4
   * succeeds, because the block 1 .. 2 is free, and the XOR marks the two
   * sold seats free again (map 15).
   */
  method SoldSeatsReservedAgain() returns (reserved: bool, after: nat)
    ensures reserved && after == 15
  {
    var store := new SeatStore();
    SmallFitsLong(3);
    var packed := store.SetSeatMap("Fencing", "A", 3);
    assert AllSet(3, 0, 2) by { assert Bit(3, 0) && Bit(3, 1); }
    AvailableSpec(3, 2, 4);
    assert SeatBlock(1, 2) in Available(3, 2, 4);
    assert Shl(Mask(2), 2) == 12;
    assert Xor(3, 12) == 15;
    reserved := store.Reservation("Fencing", "A", 3, 4, "ORD001");
    after := store.rowMaps[RowKey("Fencing", "A")];
  }

  /** The same request against the intended test is refused and leaves the row as it was. */
  method SoldSeatsRefused() returns (reserved: bool, after: nat)
    ensures !reserved && after == 3
  {
    var store := new SeatStore();
    SmallFitsLong(3);
    var packed := store.SetSeatMap("Fencing", "A", 3);
    assert !AllSet(3, 2, 2) by { assert !Bit(3, 2); }
    reserved := store.ReserveBlock("Fencing", "A", 3, 4, "ORD001");
    after := store.rowMaps[RowKey("Fencing", "A")];
  }
}
