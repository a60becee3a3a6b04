/** The encoder's choice of a level: the supplied one if it covers the stream, otherwise the lowest that
    does (Table A-1 of ITU-T H.264, and the limits of ITU-T H.265). Frame rates are exact here. */
module LevelSelection {

  /** A level of one of the standards, as ten times its number; 1b lies beside the numbers. */
  datatype Level = Avc(tenths: nat) | Avc1b | Hevc(tenths: nat)

  /** What a level allows at most, or what a stream asks for: units per second, units per picture, and
      bits per second; a unit is a macroblock or a sample. */
  datatype Load = Load(perSecond: real, units: int, bitrate: int)

  datatype Limit = Limit(level: Level, load: Load)

  predicate Within(a: Load, b: Load) { a.units <= b.units && a.perSecond <= b.perSecond && a.bitrate <= b.bitrate }

  /** The rows of the two tables. */
  function AvcRow(k: nat): Limit {
    match k
    case 0 => Limit(Avc(10), Load(1485.0, 99, 64000))
    case 1 => Limit(Avc(11), Load(3000.0, 396, 192000))
    case 2 => Limit(Avc(12), Load(6000.0, 396, 384000))
    case 3 => Limit(Avc(13), Load(11880.0, 396, 768000))
    case 4 => Limit(Avc(20), Load(11880.0, 396, 2000000))
    case 5 => Limit(Avc(21), Load(19800.0, 792, 4000000))
    case 6 => Limit(Avc(22), Load(20250.0, 1620, 4000000))
    case 7 => Limit(Avc(30), Load(40500.0, 1620, 10000000))
    case 8 => Limit(Avc(31), Load(108000.0, 3600, 14000000))
    case 9 => Limit(Avc(32), Load(216000.0, 5120, 20000000))
    case 10 => Limit(Avc(40), Load(245760.0, 8192, 20000000))
    case 11 => Limit(Avc(41), Load(245760.0, 8192, 50000000))
    case 12 => Limit(Avc(42), Load(522240.0, 8704, 50000000))
    case _ => Limit(Avc(50), Load(589824.0, 22080, 135000000))
  }

  function HevcRow(k: nat): Limit {
    match k
    case 0 => Limit(Hevc(10), Load(552960.0, 36864, 128000))
    case 1 => Limit(Hevc(20), Load(3686400.0, 122880, 1500000))
    case 2 => Limit(Hevc(21), Load(7372800.0, 245760, 3000000))
    case 3 => Limit(Hevc(30), Load(16588800.0, 552960, 6000000))
    case 4 => Limit(Hevc(31), Load(33177600.0, 983040, 10000000))
    case 5 => Limit(Hevc(40), Load(66846720.0, 2228224, 12000000))
    case 6 => Limit(Hevc(41), Load(133693440.0, 2228224, 20000000))
    case 7 => Limit(Hevc(50), Load(267386880.0, 8912896, 25000000))
    case 8 => Limit(Hevc(51), Load(534773760.0, 8912896, 40000000))
    case 9 => Limit(Hevc(52), Load(1069547520.0, 8912896, 60000000))
    case 10 => Limit(Hevc(60), Load(1069547520.0, 35651584, 60000000))
    case 11 => Limit(Hevc(61), Load(2139095040.0, 35651584, 120000000))
    case _ => Limit(Hevc(62), Load(4278190080.0, 35651584, 240000000))
  }

  function AvcTable(): (t: seq<Limit>)
    ensures |t| == 14 && forall k :: 0 <= k < 14 ==> t[k] == AvcRow(k)
  {
    seq(14, k requires 0 <= k => AvcRow(k))
  }

  function HevcTable(): (t: seq<Limit>)
    ensures |t| == 13 && forall k :: 0 <= k < 13 ==> t[k] == HevcRow(k)
  {
    seq(13, k requires 0 <= k => HevcRow(k))
  }

  // ---------- the loop ----------

  /** The first limit that covers the load, or the length of the table. */
  function Lowest(table: seq<Limit>, d: Load): (k: nat)
    ensures k <= |table|
    ensures k < |table| ==> Within(d, table[k].load)
    ensures forall i :: 0 <= i < k ==> !Within(d, table[i].load)
  {
    if table == [] || Within(d, table[0].load) then 0 else 1 + Lowest(table[1..], d)
  }

  /** The rank of a level in the table, or the length of the table. */
  function Rank(table: seq<Limit>, level: Level): (k: nat)
    ensures k <= |table|
    ensures k < |table| ==> table[k].level == level
    ensures forall i :: 0 <= i < k ==> table[i].level != level
  {
    if table == [] || table[0].level == level then 0 else 1 + Rank(table[1..], level)
  }

  /** The level chosen: the lowest that covers the load if that lies above the supplied one, or if the
      supplied one is to be replaced anyway; `fallback` if none covers the load. */
  function Chosen(table: seq<Limit>, supplied: Level, replace: bool, fallback: Level, d: Load): Level {
    var k := Lowest(table, d);
    if k == |table| then fallback
    else if replace || Rank(table, supplied) < k then table[k].level
    else supplied
  }

  /** Goes up the table to the first limit that covers the load; an update is needed if the supplied level
      was passed on the way. */
  method Scan(table: seq<Limit>, supplied: Level, replace: bool, d: Load) returns (i: nat, needsUpdate: bool)
    ensures i == Lowest(table, d) && (needsUpdate <==> replace || Rank(table, supplied) < i)
  {
    hide Lowest, Rank, Within;
    i, needsUpdate := 0, replace;
    while i < |table| && !Within(d, table[i].load)
      invariant i <= Lowest(table, d)
      invariant needsUpdate <==> replace || Rank(table, supplied) < i
    {
      if supplied == table[i].level {
        needsUpdate := true;
      }
      i := i + 1;
    }
  }

  method Select(table: seq<Limit>, supplied: Level, replace: bool, fallback: Level, d: Load) returns (level: Level)
    ensures level == Chosen(table, supplied, replace, fallback, d)
  {
    var i, needsUpdate := Scan(table, supplied, replace, d);
    level := supplied;
    if i == |table| {
      level := fallback;
    } else if needsUpdate {
      level := table[i].level;
    }
  }

  // ---------- what the choice means ----------

  function Number(level: Level): nat { if level == Avc1b then 0 else level.tenths }

  predicate Below(a: Limit, b: Limit) { Within(a.load, b.load) && Number(a.level) < Number(b.level) }

  /** A table of rising levels whose limits never shrink. */
  predicate Ascending(table: seq<Limit>) {
    forall i, j :: 0 <= i < j < |table| ==> Below(table[i], table[j])
  }

  /** Neighbours in order are enough. */
  lemma {:induction false} NeighboursAscend(table: seq<Limit>, i: nat, j: nat)
    requires forall k :: 0 < k < |table| ==> Below(table[k - 1], table[k])
    requires i < j < |table|
    ensures Below(table[i], table[j])
    decreases j
  {
    assert Below(table[j - 1], table[j]);
    if i < j - 1 {
      NeighboursAscend(table, i, j - 1);
    }
  }

  lemma {:induction false} AvcNeighbours(k: nat)
    requires 0 < k < 14
    ensures Below(AvcRow(k - 1), AvcRow(k))
  {
  }

  lemma {:induction false} HevcNeighbours(k: nat)
    requires 0 < k < 13
    ensures Below(HevcRow(k - 1), HevcRow(k))
  {
  }

  lemma {:induction false} TablesAscend()
    ensures Ascending(AvcTable()) && Ascending(HevcTable())
  {
    hide Below, AvcRow, HevcRow;
    forall k | 0 < k < |AvcTable()|
      ensures Below(AvcTable()[k - 1], AvcTable()[k])
    {
      AvcNeighbours(k);
    }
    forall k | 0 < k < |HevcTable()|
      ensures Below(HevcTable()[k - 1], HevcTable()[k])
    {
      HevcNeighbours(k);
    }
    forall i, j | 0 <= i < j < |AvcTable()|
      ensures Below(AvcTable()[i], AvcTable()[j])
    {
      NeighboursAscend(AvcTable(), i, j);
    }
    forall i, j | 0 <= i < j < |HevcTable()|
      ensures Below(HevcTable()[i], HevcTable()[j])
    {
      NeighboursAscend(HevcTable(), i, j);
    }
  }

  lemma {:induction false} RankAt(table: seq<Limit>, k: nat)
    requires Ascending(table) && k < |table|
    ensures Rank(table, table[k].level) == k
  {
    assert forall i :: 0 <= i < k ==> Below(table[i], table[k]);
  }

  predicate Covered(table: seq<Limit>, d: Load) { exists i :: 0 <= i < |table| && Within(d, table[i].load) }

  function Max(a: int, b: int): int { if a < b then b else a }

  /** If some level of the table covers the load, the chosen one is the higher of the supplied level and
      the lowest that covers, it covers the load itself, and choosing again changes nothing. */
  lemma {:induction false} ChosenIsMax(table: seq<Limit>, supplied: Level, fallback: Level, d: Load)
    requires Ascending(table) && Covered(table, d) && Rank(table, supplied) < |table|
    ensures var level := Chosen(table, supplied, false, fallback, d);
            var rank := Rank(table, level);
            && rank == Max(Rank(table, supplied), Lowest(table, d)) < |table|
            && Within(d, table[rank].load)
            && Chosen(table, level, false, fallback, d) == level
  {
    var k, r := Lowest(table, d), Rank(table, supplied);
    RankAt(table, k);
    if k < r {
      assert Below(table[k], table[r]);
    }
  }

  /** The rank of the level chosen, in all cases. */
  lemma {:induction false} ChosenRank(table: seq<Limit>, supplied: Level, replace: bool, fallback: Level, d: Load)
    requires Ascending(table) && (replace || Rank(table, supplied) < |table|)
    ensures var low := Lowest(table, d);
            Rank(table, Chosen(table, supplied, replace, fallback, d)) ==
            if low == |table| then Rank(table, fallback)
            else if replace then low
            else Max(Rank(table, supplied), low)
  {
    var low := Lowest(table, d);
    if low < |table| {
      RankAt(table, low);
    }
  }

  /** It is the least change that does: no level from the supplied one up to it covers the load. */
  lemma {:induction false} ChosenIsLeast(table: seq<Limit>, supplied: Level, fallback: Level, d: Load, i: nat)
    requires Ascending(table) && Covered(table, d) && Rank(table, supplied) <= i < |table| && Within(d, table[i].load)
    ensures Rank(table, Chosen(table, supplied, false, fallback, d)) <= i
  {
    RankAt(table, Lowest(table, d));
  }

  /** A heavier load has a higher lowest level. */
  lemma {:induction false} LowestGrows(table: seq<Limit>, d: Load, e: Load)
    requires Within(d, e)
    ensures Lowest(table, d) <= Lowest(table, e)
  {
    var k := Lowest(table, e);
    if k < |table| {
      assert Within(d, table[k].load);
    }
  }

  // ---------- AVC ----------

  /** Pictures in 32-bit numbers. */
  predicate Sized(width: nat, height: nat) { width < 0x1_0000_0000 && height < 0x1_0000_0000 }

  /** A length in macroblocks, the addition in 32 bits. */
  function Blocks(n: nat): nat { (n + 15) % 0x1_0000_0000 / 16 }

  function AvcLoad(width: nat, height: nat, rate: real, bitrate: nat): Load {
    var mbs := Blocks(width) * Blocks(height);
    Load(mbs as real * rate, mbs, bitrate)
  }

  function AvcLevel(supplied: Level, d: Load): Level { Chosen(AvcTable(), supplied, supplied == Avc1b, Avc(50), d) }

  /** The levels that the AVC encoder allows: those of the table, and 1b. */
  predicate AvcAllowed(level: Level) { level == Avc1b || Rank(AvcTable(), level) < |AvcTable()| }

  method SetAvcLevel(supplied: Level, width: nat, height: nat, rate: real, bitrate: nat) returns (level: Level)
    requires Sized(width, height)
    ensures level == AvcLevel(supplied, AvcLoad(width, height, rate, bitrate))
  {
    var mbs := (width + 15) % 0x1_0000_0000 / 16 * ((height + 15) % 0x1_0000_0000 / 16);
    var d := Load(mbs as real * rate, mbs, bitrate);
    assert d == AvcLoad(width, height, rate, bitrate);
    hide AvcLoad, Chosen;
    level := Select(AvcTable(), supplied, supplied == Avc1b, Avc(50), d);
  }

  /** The macroblocks of a length are its sixteenths rounded up exactly if it is not within 15 of 2^32. */
  lemma {:induction false} BlocksRoundUpIff(n: nat)
    requires n < 0x1_0000_0000
    ensures (16 * (Blocks(n) - 1) < n <= 16 * Blocks(n)) <==> n <= 0xFFFF_FFF0
  {
    if n <= 0xFFFF_FFF0 {
      assert (n + 15) % 0x1_0000_0000 == n + 15;
    } else {
      assert (n + 15) % 0x1_0000_0000 == n + 15 - 0x1_0000_0000 < 16;
    }
  }

  lemma {:induction false} ProductGrows(a: nat, b: nat, c: nat, d: nat)
    requires a <= c && b <= d
    ensures a * b <= c * d
  {
    assert a * b <= c * b <= c * d;
  }

  lemma {:induction false} RateGrows(a: real, b: real, r: real, s: real)
    requires 0.0 <= a <= b && 0.0 <= r <= s
    ensures a * r <= b * s
  {
    assert a * r <= b * r <= b * s;
  }

  lemma {:induction false} BlocksGrow(a: nat, b: nat)
    requires a <= b <= 0xFFFF_FFF0
    ensures Blocks(a) <= Blocks(b)
  {
    assert (a + 15) % 0x1_0000_0000 == a + 15 && (b + 15) % 0x1_0000_0000 == b + 15;
  }

  /** More size, rate or bitrate is a heavier load. */
  lemma {:induction false} AvcLoadGrows(w: nat, h: nat, r: real, b: nat, w': nat, h': nat, r': real, b': nat)
    requires w <= w' <= 0xFFFF_FFF0 && h <= h' <= 0xFFFF_FFF0 && 0.0 <= r <= r' && b <= b'
    ensures Within(AvcLoad(w, h, r, b), AvcLoad(w', h', r', b'))
  {
    hide Blocks;
    BlocksGrow(w, w');
    BlocksGrow(h, h');
    var m, m' := Blocks(w) * Blocks(h), Blocks(w') * Blocks(h');
    assert 0 <= m <= m' by {
      ProductGrows(Blocks(w), Blocks(h), Blocks(w'), Blocks(h'));
    }
    assert m as real * r <= m' as real * r' by {
      RateGrows(m as real, m' as real, r, r');
    }
  }

  /** For AVC, raising size, rate or bitrate never lowers the level, even past what any level covers. */
  lemma {:induction false} AvcMonotone(supplied: Level, w: nat, h: nat, r: real, b: nat,
                                       w': nat, h': nat, r': real, b': nat)
    requires w <= w' <= 0xFFFF_FFF0 && h <= h' <= 0xFFFF_FFF0 && 0.0 <= r <= r' && b <= b' && AvcAllowed(supplied)
    ensures var t := AvcTable();
            var (low, high) := (AvcLevel(supplied, AvcLoad(w, h, r, b)), AvcLevel(supplied, AvcLoad(w', h', r', b')));
            Rank(t, low) <= Rank(t, high) < |t|
  {
    var d, e := AvcLoad(w, h, r, b), AvcLoad(w', h', r', b');
    AvcLoadGrows(w, h, r, b, w', h', r', b');
    TablesAscend();
    LowestGrows(AvcTable(), d, e);
    AvcRank(supplied, d);
    AvcRank(supplied, e);
  }

  /** The rank of the AVC level: the higher of the supplied and the lowest that covers, where 1b counts
      for nothing, or the top if no level covers the load. */
  lemma {:induction false} AvcRank(supplied: Level, d: Load)
    requires AvcAllowed(supplied)
    ensures var low := Lowest(AvcTable(), d);
            Rank(AvcTable(), AvcLevel(supplied, d)) ==
            if low == 14 then 13
            else if supplied == Avc1b then low
            else Max(Rank(AvcTable(), supplied), low)
  {
    var t := AvcTable();
    TablesAscend();
    RankAt(t, 13);
    assert t[13].level == Avc(50);
    hide AvcRow, AvcTable, Within, Ascending, Rank, Lowest;
    ChosenRank(t, supplied, supplied == Avc1b, Avc(50), d);
  }

  // ---------- HEVC ----------

  /** Samples per picture in 32 bits; samples per second are cut to a whole number. */
  function Samples(width: nat, height: nat): nat { width * height % 0x1_0000_0000 }

  function SamplesPerSecond(samples: nat, rate: real): int { (samples as real * rate).Floor }

  function HevcLoad(width: nat, height: nat, rate: real, bitrate: nat): Load {
    var samples := Samples(width, height);
    Load(SamplesPerSecond(samples, rate) as real, samples, bitrate)
  }

  function HevcLevel(supplied: Level, d: Load): Level { Chosen(HevcTable(), supplied, false, Hevc(52), d) }

  /** The rate of samples has to fit 32 bits. */
  method SetHevcLevel(supplied: Level, width: nat, height: nat, rate: real, bitrate: nat) returns (level: Level)
    requires Sized(width, height)
    requires 0 <= SamplesPerSecond(Samples(width, height), rate) < 0x1_0000_0000
    ensures level == HevcLevel(supplied, HevcLoad(width, height, rate, bitrate))
  {
    hide SamplesPerSecond, Chosen, HevcTable;
    var samples := width * height % 0x1_0000_0000;
    var samplesPerSec := SamplesPerSecond(samples, rate);
    level := Select(HevcTable(), supplied, false, Hevc(52), Load(samplesPerSec as real, samples, bitrate));
  }

  lemma {:induction false} HevcTop(level: Level)
    requires Rank(HevcTable(), level) < 13
    ensures Rank(HevcTable(), Hevc(52)) == 9
    ensures Rank(HevcTable(), level) > 9 <==> Number(level) > 52
  {
    var t := HevcTable();
    TablesAscend();
    assert t[9].level == Hevc(52);
    hide HevcRow, HevcTable, Within, Rank;
    RankAt(t, 9);
    var r := Rank(t, level);
    if r > 9 {
      assert Below(t[9], t[r]);
    } else if r < 9 {
      assert Below(t[r], t[9]);
    }
  }

  /** What the HEVC encoder takes for its highest level is not the highest of its table: a stream that no
      level covers gets 5.2, which lowers the supplied level exactly if that is above. */
  lemma {:induction false} HevcFallbackLowersIff(supplied: Level, d: Load)
    requires Rank(HevcTable(), supplied) < 13
    ensures Rank(HevcTable(), HevcLevel(supplied, d)) < Rank(HevcTable(), supplied)
            <==> !Covered(HevcTable(), d) && Number(supplied) > 52
  {
    var t := HevcTable();
    TablesAscend();
    HevcTop(supplied);
    hide HevcRow, HevcTable, Within, Ascending, Rank, Chosen;
    ChosenRank(t, supplied, false, Hevc(52), d);
    assert Covered(t, d) <==> Lowest(t, d) < |t|;
  }

  lemma {:induction false} HevcRate(k: nat)
    ensures HevcRow(k).load.perSecond <= 4278190080.0
  {
  }

  /** For instance: at 1920 by 1080 and 2065 pictures per second an encoder set to 6.2 is lowered to 5.2. */
  lemma {:induction false} HevcFallbackWitness()
    ensures HevcLevel(Hevc(62), HevcLoad(1920, 1080, 2065.0, 12000000)) == Hevc(52)
  {
    var t, d := HevcTable(), HevcLoad(1920, 1080, 2065.0, 12000000);
    assert Samples(1920, 1080) == 2073600;
    assert SamplesPerSecond(2073600, 2065.0) == 4281984000;
    assert d.perSecond == 4281984000.0;
    hide HevcRow, Samples, SamplesPerSecond, Rank, HevcLoad;
    var k := Lowest(t, d);
    HevcRate(k);
    hide HevcTable;
    assert k == |t|;
  }
}
