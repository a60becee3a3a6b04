/** Streams at the limits of the levels, and just past them, against Table A-1 of ITU-T H.264 and Tables A.8 and
    A.9 of ITU-T H.265 (main tier). */
module LevelSamples {
  import opened LevelSelection

  /** A stream for which a level covers and the one below does not gets that level. */
  lemma {:induction false} LowestIs(table: seq<Limit>, d: Load, k: nat)
    requires Ascending(table) && k < |table| && Within(d, table[k].load)
    requires k > 0 ==> !Within(d, table[k - 1].load)
    ensures Lowest(table, d) == k && Rank(table, table[k].level) == k
  {
    RankAt(table, k);
    assert k > 0 ==> forall i :: 0 <= i < k - 1 ==> Below(table[i], table[k - 1]);
  }

  /** The level that the AVC encoder set to 1 takes for a stream. */
  predicate Avcs(width: nat, height: nat, rate: real, bitrate: nat, tenths: nat) {
    AvcLevel(Avc(10), AvcLoad(width, height, rate, bitrate)) == Avc(tenths)
  }

  lemma {:induction false} AvcLoadOf(width: nat, height: nat, columns: nat, rows: nat, rate: real, bitrate: nat)
    requires columns == (width + 15) / 16 < 0x1000 && rows == (height + 15) / 16 < 0x1000
    ensures var mbs := columns * rows; AvcLoad(width, height, rate, bitrate) == Load(mbs as real * rate, mbs, bitrate)
  {
    assert Blocks(width) == columns && Blocks(height) == rows;
    hide Blocks;
  }

  lemma {:induction false} AvcGets(width: nat, height: nat, columns: nat, rows: nat, rate: real, bitrate: nat, k: nat)
    requires columns == (width + 15) / 16 < 0x1000 && rows == (height + 15) / 16 < 0x1000 && k < 14
    requires var mbs := columns * rows; var d := Load(mbs as real * rate, mbs, bitrate);
             Within(d, AvcRow(k).load) && (k > 0 ==> !Within(d, AvcRow(k - 1).load))
    ensures AvcRow(k).level.Avc? && Avcs(width, height, rate, bitrate, AvcRow(k).level.tenths)
  {
    var t, d := AvcTable(), AvcLoad(width, height, rate, bitrate);
    AvcLoadOf(width, height, columns, rows, rate, bitrate);
    TablesAscend();
    assert t[0].level == Avc(10) && AvcRow(k).level.Avc?;
    hide AvcLoad, AvcRow, AvcTable, Within, Ascending;
    LowestIs(t, d, k);
    RankAt(t, 0);
  }

  lemma {:induction false} AvcGetsPast(width: nat, height: nat, columns: nat, rows: nat, rate: real, bitrate: nat)
    requires columns == (width + 15) / 16 < 0x1000 && rows == (height + 15) / 16 < 0x1000
    requires var mbs := columns * rows; !Within(Load(mbs as real * rate, mbs, bitrate), AvcRow(13).load)
    ensures Avcs(width, height, rate, bitrate, 50)
  {
    var t, d := AvcTable(), AvcLoad(width, height, rate, bitrate);
    AvcLoadOf(width, height, columns, rows, rate, bitrate);
    TablesAscend();
    hide AvcLoad, AvcRow, Within;
    PastAll(t, d);
  }

  lemma {:induction false} PastAll(table: seq<Limit>, d: Load)
    requires Ascending(table) && table != [] && !Within(d, table[|table| - 1].load)
    ensures Lowest(table, d) == |table|
  {
    assert forall i :: 0 <= i < |table| - 1 ==> Below(table[i], table[|table| - 1]);
  }

  /** Up to 1.1. */
  lemma {:induction false} FirstAvc()
    ensures Avcs(176, 144, 15.0, 64000, 10)
    ensures Avcs(176, 144, 15.1, 64000, 11)
    ensures Avcs(176, 144, 15.0, 64001, 11)
    ensures Avcs(192, 144, 10.0, 64000, 11)
    ensures Avcs(352, 288, 7.5, 192000, 11)
    ensures Avcs(352, 288, 7.6, 192000, 12)
    ensures Avcs(352, 288, 7.5, 192001, 12)
  {
    hide Avcs;
    AvcGets(176, 144, 11, 9, 15.0, 64000, 0);
    AvcGets(176, 144, 11, 9, 15.1, 64000, 1);
    AvcGets(176, 144, 11, 9, 15.0, 64001, 1);
    AvcGets(192, 144, 12, 9, 10.0, 64000, 1);
    AvcGets(352, 288, 22, 18, 7.5, 192000, 1);
    AvcGets(352, 288, 22, 18, 7.6, 192000, 2);
    AvcGets(352, 288, 22, 18, 7.5, 192001, 2);
  }

  /** Up to 2, which adds nothing to 1.3 but bitrate. */
  lemma {:induction false} CifAvc()
    ensures Avcs(352, 288, 15.0, 384000, 12)
    ensures Avcs(352, 288, 15.2, 384000, 13)
    ensures Avcs(352, 288, 15.0, 384001, 13)
    ensures Avcs(352, 288, 30.0, 768000, 13)
    ensures Avcs(352, 288, 30.0, 768001, 20)
    ensures Avcs(352, 288, 30.0, 2000000, 20)
    ensures Avcs(352, 288, 30.1, 768000, 21)
    ensures Avcs(352, 288, 30.0, 2000001, 21)
  {
    hide Avcs;
    AvcGets(352, 288, 22, 18, 15.0, 384000, 2);
    AvcGets(352, 288, 22, 18, 15.2, 384000, 3);
    AvcGets(352, 288, 22, 18, 15.0, 384001, 3);
    AvcGets(352, 288, 22, 18, 30.0, 768000, 3);
    AvcGets(352, 288, 22, 18, 30.0, 768001, 4);
    AvcGets(352, 288, 22, 18, 30.0, 2000000, 4);
    AvcGets(352, 288, 22, 18, 30.1, 768000, 5);
    AvcGets(352, 288, 22, 18, 30.0, 2000001, 5);
  }

  /** Up to 3. */
  lemma {:induction false} SdAvc()
    ensures Avcs(352, 576, 25.0, 4000000, 21)
    ensures Avcs(352, 576, 25.1, 4000000, 22)
    ensures Avcs(720, 288, 24.0, 4000000, 22)
    ensures Avcs(368, 576, 20.0, 4000000, 22)
    ensures Avcs(720, 576, 12.5, 4000000, 22)
    ensures Avcs(720, 576, 12.6, 4000000, 30)
    ensures Avcs(720, 576, 12.5, 4000001, 30)
    ensures Avcs(720, 576, 25.0, 10000000, 30)
  {
    hide Avcs;
    AvcGets(352, 576, 22, 36, 25.0, 4000000, 5);
    AvcGets(352, 576, 22, 36, 25.1, 4000000, 6);
    AvcGets(720, 288, 45, 18, 24.0, 4000000, 6);
    AvcGets(368, 576, 23, 36, 20.0, 4000000, 6);
    AvcGets(720, 576, 45, 36, 12.5, 4000000, 6);
    AvcGets(720, 576, 45, 36, 12.6, 4000000, 7);
    AvcGets(720, 576, 45, 36, 12.5, 4000001, 7);
    AvcGets(720, 576, 45, 36, 25.0, 10000000, 7);
  }

  /** Up to 3.2. */
  lemma {:induction false} HdAvc()
    ensures Avcs(720, 576, 25.1, 10000000, 31)
    ensures Avcs(720, 576, 25.0, 10000001, 31)
    ensures Avcs(736, 576, 20.0, 10000000, 31)
    ensures Avcs(1280, 720, 30.0, 14000000, 31)
    ensures Avcs(1280, 720, 30.1, 14000000, 32)
    ensures Avcs(1280, 720, 30.0, 14000001, 32)
    ensures Avcs(1296, 720, 25.0, 14000000, 32)
    ensures Avcs(1280, 1024, 42.1, 20000000, 32)
  {
    hide Avcs;
    AvcGets(720, 576, 45, 36, 25.1, 10000000, 8);
    AvcGets(720, 576, 45, 36, 25.0, 10000001, 8);
    AvcGets(736, 576, 46, 36, 20.0, 10000000, 8);
    AvcGets(1280, 720, 80, 45, 30.0, 14000000, 8);
    AvcGets(1280, 720, 80, 45, 30.1, 14000000, 9);
    AvcGets(1280, 720, 80, 45, 30.0, 14000001, 9);
    AvcGets(1296, 720, 81, 45, 25.0, 14000000, 9);
    AvcGets(1280, 1024, 80, 64, 42.1, 20000000, 9);
  }

  /** Up to 4.1. */
  lemma {:induction false} FullHdAvc()
    ensures Avcs(1280, 1024, 42.2, 20000000, 40)
    ensures Avcs(1296, 1024, 40.0, 20000000, 40)
    ensures Avcs(1920, 1080, 30.0, 20000000, 40)
    ensures Avcs(2048, 1024, 30.0, 20000000, 40)
    ensures Avcs(2048, 1024, 30.0, 20000001, 41)
    ensures Avcs(2048, 1024, 30.0, 50000000, 41)
    ensures Avcs(2048, 1024, 30.1, 20000000, 42)
    ensures Avcs(2048, 1040, 20.0, 20000000, 42)
  {
    hide Avcs;
    AvcGets(1280, 1024, 80, 64, 42.2, 20000000, 10);
    AvcGets(1296, 1024, 81, 64, 40.0, 20000000, 10);
    AvcGets(1920, 1080, 120, 68, 30.0, 20000000, 10);
    AvcGets(2048, 1024, 128, 64, 30.0, 20000000, 10);
    AvcGets(2048, 1024, 128, 64, 30.0, 20000001, 11);
    AvcGets(2048, 1024, 128, 64, 30.0, 50000000, 11);
    AvcGets(2048, 1024, 128, 64, 30.1, 20000000, 12);
    AvcGets(2048, 1040, 128, 65, 20.0, 20000000, 12);
  }

  /** Up to 5, which a stream that no level covers gets as well. */
  lemma {:induction false} LargeAvc()
    ensures Avcs(2048, 1088, 60.0, 50000000, 42)
    ensures Avcs(2048, 1088, 60.1, 50000000, 50)
    ensures Avcs(2048, 1088, 60.0, 50000001, 50)
    ensures Avcs(2064, 1088, 30.0, 50000000, 50)
    ensures Avcs(3680, 1536, 26.7, 135000000, 50)
    ensures Avcs(3680, 1536, 26.8, 50000000, 50)
    ensures Avcs(3680, 1536, 26.0, 135000001, 50)
    ensures Avcs(3696, 1536, 20.0, 50000000, 50)
  {
    hide Avcs;
    AvcGets(2048, 1088, 128, 68, 60.0, 50000000, 12);
    AvcGets(2048, 1088, 128, 68, 60.1, 50000000, 13);
    AvcGets(2048, 1088, 128, 68, 60.0, 50000001, 13);
    AvcGets(2064, 1088, 129, 68, 30.0, 50000000, 13);
    AvcGets(3680, 1536, 230, 96, 26.7, 135000000, 13);
    AvcGetsPast(3680, 1536, 230, 96, 26.8, 50000000);
    AvcGetsPast(3680, 1536, 230, 96, 26.0, 135000001);
    AvcGetsPast(3696, 1536, 231, 96, 20.0, 50000000);
  }

  /** The level that the HEVC encoder set to 1 takes for a stream. */
  predicate Hevcs(width: nat, height: nat, rate: real, bitrate: nat, tenths: nat) {
    HevcLevel(Hevc(10), HevcLoad(width, height, rate, bitrate)) == Hevc(tenths)
  }

  lemma {:induction false} HevcGets(width: nat, height: nat, rate: real, bitrate: nat, k: nat)
    requires k < 13
    requires var d := HevcLoad(width, height, rate, bitrate);
             Within(d, HevcRow(k).load) && (k > 0 ==> !Within(d, HevcRow(k - 1).load))
    ensures HevcRow(k).level.Hevc? && Hevcs(width, height, rate, bitrate, HevcRow(k).level.tenths)
  {
    var t, d := HevcTable(), HevcLoad(width, height, rate, bitrate);
    TablesAscend();
    assert t[0].level == Hevc(10) && HevcRow(k).level.Hevc?;
    hide HevcLoad, HevcRow, HevcTable, Within, Ascending;
    LowestIs(t, d, k);
    RankAt(t, 0);
  }

  /** Up to 2; rates of samples are cut to whole numbers. */
  lemma {:induction false} SmallHevc()
    ensures Hevcs(192, 192, 15.0, 128000, 10)
    ensures Hevcs(192, 192, 15.00001, 128000, 10)
    ensures Hevcs(192, 192, 15.1, 128000, 20)
    ensures Hevcs(192, 192, 15.0, 128001, 20)
    ensures Hevcs(194, 192, 10.0, 128000, 20)
    ensures Hevcs(384, 320, 30.0, 1500000, 20)
  {
    hide Hevcs;
    HevcGets(192, 192, 15.0, 128000, 0);
    HevcGets(192, 192, 15.00001, 128000, 0);
    HevcGets(192, 192, 15.1, 128000, 1);
    HevcGets(192, 192, 15.0, 128001, 1);
    HevcGets(194, 192, 10.0, 128000, 1);
    HevcGets(384, 320, 30.0, 1500000, 1);
  }

  /** Up to 3. */
  lemma {:induction false} SdHevc()
    ensures Hevcs(384, 320, 30.1, 1500000, 21)
    ensures Hevcs(384, 320, 30.0, 1500001, 21)
    ensures Hevcs(386, 320, 20.0, 1500000, 21)
    ensures Hevcs(512, 480, 30.0, 3000000, 21)
    ensures Hevcs(512, 480, 30.1, 3000000, 30)
    ensures Hevcs(512, 480, 30.0, 3000001, 30)
    ensures Hevcs(514, 480, 20.0, 3000000, 30)
    ensures Hevcs(768, 720, 30.0, 6000000, 30)
  {
    hide Hevcs;
    HevcGets(384, 320, 30.1, 1500000, 2);
    HevcGets(384, 320, 30.0, 1500001, 2);
    HevcGets(386, 320, 20.0, 1500000, 2);
    HevcGets(512, 480, 30.0, 3000000, 2);
    HevcGets(512, 480, 30.1, 3000000, 3);
    HevcGets(512, 480, 30.0, 3000001, 3);
    HevcGets(514, 480, 20.0, 3000000, 3);
    HevcGets(768, 720, 30.0, 6000000, 3);
  }

  /** Up to 4. */
  lemma {:induction false} HdHevc()
    ensures Hevcs(768, 720, 30.1, 6000000, 31)
    ensures Hevcs(768, 720, 30.0, 6000001, 31)
    ensures Hevcs(770, 720, 20.0, 6000000, 31)
    ensures Hevcs(1024, 960, 33.75, 10000000, 31)
    ensures Hevcs(1024, 960, 33.8, 10000000, 40)
    ensures Hevcs(1024, 960, 33.75, 10000001, 40)
    ensures Hevcs(1026, 960, 20.0, 10000000, 40)
    ensures Hevcs(2048, 1088, 30.0, 12000000, 40)
  {
    hide Hevcs;
    HevcGets(768, 720, 30.1, 6000000, 4);
    HevcGets(768, 720, 30.0, 6000001, 4);
    HevcGets(770, 720, 20.0, 6000000, 4);
    HevcGets(1024, 960, 33.75, 10000000, 4);
    HevcGets(1024, 960, 33.8, 10000000, 5);
    HevcGets(1024, 960, 33.75, 10000001, 5);
    HevcGets(1026, 960, 20.0, 10000000, 5);
    HevcGets(2048, 1088, 30.0, 12000000, 5);
  }

  /** Up to 5. */
  lemma {:induction false} FullHdHevc()
    ensures Hevcs(2048, 1088, 30.1, 12000000, 41)
    ensures Hevcs(2048, 1088, 30.0, 12000001, 41)
    ensures Hevcs(2048, 1088, 60.0, 20000000, 41)
    ensures Hevcs(2048, 1088, 60.1, 20000000, 50)
    ensures Hevcs(2048, 1088, 60.0, 20000001, 50)
    ensures Hevcs(2050, 1088, 30.0, 20000000, 50)
    ensures Hevcs(4096, 2176, 30.0, 25000000, 50)
  {
    hide Hevcs;
    HevcGets(2048, 1088, 30.1, 12000000, 6);
    HevcGets(2048, 1088, 30.0, 12000001, 6);
    HevcGets(2048, 1088, 60.0, 20000000, 6);
    HevcGets(2048, 1088, 60.1, 20000000, 7);
    HevcGets(2048, 1088, 60.0, 20000001, 7);
    HevcGets(2050, 1088, 30.0, 20000000, 7);
    HevcGets(4096, 2176, 30.0, 25000000, 7);
  }

  /** Up to 5.2. */
  lemma {:induction false} LargeHevc()
    ensures Hevcs(4096, 2176, 30.1, 25000000, 51)
    ensures Hevcs(4096, 2176, 30.0, 25000001, 51)
    ensures Hevcs(4096, 2176, 60.0, 40000000, 51)
    ensures Hevcs(4096, 2176, 60.1, 40000000, 52)
    ensures Hevcs(4096, 2176, 60.0, 40000001, 52)
    ensures Hevcs(4096, 2176, 120.0, 60000000, 52)
  {
    hide Hevcs;
    HevcGets(4096, 2176, 30.1, 25000000, 8);
    HevcGets(4096, 2176, 30.0, 25000001, 8);
    HevcGets(4096, 2176, 60.0, 40000000, 8);
    HevcGets(4096, 2176, 60.1, 40000000, 9);
    HevcGets(4096, 2176, 60.0, 40000001, 9);
    HevcGets(4096, 2176, 120.0, 60000000, 9);
  }

  /** Up to 6.2. */
  lemma {:induction false} HugeHevc()
    ensures Hevcs(4098, 2176, 60.0, 60000000, 60)
    ensures Hevcs(8192, 4352, 30.0, 60000000, 60)
    ensures Hevcs(8192, 4352, 30.1, 60000000, 61)
    ensures Hevcs(8192, 4352, 30.0, 60000001, 61)
    ensures Hevcs(8192, 4352, 60.0, 120000000, 61)
    ensures Hevcs(8192, 4352, 60.1, 120000000, 62)
    ensures Hevcs(8192, 4352, 60.0, 120000001, 62)
    ensures Hevcs(8192, 4352, 120.0, 240000000, 62)
  {
    hide Hevcs;
    HevcGets(4098, 2176, 60.0, 60000000, 10);
    HevcGets(8192, 4352, 30.0, 60000000, 10);
    HevcGets(8192, 4352, 30.1, 60000000, 11);
    HevcGets(8192, 4352, 30.0, 60000001, 11);
    HevcGets(8192, 4352, 60.0, 120000000, 11);
    HevcGets(8192, 4352, 60.1, 120000000, 12);
    HevcGets(8192, 4352, 60.0, 120000001, 12);
    HevcGets(8192, 4352, 120.0, 240000000, 12);
  }

  lemma {:induction false} HevcGetsPast(width: nat, height: nat, rate: real, bitrate: nat)
    requires !Within(HevcLoad(width, height, rate, bitrate), HevcRow(12).load)
    ensures Hevcs(width, height, rate, bitrate, 52)
  {
    var t, d := HevcTable(), HevcLoad(width, height, rate, bitrate);
    TablesAscend();
    hide HevcLoad, HevcRow, Within;
    PastAll(t, d);
  }

  /** A stream past 6.2 gets 5.2. */
  lemma {:induction false} PastHevc()
    ensures Hevcs(8192, 4352, 120.1, 240000000, 52) && Hevcs(8192, 4352, 120.0, 240000001, 52)
    ensures Hevcs(8194, 4352, 60.0, 240000000, 52)
  {
    hide Hevcs;
    HevcGetsPast(8192, 4352, 120.1, 240000000);
    HevcGetsPast(8192, 4352, 120.0, 240000001);
    HevcGetsPast(8194, 4352, 60.0, 240000000);
  }
}
