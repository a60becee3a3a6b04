/** When the nested decode loops end, and what they offer to the AAC library. */
module AacLoops {
  import opened AdtsFraming
  import opened AacModel

  function Rounds(w: World, adts: bool, input: seq<Byte>, k: Walk, n: nat): (r: Walk)
    requires WalkOk(w, input, k)
    ensures WalkOk(w, input, r)
    decreases n
  {
    if n == 0 then k else Rounds(w, adts, input, Round(w, adts, input, k), n - 1)
  }

  ghost predicate Ends(w: World, adts: bool, input: seq<Byte>, k: Walk)
    requires WalkOk(w, input, k)
  {
    exists n: nat :: Ended(Rounds(w, adts, input, k, n))
  }

  lemma {:induction false} RoundsAdd(w: World, adts: bool, input: seq<Byte>, k: Walk, a: nat, b: nat)
    requires WalkOk(w, input, k)
    ensures Rounds(w, adts, input, Rounds(w, adts, input, k, a), b) == Rounds(w, adts, input, k, a + b)
    decreases a
  {
    if a > 0 {
      RoundsAdd(w, adts, input, Round(w, adts, input, k), a - 1, b);
    }
  }

  lemma {:induction false} EndIsFinal(w: World, adts: bool, input: seq<Byte>, k: Walk, n: nat)
    requires WalkOk(w, input, k) && Ended(k)
    ensures Rounds(w, adts, input, k, n) == k
    decreases n
  {
    if n > 0 {
      EndIsFinal(w, adts, input, k, n - 1);
    }
  }

  /** The library takes no byte and asks for more, and the ring has room for a frame. */
  predicate Stalled(w: World, adts: bool, k: Walk) {
    && !Ended(k) && !adts
    && w.ringSize - |k.core.line| >= k.core.frame
    && w.fill(k.core.clock) == 0 && w.decode(k.core.clock).NotEnoughBits?
  }

  /** A round fails or shortens what is left of the input, unless it stalls; a stalled round changes
      nothing but the number of calls made and the record of what was offered. */
  lemma {:induction false} RoundProgress(w: World, adts: bool, input: seq<Byte>, k: Walk)
    requires WalkOk(w, input, k) && !Ended(k)
    ensures var r := Round(w, adts, input, k);
            if Stalled(w, adts, k)
            then r == k.(core := k.core.(clock := k.core.clock + 1), offered := r.offered)
            else r.failed || r.size < k.size
  {
    if !adts {
      var used := Min(w.fill(k.core.clock), k.size);
      var b := DecodeFrames(w, k.core, k.sizes, k.size - used);
      assert Round(w, adts, input, k).size == if b.discard then 0 else k.size - used;
    } else {
      var h := ReadHeader(input[k.offset..]);
      if h.Good? {
        var r := OfferChunk(w, input, k.(offset := k.offset + h.headerSize, size := k.size - h.headerSize), h.payload);
        assert r.size <= k.size - h.headerSize;
      }
    }
  }

  /** ADTS input always comes to an end, whatever the library does. */
  lemma {:induction false} AdtsEnds(w: World, input: seq<Byte>, k: Walk)
    requires WalkOk(w, input, k)
    ensures Ended(Rounds(w, true, input, k, k.size))
    ensures Ends(w, true, input, k)
    decreases k.size
  {
    if Ended(k) {
      EndIsFinal(w, true, input, k, k.size);
    } else {
      var r := Round(w, true, input, k);
      RoundProgress(w, true, input, k);
      if Ended(r) {
        EndIsFinal(w, true, input, r, k.size - 1);
      } else {
        AdtsEnds(w, input, r);
        RoundsAdd(w, true, input, r, r.size, k.size - 1 - r.size);
        EndIsFinal(w, true, input, Rounds(w, true, input, r, r.size), k.size - 1 - r.size);
      }
    }
  }

  ghost predicate StallsFrom(w: World, adts: bool, input: seq<Byte>, k: Walk, n: nat)
    requires WalkOk(w, input, k)
  {
    forall m: nat :: m >= n ==> Stalled(w, adts, Rounds(w, adts, input, k, m))
  }

  /** Exactly when the outer loop ends: when the library does not stall for ever. */
  lemma {:induction false} EndsIffNoStallForEver(w: World, adts: bool, input: seq<Byte>, k: Walk)
    requires WalkOk(w, input, k)
    ensures Ends(w, adts, input, k) <==> !exists n: nat :: StallsFrom(w, adts, input, k, n)
  {
    if Ends(w, adts, input, k) {
      var a: nat :| Ended(Rounds(w, adts, input, k, a));
      forall n: nat
        ensures !StallsFrom(w, adts, input, k, n)
      {
        RoundsAdd(w, adts, input, k, a, n);
        EndIsFinal(w, adts, input, Rounds(w, adts, input, k, a), n);
        assert !Stalled(w, adts, Rounds(w, adts, input, k, a + n));
      }
    } else {
      var n := NeverEnds(w, adts, input, k);
    }
  }

  lemma {:induction false} NeverEnds(w: World, adts: bool, input: seq<Byte>, k: Walk) returns (n: nat)
    requires WalkOk(w, input, k) && !Ends(w, adts, input, k)
    ensures StallsFrom(w, adts, input, k, n)
    decreases k.size
  {
    hide Round, Rounds;
    if StallsFrom(w, adts, input, k, 0) {
      return 0;
    }
    var m: nat :| !Stalled(w, adts, Rounds(w, adts, input, k, m));
    var next := RealRound(w, adts, input, k, m);
    var n' := NeverEnds(w, adts, input, next);
    n := m + 1 + n';
    forall j: nat | j >= n
      ensures Stalled(w, adts, Rounds(w, adts, input, k, j))
    {
      RoundsAdd(w, adts, input, k, m + 1, j - m - 1);
    }
  }

  /** In a walk that never ends, a round that does not stall leaves a shorter such walk. */
  lemma {:induction false} RealRound(w: World, adts: bool, input: seq<Byte>, k: Walk, m: nat) returns (next: Walk)
    requires WalkOk(w, input, k) && !Ends(w, adts, input, k)
    requires !Stalled(w, adts, Rounds(w, adts, input, k, m))
    ensures next == Rounds(w, adts, input, k, m + 1)
    ensures WalkOk(w, input, next) && !Ends(w, adts, input, next) && next.size < k.size
  {
    hide Round, Stalled;
    var at := Rounds(w, adts, input, k, m);
    next := Round(w, adts, input, at);
    assert next == Rounds(w, adts, input, k, m + 1) by {
      RoundsAdd(w, adts, input, k, m, 1);
      assert Rounds(w, adts, input, at, 1) == Rounds(w, adts, input, next, 0);
    }
    assert at.size <= k.size && !Ended(at) by {
      RoundsShrink(w, adts, input, k, m);
    }
    RoundProgress(w, adts, input, at);
    assert !Ended(Rounds(w, adts, input, k, m + 1));
    forall j: nat
      ensures !Ended(Rounds(w, adts, input, next, j))
    {
      RoundsAdd(w, adts, input, k, m + 1, j);
    }
  }

  lemma {:induction false} RoundsShrink(w: World, adts: bool, input: seq<Byte>, k: Walk, n: nat)
    requires WalkOk(w, input, k) && !Ends(w, adts, input, k)
    ensures !Ended(Rounds(w, adts, input, k, n)) && Rounds(w, adts, input, k, n).size <= k.size
    decreases n
  {
    if n > 0 {
      assert !Ended(Rounds(w, adts, input, k, 0));
      RoundProgress(w, adts, input, k);
      var next := Round(w, adts, input, k);
      forall j: nat
        ensures !Ended(Rounds(w, adts, input, next, j))
      {
        assert Rounds(w, adts, input, next, j) == Rounds(w, adts, input, k, j + 1);
      }
      assert !Ended(Rounds(w, adts, input, next, 0));
      RoundsShrink(w, adts, input, next, n - 1);
    }
  }

  /** Again and again the library takes a byte, or yields a frame or an error. */
  ghost predicate Lively(w: World) {
    forall n: nat :: MovesFrom(w, n)
  }

  ghost predicate MovesFrom(w: World, n: nat) {
    exists m: nat :: m >= n && Moves(w, m)
  }

  predicate Moves(w: World, m: nat) { w.fill(m) > 0 || w.decode(m).Frame? }

  lemma {:induction false} StallsCount(w: World, adts: bool, input: seq<Byte>, k: Walk, n: nat, m: nat)
    requires WalkOk(w, input, k) && StallsFrom(w, adts, input, k, n) && m >= n
    ensures Rounds(w, adts, input, k, m).core.clock == Rounds(w, adts, input, k, n).core.clock + (m - n)
    decreases m
  {
    hide Round;
    if m > n {
      StallsCount(w, adts, input, k, n, m - 1);
      var at := Rounds(w, adts, input, k, m - 1);
      assert Stalled(w, adts, at);
      RoundsAdd(w, adts, input, k, m - 1, 1);
      assert Rounds(w, adts, input, k, m) == Rounds(w, adts, input, at, 1);
      assert Rounds(w, adts, input, at, 1) == Rounds(w, adts, input, Round(w, adts, input, at), 0);
      RoundProgress(w, adts, input, at);
    }
  }

  /** With such a library the loops end in any mode, on any input. */
  lemma {:induction false} LivelyEnds(w: World, adts: bool, input: seq<Byte>, k: Walk)
    requires WalkOk(w, input, k) && Lively(w)
    ensures Ends(w, adts, input, k)
  {
    forall n: nat
      ensures !StallsFrom(w, adts, input, k, n)
    {
      if StallsFrom(w, adts, input, k, n) {
        var start := Rounds(w, adts, input, k, n).core.clock;
        assert MovesFrom(w, start);
        var m: nat :| m >= start && Moves(w, m);
        StallsCount(w, adts, input, k, n, n + (m - start));
        assert false;
      }
    }
    EndsIffNoStallForEver(w, adts, input, k);
  }

  function Silent(ringSize: nat): World {
    World(ringSize, _ => 0, _ => NotEnoughBits, _ => [0], _ => true, _ => true, _ => true)
  }

  /** A library that never takes a byte and always asks for more keeps the loops from ending, with every ring
      that has room for a frame. */
  lemma {:induction false} StallWitness(ringSize: nat, c: Core, input: seq<Byte>)
    requires input != [] && |c.line| + c.frame <= ringSize
    ensures !Ends(Silent(ringSize), false, input, Start(c, input))
  {
    forall n: nat
      ensures !Ended(Rounds(Silent(ringSize), false, input, Start(c, input), n))
    {
      StallsOn(Silent(ringSize), input, Start(c, input), n);
    }
  }

  lemma {:induction false} StallsOn(w: World, input: seq<Byte>, k: Walk, n: nat)
    requires WalkOk(w, input, k) && !Ended(k) && w.ringSize - |k.core.line| >= k.core.frame
    requires forall t: nat :: w.fill(t) == 0 && w.decode(t) == NotEnoughBits
    ensures !Ended(Rounds(w, false, input, k, n))
    decreases n
  {
    if n > 0 {
      RoundProgress(w, false, input, k);
      StallsOn(w, input, Round(w, false, input, k), n - 1);
    }
  }

  // ---------- what is offered ----------

  /** The library takes every byte it is offered; no ADTS frame has as many as 0x2000. */
  ghost predicate Greedy(w: World) {
    forall t :: w.fill(t) >= 0x2000
  }

  function Prepend(a: seq<seq<Byte>>, p: Payloads): Payloads {
    match p
    case Broken => Broken
    case Whole(rest) => Whole(a + rest)
  }

  lemma {:induction false} RoundOffers(w: World, input: seq<Byte>, k: Walk)
    requires WalkOk(w, input, k) && Greedy(w) && k.offset <= |input|
    ensures var r := Round(w, true, input, k);
            && k.offset <= r.offset <= |input|
            && (Prepend(r.offered, Split(input[r.offset..])) == Prepend(k.offered, Split(input[k.offset..])))
  {
    var rest := input[k.offset..];
    var h := ReadHeader(rest);
    if !Ended(k) && h.Good? {
      var used := Min(w.fill(k.core.clock), h.payload);
      assert w.fill(k.core.clock) >= 0x2000;
      assert used == h.payload;
      var r := Round(w, true, input, k);
      assert r.offset == k.offset + h.headerSize + h.payload;
      assert rest[h.headerSize + h.payload..] == input[r.offset..];
      var chunk := input[k.offset + h.headerSize..r.offset];
      assert rest[h.headerSize..h.headerSize + h.payload] == chunk;
      assert r.offered == k.offered + [chunk];
      match Split(input[r.offset..]) {
        case Broken =>
        case Whole(more) => assert (k.offered + [chunk]) + more == k.offered + ([chunk] + more);
      }
    }
  }

  lemma {:induction false} RoundsOffer(w: World, input: seq<Byte>, k: Walk, n: nat)
    requires WalkOk(w, input, k) && Greedy(w) && k.offset <= |input|
    ensures var r := Rounds(w, true, input, k, n);
            && r.offset <= |input|
            && Prepend(r.offered, Split(input[r.offset..])) == Prepend(k.offered, Split(input[k.offset..]))
    decreases n
  {
    if n > 0 {
      RoundOffers(w, input, k);
      RoundsOffer(w, input, Round(w, true, input, k), n - 1);
    }
  }

  function Start(c: Core, input: seq<Byte>): Walk {
    Walk(c, 0, |input|, [], false, [])
  }

  /** When the whole of an ADTS input has been walked, the chunks offered to the library were exactly
      the payloads of its frames, each once and in order. */
  lemma {:induction false} OffersEveryPayload(w: World, c: Core, input: seq<Byte>, n: nat)
    requires |c.line| <= w.ringSize && Greedy(w)
    ensures var r := Rounds(w, true, input, Start(c, input), n);
            r.offset == |input| ==> Split(input) == Whole(r.offered)
  {
    RoundsOffer(w, input, Start(c, input), n);
    var r := Rounds(w, true, input, Start(c, input), n);
    assert input[0..] == input;
    match Split(input) {
      case Broken =>
      case Whole(all) => assert [] + all == all;
    }
    if r.offset == |input| {
      assert input[r.offset..] == [];
      assert r.offered + [] == r.offered;
    }
  }
}
