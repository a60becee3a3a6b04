/** Where the graphic blocks of the hardware video decoder go: those that the component holds have a picture
    that is still to be handed out, or wait to be given back after a flush. All others are with the decoder or
    the client. */
module HwVdecRecycling {
  import opened Options
  import opened HwVdec
  import opened HwVdecConservation
  import opened HwVdecBlocks
  import HwVdecEos

  // ---------- who holds a block ----------

  predicate HeldBy(owner: Owner, blocks: seq<Block>, id: int) {
    Known(blocks, id) && blocks[FindBlock(blocks, id)].owner == owner
  }

  predicate Held(blocks: seq<Block>, id: int) { HeldBy(Component, blocks, id) }

  predicate Waits(pictures: seq<Picture>, id: int) { exists i :: 0 <= i < |pictures| && pictures[i].block == id }

  /** A picture in that block is still to be handed out. */
  predicate Awaited(pictures: seq<Picture>, id: int) {
    exists i :: 0 <= i < |pictures| && pictures[i].block == id && !pictures[i].setOut
  }

  ghost predicate Recycled(p: Pics) {
    forall id :: Held(p.blocks, id) ==> Awaited(p.pictures, id) || id in p.reuse
  }

  /** While a change of format is pending the component keeps what comes back. */
  ghost predicate InOrder(s: State) { !s.mode.format ==> Recycled(s.pics) }

  lemma {:induction false} FindUpdated(blocks: seq<Block>, k: nat, b: Block, id: int)
    requires k < |blocks| && b.id == blocks[k].id
    ensures FindBlock(blocks[k := b], id) == FindBlock(blocks, id)
  {
    if k > 0 && blocks[0].id != id {
      assert blocks[k := b][1..] == blocks[1..][k - 1 := b];
      FindUpdated(blocks[1..], k - 1, b, id);
    } else if k == 0 {
      assert blocks[k := b][1..] == blocks[1..];
    }
  }

  /** A block changes hands; it is the first of its id, as it is whenever it was looked up. */
  lemma {:induction false} ChangesHands(blocks: seq<Block>, k: nat, b: Block, id: int)
    requires k < |blocks| && FindBlock(blocks, blocks[k].id) == k && b.id == blocks[k].id
    ensures Known(blocks[k := b], id) <==> Known(blocks, id)
    ensures Held(blocks[k := b], id) <==> if id == blocks[k].id then b.owner == Component else Held(blocks, id)
  {
    FindUpdated(blocks, k, b, id);
  }

  /** A block that the component no longer holds needs no picture. */
  lemma {:induction false} HandedOver(p: Pics, q: Pics, k: nat, b: Block)
    requires Recycled(p) && k < |p.blocks| && FindBlock(p.blocks, p.blocks[k].id) == k && b.id == p.blocks[k].id
    requires b.owner != Component && q.blocks == p.blocks[k := b] && q.reuse == p.reuse
    requires forall id :: id != b.id && Awaited(p.pictures, id) ==> Awaited(q.pictures, id)
    ensures Recycled(q)
  {
    forall id | Held(q.blocks, id)
      ensures Awaited(q.pictures, id) || id in q.reuse
    {
      ChangesHands(p.blocks, k, b, id);
    }
  }

  // ---------- handing pictures out ----------

  lemma {:induction false} PopAwaits(pictures: seq<Picture>, id: int)
    requires pictures != [] && Awaited(pictures, id) && (pictures[0].setOut || pictures[0].block != id)
    ensures Awaited(pictures[1..], id)
  {
    var i :| 0 <= i < |pictures| && pictures[i].block == id && !pictures[i].setOut;
    assert pictures[1..][i - 1] == pictures[i];
  }

  /** A picture that was handed out before is taken off. */
  lemma {:induction false} PopRecycles(p: Pics)
    requires Recycled(p) && p.pictures != [] && p.pictures[0].setOut
    ensures Recycled(p.(pictures := p.pictures[1..]))
  {
    forall id | Held(p.blocks, id)
      ensures Awaited(p.pictures[1..], id) || id in p.reuse
    {
      if Awaited(p.pictures, id) {
        PopAwaits(p.pictures, id);
      }
    }
  }

  /** The picture in front leaves with its block. */
  lemma {:induction false} FrontLeaves(p: Pics, q: Pics, k: nat, b: Block)
    requires Recycled(p) && p.pictures != [] && k == FindBlock(p.blocks, p.pictures[0].block) < |p.blocks|
    requires b.owner != Component && b.id == p.blocks[k].id && q.blocks == p.blocks[k := b] && q.reuse == p.reuse
    requires q.pictures == p.pictures[1..] || q.pictures == [p.pictures[0].(setOut := true)] + p.pictures[1..]
    ensures Recycled(q)
  {
    forall id | id != b.id && Awaited(p.pictures, id)
      ensures Awaited(q.pictures, id)
    {
      PopAwaits(p.pictures, id);
      var i :| 0 <= i < |p.pictures[1..]| && p.pictures[1..][i].block == id && !p.pictures[1..][i].setOut;
      var j := if q.pictures == p.pictures[1..] then i else i + 1;
      assert q.pictures[j] == p.pictures[1..][i];
    }
    HandedOver(p, q, k, b);
  }

  lemma {:induction false} HandBlockGives(kind: Kind, p: Pics, k: nat, block: int, bad: bool)
    requires k < |p.blocks|
    ensures var q := HandBlock(kind, p, k, block, bad).pics;
            && q.reuse == p.reuse && q.pictures == p.pictures
            && exists b: Block :: b.owner != Component && b.id == p.blocks[k].id && q.blocks == p.blocks[k := b]
  {
    var q := HandBlock(kind, p, k, block, bad).pics;
    assert q.blocks == p.blocks[k := q.blocks[k]];
  }

  lemma {:induction false} PlaceRecycles(kind: Kind, s: State, k: nat, j: nat)
    requires Recycled(s.pics) && s.pics.pictures != [] && j < |s.works.pending|
    requires k == FindBlock(s.pics.blocks, s.pics.pictures[0].block) < |s.pics.blocks|
    ensures Recycled(Place(kind, s, k, j).pics) && Place(kind, s, k, j).pics.pictures[0].setOut
  {
    var p, first := s.pics, s.pics.pictures[0];
    var q := Place(kind, s, k, j).pics;
    HandBlockGives(kind, p, k, first.block, first.bad);
    PlacePics(kind, s, k, j);
    var b: Block :| b.owner != Component && b.id == p.blocks[k].id
                    && HandBlock(kind, p, k, first.block, first.bad).pics.blocks == p.blocks[k := b];
    assert q.reuse == p.reuse;
    hide Place, HandBlock;
    FrontLeaves(p, q, k, b);
  }

  lemma {:induction false} CloneRecycles(kind: Kind, s: State, k: nat, last: Frame)
    requires Recycled(s.pics) && s.pics.pictures != []
    requires k == FindBlock(s.pics.blocks, s.pics.pictures[0].block) < |s.pics.blocks|
    ensures Recycled(Pop(Clone(kind, s, k, last)).pics)
  {
    var p, first := s.pics, s.pics.pictures[0];
    HandBlockGives(kind, p, k, first.block, first.bad);
    var b: Block :| b.owner != Component && b.id == p.blocks[k].id
                    && HandBlock(kind, p, k, first.block, first.bad).pics.blocks == p.blocks[k := b];
    var q := Pop(Clone(kind, s, k, last)).pics;
    assert q.blocks == p.blocks[k := b] && q.reuse == p.reuse && q.pictures == p.pictures[1..];
    hide Clone, HandBlock, Pop;
    FrontLeaves(p, q, k, b);
  }

  lemma {:induction false} ConfirmRecycles(s: State)
    requires Recycled(s.pics) && s.pics.pictures != [] && s.pics.pictures[0].setOut
    ensures Recycled(Confirm(s).s.pics)
  {
    ConfirmPics(s);
    PopRecycles(s.pics);
    hide Recycled, Confirm;
  }

  lemma {:induction false} FrontRecycles(kind: Kind, s: State, drop: bool)
    requires Recycled(s.pics) && s.pics.pictures != []
    ensures Recycled(Front(kind, s, drop).s.pics)
  {
    hide Recycled, Confirm, Place, Clone;
    var k := FindBlock(s.pics.blocks, s.pics.pictures[0].block);
    var j := Find(s.works.pending, s.pics.pictures[0].id);
    if k < |s.pics.blocks| && s.pics.blocks[k].owner != Accelerator {
      if j == |s.works.pending| {
        match s.memory.last
        case None =>
          var q := SetOwner(s.pics, k, Accelerator);
          FrontLeaves(s.pics, q.(pictures := q.pictures[1..]), k, s.pics.blocks[k].(owner := Accelerator));
        case Some(last) => CloneRecycles(kind, s, k, last);
      } else if s.works.pending[j].input != Buffer {
        if s.pics.pictures[0].setOut {
          ConfirmRecycles(s);
        } else {
          PlaceRecycles(kind, s, k, j);
          ConfirmRecycles(Place(kind, s, k, j));
        }
      }
    }
  }

  lemma {:induction false} SendPicturesRecycle(kind: Kind, s: State, drop: bool)
    requires Recycled(s.pics)
    ensures Recycled(SendPictures(kind, s, drop).0.pics)
    decreases |s.pics.pictures|
  {
    hide Recycled, Front;
    if s.pics.pictures != [] {
      FrontRecycles(kind, s, drop);
      match Front(kind, s, drop)
      case Halt(_, _) =>
      case Go(t) => SendPicturesRecycle(kind, t, drop);
    }
  }

  // ---------- the handlers ----------

  lemma {:induction false} AppendAwaits(pictures: seq<Picture>, p: Picture, id: int)
    ensures Awaited(pictures, id) ==> Awaited(pictures + [p], id)
    ensures !p.setOut ==> Awaited(pictures + [p], p.block)
  {
    if Awaited(pictures, id) {
      var i :| 0 <= i < |pictures| && pictures[i].block == id && !pictures[i].setOut;
      assert (pictures + [p])[i] == pictures[i];
    }
    assert (pictures + [p])[|pictures|] == p;
  }

  /** A picture that arrives waits in its block. */
  lemma {:induction false} KeepRecycles(s: State, k: nat, picture: Picture)
    requires Recycled(s.pics) && k == FindBlock(s.pics.blocks, picture.block) < |s.pics.blocks| && !picture.setOut
    ensures Recycled(Keep(s, k, picture).pics)
  {
    var p, q := s.pics, Keep(s, k, picture).pics;
    var b := if p.blocks[k].owner == Accelerator then p.blocks[k].(owner := Component) else p.blocks[k];
    assert q.blocks == p.blocks[k := b] && q.pictures == p.pictures + [picture] && q.reuse == p.reuse;
    hide Keep;
    forall id | Held(q.blocks, id)
      ensures Awaited(q.pictures, id) || id in q.reuse
    {
      ChangesHands(p.blocks, k, b, id);
      AppendAwaits(p.pictures, picture, id);
    }
  }

  lemma {:induction false} PictureRecycles(kind: Kind, s: State, block: int, id: int, bad: bool)
    requires InOrder(s)
    ensures InOrder(OnPicture(kind, s, block, id, bad))
  {
    var k := FindBlock(s.pics.blocks, block);
    var kept := Picture(id, block, bad, false);
    if !s.mode.format && k < |s.pics.blocks| {
      HandedOver(s.pics, SetOwner(s.pics, k, Accelerator), k, s.pics.blocks[k].(owner := Accelerator));
      KeepRecycles(s, k, kept);
      hide Recycled;
      SendPicturesRecycle(kind, Keep(s, k, kept), false);
      SendKeepsFormat(kind, Keep(s, k, kept), false);
    } else if k < |s.pics.blocks| {
      hide Recycled;
      SendKeepsFormat(kind, Keep(s, k, kept), false);
    }
  }

  lemma {:induction false} PlaceKeepsMode(kind: Kind, s: State, k: nat, j: nat)
    requires k < |s.pics.blocks| && s.pics.pictures != [] && j < |s.works.pending|
    ensures Place(kind, s, k, j).mode == s.mode
  {
  }

  lemma {:induction false} CloneKeepsMode(kind: Kind, s: State, k: nat, last: Frame)
    requires k < |s.pics.blocks| && s.pics.pictures != []
    ensures Clone(kind, s, k, last).mode == s.mode
  {
  }

  lemma {:induction false} FrontKeepsFormat(kind: Kind, s: State, drop: bool)
    requires s.pics.pictures != []
    ensures Front(kind, s, drop).s.mode.format == s.mode.format
  {
    hide Place, Clone;
    var k := FindBlock(s.pics.blocks, s.pics.pictures[0].block);
    var j := Find(s.works.pending, s.pics.pictures[0].id);
    if k < |s.pics.blocks| {
      if j < |s.works.pending| {
        PlaceKeepsMode(kind, s, k, j);
      } else if s.memory.last.Some? {
        CloneKeepsMode(kind, s, k, s.memory.last.value);
      }
    }
  }

  lemma {:induction false} SendKeepsFormat(kind: Kind, s: State, drop: bool)
    ensures SendPictures(kind, s, drop).0.mode.format == s.mode.format
    decreases |s.pics.pictures|
  {
    hide Front;
    if s.pics.pictures != [] {
      FrontKeepsFormat(kind, s, drop);
      match Front(kind, s, drop)
      case Halt(_, _) =>
      case Go(t) => SendKeepsFormat(kind, t, drop);
    }
  }

  /** A block that comes back goes on to the decoder if and only if no picture waits in it. */
  lemma {:induction false} ReturnGivesIff(s: State, k: nat)
    requires k < |s.pics.blocks| && FindBlock(s.pics.blocks, s.pics.blocks[k].id) == k && !s.mode.format
    ensures var id, t := s.pics.blocks[k].id, Return(s, k);
            && (HeldBy(Accelerator, t.pics.blocks, id) <==> !Waits(s.pics.pictures, id))
            && (Held(t.pics.blocks, id) <==> Waits(s.pics.pictures, id))
            && t == s.(pics := s.pics.(blocks := s.pics.blocks[k := t.pics.blocks[k]])) && t.pics.blocks[k].id == id
  {
    var b := Return(s, k).pics.blocks[k];
    ChangesHands(s.pics.blocks, k, b, b.id);
    FindUpdated(s.pics.blocks, k, b, b.id);
    assert Waits(s.pics.pictures, b.id) <==> exists i :: 0 <= i < |s.pics.pictures| && s.pics.pictures[i].block == b.id;
  }

  /** Handing pictures out leaves blocks alone in which none waits. */
  lemma {:induction false} FrontLeavesOthers(kind: Kind, s: State, drop: bool, id: int)
    requires s.pics.pictures != [] && !Waits(s.pics.pictures, id)
    ensures var t := Front(kind, s, drop).s.pics;
            && !Waits(t.pictures, id) && (Known(t.blocks, id) <==> Known(s.pics.blocks, id))
            && forall owner :: HeldBy(owner, t.blocks, id) <==> HeldBy(owner, s.pics.blocks, id)
  {
    var first := s.pics.pictures[0];
    var k := FindBlock(s.pics.blocks, first.block);
    var j := Find(s.works.pending, first.id);
    assert first.block != id && !Waits(s.pics.pictures[1..], id);
    hide Waits, HeldBy, Confirm, Place, Clone;
    if k < |s.pics.blocks| && s.pics.blocks[k].owner != Accelerator {
      if j == |s.works.pending| {
        match s.memory.last
        case None => OtherOwner(s.pics.blocks, k, s.pics.blocks[k].(owner := Accelerator), id);
        case Some(last) => CloneLeavesOthers(kind, s, k, last, id);
      } else if s.works.pending[j].input != Buffer {
        if first.setOut {
          ConfirmLeavesOthers(s, id);
        } else {
          PlaceLeavesOthers(kind, s, k, j, id);
          ConfirmLeavesOthers(Place(kind, s, k, j), id);
        }
      }
    }
  }

  lemma {:induction false} OtherOwner(blocks: seq<Block>, k: nat, b: Block, id: int)
    requires k < |blocks| && b.id == blocks[k].id != id
    ensures Known(blocks[k := b], id) <==> Known(blocks, id)
    ensures forall owner :: HeldBy(owner, blocks[k := b], id) <==> HeldBy(owner, blocks, id)
  {
    FindUpdated(blocks, k, b, id);
  }

  lemma {:induction false} ConfirmLeavesOthers(s: State, id: int)
    requires s.pics.pictures != [] && !Waits(s.pics.pictures, id)
    ensures var t := Confirm(s).s.pics; !Waits(t.pictures, id) && t.blocks == s.pics.blocks
  {
    ConfirmPics(s);
    hide Confirm;
    assert forall i :: 0 <= i < |s.pics.pictures[1..]| ==> s.pics.pictures[1..][i] == s.pics.pictures[i + 1];
  }

  lemma {:induction false} CloneLeavesOthers(kind: Kind, s: State, k: nat, last: Frame, id: int)
    requires s.pics.pictures != [] && k < |s.pics.blocks| && s.pics.blocks[k].id != id
    ensures var t := Clone(kind, s, k, last).pics;
            && t.pictures == s.pics.pictures && (Known(t.blocks, id) <==> Known(s.pics.blocks, id))
            && forall owner :: HeldBy(owner, t.blocks, id) <==> HeldBy(owner, s.pics.blocks, id)
  {
    var p, first := s.pics, s.pics.pictures[0];
    HandBlockGives(kind, p, k, first.block, first.bad);
    var b: Block :| b.owner != Component && b.id == p.blocks[k].id
                    && HandBlock(kind, p, k, first.block, first.bad).pics.blocks == p.blocks[k := b];
    OtherOwner(p.blocks, k, b, id);
  }

  lemma {:induction false} PlaceLeavesOthers(kind: Kind, s: State, k: nat, j: nat, id: int)
    requires s.pics.pictures != [] && j < |s.works.pending| && !Waits(s.pics.pictures, id)
    requires k < |s.pics.blocks| && s.pics.blocks[k].id != id
    ensures var t := Place(kind, s, k, j).pics;
            && !Waits(t.pictures, id) && (Known(t.blocks, id) <==> Known(s.pics.blocks, id))
            && forall owner :: HeldBy(owner, t.blocks, id) <==> HeldBy(owner, s.pics.blocks, id)
  {
    var p, first := s.pics, s.pics.pictures[0];
    HandBlockGives(kind, p, k, first.block, first.bad);
    PlacePics(kind, s, k, j);
    var b: Block :| b.owner != Component && b.id == p.blocks[k].id
                    && HandBlock(kind, p, k, first.block, first.bad).pics.blocks == p.blocks[k := b];
    OtherOwner(p.blocks, k, b, id);
  }

  lemma {:induction false} SendLeavesOthers(kind: Kind, s: State, drop: bool, id: int)
    requires !Waits(s.pics.pictures, id)
    ensures forall owner :: HeldBy(owner, SendPictures(kind, s, drop).0.pics.blocks, id)
                            <==> HeldBy(owner, s.pics.blocks, id)
    decreases |s.pics.pictures|
  {
    hide Front, HeldBy, Waits;
    if s.pics.pictures != [] {
      FrontLeavesOthers(kind, s, drop, id);
      match Front(kind, s, drop)
      case Halt(_, _) =>
      case Go(t) => SendLeavesOthers(kind, t, drop, id);
    }
  }

  /** So a block that the client gives back, with no error and no change of format pending, is with the decoder
      afterwards if no picture waits in it; otherwise the component holds it for those pictures. */
  lemma {:induction false} ReturnedGoesOn(kind: Kind, s: State, block: int, obsolete: bool, changed: bool, c: Change)
    requires Live(s.pics) && HeldBy(Client, s.pics.blocks, block) && !Shut(s.mode) && !obsolete && !s.mode.format
    ensures var t := Return(s, FindBlock(s.pics.blocks, block));
            var r := OnBlockReturned(kind, s, block, obsolete, changed, c);
            && r == SendPictures(kind, t, false).0 && t.pics.pictures == s.pics.pictures
            && (if Waits(s.pics.pictures, block) then Held(t.pics.blocks, block)
                else HeldBy(Accelerator, r.pics.blocks, block))
  {
    var k := FindBlock(s.pics.blocks, block);
    ReturnGivesIff(s, k);
    assert Bind(s, k) == s && Returned(s.pics.blocks, block) == k;
    var t := Return(s, k);
    hide Return, Returned, HeldBy, Waits;
    if !Waits(s.pics.pictures, block) {
      SendLeavesOthers(kind, t, false, block);
    }
  }

  lemma {:induction false} ReturnRecycles(s: State, k: nat)
    requires Recycled(s.pics) && !s.mode.format
    requires k < |s.pics.blocks| && FindBlock(s.pics.blocks, s.pics.blocks[k].id) == k
    requires Waits(s.pics.pictures, s.pics.blocks[k].id) ==> Awaited(s.pics.pictures, s.pics.blocks[k].id)
    ensures Recycled(Return(s, k).pics)
  {
    ReturnGivesIff(s, k);
    var t := Return(s, k);
    hide Return;
    forall id | Held(t.pics.blocks, id)
      ensures Awaited(t.pics.pictures, id) || id in t.pics.reuse
    {
      ChangesHands(s.pics.blocks, k, t.pics.blocks[k], id);
    }
  }

  /** A change of format that keeps the blocks, without a buffer queue to give them to. */
  predicate KeepsBlocks(kind: Kind, s: State, c: Change) { s.mode.hasBuffers && !kind.bufferQueue && !c.reallocate }

  lemma {:induction false} NoneHeld(p: Pics)
    requires forall i :: 0 <= i < |p.blocks| ==> p.blocks[i].owner != Component
    ensures Recycled(p)
  {
  }

  /** When a change of format comes to its end, the component holds no block. */
  lemma {:induction false} FormatRecycles(kind: Kind, s: State, c: Change)
    requires s.mode.format && !KeepsBlocks(kind, s, c)
    ensures InOrder(TryChangeFormat(kind, s, c))
  {
    var t := TryChangeFormat(kind, s, c);
    if !t.mode.format {
      NoneHeld(t.pics);
    }
  }

  lemma {:induction false} NewBlockRecycles(s: State, block: int, fits: bool, described: bool)
    requires InOrder(s)
    ensures InOrder(OnNewBlock(s, block, fits, described))
  {
    if !s.mode.format {
      var b := Block(block, Component, true, true);
      var p := if described then s.pics.(blocks := s.pics.blocks + [b]) else s.pics;
      var k := FindBlock(p.blocks, block);
      var q := if k < |p.blocks| then SetOwner(p, k, Accelerator) else p;
      forall id | Held(q.blocks, id)
        ensures Awaited(q.pictures, id) || id in q.reuse
      {
        if k < |p.blocks| {
          ChangesHands(p.blocks, k, p.blocks[k].(owner := Accelerator), id);
        }
        AppendKeepsFirst(s.pics.blocks, b, id);
      }
    }
  }

  lemma {:induction false} AppendKeepsFirst(blocks: seq<Block>, b: Block, id: int)
    requires id != b.id
    ensures Held(blocks + [b], id) <==> Held(blocks, id)
  {
    if blocks == [] {
      assert (blocks + [b])[1..] == [];
    } else {
      assert (blocks + [b])[1..] == blocks[1..] + [b];
      AppendKeepsFirst(blocks[1..], b, id);
    }
  }

  /** The blocks of the pictures that a flush threw away are given back. */
  lemma {:induction false} ReclaimGives(blocks: seq<Block>, ids: seq<int>, id: int)
    ensures Held(Reclaim(blocks, ids), id) <==> Held(blocks, id) && id !in ids
    decreases |ids|
  {
    if ids != [] {
      var k := FindBlock(blocks, ids[0]);
      var idle := k < |blocks| && blocks[k].owner == Component;
      var rest := if idle then blocks[k := blocks[k].(owner := Accelerator)] else blocks;
      if idle {
        ChangesHands(blocks, k, blocks[k].(owner := Accelerator), id);
      }
      ReclaimGives(rest, ids[1..], id);
      assert ids == [ids[0]] + ids[1..];
    }
  }

  lemma {:induction false} ReuseRecycles(s: State)
    requires InOrder(s)
    ensures InOrder(Reuse(s)) && Reuse(s).mode.format == s.mode.format
  {
    if !s.mode.format && s.mode.reuseDue && s.mode.hasBuffers {
      var q := Reuse(s).pics;
      forall id | Held(q.blocks, id)
        ensures Awaited(q.pictures, id) || id in q.reuse
      {
        ReclaimGives(s.pics.blocks, s.pics.reuse, id);
      }
    }
  }

  /** A block that is still to be given back after the flush before, and in which no picture waits now. */
  predicate Forgotten(p: Pics, id: int) { id in p.reuse && Held(p.blocks, id) && !Waits(p.pictures, id) }

  predicate Forgets(p: Pics) { exists i :: 0 <= i < |p.reuse| && Forgotten(p, p.reuse[i]) }

  lemma {:induction false} BlocksOfPictures(pictures: seq<Picture>, id: int)
    ensures id in BlocksOf(pictures) <==> Waits(pictures, id)
  {
    if pictures != [] {
      BlocksOfPictures(pictures[1..], id);
      if Waits(pictures[1..], id) {
        var i :| 0 <= i < |pictures[1..]| && pictures[1..][i].block == id;
        assert pictures[i + 1].block == id;
      }
      if Waits(pictures, id) && pictures[0].block != id {
        var i :| 0 <= i < |pictures| && pictures[i].block == id;
        assert pictures[1..][i - 1].block == id;
      }
    }
  }

  /** A flush keeps all this if and only if it forgets no block of the flush before. */
  lemma {:induction false} FlushRecyclesIff(s: State)
    requires Recycled(s.pics) && !Shut(s.mode)
    ensures Recycled(OnFlushDone(s).pics) <==> !Forgets(s.pics)
  {
    var p, q := s.pics, OnFlushDone(s).pics;
    assert q == p.(pictures := [], reuse := BlocksOf(p.pictures));
    hide OnFlushDone, BlocksOf;
    forall id
      ensures Forgotten(p, id) <==> Held(q.blocks, id) && id !in q.reuse
    {
      BlocksOfPictures(p.pictures, id);
      assert Awaited(p.pictures, id) ==> Waits(p.pictures, id);
    }
    assert forall id :: !Awaited(q.pictures, id);
    assert Forgets(p) <==> exists id :: Forgotten(p, id);
  }

  // ---------- every run ----------

  /** The events after which the component may hold a block that nothing will make it give up. */
  predicate Strands(kind: Kind, s: State, e: Event) {
    match e
    case BlockReturned(block, obsolete, _, change) =>
      && !Shut(s.mode) && !obsolete
      && if s.mode.format then KeepsBlocks(kind, s, change)
         else Waits(s.pics.pictures, block) && !Awaited(s.pics.pictures, block)
    case FormatChanged(change) => KeepsBlocks(kind, s, change)
    case ChangeFormat(change) => s.mode.format && KeepsBlocks(kind, s, change)
    case FlushOrStopDone => Completes(s, e) && Forgets(s.pics)
    case _ => false
  }

  lemma {:induction false} BlockReturnedRecycles(kind: Kind, s: State, block: int, obsolete: bool, changed: bool,
                                                 c: Change)
    requires InOrder(s) && Live(s.pics) && !Strands(kind, s, BlockReturned(block, obsolete, changed, c))
    ensures InOrder(OnBlockReturned(kind, s, block, obsolete, changed, c))
  {
    var k := Returned(s.pics.blocks, block);
    if !Shut(s.mode) && !obsolete && k < |s.pics.blocks| {
      assert Bind(s, k) == s && s.pics.blocks[k].id == block && FindBlock(s.pics.blocks, block) == k;
      var t := Return(s, k);
      assert t.mode == s.mode;
      if s.mode.format {
        hide Return, Returned, InOrder;
        FormatRecycles(kind, t, c);
      } else {
        ReturnRecycles(s, k);
        hide Return, Returned, Recycled;
        SendPicturesRecycle(kind, t, false);
        SendKeepsFormat(kind, t, false);
      }
    }
  }

  lemma {:induction false} FormatChangedRecycles(kind: Kind, s: State, c: Change)
    requires InOrder(s) && !s.mode.format && !KeepsBlocks(kind, s, c)
    ensures InOrder(OnFormatChanged(kind, s, c))
  {
    if !Shut(s.mode) {
      var t := s.(pics := s.pics.(blocks := PassAll(s.pics.blocks, Accelerator, Component)),
                  mode := s.mode.(format := true));
      hide TryChangeFormat, InOrder;
      FormatRecycles(kind, t, c);
    }
  }

  lemma {:induction false} DrainDoneRecycles(kind: Kind, s: State)
    requires InOrder(s)
    ensures InOrder(OnDrainDone(kind, s))
  {
    var t := s.(mode := if s.mode.phase == Draining then Enter(s.mode, Started) else s.mode);
    var u := SendPictures(kind, t, true).0;
    SendKeepsFormat(kind, t, true);
    if !s.mode.format {
      SendPicturesRecycle(kind, t, true);
    }
    hide Recycled, SendPictures;
    EosKeepsPics(s);
    EosKeepsPics(u);
    hide ReportEos;
  }

  lemma {:induction false} EosKeepsPics(s: State)
    ensures ReportEos(s).0.pics == s.pics && ReportEos(s).0.mode.format == s.mode.format
  {
  }

  lemma {:induction false} EndingRecycles(kind: Kind, s: State, e: Event)
    requires InOrder(s) && !Strands(kind, s, e) && (e.FlushOrStopDone? || e.StopRequest? || e.Destroy?)
    ensures InOrder(Handle(kind, s, e))
  {
    if Completes(s, e) {
      if !s.mode.format {
        FlushRecyclesIff(s);
      }
      assert Handle(kind, s, e) == OnFlushDone(s) && OnFlushDone(s).mode.format == s.mode.format;
    } else {
      var t := Handle(kind, s, e);
      assert t.pics.blocks == [] || (t.pics == s.pics && t.mode.format == s.mode.format);
      if t.pics.blocks == [] {
        NoneHeld(t.pics);
      }
      hide Recycled, Handle;
    }
  }

  /** Events that leave blocks and pictures alone leave a pending change of format alone too. */
  lemma {:induction false} QuietRecycles(kind: Kind, s: State, e: Event)
    requires InOrder(s) && NoPicture(e)
    ensures InOrder(Handle(kind, s, e))
  {
    NoPicturePics(kind, s, e);
    QuietKeepsFormat(kind, s, e);
    hide Handle, Recycled;
  }

  lemma {:induction false} QuietKeepsFormat(kind: Kind, s: State, e: Event)
    requires NoPicture(e)
    ensures Handle(kind, s, e).mode.format == s.mode.format
  {
    hide ReportNoOut, ReportEach, OnErrorFrame, OnInputDone;
    if e.NoOutFrames? {
      NoOutKeepsFormat(s);
    } else if e.NoShowFrames? {
      ReportEachKeepsFormat(s, s.memory.noShow);
    } else if e.ErrorFrame? {
      ErrorFrameKeepsFormat(s, e.id, e.tooMany);
    } else if e.InputDone? {
      InputDoneKeepsFormat(s, e.id);
    }
  }

  lemma {:induction false} ErrorFrameKeepsFormat(s: State, id: int, tooMany: bool)
    ensures OnErrorFrame(s, id, tooMany).mode.format == s.mode.format
  {
    hide Find;
  }

  lemma {:induction false} InputDoneKeepsFormat(s: State, id: int)
    ensures OnInputDone(s, id).mode.format == s.mode.format
  {
    hide Find;
  }

  lemma {:induction false} NoOutKeepsFormat(s: State)
    ensures ReportNoOut(s).mode.format == s.mode.format
    decreases |s.memory.noOut|
  {
    if s.memory.noOut != [] {
      var k := Find(s.works.pending, s.memory.noOut[0]);
      if k < |s.works.pending| && s.works.pending[k].input != Buffer {
        var t := ReportAt(s, k, s.works.pending[k].(result := Done));
        NoOutKeepsFormat(t.(memory := t.memory.(noOut := t.memory.noOut[1..])));
      }
    }
  }

  lemma {:induction false} ReportEachKeepsFormat(s: State, ids: seq<nat>)
    ensures ReportEach(s, ids).mode.format == s.mode.format
    decreases |ids|
  {
    if ids != [] {
      ReportEachKeepsFormat(ReportIfFinished(s, ids[0], false).0, ids[1..]);
    }
  }

  lemma {:induction false} DequeueRecycles(s: State, sent: bool)
    requires InOrder(s)
    ensures InOrder(OnDequeueWork(s, sent))
  {
    ReuseRecycles(s);
    if s.works.queue != [] {
      var t := TakeWork(Reuse(s), sent);
      assert t.pics == Reuse(s).pics && t.mode.format == s.mode.format;
      hide TakeWork, Reuse, Recycled;
    }
  }

  lemma {:induction false} EventRecycles(kind: Kind, s: State, e: Event)
    requires InOrder(s) && Live(s.pics) && !Strands(kind, s, e)
    ensures InOrder(Handle(kind, s, e))
  {
    hide Strands, Recycled, Live;
    match e
    case QueueWork(_) => ReuseRecycles(s);
    case DequeueWork(sent) => DequeueRecycles(s, sent);
    case PictureDone(block, id, bad) => PictureRecycles(kind, s, block, id, bad);
    case HandOutPictures => HandOutRecycles(kind, s);
    case BlockReturned(block, obsolete, changed, change) =>
      BlockReturnedRecycles(kind, s, block, obsolete, changed, change);
    case NewBlock(block, fits, described) => NewBlockRecycles(s, block, fits, described);
    case FormatChanged(change) => FormatEventRecycles(kind, s, e);
    case ChangeFormat(change) => FormatEventRecycles(kind, s, e);
    case DrainDone => DrainDoneRecycles(kind, s);
    case StopRequest => EndingRecycles(kind, s, e);
    case FlushOrStopDone => EndingRecycles(kind, s, e);
    case Destroy => EndingRecycles(kind, s, e);
    case _ => QuietRecycles(kind, s, e);
  }

  lemma {:induction false} HandOutRecycles(kind: Kind, s: State)
    requires InOrder(s)
    ensures InOrder(SendPictures(kind, s, false).0)
  {
    SendKeepsFormat(kind, s, false);
    if !s.mode.format {
      SendPicturesRecycle(kind, s, false);
    }
  }

  lemma {:induction false} FormatEventRecycles(kind: Kind, s: State, e: Event)
    requires InOrder(s) && !Strands(kind, s, e) && (e.FormatChanged? || e.ChangeFormat?)
    ensures InOrder(Handle(kind, s, e))
  {
    hide Recycled;
    if e.FormatChanged? {
      if !s.mode.format {
        FormatChangedRecycles(kind, s, e.change);
      }
    } else if s.mode.format {
      FormatRecycles(kind, s, e.change);
    }
  }

  predicate NoneStrands(kind: Kind, s: State, events: seq<Event>)
    decreases |events|
  {
    events == [] || (!Strands(kind, s, events[0]) && NoneStrands(kind, Handle(kind, s, events[0]), events[1..]))
  }

  lemma {:induction false} RunInOrder(kind: Kind, s: State, events: seq<Event>)
    requires InOrder(s) && Live(s.pics) && NoneStrands(kind, s, events)
    ensures InOrder(Run(kind, s, events))
    decreases |events|
  {
    hide Handle, InOrder, Live, Strands;
    if events != [] {
      EventRecycles(kind, s, events[0]);
      EventLive(kind, s, events[0]);
      RunInOrder(kind, Handle(kind, s, events[0]), events[1..]);
    }
  }

  /** In every run without such an event, while no change of format is pending: a block that the component holds
      has a picture that is still to be handed out, or is to be given back after a flush. So when no picture
      waits and nothing is to be given back, every block is with the decoder or the client. */
  lemma {:induction false} RunRecycles(kind: Kind, events: seq<Event>)
    requires NoneStrands(kind, Initial, events)
    ensures var s := Run(kind, Initial, events);
            !s.mode.format ==>
              && (forall id :: Held(s.pics.blocks, id) ==> Awaited(s.pics.pictures, id) || id in s.pics.reuse)
              && (s.pics.pictures == [] && s.pics.reuse == [] ==>
                    forall id :: Known(s.pics.blocks, id) ==>
                      HeldBy(Accelerator, s.pics.blocks, id) || HeldBy(Client, s.pics.blocks, id))
  {
    RunInOrder(kind, Initial, events);
    var p := Run(kind, Initial, events).pics;
    hide Run;
    assert forall id :: Known(p.blocks, id) ==>
      Held(p.blocks, id) || HeldBy(Accelerator, p.blocks, id) || HeldBy(Client, p.blocks, id);
  }

  // ---------- blocks that are forgotten ----------

  lemma {:induction false} FlushClears(kind: Kind, s: State)
    requires s.mode.phase == Started && !s.mode.error
    ensures var t := Handle(kind, Handle(kind, s, FlushRequest), FlushOrStopDone);
            && t.pics == s.pics.(pictures := [], reuse := BlocksOf(s.pics.pictures))
            && t.mode.phase == Started && !t.mode.error && t.mode.format == s.mode.format
  {
    hide Abandon, BlocksOf;
    var r := Handle(kind, s, FlushRequest);
    assert r.mode.phase == Flushing && !r.mode.error && r.pics == s.pics && r.mode.format == s.mode.format;
    assert Handle(kind, r, FlushOrStopDone) == OnFlushDone(r);
    hide Handle;
  }

  /** A component with one block. */
  function OneBlock(): seq<Event> { [Start(true)] + [FormatChanged(HwVdecEos.ONE_BLOCK)] }

  lemma {:induction false} OneBlockState(kind: Kind)
    ensures var s := Run(kind, Initial, OneBlock());
            && s.mode == Mode(Started, false, false, false, true, false) && s.memory == Initial.memory
            && s.pics == Pics([Block(0, Accelerator, true, true)], [], [], [], false) && s.works == Initial.works
  {
    RunAppend(kind, Initial, [], Start(true));
    assert [] + [Start(true)] == [Start(true)];
    RunAppend(kind, Initial, [Start(true)], FormatChanged(HwVdecEos.ONE_BLOCK));
    hide Run, Handle;
    HwVdecEos.FirstFormat(kind);
  }

  /** A work whose input is still being read when its picture comes. */
  function PictureComes(): seq<Event> {
    OneBlock() + [QueueWork(Fresh(0, 1, Buffer, false))] + [DequeueWork(true)] + [PictureDone(0, 1, false)]
  }

  lemma {:induction false} PictureWaits(kind: Kind)
    ensures var s := Run(kind, Initial, PictureComes());
            && s.mode.phase == Started && !s.mode.error && !s.mode.format
            && s.pics == Pics([Block(0, Component, true, true)], [Picture(1, 0, false, false)], [], [], false)
  {
    var w := Fresh(0, 1, Buffer, false);
    assert w.input == Buffer && !w.frame.eos && w.drain == NoDrain && BitstreamId(Taken(w)) == 1;
    hide Run, Handle, Fresh, BitstreamId, OneBlock;
    OneBlockState(kind);
    RunAppend(kind, Initial, OneBlock(), QueueWork(w));
    RunAppend(kind, Initial, OneBlock() + [QueueWork(w)], DequeueWork(true));
    RunAppend(kind, Initial, OneBlock() + [QueueWork(w)] + [DequeueWork(true)], PictureDone(0, 1, false));
    var s := Run(kind, Initial, OneBlock());
    WorkTaken(kind, s, w);
    PictureKept(kind, Handle(kind, Handle(kind, s, QueueWork(w)), DequeueWork(true)));
  }

  lemma {:induction false} WorkTaken(kind: Kind, s: State, w: Work)
    requires s.mode == Mode(Started, false, false, false, true, false) && s.works == Initial.works
    requires w.input == Buffer && !w.frame.eos && w.drain == NoDrain
    ensures var t := Handle(kind, Handle(kind, s, QueueWork(w)), DequeueWork(true));
            t.mode == s.mode && t.pics == s.pics && t.memory == s.memory && t.works.pending == [Taken(w)]
  {
    var q := Handle(kind, s, QueueWork(w));
    assert q.works.queue == [w.(drain := NoDrain)] && q.mode == s.mode && q.pics == s.pics;
    assert [] + [Taken(w.(drain := NoDrain))] == [Taken(w.(drain := NoDrain))];
  }

  lemma {:induction false} PictureKept(kind: Kind, s: State)
    requires s.mode == Mode(Started, false, false, false, true, false) && s.memory == Initial.memory
    requires |s.works.pending| == 1 && BitstreamId(s.works.pending[0]) == 1 && s.works.pending[0].input == Buffer
    requires s.pics == Pics([Block(0, Accelerator, true, true)], [], [], [], false)
    ensures var t := Handle(kind, s, PictureDone(0, 1, false));
            && t.mode == s.mode
            && t.pics == Pics([Block(0, Component, true, true)], [Picture(1, 0, false, false)], [], [], false)
  {
    hide HandBlock, MustWait, Confirm, Place;
    var p := Keep(s, 0, Picture(1, 0, false, false));
    assert FindBlock(s.pics.blocks, 0) == 0 && Find(s.works.pending, 1) == 0;
    assert p.pics == Pics([Block(0, Component, true, true)], [Picture(1, 0, false, false)], [], [], false);
    assert FindBlock(p.pics.blocks, 0) == 0 && p.works == s.works;
    assert Front(kind, p, false) == Halt(p, Fine);
    hide Front, Keep;
    assert SendPictures(kind, p, false) == (p, Fine);
  }

  /** For instance: two flushes complete before the next work comes; the block of the picture then stays with the
      component, and nothing will make it give it up. */
  lemma {:induction false} ForgottenWitness(kind: Kind)
    ensures var s := Run(kind, Initial, PictureComes());
            var t := Handle(kind, Handle(kind, s, FlushRequest), FlushOrStopDone);
            var u := Handle(kind, Handle(kind, t, FlushRequest), FlushOrStopDone);
            && t.pics.reuse == [0] && Recycled(t.pics)
            && u.pics == Pics([Block(0, Component, true, true)], [], [], [], false)
            && !u.mode.format && Held(u.pics.blocks, 0) && !Recycled(u.pics)
  {
    PictureWaits(kind);
    hide Run, PictureComes, Handle;
    var s := Run(kind, Initial, PictureComes());
    FlushClears(kind, s);
    var t := Handle(kind, Handle(kind, s, FlushRequest), FlushOrStopDone);
    FlushClears(kind, t);
    assert BlocksOf([Picture(1, 0, false, false)]) == [0] + BlocksOf([]);
    assert Held(t.pics.blocks, 0) && !Awaited([], 0);
  }
}
