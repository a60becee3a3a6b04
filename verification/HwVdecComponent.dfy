/** The hardware video decoder as the object it is: containers and blocks updated in place by the
    handlers of its thread, each proved against its function in `HwVdec`. Its many fields are grouped into five
    records. */
module HwVdecComponent {
  import opened Options
  import opened HwVdec
  import opened HwVdecBlocks
  import opened HwVdecConservation
  import opened HwVdecReports
  import opened HwVdecEndings

  // ---------- loops over values ----------

  method AbandonAll(ws: seq<Work>) returns (r: seq<Work>)
    ensures r == Abandon(ws)
  {
    r := [];
    while |r| < |ws|
      invariant |r| <= |ws| && forall i :: 0 <= i < |r| ==> r[i] == Abandoned(ws[i])
      decreases |ws| - |r|
    {
      r := r + [Abandoned(ws[|r|])];
    }
  }

  method MarkAll(ws: seq<Work>, current: Frame) returns (r: seq<Work>, ids: seq<nat>)
    ensures r == MarkNoShow(ws, current) && ids == NoShowIds(ws, current)
  {
    hide MarkNoShow, NoShowIds, NoShow;
    r, ids := [], [];
    var i := 0;
    while i < |ws|
      invariant i == |r| <= |ws| && r == MarkNoShow(ws, current)[..i]
      invariant ids + NoShowIds(ws[i..], current) == NoShowIds(ws, current)
    {
      assert ws[i..][1..] == ws[i + 1..];
      FirstNoShow(ws[i..], current);
      MarkedPrefix(ws, current, i);
      var w := ws[i];
      if NoShow(w, current) {
        ids := ids + [BitstreamId(w)];
        w := w.(out := w.out.(drop := true));
      }
      r := r + [w];
      i := i + 1;
    }
    FirstNoShow(ws[i..], current);
  }

  lemma {:induction false} FirstNoShow(ws: seq<Work>, current: Frame)
    ensures NoShowIds(ws, current)
         == if ws == [] then []
            else (if NoShow(ws[0], current) then [BitstreamId(ws[0])] else []) + NoShowIds(ws[1..], current)
  {
  }

  lemma {:induction false} MarkedPrefix(ws: seq<Work>, current: Frame, i: nat)
    requires i < |ws|
    ensures var w := if NoShow(ws[i], current) then ws[i].(out := ws[i].out.(drop := true)) else ws[i];
            MarkNoShow(ws, current)[..i + 1] == MarkNoShow(ws, current)[..i] + [w]
  {
  }

  method PassBlocks(blocks: seq<Block>, from: Owner, to: Owner) returns (r: seq<Block>)
    ensures r == PassAll(blocks, from, to)
  {
    r := [];
    while |r| < |blocks|
      invariant |r| <= |blocks| && forall i :: 0 <= i < |r| ==> r[i] == Passed(blocks[i], from, to)
      decreases |blocks| - |r|
    {
      var b := blocks[|r|];
      r := r + [if b.owner == from then b.(owner := to) else b];
    }
  }

  method FetchAll(ids: seq<int>) returns (r: seq<Block>)
    ensures r == Fetched(ids)
  {
    r := [];
    while |r| < |ids|
      invariant |r| <= |ids| && forall i :: 0 <= i < |r| ==> r[i] == Block(ids[i], Accelerator, true, true)
      decreases |ids| - |r|
    {
      r := r + [Block(ids[|r|], Accelerator, true, true)];
    }
  }

  /** Every work taken over is accounted for, and every waiting picture is in a block that is known. */
  ghost predicate Sound(s: State) { Conserved(s) && Live(s.pics) }

  lemma {:induction false} EventSound(kind: Kind, s: State, e: Event)
    requires Sound(s)
    ensures Sound(Handle(kind, s, e))
  {
    var t := Handle(kind, s, e);
    EventLive(kind, s, e);
    hide Handle;
    forall id: nat
      ensures Count(t.log.accepted, id) == InHands(t.works, id) + Left(t.log, id)
    {
      EventKeeps(kind, s, e, id);
      assert Debt(s, id) == 0;
    }
  }

  lemma {:induction false} FirstBlock(before: seq<int>, pictures: seq<Picture>)
    ensures before + BlocksOf(pictures)
         == if pictures == [] then before else (before + [pictures[0].block]) + BlocksOf(pictures[1..])
  {
  }

  class Component {
    const kind: Kind
    var works: Works
    var log: Log
    var pics: Pics
    var mode: Mode
    var memory: Memory

    ghost function State(): State
      reads this
    {
      HwVdec.State(works, log, pics, mode, memory)
    }

    /** What every handler keeps. */
    ghost predicate Valid()
      reads this
    {
      Sound(State())
    }

    constructor (kind: Kind)
      ensures State() == Initial
      ensures Valid()
    {
      this.kind := kind;
      works, log, pics, mode, memory := Initial.works, Initial.log, Initial.pics, Initial.mode, Initial.memory;
    }

    // ---------- helpers ----------

    method FindPendingWork(id: int) returns (k: nat)
      ensures k == Find(works.pending, id)
    {
      k := 0;
      while k < |works.pending| && BitstreamId(works.pending[k]) != id
        invariant k <= |works.pending|
        invariant Find(works.pending, id) == k + Find(works.pending[k..], id)
      {
        assert works.pending[k..][1..] == works.pending[k + 1..];
        k := k + 1;
      }
    }

    method FindGraphicBlock(id: int) returns (k: nat)
      ensures k == FindBlock(pics.blocks, id)
    {
      k := 0;
      while k < |pics.blocks| && pics.blocks[k].id != id
        invariant k <= |pics.blocks|
        invariant FindBlock(pics.blocks, id) == k + FindBlock(pics.blocks[k..], id)
      {
        assert pics.blocks[k..][1..] == pics.blocks[k + 1..];
        k := k + 1;
      }
    }

    method FindUnboundBlock() returns (k: nat)
      ensures k == FindUnbound(pics.blocks)
    {
      k := 0;
      while k < |pics.blocks| && pics.blocks[k].bound
        invariant k <= |pics.blocks|
        invariant FindUnbound(pics.blocks) == k + FindUnbound(pics.blocks[k..])
      {
        assert pics.blocks[k..][1..] == pics.blocks[k + 1..];
        k := k + 1;
      }
    }

    method SetPendingWork(k: nat, w: Work)
      requires k < |works.pending|
      modifies this`works
      ensures works == old(works).(pending := old(works).pending[k := w])
    {
      works := works.(pending := works.pending[k := w]);
    }

    method PopPicture()
      requires pics.pictures != []
      modifies this`pics
      ensures State() == Pop(old(State()))
    {
      pics := pics.(pictures := pics.pictures[1..]);
    }

    // ---------- reporting ----------

    method ReportPendingAt(k: nat, w: Work)
      requires k < |works.pending|
      modifies this`works, this`log
      ensures State() == ReportAt(old(State()), k, w)
    {
      log := log.(reported := log.reported + [w]);
      works := works.(pending := works.pending[..k] + works.pending[k + 1..]);
    }

    method ReportWorkIfFinished(id: int, empty: bool) returns (ok: bool)
      modifies this`works, this`log, this`mode
      ensures (State(), ok) == ReportIfFinished(old(State()), id, empty)
    {
      var k := FindPendingWork(id);
      if k == |works.pending| {
        mode := Fail(mode);
        return true;
      }
      ok := empty || WorkDone(works.pending[k], mode.pendingEos, |works.pending|);
      if ok {
        ReportPendingAt(k, Finished(works.pending[k]));
      }
    }

    method ReportAbandonedWorks()
      modifies this`works, this`log, this`mode
      ensures State() == ReportAbandoned(old(State()))
    {
      var first := AbandonAll(works.pending);
      var second := AbandonAll(works.abandoned);
      works, mode := works.(pending := [], abandoned := []), mode.(pendingEos := false);
      log := log.(reported := log.reported + (first + second));
    }

    method ReportEosWork() returns (ok: bool)
      modifies this`works, this`log, this`mode
      ensures (State(), ok) == ReportEos(old(State()))
    {
      var n := |works.pending| - 1;
      if works.pending == [] {
        mode := Fail(mode);
        return false;
      }
      var eosWork := EosWork(works.pending[n]);
      works, mode := works.(pending := works.pending[..n]), mode.(pendingEos := false);
      if works.pending != [] {
        ReportAbandonedWorks();
      }
      log := log.(reported := log.reported + [eosWork]);
      ok := true;
    }

    // ---------- pictures to works ----------

    method DetectNoShowFrames(current: Frame)
      modifies this`works, this`memory
      ensures State() == DetectNoShow(old(State()), current)
    {
      var pending, ids := MarkAll(works.pending, current);
      works := works.(pending := pending);
      memory := memory.(noShow := memory.noShow + ids);
    }

    method HandGraphicBlock(k: nat, block: int, bad: bool) returns (dropped: bool, attached: bool)
      requires k < |pics.blocks|
      modifies this`pics
      ensures Handing(pics, dropped, attached) == HandBlock(kind, old(pics), k, block, bad)
    {
      if pics.blocks[k].owner == Client || bad {
        pics := SetOwner(pics, k, Accelerator);
        return true, false;
      }
      dropped, attached := false, pics.blocks[k].loaded;
      pics := SetOwner(pics, k, Client);
      pics := pics.(undequeued := (pics.undequeued + [block])[1..]);
      if !kind.bufferQueue {
        pics := pics.(blocks := pics.blocks[k := pics.blocks[k].(loaded := false)]);
      }
    }

    method PlacePicture(k: nat, j: nat)
      requires k < |pics.blocks| && pics.pictures != [] && j < |works.pending|
      modifies this`pics, this`works, this`memory
      ensures State() == Place(kind, old(State()), k, j)
    {
      var w, first := works.pending[j], pics.pictures[0];
      memory := memory.(last := Some(w.frame));
      var dropped, attached := HandGraphicBlock(k, first.block, first.bad);
      SetPendingWork(j, w.(out := w.out.(drop := w.out.drop || dropped, picture := w.out.picture || attached)));
      if kind.vp9 {
        DetectNoShowFrames(w.frame);
      }
      pics := pics.(pictures := [first.(setOut := true)] + pics.pictures[1..]);
    }

    method ClonePicture(k: nat, last: Frame)
      requires k < |pics.blocks| && pics.pictures != []
      modifies this`pics, this`works, this`memory, this`log
      ensures State() == Clone(kind, old(State()), k, last)
    {
      var dropped, attached := HandGraphicBlock(k, pics.pictures[0].block, pics.pictures[0].bad);
      if kind.vp9 {
        DetectNoShowFrames(last);
      }
      log := log.(clones := log.clones + 1);
    }

    method ConfirmPicture() returns (go: bool)
      requires pics.pictures != []
      modifies this`works, this`log, this`mode, this`pics
      ensures Confirm(old(State())) == if go then Go(State()) else Halt(State(), Fine)
    {
      go := ReportWorkIfFinished(pics.pictures[0].id, false);
      if go {
        PopPicture();
      }
    }

    method SendWithoutWork(drop: bool, k: nat) returns (go: bool, status: Status)
      requires k < |pics.blocks| && pics.pictures != []
      modifies this`pics, this`works, this`memory, this`log
      ensures (if go then Go(State()) else Halt(State(), status)) ==
              match old(memory).last
              case None => Halt(Pop(old(State()).(pics := SetOwner(old(pics), k, Accelerator))), Fine)
              case Some(last) => SendClone(kind, old(State()), drop, k, last)
    {
      go, status := false, Fine;
      match memory.last {
        case None =>
          pics := SetOwner(pics, k, Accelerator);
          PopPicture();
        case Some(last) =>
          if MustWait(pics, k, drop) {
            status := Late;
          } else {
            ClonePicture(k, last);
            PopPicture();
            go := true;
          }
      }
    }

    method SendWithWork(drop: bool, k: nat, j: nat) returns (go: bool, status: Status)
      requires k < |pics.blocks| && pics.pictures != [] && j < |works.pending|
      modifies this`pics, this`works, this`memory, this`log, this`mode
      ensures SendPicture(kind, old(State()), drop, k, j) == if go then Go(State()) else Halt(State(), status)
    {
      if MustWait(pics, k, drop) {
        memory := memory.(last := Some(works.pending[j].frame));
        return false, Late;
      }
      PlacePicture(k, j);
      go := ConfirmPicture();
      status := Fine;
    }

    method SendFront(drop: bool) returns (go: bool, status: Status)
      requires pics.pictures != []
      modifies this`pics, this`works, this`memory, this`log, this`mode
      ensures Front(kind, old(State()), drop) == if go then Go(State()) else Halt(State(), status)
    {
      var first := pics.pictures[0];
      go, status := false, Bad;
      var k := FindGraphicBlock(first.block);
      if k == |pics.blocks| {
        return;
      }
      if pics.blocks[k].owner == Accelerator {
        mode := Fail(mode);
        return;
      }
      var j := FindPendingWork(first.id);
      if j == |works.pending| {
        go, status := SendWithoutWork(drop, k);
      } else if works.pending[j].input == Buffer {
        status := Fine;
      } else if first.setOut {
        go := ConfirmPicture();
        status := Fine;
      } else {
        go, status := SendWithWork(drop, k, j);
      }
    }

    method SendOutputBufferToWorkIfAny(drop: bool) returns (status: Status)
      modifies this`pics, this`works, this`memory, this`log, this`mode
      ensures (State(), status) == SendPictures(kind, old(State()), drop)
    {
      ghost var goal := SendPictures(kind, State(), drop);
      while pics.pictures != []
        invariant SendPictures(kind, State(), drop) == goal
        decreases |pics.pictures|
      {
        ghost var t := State();
        var go, halted := SendFront(drop);
        assert Front(kind, t, drop) == if go then Go(State()) else Halt(State(), halted);
        if !go {
          return halted;
        }
      }
      status := Fine;
    }

    // ---------- input ----------

    method OnReusedOutBuf()
      modifies this`pics, this`mode
      ensures State() == Reuse(old(State()))
    {
      if mode.reuseDue {
        if mode.hasBuffers {
          while pics.reuse != []
            invariant pics == old(pics).(blocks := pics.blocks, reuse := pics.reuse) && mode == old(mode)
            invariant Reclaim(pics.blocks, pics.reuse) == Reclaim(old(pics).blocks, old(pics).reuse)
            decreases |pics.reuse|
          {
            var k := FindGraphicBlock(pics.reuse[0]);
            if k < |pics.blocks| && pics.blocks[k].owner == HwVdec.Owner.Component {
              pics := SetOwner(pics, k, Accelerator);
            }
            pics := pics.(reuse := pics.reuse[1..]);
          }
          assert Reclaim(pics.blocks, []) == pics.blocks;
        }
        mode := mode.(reuseDue := false);
      }
    }

    method QueueWork(w: Work)
      requires Valid()
      modifies this`pics, this`mode, this`works, this`log
      ensures State() == OnQueueWork(old(State()), w)
      ensures Valid()
    {
      EventSound(kind, State(), HwVdec.Event.QueueWork(w));
      if Shut(mode) {
        return;
      }
      OnReusedOutBuf();
      var entry := w.(drain := if w.frame.eos then DrainWithEos else NoDrain);
      works := works.(queue := works.queue + [entry]);
      log := log.(accepted := log.accepted + [entry]);
    }

    /** Moves the first queued work to the pending ones. */
    method Dequeue(sent: bool)
      requires works.queue != []
      modifies this`works, this`mode
      ensures State() == TakeWork(old(State()), sent)
    {
      var w := works.queue[0];
      works := works.(queue := works.queue[1..]);
      if w.input == Buffer && !sent {
        mode := Fail(mode);
      }
      if w.drain != NoDrain {
        mode := Enter(mode, Draining).(pendingEos := w.drain == DrainWithEos);
      }
      works := works.(pending := works.pending + [Taken(w)]);
    }

    method DequeueWork(sent: bool)
      requires Valid()
      modifies this`works, this`mode, this`pics, this`log
      ensures State() == OnDequeueWork(old(State()), sent)
      ensures Valid()
    {
      EventSound(kind, State(), HwVdec.Event.DequeueWork(sent));
      if Shut(mode) || works.queue == [] || mode.phase != Started {
        return;
      }
      OnReusedOutBuf();
      var w := works.queue[0];
      Dequeue(sent);
      if EmptyConfig(w) || EmptyWork(w) {
        var _ := ReportWorkIfFinished(BitstreamId(w), EmptyWork(w));
      }
    }

    method InputBufferDone(id: int)
      requires Valid()
      modifies this`works, this`mode, this`log
      ensures State() == OnInputDone(old(State()), id)
      ensures Valid()
    {
      EventSound(kind, State(), InputDone(id));
      if Shut(mode) {
        return;
      }
      var k := FindPendingWork(id);
      if k == |works.pending| {
        mode := Fail(mode);
        return;
      }
      var w := works.pending[k].(input := EmptySlot);
      SetPendingWork(k, w);
      if w.frame.config || w.out.drop || w.frame.drop {
        var _ := ReportWorkIfFinished(id, false);
      }
    }

    // ---------- output ----------

    method KeepPicture(k: nat, picture: Picture)
      requires k < |pics.blocks|
      modifies this`pics, this`memory
      ensures State() == Keep(old(State()), k, picture)
    {
      if pics.blocks[k].owner == Accelerator {
        pics := SetOwner(pics, k, HwVdec.Owner.Component);
      }
      var j := |works.pending|;
      if memory.lastOut != picture.id {
        j := FindPendingWork(picture.id);
      }
      if j == |works.pending| || !works.pending[j].frame.drop {
        var sent := [picture.id] + memory.sent;
        if |sent| > 20 {
          sent := sent[..|sent| - 1];
        }
        memory := memory.(sent := sent);
      }
      pics := pics.(pictures := pics.pictures + [picture]);
      memory := memory.(lastOut := picture.id);
    }

    method OutputBufferDone(block: int, id: int, bad: bool)
      requires Valid()
      modifies this`pics, this`works, this`memory, this`log, this`mode
      ensures State() == OnPicture(kind, old(State()), block, id, bad)
      ensures Valid()
    {
      EventSound(kind, State(), PictureDone(block, id, bad));
      if Shut(mode) {
        return;
      }
      if mode.phase == Flushing {
        memory := memory.(lastOut := id);
        return;
      }
      var k := FindGraphicBlock(block);
      if k == |pics.blocks| {
        mode := Fail(mode);
        return;
      }
      if memory.lastOut != id {
        var j := FindPendingWork(id);
        if j == |works.pending| && id !in memory.sent {
          pics := SetOwner(pics, k, Accelerator);
          return;
        }
      }
      KeepPicture(k, Picture(id, block, bad, false));
      var _ := SendOutputBufferToWorkIfAny(false);
    }

    method ReturnBlock(k: nat)
      requires k < |pics.blocks|
      modifies this`pics
      ensures State() == Return(old(State()), k)
    {
      var id := pics.blocks[k].id;
      pics := pics.(blocks := pics.blocks[k := pics.blocks[k].(owner := HwVdec.Owner.Component, loaded := true)]);
      if !mode.format {
        var i := 0;
        while i < |pics.pictures| && pics.pictures[i].block != id
          invariant i <= |pics.pictures|
          invariant forall j :: 0 <= j < i ==> pics.pictures[j].block != id
        {
          i := i + 1;
        }
        if i == |pics.pictures| {
          pics := SetOwner(pics, k, Accelerator);
        }
      }
    }

    /** The entry for a block that comes back. */
    method FindReturned(block: int) returns (k: nat)
      ensures k == Returned(pics.blocks, block)
    {
      k := FindGraphicBlock(block);
      if k == |pics.blocks| {
        k := FindUnboundBlock();
      }
    }

    method OutputBufferReturned(block: int, obsolete: bool, changed: bool, change: Change)
      requires Valid()
      modifies this`pics, this`works, this`memory, this`log, this`mode
      ensures State() == OnBlockReturned(kind, old(State()), block, obsolete, changed, change)
      ensures Valid()
    {
      EventSound(kind, State(), BlockReturned(block, obsolete, changed, change));
      assert Sound(OnBlockReturned(kind, State(), block, obsolete, changed, change));
      hide Handle, Sound, TryChangeFormat, SendPictures, Return, Returned;
      if Shut(mode) || obsolete {
        return;
      }
      var k := FindReturned(block);
      if k == |pics.blocks| {
        if pics.spare {
          mode := Fail(mode);
        }
        pics := pics.(spare := true);
        return;
      }
      pics := pics.(blocks := pics.blocks[k := pics.blocks[k].(bound := true)]);
      if changed && pics.blocks[k].owner != Client {
        mode := Fail(mode);
        return;
      }
      ReturnBlock(k);
      if mode.format {
        TryChangeOutputFormat(change);
      } else {
        var _ := SendOutputBufferToWorkIfAny(false);
      }
    }

    method NewBlockBufferFetched(block: int, fits: bool, described: bool)
      requires Valid()
      modifies this`pics, this`mode
      ensures State() == OnNewBlock(old(State()), block, fits, described)
      ensures Valid()
    {
      EventSound(kind, State(), NewBlock(block, fits, described));
      if Shut(mode) || mode.phase == Stopping || !fits {
        return;
      }
      if described {
        pics := pics.(blocks := pics.blocks + [Block(block, HwVdec.Owner.Component, true, true)]);
      } else {
        mode := Fail(mode);
      }
      var k := FindGraphicBlock(block);
      if k < |pics.blocks| {
        pics := SetOwner(pics, k, Accelerator);
      }
    }

    // ---------- change of format ----------

    method AllocateBuffers(c: Change)
      modifies this`pics, this`mode
      ensures State() == Allocate(old(State()), c)
    {
      pics := pics.(blocks := []);
      if !c.pool {
        mode := Fail(mode);
        return;
      }
      match c.display {
        case None => mode := Fail(mode);
        case Some(n) =>
          pics := pics.(undequeued := Resize(pics.undequeued, n));
          var blocks := FetchAll(c.fetched);
          pics := pics.(blocks := blocks);
          if c.cleared {
            pics := pics.(blocks := []);
          }
          if c.failed || c.cleared {
            mode := Fail(mode);
          }
      }
      mode := mode.(format := false, hasBuffers := true);
    }

    /** Blocks of an old size are given up; others that the component owns go to the decoder. */
    method RenewBlocks(c: Change) returns (cleared: bool)
      modifies this`pics
      ensures pics == ChangeBlocks(kind, old(pics), c) && cleared == Clears(kind, c)
    {
      cleared := if kind.bufferQueue then c.sizeChanged else c.reallocate;
      if cleared {
        var spare := pics.spare && (!kind.bufferQueue || pics.blocks == []);
        pics := pics.(blocks := [], spare := spare);
      } else if kind.bufferQueue {
        var blocks := PassBlocks(pics.blocks, HwVdec.Owner.Component, Accelerator);
        pics := pics.(blocks := blocks);
      }
    }

    method VideoResolutionChange(c: Change)
      modifies this`pics, this`mode
      ensures State() == ChangeResolution(kind, old(State()), c)
    {
      mode := mode.(format := false);
      var cleared := RenewBlocks(c);
      if cleared && !c.requested {
        mode := Fail(mode);
      }
      if !c.restarted {
        mode := Fail(mode);
      }
    }

    method TryChangeOutputFormat(c: Change)
      modifies this`pics, this`works, this`memory, this`log, this`mode
      ensures State() == TryChangeFormat(kind, old(State()), c)
    {
      if !mode.format || pics.pictures != [] {
        return;
      }
      var i := 0;
      while i < |pics.blocks| && pics.blocks[i].owner != Accelerator
        invariant i <= |pics.blocks|
        invariant forall j :: 0 <= j < i ==> pics.blocks[j].owner != Accelerator
      {
        i := i + 1;
      }
      if i < |pics.blocks| {
        mode := Fail(mode);
        return;
      }
      var status := SendOutputBufferToWorkIfAny(true);
      assert status == Fine && State() == old(State());
      if mode.hasBuffers {
        VideoResolutionChange(c);
      } else {
        AllocateBuffers(c);
      }
    }

    /** Takes the blocks back from the decoder and changes the format when it can. */
    method BeginFormatChange(c: Change)
      requires !mode.format
      modifies this`pics, this`works, this`memory, this`log, this`mode
      ensures State() == OnFormatChanged(kind, old(State()), c)
    {
      hide TryChangeFormat, PassAll;
      if Shut(mode) {
        return;
      }
      var done := PassBlocks(pics.blocks, Accelerator, HwVdec.Owner.Component);
      pics, mode := pics.(blocks := done), mode.(format := true);
      TryChangeOutputFormat(c);
    }

    method OutputFormatChanged(c: Change)
      requires Valid()
      requires !mode.format
      modifies this`pics, this`works, this`memory, this`log, this`mode
      ensures State() == OnFormatChanged(kind, old(State()), c)
      ensures Valid()
    {
      EventSound(kind, State(), FormatChanged(c));
      assert Handle(kind, State(), FormatChanged(c)) == OnFormatChanged(kind, State(), c);
      hide Sound, OnFormatChanged, Handle;
      BeginFormatChange(c);
    }

    // ---------- drain, flush, stop ----------

    method Drain(eos: bool)
      requires Valid()
      modifies this`works, this`mode
      ensures State() == OnDrain(old(State()), eos)
      ensures Valid()
    {
      EventSound(kind, State(), DrainRequest(eos));
      if Shut(mode) {
        return;
      }
      if works.queue != [] {
        var last := works.queue[|works.queue| - 1];
        if last.drain == NoDrain {
          var drain := if eos then DrainWithEos else DrainNoEos;
          works := works.(queue := works.queue[|works.queue| - 1 := last.(drain := drain)]);
        }
      } else if works.pending != [] && mode.phase == Started {
        mode := Enter(mode, Draining).(pendingEos := eos);
      }
    }

    method DrainDone()
      requires Valid()
      modifies this`pics, this`works, this`memory, this`log, this`mode
      ensures State() == OnDrainDone(kind, old(State()))
      ensures Valid()
    {
      EventSound(kind, State(), HwVdec.Event.DrainDone);
      if Shut(mode) {
        return;
      }
      if mode.phase == Stopping {
        if mode.pendingEos {
          var _ := ReportEosWork();
        }
        return;
      }
      if mode.phase == Draining {
        mode := Enter(mode, Started);
      } else if mode.phase != Flushing {
        mode := Fail(mode);
        return;
      }
      var status := SendOutputBufferToWorkIfAny(true);
      if status == Fine && mode.pendingEos {
        var _ := ReportEosWork();
      }
    }

    method Flush()
      requires Valid()
      modifies this`mode, this`memory
      ensures State() == OnFlush(old(State()))
      ensures Valid()
    {
      EventSound(kind, State(), FlushRequest);
      if mode.phase == Flushing || mode.phase == Stopping {
        return;
      }
      memory := memory.(lastOut := -1);
      mode := Enter(mode, Flushing);
    }

    /** Moves all queued works to the abandoned ones. */
    method AbandonQueue()
      modifies this`works
      ensures works == old(works).(queue := [], abandoned := old(works).abandoned + old(works).queue)
    {
      while works.queue != []
        invariant works == old(works).(queue := works.queue, abandoned := works.abandoned)
        invariant works.abandoned + works.queue == old(works).abandoned + old(works).queue
        decreases |works.queue|
      {
        works := works.(abandoned := works.abandoned + [works.queue[0]]);
        works := works.(queue := works.queue[1..]);
      }
    }

    /** One round of emptying the waiting pictures; an unknown block would leave the picture where it is. */
    method DropPicture()
      requires Live(pics) && pics.pictures != []
      modifies this`pics
      ensures Live(pics)
      ensures var first := old(pics).pictures[0];
              pics == old(pics).(pictures := old(pics).pictures[1..], reuse := old(pics).reuse + [first.block])
    {
      var k := FindGraphicBlock(pics.pictures[0].block);
      if k == |pics.blocks| {
        assert false;
      }
      hide FindBlock, AllBound;
      pics := pics.(reuse := pics.reuse + [pics.pictures[0].block]);
      PopLive(pics);
      PopPicture();
    }

    /** Empties the waiting pictures. An unknown block would keep the loop from ending; there is none. */
    method EmptyPictures()
      requires Live(pics)
      modifies this`pics
      ensures pics == old(pics).(pictures := [], reuse := BlocksOf(old(pics).pictures))
    {
      ghost var all := BlocksOf(pics.pictures);
      pics := pics.(reuse := []);
      hide Live, BlocksOf;
      while pics.pictures != []
        invariant Live(pics) && pics == old(pics).(pictures := pics.pictures, reuse := pics.reuse)
        invariant pics.reuse + BlocksOf(pics.pictures) == all
        decreases |pics.pictures|
      {
        FirstBlock(pics.reuse, pics.pictures);
        DropPicture();
      }
      FirstBlock(pics.reuse, pics.pictures);
    }

    method FlushDone()
      requires Live(pics)
      modifies this`pics, this`works, this`memory, this`log, this`mode
      ensures State() == OnFlushDone(old(State()))
    {
      if Shut(mode) {
        return;
      }
      log := log.(dropped := log.dropped + works.flushList);
      AbandonQueue();
      var first := AbandonAll(works.abandoned);
      var second := AbandonAll(works.pending);
      works := works.(abandoned := [], pending := [], flushList := first + second);
      EmptyPictures();
      memory := memory.(sent := []);
      mode := Enter(mode, Started);
    }

    method PickUpFlushed() returns (ws: seq<Work>)
      requires Valid()
      modifies this`works, this`log, this`mode
      ensures State() == PickUp(old(State())) && ws == old(works).flushList
      ensures Valid()
    {
      EventSound(kind, State(), HwVdec.Event.PickUpFlushed);
      ws := [];
      while works.flushList != []
        invariant works == old(works).(flushList := works.flushList) && log == old(log) && mode == old(mode)
        invariant ws + works.flushList == old(works).flushList
        decreases |works.flushList|
      {
        ws := ws + [works.flushList[0]];
        works := works.(flushList := works.flushList[1..]);
      }
      log := log.(flushed := log.flushed + ws);
      mode := mode.(reuseDue := true);
    }

    method StopDone()
      modifies this`pics, this`works, this`memory, this`log, this`mode
      ensures State() == OnStopDone(old(State()))
    {
      ReportAbandonedWorks();
      pics := pics.(pictures := [], spare := false, blocks := []);
      memory := memory.(noOut := [], sent := []);
      mode := mode.(format := false, hasBuffers := false);
      mode := Enter(mode, Uninitialized);
    }

    method Stop()
      requires Valid()
      modifies this`pics, this`works, this`memory, this`log, this`mode
      ensures State() == OnStop(old(State()))
      ensures Valid()
      ensures old(mode.phase) != Uninitialized && !old(mode.error) ==>
                && works.queue == [] && works.abandoned == old(works).abandoned + old(works).queue
                && works.pending == old(works).pending && log == old(log) && mode.phase == Stopping
      ensures old(mode.phase) != Uninitialized && old(mode.error) ==>
                && works.queue == [] && works.pending == [] && works.abandoned == []
                && |log.reported| == |old(log).reported|
                   + |old(works).queue| + |old(works).pending| + |old(works).abandoned|
    {
      EventSound(kind, State(), StopRequest);
      if mode.phase == Uninitialized {
        return;
      }
      AbandonQueue();
      mode := mode.(phase := Stopping);
      if mode.error {
        StopDone();
      }
    }

    method FlushOrStopDone()
      requires Valid()
      modifies this`pics, this`works, this`memory, this`log, this`mode
      ensures State() == OnFlushOrStopDone(old(State()))
      ensures Valid()
      ensures Completes(old(State()), HwVdec.Event.FlushOrStopDone) ==>
                && works.queue == [] && works.pending == [] && works.abandoned == [] && pics.pictures == []
                && works.flushList == Abandon(old(works).abandoned + old(works).queue + old(works).pending)
    {
      EventSound(kind, State(), HwVdec.Event.FlushOrStopDone);
      match mode.phase {
        case Uninitialized =>
        case Flushing =>
          AbandonAppend(works.abandoned + works.queue, works.pending);
          FlushDone();
        case Stopping => StopDone();
        case _ => mode := Fail(mode);
      }
    }

    method Destroy()
      requires Valid()
      modifies this`pics, this`memory, this`mode
      ensures State() == OnDestroy(old(State()))
      ensures Valid()
    {
      EventSound(kind, State(), HwVdec.Event.Destroy);
      mode := mode.(format := false);
      pics := pics.(pictures := [], blocks := []);
      memory := memory.(sent := [], noOut := [], last := None);
      mode := Enter(mode, Destroyed);
    }

    // ---------- works without pictures ----------

    /** One round: the first announced work is reported, or the loop ends. */
    method ReportOneNoOut() returns (more: bool)
      requires memory.noOut != []
      modifies this`works, this`log, this`mode, this`memory
      ensures ReportNoOut(old(State())) == if more then ReportNoOut(State()) else State()
      ensures more ==> |memory.noOut| < |old(memory).noOut|
    {
      var k := FindPendingWork(memory.noOut[0]);
      if k == |works.pending| {
        mode := Fail(mode);
        return false;
      }
      if works.pending[k].input == Buffer {
        return false;
      }
      ReportPendingAt(k, works.pending[k].(result := Done));
      memory := memory.(noOut := memory.noOut[1..]);
      more := true;
    }

    method ReportNoOutFrameFinished()
      requires Valid()
      modifies this`works, this`log, this`mode, this`memory
      ensures State() == ReportNoOut(old(State()))
      ensures Valid()
    {
      EventSound(kind, State(), NoOutFrames);
      ghost var goal := ReportNoOut(State());
      assert Sound(goal);
      hide Sound, Handle;
      while memory.noOut != []
        invariant ReportNoOut(State()) == goal
        decreases |memory.noOut|
      {
        var more := ReportOneNoOut();
        if !more {
          return;
        }
      }
    }

    method ErrorFrame(id: int, tooMany: bool)
      requires Valid()
      modifies this`works, this`log, this`mode
      ensures State() == OnErrorFrame(old(State()), id, tooMany)
      ensures Valid()
    {
      EventSound(kind, State(), HwVdec.Event.ErrorFrame(id, tooMany));
      assert Sound(OnErrorFrame(State(), id, tooMany));
      hide Sound, Handle;
      if id < 0 {
        return;
      }
      var k := FindPendingWork(id);
      if k == |works.pending| {
        return;
      }
      DropWork(k, id);
      if tooMany {
        mode := Fail(mode);
      }
    }

    /** Drops the picture of a pending work and reports the work if it is done. */
    method DropWork(k: nat, id: int)
      requires k < |works.pending|
      modifies this`works, this`log, this`mode
      ensures var w := old(works).pending[k];
              var ws := old(works).pending[k := w.(out := w.out.(drop := true))];
              State() == ReportIfFinished(SetPending(old(State()), ws), id, false).0
    {
      SetPendingWork(k, works.pending[k].(out := works.pending[k].out.(drop := true)));
      var _ := ReportWorkIfFinished(id, false);
    }

    method ReportWorkForNoShowFrames()
      requires Valid()
      modifies this`works, this`log, this`mode, this`memory
      ensures State() == ReportNoShow(old(State()))
      ensures Valid()
    {
      EventSound(kind, State(), NoShowFrames);
      hide Sound;
      ghost var goal := ReportEach(State(), memory.noShow);
      var i := 0;
      while i < |memory.noShow|
        invariant i <= |memory.noShow| && memory == old(memory)
        invariant ReportEach(State(), memory.noShow[i..]) == goal
      {
        ghost var ids := memory.noShow[i..];
        assert ids[1..] == memory.noShow[i + 1..];
        var _ := ReportWorkIfFinished(memory.noShow[i], false);
        i := i + 1;
      }
      memory := memory.(noShow := []);
    }

    // ---------- the thread ----------

    /** Handles an event that brings pictures and works together. */
    method PerformOutput(e: Event)
      requires Valid() && Output(e)
      modifies this`pics, this`works, this`memory, this`log, this`mode
      ensures State() == Handle(kind, old(State()), e)
      ensures Valid()
    {
      EventSound(kind, State(), e);
      hide Sound, OnInputDone, OnPicture, OnBlockReturned, SendPictures, ReportNoOut, OnErrorFrame, ReportNoShow;
      match e {
        case InputDone(id) => InputBufferDone(id);
        case PictureDone(block, id, bad) => OutputBufferDone(block, id, bad);
        case HandOutPictures => var _ := SendOutputBufferToWorkIfAny(false);
        case BlockReturned(block, obsolete, changed, change) => OutputBufferReturned(block, obsolete, changed, change);
        case NoOutFrames => ReportNoOutFrameFinished();
        case ErrorFrame(id, tooMany) => ErrorFrame(id, tooMany);
        case NoShowFrames => ReportWorkForNoShowFrames();
      }
    }

    /** Handles any other event. */
    method PerformControl(e: Event)
      requires Valid() && !Output(e) && !(e.FormatChanged? && mode.format)
      modifies this`pics, this`works, this`memory, this`log, this`mode
      ensures State() == Handle(kind, old(State()), e)
      ensures Valid()
    {
      EventSound(kind, State(), e);
      hide Sound, OnQueueWork, OnDequeueWork, OnNewBlock, OnFormatChanged, TryChangeFormat, OnDrain, OnDrainDone,
        OnFlush, OnStop, OnFlushOrStopDone, OnDestroy, PickUp;
      match e {
        case QueueWork(w) => QueueWork(w);
        case DequeueWork(sent) => DequeueWork(sent);
        case NewBlock(block, fits, described) => NewBlockBufferFetched(block, fits, described);
        case FormatChanged(change) => OutputFormatChanged(change);
        case ChangeFormat(change) => TryChangeOutputFormat(change);
        case DrainRequest(eos) => Drain(eos);
        case DrainDone => DrainDone();
        case FlushRequest => Flush();
        case StopRequest => Stop();
        case FlushOrStopDone => FlushOrStopDone();
        case PickUpFlushed => var _ := PickUpFlushed();
        case FlushTimeout => mode := Enter(mode, Started);
        case NoOutFrame(id) => memory := memory.(noOut := memory.noOut + [id]);
        case DecoderError => mode := Fail(mode);
        case Start(ok) => mode := Enter(mode, if ok then Started else Starting);
        case Destroy => Destroy();
      }
    }

    /** Handles one event. All works stay accounted for, and pictures in known blocks, so a flush can always
        be completed; works go back settled unless their ids are mixed up. */
    method Perform(e: Event)
      requires Valid() && !(e.FormatChanged? && mode.format)
      modifies this
      ensures State() == Handle(kind, old(State()), e)
      ensures Valid()
      ensures old(Clean(State())) && !old(Mixup(State(), e)) ==> Clean(State())
    {
      if Clean(State()) && !Mixup(State(), e) {
        EventClean(kind, State(), e);
      }
      hide Sound, Clean, Mixup, Handle;
      if Output(e) {
        PerformOutput(e);
      } else {
        PerformControl(e);
      }
    }
  }
}
