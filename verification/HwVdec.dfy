/** The hardware video decoder in non-tunnel mode: the handlers that run one at a time on its component
    thread, as functions on its state. The decoder itself, the block pool and the clients are whoever
    posts the events; what they answer comes in with the event. */
module HwVdec {
  import opened Options

  // ---------- works ----------

  /** What a client queues: the frame index, the timestamp, and the flags of the input. */
  datatype Frame = Frame(index: nat, time: int, config: bool, eos: bool, drop: bool, other: bool)

  /** The input of a work: no buffer, an empty slot (also after the decoder gave the buffer back), or a
      buffer. */
  datatype Input = NoBuffer | EmptySlot | Buffer

  datatype Out = Out(drop: bool, picture: bool, eos: bool)

  datatype Drain = NoDrain | DrainNoEos | DrainWithEos

  datatype Result = Unset | Done | NotFound

  /** A work; the drain mode of its queue entry is kept with it. */
  datatype Work = Work(id: nat, frame: Frame, input: Input, drain: Drain, out: Out, result: Result)

  function BitstreamId(w: Work): nat { w.frame.index % 0x4000_0000 }

  /** The first pending work with bitstream id `id`, or the length if there is none. */
  function Find(ws: seq<Work>, id: int): (k: nat)
    ensures k <= |ws|
    ensures k < |ws| ==> BitstreamId(ws[k]) == id
    ensures forall j :: 0 <= j < k ==> BitstreamId(ws[j]) != id
  {
    if ws == [] || BitstreamId(ws[0]) == id then 0 else 1 + Find(ws[1..], id)
  }

  function Without(ws: seq<Work>, k: nat): seq<Work>
    requires k < |ws|
  {
    ws[..k] + ws[k + 1..]
  }

  function GiveBack(input: Input): Input { if input == NoBuffer then NoBuffer else EmptySlot }

  /** An abandoned work loses its input buffer and tells the client that it was not done. */
  function Abandoned(w: Work): Work { w.(result := NotFound, input := GiveBack(w.input)) }

  function Abandon(ws: seq<Work>): (r: seq<Work>)
    ensures |r| == |ws| && forall i :: 0 <= i < |r| ==> r[i] == Abandoned(ws[i])
  {
    if ws == [] then [] else [Abandoned(ws[0])] + Abandon(ws[1..])
  }

  // ---------- pictures ----------

  datatype Owner = Component | Accelerator | Client

  /** A graphic block; `loaded` while the component holds the memory behind it, `bound` while the entry
      belongs to a block of the pool. */
  datatype Block = Block(id: int, owner: Owner, loaded: bool, bound: bool)

  /** A decoded picture that waits for its work; `setOut` once it has been attached. */
  datatype Picture = Picture(id: int, block: int, bad: bool, setOut: bool)

  function FindBlock(blocks: seq<Block>, id: int): (k: nat)
    ensures k <= |blocks|
    ensures k < |blocks| ==> blocks[k].id == id
    ensures forall j :: 0 <= j < k ==> blocks[j].id != id
  {
    if blocks == [] || blocks[0].id == id then 0 else 1 + FindBlock(blocks[1..], id)
  }

  function FindUnbound(blocks: seq<Block>): (k: nat)
    ensures k <= |blocks|
    ensures k < |blocks| ==> !blocks[k].bound
    ensures forall j :: 0 <= j < k ==> blocks[j].bound
  {
    if blocks == [] || !blocks[0].bound then 0 else 1 + FindUnbound(blocks[1..])
  }

  predicate Known(blocks: seq<Block>, id: int) { FindBlock(blocks, id) < |blocks| }

  // ---------- the state ----------

  datatype Works = Works(queue: seq<Work>, pending: seq<Work>, abandoned: seq<Work>, flushList: seq<Work>)

  /** History: works taken over from clients and what became of them, and how many clones went out. */
  datatype Log = Log(accepted: seq<Work>, reported: seq<Work>, flushed: seq<Work>, dropped: seq<Work>, clones: nat)

  /** `reuse` are the blocks of the pictures that a flush threw away, `undequeued` the last blocks that
      were sent to be shown, as many as the client shows at a time, `spare` whether an unknown returned
      block is kept. */
  datatype Pics = Pics(blocks: seq<Block>, pictures: seq<Picture>, reuse: seq<int>, undequeued: seq<int>, spare: bool)

  datatype Phase = Uninitialized | Starting | Started | Draining | Flushing | Stopping | Destroyed

  datatype Mode = Mode(phase: Phase, error: bool, pendingEos: bool, format: bool, hasBuffers: bool, reuseDue: bool)

  /** What is remembered of pictures and works gone by: the last bitstream id put out, the ids of the
      last twenty pictures, the frame of the last work that got a picture, and works found to be
      without one. */
  datatype Memory = Memory(lastOut: int, sent: seq<int>, last: Option<Frame>, noShow: seq<nat>, noOut: seq<int>)

  datatype State = State(works: Works, log: Log, pics: Pics, mode: Mode, memory: Memory)

  const Initial: State :=
    State(Works([], [], [], []), Log([], [], [], [], 0), Pics([], [], [], [], false),
          Mode(Uninitialized, false, false, false, false, false), Memory(-1, [], None, [], []))

  /** Fixed for a component: whether its block pool is a buffer queue, and whether it decodes VP9. */
  datatype Kind = Kind(bufferQueue: bool, vp9: bool)

  predicate Shut(m: Mode) { m.error || m.phase == Uninitialized || m.phase == Destroyed }

  /** Entering a phase forgets an error. */
  function Enter(m: Mode, phase: Phase): Mode { m.(phase := phase, error := false) }

  function Fail(m: Mode): Mode {
    if m.phase == Uninitialized || m.phase == Destroyed then m else m.(error := true)
  }

  function ReportError(s: State): State { s.(mode := Fail(s.mode)) }

  function SetPending(s: State, ws: seq<Work>): State { s.(works := s.works.(pending := ws)) }

  function SetOwner(p: Pics, k: nat, owner: Owner): Pics
    requires k < |p.blocks|
  {
    p.(blocks := p.blocks[k := p.blocks[k].(owner := owner)])
  }

  // ---------- reporting ----------

  predicate WorkDone(w: Work, pendingEos: bool, pending: nat) {
    && w.input != Buffer
    && !(pendingEos && pending == 1)
    && (w.frame.config || w.out.drop || w.out.picture)
  }

  function Finished(w: Work): Work { w.(result := Done, out := w.out.(drop := false)) }

  /** Reports the pending work at `k`. */
  function ReportAt(s: State, k: nat, w: Work): State
    requires k < |s.works.pending|
  {
    SetPending(s, Without(s.works.pending, k)).(log := s.log.(reported := s.log.reported + [w]))
  }

  /** Reports the work with bitstream id `id` if it is done; an unknown id is an error, but counts as done. */
  function ReportIfFinished(s: State, id: int, empty: bool): (State, bool) {
    var pending := s.works.pending;
    var k := Find(pending, id);
    if k == |pending| then (ReportError(s), true)
    else if empty || WorkDone(pending[k], s.mode.pendingEos, |pending|) then
      (ReportAt(s, k, Finished(pending[k])), true)
    else (s, false)
  }

  /** Reports all pending and then all abandoned works as not done. */
  function ReportAbandoned(s: State): State {
    s.(works := s.works.(pending := [], abandoned := []),
       log := s.log.(reported := s.log.reported + (Abandon(s.works.pending) + Abandon(s.works.abandoned))),
       mode := s.mode.(pendingEos := false))
  }

  function EosWork(w: Work): Work {
    w.(input := GiveBack(w.input), result := Done, out := w.out.(drop := false, eos := true))
  }

  /** Reports the last pending work as the end of the stream, after all others, which are abandoned. */
  function ReportEos(s: State): (State, bool) {
    var pending := s.works.pending;
    if pending == [] then (ReportError(s), false)
    else
      var n := |pending| - 1;
      var t := SetPending(s, pending[..n]).(mode := s.mode.(pendingEos := false));
      var u := if n > 0 then ReportAbandoned(t) else t;
      (u.(log := u.log.(reported := u.log.reported + [EosWork(pending[n])])), true)
  }

  // ---------- pictures to works ----------

  datatype Status = Fine | Late | Bad

  /** One round of handing pictures to works: the loop goes on, or it ends. */
  datatype Turn = Go(s: State) | Halt(s: State, status: Status)

  function Pop(s: State): State
    requires s.pics.pictures != []
  {
    s.(pics := s.pics.(pictures := s.pics.pictures[1..]))
  }

  /** A work whose picture did not come while a later one's did; only VP9 has them. */
  predicate NoShow(w: Work, current: Frame) {
    && w.frame.time < current.time && w.frame.index < current.index
    && !w.out.picture && !w.frame.eos && !w.frame.config && !w.out.drop
  }

  function MarkNoShow(ws: seq<Work>, current: Frame): (r: seq<Work>)
    ensures |r| == |ws|
    ensures forall i :: 0 <= i < |r| ==>
              r[i] == if NoShow(ws[i], current) then ws[i].(out := ws[i].out.(drop := true)) else ws[i]
  {
    if ws == [] then []
    else
      [if NoShow(ws[0], current) then ws[0].(out := ws[0].out.(drop := true)) else ws[0]]
      + MarkNoShow(ws[1..], current)
  }

  function NoShowIds(ws: seq<Work>, current: Frame): seq<nat> {
    if ws == [] then []
    else (if NoShow(ws[0], current) then [BitstreamId(ws[0])] else []) + NoShowIds(ws[1..], current)
  }

  function DetectNoShow(s: State, current: Frame): State {
    SetPending(s, MarkNoShow(s.works.pending, current))
    .(memory := s.memory.(noShow := s.memory.noShow + NoShowIds(s.works.pending, current)))
  }

  /** What happens to the block of a picture: dropped and back to the decoder, or on to the client. */
  datatype Handing = Handing(pics: Pics, dropped: bool, attached: bool)

  function HandBlock(kind: Kind, p: Pics, k: nat, block: int, bad: bool): (h: Handing)
    requires k < |p.blocks|
    ensures h.pics.pictures == p.pictures
  {
    if p.blocks[k].owner == Client || bad then Handing(SetOwner(p, k, Accelerator), true, false)
    else
      var b := p.blocks[k];
      var shown := p.undequeued + [block];
      Handing(p.(blocks := p.blocks[k := b.(owner := Client, loaded := b.loaded && kind.bufferQueue)],
                 undequeued := shown[1..]),
              false, b.loaded)
  }

  function Attach(w: Work, h: Handing): Work {
    w.(out := w.out.(drop := w.out.drop || h.dropped, picture := w.out.picture || h.attached))
  }

  predicate MustWait(p: Pics, k: nat, drop: bool)
    requires k < |p.blocks| && p.pictures != []
  {
    p.blocks[k].owner == Client && !drop && p.pictures[0].block !in p.undequeued
  }

  /** A picture of a work that is no longer pending goes out with a clone of the last work. */
  function Clone(kind: Kind, s: State, k: nat, last: Frame): (t: State)
    requires k < |s.pics.blocks| && s.pics.pictures != []
    ensures t.pics.pictures == s.pics.pictures
  {
    var h := HandBlock(kind, s.pics, k, s.pics.pictures[0].block, s.pics.pictures[0].bad);
    var t := s.(pics := h.pics, log := s.log.(clones := s.log.clones + 1));
    if kind.vp9 then DetectNoShow(t, last) else t
  }

  function SendClone(kind: Kind, s: State, drop: bool, k: nat, last: Frame): (t: Turn)
    requires k < |s.pics.blocks| && s.pics.pictures != []
    ensures t.Go? ==> |t.s.pics.pictures| < |s.pics.pictures|
  {
    if MustWait(s.pics, k, drop) then Halt(s, Late) else Go(Pop(Clone(kind, s, k, last)))
  }

  /** Reports the work of the picture in front and takes the picture off, or leaves both. */
  function Confirm(s: State): (t: Turn)
    requires s.pics.pictures != []
    ensures t.Go? ==> |t.s.pics.pictures| < |s.pics.pictures|
  {
    var (r, ok) := ReportIfFinished(s, s.pics.pictures[0].id, false);
    if ok then Go(Pop(r)) else Halt(r, Fine)
  }

  /** Attaches the picture in front to pending work `j`, or drops both. */
  function Place(kind: Kind, s: State, k: nat, j: nat): (t: State)
    requires k < |s.pics.blocks| && s.pics.pictures != [] && j < |s.works.pending|
    ensures |t.pics.pictures| == |s.pics.pictures|
  {
    var w, first := s.works.pending[j], s.pics.pictures[0];
    var h := HandBlock(kind, s.pics, k, first.block, first.bad);
    var t := SetPending(s, s.works.pending[j := Attach(w, h)]).(memory := s.memory.(last := Some(w.frame)));
    (if kind.vp9 then DetectNoShow(t, w.frame) else t)
    .(pics := h.pics.(pictures := [first.(setOut := true)] + s.pics.pictures[1..]))
  }

  function SendPicture(kind: Kind, s: State, drop: bool, k: nat, j: nat): (t: Turn)
    requires k < |s.pics.blocks| && s.pics.pictures != [] && j < |s.works.pending|
    ensures t.Go? ==> |t.s.pics.pictures| < |s.pics.pictures|
  {
    if MustWait(s.pics, k, drop) then Halt(s.(memory := s.memory.(last := Some(s.works.pending[j].frame))), Late)
    else Confirm(Place(kind, s, k, j))
  }

  /** One round, for the picture in front. */
  function Front(kind: Kind, s: State, drop: bool): (t: Turn)
    requires s.pics.pictures != []
    ensures t.Go? ==> |t.s.pics.pictures| < |s.pics.pictures|
  {
    var p := s.pics.pictures[0];
    var k := FindBlock(s.pics.blocks, p.block);
    if k == |s.pics.blocks| then Halt(s, Bad)
    else if s.pics.blocks[k].owner == Accelerator then Halt(ReportError(s), Bad)
    else
      var j := Find(s.works.pending, p.id);
      if j == |s.works.pending| then
        match s.memory.last
        case None => Halt(Pop(s.(pics := SetOwner(s.pics, k, Accelerator))), Fine)
        case Some(last) => SendClone(kind, s, drop, k, last)
      else if s.works.pending[j].input == Buffer then Halt(s, Fine)
      else if p.setOut then Confirm(s)
      else SendPicture(kind, s, drop, k, j)
  }

  /** Hands pictures to works as long as it can; with `drop`, pictures that the client still shows are
      dropped. */
  function SendPictures(kind: Kind, s: State, drop: bool): (State, Status)
    decreases |s.pics.pictures|
  {
    if s.pics.pictures == [] then (s, Fine)
    else
      match Front(kind, s, drop)
      case Halt(t, status) => (t, status)
      case Go(t) => SendPictures(kind, t, drop)
  }

  // ---------- input ----------

  function OnQueueWork(s: State, w: Work): State {
    if Shut(s.mode) then s
    else
      var entry := w.(drain := if w.frame.eos then DrainWithEos else NoDrain);
      Reuse(s).(works := s.works.(queue := s.works.queue + [entry]),
                log := s.log.(accepted := s.log.accepted + [entry]))
  }

  /** After a flush, once: the blocks of the pictures thrown away go back to the decoder. */
  function Reclaim(blocks: seq<Block>, ids: seq<int>): (r: seq<Block>)
    ensures |r| == |blocks| && forall i :: 0 <= i < |r| ==> r[i].id == blocks[i].id && r[i].bound == blocks[i].bound
    decreases |ids|
  {
    if ids == [] then blocks
    else
      var k := FindBlock(blocks, ids[0]);
      var idle := k < |blocks| && blocks[k].owner == Component;
      Reclaim(if idle then blocks[k := blocks[k].(owner := Accelerator)] else blocks, ids[1..])
  }

  function Reuse(s: State): State {
    if !s.mode.reuseDue then s
    else if !s.mode.hasBuffers then s.(mode := s.mode.(reuseDue := false))
    else s.(mode := s.mode.(reuseDue := false),
            pics := s.pics.(blocks := Reclaim(s.pics.blocks, s.pics.reuse), reuse := []))
  }

  predicate EmptyConfig(w: Work) { w.input == NoBuffer && w.frame.config }

  predicate EmptyWork(w: Work) {
    w.input == NoBuffer && !w.frame.config && !w.frame.eos && !w.frame.drop && !w.frame.other
  }

  function Taken(w: Work): Work {
    w.(input := if w.input == NoBuffer then EmptySlot else w.input, out := Out(false, false, false))
  }

  /** Moves the first queued work to the pending ones. */
  function TakeWork(s: State, sent: bool): State
    requires s.works.queue != []
  {
    var w := s.works.queue[0];
    var mode := if w.input == Buffer && !sent then Fail(s.mode) else s.mode;
    s.(works := s.works.(queue := s.works.queue[1..], pending := s.works.pending + [Taken(w)]),
       mode := if w.drain == NoDrain then mode
               else Enter(mode, Draining).(pendingEos := w.drain == DrainWithEos))
  }

  /** Starts decoding the first queued work; `sent` if the decoder took its input. */
  function OnDequeueWork(s: State, sent: bool): State {
    if Shut(s.mode) || s.works.queue == [] || s.mode.phase != Started then s
    else
      var w := s.works.queue[0];
      var t := TakeWork(Reuse(s), sent);
      if EmptyConfig(w) || EmptyWork(w) then ReportIfFinished(t, BitstreamId(w), EmptyWork(w)).0 else t
  }

  function OnInputDone(s: State, id: int): State {
    var k := Find(s.works.pending, id);
    if Shut(s.mode) then s
    else if k == |s.works.pending| then ReportError(s)
    else
      var w := s.works.pending[k].(input := EmptySlot);
      var t := SetPending(s, s.works.pending[k := w]);
      if w.frame.config || w.out.drop || w.frame.drop then ReportIfFinished(t, id, false).0 else t
  }

  // ---------- output ----------

  /** The last twenty, latest first. */
  function Remember(sent: seq<int>, id: int): seq<int> {
    var longer := [id] + sent;
    if |longer| > 20 then longer[..|longer| - 1] else longer
  }

  /** Keeps a picture that arrived. */
  function Keep(s: State, k: nat, picture: Picture): State
    requires k < |s.pics.blocks|
  {
    var j := if s.memory.lastOut == picture.id then |s.works.pending| else Find(s.works.pending, picture.id);
    var dropped := j < |s.works.pending| && s.works.pending[j].frame.drop;
    var pics := if s.pics.blocks[k].owner == Accelerator then SetOwner(s.pics, k, Component) else s.pics;
    s.(pics := pics.(pictures := pics.pictures + [picture]),
       memory := s.memory.(lastOut := picture.id,
                           sent := if dropped then s.memory.sent else Remember(s.memory.sent, picture.id)))
  }

  /** A decoded picture arrives: it is kept until its work can have it, unless its work is neither
      pending nor known to have had pictures. */
  function OnPicture(kind: Kind, s: State, block: int, id: int, bad: bool): State {
    var k := FindBlock(s.pics.blocks, block);
    if Shut(s.mode) then s
    else if s.mode.phase == Flushing then s.(memory := s.memory.(lastOut := id))
    else if k == |s.pics.blocks| then ReportError(s)
    else if s.memory.lastOut != id && Find(s.works.pending, id) == |s.works.pending| && id !in s.memory.sent then
      s.(pics := SetOwner(s.pics, k, Accelerator))
    else SendPictures(kind, Keep(s, k, Picture(id, block, bad, false)), false).0
  }

  /** A known block comes back; unless a picture still waits in it, it goes on to the decoder. */
  function Return(s: State, k: nat): State
    requires k < |s.pics.blocks|
  {
    var id := s.pics.blocks[k].id;
    var waiting := exists i :: 0 <= i < |s.pics.pictures| && s.pics.pictures[i].block == id;
    var owner := if waiting || s.mode.format then Component else Accelerator;
    s.(pics := s.pics.(blocks := s.pics.blocks[k := s.pics.blocks[k].(owner := owner, loaded := true)]))
  }

  /** The entry for a block that comes back: the one with its id, else the first that is not bound, which
      the block takes over. */
  function Returned(blocks: seq<Block>, id: int): (k: nat)
    ensures k <= |blocks|
  {
    if Known(blocks, id) then FindBlock(blocks, id) else FindUnbound(blocks)
  }

  function Bind(s: State, k: nat): State
    requires k < |s.pics.blocks|
  {
    s.(pics := s.pics.(blocks := s.pics.blocks[k := s.pics.blocks[k].(bound := true)]))
  }

  /** The client gives a block back; `obsolete` if it has an old size or the decoder has drained,
      `changed` if no change of resolution is under way. */
  function OnBlockReturned(kind: Kind, s: State, block: int, obsolete: bool, changed: bool, change: Change): State {
    var k := Returned(s.pics.blocks, block);
    if Shut(s.mode) || obsolete then s
    else if k == |s.pics.blocks| then
      if s.pics.spare then ReportError(s) else s.(pics := s.pics.(spare := true))
    else if changed && s.pics.blocks[k].owner != Client then ReportError(Bind(s, k))
    else if s.mode.format then TryChangeFormat(kind, Return(Bind(s, k), k), change)
    else SendPictures(kind, Return(Bind(s, k), k), false).0
  }

  /** A new block from the pool; `fits` unless it has a wrong size or comes during a change of
      resolution, `described` if its file descriptor could be had. */
  function OnNewBlock(s: State, block: int, fits: bool, described: bool): State {
    if Shut(s.mode) || s.mode.phase == Stopping || !fits then s
    else
      var t := if described then s.(pics := s.pics.(blocks := s.pics.blocks + [Block(block, Component, true, true)]))
               else ReportError(s);
      var k := FindBlock(t.pics.blocks, block);
      if k == |t.pics.blocks| then t else t.(pics := SetOwner(t.pics, k, Accelerator))
  }

  // ---------- change of format ----------

  /** What the block pool answers when the output format changes: how many blocks the client shows at a
      time, the blocks of the first allocation (or none, when there is no pool), and whether its later
      requests fail. `sizeChanged` and `reallocate` compare the formats. */
  datatype Change = Change(pool: bool, display: Option<nat>, fetched: seq<int>, failed: bool, cleared: bool,
                           sizeChanged: bool, reallocate: bool, requested: bool, restarted: bool)

  function Fetched(ids: seq<int>): (r: seq<Block>)
    ensures |r| == |ids| && forall i :: 0 <= i < |r| ==> r[i] == Block(ids[i], Accelerator, true, true)
  {
    if ids == [] then [] else [Block(ids[0], Accelerator, true, true)] + Fetched(ids[1..])
  }

  function Passed(b: Block, from: Owner, to: Owner): Block { if b.owner == from then b.(owner := to) else b }

  /** The blocks that one owner has all go to another. */
  function PassAll(blocks: seq<Block>, from: Owner, to: Owner): (r: seq<Block>)
    ensures |r| == |blocks| && forall i :: 0 <= i < |r| ==> r[i] == Passed(blocks[i], from, to)
  {
    if blocks == [] then [] else [Passed(blocks[0], from, to)] + PassAll(blocks[1..], from, to)
  }

  predicate Lent(blocks: seq<Block>) { exists i :: 0 <= i < |blocks| && blocks[i].owner == Accelerator }

  function Resize(ids: seq<int>, n: nat): (r: seq<int>)
    ensures |r| == n
  {
    if n <= |ids| then ids[..n] else ids + seq(n - |ids|, _ => -1)
  }

  /** The first allocation; its failure after the pool was found is reported but does not stop it. */
  function Allocate(s: State, c: Change): State {
    var empty := s.(pics := s.pics.(blocks := []));
    if !c.pool then ReportError(empty)
    else
      var t := match c.display
               case None => ReportError(empty)
               case Some(n) =>
                 var blocks := if c.cleared then [] else Fetched(c.fetched);
                 s.(pics := s.pics.(blocks := blocks, undequeued := Resize(s.pics.undequeued, n)),
                    mode := if c.failed || c.cleared then Fail(s.mode) else s.mode);
      t.(mode := t.mode.(format := false, hasBuffers := true))
  }

  predicate Clears(kind: Kind, c: Change) { if kind.bufferQueue then c.sizeChanged else c.reallocate }

  function ChangeBlocks(kind: Kind, p: Pics, c: Change): Pics {
    if Clears(kind, c) then p.(blocks := [], spare := p.spare && !(kind.bufferQueue && p.blocks != []))
    else if kind.bufferQueue then p.(blocks := PassAll(p.blocks, Component, Accelerator))
    else p
  }

  function ChangeResolution(kind: Kind, s: State, c: Change): State {
    var mode := if (Clears(kind, c) && !c.requested) || !c.restarted then Fail(s.mode) else s.mode;
    s.(pics := ChangeBlocks(kind, s.pics, c), mode := mode.(format := false))
  }

  /** Nothing changes while pictures wait for their works; the change of format is then posted again. */
  function TryChangeFormat(kind: Kind, s: State, c: Change): State {
    if !s.mode.format || s.pics.pictures != [] then s
    else if Lent(s.pics.blocks) then ReportError(s)
    else if s.mode.hasBuffers then ChangeResolution(kind, s, c)
    else Allocate(s, c)
  }

  /** A new output format, while no other is pending. */
  function OnFormatChanged(kind: Kind, s: State, c: Change): State
    requires !s.mode.format
  {
    if Shut(s.mode) then s
    else
      var blocks := PassAll(s.pics.blocks, Accelerator, Component);
      TryChangeFormat(kind, s.(pics := s.pics.(blocks := blocks), mode := s.mode.(format := true)), c)
  }

  // ---------- drain, flush, stop ----------

  function OnDrain(s: State, eos: bool): State {
    var drain := if eos then DrainWithEos else DrainNoEos;
    var q := s.works.queue;
    if Shut(s.mode) then s
    else if q != [] then
      if q[|q| - 1].drain == NoDrain then
        s.(works := s.works.(queue := q[|q| - 1 := q[|q| - 1].(drain := drain)]))
      else s
    else if s.works.pending != [] && s.mode.phase == Started then
      s.(mode := Enter(s.mode, Draining).(pendingEos := eos))
    else s
  }

  function OnDrainDone(kind: Kind, s: State): State {
    if Shut(s.mode) then s
    else if s.mode.phase == Stopping then
      if s.mode.pendingEos then ReportEos(s).0 else s
    else if s.mode.phase != Draining && s.mode.phase != Flushing then ReportError(s)
    else
      var mode := if s.mode.phase == Draining then Enter(s.mode, Started) else s.mode;
      var (t, status) := SendPictures(kind, s.(mode := mode), true);
      if status == Fine && t.mode.pendingEos then ReportEos(t).0 else t
  }

  function OnFlush(s: State): State {
    if s.mode.phase == Flushing || s.mode.phase == Stopping then s
    else s.(memory := s.memory.(lastOut := -1), mode := Enter(s.mode, Flushing))
  }

  /** The blocks of the pictures, oldest first. */
  function BlocksOf(pictures: seq<Picture>): seq<int> {
    if pictures == [] then [] else [pictures[0].block] + BlocksOf(pictures[1..])
  }

  /** The decoder is flushed: all works that are queued, pending or abandoned wait for the client to pick
      them up. Works that it has not picked up from the flush before are lost. */
  function OnFlushDone(s: State): State {
    if Shut(s.mode) then s
    else
      s.(works := Works([], [], [], Abandon(s.works.abandoned + s.works.queue) + Abandon(s.works.pending)),
         log := s.log.(dropped := s.log.dropped + s.works.flushList),
         pics := s.pics.(pictures := [], reuse := BlocksOf(s.pics.pictures)),
         memory := s.memory.(sent := []),
         mode := Enter(s.mode, Started))
  }

  /** The client side of a flush takes the works. */
  function PickUp(s: State): State {
    s.(works := s.works.(flushList := []), log := s.log.(flushed := s.log.flushed + s.works.flushList),
       mode := s.mode.(reuseDue := true))
  }

  function OnStopDone(s: State): State {
    var t := ReportAbandoned(s);
    t.(pics := t.pics.(blocks := [], pictures := [], spare := false),
       memory := t.memory.(sent := [], noOut := []),
       mode := Enter(t.mode, Uninitialized).(format := false, hasBuffers := false))
  }

  /** A component in error stops at once, otherwise when the decoder has stopped. */
  function OnStop(s: State): State {
    if s.mode.phase == Uninitialized then s
    else
      var t := s.(works := s.works.(abandoned := s.works.abandoned + s.works.queue, queue := []),
                  mode := s.mode.(phase := Stopping));
      if s.mode.error then OnStopDone(t) else t
  }

  function OnFlushOrStopDone(s: State): State {
    match s.mode.phase
    case Uninitialized => s
    case Flushing => OnFlushDone(s)
    case Stopping => OnStopDone(s)
    case _ => ReportError(s)
  }

  function OnDestroy(s: State): State {
    s.(pics := s.pics.(blocks := [], pictures := []),
       memory := s.memory.(sent := [], noOut := [], last := None),
       mode := Enter(s.mode, Destroyed).(format := false))
  }

  // ---------- works without pictures ----------

  /** Reports works for which the decoder said that there will be no picture, as far as they are done
      with their input. */
  function ReportNoOut(s: State): State
    decreases |s.memory.noOut|
  {
    if s.memory.noOut == [] then s
    else
      var k := Find(s.works.pending, s.memory.noOut[0]);
      if k == |s.works.pending| then ReportError(s)
      else if s.works.pending[k].input == Buffer then s
      else
        var t := ReportAt(s, k, s.works.pending[k].(result := Done));
        ReportNoOut(t.(memory := t.memory.(noOut := t.memory.noOut[1..])))
  }

  function OnErrorFrame(s: State, id: int, tooMany: bool): State {
    var k := Find(s.works.pending, id);
    if id < 0 || k == |s.works.pending| then s
    else
      var w := s.works.pending[k];
      var t := ReportIfFinished(SetPending(s, s.works.pending[k := w.(out := w.out.(drop := true))]), id, false).0;
      if tooMany then ReportError(t) else t
  }

  function ReportEach(s: State, ids: seq<nat>): State
    decreases |ids|
  {
    if ids == [] then s else ReportEach(ReportIfFinished(s, ids[0], false).0, ids[1..])
  }

  function ReportNoShow(s: State): State {
    var t := ReportEach(s, s.memory.noShow);
    t.(memory := t.memory.(noShow := []))
  }

  // ---------- runs ----------

  datatype Event =
    | QueueWork(work: Work)
    | DequeueWork(sent: bool)
    | InputDone(id: int)
    | PictureDone(block: int, id: int, bad: bool)
    | HandOutPictures
    | BlockReturned(block: int, obsolete: bool, changed: bool, change: Change)
    | NewBlock(block: int, fits: bool, described: bool)
    | FormatChanged(change: Change)
    | ChangeFormat(change: Change)
    | DrainRequest(eos: bool)
    | DrainDone
    | FlushRequest
    | StopRequest
    | FlushOrStopDone
    | PickUpFlushed
    | FlushTimeout
    | NoOutFrame(id: int)
    | NoOutFrames
    | ErrorFrame(id: int, tooMany: bool)
    | NoShowFrames
    | DecoderError
    | Start(ok: bool)
    | Destroy

  /** Handles an event; a second output format while one is pending ends the process, so it never
      comes. */
  function Handle(kind: Kind, s: State, e: Event): State {
    match e
    case QueueWork(w) => OnQueueWork(s, w)
    case DequeueWork(sent) => OnDequeueWork(s, sent)
    case InputDone(id) => OnInputDone(s, id)
    case PictureDone(block, id, bad) => OnPicture(kind, s, block, id, bad)
    case HandOutPictures => SendPictures(kind, s, false).0
    case BlockReturned(block, obsolete, changed, change) => OnBlockReturned(kind, s, block, obsolete, changed, change)
    case NewBlock(block, fits, described) => OnNewBlock(s, block, fits, described)
    case FormatChanged(change) => if s.mode.format then s else OnFormatChanged(kind, s, change)
    case ChangeFormat(change) => TryChangeFormat(kind, s, change)
    case DrainRequest(eos) => OnDrain(s, eos)
    case DrainDone => OnDrainDone(kind, s)
    case FlushRequest => OnFlush(s)
    case StopRequest => OnStop(s)
    case FlushOrStopDone => OnFlushOrStopDone(s)
    case PickUpFlushed => PickUp(s)
    case FlushTimeout => s.(mode := Enter(s.mode, Started))
    case NoOutFrame(id) => s.(memory := s.memory.(noOut := s.memory.noOut + [id]))
    case NoOutFrames => ReportNoOut(s)
    case ErrorFrame(id, tooMany) => OnErrorFrame(s, id, tooMany)
    case NoShowFrames => ReportNoShow(s)
    case DecoderError => ReportError(s)
    case Start(ok) => s.(mode := if ok then Enter(s.mode, Started) else Enter(s.mode, Starting))
    case Destroy => OnDestroy(s)
  }

  function Run(kind: Kind, s: State, events: seq<Event>): State
    decreases |events|
  {
    if events == [] then s else Run(kind, Handle(kind, s, events[0]), events[1..])
  }
}
