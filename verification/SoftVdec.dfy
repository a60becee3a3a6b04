/** The software video decoder: which work each decoded picture answers. FFmpeg, the block pool and the
    parameter store are oracles, functions from the number of a call to its answer. */
module SoftVdec {

  const MAX_WORK_PENDING_COUNT := 7

  datatype Reply = Failed | Picture(width: nat, height: nat)

  datatype World = World(
    block: nat -> bool,      // an output block can be fetched
    view: nat -> bool,       // the block can be mapped
    init: nat -> bool,       // the codec can be opened
    alloc: nat -> bool,      // a picture can be allocated
    decode: nat -> Reply,
    config: nat -> bool)     // the parameter store takes a new picture size

  datatype Job = Job(index: nat, hasData: bool, mappable: bool, eos: bool, codecConfig: bool)

  /** A picture handed out: with the current work, with a clone of it, or through `finish`. */
  datatype Sent = Filled(index: nat) | Cloned(index: nat) | Finished(index: nat)

  /** The works that wait for a picture; `first` is set by the first picture since a flush. */
  datatype WorkList = WorkList(pending: seq<nat>, first: bool)

  /** The codec; `held` means that a decoded picture is in hand. */
  datatype Codec = Codec(held: bool, width: nat, height: nat, decInit: bool, error: bool, clock: nat)

  datatype Core = Core(list: WorkList, codec: Codec, outputEos: bool, sent: seq<Sent>)

  /** The state of the loop: whether the current work is marked processed, whether a picture was had,
      and whether the loop was left by a `return`. */
  datatype Turn = Turn(core: Core, processed: bool, hasPicture: bool, returned: bool)

  // ---------- one round ----------

  /** The start of a round: leave the loop by a `return` or because decoding failed, go round again with
      the picture in hand after a change of resolution, or use the picture. */
  datatype Head =
    | Return(codec: Codec, processed: bool)
    | NoPicture(codec: Codec)
    | Again(codec: Codec)
    | Use(codec: Codec)

  function Fail(k: Codec): Head { Return(k.(error := true), true) }

  /** Opens the codec if need be and decodes; `n` is the number of the call. */
  function Decode(w: World, k: Codec, n: nat): (h: Head)
    requires !k.held
    ensures h.Again? ==> h.codec.held
    ensures h.Use? ==> h.codec == k.(decInit := true)
    ensures h.codec.clock == k.clock && (h.Return? ==> h.processed)
  {
    if !k.decInit && !w.init(n) then Fail(k)
    else if !w.alloc(n) then Fail(k.(decInit := true))
    else match w.decode(n)
      case Failed => NoPicture(k.(decInit := true))
      case Picture(width, height) =>
        if width != 0 && height != 0 && (width != k.width || height != k.height) then
          if w.config(n) then Again(k.(decInit := true, width := width, height := height, held := true))
          else Fail(k.(decInit := true, width := width, height := height))
        else Use(k.(decInit := true))
  }

  function StartRound(w: World, k: Codec): (h: Head)
    ensures h.Again? ==> !k.held && h.codec.held
  {
    var k' := k.(clock := k.clock + 1);
    if !w.block(k.clock) then Fail(k')
    else if !w.view(k.clock) then Return(k', false)
    else if k.held then Use(k')
    else Decode(w, k', k.clock)
  }

  /** How the picture for frame index `index` is handed out while `job` is in process. */
  function Handed(job: Job, index: nat): Sent {
    if index != job.index then Finished(index) else if job.eos then Cloned(index) else Filled(index)
  }

  function HandedAll(job: Job, indices: seq<nat>): (r: seq<Sent>)
    ensures |r| == |indices|
  {
    seq(|indices|, i requires 0 <= i < |indices| => Handed(job, indices[i]))
  }

  /** `finishWork`: the picture is handed out; the current work is processed if it is filled. */
  function FinishWork(sent: seq<Sent>, job: Job, index: nat): (seq<Sent>, bool) {
    (sent + [Handed(job, index)], Handed(job, index).Filled?)
  }

  /** The index of the work that the picture in hand answers: the oldest on the list, which the current
      work joins unless the list is being flushed; with an empty list the current work, cut to 32 bits. */
  function Target(pending: seq<nat>, index: nat): nat {
    if pending == [] then index % 0x1_0000_0000 else pending[0]
  }

  function AfterTarget(l: WorkList, index: nat, flushing: bool): WorkList {
    WorkList(if l.pending == [] then [] else (if flushing then l.pending else l.pending + [index])[1..], true)
  }

  function UsePicture(c: Core, k: Codec, job: Job, flushing: bool): (Core, bool) {
    var (sent, filled) := FinishWork(c.sent, job, Target(c.list.pending, job.index));
    (Core(AfterTarget(c.list, job.index, flushing), k.(held := false), c.outputEos, sent), filled)
  }

  /** The loop for decoding, for changes of resolution, and for flushing the list at the end. */
  function Loop(w: World, t: Turn, job: Job, flushing: bool): (r: Turn)
    requires flushing ==> t.core.list.pending != []
    ensures t.hasPicture ==> r.hasPicture
    decreases 2 * |t.core.list.pending| + (if t.core.codec.held then 0 else 1)
  {
    match StartRound(w, t.core.codec)
    case Return(k, processed) =>
      t.(core := t.core.(codec := k), processed := t.processed || processed, returned := true)
    case NoPicture(k) => t.(core := t.core.(codec := k))
    case Again(k) => Loop(w, t.(core := t.core.(codec := k), processed := false), job, flushing)
    case Use(k) =>
      var (c, filled) := UsePicture(t.core, k, job, flushing);
      var t' := t.(core := c, processed := t.processed || filled, hasPicture := true);
      if flushing && c.list.pending != [] then Loop(w, t', job, flushing) else t'
  }

  // ---------- calls ----------

  datatype Outcome = Outcome(core: Core, processed: bool)

  function Listed(l: WorkList, index: nat): WorkList {
    l.(pending := l.pending + [index])
  }

  /** After the loop: close the stream, or list or drop a work that got no picture. */
  function AfterLoop(t: Turn, job: Job): Outcome {
    var c := t.core;
    if t.returned then Outcome(c, t.processed)
    else if job.eos then Outcome(c.(outputEos := true), true)
    else if t.hasPicture then Outcome(c, t.processed)
    else if !c.list.first && |c.list.pending| < MAX_WORK_PENDING_COUNT then
      Outcome(c.(list := Listed(c.list, job.index)), t.processed)
    else Outcome(c, true)
  }

  function Decoded(w: World, c: Core, job: Job): Turn {
    var flushing := job.eos && c.list.pending != [];
    var t := Turn(c, false, false, false);
    if job.hasData || flushing then Loop(w, t, job, flushing) else t
  }

  function Process(w: World, c: Core, job: Job): Outcome {
    if c.codec.error || c.outputEos || (job.hasData && !job.mappable) then Outcome(c, false)
    else if job.codecConfig then
      Outcome(c.(codec := c.codec.(clock := c.codec.clock + 1)), !job.hasData || w.alloc(c.codec.clock))
    else AfterLoop(Decoded(w, c, job), job)
  }

  /** The picture in hand survives a flush; the list does not. */
  function Flush(c: Core): Core {
    c.(list := WorkList([], false), codec := c.codec.(decInit := false, error := false), outputEos := false)
  }

  /** A stop keeps the list. */
  function Stop(c: Core): Core {
    c.(codec := c.codec.(decInit := false, error := false), outputEos := false)
  }

  // ---------- pictures are handed out in the order of the works ----------

  function Indices(sent: seq<Sent>): (r: seq<nat>)
    ensures |r| == |sent|
  {
    seq(|sent|, i requires 0 <= i < |sent| => sent[i].index)
  }

  /** The works that have been handed a picture, in that order, followed by those that wait for one. */
  function Line(c: Core): seq<nat> { Indices(c.sent) + c.list.pending }

  /** From `a` to `b` pictures were handed out as `job` asks; the works on the list got them from its
      front, and at most one work, named `index`, joined the line at its end. */
  predicate Moved(a: Core, b: Core, job: Job, joined: seq<nat>) {
    && a.sent <= b.sent
    && (forall i :: |a.sent| <= i < |b.sent| ==> b.sent[i] == Handed(job, b.sent[i].index))
    && Line(b) == Line(a) + joined
    && (a.list.first ==> b.list.first)
  }

  lemma {:induction false} MovedTwice(a: Core, b: Core, c: Core, job: Job)
    requires Moved(a, b, job, []) && Moved(b, c, job, [])
    ensures Moved(a, c, job, [])
  {
    assert Line(a) + [] == Line(a) && Line(b) + [] == Line(b);
    forall i | |a.sent| <= i < |c.sent|
      ensures c.sent[i] == Handed(job, c.sent[i].index)
    {
      if i < |b.sent| {
        assert c.sent[i] == b.sent[i];
      }
    }
  }

  /** What was handed out went to the front of the queue, and what is left of it waits. */
  lemma {:induction false} MovedSplits(a: Core, b: Core, job: Job, joined: seq<nat>)
    requires Moved(a, b, job, joined)
    ensures var n, queue := |b.sent| - |a.sent|, a.list.pending + joined;
            && 0 <= n <= |queue| && b.list.pending == queue[n..]
            && b.sent == a.sent + HandedAll(job, queue[..n])
  {
    var n, queue := |b.sent| - |a.sent|, a.list.pending + joined;
    assert Line(b) == Indices(a.sent) + queue;
    assert Line(b)[|b.sent|..] == b.list.pending;
    assert (Indices(a.sent) + queue)[|b.sent|..] == queue[n..];
    forall i | 0 <= i < n
      ensures b.sent[|a.sent| + i] == Handed(job, queue[i])
    {
      assert Line(b)[|a.sent| + i] == b.sent[|a.sent| + i].index;
      assert Line(b)[|a.sent| + i] == queue[i];
    }
  }

  /** Who joins the line when a picture is used: nobody while the list is flushed, else the current work,
      by its own index behind others, cut to 32 bits if nobody waits. */
  function Joining(pending: seq<nat>, index: nat, flushing: bool): seq<nat> {
    if flushing then [] else if pending == [] then [index % 0x1_0000_0000] else [index]
  }

  lemma {:induction false} IndicesAppend(sent: seq<Sent>, x: Sent)
    ensures Indices(sent + [x]) == Indices(sent) + [x.index]
  {
  }

  /** The front of a queue goes out, whether or not somebody joins at its end. */
  lemma {:induction false} FrontGoes(out: seq<nat>, queue: seq<nat>, joined: seq<nat>)
    requires queue + joined != []
    ensures (out + [(queue + joined)[0]]) + (queue + joined)[1..] == (out + queue) + joined
  {
  }

  lemma {:induction false} PictureMoves(c: Core, k: Codec, job: Job, flushing: bool)
    requires flushing ==> c.list.pending != []
    ensures var b := UsePicture(c, k, job, flushing).0;
            && Moved(c, b, job, Joining(c.list.pending, job.index, flushing))
            && b.list.first && |b.sent| == |c.sent| + 1
            && |b.list.pending| == if flushing then |c.list.pending| - 1 else |c.list.pending|
  {
    var l := c.list.pending;
    var b := UsePicture(c, k, job, flushing).0;
    var joined := Joining(l, job.index, flushing);
    assert b.list == AfterTarget(c.list, job.index, flushing);
    assert b.sent == c.sent + [Handed(job, Target(l, job.index))];
    IndicesAppend(c.sent, Handed(job, Target(l, job.index)));
    assert flushing ==> l + joined == l;
    assert l == [] ==> l + joined == joined;
    assert [Target(l, job.index)][0] == (l + joined)[0];
    assert b.list.pending == (l + joined)[1..];
    assert Line(b) == Line(c) + joined by {
      FrontGoes(Indices(c.sent), l, joined);
    }
  }

  /** What the loop did to the line: while flushing nobody joins; otherwise somebody joins exactly if a
      picture was had. */
  predicate LoopMoved(t: Turn, r: Turn, job: Job, flushing: bool) {
    && (if flushing || r.core.sent == t.core.sent then Moved(t.core, r.core, job, [])
        else Moved(t.core, r.core, job, Joining(t.core.list.pending, job.index, false))
             && |r.core.sent| == |t.core.sent| + 1 && |r.core.list.pending| == |t.core.list.pending|)
    && (r.core.sent == t.core.sent ==> r.core.list == t.core.list && r.hasPicture == t.hasPicture)
    && (r.core.sent != t.core.sent ==> r.core.list.first && r.hasPicture)
  }

  /** A picture used in a loop. */
  lemma {:induction false} UseMoves(w: World, t: Turn, job: Job, flushing: bool)
    requires (flushing ==> t.core.list.pending != []) && StartRound(w, t.core.codec).Use?
    ensures var (c, filled) := UsePicture(t.core, StartRound(w, t.core.codec).codec, job, flushing);
            && LoopMoved(t, t.(core := c, processed := t.processed || filled, hasPicture := true), job, flushing)
            && |c.sent| == |t.core.sent| + 1 && c.list.first
            && (flushing ==> |c.list.pending| < |t.core.list.pending| && Moved(t.core, c, job, []))
  {
    PictureMoves(t.core, StartRound(w, t.core.codec).codec, job, flushing);
    hide Moved, UsePicture, StartRound;
  }

  lemma {:induction false} LoopMoves(w: World, t: Turn, job: Job, flushing: bool)
    requires flushing ==> t.core.list.pending != []
    ensures LoopMoved(t, Loop(w, t, job, flushing), job, flushing)
    decreases 2 * |t.core.list.pending| + (if t.core.codec.held then 0 else 1)
  {
    hide UsePicture, StartRound;
    var h := StartRound(w, t.core.codec);
    if h.Again? {
      var t' := t.(core := t.core.(codec := h.codec), processed := false);
      LoopMoves(w, t', job, flushing);
      assert Loop(w, t, job, flushing) == Loop(w, t', job, flushing);
    } else if h.Use? {
      UseMoves(w, t, job, flushing);
      var (c, filled) := UsePicture(t.core, h.codec, job, flushing);
      var t' := t.(core := c, processed := t.processed || filled, hasPicture := true);
      if flushing && c.list.pending != [] {
        LoopMoves(w, t', job, flushing);
        assert Loop(w, t, job, flushing) == Loop(w, t', job, flushing);
        FlushedOn(t, t', Loop(w, t, job, flushing), job);
      } else {
        assert Loop(w, t, job, flushing) == t';
      }
    } else {
      assert Line(t.core) + [] == Line(t.core);
    }
  }

  lemma {:induction false} FlushedOn(t: Turn, t': Turn, r: Turn, job: Job)
    requires LoopMoved(t', r, job, true) && t'.hasPicture && t'.core.list.first
    requires Moved(t.core, t'.core, job, []) && |t'.core.sent| == |t.core.sent| + 1
    ensures LoopMoved(t, r, job, true)
  {
    MovedTwice(t.core, t'.core, r.core, job);
    assert |t'.core.sent| <= |r.core.sent|;
  }

  /** Who joins the line in a call that led from `c` to `out`: with a picture as above, without one the
      current work if it is listed. */
  function Joined(c: Core, out: Core, job: Job): seq<nat> {
    if out.sent != c.sent then Joining(c.list.pending, job.index, job.eos && c.list.pending != [])
    else if |out.list.pending| > |c.list.pending| then [job.index]
    else []
  }

  /** One call hands out pictures to the works in front, lets at most the current work join the line, and
      once a picture has been had does not let the list grow beyond its at most seven works. */
  lemma {:induction false} ProcessKeepsOrder(w: World, c: Core, job: Job)
    requires |c.list.pending| <= MAX_WORK_PENDING_COUNT
    ensures var c' := Process(w, c, job).core;
            && Moved(c, c', job, Joined(c, c', job))
            && |c'.list.pending| <= MAX_WORK_PENDING_COUNT
            && (c.list.first ==> |c'.list.pending| <= |c.list.pending|)
  {
    var c' := Process(w, c, job).core;
    assert Line(c) + [] == Line(c);
    if !(c.codec.error || c.outputEos || (job.hasData && !job.mappable)) && !job.codecConfig {
      var flushing := job.eos && c.list.pending != [];
      var t := Turn(c, false, false, false);
      if job.hasData || flushing {
        LoopMoves(w, t, job, flushing);
      }
      var r := Decoded(w, c, job);
      assert LoopMoved(t, r, job, flushing);
      if c'.list != r.core.list {
        assert r.core.list == c.list;
        assert c'.list.pending == c.list.pending + [job.index];
        assert Line(c') == Line(c) + [job.index];
      }
    }
  }

  // ---------- which works are left unprocessed ----------

  /** Between two readings of the call counter the last output block was fetched but could not be mapped. */
  predicate Unmapped(w: World, before: nat, after: nat) {
    before < after && w.block(after - 1) && !w.view(after - 1)
  }

  /** The loop leaves a work that is not listed unprocessed if the last block could not be mapped, and,
      outside the end of a stream, if it had a picture that went to another work or to a cut index, or none
      without leaving early. */
  predicate LeavesUnprocessed(w: World, t: Turn, r: Turn, job: Job) {
    && (Unmapped(w, t.core.codec.clock, r.core.codec.clock) <==> r.returned && !r.processed)
    && (!r.returned && !job.eos ==>
          (r.processed <==> r.core.sent != t.core.sent && t.core.list.pending == [] && job.index < 0x1_0000_0000))
    && (r.returned ==> (job.eos && t.core.list.pending != []) || r.core.sent == t.core.sent)
    && (job.eos && !r.returned ==> !r.processed)
    && t.core.codec.clock < r.core.codec.clock
  }

  /** A picture used at the end of the loop. */
  lemma {:induction false} UseLeavesUnprocessed(w: World, t: Turn, job: Job, flushing: bool)
    requires flushing == (job.eos && t.core.list.pending != []) && job.index !in t.core.list.pending
    requires !t.processed && !t.returned && StartRound(w, t.core.codec).Use?
    ensures var (c, filled) := UsePicture(t.core, StartRound(w, t.core.codec).codec, job, flushing);
            && LeavesUnprocessed(w, t, t.(core := c, processed := filled, hasPicture := true), job)
            && (flushing ==> !filled && job.index !in c.list.pending)
            && c.codec.clock == t.core.codec.clock + 1
  {
    var l := t.core.list.pending;
    var c := UsePicture(t.core, StartRound(w, t.core.codec).codec, job, flushing).0;
    hide Decode;
    assert |c.sent| == |t.core.sent| + 1;
    assert l != [] ==> Target(l, job.index) in l;
    assert l != [] && flushing ==> c.list.pending == l[1..];
  }

  lemma {:induction false} LoopLeavesUnprocessed(w: World, t: Turn, job: Job, flushing: bool)
    requires flushing == (job.eos && t.core.list.pending != []) && job.index !in t.core.list.pending
    requires !t.processed && !t.returned
    ensures LeavesUnprocessed(w, t, Loop(w, t, job, flushing), job)
    decreases 2 * |t.core.list.pending| + (if t.core.codec.held then 0 else 1)
  {
    hide Decode, UsePicture;
    match StartRound(w, t.core.codec)
    case Return(_, _) =>
    case NoPicture(_) =>
    case Again(k) =>
      var t' := t.(core := t.core.(codec := k), processed := false);
      LoopLeavesUnprocessed(w, t', job, flushing);
      assert Loop(w, t, job, flushing) == Loop(w, t', job, flushing);
    case Use(k) =>
      UseLeavesUnprocessed(w, t, job, flushing);
      PictureMoves(t.core, k, job, flushing);
      var (c, filled) := UsePicture(t.core, k, job, flushing);
      var t' := t.(core := c, processed := t.processed || filled, hasPicture := true);
      if flushing && c.list.pending != [] {
        LoopLeavesUnprocessed(w, t', job, flushing);
        assert Loop(w, t, job, flushing) == Loop(w, t', job, flushing);
      } else {
        assert Loop(w, t, job, flushing) == t';
      }
  }

  /** The calls that leave a work unprocessed without listing it: after an error or the end of the stream,
      with unreadable input, without memory for codec data or for the view of a block, and where the work's
      own picture, with nobody waiting, is looked up under an index cut to 32 bits. */
  predicate Abandons(w: World, c: Core, out: Core, job: Job) {
    || c.codec.error || c.outputEos || (job.hasData && !job.mappable)
    || (if job.codecConfig then job.hasData && !w.alloc(c.codec.clock)
        else || Unmapped(w, c.codec.clock, out.codec.clock)
             || (!job.eos && c.list.pending == [] && out.sent != c.sent && job.index >= 0x1_0000_0000))
  }

  /** After a loop outside the flush of the list, the current work is on it exactly if it joined behind
      others; flushing never lists it. */
  lemma {:induction false} LoopLists(t: Turn, r: Turn, job: Job, flushing: bool)
    requires LoopMoved(t, r, job, flushing) && job.index !in t.core.list.pending
    ensures var l := r.core.list.pending;
            && (job.index in l <==> !flushing && r.core.sent != t.core.sent && t.core.list.pending != [])
            && (job.index in l ==> l[|l| - 1] == job.index)
  {
    var joined := if flushing || r.core.sent == t.core.sent then [] else Joining(t.core.list.pending, job.index, false);
    MovedSplits(t.core, r.core, job, joined);
    var queue, n := t.core.list.pending + joined, |r.core.sent| - |t.core.sent|;
    assert r.core.list.pending == queue[n..];
    if !flushing && r.core.sent != t.core.sent && t.core.list.pending != [] {
      assert queue[|queue| - 1] == job.index && queue[n..][|queue| - n - 1] == queue[|queue| - 1];
    } else if t.core.list.pending != [] {
      assert queue == t.core.list.pending;
    }
  }

  lemma {:induction false} AfterLoopUnprocessed(w: World, t: Turn, r: Turn, job: Job)
    requires job.index !in t.core.list.pending && !t.processed && !t.returned && !t.hasPicture
    requires var flushing := job.eos && t.core.list.pending != [];
             if job.hasData || flushing
             then LoopMoved(t, r, job, flushing) && LeavesUnprocessed(w, t, r, job)
             else r == t
    ensures var out := AfterLoop(r, job); var l := out.core.list.pending;
            && (!out.processed <==>
                  || job.index in l || Unmapped(w, t.core.codec.clock, r.core.codec.clock)
                  || (!job.eos && t.core.list.pending == [] && r.core.sent != t.core.sent
                      && job.index >= 0x1_0000_0000))
            && (job.index in l ==> l[|l| - 1] == job.index)
            && (t.core.list.pending == [] && r.core.sent != t.core.sent ==>
                  (out.processed <==> job.eos || job.index < 0x1_0000_0000))
            && out.core.sent == r.core.sent && out.core.codec == r.core.codec
  {
    var flushing := job.eos && t.core.list.pending != [];
    if job.hasData || flushing {
      LoopLists(t, r, job, flushing);
    }
    hide Moved, Unmapped;
  }

  /** After a call its work is left unprocessed, so that the shell keeps it pending under its index, if and
      only if it is on the list and will be answered, or the call abandoned it. With its own picture it is
      abandoned exactly if its index is cut and it does not end the stream. */
  lemma {:induction false} UnprocessedIff(w: World, c: Core, job: Job)
    requires job.index !in c.list.pending
    ensures var out := Process(w, c, job); var l := out.core.list.pending;
            && (!out.processed <==> job.index in l || Abandons(w, c, out.core, job))
            && (job.index in l ==> l[|l| - 1] == job.index)
            && (c.list.pending == [] && out.core.sent != c.sent ==>
                  (out.processed <==> job.eos || job.index < 0x1_0000_0000))
  {
    hide Loop, LoopMoved, AfterLoop, LeavesUnprocessed;
    if !(c.codec.error || c.outputEos || (job.hasData && !job.mappable)) && !job.codecConfig {
      var flushing := job.eos && c.list.pending != [];
      var t := Turn(c, false, false, false);
      if job.hasData || flushing {
        LoopMoves(w, t, job, flushing);
        LoopLeavesUnprocessed(w, t, job, flushing);
      }
      AfterLoopUnprocessed(w, t, Decoded(w, c, job), job);
    }
  }

  // ---------- the end of a stream ----------

  /** Call number `n` gets an output block that can be mapped. */
  predicate Room(w: World, n: nat) { w.block(n) && w.view(n) }

  /** Call number `n` of a codec without a picture in hand yields one. */
  predicate Decodes(w: World, k: Codec, n: nat) {
    (k.decInit || w.init(n)) && w.alloc(n) && w.decode(n).Picture?
  }

  predicate NewSize(k: Codec, r: Reply)
    requires r.Picture?
  {
    r.width != 0 && r.height != 0 && (r.width != k.width || r.height != k.height)
  }

  /** How many pictures, at most `limit`, the codec yields in succession. Each needs an output block that can
      be mapped. One of a new size, which the parameter store has to take, needs a second block. */
  function Yield(w: World, k: Codec, limit: nat): (n: nat)
    ensures n <= limit
    decreases 2 * limit + (if k.held then 0 else 1)
  {
    var n := k.clock;
    var k' := k.(decInit := true, clock := n + 1);
    if limit == 0 || !Room(w, n) then 0
    else if k.held then 1 + Yield(w, k.(held := false, clock := n + 1), limit - 1)
    else if !Decodes(w, k, n) then 0
    else if !NewSize(k, w.decode(n)) then 1 + Yield(w, k', limit - 1)
    else if !w.config(n) then 0
    else Yield(w, k'.(width := w.decode(n).width, height := w.decode(n).height, held := true), limit)
  }

  lemma {:induction false} RoundYields(w: World, k: Codec, limit: nat)
    requires limit > 0
    ensures match StartRound(w, k)
            case Return(_, _) => Yield(w, k, limit) == 0
            case NoPicture(_) => Yield(w, k, limit) == 0
            case Again(k') => Yield(w, k, limit) == Yield(w, k', limit)
            case Use(k') => Yield(w, k, limit) == 1 + Yield(w, k'.(held := false), limit - 1)
  {
    if Room(w, k.clock) && !k.held && Decodes(w, k, k.clock) && !NewSize(k, w.decode(k.clock)) {
      assert StartRound(w, k) == Use(k.(decInit := true, clock := k.clock + 1));
    }
  }

  /** The flush of the list hands out as many pictures as the codec yields for the works on it. */
  lemma {:induction false} FlushYields(w: World, t: Turn, job: Job)
    requires t.core.list.pending != []
    ensures |Loop(w, t, job, true).core.sent| == |t.core.sent| + Yield(w, t.core.codec, |t.core.list.pending|)
    decreases 2 * |t.core.list.pending| + (if t.core.codec.held then 0 else 1)
  {
    var l := t.core.list.pending;
    RoundYields(w, t.core.codec, |l|);
    FlushRound(w, t, job);
    hide StartRound, Yield, UsePicture, Loop;
    match StartRound(w, t.core.codec)
    case Return(_, _) =>
    case NoPicture(_) =>
    case Again(k) =>
      var t' := t.(core := t.core.(codec := k), processed := false);
      FlushYields(w, t', job);
    case Use(k) =>
      var (c, filled) := UsePicture(t.core, k, job, true);
      var t' := t.(core := c, processed := t.processed || filled, hasPicture := true);
      FlushedOne(t.core, k, job);
      if c.list.pending != [] {
        FlushYields(w, t', job);
      } else {
        YieldNone(w, c.codec);
      }
  }

  /** One round of the flush. */
  lemma {:induction false} FlushRound(w: World, t: Turn, job: Job)
    requires t.core.list.pending != []
    ensures var r := Loop(w, t, job, true);
            match StartRound(w, t.core.codec)
            case Return(_, _) => r.core.sent == t.core.sent
            case NoPicture(_) => r.core.sent == t.core.sent
            case Again(k) => r == Loop(w, t.(core := t.core.(codec := k), processed := false), job, true)
            case Use(k) =>
              var (c, filled) := UsePicture(t.core, k, job, true);
              var t' := t.(core := c, processed := t.processed || filled, hasPicture := true);
              r == if c.list.pending == [] then t' else Loop(w, t', job, true)
  {
    hide StartRound, UsePicture;
  }

  lemma {:induction false} FlushedOne(c: Core, k: Codec, job: Job)
    requires c.list.pending != []
    ensures var c' := UsePicture(c, k, job, true).0;
            && |c'.list.pending| == |c.list.pending| - 1 && |c'.sent| == |c.sent| + 1
            && c'.codec == k.(held := false)
  {
  }

  lemma {:induction false} YieldNone(w: World, k: Codec)
    ensures Yield(w, k, 0) == 0
  {
  }

  /** The call that ends a stream while works wait hands pictures to the first of them, in order, as many as
      the codec yields; so every one of them gets its picture if and only if the codec yields as many as
      works wait. The others stay on the list. */
  lemma {:induction false} EosServes(w: World, c: Core, job: Job)
    requires job.eos && c.list.pending != []
    requires !c.codec.error && !c.outputEos && (job.hasData ==> job.mappable) && !job.codecConfig
    ensures var out, l := Process(w, c, job).core, c.list.pending; var n := Yield(w, c.codec, |l|);
            && out.sent == c.sent + HandedAll(job, l[..n]) && out.list.pending == l[n..]
            && (out.sent == c.sent + HandedAll(job, l) <==> n == |l|)
  {
    var t, l := Turn(c, false, false, false), c.list.pending;
    var r := Loop(w, t, job, true);
    FlushYields(w, t, job);
    LoopMoves(w, t, job, true);
    MovedSplits(c, r.core, job, []);
    assert l + [] == l && l[..|l|] == l;
    var out := Process(w, c, job).core;
    assert out.sent == r.core.sent && out.list == r.core.list;
    hide Loop, Yield, Moved, Process;
    var n := Yield(w, c.codec, |l|);
    if n < |l| {
      assert |HandedAll(job, l[..n])| == n;
    }
  }

  /** These pictures all go through `finish`, since the work that ends the stream is not on the list. */
  lemma {:induction false} OthersAreFinished(job: Job, pending: seq<nat>)
    requires job.index !in pending
    ensures HandedAll(job, pending) == seq(|pending|, i requires 0 <= i < |pending| => Finished(pending[i]))
  {
    forall i | 0 <= i < |pending|
      ensures HandedAll(job, pending)[i] == Finished(pending[i])
    {
      assert pending[i] in pending;
    }
  }

  /** A picture that comes while no work waits is sent for the current work exactly when its frame index
      fits 32 bits. */
  lemma {:induction false} OwnPicture(c: Core, k: Codec, job: Job, flushing: bool)
    requires c.list.pending == []
    ensures var (c', filled) := UsePicture(c, k, job, flushing);
            && |c'.sent| == |c.sent| + 1
            && (c'.sent[|c.sent|].index == job.index <==> job.index < 0x1_0000_0000)
            && (filled <==> !job.eos && job.index < 0x1_0000_0000)
  {
  }

  // ---------- runs ----------

  datatype Call = ProcessCall(job: Job) | FlushCall | StopCall

  function Step(w: World, c: Core, call: Call): Core {
    match call
    case ProcessCall(job) => Process(w, c, job).core
    case FlushCall => Flush(c)
    case StopCall => Stop(c)
  }

  function Run(w: World, c: Core, calls: seq<Call>): Core
    decreases |calls|
  {
    if calls == [] then c else Run(w, Step(w, c, calls[0]), calls[1..])
  }

  const INITIAL := Core(WorkList([], false), Codec(false, 320, 240, false, false, 0), false, [])

  lemma {:induction false} StepKeepsBound(w: World, c: Core, call: Call)
    requires |c.list.pending| <= MAX_WORK_PENDING_COUNT
    ensures var l := Step(w, c, call).list;
            && |l.pending| <= MAX_WORK_PENDING_COUNT
            && (c.list.first && !call.FlushCall? ==> l.first && |l.pending| <= |c.list.pending|)
  {
    match call
    case ProcessCall(job) => ProcessKeepsOrder(w, c, job);
    case FlushCall =>
    case StopCall =>
  }

  /** In every run the list holds at most seven works, and from the first picture on it does not grow
      until a flush. */
  lemma {:induction false} RunKeepsBound(w: World, c: Core, calls: seq<Call>)
    requires |c.list.pending| <= MAX_WORK_PENDING_COUNT
    ensures var l := Run(w, c, calls).list;
            && |l.pending| <= MAX_WORK_PENDING_COUNT
            && (c.list.first && FlushCall !in calls ==> l.first && |l.pending| <= |c.list.pending|)
    decreases |calls|
  {
    if calls != [] {
      StepKeepsBound(w, c, calls[0]);
      hide Step;
      RunKeepsBound(w, Step(w, c, calls[0]), calls[1..]);
    }
  }

  /** The first sequence is the second with some of its elements left out. */
  predicate Within(s: seq<nat>, whole: seq<nat>)
    decreases |whole|
  {
    s == [] || (whole != [] && (Within(s, whole[1..]) || (s[0] == whole[0] && Within(s[1..], whole[1..]))))
  }

  /** Appending to the whole, or to both. */
  lemma {:induction false} WithinGrows(s: seq<nat>, whole: seq<nat>, joined: seq<nat>, x: nat)
    requires Within(s, whole) && joined in {[], [x]}
    ensures Within(s + joined, whole + [x])
    decreases |whole|
  {
    if whole == [] {
      assert s + joined == joined && whole + [x] == [x];
      assert [x][1..] == [];
    } else {
      assert (whole + [x])[1..] == whole[1..] + [x];
      if Within(s, whole[1..]) {
        WithinGrows(s, whole[1..], joined, x);
      } else {
        assert (s + joined)[1..] == s[1..] + joined;
        WithinGrows(s[1..], whole[1..], joined, x);
      }
    }
  }

  lemma {:induction false} WithinPrefix(s: seq<nat>, rest: seq<nat>, whole: seq<nat>)
    requires Within(s + rest, whole)
    ensures Within(s, whole)
    decreases |whole|
  {
    if s != [] {
      if Within(s + rest, whole[1..]) {
        WithinPrefix(s, rest, whole[1..]);
      } else {
        assert (s + rest)[1..] == s[1..] + rest;
        WithinPrefix(s[1..], rest, whole[1..]);
      }
    }
  }

  function Cut(s: seq<nat>): (r: seq<nat>)
    ensures |r| == |s|
  {
    seq(|s|, i requires 0 <= i < |s| => s[i] % 0x1_0000_0000)
  }

  function Jobs(calls: seq<Call>): seq<nat>
    decreases |calls|
  {
    if calls == [] then []
    else (if calls[0].ProcessCall? then [calls[0].job.index] else []) + Jobs(calls[1..])
  }

  lemma {:induction false} StepInOrder(w: World, c: Core, call: Call, before: seq<nat>)
    requires |c.list.pending| <= MAX_WORK_PENDING_COUNT && Within(Cut(Line(c)), Cut(before))
    ensures Within(Cut(Line(Step(w, c, call))), Cut(before + Jobs([call])))
  {
    match call
    case ProcessCall(job) =>
      ProcessKeepsOrder(w, c, job);
      var joined := Joined(c, Step(w, c, call), job);
      assert Jobs([call]) == [job.index] + Jobs([call][1..]) == [job.index];
      assert Cut(Line(c) + joined) == Cut(Line(c)) + Cut(joined);
      assert Cut(before + [job.index]) == Cut(before) + [job.index % 0x1_0000_0000];
      assert joined != [] ==> Cut(joined) == [job.index % 0x1_0000_0000];
      WithinGrows(Cut(Line(c)), Cut(before), Cut(joined), job.index % 0x1_0000_0000);
    case FlushCall =>
      assert Cut(Line(c)) == Cut(Indices(c.sent)) + Cut(c.list.pending);
      WithinPrefix(Cut(Indices(c.sent)), Cut(c.list.pending), Cut(before));
      assert Indices(c.sent) + [] == Indices(c.sent);
      assert before + Jobs([call]) == before;
    case StopCall =>
      assert before + Jobs([call]) == before;
  }

  /** In every run of calls, flushes and stops, pictures are handed out in the order in which the works came
      and at most one for each: the works with a picture, followed by those that wait, are the works of the
      run with some left out, by their indices in 32 bits. */
  lemma {:induction false} RunInOrder(w: World, c: Core, calls: seq<Call>, before: seq<nat>)
    requires |c.list.pending| <= MAX_WORK_PENDING_COUNT && Within(Cut(Line(c)), Cut(before))
    ensures Within(Cut(Line(Run(w, c, calls))), Cut(before + Jobs(calls)))
    decreases |calls|
  {
    hide Within, Cut, Line, Step;
    if calls == [] {
      assert before + Jobs(calls) == before;
    } else {
      StepInOrder(w, c, calls[0], before);
      StepKeepsBound(w, c, calls[0]);
      RunInOrder(w, Step(w, c, calls[0]), calls[1..], before + Jobs([calls[0]]));
      FirstJob(before, calls);
    }
  }

  lemma {:induction false} FirstJob(before: seq<nat>, calls: seq<Call>)
    requires calls != []
    ensures before + Jobs([calls[0]]) + Jobs(calls[1..]) == before + Jobs(calls)
  {
    assert [calls[0]][1..] == [];
  }

  // ---------- inputs that show what can go wrong ----------

  function Always(reply: Reply): World {
    World(_ => true, _ => true, _ => true, _ => true, _ => reply, _ => true)
  }

  /** The first work, of frame index 2^32 + 5, gets its picture at once, but it is sent for index 5. */
  lemma {:induction false} CutIndexWitness()
    ensures var out := Process(Always(Picture(320, 240)), INITIAL, Job(0x1_0000_0005, true, true, false, false));
            out.core.sent == [Finished(5)] && !out.processed && out.core.list.pending == []
  {
    var w, job := Always(Picture(320, 240)), Job(0x1_0000_0005, true, true, false, false);
    assert StartRound(w, INITIAL.codec) == Use(INITIAL.codec.(decInit := true, clock := 1));
  }

  /** A codec that has no picture when asked at the end leaves the work before on the list for good. */
  lemma {:induction false} FailingFlushWitness()
    ensures var c := Process(Always(Failed), INITIAL, Job(1, true, true, false, false)).core;
            var out := Process(Always(Failed), c, Job(2, true, true, true, false));
            c.list.pending == [1] && out.processed && out.core.outputEos
            && out.core.list.pending == [1] && out.core.sent == []
  {
    var w, k := Always(Failed), INITIAL.codec.(decInit := true, clock := 1);
    assert StartRound(w, INITIAL.codec) == NoPicture(k);
    assert StartRound(w, k) == NoPicture(k.(clock := 2));
  }
}
