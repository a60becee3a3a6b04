/** The queue of works that the shell of a software decoder shares between its client threads and its
    looper thread, and what each section under the queue's lock does to it. */
module WorkQueues {
  import opened Options

  /** A work: the object handed over by the client, and the frame index written in it. Works are
      different objects even when a client repeats a frame index. */
  datatype Work = Work(id: nat, index: nat)

  datatype Entry = WorkEntry(work: Work) | DrainEntry(mode: nat)

  datatype Result = Done | NotFound | Corrupted

  datatype Report = Report(work: Work, result: Result)

  datatype Queue = Queue(entries: seq<Entry>, pending: map<nat, Work>, generation: nat, flush: bool)

  /** What the looper remembers of the entry it has popped. */
  datatype Job = Job(entry: Entry, generation: nat, flushFirst: bool, hasQueued: bool)

  function WorkOf(e: Entry): seq<Work> {
    match e
    case WorkEntry(w) => [w]
    case DrainEntry(_) => []
  }

  /** The works in a list of entries, in order. */
  function Works(entries: seq<Entry>): seq<Work> {
    if entries == [] then [] else WorkOf(entries[0]) + Works(entries[1..])
  }

  function Entries(works: seq<Work>): (r: seq<Entry>)
    ensures |r| == |works|
  {
    if works == [] then [] else [WorkEntry(works[0])] + Entries(works[1..])
  }

  function Push(q: Queue, works: seq<Work>): Queue { q.(entries := q.entries + Entries(works)) }

  function Mark(q: Queue, mode: nat): Queue { q.(entries := q.entries + [DrainEntry(mode)]) }

  function Emptied(q: Queue): Queue { Queue([], map[], q.generation + 1, true) }

  function Cleared(q: Queue): Queue { q.(entries := [], pending := map[]) }

  function Pop(q: Queue): (r: (Queue, Job))
    requires q.entries != []
  {
    (q.(entries := q.entries[1..], flush := false),
     Job(q.entries[0], q.generation, q.flush, |q.entries| > 1))
  }

  function Take(q: Queue, index: nat): (Queue, Option<Work>) {
    if index in q.pending then (q.(pending := q.pending - {index}), Some(q.pending[index])) else (q, None)
  }

  /** The end of a work's processing: it is stale, done, or left pending in place of whatever was
      pending under its frame index. */
  function Complete(q: Queue, w: Work, generation: nat, processed: bool): (Queue, Option<Report>) {
    if q.generation != generation then (q, Some(Report(w, NotFound)))
    else if processed then (q, Some(Report(w, Done)))
    else (q.(pending := q.pending[w.index := w]),
          if w.index in q.pending then Some(Report(q.pending[w.index], Corrupted)) else None)
  }

  /** Every pending work sits under its own frame index. */
  predicate Keyed(pending: map<nat, Work>) {
    forall k :: k in pending ==> pending[k].index == k
  }

  function PendingWorks(pending: map<nat, Work>): multiset<Work> { multiset(pending.Values) }

  lemma {:induction false} PendingRemove(pending: map<nat, Work>, k: nat)
    requires Keyed(pending) && k in pending
    ensures Keyed(pending - {k})
    ensures PendingWorks(pending) == PendingWorks(pending - {k}) + multiset{pending[k]}
  {
    var rest := pending - {k};
    assert pending.Values == rest.Values + {pending[k]} by {
      forall w | w in pending.Values
        ensures w in rest.Values + {pending[k]}
      {
        assert pending[w.index] == w;
        if w.index != k {
          assert rest[w.index] == w;
        }
      }
      forall w | w in rest.Values
        ensures w in pending.Values
      {
        assert pending[w.index] == w;
      }
    }
    assert pending[k] !in rest.Values;
  }

  lemma {:induction false} PendingInsert(pending: map<nat, Work>, w: Work)
    requires Keyed(pending) && w.index !in pending
    ensures Keyed(pending[w.index := w])
    ensures PendingWorks(pending[w.index := w]) == PendingWorks(pending) + multiset{w}
  {
    var more := pending[w.index := w];
    PendingRemove(more, w.index);
    assert more - {w.index} == pending;
  }

  lemma {:induction false} WorksOfEntries(works: seq<Work>)
    ensures Works(Entries(works)) == works
  {
    if works != [] {
      WorksOfEntries(works[1..]);
    }
  }

  // ---------- what the sections mean for each other ----------

  /** The jobs of a queue that is popped until it is empty. */
  function PopAll(q: Queue): (jobs: seq<Job>)
    ensures |jobs| == |q.entries|
    decreases |q.entries|
  {
    if q.entries == [] then [] else [Pop(q).1] + PopAll(Pop(q).0)
  }

  /** Works and drain marks come out one by one, oldest first; a pending flush goes with the first and with
      no other, and every job but the last says that more is queued. */
  lemma {:induction false} PopsInOrder(q: Queue, i: nat)
    requires i < |q.entries|
    ensures PopAll(q)[i] == Job(q.entries[i], q.generation, i == 0 && q.flush, i + 1 < |q.entries|)
    decreases |q.entries|
  {
    var (rest, first) := Pop(q);
    assert PopAll(q) == [first] + PopAll(rest);
    if i > 0 {
      PopsInOrder(rest, i - 1);
    }
  }

  /** What is queued later comes out later: works in the order of the call, then a drain mark. */
  lemma {:induction false} QueuedComesLast(q: Queue, works: seq<Work>, mode: nat, i: nat)
    requires i <= |works|
    ensures var jobs := PopAll(Mark(Push(q, works), mode));
            && |jobs| == |q.entries| + |works| + 1
            && jobs[|q.entries| + i].entry == if i < |works| then WorkEntry(works[i]) else DrainEntry(mode)
  {
    var p := Mark(Push(q, works), mode);
    PopsInOrder(p, |q.entries| + i);
    EntriesAt(works);
  }

  lemma {:induction false} EntriesAt(works: seq<Work>)
    ensures forall i :: 0 <= i < |works| ==> Entries(works)[i] == WorkEntry(works[i])
  {
    if works != [] {
      EntriesAt(works[1..]);
    }
  }

  /** A work left pending is what `finish` finds under its index, and taking it restores what was pending. */
  lemma {:induction false} ParkedIsTaken(q: Queue, w: Work)
    requires w.index !in q.pending
    ensures var (parked, report) := Complete(q, w, q.generation, false);
            report == None && Take(parked, w.index) == (q, Some(w))
  {
    assert q.pending[w.index := w] - {w.index} == q.pending;
  }

  /** The work that a section hands back. */
  function Back(report: Option<Report>): multiset<Work> {
    if report.Some? then multiset{report.value.work} else multiset{}
  }

  /** However a work ends, it and the works that were pending are afterwards pending or handed back, none
      twice, also when another was pending under its index. */
  lemma {:induction false} CompleteAccounts(q: Queue, w: Work, generation: nat, processed: bool)
    requires Keyed(q.pending)
    ensures var (q', report) := Complete(q, w, generation, processed);
            && Keyed(q'.pending)
            && PendingWorks(q'.pending) + Back(report) == PendingWorks(q.pending) + multiset{w}
  {
    if q.generation == generation && !processed {
      if w.index in q.pending {
        PendingRemove(q.pending, w.index);
        PendingInsert(q.pending - {w.index}, w);
        assert (q.pending - {w.index})[w.index := w] == q.pending[w.index := w];
      } else {
        PendingInsert(q.pending, w);
      }
    }
  }

  class WorkQueue {
    var entries: seq<Entry>
    var pending: map<nat, Work>
    var generation: nat
    var flush: bool

    ghost predicate Valid()
      reads this
    {
      Keyed(pending)
    }

    ghost function State(): Queue
      reads this
    {
      Queue(entries, pending, generation, flush)
    }

    constructor ()
      ensures Valid() && State() == Queue([], map[], 0, false)
    {
      entries, pending, generation, flush := [], map[], 0, false;
    }

    /** The locked section of `queue_nb`. */
    method QueueItems(items: seq<Work>) returns (queueWasEmpty: bool)
      modifies this`entries
      ensures State() == Push(old(State()), items)
      ensures queueWasEmpty <==> old(entries) == []
    {
      queueWasEmpty := entries == [];
      var rest := items;
      while rest != []
        invariant entries + Entries(rest) == old(entries) + Entries(items)
        decreases |rest|
      {
        entries := entries + [WorkEntry(rest[0])];
        rest := rest[1..];
      }
    }

    /** The locked section of `drain_nb`. */
    method MarkDrain(mode: nat) returns (queueWasEmpty: bool)
      modifies this`entries
      ensures State() == Mark(old(State()), mode)
      ensures queueWasEmpty <==> old(entries) == []
    {
      queueWasEmpty := entries == [];
      entries := entries + [DrainEntry(mode)];
    }

    /** Takes all queued works out, in order; drain marks are forgotten. */
    method TakeQueued() returns (works: seq<Work>)
      modifies this`entries
      ensures entries == [] && works == Works(old(entries))
    {
      works := [];
      while entries != []
        invariant works + Works(entries) == Works(old(entries))
        decreases |entries|
      {
        ghost var before := works;
        match entries[0] {
          case WorkEntry(w) => works := works + [w];
          case DrainEntry(_) =>
        }
        assert works == before + WorkOf(entries[0]);
        entries := entries[1..];
      }
      assert works + [] == works;
    }

    /** Takes all pending works out, in no particular order. */
    method TakeAllPending() returns (works: seq<Work>)
      requires Valid()
      modifies this`pending
      ensures Valid() && pending == map[] && multiset(works) == PendingWorks(old(pending))
    {
      works := [];
      while pending != map[]
        invariant Valid() && multiset(works) + PendingWorks(pending) == PendingWorks(old(pending))
        decreases pending.Keys
      {
        var index :| index in pending;
        PendingRemove(pending, index);
        works := works + [pending[index]];
        pending := pending - {index};
      }
    }

    /** The locked section of `flush_sm`: the queued works, in order, then the pending ones. */
    method FlushAll() returns (flushed: seq<Work>)
      requires Valid()
      modifies this
      ensures Valid() && State() == Emptied(old(State()))
      ensures Works(old(entries)) <= flushed
      ensures multiset(flushed[|Works(old(entries))|..]) == PendingWorks(old(pending))
    {
      generation, flush := generation + 1, true;
      var queued := TakeQueued();
      var rest := TakeAllPending();
      flushed := queued + rest;
      assert flushed[|queued|..] == rest;
    }

    /** The locked section at the start of `processQueue`. */
    method PopFront() returns (job: Job)
      requires entries != []
      modifies this`entries, this`flush
      ensures (State(), job) == Pop(old(State()))
    {
      var isFlushPending := flush;
      flush := false;
      var entry := entries[0];
      entries := entries[1..];
      job := Job(entry, generation, isFlushPending, entries != []);
    }

    /** The locked section of `finish`. */
    method TakePending(index: nat) returns (work: Option<Work>)
      requires Valid()
      modifies this`pending
      ensures Valid()
      ensures (State(), work) == Take(old(State()), index)
    {
      if index !in pending {
        return None;
      }
      work := Some(pending[index]);
      pending := pending - {index};
    }

    /** The locked section at the end of `processQueue`: what is to be returned, if anything. */
    method CompleteWork(w: Work, gen: nat, processed: bool) returns (report: Option<Report>)
      requires Valid()
      modifies this`pending
      ensures Valid()
      ensures (State(), report) == Complete(old(State()), w, gen, processed)
    {
      if generation != gen {
        return Some(Report(w, NotFound));
      }
      if processed {
        return Some(Report(w, Done));
      }
      report := None;
      if w.index in pending {
        report := Some(Report(pending[w.index], Corrupted));
        pending := pending - {w.index};
      }
      pending := pending[w.index := w];
      assert pending == old(pending)[w.index := w];
    }

    /** The locked section of `stop` and `reset`. */
    method Clear()
      modifies this`entries, this`pending
      ensures State() == Cleared(old(State()))
    {
      entries, pending := [], map[];
    }
  }
}
