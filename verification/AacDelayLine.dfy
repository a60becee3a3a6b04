/** Which answers the AAC decoder gives from its delayed samples, as functions on values. */
module AacDelayLine {
  import opened RingBuffer

  datatype Status = Fine | NoMemory | Corrupted

  /** A work that has been decoded but not answered; one entry of `sizes` per decoded frame. */
  datatype Info = Info(index: nat, sizes: seq<int>)

  datatype Answer = Answer(index: nat, samples: seq<Sample>, status: Status)

  datatype Drained = Drained(answers: seq<Answer>, rest: seq<Info>, line: seq<Sample>, fetches: nat)

  /** Answers works from the front while a whole frame is delayed. A work waits for all of its
      samples, except at the end of the stream, when it gets what is left. `fetch(t)` tells whether
      the allocation of output block number `t` succeeds; a work whose block cannot be allocated is
      answered without samples, which stay delayed. */
  function DrainLine(infos: seq<Info>, line: seq<Sample>, frame: nat, eos: bool,
                     fetch: nat -> bool, t: nat): (d: Drained)
    decreases |infos|
  {
    if infos == [] || |line| < frame then Drained([], infos, line, t)
    else
      var wanted := |infos[0].sizes| * frame;
      if |line| < wanted && !eos then Drained([], infos, line, t)
      else
        var n := if |line| < wanted then |line| else wanted;
        var got := n > 0 && fetch(t);
        var samples := if got then line[..n] else [];
        var status := if n > 0 && !got then NoMemory else Fine;
        var d := DrainLine(infos[1..], line[|samples|..], frame, eos, fetch, if n > 0 then t + 1 else t);
        d.(answers := [Answer(infos[0].index, samples, status)] + d.answers)
  }

  function Indices(infos: seq<Info>): (r: seq<nat>) {
    if infos == [] then [] else [infos[0].index] + Indices(infos[1..])
  }

  function Answered(answers: seq<Answer>): (r: seq<nat>) {
    if answers == [] then [] else [answers[0].index] + Answered(answers[1..])
  }

  function Samples(answers: seq<Answer>): seq<Sample> {
    if answers == [] then [] else answers[0].samples + Samples(answers[1..])
  }

  function Frames(infos: seq<Info>): nat {
    if infos == [] then 0 else |infos[0].sizes| + Frames(infos[1..])
  }

  lemma {:induction false} IndicesAppend(a: seq<Info>, b: seq<Info>)
    ensures Indices(a + b) == Indices(a) + Indices(b)
  {
    if a == [] {
      assert a + b == b;
    } else {
      IndicesAppend(a[1..], b);
      assert (a + b)[1..] == a[1..] + b;
    }
  }

  lemma {:induction false} FramesAppend(a: seq<Info>, b: seq<Info>)
    ensures Frames(a + b) == Frames(a) + Frames(b)
  {
    if a == [] {
      assert a + b == b;
    } else {
      FramesAppend(a[1..], b);
      assert (a + b)[1..] == a[1..] + b;
    }
  }

  lemma {:induction false} AnsweredAppend(a: seq<Answer>, b: seq<Answer>)
    ensures Answered(a + b) == Answered(a) + Answered(b)
  {
    if a == [] {
      assert a + b == b;
    } else {
      AnsweredAppend(a[1..], b);
      assert (a + b)[1..] == a[1..] + b;
    }
  }

  lemma {:induction false} SamplesAppend(a: seq<Answer>, b: seq<Answer>)
    ensures Samples(a + b) == Samples(a) + Samples(b)
  {
    if a == [] {
      assert a + b == b;
    } else {
      SamplesAppend(a[1..], b);
      assert (a + b)[1..] == a[1..] + b;
      assert Samples(a + b) == a[0].samples + (Samples(a[1..]) + Samples(b));
    }
  }

  /** Every work answered or left over is accounted for, in order, and no sample is lost: what was
      handed out, followed by what is still delayed, is what was delayed before. */
  lemma {:induction false} DrainKeepsOrder(infos: seq<Info>, line: seq<Sample>, frame: nat, eos: bool,
                                           fetch: nat -> bool, t: nat)
    ensures var d := DrainLine(infos, line, frame, eos, fetch, t);
            && Answered(d.answers) + Indices(d.rest) == Indices(infos)
            && Samples(d.answers) + d.line == line
            && |d.answers| <= |infos| && d.rest == infos[|d.answers|..]
    decreases |infos|
  {
    var d := DrainLine(infos, line, frame, eos, fetch, t);
    if d.answers != [] {
      var head := d.answers[0];
      var n := if |line| < |infos[0].sizes| * frame then |line| else |infos[0].sizes| * frame;
      var t' := if n > 0 then t + 1 else t;
      var d' := DrainLine(infos[1..], line[|head.samples|..], frame, eos, fetch, t');
      assert d == d'.(answers := [head] + d'.answers);
      DrainKeepsOrder(infos[1..], line[|head.samples|..], frame, eos, fetch, t');
      DrainStep(infos, line, head, d');
    } else {
      assert d == Drained([], infos, line, t);
    }
  }

  lemma {:induction false} DrainStep(infos: seq<Info>, line: seq<Sample>, head: Answer, d: Drained)
    requires infos != [] && head.index == infos[0].index
    requires |head.samples| <= |line| && head.samples == line[..|head.samples|]
    requires Answered(d.answers) + Indices(d.rest) == Indices(infos[1..])
    requires Samples(d.answers) + d.line == line[|head.samples|..]
    requires |d.answers| <= |infos| - 1 && d.rest == infos[1..][|d.answers|..]
    ensures Answered([head] + d.answers) + Indices(d.rest) == Indices(infos)
    ensures Samples([head] + d.answers) + d.line == line
    ensures d.rest == infos[|d.answers| + 1..]
  {
    assert ([head] + d.answers)[1..] == d.answers;
    assert Answered([head] + d.answers) + Indices(d.rest) == [head.index] + Indices(infos[1..]);
    assert Samples([head] + d.answers) + d.line == head.samples + line[|head.samples|..];
  }

  /** An output block that was asked for was refused. */
  predicate Refused(answers: seq<Answer>) {
    exists i :: 0 <= i < |answers| && answers[i].status == NoMemory
  }

  lemma {:induction false} RefusedAppend(a: seq<Answer>, b: seq<Answer>)
    ensures Refused(a + b) <==> Refused(a) || Refused(b)
  {
    forall i | 0 <= i < |a|
      ensures (a + b)[i] == a[i]
    {
    }
    forall i | 0 <= i < |b|
      ensures (a + b)[|a| + i] == b[i]
    {
    }
  }

  /** While at least the samples of the waiting works are delayed - with `rest` more that are still to be put
      back - every work answered takes its own samples, and leaves them exactly if its block is refused. At the
      end of a stream, with nothing to be put back, no work with samples stays. */
  lemma {:induction false} DrainBalances(infos: seq<Info>, line: seq<Sample>, frame: nat, eos: bool,
                                         fetch: nat -> bool, t: nat, rest: nat)
    requires Frames(infos) * frame <= |line| + rest && (eos ==> rest == 0)
    ensures var d := DrainLine(infos, line, frame, eos, fetch, t);
            var before, after := |line| + rest - Frames(infos) * frame, |d.line| + rest - Frames(d.rest) * frame;
            && before <= after && (before == after <==> !Refused(d.answers))
            && (eos ==> Frames(d.rest) * frame == 0)
    decreases |infos|
  {
    var d := DrainLine(infos, line, frame, eos, fetch, t);
    if d.answers == [] {
      assert d == Drained([], infos, line, t);
      if eos && infos != [] && Frames(infos) > 0 {
        MulAtLeast(Frames(infos), frame);
      }
    } else {
      var head, m := d.answers[0], Frames(infos[1..]);
      var n := |infos[0].sizes| * frame;
      assert Frames(infos) * frame == n + m * frame by {
        assert (|infos[0].sizes| + m) * frame == |infos[0].sizes| * frame + m * frame;
      }
      assert eos ==> n <= |line| by {
        assert 0 <= m * frame;
      }
      var t' := if n > 0 then t + 1 else t;
      var d' := DrainLine(infos[1..], line[|head.samples|..], frame, eos, fetch, t');
      assert d == d'.(answers := [head] + d'.answers);
      DrainBalances(infos[1..], line[|head.samples|..], frame, eos, fetch, t', rest);
      RefusedAppend([head], d'.answers);
      assert head.status == NoMemory <==> n > 0 && head.samples == [];
      assert Refused([head]) <==> head.status == NoMemory by {
        assert [head][0] == head;
      }
    }
  }

  lemma {:induction false} MulAtLeast(a: nat, b: nat)
    requires a > 0
    ensures a * b >= b
  {
    assert a * b == (a - 1) * b + b;
  }
}
