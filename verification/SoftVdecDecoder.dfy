/** The software video decoder as the object it is, proved against the functions of `SoftVdec`. */
module SoftVdecDecoder {
  import opened SoftVdec

  datatype Try = GotPicture | ChangedSize | DecodeFailed | GaveUp

  class Decoder {
    const world: World
    var pendingWorkFrameIndexes: seq<nat>
    var picHeld: bool
    var width: nat
    var height: nat
    var signalledOutputEos: bool
    var signalledError: bool
    var firstPictureReceived: bool
    var decInit: bool
    var clock: nat
    var sent: seq<Sent>

    ghost function List(): WorkList
      reads this
    {
      WorkList(pendingWorkFrameIndexes, firstPictureReceived)
    }

    ghost function Device(): Codec
      reads this
    {
      Codec(picHeld, width, height, decInit, signalledError, clock)
    }

    ghost function State(): Core
      reads this
    {
      Core(List(), Device(), signalledOutputEos, sent)
    }

    constructor (world: World)
      ensures State() == INITIAL
    {
      this.world := world;
      pendingWorkFrameIndexes, picHeld, width, height := [], false, 320, 240;
      signalledOutputEos, signalledError, firstPictureReceived, decInit := false, false, false, false;
      clock, sent := 0, [];
    }

    /** Decodes a new picture, opening the codec first if need be. */
    method DecodePicture(n: nat) returns (r: Try)
      requires !picHeld
      modifies this`picHeld, this`width, this`height, this`decInit, this`signalledError
      ensures var h := Decode(world, old(Device()), n);
              && Device() == h.codec.(held := picHeld)
              && (match r
                  case GotPicture => h.Use? && picHeld
                  case ChangedSize => h.Again? && picHeld
                  case DecodeFailed => h.NoPicture? && !picHeld
                  case GaveUp => h.Return? && h.processed && !picHeld)
    {
      if !decInit {
        if !world.init(n) {
          signalledError := true;
          return GaveUp;
        }
        decInit := true;
      }
      if !world.alloc(n) {
        signalledError := true;
        return GaveUp;
      }
      picHeld := true;
      var reply := world.decode(n);
      match reply {
        case Failed =>
          picHeld := false;
          return DecodeFailed;
        case Picture(w, h) =>
          if w != 0 && h != 0 && (w != width || h != height) {
            width, height := w, h;
            if !world.config(n) {
              signalledError := true;
              picHeld := false;
              return GaveUp;
            }
            return ChangedSize;
          }
      }
      r := GotPicture;
    }

    method SendPicture(index: nat, job: Job) returns (filled: bool)
      modifies this`sent
      ensures sent == old(sent) + [Handed(job, index)] && (filled <==> Handed(job, index).Filled?)
    {
      filled := false;
      if index == job.index {
        if job.eos {
          sent := sent + [Cloned(index)];
        } else {
          sent := sent + [Filled(index)];
          filled := true;
        }
      } else {
        sent := sent + [Finished(index)];
      }
    }

    /** Copies the picture in hand, which there must be, and gives it to the work it is for. */
    method UseHeldPicture(job: Job, flushing: bool) returns (filled: bool)
      requires picHeld && firstPictureReceived
      modifies this`picHeld, this`pendingWorkFrameIndexes, this`sent
      ensures var (c, f) := UsePicture(old(State()), old(Device()), job, flushing);
              f == filled && State() == c
    {
      picHeld := false;
      if pendingWorkFrameIndexes != [] {
        if !flushing {
          pendingWorkFrameIndexes := pendingWorkFrameIndexes + [job.index];
        }
        filled := SendPicture(pendingWorkFrameIndexes[0], job);
        pendingWorkFrameIndexes := pendingWorkFrameIndexes[1..];
      } else {
        filled := SendPicture(job.index % 0x1_0000_0000, job);
      }
    }

    /** The start of a round of the loop: an output block, and a picture, decoded or in hand. */
    method GetPicture() returns (r: Try, processed: bool)
      modifies this`picHeld, this`width, this`height, this`decInit, this`signalledError, this`clock
      ensures var h := StartRound(world, old(Device()));
              && Device() == h.codec.(held := picHeld)
              && (match r
                  case GotPicture => h.Use? && picHeld
                  case ChangedSize => h.Again? && picHeld && !old(picHeld)
                  case DecodeFailed => h.NoPicture? && picHeld == h.codec.held
                  case GaveUp => h.Return? && h.processed == processed && picHeld == h.codec.held)
    {
      var n := clock;
      clock := clock + 1;
      processed := false;
      if !world.block(n) {
        signalledError := true;
        return GaveUp, true;
      }
      if !world.view(n) {
        return GaveUp, false;
      }
      if picHeld {
        return GotPicture, false;
      }
      r := DecodePicture(n);
      processed := r.GaveUp?;
    }

    /** The state of the loop between rounds. */
    ghost function Now(processed: bool, hasPicture: bool): Turn
      reads this
    {
      Turn(State(), processed, hasPicture, false)
    }

    /** One round of the loop: `more` if there is another. */
    method Round(job: Job, flushing: bool, wasProcessed: bool, hadPicture: bool)
      returns (more: bool, processed: bool, hasPicture: bool, returned: bool)
      requires flushing ==> pendingWorkFrameIndexes != []
      requires !flushing ==> !hadPicture
      modifies this
      ensures more ==>
                && (flushing ==> pendingWorkFrameIndexes != []) && (!flushing ==> !hasPicture) && !returned
                && |pendingWorkFrameIndexes| <= |old(pendingWorkFrameIndexes)|
                && (old(picHeld) || !picHeld ==> |pendingWorkFrameIndexes| < |old(pendingWorkFrameIndexes)|)
                && Loop(world, old(Now(wasProcessed, hadPicture)), job, flushing)
                   == Loop(world, Now(processed, hasPicture), job, flushing)
      ensures !more ==>
                Loop(world, old(Now(wasProcessed, hadPicture)), job, flushing)
                == Turn(State(), processed, hasPicture, returned)
    {
      ghost var t := Now(wasProcessed, hadPicture);
      more, processed, hasPicture, returned := false, wasProcessed, hadPicture, false;
      var r, p := GetPicture();
      ghost var h := StartRound(world, t.core.codec);
      assert Device() == h.codec.(held := picHeld);
      match r {
        case GaveUp =>
          processed, returned := processed || p, true;
        case ChangedSize =>
          more, processed := true, false;
        case DecodeFailed =>
        case GotPicture =>
          hasPicture, firstPictureReceived := true, true;
          var filled := UseHeldPicture(job, flushing);
          assert (State(), filled) == UsePicture(t.core, h.codec, job, flushing);
          processed := processed || filled;
          more := flushing && pendingWorkFrameIndexes != [];
      }
    }

    /** The loop of `process`; it ends whatever the codec does, and it never uses a picture it has not. */
    method DecodeLoop(job: Job, flushing: bool) returns (processed: bool, hasPicture: bool, returned: bool)
      requires flushing == (job.eos && pendingWorkFrameIndexes != [])
      modifies this
      ensures Decoded(world, old(State()), job)
              == Turn(State(), processed, hasPicture, returned)
    {
      processed, hasPicture, returned := false, false, false;
      var more := job.hasData || flushing;
      ghost var goal := Decoded(world, State(), job);
      while more
        invariant more ==> (flushing ==> pendingWorkFrameIndexes != []) && (!flushing ==> !hasPicture) && !returned
        invariant more ==> goal == Loop(world, Now(processed, hasPicture), job, flushing)
        invariant !more ==> goal == Turn(State(), processed, hasPicture, returned)
        decreases more, 2 * |pendingWorkFrameIndexes| + (if picHeld then 0 else 1)
      {
        more, processed, hasPicture, returned := Round(job, flushing, processed, hasPicture);
      }
    }

    method ProcessWork(job: Job) returns (processed: bool)
      modifies this
      ensures Outcome(State(), processed) == Process(world, old(State()), job)
    {
      processed := false;
      if signalledError || signalledOutputEos {
        return;
      }
      if job.hasData && !job.mappable {
        return;
      }
      var flushPendingWork := job.eos && pendingWorkFrameIndexes != [];
      if job.codecConfig {
        var n := clock;
        clock := clock + 1;
        if job.hasData && !world.alloc(n) {
          return;
        }
        return true;
      }
      var hasPicture, returned;
      processed, hasPicture, returned := DecodeLoop(job, flushPendingWork);
      if returned {
        return;
      }
      if job.eos {
        processed := true;
        signalledOutputEos := true;
      } else if !hasPicture {
        if !firstPictureReceived && |pendingWorkFrameIndexes| < MAX_WORK_PENDING_COUNT {
          pendingWorkFrameIndexes := pendingWorkFrameIndexes + [job.index];
        } else {
          processed := true;
        }
      }
    }

    method OnFlush()
      modifies this
      ensures State() == Flush(old(State()))
    {
      decInit, signalledError, signalledOutputEos, firstPictureReceived := false, false, false, false;
      pendingWorkFrameIndexes := [];
    }

    method OnStop()
      modifies this
      ensures State() == Stop(old(State()))
    {
      decInit, signalledError, signalledOutputEos := false, false, false;
    }
  }
}
