/** The write queue object: each method is one stretch of code between two suspension points, and does
    to the object's fields what the step system does to the queue. */
module WriteQueueObjects {
  import opened Bytes
  import opened Frames
  import opened FrameCodec
  import opened Channels
  import Q = WriteQueues

  class WriteQueue {
    const limits: Q.Limits
    var queuedBytes: u64
    var closed: bool
    var channel: Channel<Frame, Q.Writer>
    var space: Channel<(), nat>
    var running: Q.RunState
    var producers: map<nat, Q.Producer>
    ghost var accepted: seq<Frame>
    ghost var sent: nat
    var wire: seq<u8>

    ghost function View(): Q.Queue
      reads this
    {
      Q.Queue(limits, queuedBytes, closed, channel, space, running, producers, accepted, sent, wire)
    }

    ghost predicate Valid()
      reads this
    {
      Q.Inv(View())
    }

    constructor (limits: Q.Limits)
      ensures Valid() && View() == Q.Create(limits)
    {
      this.limits := limits;
      queuedBytes, closed := 0, false;
      channel := Open(limits.maxFrames);
      space := Open(Q.SpaceSignalCapacity(limits));
      running, producers := Q.Ready, map[];
      accepted, sent, wire := [], 0, [];
      new;
      Q.CreateInv(limits);
    }

    /** can_fit: the subtraction is guarded by the comparison before it. */
    method CanFit(bytes: nat) returns (fits: bool)
      ensures fits == Q.CanFit(View(), bytes)
    {
      fits := !closed && limits.maxFrames != 0 && bytes <= limits.maxBytes
              && queuedBytes <= limits.maxBytes - bytes;
    }

    /** try_enqueue_frame: the counter stays within 64 bits because it stays within the byte limit. */
    method TryEnqueueFrame(f: Frame) returns (ok: bool)
      requires Q.Core(View())
      modifies this
      ensures (View(), ok) == Q.TryEnqueue(old(View()), f)
      ensures Q.Core(View()) && (old(Valid()) ==> Valid())
    {
      hide Q.Core, Q.NoLostWakeup;
      Q.TryEnqueueCore(View(), f);
      if Valid() {
        Q.TryEnqueueInv(View(), f);
      }
      var bytes := HEADER_SIZE + |f.payload|;
      var fits := CanFit(bytes);
      if !fits {
        return false;
      }
      var (afterSend, outcome) := TrySend(channel, f);
      if outcome.NotSent? {
        return false;
      }
      channel := afterSend;
      if outcome.Handed? {
        running := Q.HandOff(f);
      }
      queuedBytes := queuedBytes + bytes;
      accepted := accepted + [f];
      ok := true;
    }

    /** One turn of enqueue's retry loop. */
    method AttemptFrame(p: nat, f: Frame) returns (outcome: Q.Outcome)
      requires Q.Core(View()) && p !in producers
      requires Q.FrameBytes(f) <= limits.maxBytes && limits.maxFrames != 0
      modifies this
      ensures Valid() && (View(), outcome) == Q.Attempt(old(View()), p, f)
    {
      hide Q.Core, Q.NoLostWakeup;
      Q.AttemptInv(View(), p, f);
      var ok := TryEnqueueFrame(f);
      if ok {
        return Q.Accepted;
      }
      if closed {
        return Q.Rejected;
      }
      var (afterReceive, receiving) := Receive(space, p);
      space := afterReceive;
      var wait := if receiving.Received? then Q.Signalled else if receiving.EndOfChannel? then Q.Refused else Q.Waiting;
      producers := producers[p := Q.Producer(f, wait)];
      outcome := Q.Blocked;
    }

    /** enqueue, up to its first suspension. */
    method Enqueue(p: nat, f: Frame) returns (outcome: Q.Outcome)
      requires Valid() && p !in producers
      modifies this
      ensures Valid() && (View(), outcome) == Q.Enqueue(old(View()), p, f)
    {
      var bytes := HEADER_SIZE + |f.payload|;
      if bytes > limits.maxBytes || limits.maxFrames == 0 {
        return Q.Rejected;
      }
      hide Q.Core, Q.Attempt;
      outcome := AttemptFrame(p, f);
    }

    /** enqueue, from the end of a wait for space to its next suspension. */
    method Resume(p: nat) returns (outcome: Q.Outcome)
      requires Valid() && Q.CanResume(View(), p)
      modifies this
      ensures Valid() && (View(), outcome) == Q.Resume(old(View()), p)
    {
      hide Q.Attempt;
      Q.ResumeInv(View(), p);
      var producer := producers[p];
      ghost var before := View();
      producers := producers - {p};
      if producer.wait.Refused? {
        return Q.Rejected;
      }
      Q.WithoutProducer(before, p);
      hide Q.Core;
      outcome := AttemptFrame(p, producer.frame);
    }

    /** run(), from the top of its loop to its suspension in receive. */
    method RunReceive()
      requires Valid() && running.Ready?
      modifies this
      ensures Valid() && Q.Enabled(old(View()), Q.WriterReceives) && View() == Q.Apply(old(View()), Q.WriterReceives)
    {
      hide Q.Inv;
      Q.RunReceiveInv(View());
      var (afterReceive, outcome) := Receive(channel, Q.Writer);
      channel := afterReceive;
      match outcome {
        case Received(f) => running := Q.HandOff(f);
        case EndOfChannel => running := Q.Ending;
        case Suspends => running := Q.Receiving;
      }
    }

    /** run(), from its resumption with a frame to its suspension in write: the counter never goes
        below zero, because it includes the frame in hand-off. */
    method RunTake() returns (bytes: seq<u8>)
      requires Valid() && running.HandOff?
      modifies this
      ensures Valid() && old(queuedBytes) >= Q.FrameBytes(old(running).frame)
      ensures Q.Enabled(old(View()), Q.WriterTakes) && View() == Q.Apply(old(View()), Q.WriterTakes)
      ensures bytes == EncodeFrame(old(running).frame)
    {
      Q.RunTakeInv(View());
      hide Q.Inv;
      var f := running.frame;
      queuedBytes := queuedBytes - (HEADER_SIZE + |f.payload|);
      var (afterSend, outcome) := TrySend(space, ());
      space := afterSend;
      if outcome.Handed? && outcome.to in producers {
        producers := producers[outcome.to := producers[outcome.to].(wait := Q.Signalled)];
      }
      bytes := EncodeFrameBytes(f);
      running := Q.Writing(f);
    }

    /** run(), after the transport has taken the whole frame. */
    method WriteCompleted()
      requires Valid() && running.Writing?
      modifies this
      ensures Valid() && Q.Enabled(old(View()), Q.WriteSucceeds) && View() == Q.Apply(old(View()), Q.WriteSucceeds)
    {
      hide Q.Inv;
      Q.WriteOkInv(View());
      var bytes := EncodeFrameBytes(running.frame);
      wire := wire + bytes;
      sent := sent + 1;
      running := Q.Ready;
    }

    /** run(), after the transport has failed having taken n bytes. */
    method WriteFailed(n: nat)
      requires Valid() && running.Writing? && n <= |EncodeFrame(running.frame)|
      modifies this
      ensures Valid() && Q.Enabled(old(View()), Q.WriteFails(n)) && View() == Q.Apply(old(View()), Q.WriteFails(n))
    {
      hide Q.Inv;
      Q.WriteFailInv(View(), n);
      var f := running.frame;
      var bytes := EncodeFrameBytes(f);
      wire := wire + bytes[..n];
      CloseChannels();
      running := Q.Failed(f);
    }

    method RunEnd()
      requires Valid() && running.Ending?
      modifies this
      ensures Valid() && Q.Enabled(old(View()), Q.WriterEnds) && View() == Q.Apply(old(View()), Q.WriterEnds)
    {
      Q.RunEndInv(View());
      running := Q.Finished;
    }

    method CloseChannels()
      modifies this
      ensures View() == Q.CloseQueue(old(View()))
    {
      closed := true;
      channel := Close(channel);
      space := Close(space);
      if running.Receiving? {
        running := Q.Ending;
      }
      producers := map p | p in producers ::
        if producers[p].wait.Waiting? then producers[p].(wait := Q.Refused) else producers[p];
    }

    /** close: safe to call repeatedly. */
    method CloseQueue()
      requires Valid()
      modifies this
      ensures Valid() && View() == Q.CloseQueue(old(View()))
    {
      hide Q.Inv, Q.CloseQueue;
      Q.CloseInv(View());
      CloseChannels();
    }
  }
}
