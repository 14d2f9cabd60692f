/**
  The capture loop shared by the three recorders (`WebRTCRecord.recording`):
  poll the audio receiver until it is gone, appending every non-empty batch of
  frames to the session's audio buffer, and skipping poll timeouts. Audio is
  an abstract sequence of samples; frame decoding is not modelled.
 */
module Capture {

  type Sample = int
  type Chunk = seq<Sample>

  /**
    One turn of the loop: a batch of decoded frames, a `queue.Empty` timeout,
    or a falsy `audio_receiver` (the loop breaks).
   */
  datatype Poll = Frames(frames: seq<Chunk>) | Timeout | ReceiverGone

  /** `sound_chunk += sound` over the frames of one batch. */
  function Flatten(frames: seq<Chunk>): Chunk
    decreases |frames|
  {
    if frames == [] then [] else Flatten(frames[..|frames| - 1]) + frames[|frames| - 1]
  }

  /** All the audio the loop appends for the polls, up to the first ReceiverGone. */
  function Captured(polls: seq<Poll>): Chunk
    decreases |polls|
  {
    if polls == [] then []
    else match polls[0]
      case ReceiverGone => []
      case Timeout => Captured(polls[1..])
      case Frames(frames) => Flatten(frames) + Captured(polls[1..])
  }

  /** The condition under which a capture attempt is finalized: the stream stopped and audio was heard. */
  predicate ShouldFinalize(playing: bool, buffer: Chunk) {
    !playing && |buffer| > 0
  }

  /** Builds one batch's chunk frame by frame. */
  method JoinFrames(frames: seq<Chunk>) returns (chunk: Chunk)
    ensures chunk == Flatten(frames)
  {
    chunk := [];
    for k := 0 to |frames|
      invariant chunk == Flatten(frames[..k])
    {
      assert frames[..k + 1][..k] == frames[..k];
      chunk := chunk + frames[k];
    }
    assert frames[..|frames|] == frames;
  }

  /**
    The polling loop: returns the audio buffer after the loop, which is the
    buffer it started from followed by every captured chunk, in arrival order.
   */
  method Capture(buffer: Chunk, polls: seq<Poll>) returns (b: Chunk)
    ensures b == buffer + Captured(polls)
  {
    b := buffer;
    var i := 0;
    while i < |polls|
      invariant 0 <= i <= |polls|
      invariant b + Captured(polls[i..]) == buffer + Captured(polls)
    {
      assert polls[i..][1..] == polls[i + 1..];
      match polls[i] {
        case ReceiverGone =>
          assert Captured(polls[i..]) == [];
          assert b + [] == b;
          break;
        case Timeout =>
        case Frames(frames) =>
          var chunk := JoinFrames(frames);
          if |chunk| > 0 {
            assert (b + chunk) + Captured(polls[i + 1..]) == b + (chunk + Captured(polls[i + 1..]));
            b := b + chunk;
          } else {
            assert chunk + Captured(polls[i + 1..]) == Captured(polls[i + 1..]);
          }
      }
      i := i + 1;
    }
    if i == |polls| {
      assert polls[i..] == [];
      assert b + [] == b;
    }
  }

  /** The chunk of a batch is its frames laid end to end. */
  lemma {:induction false} FlattenAppend(a: seq<Chunk>, b: seq<Chunk>)
    ensures Flatten(a + b) == Flatten(a) + Flatten(b)
    decreases |b|
  {
    if b == [] {
      assert a + b == a;
    } else {
      var ab := a + b;
      assert ab[..|ab| - 1] == a + b[..|b| - 1];
      FlattenAppend(a, b[..|b| - 1]);
    }
  }

  /** Audio from polls before the receiver goes away is kept in order: capture distributes over concatenation. */
  lemma {:induction false} CapturedAppend(p: seq<Poll>, q: seq<Poll>)
    requires ReceiverGone !in p
    ensures Captured(p + q) == Captured(p) + Captured(q)
    decreases |p|
  {
    if p == [] {
      assert p + q == q;
    } else {
      assert (p + q)[0] == p[0] && (p + q)[1..] == p[1..] + q;
      CapturedAppend(p[1..], q);
    }
  }

  /** Nothing after the receiver goes away is captured. */
  lemma CapturedStopsAtReceiverGone(p: seq<Poll>, q: seq<Poll>)
    requires ReceiverGone !in p
    ensures Captured(p + [ReceiverGone] + q) == Captured(p)
  {
    CapturedAppend(p, [ReceiverGone] + q);
    assert p + [ReceiverGone] + q == p + ([ReceiverGone] + q);
    assert Captured(p) + [] == Captured(p);
  }

  /** A poll timeout changes nothing, wherever it occurs. */
  lemma {:induction false} TimeoutChangesNothing(p: seq<Poll>, q: seq<Poll>)
    ensures Captured(p + [Timeout] + q) == Captured(p + q)
    decreases |p|
  {
    if p == [] {
      assert p + [Timeout] + q == [Timeout] + q && p + q == q;
      assert ([Timeout] + q)[1..] == q;
    } else {
      assert (p + [Timeout] + q)[0] == p[0] && (p + [Timeout] + q)[1..] == p[1..] + [Timeout] + q;
      assert (p + q)[0] == p[0] && (p + q)[1..] == p[1..] + q;
      TimeoutChangesNothing(p[1..], q);
    }
  }

  /** No batch before the receiver went away carried any audio. */
  ghost predicate NothingHeard(polls: seq<Poll>) {
    forall i :: 0 <= i < |polls| && polls[i].Frames? && ReceiverGone !in polls[..i] ==> Flatten(polls[i].frames) == []
  }

  /** An attempt captures no audio exactly when no batch before the end carried any. */
  lemma {:induction false} CapturedEmptyIffNothingHeard(polls: seq<Poll>)
    ensures Captured(polls) == [] <==> NothingHeard(polls)
    decreases |polls|
  {
    if polls != [] {
      var rest := polls[1..];
      CapturedEmptyIffNothingHeard(rest);
      assert polls[..0] == [];
      forall i | 1 <= i < |polls|
        ensures polls[i] == rest[i - 1]
        ensures ReceiverGone !in polls[..i] <==> polls[0] != ReceiverGone && ReceiverGone !in rest[..i - 1]
      {
        assert polls[..i] == [polls[0]] + rest[..i - 1];
      }
      match polls[0] {
        case ReceiverGone =>
          forall i | 1 <= i < |polls| ensures ReceiverGone in polls[..i] {
            assert polls[..i][0] == ReceiverGone;
          }
        case Timeout =>
          if NothingHeard(rest) {
            forall i | 0 <= i < |polls| && polls[i].Frames? && ReceiverGone !in polls[..i]
              ensures Flatten(polls[i].frames) == []
            {
              assert i >= 1 && rest[i - 1] == polls[i];
            }
          }
          if NothingHeard(polls) {
            forall j | 0 <= j < |rest| && rest[j].Frames? && ReceiverGone !in rest[..j]
              ensures Flatten(rest[j].frames) == []
            {
              assert polls[j + 1] == rest[j];
            }
          }
        case Frames(frames) =>
          if NothingHeard(rest) && Flatten(frames) == [] {
            forall i | 0 <= i < |polls| && polls[i].Frames? && ReceiverGone !in polls[..i]
              ensures Flatten(polls[i].frames) == []
            {
              if i >= 1 {
                assert rest[i - 1] == polls[i];
              }
            }
          }
          if NothingHeard(polls) {
            forall j | 0 <= j < |rest| && rest[j].Frames? && ReceiverGone !in rest[..j]
              ensures Flatten(rest[j].frames) == []
            {
              assert polls[j + 1] == rest[j];
            }
          }
      }
    }
  }
}
