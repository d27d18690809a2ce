/** The frames between the single-tier broker and its workers, received one by one. */
module Framing {
  import opened Messages
  import opened NameBuffers

  const WORKER_ALIVE := "WORKER_ALIVE"

  /** What a worker tells the broker; the broker's ROUTER puts the worker's identity in front. */
  datatype BackendMsg = Ready(worker: string) | Result(worker: string, client: string, result: Frame)

  function Encode(m: BackendMsg): seq<Frame> {
    match m
    case Ready(w) => [StringToFrame(w), StringToFrame(WORKER_ALIVE)]
    case Result(w, c, r) => [StringToFrame(w), StringToFrame(c), r]
  }

  function EncodeAll(ms: seq<BackendMsg>): seq<Frame> {
    if ms == [] then [] else Encode(ms[0]) + EncodeAll(ms[1..])
  }

  /**
   * The receives of one loop iteration: worker and client frame, and a third frame unless the client
   * frame reads WORKER_ALIVE. None when a frame is missing, or empty so that its size minus one is no size.
   */
  function Next(frames: seq<Frame>): Option<(BackendMsg, seq<Frame>)> {
    if |frames| < 2 || frames[0] == [] || frames[1] == [] then None
    else
      var worker, client := FrameToString(frames[0]), FrameToString(frames[1]);
      if client == WORKER_ALIVE then Some((Ready(worker), frames[2..]))
      else if |frames| < 3 then None
      else Some((Result(worker, client, frames[2]), frames[3..]))
  }

  /** The messages the broker makes of a stream of frames, and the frames it is left with. */
  function Receive(frames: seq<Frame>): (r: (seq<BackendMsg>, seq<Frame>))
    ensures [] !in frames ==> [] !in r.1
    decreases |frames|
  {
    match Next(frames)
    case None => ([], frames)
    case Some((m, rest)) =>
      var (ms, left) := Receive(rest);
      ([m] + ms, left)
  }

  predicate Unambiguous(ms: seq<BackendMsg>) {
    forall m :: m in ms && m.Result? ==> m.client != WORKER_ALIVE
  }

  lemma NextOfEncoded(m: BackendMsg, rest: seq<Frame>)
    ensures m.Result? && m.client == WORKER_ALIVE ==>
              Next(Encode(m) + rest) == Some((Ready(m.worker), [m.result] + rest))
    ensures m.Ready? || m.client != WORKER_ALIVE ==> Next(Encode(m) + rest) == Some((m, rest))
  {
    var frames := Encode(m) + rest;
    FramesReadBack(m.worker, [NUL]);
    FramesReadBack(if m.Ready? then WORKER_ALIVE else m.client, [NUL]);
    if m.Ready? {
      assert frames[2..] == rest;
    } else {
      assert frames[3..] == rest && frames[2..] == [m.result] + rest;
    }
  }

  /**
   * The broker recovers exactly the messages its workers sent, with no frame left over, if and only
   * if no result is for a client whose id is WORKER_ALIVE.
   */
  lemma {:induction false} FramingRoundTrip(ms: seq<BackendMsg>)
    ensures Receive(EncodeAll(ms)) == (ms, []) <==> Unambiguous(ms)
  {
    if ms != [] {
      var m, rest := ms[0], EncodeAll(ms[1..]);
      NextOfEncoded(m, rest);
      FramingRoundTrip(ms[1..]);
      assert ms == [m] + ms[1..];
      var (received, left) := Receive(EncodeAll(ms));
      if m.Ready? || m.client != WORKER_ALIVE {
        assert received == [m] + Receive(rest).0 && left == Receive(rest).1;
        assert received == ms <==> received[1..] == ms[1..];
      } else {
        assert received[0] == Ready(m.worker);
      }
    }
  }

  /**
   * The bytes of a message of worker w, and what they are received as: the identity and what the worker
   * sent, each text with a NUL behind it, and the result as it is.
   */
  lemma ReceivedAsWritten(w: string, c: string, result: Frame)
    ensures Encode(Ready(w)) == [w + [NUL], "WORKER_ALIVE" + [NUL]]
    ensures Encode(Result(w, c, result)) == [w + [NUL], c + [NUL], result]
    ensures Receive([w + [NUL], "WORKER_ALIVE" + [NUL]]) == ([Ready(w)], [])
    ensures c != WORKER_ALIVE ==> Receive([w + [NUL], c + [NUL], result]) == ([Result(w, c, result)], [])
  {
    FramingRoundTrip([Ready(w)]);
    FramingRoundTrip([Result(w, c, result)]);
    assert EncodeAll([Ready(w)]) == Encode(Ready(w)) + EncodeAll([]) == Encode(Ready(w));
    var m := Result(w, c, result);
    assert EncodeAll([m]) == Encode(m) + EncodeAll([]) == Encode(m);
  }

  /** A concrete stream that is misread: the result of a client named WORKER_ALIVE. */
  lemma AmbiguousClientMisread(worker: string, result: Frame)
    ensures Receive(Encode(Result(worker, WORKER_ALIVE, result))) == ([Ready(worker)], [result])
  {
    var m := Result(worker, WORKER_ALIVE, result);
    NextOfEncoded(m, []);
    assert Encode(m) + [] == Encode(m) && [result] + [] == [result];
    assert Next([result]) == None && Receive([result]) == ([], [result]);
    var frames := Encode(m);
    assert Next(frames) == Some((Ready(worker), [result]));
    assert [Ready(worker)] + [] == [Ready(worker)];
    assert Receive(frames).0 == [Ready(worker)] + Receive([result]).0;
  }
}
