/**
 * DeviceNotification frames: decoding in wire order (decodeNotification) and fanning out to shards by handle
 * (notifWorker).
 */
module NotificationStream {

  import opened Bytes

  const SHARDS: nat := 8
  const FRAME_HEADER: nat := 32

  datatype Sample = Sample(handle: nat, stamp: nat, content: seq<byte>)

  /** What decoding emitted, what it left unread, and whether it met an error. */
  datatype Walk = Walk(emitted: seq<Sample>, rest: seq<byte>, ok: bool)

  function Then(first: seq<Sample>, w: Walk): Walk {
    w.(emitted := first + w.emitted)
  }

  /** One sample: handle and size, then the content. */
  function DecodeSample(d: seq<byte>, stamp: nat): (w: Walk)
    ensures w.ok ==> |w.emitted| == 1 && |w.rest| < |d|
    ensures !w.ok ==> w.emitted == []
  {
    if |d| < 8 then Walk([], d, false)
    else
      var size := GetLE(d[4..8]);
      if size > |d| - 8 then Walk([], d, false)
      else Walk([Sample(GetLE(d[..4]), stamp, d[8..8 + size])], d[8 + size..], true)
  }

  function DecodeSamples(d: seq<byte>, stamp: nat, k: nat): (w: Walk)
    ensures |w.rest| <= |d|
    decreases k
  {
    if k == 0 then Walk([], d, true)
    else
      var first := DecodeSample(d, stamp);
      if !first.ok then first.(rest := d) else Then(first.emitted, DecodeSamples(first.rest, stamp, k - 1))
  }

  /** k stamps: a timestamp and a sample count, then the samples. */
  function DecodeStamps(d: seq<byte>, k: nat): Walk
    decreases k
  {
    if k == 0 then Walk([], d, true)
    else if |d| < 12 then Walk([], d, false)
    else
      var first := DecodeSamples(d[12..], GetLE(d[..8]), GetLE(d[8..12]));
      if !first.ok then first else Then(first.emitted, DecodeStamps(first.rest, k - 1))
  }

  /** The payload: its length, which is not looked at, and the number of stamps. */
  function Decode(d: seq<byte>): Walk {
    if |d| < 8 then Walk([], d, false) else DecodeStamps(d[8..], GetLE(d[4..8]))
  }

  // ---------------------------------------------------------------- the decoder

  lemma ThenThen(a: seq<Sample>, b: seq<Sample>, w: Walk)
    ensures Then(a, Then(b, w)) == Then(a + b, w)
  {
    assert a + (b + w.emitted) == a + b + w.emitted;
  }

  /** The inner loop: k samples of one stamp. */
  method ReadSamples(data: seq<byte>, stamp: nat, k: nat) returns (w: Walk)
    ensures w == DecodeSamples(data, stamp, k)
  {
    var emitted, rest := [], data;
    for j := 0 to k
      invariant Then(emitted, DecodeSamples(rest, stamp, k - j)) == DecodeSamples(data, stamp, k)
    {
      var one := DecodeSample(rest, stamp);
      if !one.ok {
        return Walk(emitted, rest, false);
      }
      ThenThen(emitted, one.emitted, DecodeSamples(one.rest, stamp, k - j - 1));
      emitted, rest := emitted + one.emitted, one.rest;
    }
    return Walk(emitted, rest, true);
  }

  /** decodeNotification: samples leave in wire order, also those before an error. */
  method DecodeNotification(data: seq<byte>) returns (emitted: seq<Sample>, ok: bool)
    ensures emitted == Decode(data).emitted && ok == Decode(data).ok
  {
    emitted, ok := [], false;
    if |data| < 8 {
      return;
    }
    var stamps := GetLE(data[4..8]);
    var rest := data[8..];
    for i := 0 to stamps
      invariant Then(emitted, DecodeStamps(rest, stamps - i)) == Decode(data)
    {
      if |rest| < 12 {
        return;
      }
      var one := ReadSamples(rest[12..], GetLE(rest[..8]), GetLE(rest[8..12]));
      if !one.ok {
        emitted := emitted + one.emitted;
        return;
      }
      ThenThen(emitted, one.emitted, DecodeStamps(one.rest, stamps - i - 1));
      emitted, rest := emitted + one.emitted, one.rest;
    }
    ok := true;
  }

  // ---------------------------------------------------------------- round trip

  datatype Stamp = Stamp(time: nat, samples: seq<Sample>)

  predicate SampleFits(s: Sample) {
    s.handle < Pow256(4) && |s.content| < Pow256(4)
  }

  predicate StampFits(s: Stamp) {
    && s.time < Pow256(8) && |s.samples| < Pow256(4)
    && forall x | x in s.samples :: SampleFits(x) && x.stamp == s.time
  }

  function PrintSample(s: Sample): seq<byte> {
    PutLE(s.handle, 4) + PutLE(|s.content|, 4) + s.content
  }

  function PrintAll<T>(ts: seq<T>, print1: T -> seq<byte>): seq<byte> {
    if ts == [] then [] else print1(ts[0]) + PrintAll(ts[1..], print1)
  }

  function SamplesOf<T>(ts: seq<T>, samples: T -> seq<Sample>): seq<Sample> {
    if ts == [] then [] else samples(ts[0]) + SamplesOf(ts[1..], samples)
  }

  function PrintStamp(t: Stamp): seq<byte> {
    PutLE(t.time, 8) + PutLE(|t.samples|, 4) + PrintAll(t.samples, PrintSample)
  }

  /** The payload after its length field: the number of stamps, then the stamps. */
  function Print(ts: seq<Stamp>): seq<byte> {
    PutLE(|ts|, 4) + PrintAll(ts, PrintStamp)
  }

  function AllSamples(ts: seq<Stamp>): seq<Sample> {
    SamplesOf(ts, (t: Stamp) => t.samples)
  }

  lemma SampleRoundTrip(s: Sample, more: seq<byte>)
    requires SampleFits(s)
    ensures DecodeSample(PrintSample(s) + more, s.stamp) == Walk([s], more, true)
  {
    var a, b := PutLE(s.handle, 4), PutLE(|s.content|, 4);
    GetPut(s.handle, 4);
    GetPut(|s.content|, 4);
    var d := PrintSample(s) + more;
    assert d[..4] == a && d[4..8] == b && d[8..8 + |s.content|] == s.content && d[8 + |s.content|..] == more;
  }

  /** A decoder of k records at the front of a payload. */
  type Decoder = (seq<byte>, nat) -> Walk

  ghost predicate DecodesOne<T>(decode: Decoder, print1: T -> seq<byte>, samples: T -> seq<Sample>, t: T,
                                tail: seq<byte>, k: nat)
  {
    decode(print1(t) + tail, k + 1) == Then(samples(t), decode(tail, k))
  }

  /** A decoder that takes printed records one by one takes a list of them in order. */
  lemma {:induction false} RecordsInOrder<T>(ts: seq<T>, decode: Decoder, print1: T -> seq<byte>,
                                             samples: T -> seq<Sample>, more: seq<byte>)
    requires decode(more, 0) == Walk([], more, true)
    requires forall t, tail, k | t in ts :: DecodesOne(decode, print1, samples, t, tail, k)
    ensures decode(PrintAll(ts, print1) + more, |ts|) == Walk(SamplesOf(ts, samples), more, true)
    decreases |ts|
  {
    if ts == [] {
      assert PrintAll(ts, print1) + more == more;
    } else {
      var tail := PrintAll(ts[1..], print1) + more;
      RecordsInOrder(ts[1..], decode, print1, samples, more);
      assert DecodesOne(decode, print1, samples, ts[0], tail, |ts| - 1);
      assert PrintAll(ts, print1) + more == print1(ts[0]) + tail;
    }
  }

  lemma {:induction false} OneEach(ss: seq<Sample>)
    ensures SamplesOf(ss, (s: Sample) => [s]) == ss
  {
    if ss != [] {
      OneEach(ss[1..]);
    }
  }

  lemma OneSample(s: Sample, stamp: nat, tail: seq<byte>, k: nat)
    requires SampleFits(s) && s.stamp == stamp
    ensures DecodeSamples(PrintSample(s) + tail, stamp, k + 1) == Then([s], DecodeSamples(tail, stamp, k))
  {
    SampleRoundTrip(s, tail);
    SamplesCons(PrintSample(s) + tail, stamp, k, s, tail);
  }

  lemma SamplesRoundTrip(ss: seq<Sample>, stamp: nat, more: seq<byte>)
    requires forall s | s in ss :: SampleFits(s) && s.stamp == stamp
    ensures DecodeSamples(PrintAll(ss, PrintSample) + more, stamp, |ss|) == Walk(ss, more, true)
  {
    var decode: Decoder := (d, k: nat) => DecodeSamples(d, stamp, k);
    var itself := (s: Sample) => [s];
    forall s, tail, k: nat | s in ss ensures DecodesOne(decode, PrintSample, itself, s, tail, k) {
      OneSample(s, stamp, tail, k);
    }
    RecordsInOrder(ss, decode, PrintSample, itself, more);
    OneEach(ss);
  }

  lemma SamplesCons(d: seq<byte>, stamp: nat, k: nat, s: Sample, tail: seq<byte>)
    requires DecodeSample(d, stamp) == Walk([s], tail, true)
    ensures DecodeSamples(d, stamp, k + 1) == Then([s], DecodeSamples(tail, stamp, k))
  {
  }

  lemma StampFront(t: Stamp, more: seq<byte>)
    requires StampFits(t)
    ensures
      var d := PutLE(t.time, 8) + PutLE(|t.samples|, 4) + more;
      GetLE(d[..8]) == t.time && GetLE(d[8..12]) == |t.samples| && d[12..] == more
  {
    var a, b := PutLE(t.time, 8), PutLE(|t.samples|, 4);
    GetPut(t.time, 8);
    GetPut(|t.samples|, 4);
    var d := a + b + more;
    assert d[..8] == a && d[8..12] == b;
  }

  lemma StampsRoundTrip(ts: seq<Stamp>, more: seq<byte>)
    requires forall t | t in ts :: StampFits(t)
    ensures DecodeStamps(PrintAll(ts, PrintStamp) + more, |ts|) == Walk(AllSamples(ts), more, true)
  {
    var decode: Decoder := (d, k: nat) => DecodeStamps(d, k);
    var samples := (t: Stamp) => t.samples;
    forall t, tail, k: nat | t in ts ensures DecodesOne(decode, PrintStamp, samples, t, tail, k) {
      OneStamp(t, tail, k);
    }
    RecordsInOrder(ts, decode, PrintStamp, samples, more);
  }

  lemma OneStamp(t: Stamp, tail: seq<byte>, k: nat)
    requires StampFits(t)
    ensures DecodeStamps(PrintStamp(t) + tail, k + 1) == Then(t.samples, DecodeStamps(tail, k))
  {
    var body := PrintAll(t.samples, PrintSample) + tail;
    var d := PutLE(t.time, 8) + PutLE(|t.samples|, 4) + body;
    StampFront(t, body);
    SamplesRoundTrip(t.samples, t.time, tail);
    StampsCons(d, k, t, body, tail);
    assert PrintStamp(t) + tail == d;
  }

  lemma StampsCons(d: seq<byte>, k: nat, t: Stamp, body: seq<byte>, tail: seq<byte>)
    requires |d| >= 12 && GetLE(d[..8]) == t.time && GetLE(d[8..12]) == |t.samples| && d[12..] == body
    requires DecodeSamples(body, t.time, |t.samples|) == Walk(t.samples, tail, true)
    ensures DecodeStamps(d, k + 1) == Then(t.samples, DecodeStamps(tail, k))
  {
  }

  /** A payload decodes to its samples, stamp by stamp, in the order they were sent, whatever its length field says. */
  lemma WireOrder(length: seq<byte>, ts: seq<Stamp>, more: seq<byte>)
    requires |length| == 4 && |ts| < Pow256(4) && forall t | t in ts :: StampFits(t)
    ensures Decode(length + Print(ts) + more) == Walk(AllSamples(ts), more, true)
  {
    GetPut(|ts|, 4);
    Payload(length, PutLE(|ts|, 4), PrintAll(ts, PrintStamp), more);
    StampsRoundTrip(ts, more);
  }

  lemma Payload(length: seq<byte>, count: seq<byte>, body: seq<byte>, more: seq<byte>)
    requires |length| == 4 && |count| == 4
    ensures Decode(length + (count + body) + more) == DecodeStamps(body + more, GetLE(count))
  {
    var d := length + (count + body) + more;
    assert d[4..8] == count && d[8..] == body + more;
  }

  // ---------------------------------------------------------------- shards

  /** The samples of one handle, in order. */
  function Of(ss: seq<Sample>, h: nat): seq<Sample> {
    if ss == [] then [] else (if ss[0].handle == h then [ss[0]] else []) + Of(ss[1..], h)
  }

  lemma {:induction false} OfSnoc(ss: seq<Sample>, s: Sample, h: nat)
    ensures Of(ss + [s], h) == Of(ss, h) + (if s.handle == h then [s] else [])
  {
    if ss == [] {
      assert ss + [s] == [s] && [s][1..] == [];
    } else {
      OfSnoc(ss[1..], s, h);
      assert (ss + [s])[1..] == ss[1..] + [s];
    }
  }

  /** Every handle's samples so far, in order, are on its own shard and on no other. */
  ghost predicate Sharded(shards: seq<seq<Sample>>, all: seq<Sample>) {
    |shards| == SHARDS && forall h: nat, i | 0 <= i < SHARDS :: OnItsShard(shards[i], all, h, i)
  }

  predicate OnItsShard(shard: seq<Sample>, all: seq<Sample>, h: nat, i: nat) {
    Of(shard, h) == if i == h % SHARDS then Of(all, h) else []
  }

  lemma ShardOne(shards: seq<seq<Sample>>, all: seq<Sample>, s: Sample)
    requires Sharded(shards, all)
    ensures
      var i := s.handle % SHARDS;
      Sharded(shards[i := shards[i] + [s]], all + [s])
  {
    var i := s.handle % SHARDS;
    var after := shards[i := shards[i] + [s]];
    forall h: nat, j | 0 <= j < SHARDS ensures OnItsShard(after[j], all + [s], h, j) {
      OfSnoc(all, s, h);
      OfSnoc(shards[i], s, h);
      assert OnItsShard(shards[j], all, h, j);
    }
  }

  /** A frame is dropped whole unless its header gives the length that follows it. */
  predicate WellFramed(data: seq<byte>) {
    |data| >= FRAME_HEADER && GetLE(data[20..24]) == |data| - FRAME_HEADER
  }

  function Frames(queue: seq<seq<byte>>): seq<Sample> {
    if queue == [] then [] else Frames(queue[..|queue| - 1]) + FrameSamples(queue[|queue| - 1])
  }

  function FrameSamples(data: seq<byte>): seq<Sample> {
    if WellFramed(data) then Decode(data[FRAME_HEADER..]).emitted else []
  }

  /** A frame as the PLC sends it: a header whose length field, at bytes 20 to 24, counts what follows it. */
  datatype Frame = Frame(before: seq<byte>, after: seq<byte>, length: seq<byte>, stamps: seq<Stamp>)

  predicate FrameFits(f: Frame) {
    && |f.before| == 20 && |f.after| == 8 && |f.length| == 4 && |f.stamps| < Pow256(4)
    && |f.length + Print(f.stamps)| < Pow256(4) && forall t | t in f.stamps :: StampFits(t)
  }

  function PrintFrame(f: Frame): seq<byte> {
    f.before + PutLE(|f.length + Print(f.stamps)|, 4) + f.after + (f.length + Print(f.stamps))
  }

  /** The samples of a well-formed frame all leave the decoder, in wire order. */
  lemma FrameRoundTrip(f: Frame)
    requires FrameFits(f)
    ensures FrameSamples(PrintFrame(f)) == AllSamples(f.stamps)
  {
    var payload := f.length + Print(f.stamps);
    GetPut(|payload|, 4);
    FrameSplit(f.before, PutLE(|payload|, 4), f.after, payload);
    WireOrder(f.length, f.stamps, []);
    assert payload + [] == payload;
  }

  lemma FrameSplit(before: seq<byte>, count: seq<byte>, after: seq<byte>, payload: seq<byte>)
    requires |before| == 20 && |count| == 4 && |after| == 8
    ensures
      var d := before + count + after + payload;
      |d| == FRAME_HEADER + |payload| && d[20..24] == count && d[FRAME_HEADER..] == payload
  {
  }

  function AllFrames(fs: seq<Frame>): seq<Sample> {
    if fs == [] then [] else AllFrames(fs[..|fs| - 1]) + AllSamples(fs[|fs| - 1].stamps)
  }

  function PrintFrames(fs: seq<Frame>): (queue: seq<seq<byte>>)
    ensures |queue| == |fs| && forall i | 0 <= i < |fs| :: queue[i] == PrintFrame(fs[i])
  {
    seq(|fs|, i requires 0 <= i < |fs| => PrintFrame(fs[i]))
  }

  /** A queue of well-formed frames hands the shards all their samples, frame by frame. */
  lemma {:induction false} QueueRoundTrip(fs: seq<Frame>)
    requires forall f | f in fs :: FrameFits(f)
    ensures Frames(PrintFrames(fs)) == AllFrames(fs)
    decreases |fs|
  {
    if fs != [] {
      var k := |fs| - 1;
      assert PrintFrames(fs)[..k] == PrintFrames(fs[..k]);
      assert forall f | f in fs[..k] :: f in fs;
      QueueRoundTrip(fs[..k]);
      assert fs[k] in fs;
      FrameRoundTrip(fs[k]);
    }
  }

  /** A frame whose length field is wrong is dropped whole and disturbs no other frame. */
  lemma MalformedFrameIsDropped(queue: seq<seq<byte>>, bad: seq<byte>)
    requires |bad| < FRAME_HEADER || GetLE(bad[20..24]) != |bad| - FRAME_HEADER
    ensures Frames(queue + [bad]) == Frames(queue)
  {
    assert (queue + [bad])[..|queue|] == queue;
  }

  /** notifWorker's routing: what each shard has been handed after the queued frames. */
  method Route(queue: seq<seq<byte>>, shards: array<seq<Sample>>)
    requires shards.Length == SHARDS && forall i | 0 <= i < SHARDS :: shards[i] == []
    modifies shards
    ensures Sharded(shards[..], Frames(queue))
  {
    assert queue[..0] == [];
    for f := 0 to |queue|
      invariant Sharded(shards[..], Frames(queue[..f]))
    {
      assert queue[..f + 1][..f] == queue[..f];
      var data := queue[f];
      if WellFramed(data) {
        var emitted, ok := DecodeNotification(data[FRAME_HEADER..]);
        RouteAll(emitted, shards, Frames(queue[..f]));
      } else {
        assert Frames(queue[..f]) + [] == Frames(queue[..f]);
      }
    }
    assert queue[..|queue|] == queue;
  }

  method RouteAll(emitted: seq<Sample>, shards: array<seq<Sample>>, ghost before: seq<Sample>)
    requires shards.Length == SHARDS && Sharded(shards[..], before)
    modifies shards
    ensures Sharded(shards[..], before + emitted)
  {
    assert before + emitted[..0] == before;
    for k := 0 to |emitted|
      invariant Sharded(shards[..], before + emitted[..k])
    {
      var s := emitted[k];
      ShardOne(shards[..], before + emitted[..k], s);
      assert before + emitted[..k + 1] == before + emitted[..k] + [s];
      ghost var was := shards[..];
      shards[s.handle % SHARDS] := shards[s.handle % SHARDS] + [s];
      assert shards[..] == was[s.handle % SHARDS := was[s.handle % SHARDS] + [s]];
    }
    assert emitted[..|emitted|] == emitted;
  }
}
