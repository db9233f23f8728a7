/** Batched reads (SumRead, parseSumReadResponse) and how they agree with individual reads. */
module SumRead {

  import opened Basics
  import opened Bytes

  const NO_ERROR: nat := 0
  const DEVICE_ERROR: nat := 0x700
  const INVALID_SIZE: nat := 0x705
  const SUM_READ_EX: nat := 0xF083
  const SUM_READ_EX2: nat := 0xF084

  datatype Request = Request(group: nat, offset: nat, length: nat)

  datatype Result = Result(error: nat, data: seq<byte>)

  // ---------------------------------------------------------------- the response format

  /** The i-th (error, length) header of a response. */
  function ErrorAt(resp: seq<byte>, i: nat): nat
    requires 8 * i + 8 <= |resp|
  {
    GetLE(resp[8 * i..8 * i + 4])
  }

  function LengthAt(resp: seq<byte>, i: nat): nat
    requires 8 * i + 8 <= |resp|
  {
    GetLE(resp[8 * i + 4..8 * i + 8])
  }

  /** Where item i's data starts: the headers, then the declared lengths of all items before it. */
  function DataStart(resp: seq<byte>, n: nat, i: nat): nat
    requires i <= n && 8 * n <= |resp|
  {
    if i == 0 then 8 * n else DataStart(resp, n, i - 1) + LengthAt(resp, i - 1)
  }

  /** Item i cannot be trusted: its data would not fit, or it succeeded with another length than requested. */
  predicate Misfit(resp: seq<byte>, requests: seq<Request>, i: nat)
    requires i < |requests| && 8 * |requests| <= |resp|
  {
    || (ErrorAt(resp, i) == NO_ERROR && LengthAt(resp, i) != requests[i].length)
    || DataStart(resp, |requests|, i) + LengthAt(resp, i) > |resp|
  }

  /** No item up to and including i is a misfit. */
  predicate Aligned(resp: seq<byte>, requests: seq<Request>, i: nat)
    requires i < |requests| && 8 * |requests| <= |resp|
  {
    forall j | 0 <= j <= i :: !Misfit(resp, requests, j)
  }

  /** What item i of a response means. */
  function Meaning(resp: seq<byte>, requests: seq<Request>, i: nat): Result
    requires i < |requests| && 8 * |requests| <= |resp|
  {
    if !Aligned(resp, requests, i) then Result(INVALID_SIZE, [])
    else if ErrorAt(resp, i) != NO_ERROR then Result(ErrorAt(resp, i), [])
    else
      var start := DataStart(resp, |requests|, i);
      assert !Misfit(resp, requests, i);
      Result(NO_ERROR, resp[start..start + LengthAt(resp, i)])
  }

  /** uint32(len(resp) - dataOffset). */
  function Remaining(resp: seq<byte>, dataOffset: nat): nat {
    (|resp| - dataOffset) % U32
  }

  lemma RemainingExact(resp: seq<byte>, dataOffset: nat)
    requires dataOffset <= |resp| < U32
    ensures Remaining(resp, dataOffset) == |resp| - dataOffset
  {
  }

  lemma MisfitCascades(resp: seq<byte>, requests: seq<Request>, i: nat)
    requires i < |requests| && 8 * |requests| <= |resp| && Misfit(resp, requests, i)
    ensures forall j | i <= j < |requests| :: Meaning(resp, requests, j) == Result(INVALID_SIZE, [])
  {
  }

  lemma AlignedMeaning(resp: seq<byte>, requests: seq<Request>, i: nat)
    requires i < |requests| && 8 * |requests| <= |resp| && !Misfit(resp, requests, i)
    requires i > 0 ==> Aligned(resp, requests, i - 1)
    ensures Aligned(resp, requests, i)
    ensures
      var start := DataStart(resp, |requests|, i);
      start + LengthAt(resp, i) <= |resp| && Meaning(resp, requests, i) ==
        if ErrorAt(resp, i) != NO_ERROR then Result(ErrorAt(resp, i), [])
        else Result(NO_ERROR, resp[start..start + LengthAt(resp, i)])
  {
  }

  method ParseSumReadResponse(resp: seq<byte>, requests: seq<Request>) returns (r: Option<seq<Result>>)
    requires |resp| < U32
    ensures r.None? <==> |resp| < 8 * |requests|
    ensures r.Some? ==> |r.value| == |requests|
    ensures r.Some? ==> forall i | 0 <= i < |requests| :: r.value[i] == Meaning(resp, requests, i)
  {
    var n := |requests|;
    if |resp| < n * 8 {
      return None;
    }
    var results := [];
    var dataOffset := n * 8;
    var i := 0;
    while i < n
      invariant 0 <= i <= n && |results| == i
      invariant dataOffset == DataStart(resp, n, i) <= |resp|
      invariant i > 0 ==> Aligned(resp, requests, i - 1)
      invariant forall j | 0 <= j < i :: results[j] == Meaning(resp, requests, j)
    {
      var error, length := ErrorAt(resp, i), LengthAt(resp, i);
      RemainingExact(resp, dataOffset);
      var remaining := Remaining(resp, dataOffset);
      if (error != NO_ERROR && length > remaining)
         || (error == NO_ERROR && (length < requests[i].length || length > requests[i].length || length > remaining))
      {
        MisfitCascades(resp, requests, i);
        return Some(results + seq(n - i, _ => Result(INVALID_SIZE, [])));
      }
      AlignedMeaning(resp, requests, i);
      if error != NO_ERROR {
        results := results + [Result(error, [])];
      } else {
        results := results + [Result(NO_ERROR, resp[dataOffset..dataOffset + length])];
      }
      dataOffset := dataOffset + length;
      i := i + 1;
    }
    return Some(results);
  }

  // ---------------------------------------------------------------- individual reads

  /** The PLC's answer to one item: data, a refusal (with whatever bytes it puts in a sum reply), or no answer. */
  datatype Reply = Read(data: seq<byte>) | Refused(code: nat, filler: seq<byte>) | Broken

  predicate Answered(replies: seq<Reply>) {
    forall i | 0 <= i < |replies| :: !replies[i].Broken? && (replies[i].Refused? ==> 0 < replies[i].code < U32)
  }

  function Single(reply: Reply): Result {
    match reply
    case Read(data) => Result(NO_ERROR, data)
    case Refused(code, _) => Result(code, [])
    case Broken => Result(DEVICE_ERROR, [])
  }

  function Singles(replies: seq<Reply>): (r: seq<Result>)
    ensures |r| == |replies| && forall i | 0 <= i < |replies| :: r[i] == Single(replies[i])
  {
    seq(|replies|, i requires 0 <= i < |replies| => Single(replies[i]))
  }

  /** sumReadFallback: one read after the other. */
  method SumReadFallback(requests: seq<Request>, replies: seq<Reply>) returns (results: seq<Result>)
    requires |replies| == |requests|
    ensures results == Singles(replies)
  {
    results := [];
    for i := 0 to |requests|
      invariant results == Singles(replies)[..i]
    {
      match replies[i] {
        case Broken => results := results + [Result(DEVICE_ERROR, [])];
        case Refused(code, _) => results := results + [Result(code, [])];
        case Read(data) => results := results + [Result(NO_ERROR, data)];
      }
    }
  }

  /** Read one by one, each item reports its own data, its own code, or 0x700 when it got no answer. */
  lemma FallbackReportsEach(replies: seq<Reply>, i: nat)
    requires i < |replies|
    ensures replies[i].Read? ==> Singles(replies)[i] == Result(0, replies[i].data)
    ensures replies[i].Refused? ==> Singles(replies)[i] == Result(replies[i].code, [])
    ensures replies[i].Broken? ==> Singles(replies)[i] == Result(0x700, [])
  {
  }

  // ---------------------------------------------------------------- a PLC whose sum reply packs its single replies

  function Body(reply: Reply): seq<byte> {
    match reply
    case Read(data) => data
    case Refused(_, filler) => filler
    case Broken => []
  }

  /** The pieces of all items, in order. */
  function Concat<T>(ts: seq<T>, piece: T -> seq<byte>): seq<byte> {
    if ts == [] then [] else Concat(ts[..|ts| - 1], piece) + piece(ts[|ts| - 1])
  }

  /** Each piece stands after the pieces before it. */
  lemma {:induction false} ConcatSplit<T>(ts: seq<T>, piece: T -> seq<byte>, i: nat)
    requires i < |ts|
    ensures
      var start := |Concat(ts[..i], piece)|;
      start + |piece(ts[i])| <= |Concat(ts, piece)| && Concat(ts, piece)[start..start + |piece(ts[i])|] == piece(ts[i])
    decreases |ts|
  {
    var k := |ts| - 1;
    if i < k {
      ConcatSplit(ts[..k], piece, i);
      assert ts[..k][..i] == ts[..i];
      var start := |Concat(ts[..i], piece)|;
      SliceOfFront(Concat(ts[..k], piece), piece(ts[k]), start, start + |piece(ts[i])|);
    }
  }

  lemma {:induction false} ConcatEight<T>(ts: seq<T>, piece: T -> seq<byte>)
    requires forall t :: |piece(t)| == 8
    ensures |Concat(ts, piece)| == 8 * |ts|
    decreases |ts|
  {
    if ts != [] {
      ConcatEight(ts[..|ts| - 1], piece);
    }
  }

  function HeaderOf(reply: Reply): (h: seq<byte>)
    ensures |h| == 8
  {
    PutLE(Single(reply).error, 4) + PutLE(|Body(reply)|, 4)
  }

  function Headers(replies: seq<Reply>): (h: seq<byte>)
    ensures |h| == 8 * |replies|
  {
    ConcatEight(replies, HeaderOf);
    Concat(replies, HeaderOf)
  }

  function Bodies(replies: seq<Reply>): seq<byte> {
    Concat(replies, Body)
  }

  function Pack(replies: seq<Reply>): seq<byte> {
    Headers(replies) + Bodies(replies)
  }

  lemma HeaderSlices(replies: seq<Reply>, i: nat)
    requires i < |replies|
    ensures Headers(replies)[8 * i..8 * i + 4] == PutLE(Single(replies[i]).error, 4)
    ensures Headers(replies)[8 * i + 4..8 * i + 8] == PutLE(|Body(replies[i])|, 4)
  {
    ConcatSplit(replies, HeaderOf, i);
    ConcatEight(replies[..i], HeaderOf);
    Halves(Headers(replies), 8 * i, PutLE(Single(replies[i]).error, 4), PutLE(|Body(replies[i])|, 4));
  }

  lemma Halves(s: seq<byte>, at: nat, a: seq<byte>, b: seq<byte>)
    requires |a| == 4 && |b| == 4 && at + 8 <= |s| && s[at..at + 8] == a + b
    ensures s[at..at + 4] == a && s[at + 4..at + 8] == b
  {
    assert s[at..at + 4] == s[at..at + 8][..4] && s[at + 4..at + 8] == s[at..at + 8][4..];
  }

  lemma BodiesSplit(replies: seq<Reply>, i: nat)
    requires i < |replies|
    ensures |Bodies(replies[..i])| + |Body(replies[i])| <= |Bodies(replies)|
    ensures
      var start := |Bodies(replies[..i])|;
      Bodies(replies)[start..start + |Body(replies[i])|] == Body(replies[i])
  {
    ConcatSplit(replies, Body, i);
  }

  lemma SliceOfFront(a: seq<byte>, b: seq<byte>, i: nat, j: nat)
    requires i <= j <= |a|
    ensures (a + b)[i..j] == a[i..j]
  {
  }

  lemma PackedHeader(replies: seq<Reply>, i: nat)
    requires i < |replies| && Answered(replies) && |Pack(replies)| < U32
    ensures ErrorAt(Pack(replies), i) == Single(replies[i]).error
    ensures LengthAt(Pack(replies), i) == |Body(replies[i])|
  {
    Widths();
    HeaderSlices(replies, i);
    BodiesSplit(replies, i);
    GetPut(Single(replies[i]).error, 4);
    GetPut(|Body(replies[i])|, 4);
    assert Pack(replies)[8 * i..8 * i + 4] == Headers(replies)[8 * i..8 * i + 4];
    assert Pack(replies)[8 * i + 4..8 * i + 8] == Headers(replies)[8 * i + 4..8 * i + 8];
  }

  lemma {:induction false} PackedStart(replies: seq<Reply>, i: nat)
    requires i <= |replies| && Answered(replies) && |Pack(replies)| < U32
    ensures DataStart(Pack(replies), |replies|, i) == 8 * |replies| + |Bodies(replies[..i])|
  {
    if i > 0 {
      PackedStart(replies, i - 1);
      PackedHeader(replies, i - 1);
      assert replies[..i][..i - 1] == replies[..i - 1];
    }
  }

  /** The reply to item i has the length that was asked for, or is a refusal. */
  predicate Exact(replies: seq<Reply>, requests: seq<Request>, i: nat)
    requires i < |replies| == |requests|
  {
    replies[i].Read? ==> |replies[i].data| == requests[i].length
  }

  lemma PackedMisfit(replies: seq<Reply>, requests: seq<Request>, i: nat)
    requires i < |replies| == |requests| && Answered(replies) && |Pack(replies)| < U32
    ensures Misfit(Pack(replies), requests, i) <==> !Exact(replies, requests, i)
  {
    PackedHeader(replies, i);
    PackedStart(replies, i);
    BodiesSplit(replies, i);
  }

  lemma PackedMeaning(replies: seq<Reply>, requests: seq<Request>, i: nat)
    requires i < |replies| == |requests| && Answered(replies) && |Pack(replies)| < U32
    requires Aligned(Pack(replies), requests, i)
    ensures Meaning(Pack(replies), requests, i) == Single(replies[i])
  {
    PackedHeader(replies, i);
    PackedStart(replies, i);
    PackedBody(replies, i);
  }

  lemma PackedBody(replies: seq<Reply>, i: nat)
    requires i < |replies|
    ensures
      var at := 8 * |replies| + |Bodies(replies[..i])|;
      at + |Body(replies[i])| <= |Pack(replies)| && Pack(replies)[at..at + |Body(replies[i])|] == Body(replies[i])
  {
    BodiesSplit(replies, i);
    var start := |Bodies(replies[..i])|;
    SliceOfBack(Headers(replies), Bodies(replies), start, start + |Body(replies[i])|);
  }

  lemma SliceOfBack(a: seq<byte>, b: seq<byte>, i: nat, j: nat)
    requires i <= j <= |b|
    ensures (a + b)[|a| + i..|a| + j] == b[i..j]
  {
  }

  function Parsed(replies: seq<Reply>, requests: seq<Request>): seq<Result>
    requires |replies| == |requests|
  {
    seq(|requests|, i requires 0 <= i < |requests| => Meaning(Pack(replies), requests, i))
  }

  /**
   Parsing the packed sum reply gives what the individual reads give if and only if every
   successful reply has exactly the requested length.
   */
  lemma PackedAgreesExactly(replies: seq<Reply>, requests: seq<Request>)
    requires |replies| == |requests| && Answered(replies) && |Pack(replies)| < U32
    ensures Parsed(replies, requests) == Singles(replies) <==>
      forall i | 0 <= i < |replies| :: Exact(replies, requests, i)
  {
    if forall i | 0 <= i < |replies| :: Exact(replies, requests, i) {
      forall i | 0 <= i < |replies| ensures Parsed(replies, requests)[i] == Singles(replies)[i] {
        forall j | 0 <= j <= i ensures !Misfit(Pack(replies), requests, j) {
          PackedMisfit(replies, requests, j);
        }
        PackedMeaning(replies, requests, i);
      }
    } else {
      var i :| 0 <= i < |replies| && !Exact(replies, requests, i);
      PackedMisfit(replies, requests, i);
      assert Parsed(replies, requests)[i].error == INVALID_SIZE;
      assert Singles(replies)[i].error == NO_ERROR;
    }
  }

  // ---------------------------------------------------------------- the command in use

  /** The PLC's answer to one sum command. */
  datatype Answer = Response(resp: seq<byte>) | Unsupported | Failed

  function Requested(requests: seq<Request>): nat {
    if requests == [] then 0 else Requested(requests[..|requests| - 1]) + requests[|requests| - 1].length
  }

  /** The client's capability slot: 0 unknown, 1 no sum read, else the command that worked. */
  class Client {
    var sumReadCmd: nat

    constructor ()
      ensures sumReadCmd == 0
    {
      sumReadCmd := 0;
    }

    /** ex2 and ex are what the PLC answers to the two sum commands, replies what it answers to single reads. */
    method SumRead(requests: seq<Request>, ex2: Answer, ex: Answer, replies: seq<Reply>)
      returns (r: Option<seq<Result>>)
      requires |replies| == |requests|
      requires ex2.Response? ==> |ex2.resp| < U32
      requires ex.Response? ==> |ex.resp| < U32
      modifies this
      ensures requests == [] ==> r == Some([]) && sumReadCmd == old(sumReadCmd)
      ensures requests != [] ==> Ran(old(sumReadCmd), requests, ex2, ex, replies, sumReadCmd, r)
    {
      if |requests| == 0 {
        return Some([]);
      }
      if sumReadCmd == 1 {
        var results := SumReadFallback(requests, replies);
        return Some(results);
      }
      var total := 0;
      for i := 0 to |requests|
        invariant total == Requested(requests[..i])
      {
        assert requests[..i + 1][..i] == requests[..i];
        total := total + requests[i].length;
      }
      assert requests[..|requests|] == requests;
      if |requests| * 8 + total > U32 - 1 {
        return None;
      }
      if sumReadCmd != 0 {
        var answer := if sumReadCmd == SUM_READ_EX2 then ex2 else ex;
        if !answer.Response? {
          return None;
        }
        r := ParseSumReadResponse(answer.resp, requests);
        return;
      }
      r := Probe(requests, ex2, ex, replies);
    }

    method Probe(requests: seq<Request>, ex2: Answer, ex: Answer, replies: seq<Reply>) returns (r: Option<seq<Result>>)
      requires |replies| == |requests|
      requires ex2.Response? ==> |ex2.resp| < U32
      requires ex.Response? ==> |ex.resp| < U32
      modifies this
      ensures Probed(old(sumReadCmd), requests, ex2, ex, replies, sumReadCmd, r)
    {
      if ex2.Response? {
        sumReadCmd := SUM_READ_EX2;
        r := ParseSumReadResponse(ex2.resp, requests);
        return;
      }
      if !ex2.Unsupported? {
        return None;
      }
      if ex.Response? {
        sumReadCmd := SUM_READ_EX;
        r := ParseSumReadResponse(ex.resp, requests);
        return;
      }
      if !ex.Unsupported? {
        return None;
      }
      sumReadCmd := 1;
      var results := SumReadFallback(requests, replies);
      return Some(results);
    }
  }

  /** r is what the response says about the requests. */
  ghost predicate ParsedAs(resp: seq<byte>, requests: seq<Request>, r: Option<seq<Result>>) {
    && (r.None? <==> |resp| < 8 * |requests|)
    && (r.Some? ==> |r.value| == |requests|)
    && (r.Some? ==> forall i | 0 <= i < |requests| :: r.value[i] == Meaning(resp, requests, i))
  }

  ghost predicate Probed(cmd: nat, requests: seq<Request>, ex2: Answer, ex: Answer, replies: seq<Reply>, cmd': nat,
                         r: Option<seq<Result>>)
  {
    match (ex2, ex)
    case (Response(resp), _) => cmd' == SUM_READ_EX2 && ParsedAs(resp, requests, r)
    case (Unsupported, Response(resp)) => cmd' == SUM_READ_EX && ParsedAs(resp, requests, r)
    case (Unsupported, Unsupported) => cmd' == 1 && r == Some(Singles(replies))
    case _ => cmd' == cmd && r == None
  }

  ghost predicate Ran(cmd: nat, requests: seq<Request>, ex2: Answer, ex: Answer, replies: seq<Reply>, cmd': nat,
                      r: Option<seq<Result>>)
  {
    if cmd == 1 then cmd' == cmd && r == Some(Singles(replies))
    else if 8 * |requests| + Requested(requests) >= U32 then cmd' == cmd && r == None
    else if cmd == 0 then Probed(cmd, requests, ex2, ex, replies, cmd', r)
    else
      var answer := if cmd == SUM_READ_EX2 then ex2 else ex;
      cmd' == cmd && if answer.Response? then ParsedAs(answer.resp, requests, r) else r == None
  }

  /** The PLC either packs its single replies into the sum reply or does not know the command. */
  predicate Conforming(answer: Answer, replies: seq<Reply>) {
    answer == Unsupported || answer == Response(Pack(replies))
  }

  lemma PackedParse(replies: seq<Reply>, requests: seq<Request>, r: Option<seq<Result>>)
    requires |replies| == |requests| && Answered(replies) && |Pack(replies)| < U32
    requires forall i | 0 <= i < |replies| :: Exact(replies, requests, i)
    ensures ParsedAs(Pack(replies), requests, r) <==> r == Some(Singles(replies))
  {
    PackedAgreesExactly(replies, requests);
    assert r.Some? && |r.value| == |requests| ==>
        (r.value == Parsed(replies, requests)
         <==> forall i | 0 <= i < |requests| :: r.value[i] == Meaning(Pack(replies), requests, i));
  }

  /**
   Whichever command the client found to work, and whether it is still probing, the batch
   returns what reading the items one by one returns, and a later batch does too.
   */
  lemma EveryVariantAgrees(cmd: nat, requests: seq<Request>, ex2: Answer, ex: Answer, replies: seq<Reply>, cmd': nat,
                           r: Option<seq<Result>>)
    requires requests != [] && |replies| == |requests| && Answered(replies) && |Pack(replies)| < U32
    requires 8 * |requests| + Requested(requests) < U32
    requires forall i | 0 <= i < |replies| :: Exact(replies, requests, i)
    requires Conforming(ex2, replies) && Conforming(ex, replies)
    requires cmd == 0 || cmd == 1 || (cmd == SUM_READ_EX2 && ex2.Response?) || (cmd == SUM_READ_EX && ex.Response?)
    requires Ran(cmd, requests, ex2, ex, replies, cmd', r)
    ensures r == Some(Singles(replies))
    ensures cmd' == 1 || (cmd' == SUM_READ_EX2 && ex2.Response?) || (cmd' == SUM_READ_EX && ex.Response?)
  {
    PackedParse(replies, requests, r);
  }

  /** A batch too large for its 32-bit length is refused, and nothing is learned from it. */
  lemma OversizeRefused(cmd: nat, requests: seq<Request>, ex2: Answer, ex: Answer, replies: seq<Reply>, cmd': nat,
                        r: Option<seq<Result>>)
    requires Ran(cmd, requests, ex2, ex, replies, cmd', r) && cmd != 1 && 8 * |requests| + Requested(requests) >= U32
    ensures r == None && cmd' == cmd
  {
  }

  /** The first command that answers is remembered, and what is remembered is never probed again. */
  lemma LearnsExactly(cmd: nat, requests: seq<Request>, ex2: Answer, ex: Answer, replies: seq<Reply>, cmd': nat,
                      r: Option<seq<Result>>)
    requires Ran(cmd, requests, ex2, ex, replies, cmd', r) && 8 * |requests| + Requested(requests) < U32
    ensures cmd != 0 ==> cmd' == cmd
    ensures cmd == 0 ==>
      && (cmd' == 0xF084 <==> ex2.Response?)
      && (cmd' == 0xF083 <==> ex2.Unsupported? && ex.Response?)
      && (cmd' == 1 <==> ex2.Unsupported? && ex.Unsupported?)
      && (cmd' == 0 <==> ex2.Failed? || (ex2.Unsupported? && ex.Failed?))
    ensures cmd == 0 && cmd' == 0 ==> r == None
  {
  }

  lemma {:induction false} RequestedIsSum(requests: seq<Request>, more: Request)
    ensures Requested([]) == 0 && Requested(requests + [more]) == Requested(requests) + more.length
  {
    assert (requests + [more])[..|requests|] == requests;
  }
}
