/** The bounded buffer of samples that arrived before their handle was bound (earlySamples, earlyBytes). */
module EarlySamples {

  import opened Bytes

  type Handle = nat

  const MAX_HANDLES: nat := 4096
  const MAX_BYTES: nat := 8 * 1024 * 1024

  /** A parked sample; id is its arrival number. */
  datatype Sample = Sample(id: nat, content: seq<byte>)

  datatype Buffer = Buffer(samples: map<Handle, Sample>, bytes: int)

  const Empty: Buffer := Buffer(map[], 0)

  /** Total content held, in bytes. */
  ghost function TotalBytes(m: map<Handle, Sample>): nat
    decreases |m|
  {
    if m == map[] then 0
    else
      var h :| h in m;
      |m[h].content| + TotalBytes(m - {h})
  }

  ghost predicate Bounded(b: Buffer) {
    && b.bytes == TotalBytes(b.samples)
    && b.bytes <= MAX_BYTES
    && |b.samples| <= MAX_HANDLES
  }

  /** What inserting content for h adds to the byte count: a replaced entry frees its own bytes. */
  function Delta(b: Buffer, h: Handle, content: seq<byte>): int {
    |content| - (if h in b.samples then |b.samples[h].content| else 0)
  }

  predicate Full(b: Buffer, h: Handle, content: seq<byte>) {
    || (h !in b.samples && |b.samples| >= MAX_HANDLES)
    || b.bytes + Delta(b, h, content) > MAX_BYTES
  }

  function Insert(b: Buffer, h: Handle, s: Sample): Buffer {
    Buffer(b.samples[h := s], b.bytes + Delta(b, h, s.content))
  }

  /** The entries of m under the handles hs. */
  ghost function Under(m: map<Handle, Sample>, hs: set<Handle>): map<Handle, Sample> {
    map h | h in m && h in hs :: m[h]
  }

  ghost function Remove(b: Buffer, hs: set<Handle>): Buffer {
    Buffer(b.samples - hs, b.bytes - TotalBytes(Under(b.samples, hs)))
  }

  /** The total does not depend on the order in which entries are counted. */
  lemma {:induction false} TotalMinus(m: map<Handle, Sample>, h: Handle)
    requires h in m
    ensures TotalBytes(m) == |m[h].content| + TotalBytes(m - {h})
    decreases |m|
  {
    var k :| k in m && TotalBytes(m) == |m[k].content| + TotalBytes(m - {k});
    if k != h {
      TotalMinus(m - {k}, h);
      TotalMinus(m - {h}, k);
      assert m - {k} - {h} == m - {h} - {k};
    }
  }

  /** Splitting a buffer splits its total. */
  lemma {:induction false} TotalSplit(m: map<Handle, Sample>, hs: set<Handle>)
    ensures TotalBytes(m) == TotalBytes(Under(m, hs)) + TotalBytes(m - hs)
    decreases |m|
  {
    if m == map[] {
      assert Under(m, hs) == map[] && m - hs == map[];
    } else {
      var h :| h in m;
      TotalMinus(m, h);
      TotalSplit(m - {h}, hs);
      if h in hs {
        TakenOne(m, hs, h);
      } else {
        LeftOne(m, hs, h);
      }
    }
  }

  lemma TakenOne(m: map<Handle, Sample>, hs: set<Handle>, h: Handle)
    requires h in m && h in hs
    ensures TotalBytes(Under(m, hs)) == |m[h].content| + TotalBytes(Under(m - {h}, hs))
    ensures TotalBytes(m - hs) == TotalBytes(m - {h} - hs)
  {
    TotalMinus(Under(m, hs), h);
    assert Under(m, hs) - {h} == Under(m - {h}, hs);
    assert m - hs == m - {h} - hs;
  }

  lemma LeftOne(m: map<Handle, Sample>, hs: set<Handle>, h: Handle)
    requires h in m && h !in hs
    ensures TotalBytes(Under(m, hs)) == TotalBytes(Under(m - {h}, hs))
    ensures TotalBytes(m - hs) == |m[h].content| + TotalBytes(m - {h} - hs)
  {
    TotalMinus(m - hs, h);
    assert m - hs - {h} == m - {h} - hs;
    assert Under(m, hs) == Under(m - {h}, hs);
  }

  /** Parking within the limits keeps the byte count exact and both caps respected. */
  lemma InsertBounded(b: Buffer, h: Handle, s: Sample)
    requires Bounded(b) && !Full(b, h, s.content)
    ensures Bounded(Insert(b, h, s))
  {
    var m := b.samples[h := s];
    TotalMinus(m, h);
    if h in b.samples {
      TotalMinus(b.samples, h);
      assert m - {h} == b.samples - {h};
      assert m.Keys == b.samples.Keys;
      assert |m| == |m.Keys| == |b.samples.Keys| == |b.samples|;
    } else {
      assert m - {h} == b.samples;
    }
  }

  /** A sample is refused exactly when parking it would break a cap: 4096 handles or 8 MiB. */
  lemma FullExactly(b: Buffer, h: Handle, s: Sample)
    requires Bounded(b)
    ensures Full(b, h, s.content) <==> |b.samples[h := s]| > 4096 || TotalBytes(b.samples[h := s]) > 8_388_608
  {
    var m := b.samples[h := s];
    TotalMinus(m, h);
    if h in b.samples {
      TotalMinus(b.samples, h);
      assert m - {h} == b.samples - {h};
      assert m.Keys == b.samples.Keys;
      assert |m| == |m.Keys| == |b.samples.Keys| == |b.samples|;
    } else {
      assert m - {h} == b.samples;
      assert m.Keys == b.samples.Keys + {h};
      assert |m| == |m.Keys| && |b.samples| == |b.samples.Keys|;
    }
  }

  lemma RemoveBounded(b: Buffer, hs: set<Handle>)
    requires Bounded(b)
    ensures Bounded(Remove(b, hs))
  {
    TotalSplit(b.samples, hs);
    SubmapSize(b.samples - hs, b.samples);
  }

  lemma {:induction false} SubmapSize(a: map<Handle, Sample>, b: map<Handle, Sample>)
    requires a.Keys <= b.Keys
    ensures |a| <= |b|
    decreases |a|
  {
    if a != map[] {
      var h :| h in a;
      SubmapSize(a - {h}, b - {h});
    }
  }
}
