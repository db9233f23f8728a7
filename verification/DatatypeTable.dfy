/** The uploaded datatype table (decodeSymbolUploadDataType, parseUploadSymbolInfoDataTypes). */
module DatatypeTable {

  import opened Basics
  import opened Bytes
  import ArrayLayout

  // ---------------------------------------------------------------- the fixed header

  datatype Header = Header(
    entryLength: nat,
    version: nat,
    hash: nat,
    typeHash: nat,
    size: nat,
    offs: nat,
    dataType: nat,
    flags: nat,
    nameLength: nat,
    typeLength: nat,
    commentLength: nat,
    arrayDim: nat,
    subItems: nat)

  const HEADER: nat := 42
  const MIN_ENTRY: nat := 48

  function Repeat(w: nat, n: nat): (ws: seq<nat>)
    ensures |ws| == n
  {
    if n == 0 then [] else [w] + Repeat(w, n - 1)
  }

  /** Field widths in bytes, in wire order: eight 32-bit fields, then five 16-bit ones. */
  const WIDTHS: seq<nat> := Repeat(4, 8) + Repeat(2, 5)

  function Sum(ws: seq<nat>): nat {
    if ws == [] then 0 else ws[0] + Sum(ws[1..])
  }

  lemma {:induction false} SumRepeat(w: nat, n: nat, ws: seq<nat>)
    requires w == 2 || w == 4
    ensures Sum(Repeat(w, n) + ws) == (if w == 4 then 4 * n else 2 * n) + Sum(ws)
  {
    if n == 0 {
      assert Repeat(w, 0) + ws == ws;
    } else {
      SumRepeat(w, n - 1, ws);
      SumCons(w, Repeat(w, n - 1) + ws);
      assert Repeat(w, n) + ws == [w] + (Repeat(w, n - 1) + ws);
    }
  }

  lemma SumCons(w: nat, ws: seq<nat>)
    ensures Sum([w] + ws) == w + Sum(ws)
  {
    assert ([w] + ws)[1..] == ws;
  }

  lemma HeaderWidth()
    ensures Sum(WIDTHS) == HEADER
  {
    SumRepeat(4, 8, Repeat(2, 5));
    SumRepeat(2, 5, []);
    assert Repeat(2, 5) + [] == Repeat(2, 5);
  }

  function GetFields(d: seq<byte>, ws: seq<nat>): (vs: seq<nat>)
    requires |d| >= Sum(ws)
    ensures |vs| == |ws|
  {
    if ws == [] then [] else [GetLE(d[..ws[0]])] + GetFields(d[ws[0]..], ws[1..])
  }

  function PutFields(vs: seq<nat>, ws: seq<nat>): (d: seq<byte>)
    requires |vs| == |ws|
    ensures |d| == Sum(ws)
  {
    if ws == [] then [] else PutLE(vs[0], ws[0]) + PutFields(vs[1..], ws[1..])
  }

  predicate FieldsFit(vs: seq<nat>, ws: seq<nat>)
    requires |vs| == |ws|
  {
    ws == [] || (vs[0] < Pow256(ws[0]) && FieldsFit(vs[1..], ws[1..]))
  }

  lemma FirstField(v: nat, w: nat, more: seq<byte>)
    requires v < Pow256(w)
    ensures GetLE((PutLE(v, w) + more)[..w]) == v && (PutLE(v, w) + more)[w..] == more
  {
    GetPut(v, w);
    assert (PutLE(v, w) + more)[..w] == PutLE(v, w);
  }

  lemma {:induction false} FieldsRoundTrip(vs: seq<nat>, ws: seq<nat>, rest: seq<byte>)
    requires |vs| == |ws| && FieldsFit(vs, ws)
    ensures GetFields(PutFields(vs, ws) + rest, ws) == vs
  {
    if ws == [] {
    } else {
      FieldsRoundTrip(vs[1..], ws[1..], rest);
      FieldsCons(vs[0], ws, PutFields(vs[1..], ws[1..]) + rest);
      PutFieldsCons(vs, ws, rest);
    }
  }

  lemma PutFieldsCons(vs: seq<nat>, ws: seq<nat>, rest: seq<byte>)
    requires |vs| == |ws| && ws != []
    ensures PutFields(vs, ws) + rest == PutLE(vs[0], ws[0]) + (PutFields(vs[1..], ws[1..]) + rest)
  {
  }

  lemma FieldsCons(v: nat, ws: seq<nat>, more: seq<byte>)
    requires ws != [] && v < Pow256(ws[0]) && |more| >= Sum(ws[1..])
    ensures GetFields(PutLE(v, ws[0]) + more, ws) == [v] + GetFields(more, ws[1..])
  {
    FirstField(v, ws[0], more);
  }

  function FromFields(f: seq<nat>): Header
    requires |f| == 13
  {
    Header(f[0], f[1], f[2], f[3], f[4], f[5], f[6], f[7], f[8], f[9], f[10], f[11], f[12])
  }

  function ToFields(h: Header): (f: seq<nat>)
    ensures |f| == 13 && FromFields(f) == h
  {
    [h.entryLength, h.version, h.hash, h.typeHash, h.size, h.offs, h.dataType, h.flags,
     h.nameLength, h.typeLength, h.commentLength, h.arrayDim, h.subItems]
  }

  function ReadHeader(d: seq<byte>): Header
    requires |d| >= HEADER
  {
    HeaderWidth();
    FromFields(GetFields(d, WIDTHS))
  }

  // ---------------------------------------------------------------- entries

  datatype DataType = DataType(
    header: Header,
    name: string,
    dataType: string,
    comment: string,
    children: map<string, DataType>)

  /** normalizeStringDataType: STRING(80) and WSTRING(255) collapse to the bare kind. */
  function Normalize(dt: string): string {
    if |dt| >= 7 && dt[..7] == "WSTRING" then "WSTRING"
    else if |dt| >= 6 && dt[..6] == "STRING" then "STRING"
    else dt
  }

  /** String fields cut out of a buffer, and where they end. */
  datatype Cut = Cut(parts: seq<seq<byte>>, next: nat)

  /** String fields of these lengths from p on, each with the terminator after it, if the buffer has one left. */
  function ReadAll(d: seq<byte>, p: nat, lengths: seq<nat>): (r: Option<Cut>)
    requires p <= |d|
    ensures r.Some? ==> |r.value.parts| == |lengths| && p <= r.value.next <= |d|
    decreases |lengths|
  {
    if lengths == [] then Some(Cut([], p))
    else Prepend(d, p, lengths[0], ReadAll(d, Min(p + lengths[0] + 1, |d|), lengths[1..]))
  }

  /** The field of length n at p before the ones cut after it. */
  function Prepend(d: seq<byte>, p: nat, n: nat, more: Option<Cut>): Option<Cut> {
    if p + n > |d| || more.None? then None else Some(Cut([d[p..p + n]] + more.value.parts, more.value.next))
  }

  function Lengths(h: Header): (ls: seq<nat>)
    ensures |ls| == 3
  {
    [h.nameLength, h.typeLength, h.commentLength]
  }

  /** Header and strings of an entry, without children, and how many bytes they took. */
  datatype Front = Front(header: Header, name: string, dataType: string, comment: string, used: nat)

  function Interpret(h: Header, cut: Cut): (f: Front)
    requires |cut.parts| == 3
    ensures f.header == h && f.used == cut.next
  {
    Front(h, CString(cut.parts[0]), Normalize(CString(cut.parts[1])), CString(cut.parts[2]), cut.next)
  }

  /** The strings after a header already read. */
  function FrontWith(h: Header, d: seq<byte>): (r: Option<Front>)
    requires |d| >= HEADER
    ensures r.Some? ==> HEADER <= r.value.used <= |d| && r.value.header == h
  {
    var cut := ReadAll(d, HEADER, Lengths(h));
    if cut.None? then None else Some(Interpret(h, cut.value))
  }

  function ReadFront(d: seq<byte>): (r: Option<Front>)
    ensures r.Some? ==> HEADER <= r.value.used <= |d| && |d| >= MIN_ENTRY && r.value.header == ReadHeader(d)
  {
    if |d| < MIN_ENTRY then None else FrontWith(ReadHeader(d), d)
  }

  datatype Outcome = Fail | Done(entry: DataType, rest: seq<byte>)

  const NoHeader: Header := Header(0, 0, 0, 0, 0, 0, 0, 0, 0, 0, 0, 0, 0)

  /** makeArrayChildren's elements as datatype entries. */
  ghost function ArrayChildren(levels: seq<ArrayLayout.Level>, dt: string, size: nat): map<string, DataType> {
    Entries(ArrayLayout.Elements(levels, size), dt)
  }

  function Entries(m: map<string, ArrayLayout.Element>, dt: string): map<string, DataType> {
    map name | name in m :: DataType(NoHeader.(offs := m[name].offset, size := m[name].size), name, dt, "", map[])
  }

  function ReadLevels(d: seq<byte>, k: nat): (levels: seq<ArrayLayout.Level>)
    requires |d| >= 8 * k
    ensures |levels| == k && ArrayLayout.OnWire(levels)
  {
    Widths();
    if k == 0 then []
    else [ArrayLayout.Level(GetLE(d[..4]), GetLE(d[4..8]))] + ReadLevels(d[8..], k - 1)
  }

  /** One entry from the front of d. */
  ghost function DecodeEntry(d: seq<byte>): (r: Outcome)
    ensures r.Done? ==> |r.rest| < |d|
    decreases |d|, 1, 0
  {
    var front := ReadFront(d);
    if front.None? then Fail else DecodeBody(front.value, d)
  }

  /** What follows an entry's header and strings. Children are decoded from their own slice only. */
  ghost function DecodeBody(f: Front, d: seq<byte>): (r: Outcome)
    requires HEADER <= f.used <= |d|
    ensures r.Done? ==> |r.rest| < |d|
    decreases |d|, 0, 0
  {
    var bare := DataType(f.header, f.name, f.dataType, f.comment, map[]);
    var childLen := f.header.entryLength - f.used;
    if childLen <= 0 then Done(bare, d[f.used..])
    else if childLen > |d| - f.used then Fail
    else
      var children := DecodeInner(f, d[f.used..f.used + childLen]);
      if children.None? then Fail
      else Done(bare.(children := children.value), d[f.used + childLen..])
  }

  ghost function DecodeInner(f: Front, inner: seq<byte>): Option<map<string, DataType>>
    decreases |inner|, 3, 0
  {
    if f.header.arrayDim == 0 then DecodeItems(map[], inner, f.header.subItems)
    else if |inner| < 8 * f.header.arrayDim then None
    else Some(ArrayChildren(ReadLevels(inner, f.header.arrayDim), f.dataType, f.header.size))
  }

  /** The next k entries of d, filed by name over what m has; a later entry replaces an earlier one of the same name. */
  ghost function DecodeItems(m: map<string, DataType>, d: seq<byte>, k: nat): Option<map<string, DataType>>
    decreases |d|, 2, k
  {
    if k == 0 then Some(m)
    else
      var first := DecodeEntry(d);
      if first.Fail? then None else DecodeItems(m[first.entry.name := first.entry], first.rest, k - 1)
  }

  /** Every entry of d, filed by name over what m has. */
  ghost function DecodeTable(m: map<string, DataType>, d: seq<byte>): Option<map<string, DataType>>
    decreases |d|
  {
    if d == [] then Some(m)
    else
      var first := DecodeEntry(d);
      if first.Fail? then None else DecodeTable(m[first.entry.name := first.entry], first.rest)
  }

  // ---------------------------------------------------------------- the decoder

  /** bytes.Buffer: what has not been read yet. */
  class Buffer {
    var unread: seq<byte>

    constructor (data: seq<byte>)
      ensures unread == data
    {
      unread := data;
    }

    /** Reads exactly n bytes or fails. */
    method Read(n: nat) returns (r: Option<seq<byte>>)
      modifies this
      ensures r.Some? <==> n <= |old(unread)|
      ensures r.Some? ==> r.value == old(unread)[..n] && unread == old(unread)[n..]
    {
      if n > |unread| {
        return None;
      }
      r := Some(unread[..n]);
      unread := unread[n..];
    }

    /** Skips up to n bytes. */
    method Next(n: nat)
      modifies this
      ensures unread == old(unread)[Min(n, |old(unread)|)..]
    {
      unread := unread[Min(n, |unread|)..];
    }
  }

  /** A string field and its terminator. */
  method ReadField(buf: Buffer, n: nat, ghost d: seq<byte>, ghost p: nat) returns (r: Option<seq<byte>>)
    requires p <= |d| && buf.unread == d[p..]
    modifies buf
    ensures r.Some? <==> p + n <= |d|
    ensures r.Some? ==> r.value == d[p..p + n] && buf.unread == d[Min(p + n + 1, |d|)..]
  {
    r := buf.Read(n);
    if r.None? {
      return;
    }
    assert r.value == d[p..p + n];
    buf.Next(1);
    assert buf.unread == d[Min(p + n + 1, |d|)..];
  }

  lemma ReadTwo(d: seq<byte>, p: nat, b: nat, c: nat)
    requires p <= |d|
    ensures
      var q := Min(p + b + 1, |d|);
      ReadAll(d, p, [b, c]) == Prepend(d, p, b, Prepend(d, q, c, Some(Cut([], Min(q + c + 1, |d|)))))
  {
    var q := Min(p + b + 1, |d|);
    ReadNext(d, p, b, [c]);
    ReadNext(d, q, c, []);
    assert [b] + [c] == [b, c] && [c] + [] == [c];
  }

  lemma ReadNext(d: seq<byte>, p: nat, l: nat, ls: seq<nat>)
    requires p <= |d|
    ensures ReadAll(d, p, [l] + ls) == Prepend(d, p, l, ReadAll(d, Min(p + l + 1, |d|), ls))
  {
    assert ([l] + ls)[1..] == ls;
  }

  lemma ReadThree(d: seq<byte>, a: nat, b: nat, c: nat)
    requires |d| >= HEADER
    ensures
      var p := Min(HEADER + a + 1, |d|);
      var q := Min(p + b + 1, |d|);
      ReadAll(d, HEADER, [a, b, c]) ==
        Prepend(d, HEADER, a, Prepend(d, p, b, Prepend(d, q, c, Some(Cut([], Min(q + c + 1, |d|))))))
  {
    ReadNext(d, HEADER, a, [b, c]);
    ReadTwo(d, Min(HEADER + a + 1, |d|), b, c);
    assert [a] + [b, c] == [a, b, c];
  }

  lemma ThreeParts(x: seq<byte>, y: seq<byte>, z: seq<byte>)
    ensures [x] + ([y] + ([z] + [])) == [x, y, z]
  {
  }

  method DecodeStrings(buf: Buffer, h: Header, ghost d: seq<byte>) returns (r: Option<Cut>)
    requires |d| >= MIN_ENTRY && buf.unread == d[HEADER..]
    modifies buf
    ensures r == ReadAll(d, HEADER, Lengths(h))
    ensures r.Some? ==> buf.unread == d[r.value.next..]
  {
    var size := HEADER + |buf.unread|;
    ReadThree(d, h.nameLength, h.typeLength, h.commentLength);
    var name := ReadField(buf, h.nameLength, d, HEADER);
    if name.None? {
      return None;
    }
    ghost var p := Min(HEADER + h.nameLength + 1, |d|);
    var dt := ReadField(buf, h.typeLength, d, p);
    if dt.None? {
      return None;
    }
    ghost var q := Min(p + h.typeLength + 1, |d|);
    var comment := ReadField(buf, h.commentLength, d, q);
    if comment.None? {
      return None;
    }
    ThreeParts(name.value, dt.value, comment.value);
    return Some(Cut([name.value, dt.value, comment.value], size - |buf.unread|));
  }

  /** Header and the three strings. */
  method DecodeFront(buf: Buffer) returns (r: Option<Front>)
    modifies buf
    ensures r == ReadFront(old(buf.unread))
    ensures r.Some? ==> buf.unread == old(buf.unread)[r.value.used..]
  {
    if |buf.unread| < MIN_ENTRY {
      return None;
    }
    var h := ReadHeader(buf.unread);
    ghost var d := buf.unread;
    buf.Next(HEADER);
    var cut := DecodeStrings(buf, h, d);
    if cut.None? {
      return None;
    }
    return Some(Interpret(h, cut.value));
  }

  method DecodeSymbolUploadDataType(buf: Buffer) returns (r: Option<DataType>)
    modifies buf
    ensures r.None? <==> DecodeEntry(old(buf.unread)).Fail?
    ensures r.Some? ==> DecodeEntry(old(buf.unread)) == Done(r.value, buf.unread)
    decreases |buf.unread|, 0
  {
    ghost var d := buf.unread;
    var front := DecodeFront(buf);
    if front.None? {
      return None;
    }
    var f := front.value;
    SizeOnWire(d);
    r := DecodeAfterFront(buf, f, d);
  }

  /** The part of the entry its declared length leaves after the strings. */
  method DecodeAfterFront(buf: Buffer, f: Front, ghost d: seq<byte>) returns (r: Option<DataType>)
    requires HEADER <= f.used <= |d| && buf.unread == d[f.used..] && f.header.size < U32
    modifies buf
    ensures r.None? <==> DecodeBody(f, d).Fail?
    ensures r.Some? ==> DecodeBody(f, d) == Done(r.value, buf.unread)
    decreases |buf.unread|, 4
  {
    var entry := DataType(f.header, f.name, f.dataType, f.comment, map[]);
    var childLen := f.header.entryLength - f.used;
    if childLen <= 0 {
      return Some(entry);
    }
    if childLen > |buf.unread| {
      return None;
    }
    var childData := buf.Read(childLen);
    assert childData.value == d[f.used..f.used + childLen];
    assert buf.unread == d[f.used + childLen..];
    if f.header.arrayDim > 0 {
      if |childData.value| < 8 * f.header.arrayDim {
        return None;
      }
      var levels := ReadLevels(childData.value, f.header.arrayDim);
      var elements := ArrayLayout.MakeArrayChildren(levels, f.header.size);
      return Some(entry.(children := Entries(elements, f.dataType)));
    }
    var items := DecodeChildren(childData.value, f.header.subItems);
    if items.None? {
      return None;
    }
    return Some(entry.(children := items.value));
  }

  lemma SizeOnWire(d: seq<byte>)
    requires |d| >= HEADER
    ensures ReadHeader(d).size < U32
  {
    HeaderWidth();
    Widths();
    FieldBelow(d, WIDTHS, 4);
    assert WIDTHS[4] == 4;
  }

  lemma {:induction false} FieldBelow(d: seq<byte>, ws: seq<nat>, i: nat)
    requires |d| >= Sum(ws) && i < |ws|
    ensures GetFields(d, ws)[i] < Pow256(ws[i])
  {
    if i > 0 { FieldBelow(d[ws[0]..], ws[1..], i - 1); }
  }

  type Filing = (map<string, DataType>, seq<byte>, nat) -> Option<map<string, DataType>>

  /** f is DecodeItems: a name for it that says nothing until DecodeItems itself is mentioned. */
  ghost predicate IsItems(f: Filing) {
    forall m, d, k {:trigger DecodeItems(m, d, k)} :: f(m, d, k) == DecodeItems(m, d, k)
  }

  method DecodeChildren(data: seq<byte>, k: nat) returns (r: Option<map<string, DataType>>)
    ensures r == DecodeItems(map[], data, k)
    decreases |data|, 3
  {
    r := CollectChildren(data, k, (m, d, n: nat) => DecodeItems(m, d, n));
  }

  /** The subitem loop over the children's own buffer. */
  method CollectChildren(data: seq<byte>, k: nat, ghost items: Filing) returns (r: Option<map<string, DataType>>)
    requires IsItems(items)
    ensures r == items(map[], data, k)
    decreases |data|, 2
  {
    var buf := new Buffer(data);
    var children := map[];
    for j := 0 to k
      invariant |buf.unread| <= |data|
      invariant items(map[], data, k) == items(children, buf.unread, k - j)
    {
      var ok;
      ok, children := DecodeChild(buf, children, k - j, items);
      if !ok {
        return None;
      }
    }
    ItemsDone(children, buf.unread, items);
    return Some(children);
  }

  lemma ItemsDone(m: map<string, DataType>, d: seq<byte>, items: Filing)
    requires IsItems(items)
    ensures items(m, d, 0) == Some(m)
  {
    assert DecodeItems(m, d, 0) == Some(m);
  }

  /** One turn of the loop, with k children to go. */
  method DecodeChild(buf: Buffer, children: map<string, DataType>, ghost k: nat, ghost items: Filing)
    returns (ok: bool, more: map<string, DataType>)
    requires k > 0 && IsItems(items)
    modifies buf
    ensures !ok ==> items(children, old(buf.unread), k) == None
    ensures ok ==> |buf.unread| < |old(buf.unread)|
    ensures ok ==> items(children, old(buf.unread), k) == items(more, buf.unread, k - 1)
    decreases |buf.unread|, 1
  {
    var child := DecodeSymbolUploadDataType(buf);
    if child.None? {
      assert DecodeItems(children, old(buf.unread), k) == None;
      return false, children;
    }
    ItemsStep(children, old(buf.unread), k, child.value, buf.unread);
    return true, children[child.value.name := child.value];
  }

  lemma ItemsStep(m: map<string, DataType>, d: seq<byte>, k: nat, e: DataType, rest: seq<byte>)
    requires k > 0 && DecodeEntry(d) == Done(e, rest)
    ensures DecodeItems(m, d, k) == DecodeItems(m[e.name := e], rest, k - 1)
  {
  }

  /** parseUploadSymbolInfoDataTypes: terminates on every byte string, since every entry takes at least its header. */
  method ParseUploadSymbolInfoDataTypes(data: seq<byte>) returns (r: Option<map<string, DataType>>)
    ensures r == DecodeTable(map[], data)
  {
    var buf := new Buffer(data);
    var datatypes := map[];
    ghost var all := DecodeTable(datatypes, data);
    while |buf.unread| > 0
      invariant all == DecodeTable(datatypes, buf.unread)
      decreases |buf.unread|
    {
      ghost var was := buf.unread;
      var header := DecodeSymbolUploadDataType(buf);
      if header.None? {
        return None;
      }
      TableStep(datatypes, was, header.value, buf.unread);
      datatypes := datatypes[header.value.name := header.value];
    }
    return Some(datatypes);
  }

  lemma TableStep(m: map<string, DataType>, d: seq<byte>, e: DataType, rest: seq<byte>)
    requires d != [] && DecodeEntry(d) == Done(e, rest)
    ensures DecodeTable(m, d) == DecodeTable(m[e.name := e], rest)
  {
  }

  // ---------------------------------------------------------------- where each header field lies

  lemma {:induction false} FieldAt(d: seq<byte>, ws: seq<nat>, i: nat)
    requires |d| >= Sum(ws) && i < |ws|
    ensures Sum(ws[..i]) + ws[i] <= |d|
    ensures GetFields(d, ws)[i] == GetLE(d[Sum(ws[..i])..Sum(ws[..i]) + ws[i]])
  {
    if i == 0 {
      LeadingField(d, ws);
    } else {
      FieldAt(d[ws[0]..], ws[1..], i - 1);
      FieldAfter(d, ws, i, Sum(ws[1..][..i - 1]));
      SumTake(ws, i);
    }
  }

  lemma LeadingField(d: seq<byte>, ws: seq<nat>)
    requires |d| >= Sum(ws) && ws != []
    ensures Sum(ws[..0]) == 0 && ws[0] <= |d| && GetFields(d, ws)[0] == GetLE(d[0..ws[0]])
  {
    assert d[..ws[0]] == d[0..ws[0]];
  }

  /** A field that lies at some place after the first one lies that much further in the whole. */
  lemma FieldAfter(d: seq<byte>, ws: seq<nat>, i: nat, at: nat)
    requires |d| >= Sum(ws) && 0 < i < |ws| && ws[0] + at + ws[i] <= |d|
    requires GetFields(d[ws[0]..], ws[1..])[i - 1] == GetLE(d[ws[0]..][at..at + ws[i]])
    ensures GetFields(d, ws)[i] == GetLE(d[ws[0] + at..ws[0] + at + ws[i]])
  {
    assert d[ws[0]..][at..at + ws[i]] == d[ws[0] + at..ws[0] + at + ws[i]];
  }

  lemma SumTake(ws: seq<nat>, i: nat)
    requires 0 < i < |ws|
    ensures Sum(ws[..i]) == ws[0] + Sum(ws[1..][..i - 1])
  {
    assert ws[..i][1..] == ws[1..][..i - 1];
  }

  /** How far into the header field i starts. */
  lemma {:induction false} FieldStart(i: nat)
    requires i < 13
    ensures Sum(WIDTHS[..i]) == if i <= 8 then 4 * i else 32 + 2 * (i - 8)
    ensures WIDTHS[i] == if i < 8 then 4 else 2
  {
    WidthAt(i);
    if i > 0 {
      FieldStart(i - 1);
      SumSnoc(WIDTHS, i - 1);
    }
  }

  lemma WidthAt(i: nat)
    requires i < 13
    ensures |WIDTHS| == 13 && WIDTHS[i] == if i < 8 then 4 else 2
  {
    if i < 8 {
      RepeatAt(4, 8, i);
    } else {
      RepeatAt(2, 5, i - 8);
    }
  }

  lemma {:induction false} RepeatAt(w: nat, n: nat, i: nat)
    requires i < n
    ensures Repeat(w, n)[i] == w
  {
    if i > 0 {
      RepeatAt(w, n - 1, i - 1);
    }
  }

  lemma {:induction false} SumSnoc(ws: seq<nat>, i: nat)
    requires i < |ws|
    ensures Sum(ws[..i + 1]) == Sum(ws[..i]) + ws[i]
  {
    if i == 0 {
      assert ws[..1] == [ws[0]] && ws[..0] == [] && [ws[0]][1..] == [];
    } else {
      SumSnoc(ws[1..], i - 1);
      assert ws[..i + 1][1..] == ws[1..][..i] && ws[..i][1..] == ws[1..][..i - 1];
    }
  }

  lemma HeaderField(d: seq<byte>, i: nat)
    requires |d| >= HEADER && i < 13
    ensures
      var at := if i <= 8 then 4 * i else 32 + 2 * (i - 8);
      var w := if i < 8 then 4 else 2;
      at + w <= |d| && ToFields(ReadHeader(d))[i] == GetLE(d[at..at + w])
  {
    FieldStart(i);
    HeaderFieldAt(d, i, Sum(WIDTHS[..i]), WIDTHS[i]);
  }

  lemma HeaderFieldAt(d: seq<byte>, i: nat, at: nat, w: nat)
    requires |d| >= HEADER && i < 13 && |WIDTHS| == 13 && at == Sum(WIDTHS[..i]) && w == WIDTHS[i]
    ensures at + w <= |d| && ToFields(ReadHeader(d))[i] == GetLE(d[at..at + w])
  {
    HeaderWidth();
    FieldAt(d, WIDTHS, i);
    FieldsBack(GetFields(d, WIDTHS));
  }

  lemma FieldsBack(f: seq<nat>)
    requires |f| == 13
    ensures ToFields(FromFields(f)) == f
  {
  }

  /** The header's layout on the wire, byte by byte. */
  lemma HeaderLayout(d: seq<byte>)
    requires |d| >= HEADER
    ensures
      var h := ReadHeader(d);
      && h.entryLength == GetLE(d[0..4]) && h.version == GetLE(d[4..8])
      && h.hash == GetLE(d[8..12]) && h.typeHash == GetLE(d[12..16])
      && h.size == GetLE(d[16..20]) && h.offs == GetLE(d[20..24])
      && h.dataType == GetLE(d[24..28]) && h.flags == GetLE(d[28..32])
      && h.nameLength == GetLE(d[32..34]) && h.typeLength == GetLE(d[34..36]) && h.commentLength == GetLE(d[36..38])
      && h.arrayDim == GetLE(d[38..40]) && h.subItems == GetLE(d[40..42])
  {
    FirstFields(d);
    LastFields(d);
  }

  lemma FirstFields(d: seq<byte>)
    requires |d| >= HEADER
    ensures
      var f := ToFields(ReadHeader(d));
      && f[0] == GetLE(d[0..4]) && f[1] == GetLE(d[4..8]) && f[2] == GetLE(d[8..12]) && f[3] == GetLE(d[12..16])
      && f[4] == GetLE(d[16..20]) && f[5] == GetLE(d[20..24]) && f[6] == GetLE(d[24..28]) && f[7] == GetLE(d[28..32])
  {
    HeaderField(d, 0);
    HeaderField(d, 1);
    HeaderField(d, 2);
    HeaderField(d, 3);
    HeaderField(d, 4);
    HeaderField(d, 5);
    HeaderField(d, 6);
    HeaderField(d, 7);
  }

  lemma LastFields(d: seq<byte>)
    requires |d| >= HEADER
    ensures
      var f := ToFields(ReadHeader(d));
      && f[8] == GetLE(d[32..34]) && f[9] == GetLE(d[34..36]) && f[10] == GetLE(d[36..38])
      && f[11] == GetLE(d[38..40]) && f[12] == GetLE(d[40..42])
  {
    HeaderField(d, 8);
    HeaderField(d, 9);
    HeaderField(d, 10);
    HeaderField(d, 11);
    HeaderField(d, 12);
  }

  // ---------------------------------------------------------------- consumption and locality

  /** Header, strings and terminators of an entry with this header. */
  function FrontLength(h: Header): nat {
    HEADER + h.nameLength + 1 + h.typeLength + 1 + h.commentLength + 1
  }

  lemma {:induction false} CutEnd(d: seq<byte>, p: nat, lengths: seq<nat>)
    requires p <= |d| && ReadAll(d, p, lengths).Some?
    ensures ReadAll(d, p, lengths).value.next == Min(p + Sum(lengths) + |lengths|, |d|)
    decreases |lengths|
  {
    if lengths != [] {
      CutEnd(d, Min(p + lengths[0] + 1, |d|), lengths[1..]);
    }
  }

  lemma FrontIsSum(h: Header)
    ensures FrontLength(h) == HEADER + Sum(Lengths(h)) + 3
  {
    var ls := Lengths(h);
    assert ls[1..] == [h.typeLength, h.commentLength] && ls[1..][1..] == [h.commentLength] && ls[1..][1..][1..] == [];
    assert Sum(ls) == ls[0] + Sum(ls[1..]);
    assert Sum(ls[1..]) == ls[1] + Sum(ls[1..][1..]);
  }

  lemma FrontUsed(h: Header, d: seq<byte>)
    requires |d| >= MIN_ENTRY && ReadAll(d, HEADER, Lengths(h)).Some?
    ensures ReadAll(d, HEADER, Lengths(h)).value.next == Min(FrontLength(h), |d|)
  {
    FrontIsSum(h);
    CutEnd(d, HEADER, Lengths(h));
  }

  lemma BodyConsumes(f: Front, d: seq<byte>)
    requires HEADER <= f.used <= |d| && DecodeBody(f, d).Done?
    ensures
      var n := Max(f.header.entryLength, f.used);
      n <= |d| && DecodeBody(f, d).rest == d[n..]
  {
  }

  /** A successful entry takes exactly the larger of its declared length and its header plus strings. */
  lemma ConsumesDeclared(d: seq<byte>)
    requires DecodeEntry(d).Done?
    ensures |d| >= MIN_ENTRY
    ensures
      var n := Max(ReadHeader(d).entryLength, Min(FrontLength(ReadHeader(d)), |d|));
      n <= |d| && DecodeEntry(d).rest == d[n..]
  {
    FrontUsed(ReadHeader(d), d);
    BodyConsumes(ReadFront(d).value, d);
  }

  /** An entry shorter than 48 bytes, or longer than what is left, is refused. */
  lemma TruncatedIsRefused(d: seq<byte>)
    requires |d| < 48 || ReadHeader(d).entryLength > |d|
    ensures DecodeEntry(d).Fail?
  {
    if DecodeEntry(d).Done? {
      ConsumesDeclared(d);
    }
  }

  lemma {:induction false} CutLocal(d: seq<byte>, e: seq<byte>, n: nat, p: nat, lengths: seq<nat>)
    requires p + Sum(lengths) + |lengths| <= n <= |d| && n <= |e| && d[..n] == e[..n]
    ensures ReadAll(d, p, lengths) == ReadAll(e, p, lengths)
    decreases |lengths|
  {
    if lengths != [] {
      CutLocal(d, e, n, p + lengths[0] + 1, lengths[1..]);
      Within(d, e, n, p, p + lengths[0]);
    }
  }

  lemma Within(d: seq<byte>, e: seq<byte>, n: nat, i: nat, j: nat)
    requires i <= j <= n <= |d| && n <= |e| && d[..n] == e[..n]
    ensures d[i..j] == e[i..j]
  {
    assert d[i..j] == d[..n][i..j] && e[i..j] == e[..n][i..j];
  }

  lemma HeaderLocal(d: seq<byte>, e: seq<byte>)
    requires |d| >= HEADER && |e| >= HEADER && d[..HEADER] == e[..HEADER]
    ensures ReadHeader(d) == ReadHeader(e)
  {
    HeaderWidth();
    FieldsLocal(d, e, WIDTHS);
  }

  lemma {:induction false} FieldsLocal(d: seq<byte>, e: seq<byte>, ws: seq<nat>)
    requires |d| >= Sum(ws) && |e| >= Sum(ws) && d[..Sum(ws)] == e[..Sum(ws)]
    ensures GetFields(d, ws) == GetFields(e, ws)
  {
    if ws != [] {
      var n := Sum(ws);
      Within(d, e, n, 0, ws[0]);
      Within(d, e, n, ws[0], n);
      assert d[ws[0]..][..n - ws[0]] == d[ws[0]..n] && e[ws[0]..][..n - ws[0]] == e[ws[0]..n];
      FieldsLocal(d[ws[0]..], e[ws[0]..], ws[1..]);
    }
  }

  lemma FrontLocal(d: seq<byte>, e: seq<byte>, n: nat)
    requires |d| >= MIN_ENTRY && |e| >= MIN_ENTRY
    requires FrontLength(ReadHeader(d)) <= n <= |d| && n <= |e| && d[..n] == e[..n]
    ensures ReadFront(d) == ReadFront(e)
  {
    Within(d, e, n, 0, HEADER);
    HeaderLocal(d, e);
    FrontIsSum(ReadHeader(d));
    CutLocal(d, e, n, HEADER, Lengths(ReadHeader(d)));
  }

  lemma BodyLocal(f: Front, d: seq<byte>, e: seq<byte>, n: nat)
    requires HEADER <= f.used <= n <= |d| && n <= |e| && d[..n] == e[..n] && n == Max(f.header.entryLength, f.used)
    requires DecodeBody(f, d).Done?
    ensures DecodeBody(f, e) == Done(DecodeBody(f, d).entry, e[n..])
  {
    if f.header.entryLength > f.used {
      Within(d, e, n, f.used, n);
    }
  }

  lemma SameEntry(d: seq<byte>, e: seq<byte>, n: nat)
    requires DecodeEntry(d).Done?
    requires n == Max(ReadHeader(d).entryLength, FrontLength(ReadHeader(d)))
    requires n <= |d| && MIN_ENTRY <= |e| && n <= |e| && d[..n] == e[..n]
    ensures DecodeEntry(e) == Done(DecodeEntry(d).entry, e[n..])
  {
    FrontLocal(d, e, n);
    FrontUsed(ReadHeader(d), d);
    BodyLocal(ReadFront(d).value, d, e, n);
  }

  /**
   * An entry complete in its own bytes means the same whatever follows it: nested entries never read past their
   * parent.
   */
  lemma EntryIsLocal(own: seq<byte>, rest: seq<byte>, tail: seq<byte>, entry: DataType)
    requires DecodeEntry(own + rest) == Done(entry, rest) && |own + tail| >= MIN_ENTRY
    requires FrontLength(ReadHeader(own + rest)) <= |own + rest|
    ensures DecodeEntry(own + tail) == Done(entry, tail)
  {
    var d, e := own + rest, own + tail;
    ConsumesDeclared(d);
    assert d[..|own|] == own && e[..|own|] == own && e[|own|..] == tail;
    SameEntry(d, e, |own|);
  }
}
