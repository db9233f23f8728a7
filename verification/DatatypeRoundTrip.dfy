/** A printer for the datatype table, and the proof that decoding inverts it. */
module DatatypeRoundTrip {

  import opened Basics
  import opened Bytes
  import opened DatatypeTable
  import ArrayLayout

  /** A datatype as the PLC describes it: lengths and counts are derived, not given. */
  datatype Node = Node(info: Header, name: string, dataType: string, comment: string, body: Body)

  datatype Body = Struct(items: seq<Node>) | Array(levels: seq<ArrayLayout.Level>)

  function Length(n: Node): nat
    decreases n
  {
    HEADER + |n.name| + 1 + |n.dataType| + 1 + |n.comment| + 1 + BodyLength(n.body)
  }

  function BodyLength(b: Body): nat
    decreases b
  {
    match b
    case Struct(items) => LengthAll(items)
    case Array(levels) => 8 * |levels|
  }

  function LengthAll(items: seq<Node>): nat
    decreases items
  {
    if items == [] then 0 else Length(items[0]) + LengthAll(items[1..])
  }

  /** The header the PLC sends: the derived fields overwrite whatever info holds. */
  function HeaderOf(n: Node): Header {
    n.info.(
      entryLength := Length(n),
      nameLength := |n.name|,
      typeLength := |n.dataType|,
      commentLength := |n.comment|,
      arrayDim := if n.body.Array? then |n.body.levels| else 0,
      subItems := if n.body.Struct? then |n.body.items| else 0)
  }

  predicate Plain(s: string) {
    IsByteString(s) && forall i | 0 <= i < |s| :: s[i] as int != 0
  }

  ghost predicate WellFormed(n: Node)
    decreases n
  {
    && FieldsFit(ToFields(HeaderOf(n)), WIDTHS)
    && Length(n) >= MIN_ENTRY
    && Plain(n.name) && Plain(n.dataType) && Plain(n.comment)
    && WellFormedBody(n.body)
  }

  ghost predicate WellFormedBody(b: Body)
    decreases b
  {
    match b
    case Struct(items) => AllWellFormed(items)
    case Array(levels) => levels != [] && ArrayLayout.OnWire(levels)
  }

  ghost predicate AllWellFormed(items: seq<Node>)
    decreases items
  {
    items == [] || (WellFormed(items[0]) && AllWellFormed(items[1..]))
  }

  // ---------------------------------------------------------------- printing

  function Terminated(parts: seq<seq<byte>>): seq<byte> {
    if parts == [] then [] else parts[0] + [0] + Terminated(parts[1..])
  }

  function Sizes(parts: seq<seq<byte>>): (ls: seq<nat>)
    ensures |ls| == |parts| && forall i | 0 <= i < |parts| :: ls[i] == |parts[i]|
  {
    seq(|parts|, i requires 0 <= i < |parts| => |parts[i]|)
  }

  function Parts(name: string, dataType: string, comment: string): (ps: seq<seq<byte>>)
    requires IsByteString(name) && IsByteString(dataType) && IsByteString(comment)
    ensures |ps| == 3
  {
    [ToBytes(name), ToBytes(dataType), ToBytes(comment)]
  }

  lemma PartsSize(name: string, dataType: string, comment: string)
    requires IsByteString(name) && IsByteString(dataType) && IsByteString(comment)
    ensures |Terminated(Parts(name, dataType, comment))| == |name| + |dataType| + |comment| + 3
  {
    var ps := Parts(name, dataType, comment);
    var two := ps[1..];
    var one := two[1..];
    assert two == [ToBytes(dataType), ToBytes(comment)] && one == [ToBytes(comment)];
    assert Terminated(two) == two[0] + [0] + Terminated(one);
    assert Terminated(one) == one[0] + [0] + Terminated(one[1..]);
  }

  function PrintHeader(h: Header): (d: seq<byte>)
    ensures |d| == HEADER
  {
    HeaderWidth();
    PutFields(ToFields(h), WIDTHS)
  }

  ghost function Print(n: Node): (d: seq<byte>)
    requires WellFormed(n)
    ensures |d| == Length(n)
    decreases n
  {
    PartsSize(n.name, n.dataType, n.comment);
    PrintHeader(HeaderOf(n)) + Terminated(Parts(n.name, n.dataType, n.comment)) + PrintBody(n.body)
  }

  ghost function PrintBody(b: Body): (d: seq<byte>)
    requires WellFormedBody(b)
    ensures |d| == BodyLength(b)
    decreases b
  {
    match b
    case Struct(items) => PrintAll(items)
    case Array(levels) => PrintLevels(levels)
  }

  ghost function PrintAll(items: seq<Node>): (d: seq<byte>)
    requires AllWellFormed(items)
    ensures |d| == LengthAll(items)
    decreases items
  {
    if items == [] then [] else Print(items[0]) + PrintAll(items[1..])
  }

  function PrintLevels(levels: seq<ArrayLayout.Level>): (d: seq<byte>)
    ensures |d| == 8 * |levels|
  {
    if levels == [] then []
    else PutLE(levels[0].lbound, 4) + PutLE(levels[0].elements, 4) + PrintLevels(levels[1..])
  }

  // ---------------------------------------------------------------- meaning

  ghost function Meaning(n: Node): DataType
    decreases n
  {
    DataType(HeaderOf(n), n.name, Normalize(n.dataType), n.comment,
             MeaningBody(n.body, Normalize(n.dataType), n.info.size))
  }

  ghost function MeaningBody(b: Body, dt: string, size: nat): map<string, DataType>
    decreases b
  {
    match b
    case Struct(items) => MeaningAll(map[], items)
    case Array(levels) => ArrayChildren(levels, dt, size)
  }

  /** Entries by name over what m has, the last one of a name winning. */
  ghost function MeaningAll(m: map<string, DataType>, items: seq<Node>): map<string, DataType>
    decreases items
  {
    if items == [] then m else MeaningAll(m[items[0].name := Meaning(items[0])], items[1..])
  }

  // ---------------------------------------------------------------- round trip

  lemma HeaderRoundTrip(h: Header, more: seq<byte>)
    requires FieldsFit(ToFields(h), WIDTHS)
    ensures ReadHeader(PrintHeader(h) + more) == h
  {
    HeaderWidth();
    FieldsRoundTrip(ToFields(h), WIDTHS, more);
  }

  lemma CutAtTerminator(s: string)
    requires Plain(s)
    ensures CString(ToBytes(s)) == s
  {
    var b := ToBytes(s);
    assert forall i | 0 <= i < |b| :: b[i] == s[i] as int;
    assert b[..|CString(b)|] == b;
  }

  lemma {:induction false} CutRoundTrip(front: seq<byte>, parts: seq<seq<byte>>, more: seq<byte>)
    ensures ReadAll(front + Terminated(parts) + more, |front|, Sizes(parts)) ==
      Some(Cut(parts, |front| + |Terminated(parts)|))
    decreases |parts|
  {
    var d := front + Terminated(parts) + more;
    if parts != [] {
      CutRoundTrip(front + parts[0] + [0], parts[1..], more);
      PartAt(front, parts[0], Terminated(parts[1..]), more);
      assert Sizes(parts)[1..] == Sizes(parts[1..]);
      CutCons(d, |front|, parts[0], Sizes(parts), Cut(parts[1..], |front| + |Terminated(parts)|));
      assert [parts[0]] + parts[1..] == parts;
    } else {
      assert Sizes(parts) == [];
    }
  }

  lemma PartAt(front: seq<byte>, part: seq<byte>, tail: seq<byte>, more: seq<byte>)
    ensures
      var d := front + (part + [0] + tail) + more;
      d == front + part + [0] + tail + more && d[|front|..|front| + |part|] == part
  {
  }

  lemma CutCons(d: seq<byte>, p: nat, part: seq<byte>, lengths: seq<nat>, tail: Cut)
    requires p + |part| < |d| && d[p..p + |part|] == part && lengths != [] && lengths[0] == |part|
    requires ReadAll(d, p + |part| + 1, lengths[1..]) == Some(tail)
    ensures ReadAll(d, p, lengths) == Some(Cut([part] + tail.parts, tail.next))
  {
  }

  lemma {:induction false} LevelsRoundTrip(levels: seq<ArrayLayout.Level>)
    requires ArrayLayout.OnWire(levels)
    ensures ReadLevels(PrintLevels(levels), |levels|) == levels
  {
    if levels != [] {
      Widths();
      var l := levels[0];
      var a, b, more := PutLE(l.lbound, 4), PutLE(l.elements, 4), PrintLevels(levels[1..]);
      GetPut(l.lbound, 4);
      GetPut(l.elements, 4);
      LevelsRoundTrip(levels[1..]);
      var d := a + b + more;
      assert d[..4] == a && d[4..8] == b && d[8..] == more;
    }
  }

  lemma PartsLengths(h: Header, name: string, dt: string, comment: string)
    requires IsByteString(name) && IsByteString(dt) && IsByteString(comment)
    requires |name| == h.nameLength && |dt| == h.typeLength && |comment| == h.commentLength
    ensures Sizes(Parts(name, dt, comment)) == Lengths(h)
  {
  }

  lemma FrontRoundTrip(hd: seq<byte>, h: Header, ps: seq<seq<byte>>, f: Front, more: seq<byte>)
    requires |hd| == HEADER && |ps| == 3 && Sizes(ps) == Lengths(h)
    requires f == Interpret(h, Cut(ps, HEADER + |Terminated(ps)|))
    ensures FrontWith(h, hd + Terminated(ps) + more) == Some(f)
  {
    CutRoundTrip(hd, ps, more);
  }

  lemma InterpretPlain(h: Header, name: string, dt: string, comment: string, used: nat)
    requires Plain(name) && Plain(dt) && Plain(comment)
    ensures Interpret(h, Cut(Parts(name, dt, comment), used)) == Front(h, name, Normalize(dt), comment, used)
  {
    CutAtTerminator(name);
    CutAtTerminator(dt);
    CutAtTerminator(comment);
  }

  /** The body's own bytes decode to the body's meaning. */
  lemma {:induction false} BodyRoundTrip(b: Body, f: Front)
    requires WellFormedBody(b)
    requires f.header.arrayDim == (if b.Array? then |b.levels| else 0)
    requires f.header.subItems == (if b.Struct? then |b.items| else 0)
    ensures DecodeInner(f, PrintBody(b)) == Some(MeaningBody(b, f.dataType, f.header.size))
    decreases b
  {
    match b
    case Struct(items) =>
      ItemsRoundTrip(map[], items);
    case Array(levels) =>
      LevelsRoundTrip(levels);
  }

  /** Decoding a printed entry gives back its meaning and leaves what follows untouched. */
  lemma {:induction false} EntryRoundTrip(n: Node, rest: seq<byte>)
    requires WellFormed(n)
    ensures DecodeEntry(Print(n) + rest) == Done(Meaning(n), rest)
    decreases n
  {
    var h := HeaderOf(n);
    BodyRoundTrip(n.body, Front(h, n.name, Normalize(n.dataType), n.comment, FrontLength(h)));
    EntryFromBody(n, rest);
  }

  lemma EntryFromBody(n: Node, rest: seq<byte>)
    requires WellFormed(n)
    requires
      var f := Front(HeaderOf(n), n.name, Normalize(n.dataType), n.comment, FrontLength(HeaderOf(n)));
      DecodeInner(f, PrintBody(n.body)) == Some(MeaningBody(n.body, Normalize(n.dataType), n.info.size))
    ensures DecodeEntry(Print(n) + rest) == Done(Meaning(n), rest)
  {
    var f := Front(HeaderOf(n), n.name, Normalize(n.dataType), n.comment, FrontLength(HeaderOf(n)));
    NoBodyNoChildren(n);
    PrintedParts(n, f, MeaningBody(n.body, f.dataType, n.info.size), rest);
    PrintSplit(n, rest);
    EntryWhole(n, f, rest);
  }

  lemma PrintedParts(n: Node, f: Front, children: map<string, DataType>, rest: seq<byte>)
    requires WellFormed(n)
    requires f == Front(HeaderOf(n), n.name, Normalize(n.dataType), n.comment, FrontLength(HeaderOf(n)))
    requires DecodeInner(f, PrintBody(n.body)) == Some(children) && (PrintBody(n.body) == [] ==> children == map[])
    ensures
      var d := PrintHeader(f.header) + Terminated(Parts(n.name, n.dataType, n.comment)) + (PrintBody(n.body) + rest);
      && FrontWith(f.header, d) == Some(f)
      && DecodeBody(f, d) == Done(DataType(f.header, f.name, f.dataType, f.comment, children), rest)
  {
    var parts := Parts(n.name, n.dataType, n.comment);
    PlainFront(f.header, n.name, n.dataType, n.comment);
    FrontThenBody(PrintHeader(f.header), f.header, parts, f, PrintBody(n.body), rest, children);
  }

  lemma EntryWhole(n: Node, f: Front, rest: seq<byte>)
    requires WellFormed(n) && FrontWith(HeaderOf(n), Print(n) + rest) == Some(f)
    requires DecodeBody(f, Print(n) + rest) == Done(Meaning(n), rest)
    ensures DecodeEntry(Print(n) + rest) == Done(Meaning(n), rest)
  {
    EntryHeader(n, rest);
    EntryFrom(Print(n) + rest, HeaderOf(n), f);
  }

  lemma EntryHeader(n: Node, rest: seq<byte>)
    requires WellFormed(n)
    ensures ReadHeader(Print(n) + rest) == HeaderOf(n)
  {
    var more := AfterHeader(n, rest);
    HeaderRoundTrip(HeaderOf(n), more);
  }

  lemma AfterHeader(n: Node, rest: seq<byte>) returns (more: seq<byte>)
    requires WellFormed(n)
    ensures Print(n) + rest == PrintHeader(HeaderOf(n)) + more
  {
    var strings, inner := Terminated(Parts(n.name, n.dataType, n.comment)), PrintBody(n.body);
    more := strings + inner + rest;
    Regroup(PrintHeader(HeaderOf(n)), strings, inner, rest);
  }

  lemma Regroup(a: seq<byte>, b: seq<byte>, c: seq<byte>, d: seq<byte>)
    ensures a + b + c + d == a + (b + c + d)
  {
  }

  lemma PlainFront(h: Header, name: string, dt: string, comment: string)
    requires Plain(name) && Plain(dt) && Plain(comment)
    requires |name| == h.nameLength && |dt| == h.typeLength && |comment| == h.commentLength
    ensures
      var ps := Parts(name, dt, comment);
      && Sizes(ps) == Lengths(h) && HEADER + |Terminated(ps)| == FrontLength(h)
      && Interpret(h, Cut(ps, FrontLength(h))) == Front(h, name, Normalize(dt), comment, FrontLength(h))
  {
    PartsSize(name, dt, comment);
    PartsLengths(h, name, dt, comment);
    InterpretPlain(h, name, dt, comment, FrontLength(h));
  }

  lemma PrintSplit(n: Node, rest: seq<byte>)
    requires WellFormed(n)
    ensures Print(n) + rest ==
      PrintHeader(HeaderOf(n)) + Terminated(Parts(n.name, n.dataType, n.comment)) + (PrintBody(n.body) + rest)
  {
  }

  lemma FrontThenBody(hd: seq<byte>, h: Header, ps: seq<seq<byte>>, f: Front, inner: seq<byte>, rest: seq<byte>,
                      children: map<string, DataType>)
    requires |hd| == HEADER && |ps| == 3 && Sizes(ps) == Lengths(h)
    requires f == Interpret(h, Cut(ps, HEADER + |Terminated(ps)|)) && h.entryLength == f.used + |inner|
    requires DecodeInner(f, inner) == Some(children) && (inner == [] ==> children == map[])
    ensures FrontWith(h, hd + Terminated(ps) + (inner + rest)) == Some(f)
    ensures DecodeBody(f, hd + Terminated(ps) + (inner + rest)) ==
      Done(DataType(h, f.name, f.dataType, f.comment, children), rest)
  {
    FrontRoundTrip(hd, h, ps, f, inner + rest);
    BodyAfterFront(f, hd + Terminated(ps), inner, rest, children);
  }

  lemma EntryFrom(d: seq<byte>, h: Header, f: Front)
    requires |d| >= MIN_ENTRY && ReadHeader(d) == h && FrontWith(h, d) == Some(f)
    ensures DecodeEntry(d) == DecodeBody(f, d)
  {
  }

  lemma BodyAfterFront(f: Front, front: seq<byte>, inner: seq<byte>, rest: seq<byte>, children: map<string, DataType>)
    requires f.used == |front| >= HEADER && f.header.entryLength == |front| + |inner|
    requires DecodeInner(f, inner) == Some(children) && (inner == [] ==> children == map[])
    ensures DecodeBody(f, front + (inner + rest)) ==
      Done(DataType(f.header, f.name, f.dataType, f.comment, children), rest)
  {
    var d := front + (inner + rest);
    assert d[|front|..|front| + |inner|] == inner;
    assert d[|front| + |inner|..] == rest;
  }

  lemma NoBodyNoChildren(n: Node)
    requires WellFormed(n)
    ensures PrintBody(n.body) == [] ==> MeaningBody(n.body, Normalize(n.dataType), n.info.size) == map[]
  {
    if PrintBody(n.body) == [] {
      EmptyBody(n.body);
    }
  }

  lemma EmptyBody(b: Body)
    requires WellFormedBody(b) && BodyLength(b) == 0
    ensures b == Struct([])
  {
    if b.Struct? && b.items != [] {
      assert Length(b.items[0]) >= HEADER;
    }
  }

  /** The printed members of a struct decode to their meanings. */
  lemma {:induction false} ItemsRoundTrip(m: map<string, DataType>, items: seq<Node>)
    requires AllWellFormed(items)
    ensures DecodeItems(m, PrintAll(items), |items|) == Some(MeaningAll(m, items))
    decreases items
  {
    if items != [] {
      var e, d := Meaning(items[0]), PrintAll(items);
      EntryRoundTrip(items[0], PrintAll(items[1..]));
      ItemsRoundTrip(m[e.name := e], items[1..]);
      ItemsStep(m, d, |items|, e, PrintAll(items[1..]));
    }
  }

  /** A printed table decodes to exactly its entries. */
  lemma {:induction false} TableRoundTrip(m: map<string, DataType>, items: seq<Node>)
    requires AllWellFormed(items)
    ensures DecodeTable(m, PrintAll(items)) == Some(MeaningAll(m, items))
    decreases |items|
  {
    if items != [] {
      var e, d := Meaning(items[0]), PrintAll(items);
      EntryRoundTrip(items[0], PrintAll(items[1..]));
      TableRoundTrip(m[e.name := e], items[1..]);
      TableStep(m, d, e, PrintAll(items[1..]));
    }
  }

  predicate UniqueNames(items: seq<Node>) {
    forall i, j | 0 <= i < j < |items| :: items[i].name != items[j].name
  }

  lemma {:induction false} MeaningOfUnique(m: map<string, DataType>, items: seq<Node>)
    requires UniqueNames(items) && forall i | 0 <= i < |items| :: items[i].name !in m
    ensures forall i | 0 <= i < |items| ::
      items[i].name in MeaningAll(m, items) && MeaningAll(m, items)[items[i].name] == Meaning(items[i])
    ensures forall n | n in m :: n in MeaningAll(m, items) && MeaningAll(m, items)[n] == m[n]
    ensures forall n | n in MeaningAll(m, items) :: n in m || exists i | 0 <= i < |items| :: items[i].name == n
    decreases |items|
  {
    if items != [] {
      var more := m[items[0].name := Meaning(items[0])];
      MeaningOfUnique(more, items[1..]);
      forall i | 0 <= i < |items|
        ensures items[i].name in MeaningAll(m, items) && MeaningAll(m, items)[items[i].name] == Meaning(items[i])
      {
        if i == 0 {
          assert items[0].name in more;
        } else {
          assert items[1..][i - 1] == items[i];
        }
      }
    }
  }

  /** A printed table of distinct names decodes to each entry under its own name, and to nothing else. */
  lemma UniqueTableRoundTrip(items: seq<Node>) returns (table: map<string, DataType>)
    requires AllWellFormed(items) && UniqueNames(items)
    ensures DecodeTable(map[], PrintAll(items)) == Some(table)
    ensures forall i | 0 <= i < |items| :: items[i].name in table && table[items[i].name] == Meaning(items[i])
    ensures forall n | n in table :: exists i | 0 <= i < |items| :: items[i].name == n
  {
    TableRoundTrip(map[], items);
    MeaningOfUnique(map[], items);
    table := MeaningAll(map[], items);
  }

  // ---------------------------------------------------------------- arrays and names, field by field

  /** A string type of any length is the bare kind; every other type keeps its name. */
  lemma StringTypesCollapse(dt: string)
    ensures Normalize("STRING" + dt) == "STRING" && Normalize("WSTRING" + dt) == "WSTRING"
    ensures !("STRING" <= dt) && !("WSTRING" <= dt) ==> Normalize(dt) == dt
  {
    assert ("STRING" + dt)[..6] == "STRING" && ("WSTRING" + dt)[..7] == "WSTRING";
    assert ("STRING" + dt)[0] == 'S';
  }

  /** The decoded child of an array element: its place, its width, its name and the array's element type. */
  predicate IsElement(child: DataType, name: string, dt: string, offset: nat, width: nat) {
    && child.name == name && child.dataType == dt && child.comment == "" && child.children == map[]
    && child.header.offs == offset && child.header.size == width
  }

  /** The names of the elements of an array. */
  ghost predicate NamesElement(levels: seq<ArrayLayout.Level>, name: string) {
    exists idx :: ArrayLayout.InBox(levels, idx) && name == ArrayLayout.ElementName(idx)
  }

  /** The element of this index tuple is among the children, where its row-major rank puts it. */
  ghost predicate HoldsElement(children: map<string, DataType>, levels: seq<ArrayLayout.Level>, dt: string, size: nat,
                               idx: seq<int>)
    requires ArrayLayout.InBox(levels, idx)
  {
    var e, rank := ArrayLayout.ElementSize(levels, size), ArrayLayout.Rank(levels, idx);
    var name := ArrayLayout.ElementName(idx);
    name in children && rank >= 0 && IsElement(children[name], name, dt, rank * e, e)
  }

  lemma ArrayChild(levels: seq<ArrayLayout.Level>, dt: string, size: nat, idx: seq<int>)
    requires ArrayLayout.Accepts(levels) && ArrayLayout.InBox(levels, idx)
    ensures HoldsElement(ArrayChildren(levels, dt, size), levels, dt, size, idx)
  {
    ArrayLayout.ElementAtRank(levels, size, idx);
  }

  lemma ArrayChildNames(levels: seq<ArrayLayout.Level>, dt: string, size: nat, name: string)
    ensures ArrayLayout.Accepts(levels) ==> (name in ArrayChildren(levels, dt, size) <==> NamesElement(levels, name))
    ensures !ArrayLayout.Accepts(levels) ==> ArrayChildren(levels, dt, size) == map[]
  {
    if ArrayLayout.Accepts(levels) {
      if name in ArrayChildren(levels, dt, size) {
        var idx := ArrayLayout.NothingElse(levels, size, name);
      }
      if idx :| ArrayLayout.InBox(levels, idx) && name == ArrayLayout.ElementName(idx) {
        ArrayChild(levels, dt, size, idx);
      }
    }
  }

  /**
   * Decoding the printed entry of an array: the child of each index tuple lies at the element size times its
   * row-major rank, is one element wide, and carries its own name and the array's type; there are no other children,
   * and none at all when the dimensions are refused.
   */
  lemma ArrayRoundTrip(n: Node, rest: seq<byte>) returns (children: map<string, DataType>)
    requires WellFormed(n) && n.body.Array?
    ensures DecodeEntry(Print(n) + rest) ==
      Done(DataType(HeaderOf(n), n.name, Normalize(n.dataType), n.comment, children), rest)
    ensures forall idx | ArrayLayout.Accepts(n.body.levels) && ArrayLayout.InBox(n.body.levels, idx) ::
      HoldsElement(children, n.body.levels, Normalize(n.dataType), n.info.size, idx)
    ensures forall name :: name in children <==> ArrayLayout.Accepts(n.body.levels) && NamesElement(n.body.levels, name)
  {
    EntryRoundTrip(n, rest);
    var levels, dt := n.body.levels, Normalize(n.dataType);
    children := ArrayChildren(levels, dt, n.info.size);
    forall idx | ArrayLayout.Accepts(levels) && ArrayLayout.InBox(levels, idx)
      ensures HoldsElement(children, levels, dt, n.info.size, idx)
    {
      ArrayChild(levels, dt, n.info.size, idx);
    }
    forall name ensures name in children <==> ArrayLayout.Accepts(levels) && NamesElement(levels, name) {
      ArrayChildNames(levels, dt, n.info.size, name);
    }
  }
}
