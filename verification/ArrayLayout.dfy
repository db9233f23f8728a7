/** Array elements as flat, named children (makeArrayChildren): the mixed-radix odometer and its layout. */
module ArrayLayout {

  import opened Bytes
  import opened Decimal

  const MAX_ELEMENTS: int := 1_000_000
  const MAX_INT32: int := 0x7FFF_FFFF

  /** One dimension as it arrives on the wire: both fields are unsigned 32-bit. */
  datatype Level = Level(lbound: nat, elements: nat)

  predicate OnWire(levels: seq<Level>) {
    forall d | 0 <= d < |levels| :: levels[d].lbound < U32 && levels[d].elements < U32
  }

  /** The lower bound is a signed DINT. */
  function Lower(l: Level): int {
    if l.lbound <= MAX_INT32 then l.lbound else l.lbound - U32
  }

  /** It is the 32-bit two's complement of what arrives. */
  lemma LowerIsSigned(l: Level)
    requires l.lbound < U32
    ensures -0x8000_0000 <= Lower(l) < 0x8000_0000 && (Lower(l) - l.lbound) % 0x1_0000_0000 == 0
  {
  }

  function Total(levels: seq<Level>): nat {
    if levels == [] then 1 else Total(levels[..|levels| - 1]) * levels[|levels| - 1].elements
  }

  predicate GoodLevel(l: Level) {
    l.elements > 0 && Lower(l) + l.elements - 1 <= MAX_INT32
  }

  /** The dimension lists that get children at all. */
  predicate Accepts(levels: seq<Level>) {
    && |levels| >= 1
    && (forall d | 0 <= d < |levels| :: GoodLevel(levels[d]))
    && Total(levels) <= MAX_ELEMENTS
  }

  // ---------------------------------------------------------------- index tuples

  /** idx lies within the declared bounds of every dimension. */
  predicate InBox(levels: seq<Level>, idx: seq<int>) {
    && |idx| == |levels|
    && forall d | 0 <= d < |levels| :: Lower(levels[d]) <= idx[d] < Lower(levels[d]) + levels[d].elements
  }

  /** The largest index of every dimension. */
  function UpperBounds(levels: seq<Level>): (ub: seq<int>)
    ensures |ub| == |levels|
    ensures forall d | 0 <= d < |levels| :: ub[d] == Lower(levels[d]) + levels[d].elements - 1
  {
    seq(|levels|, d requires 0 <= d < |levels| => Lower(levels[d]) + levels[d].elements - 1)
  }

  /** Every index of this tuple is a signed 32-bit integer. */
  predicate AllInt32(idx: seq<int>) {
    forall d | 0 <= d < |idx| :: -0x8000_0000 <= idx[d] <= 0x7FFF_FFFF
  }

  /**
   * An array gets children exactly when it has dimensions, none of them empty, every index is a signed 32-bit
   * integer, and there are at most a million elements.
   */
  lemma AcceptsExactly(levels: seq<Level>)
    requires OnWire(levels)
    ensures Accepts(levels) <==>
      && levels != [] && (forall d | 0 <= d < |levels| :: levels[d].elements > 0) && Total(levels) <= 1_000_000
      && forall idx | InBox(levels, idx) :: AllInt32(idx)
  {
    if Accepts(levels) {
      forall idx, d | InBox(levels, idx) && 0 <= d < |idx| ensures -0x8000_0000 <= idx[d] <= 0x7FFF_FFFF {
        LowerIsSigned(levels[d]);
        assert GoodLevel(levels[d]);
      }
    } else if levels != [] && (forall d | 0 <= d < |levels| :: levels[d].elements > 0) && Total(levels) <= 1_000_000 {
      var d :| 0 <= d < |levels| && !GoodLevel(levels[d]);
      var ub := UpperBounds(levels);
      assert InBox(levels, ub) && ub[d] > 0x7FFF_FFFF;
    }
  }

  /** Row-major rank: the last index runs fastest. */
  function Rank(levels: seq<Level>, idx: seq<int>): int
    requires |idx| == |levels|
  {
    if levels == [] then 0
    else
      var k := |levels| - 1;
      Rank(levels[..k], idx[..k]) * levels[k].elements + (idx[k] - Lower(levels[k]))
  }

  function Unrank(levels: seq<Level>, n: nat): (idx: seq<int>)
    requires forall d | 0 <= d < |levels| :: levels[d].elements > 0
    ensures |idx| == |levels|
  {
    if levels == [] then []
    else
      var k := |levels| - 1;
      Unrank(levels[..k], n / levels[k].elements) + [Lower(levels[k]) + n % levels[k].elements]
  }

  lemma MulLe(a: int, b: int, m: int)
    requires a <= b && 0 <= m
    ensures a * m <= b * m
  {
  }

  lemma MulSucc(q: int, m: int)
    ensures (q + 1) * m == q * m + m
  {
  }

  /** Quotient and remainder are unique. */
  lemma DivMod(q: int, r: int, m: int)
    requires 0 <= r < m
    ensures (q * m + r) / m == q && (q * m + r) % m == r
  {
    var x := q * m + r;
    var p := x / m;
    assert x == p * m + x % m;
    MulSucc(q, m);
    MulSucc(p, m);
    if p > q {
      MulLe(q + 1, p, m);
    } else if p < q {
      MulLe(p + 1, q, m);
    }
  }

  lemma Divide(n: nat, m: nat, t: nat) returns (q: nat, r: nat)
    requires m > 0 && n < t * m
    ensures n == q * m + r && r < m && q < t
  {
    q, r := n / m, n % m;
    assert n == q * m + r;
    if q >= t {
      MulLe(t, q, m);
    }
  }

  lemma {:induction false} UnrankInBox(levels: seq<Level>, n: nat)
    requires forall d | 0 <= d < |levels| :: levels[d].elements > 0
    requires n < Total(levels)
    ensures InBox(levels, Unrank(levels, n)) && Rank(levels, Unrank(levels, n)) == n
  {
    if levels != [] {
      var k := |levels| - 1;
      var m := levels[k].elements;
      var q, r := Divide(n, m, Total(levels[..k]));
      UnrankInBox(levels[..k], q);
      UnrankStep(levels, n, q, r, Unrank(levels[..k], q));
    }
  }

  lemma UnrankSnoc(levels: seq<Level>, q: nat, r: nat)
    requires levels != [] && forall d | 0 <= d < |levels| :: levels[d].elements > 0
    requires r < levels[|levels| - 1].elements
    ensures
      var l := levels[|levels| - 1];
      Unrank(levels, q * l.elements + r) == Unrank(levels[..|levels| - 1], q) + [Lower(l) + r]
  {
    DivMod(q, r, levels[|levels| - 1].elements);
  }

  lemma UnrankStep(levels: seq<Level>, n: nat, q: nat, r: nat, front: seq<int>)
    requires levels != [] && forall d | 0 <= d < |levels| :: levels[d].elements > 0
    requires n == q * levels[|levels| - 1].elements + r
    requires r < levels[|levels| - 1].elements && front == Unrank(levels[..|levels| - 1], q)
    requires InBox(levels[..|levels| - 1], front) && Rank(levels[..|levels| - 1], front) == q
    ensures InBox(levels, Unrank(levels, n)) && Rank(levels, Unrank(levels, n)) == n
  {
    UnrankSnoc(levels, q, r);
    BoxSnoc(levels, front, Lower(levels[|levels| - 1]) + r);
  }

  lemma BoxSnoc(levels: seq<Level>, front: seq<int>, x: int)
    requires levels != [] && InBox(levels[..|levels| - 1], front)
    requires var l := levels[|levels| - 1]; Lower(l) <= x < Lower(l) + l.elements
    ensures InBox(levels, front + [x])
    ensures
      var l := levels[|levels| - 1];
      Rank(levels, front + [x]) == Rank(levels[..|levels| - 1], front) * l.elements + (x - Lower(l))
  {
    var k := |levels| - 1;
    assert (front + [x])[..k] == front;
    forall d | 0 <= d < k ensures Lower(levels[d]) <= front[d] < Lower(levels[d]) + levels[d].elements {
      assert levels[..k][d] == levels[d];
    }
  }

  lemma {:induction false} RankInRange(levels: seq<Level>, idx: seq<int>)
    requires InBox(levels, idx)
    ensures 0 <= Rank(levels, idx) < Total(levels) && Unrank(levels, Rank(levels, idx)) == idx
  {
    if levels != [] {
      var k := |levels| - 1;
      var m := levels[k].elements;
      RankInRange(levels[..k], idx[..k]);
      RankStep(levels, idx, Rank(levels[..k], idx[..k]), Total(levels[..k]));
    }
  }

  lemma RankStep(levels: seq<Level>, idx: seq<int>, q: nat, t: nat)
    requires levels != [] && InBox(levels, idx)
    requires q == Rank(levels[..|levels| - 1], idx[..|levels| - 1]) < t == Total(levels[..|levels| - 1])
    requires Unrank(levels[..|levels| - 1], q) == idx[..|levels| - 1]
    ensures 0 <= Rank(levels, idx) < Total(levels) && Unrank(levels, Rank(levels, idx)) == idx
  {
    var k := |levels| - 1;
    var r := idx[k] - Lower(levels[k]);
    RankSnoc(levels, idx);
    BelowProduct(q, r, levels[k].elements, t);
    UnrankSnoc(levels, q, r);
    assert idx[..k] + [idx[k]] == idx;
  }

  lemma RankSnoc(levels: seq<Level>, idx: seq<int>)
    requires levels != [] && InBox(levels, idx)
    ensures
      var k := |levels| - 1;
      && InBox(levels[..k], idx[..k]) && Total(levels) == Total(levels[..k]) * levels[k].elements
      && Rank(levels, idx) == Rank(levels[..k], idx[..k]) * levels[k].elements + (idx[k] - Lower(levels[k]))
  {
  }

  lemma BelowProduct(q: nat, r: nat, m: nat, t: nat)
    requires q < t && r < m
    ensures 0 <= q * m + r < t * m
  {
    MulLe(q + 1, t, m);
    MulSucc(q, m);
  }

  // ---------------------------------------------------------------- the odometer

  function LowerBounds(levels: seq<Level>): (lb: seq<int>)
    ensures |lb| == |levels| && forall d | 0 <= d < |levels| :: lb[d] == Lower(levels[d])
  {
    seq(|levels|, d requires 0 <= d < |levels| => Lower(levels[d]))
  }

  /** Add one to the last index, carrying to the left. */
  function Advance(levels: seq<Level>, idx: seq<int>): (r: seq<int>)
    requires |idx| == |levels|
    ensures |r| == |idx|
  {
    if levels == [] then []
    else
      var k := |levels| - 1;
      if idx[k] + 1 < Lower(levels[k]) + levels[k].elements then idx[..k] + [idx[k] + 1]
      else Advance(levels[..k], idx[..k]) + [Lower(levels[k])]
  }

  lemma {:induction false} AdvanceUnrank(levels: seq<Level>, n: nat)
    requires forall d | 0 <= d < |levels| :: levels[d].elements > 0
    requires n + 1 < Total(levels)
    ensures Advance(levels, Unrank(levels, n)) == Unrank(levels, n + 1)
  {
    var k := |levels| - 1;
    var m, t := levels[k].elements, Total(levels[..k]);
    var q, r := Divide(n, m, t);
    if r + 1 < m {
      AdvanceLast(levels, n, q, r);
    } else {
      MulSucc(q, m);
      NextBelow(q, m, t);
      AdvanceUnrank(levels[..k], q);
      AdvanceCarry(levels, q, r);
    }
  }

  lemma AdvanceLast(levels: seq<Level>, n: nat, q: nat, r: nat)
    requires levels != [] && forall d | 0 <= d < |levels| :: levels[d].elements > 0
    requires n == q * levels[|levels| - 1].elements + r && r + 1 < levels[|levels| - 1].elements
    ensures Advance(levels, Unrank(levels, n)) == Unrank(levels, n + 1)
  {
    var k := |levels| - 1;
    UnrankSnoc(levels, q, r);
    UnrankSnoc(levels, q, r + 1);
    AdvanceSnoc(levels, Unrank(levels[..k], q), Lower(levels[k]) + r);
  }

  lemma AdvanceCarry(levels: seq<Level>, q: nat, r: nat)
    requires levels != [] && forall d | 0 <= d < |levels| :: levels[d].elements > 0
    requires r + 1 == levels[|levels| - 1].elements
    requires Advance(levels[..|levels| - 1], Unrank(levels[..|levels| - 1], q)) == Unrank(levels[..|levels| - 1], q + 1)
    ensures
      var n := q * levels[|levels| - 1].elements + r;
      Advance(levels, Unrank(levels, n)) == Unrank(levels, n + 1)
  {
    var k := |levels| - 1;
    UnrankSnoc(levels, q, r);
    UnrankSnoc(levels, q + 1, 0);
    MulSucc(q, levels[k].elements);
    AdvanceSnoc(levels, Unrank(levels[..k], q), Lower(levels[k]) + r);
  }

  lemma NextBelow(q: nat, m: nat, t: nat)
    requires (q + 1) * m < t * m
    ensures q + 1 < t
  {
    if q + 1 >= t {
      MulLe(t, q + 1, m);
    }
  }

  lemma AdvanceSnoc(levels: seq<Level>, front: seq<int>, x: int)
    requires levels != [] && |front| == |levels| - 1
    ensures
      var l := levels[|levels| - 1];
      Advance(levels, front + [x]) ==
        if x + 1 < Lower(l) + l.elements then front + [x + 1] else Advance(levels[..|levels| - 1], front) + [Lower(l)]
  {
    assert (front + [x])[..|front|] == front && (front + [x])[|front|] == x;
  }

  lemma {:induction false} UnrankZero(levels: seq<Level>)
    requires forall d | 0 <= d < |levels| :: levels[d].elements > 0
    ensures Unrank(levels, 0) == LowerBounds(levels)
  {
    if levels != [] {
      var k := |levels| - 1;
      UnrankZero(levels[..k]);
    }
  }

  /** The carry loop, in place. */
  method AdvanceInPlace(levels: seq<Level>, idx: array<int>)
    requires idx.Length == |levels|
    modifies idx
    ensures idx[..] == Advance(levels, old(idx[..]))
  {
    ghost var was := idx[..];
    var d := idx.Length;
    assert levels[..d] == levels && was[..d] == was && idx[d..] == [];
    while d > 0
      invariant 0 <= d <= idx.Length && Carried(levels, was, d, idx[..])
    {
      ghost var before := idx[..];
      assert before[d - 1] == before[..d][d - 1] == was[..d][d - 1];
      idx[d - 1] := idx[d - 1] + 1;
      if idx[d - 1] < Lower(levels[d - 1]) + levels[d - 1].elements {
        CarryEnds(levels, was, d, before);
        return;
      }
      idx[d - 1] := Lower(levels[d - 1]);
      CarryGoesOn(levels, was, d, before, idx[..]);
      d := d - 1;
    }
    assert idx[0..] == idx[..];
  }

  /** The carry has gone through every index from d on. */
  ghost predicate Carried(levels: seq<Level>, was: seq<int>, d: nat, now: seq<int>) {
    && d <= |levels| == |was| == |now| && now[..d] == was[..d]
    && Advance(levels, was) == Advance(levels[..d], was[..d]) + now[d..]
  }

  lemma CarryEnds(levels: seq<Level>, was: seq<int>, d: nat, now: seq<int>)
    requires 0 < d && Carried(levels, was, d, now)
    requires was[d - 1] + 1 < Lower(levels[d - 1]) + levels[d - 1].elements
    ensures now[d - 1 := was[d - 1] + 1] == Advance(levels, was)
  {
    CarryStep(levels, was, d);
    SetAt(now, d - 1, was[d - 1] + 1);
    assert now[..d - 1] == now[..d][..d - 1] == was[..d - 1];
  }

  lemma CarryGoesOn(levels: seq<Level>, was: seq<int>, d: nat, now: seq<int>, next: seq<int>)
    requires 0 < d && Carried(levels, was, d, now)
    requires was[d - 1] + 1 >= Lower(levels[d - 1]) + levels[d - 1].elements
    requires next == now[d - 1 := Lower(levels[d - 1])]
    ensures Carried(levels, was, d - 1, next)
  {
    CarryStep(levels, was, d);
    SetAt(now, d - 1, Lower(levels[d - 1]));
    assert now[..d - 1] == now[..d][..d - 1] == was[..d - 1];
    var front := Advance(levels[..d - 1], was[..d - 1]);
    assert front + [Lower(levels[d - 1])] + now[d..] == front + ([Lower(levels[d - 1])] + now[d..]);
  }

  lemma SetAt(s: seq<int>, i: nat, x: int)
    requires i < |s|
    ensures s[i := x] == s[..i] + [x] + s[i + 1..]
    ensures s[i := x][..i] == s[..i] && s[i := x][i..] == [x] + s[i + 1..]
  {
  }

  lemma CarryStep(levels: seq<Level>, was: seq<int>, d: nat)
    requires 0 < d <= |levels| == |was|
    ensures
      var l := levels[d - 1];
      Advance(levels[..d], was[..d]) ==
        if was[d - 1] + 1 < Lower(l) + l.elements then was[..d - 1] + [was[d - 1] + 1]
        else Advance(levels[..d - 1], was[..d - 1]) + [Lower(l)]
  {
    AdvanceSnoc(levels[..d], was[..d - 1], was[d - 1]);
    assert was[..d] == was[..d - 1] + [was[d - 1]];
    assert levels[..d][..d - 1] == levels[..d - 1];
  }

  // ---------------------------------------------------------------- element names

  predicate CommaFree(s: string) {
    ',' !in s
  }

  /** strings.Join(parts, ","). */
  function Join(parts: seq<string>): string {
    if parts == [] then ""
    else if |parts| == 1 then parts[0]
    else parts[0] + "," + Join(parts[1..])
  }

  function Printed(idx: seq<int>): (parts: seq<string>)
    ensures |parts| == |idx| && forall d | 0 <= d < |idx| :: parts[d] == FormatInt(idx[d])
  {
    seq(|idx|, d requires 0 <= d < |idx| => FormatInt(idx[d]))
  }

  function ElementName(idx: seq<int>): string {
    "[" + Join(Printed(idx)) + "]"
  }

  lemma {:induction false} JoinSnoc(parts: seq<string>, last: string)
    requires parts != []
    ensures Join(parts + [last]) == Join(parts) + "," + last
  {
    if |parts| == 1 {
      assert (parts + [last])[1..] == [last];
    } else {
      JoinSnoc(parts[1..], last);
      assert (parts + [last])[1..] == parts[1..] + [last];
    }
  }

  /** An element is named by its indices in decimal, separated by commas, in brackets. */
  lemma ElementNameForm(idx: seq<int>, i: int)
    ensures ElementName([i]) == "[" + FormatInt(i) + "]"
    ensures idx != [] ==>
      ElementName(idx + [i]) == ElementName(idx)[..|ElementName(idx)| - 1] + "," + FormatInt(i) + "]"
  {
    assert Printed([i]) == [FormatInt(i)];
    if idx != [] {
      assert Printed(idx + [i]) == Printed(idx) + [FormatInt(i)];
      JoinSnoc(Printed(idx), FormatInt(i));
      Rebracket(Join(Printed(idx)), FormatInt(i));
    }
  }

  lemma Rebracket(a: string, b: string)
    ensures
      var x := "[" + a + "]";
      "[" + (a + "," + b) + "]" == x[..|x| - 1] + "," + b + "]"
  {
  }

  lemma SplitAtComma(p: string, r: string, q: string, s: string)
    requires CommaFree(p) && CommaFree(q) && p + "," + r == q + "," + s
    ensures p == q && r == s
  {
    var x := p + "," + r;
    assert x[|p|] == ',' && x[|q|] == ',';
    assert p == x[..|p|] && q == x[..|q|];
    assert |p| == |q|;
    assert r == x[|p| + 1..] && s == x[|q| + 1..];
  }

  lemma {:induction false} JoinInjective(a: seq<string>, b: seq<string>)
    requires |a| == |b| && Join(a) == Join(b)
    requires forall i | 0 <= i < |a| :: CommaFree(a[i]) && CommaFree(b[i])
    ensures a == b
  {
    if |a| > 1 {
      SplitAtComma(a[0], Join(a[1..]), b[0], Join(b[1..]));
      JoinInjective(a[1..], b[1..]);
      assert a == [a[0]] + a[1..] && b == [b[0]] + b[1..];
    }
  }

  /** Different elements of one array have different names. */
  lemma NamesDistinct(i: seq<int>, j: seq<int>)
    requires |i| == |j| && ElementName(i) == ElementName(j)
    ensures i == j
  {
    var a, b := Join(Printed(i)), Join(Printed(j));
    assert a == ElementName(i)[1..|ElementName(i)| - 1];
    assert b == ElementName(j)[1..|ElementName(j)| - 1];
    JoinInjective(Printed(i), Printed(j));
    forall d | 0 <= d < |i| ensures i[d] == j[d] {
      FormatIntInjective(i[d], j[d]);
    }
  }

  // ---------------------------------------------------------------- the children

  datatype Element = Element(offset: nat, size: nat)

  /** The m-th of elements of e bytes each. */
  function Nth(m: nat, e: nat): Element {
    Element(m * e, e)
  }

  function ElementSize(levels: seq<Level>, size: nat): nat {
    if Total(levels) == 0 then 0 else size / Total(levels)
  }

  ghost predicate HasElement(children: map<string, Element>, name: string, e: nat, m: nat) {
    name in children && children[name] == Nth(m, e)
  }

  /** children holds exactly the first n names, the m-th at offset m * e and e bytes wide. */
  ghost predicate Table(names: seq<string>, e: nat, children: map<string, Element>, n: nat)
    requires n <= |names|
  {
    && |children| == n
    && (forall m | 0 <= m < n :: HasElement(children, names[m], e, m))
    && (forall name | name in children :: name in names[..n])
  }

  ghost predicate AllDistinct(names: seq<string>) {
    forall m, n | 0 <= m < n < |names| :: names[m] != names[n]
  }

  lemma TableOneMore(names: seq<string>, e: nat, children: map<string, Element>, n: nat)
    requires AllDistinct(names) && n < |names| && Table(names, e, children, n)
    ensures Table(names, e, children[names[n] := Nth(n, e)], n + 1)
  {
    var more := children[names[n] := Nth(n, e)];
    assert names[n] !in children;
    forall m | 0 <= m < n + 1 ensures HasElement(more, names[m], e, m) {
      if m < n { assert HasElement(children, names[m], e, m); }
    }
    assert names[..n + 1] == names[..n] + [names[n]];
  }

  /** The first n names with their offsets, as the loop has entered them. */
  ghost function Filled(names: seq<string>, e: nat, n: nat): map<string, Element>
    requires n <= |names|
  {
    if n == 0 then map[] else Filled(names, e, n - 1)[names[n - 1] := Nth(n - 1, e)]
  }

  lemma {:induction false} FilledTable(names: seq<string>, e: nat, n: nat)
    requires AllDistinct(names) && n <= |names|
    ensures Table(names, e, Filled(names, e, n), n)
  {
    if n > 0 {
      FilledTable(names, e, n - 1);
      TableOneMore(names, e, Filled(names, e, n - 1), n - 1);
    }
  }

  /** The index tuples in the order the odometer visits them, with their names. */
  ghost predicate Visits(levels: seq<Level>, order: seq<seq<int>>, names: seq<string>) {
    && |names| == |order|
    && (forall n | 0 <= n < |order| :: |order[n]| == |levels| && names[n] == ElementName(order[n]))
    && (forall n | 0 <= n < |order| - 1 :: order[n + 1] == Advance(levels, order[n]))
  }

  ghost function Order(levels: seq<Level>): seq<seq<int>>
    requires forall d | 0 <= d < |levels| :: levels[d].elements > 0
  {
    seq(Total(levels), n requires 0 <= n < Total(levels) => Unrank(levels, n))
  }

  ghost function Names(levels: seq<Level>): seq<string>
    requires forall d | 0 <= d < |levels| :: levels[d].elements > 0
  {
    seq(Total(levels), n requires 0 <= n < Total(levels) => ElementName(Unrank(levels, n)))
  }

  lemma OrderVisits(levels: seq<Level>)
    requires forall d | 0 <= d < |levels| :: levels[d].elements > 0
    ensures Visits(levels, Order(levels), Names(levels))
    ensures |Order(levels)| == Total(levels) > 0 && Order(levels)[0] == LowerBounds(levels)
  {
    TotalPositive(levels);
    UnrankZero(levels);
    forall n | 0 <= n < |Order(levels)| - 1 ensures Order(levels)[n + 1] == Advance(levels, Order(levels)[n]) {
      AdvanceUnrank(levels, n);
    }
  }

  lemma NamesAllDistinct(levels: seq<Level>)
    requires forall d | 0 <= d < |levels| :: levels[d].elements > 0
    ensures AllDistinct(Names(levels))
  {
    forall m, n | 0 <= m < n < Total(levels) ensures ElementName(Unrank(levels, m)) != ElementName(Unrank(levels, n)) {
      NameAtDistinct(levels, m, n);
    }
  }

  lemma NameAtDistinct(levels: seq<Level>, m: nat, n: nat)
    requires forall d | 0 <= d < |levels| :: levels[d].elements > 0
    requires m < n < Total(levels)
    ensures ElementName(Unrank(levels, m)) != ElementName(Unrank(levels, n))
  {
    UnrankInBox(levels, m);
    UnrankInBox(levels, n);
    if ElementName(Unrank(levels, m)) == ElementName(Unrank(levels, n)) {
      NamesDistinct(Unrank(levels, m), Unrank(levels, n));
    }
  }

  lemma {:induction false} TotalPositive(levels: seq<Level>)
    requires forall d | 0 <= d < |levels| :: levels[d].elements > 0
    ensures Total(levels) > 0
  {
    if levels != [] { TotalPositive(levels[..|levels| - 1]); }
  }

  /** No 32-bit product in the loop wraps. */
  lemma OffsetFits(n: nat, total: nat, size: nat)
    requires n < total
    ensures n * (size / total) + size / total <= size
  {
    assert size == total * (size / total) + size % total;
    MulLe(n + 1, total, size / total);
    MulSucc(n, size / total);
  }

  lemma {:induction false} TotalPrefix(levels: seq<Level>, d: nat)
    requires d <= |levels| && forall i | 0 <= i < |levels| :: levels[i].elements > 0
    ensures Total(levels[..d]) <= Total(levels)
    decreases |levels|
  {
    if d < |levels| {
      var k := |levels| - 1;
      TotalPrefix(levels[..k], d);
      assert levels[..k][..d] == levels[..d];
      TotalPositive(levels[..k]);
      MulLe(1, levels[k].elements, Total(levels[..k]));
    } else {
      assert levels[..d] == levels;
    }
  }

  lemma TotalStep(levels: seq<Level>, d: nat)
    requires d < |levels|
    ensures Total(levels[..d + 1]) == Total(levels[..d]) * levels[d].elements
  {
    assert levels[..d + 1][..d] == levels[..d];
  }

  lemma TooMany(levels: seq<Level>, d: nat)
    requires d <= |levels| && Total(levels[..d]) > MAX_ELEMENTS
    ensures !Accepts(levels)
  {
    if forall i | 0 <= i < |levels| :: levels[i].elements > 0 {
      TotalPrefix(levels, d);
    }
  }

  /** One 64-bit product; at these sizes it does not wrap. */
  method Multiply(total: nat, elements: nat) returns (r: nat)
    requires total <= MAX_ELEMENTS && elements < U32
    ensures r == total * elements
  {
    MulLe(total, MAX_ELEMENTS, elements);
    r := (total * elements) % U64;
  }

  /** The bounds checks and the running product of the first loop. */
  method CheckLevels(levels: seq<Level>) returns (ok: bool, total: nat)
    requires OnWire(levels) && |levels| >= 1
    ensures ok == Accepts(levels)
    ensures ok ==> total == Total(levels)
  {
    total := 1;
    for d := 0 to |levels|
      invariant total == Total(levels[..d]) && total <= MAX_ELEMENTS
      invariant forall i | 0 <= i < d :: GoodLevel(levels[i])
    {
      if levels[d].elements == 0 {
        return false, 0;
      }
      if Lower(levels[d]) + levels[d].elements - 1 > MAX_INT32 {
        return false, 0;
      }
      TotalStep(levels, d);
      total := Multiply(total, levels[d].elements);
      if total > MAX_ELEMENTS {
        TooMany(levels, d + 1);
        return false, 0;
      }
    }
    assert levels[..|levels|] == levels;
    ok := true;
  }

  lemma NoWrap(x: nat)
    requires x < U32
    ensures x % U32 == x
  {
  }

  /** Every offset fits 32 bits. */
  predicate Fits(total: nat, e: nat) {
    total * e < U32
  }

  lemma ElementsFit(total: nat, size: nat)
    requires 0 < total && size < U32
    ensures Fits(total, size / total)
  {
    assert size == total * (size / total) + size % total;
  }

  /** One more child; its offset is computed in 32 bits. */
  method AddElement(children: map<string, Element>, name: string, n: nat, e: nat, ghost total: nat)
    returns (more: map<string, Element>)
    requires n < total && Fits(total, e)
    ensures more == children[name := Nth(n, e)]
  {
    MulLe(n, total, e);
    NoWrap(n * e);
    more := children[name := Element(n * e % U32, e)];
  }

  /** The element loop. */
  method FillChildren(levels: seq<Level>, total: nat, e: nat, ghost order: seq<seq<int>>, ghost names: seq<string>)
    returns (children: map<string, Element>)
    requires 0 < total == |order| && Fits(total, e)
    requires Visits(levels, order, names) && order[0] == LowerBounds(levels)
    ensures children == Filled(names, e, total)
  {
    children := map[];
    var idx := new int[|levels|](d requires 0 <= d < |levels| => Lower(levels[d]));
    assert idx[..] == LowerBounds(levels);
    for n := 0 to total
      invariant n < total ==> idx[..] == order[n]
      invariant children == Filled(names, e, n)
    {
      children := AddElement(children, ElementName(idx[..]), n, e, total);
      AdvanceInPlace(levels, idx);
    }
  }

  /** The children of an array: its elements in row-major order, none for a list of dimensions that is refused. */
  ghost function Elements(levels: seq<Level>, size: nat): map<string, Element> {
    if Accepts(levels) then Filled(Names(levels), ElementSize(levels, size), |Names(levels)|) else map[]
  }

  /** An accepted array has one child per element under distinct names. */
  lemma ElementsTable(levels: seq<Level>, size: nat)
    requires Accepts(levels)
    ensures Table(Names(levels), ElementSize(levels, size), Elements(levels, size), Total(levels))
  {
    NamesAllDistinct(levels);
    FilledTable(Names(levels), ElementSize(levels, size), Total(levels));
  }

  /**
   makeArrayChildren: the elements of an accepted array in row-major order; an empty map for
   every other list of dimensions.
   */
  method MakeArrayChildren(levels: seq<Level>, size: nat) returns (children: map<string, Element>)
    requires OnWire(levels) && size < U32
    ensures children == Elements(levels, size)
  {
    children := map[];
    if |levels| < 1 {
      return;
    }
    var ok, total := CheckLevels(levels);
    if !ok {
      return;
    }
    OrderVisits(levels);
    ElementsFit(total, size);
    ElementsAre(levels, size, total);
    var elemSize := size / total;
    children := FillChildren(levels, total, elemSize, Order(levels), Names(levels));
  }

  lemma ElementsAre(levels: seq<Level>, size: nat, total: nat)
    requires Accepts(levels) && total == Total(levels) > 0
    ensures Elements(levels, size) == Filled(Names(levels), size / total, total)
  {
  }

  lemma NameOfIndex(levels: seq<Level>, idx: seq<int>)
    requires (forall d | 0 <= d < |levels| :: levels[d].elements > 0) && InBox(levels, idx)
    ensures 0 <= Rank(levels, idx) < |Names(levels)| == Total(levels)
    ensures Names(levels)[Rank(levels, idx)] == ElementName(idx)
  {
    RankInRange(levels, idx);
  }

  /**
   * Every in-bounds index has a child, named by its indices, at element size times its row-major rank, inside the
   * size.
   */
  lemma ElementAtRank(levels: seq<Level>, size: nat, idx: seq<int>)
    requires Accepts(levels) && InBox(levels, idx)
    ensures Rank(levels, idx) >= 0
    ensures HasElement(Elements(levels, size), ElementName(idx), ElementSize(levels, size), Rank(levels, idx))
    ensures Rank(levels, idx) * ElementSize(levels, size) + ElementSize(levels, size) <= size
  {
    ElementsTable(levels, size);
    NameOfIndex(levels, idx);
    TotalPositive(levels);
    OffsetFits(Rank(levels, idx), Total(levels), size);
  }

  /** And every child is such an element: there are exactly as many children as elements. */
  lemma NothingElse(levels: seq<Level>, size: nat, name: string) returns (idx: seq<int>)
    requires Accepts(levels) && name in Elements(levels, size)
    ensures InBox(levels, idx) && name == ElementName(idx) && |Elements(levels, size)| == Total(levels)
  {
    ElementsTable(levels, size);
    var m :| 0 <= m < Total(levels) && Names(levels)[m] == name;
    idx := Unrank(levels, m);
    UnrankInBox(levels, m);
  }

  lemma StripesDisjoint(e: nat, p: nat, q: nat)
    requires p != q
    ensures p * e + e <= q * e || q * e + e <= p * e
  {
    MulSucc(p, e);
    MulSucc(q, e);
    if p < q { MulLe(p + 1, q, e); } else { MulLe(q + 1, p, e); }
  }

  /** The elements occupy disjoint byte ranges inside the declared size. */
  lemma ElementsDisjoint(levels: seq<Level>, size: nat, i: seq<int>, j: seq<int>)
    requires Accepts(levels) && size < U32 && InBox(levels, i) && InBox(levels, j) && i != j
    ensures
      var e := ElementSize(levels, size);
      var p, q := Rank(levels, i) * e, Rank(levels, j) * e;
      p + e <= size && (p + e <= q || q + e <= p)
  {
    TotalPositive(levels);
    RankInRange(levels, i);
    RankInRange(levels, j);
    OffsetFits(Rank(levels, i), Total(levels), size);
    StripesDisjoint(ElementSize(levels, size), Rank(levels, i), Rank(levels, j));
  }
}
