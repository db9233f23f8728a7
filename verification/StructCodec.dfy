/** Writing a struct value into a byte buffer and parsing it back (writeToNode, parse). */
module StructCodec {

  import opened Basics
  import opened Bytes
  import opened Decimal

  type Text = s: string | IsByteString(s)

  datatype AnyKind = Bool | Unsigned(width: nat) | Signed(width: nat) | Str

  predicate KnownWidth(k: AnyKind) {
    (k.Unsigned? || k.Signed?) ==> k.width in {1, 2, 4, 8}
  }

  type Kind = k: AnyKind | KnownWidth(k) witness Bool

  /** A symbol tree. A symbol with children is a struct, whatever its kind says. */
  datatype Symbol = Symbol(kind: Kind, offset: nat, length: nat, children: map<string, Symbol>)

  /** What writeToNode is handed: the text itself, and its fields if encoding/json reads it as an object. */
  datatype Value = Value(text: Text, fields: Option<map<string, Value>>)

  // ---------------------------------------------------------------- leaves

  const TRUES: set<string> := {"1", "t", "T", "TRUE", "true", "True"}
  const FALSES: set<string> := {"0", "f", "F", "FALSE", "false", "False"}

  function Half(w: nat): int
    requires w > 0
  {
    128 * Pow256(w - 1)
  }

  lemma HalfTwice(w: nat)
    requires w > 0
    ensures 2 * Half(w) == Pow256(w) && Half(w) > 0
  {
  }

  /** Two's complement on w bytes. */
  function Complement(i: int, w: nat): (v: nat)
    requires w > 0 && -Half(w) <= i < Half(w)
    ensures v < Pow256(w)
  {
    HalfTwice(w);
    if i < 0 then i + Pow256(w) else i
  }

  function ToSigned(v: nat, w: nat): int
    requires w > 0
  {
    if v < Half(w) then v else v - Pow256(w)
  }

  function Zeros(n: nat): (b: seq<byte>)
    ensures |b| == n && forall i | 0 <= i < n :: b[i] == 0
  {
    seq(n, _ => 0)
  }

  /** The bytes a leaf writes for a text, or None when the text is refused. */
  function Encode(k: Kind, length: nat, text: Text): (r: Option<seq<byte>>)
  {
    match k
    case Bool => if text in TRUES then Some([1]) else if text in FALSES then Some([0]) else None
    case Unsigned(w) =>
      var v := ParseUint(text, Pow256(w));
      if v.None? then None else Some(PutLE(v.value, w))
    case Signed(w) =>
      HalfTwice(w);
      var v := ParseInt(text, Half(w));
      if v.None? then None else Some(PutLE(Complement(v.value, w), w))
    case Str =>
      if length < 1 then None
      else
        var n := if |text| > length - 1 then length - 1 else |text|;
        Some(ToBytes(text)[..n] + Zeros(length - n))
  }

  function Decode(k: Kind, b: seq<byte>): (r: Option<string>)
  {
    match k
    case Bool => if |b| != 1 then None else if b[0] > 0 then Some("true") else Some("false")
    case Unsigned(w) => if |b| != w then None else Some(FormatNat(GetLE(b)))
    case Signed(w) => if |b| != w then None else Some(FormatInt(ToSigned(GetLE(b), w)))
    case Str => Some(CString(b))
  }

  /** The texts a leaf of this kind and length stands for exactly. */
  ghost predicate CanonicalText(k: Kind, length: nat, text: Text) {
    match k
    case Bool => text in {"true", "false"}
    case Unsigned(w) => exists n: nat :: n < Pow256(w) && text == FormatNat(n)
    case Signed(w) => w > 0 && exists i: int :: -Half(w) <= i < Half(w) && text == FormatInt(i)
    case Str => |text| < length && forall i | 0 <= i < |text| :: text[i] as int != 0
  }

  predicate FitsKind(k: Kind, length: nat) {
    match k
    case Bool => length == 1
    case Unsigned(w) => length == w
    case Signed(w) => length == w
    case Str => length >= 1
  }

  lemma CStringPadded(text: Text, n: nat)
    requires forall i | 0 <= i < |text| :: text[i] as int != 0
    requires n > 0
    ensures CString(ToBytes(text) + Zeros(n)) == text
  {
    var b := ToBytes(text) + Zeros(n);
    var s := CString(b);
    assert forall i | 0 <= i < |text| :: b[i] == text[i] as int;
    assert b[|text|] == 0;
    assert |s| == |text|;
    assert b[..|s|] == ToBytes(text);
  }

  lemma LeafRoundTrip(k: Kind, length: nat, text: Text)
    requires FitsKind(k, length) && CanonicalText(k, length, text)
    ensures Encode(k, length, text).Some?
    ensures |Encode(k, length, text).value| == length
    ensures Decode(k, Encode(k, length, text).value) == Some(text)
  {
    match k
    case Bool =>
    case Unsigned(w) =>
      var n: nat :| n < Pow256(w) && text == FormatNat(n);
      ParseFormatUint(n, Pow256(w));
      GetPut(n, w);
    case Signed(w) =>
      var i: int :| -Half(w) <= i < Half(w) && text == FormatInt(i);
      HalfTwice(w);
      ParseFormatInt(i, Half(w));
      GetPut(Complement(i, w), w);
    case Str =>
      assert ToBytes(text)[..|text|] == ToBytes(text);
      CStringPadded(text, length - |text|);
  }

  /** A BOOL takes the twelve texts of strconv.ParseBool, parses back as "true" or "false", and refuses all others. */
  lemma BoolTexts(length: nat, text: Text)
    ensures text in ["1", "t", "T", "TRUE", "true", "True"] ==>
      Encode(Bool, length, text).Some? && Decode(Bool, Encode(Bool, length, text).value) == Some("true")
    ensures text in ["0", "f", "F", "FALSE", "false", "False"] ==>
      Encode(Bool, length, text).Some? && Decode(Bool, Encode(Bool, length, text).value) == Some("false")
    ensures text !in ["1", "t", "T", "TRUE", "true", "True", "0", "f", "F", "FALSE", "false", "False"] ==>
      Encode(Bool, length, text).None?
  {
  }

  /** An unsigned leaf takes any digits in range, leading zeros included, and parses back their value. */
  lemma UnsignedTexts(w: nat, length: nat, text: Text)
    requires KnownWidth(Unsigned(w))
    ensures
      var r := Encode(Unsigned(w), length, text);
      if text != "" && AllDigits(text) && DigitsValue(text) < Pow256(w)
      then r.Some? && Decode(Unsigned(w), r.value) == Some(FormatNat(DigitsValue(text)))
      else r.None?
  {
    if text != "" && AllDigits(text) && DigitsValue(text) < Pow256(w) {
      GetPut(DigitsValue(text), w);
    }
  }

  /** The number a text with an optional sign stands for, if it is one. */
  function SignedValue(text: string): Option<int> {
    if text != "" && AllDigits(text) then Some(DigitsValue(text))
    else if |text| > 1 && text[0] == '+' && AllDigits(text[1..]) then Some(DigitsValue(text[1..]))
    else if |text| > 1 && text[0] == '-' && AllDigits(text[1..]) then Some(0 - DigitsValue(text[1..]) as int)
    else None
  }

  /** A signed leaf takes any signed digits in range, both ends included, and parses back their value. */
  lemma SignedTexts(w: nat, length: nat, text: Text)
    requires KnownWidth(Signed(w))
    ensures
      var r, v := Encode(Signed(w), length, text), SignedValue(text);
      if v.Some? && -Half(w) <= v.value < Half(w)
      then r.Some? && Decode(Signed(w), r.value) == Some(FormatInt(v.value))
      else r.None?
  {
    HalfTwice(w);
    var v := SignedValue(text);
    ParsesSigned(text, Half(w));
    if v.Some? && -Half(w) <= v.value < Half(w) {
      GetPut(Complement(v.value, w), w);
    }
  }

  lemma ParsesSigned(text: string, half: int)
    requires half > 0
    ensures
      var v := SignedValue(text);
      ParseInt(text, half) == if v.Some? && -half <= v.value < half then v else None
  {
    if text != "" && !IsDigit(text[0]) {
      assert !AllDigits(text);
    }
  }

  /** What a STRING of this length keeps of a text: all of it, or up to a NUL, or up to the room there is. */
  predicate KeptOf(text: string, length: nat, s: string) {
    && s <= text && |s| < length && (forall i | 0 <= i < |s| :: s[i] as int != 0)
    && (|s| == |text| || |s| == length - 1 || text[|s|] as int == 0)
  }

  /** A STRING takes every text, fills exactly its length, and parses back what it kept. */
  lemma StringTexts(length: nat, text: Text)
    ensures length < 1 ==> Encode(Str, length, text).None?
    ensures length >= 1 ==>
      var r := Encode(Str, length, text);
      r.Some? && |r.value| == length && Decode(Str, r.value).Some? && KeptOf(text, length, Decode(Str, r.value).value)
  {
    if length >= 1 {
      var n := if |text| > length - 1 then length - 1 else |text|;
      var b := ToBytes(text)[..n] + Zeros(length - n);
      var s := CString(b);
      assert b[n] == 0;
      assert |s| <= n;
      assert b[..|s|] == ToBytes(text)[..|s|];
      CharsOfPrefix(text, |s|);
      if |s| < n {
        assert b[|s|] == ToBytes(text)[|s|] == text[|s|] as int;
      }
      forall i | 0 <= i < |s| ensures s[i] as int != 0 {
        assert s[i] as int == b[i];
      }
    }
  }

  lemma CharsOfPrefix(text: Text, k: nat)
    requires k <= |text|
    ensures Chars(ToBytes(text)[..k]) == text[..k]
  {
    forall i | 0 <= i < k ensures Chars(ToBytes(text)[..k])[i] == text[i] {
      assert Chars(ToBytes(text))[i] == text[i];
    }
  }

  /** The value an untouched, zeroed leaf parses to. */
  function ZeroText(k: Kind): string {
    match k
    case Bool => "false"
    case Unsigned(_) => "0"
    case Signed(_) => "0"
    case Str => ""
  }

  lemma {:induction false} ZerosAreZero(n: nat)
    ensures GetLE(Zeros(n)) == 0
  {
    if n > 0 {
      ZerosAreZero(n - 1);
      assert Zeros(n)[1..] == Zeros(n - 1);
    }
  }

  lemma ZeroLeaf(k: Kind, length: nat)
    requires FitsKind(k, length)
    ensures Decode(k, Zeros(length)) == Some(ZeroText(k))
  {
    ZerosAreZero(length);
    if k.Signed? {
      HalfTwice(k.width);
    } else if k.Str? {
      CStringPadded("", length);
      assert ToBytes("") + Zeros(length) == Zeros(length);
    }
  }

  // ---------------------------------------------------------------- writing

  /** A member's key in the JSON value: array indices keep literal quotes. */
  function JsonKey(name: string): string {
    if name == "" then ""
    else (if name[0] == '[' then "\"[" else if name[0] == ']' then "]\"" else [name[0]]) + JsonKey(name[1..])
  }

  predicate NoBrackets(s: string) {
    forall i | 0 <= i < |s| :: s[i] != '[' && s[i] != ']'
  }

  lemma {:induction false} PlainKey(s: string, more: string)
    requires NoBrackets(s)
    ensures JsonKey(s + more) == s + JsonKey(more)
  {
    if s == "" {
      assert s + more == more;
    } else {
      PlainKey(s[1..], more);
      assert (s + more)[1..] == s[1..] + more;
      assert (s + more)[0] == s[0];
    }
  }

  /** A plain name is its own key; an array index is looked up in quotes, brackets included. */
  lemma JsonKeyForms(s: string)
    requires NoBrackets(s)
    ensures JsonKey(s) == s && JsonKey("[" + s + "]") == "\"[" + s + "]\""
  {
    PlainKey(s, "");
    assert s + "" == s;
    PlainKey(s, "]");
    assert ("[" + s + "]")[1..] == s + "]";
    assert "]"[1..] == "";
  }

  /** The value a struct value gives one of its members, if any. */
  function Member(v: Value, name: string): Option<Value> {
    if v.fields.None? then None
    else if name in v.fields.value then Some(v.fields.value[name])
    else if JsonKey(name) in v.fields.value then Some(v.fields.value[JsonKey(name)])
    else None
  }

  predicate Given(v: Value, name: string) {
    Member(v, name).Some?
  }

  /** A member is looked up under its name, and if that is missing under its quoted name. */
  lemma MemberFound(v: Value, name: string)
    ensures v.fields.None? ==> Member(v, name) == None
    ensures v.fields.Some? && name in v.fields.value ==> Member(v, name) == Some(v.fields.value[name])
    ensures v.fields.Some? && name !in v.fields.value && JsonKey(name) in v.fields.value ==>
      Member(v, name) == Some(v.fields.value[JsonKey(name)])
    ensures v.fields.Some? && name !in v.fields.value && JsonKey(name) !in v.fields.value ==> Member(v, name) == None
  {
  }

  predicate InRange(sym: Symbol, child: Symbol) {
    child.offset + child.length <= sym.length
  }

  /** Refused: a bad text, no object where one is needed, or a refused or overlong member. */
  ghost predicate Refuses(sym: Symbol, v: Value)
    decreases sym
  {
    if sym.children == map[] then Encode(sym.kind, sym.length, v.text).None?
    else
      || v.fields.None?
      || exists name | name in sym.children :: RefusesMember(sym, v, name)
  }

  ghost predicate RefusesMember(sym: Symbol, v: Value, name: string)
    requires name in sym.children
    decreases sym, 0
  {
    Given(v, name) && (Refuses(sym.children[name], Member(v, name).value) || !InRange(sym, sym.children[name]))
  }

  /** A struct takes an object only, and refuses one with a given member that is refused or does not fit inside. */
  lemma RefusesExactly(sym: Symbol, v: Value)
    requires sym.children != map[]
    ensures Refuses(sym, v) <==>
      || v.fields.None?
      || exists name | name in sym.children && Given(v, name) ::
           || Refuses(sym.children[name], Member(v, name).value)
           || sym.children[name].offset + sym.children[name].length > sym.length
  {
    if name :| name in sym.children && RefusesMember(sym, v, name) {
      assert Given(v, name);
    }
    if v.fields.Some? {
      forall name | name in sym.children && Given(v, name)
        ensures RefusesMember(sym, v, name) <==>
          || Refuses(sym.children[name], Member(v, name).value)
          || sym.children[name].offset + sym.children[name].length > sym.length
      {
      }
    }
  }

  predicate Apart(a: Symbol, b: Symbol) {
    a.offset + a.length <= b.offset || b.offset + b.length <= a.offset
  }

  /** No other member touches this one's bytes. */
  predicate Alone(sym: Symbol, name: string)
    requires name in sym.children
  {
    forall other | other in sym.children && other != name :: Apart(sym.children[name], sym.children[other])
  }

  /** Go's copy into dst[at..at+width]. */
  function Overlay(dst: seq<byte>, at: nat, width: nat, src: seq<byte>): (r: seq<byte>)
    requires at + width <= |dst|
    ensures |r| == |dst|
  {
    var n := Min(width, |src|);
    dst[..at] + src[..n] + dst[at + n..]
  }

  /** The member's bytes stand where its offset says. */
  predicate Placed(b: seq<byte>, child: Symbol, src: seq<byte>) {
    child.offset + child.length <= |b| &&
    var n := Min(child.length, |src|);
    b[child.offset..child.offset + n] == src[..n]
  }

  /** b is what some iteration order over the members can leave in the buffer. */
  ghost predicate Writes(sym: Symbol, v: Value, b: seq<byte>)
    decreases sym
  {
    if sym.children == map[] then Encode(sym.kind, sym.length, v.text) == Some(b)
    else
      && v.fields.Some?
      && |b| == sym.length
      && (forall name | name in sym.children && Given(v, name) :: WritesMember(sym, v, b, name))
      && (forall i | 0 <= i < |b| && Untouched(sym, v, sym.children.Keys, i) :: b[i] == 0)
  }

  ghost predicate WritesMember(sym: Symbol, v: Value, b: seq<byte>, name: string)
    requires name in sym.children && Given(v, name)
    decreases sym, 0
  {
    var child := sym.children[name];
    && InRange(sym, child)
    && exists src :: Writes(child, Member(v, name).value, src) && (Alone(sym, name) ==> Placed(b, child, src))
  }

  /** No given member of those named covers byte i. */
  predicate Untouched(sym: Symbol, v: Value, names: set<string>, i: nat)
    requires names <= sym.children.Keys
  {
    forall name | name in names && Given(v, name) ::
      !(sym.children[name].offset <= i < sym.children[name].offset + sym.children[name].length)
  }

  /** The buffer after the members in done. */
  ghost predicate Partial(sym: Symbol, v: Value, done: set<string>, b: seq<byte>)
    requires done <= sym.children.Keys
  {
    && |b| == sym.length
    && (forall name | name in done && Given(v, name) :: WritesMember(sym, v, b, name))
    && (forall i | 0 <= i < |b| && Untouched(sym, v, done, i) :: b[i] == 0)
  }

  lemma OverlayKeepsOthers(sym: Symbol, v: Value, b: seq<byte>, src: seq<byte>, name: string, other: string)
    requires name in sym.children && other in sym.children && name != other
    requires |b| == sym.length && InRange(sym, sym.children[name])
    requires Given(v, other) && WritesMember(sym, v, b, other)
    ensures WritesMember(sym, v, Overlay(b, sym.children[name].offset, sym.children[name].length, src), other)
  {
    var c, o := sym.children[name], sym.children[other];
    var kept :| Writes(o, Member(v, other).value, kept) && (Alone(sym, other) ==> Placed(b, o, kept));
    if Alone(sym, other) {
      assert Apart(o, c);
      PlacedKept(b, c, o, src, kept);
    }
  }

  lemma PlacedKept(b: seq<byte>, c: Symbol, o: Symbol, src: seq<byte>, kept: seq<byte>)
    requires c.offset + c.length <= |b| && Apart(o, c) && Placed(b, o, kept)
    ensures Placed(Overlay(b, c.offset, c.length, src), o, kept)
  {
    var after := Overlay(b, c.offset, c.length, src);
    var n := Min(o.length, |kept|);
    forall i | o.offset <= i < o.offset + n ensures after[i] == b[i] {
      OverlayOutside(b, c.offset, c.length, src, i);
    }
    assert after[o.offset..o.offset + n] == b[o.offset..o.offset + n];
  }

  lemma OverlayOutside(b: seq<byte>, at: nat, width: nat, src: seq<byte>, i: nat)
    requires at + width <= |b| && i < |b| && (i < at || at + width <= i)
    ensures Overlay(b, at, width, src)[i] == b[i]
  {
  }

  lemma OverlayPlaces(sym: Symbol, b: seq<byte>, src: seq<byte>, child: Symbol)
    requires |b| == sym.length && InRange(sym, child)
    ensures Placed(Overlay(b, child.offset, child.length, src), child, src)
  {
  }

  lemma PartialStep(sym: Symbol, v: Value, done: set<string>, b: seq<byte>, name: string, src: seq<byte>)
    requires done <= sym.children.Keys && Partial(sym, v, done, b)
    requires name in sym.children && name !in done && Given(v, name) && InRange(sym, sym.children[name])
    requires Writes(sym.children[name], Member(v, name).value, src)
    ensures Partial(sym, v, done + {name}, Overlay(b, sym.children[name].offset, sym.children[name].length, src))
  {
    var c := sym.children[name];
    var after := Overlay(b, c.offset, c.length, src);
    OverlayPlaces(sym, b, src, c);
    forall other | other in done && Given(v, other) ensures WritesMember(sym, v, after, other) {
      OverlayKeepsOthers(sym, v, b, src, name, other);
    }
    forall i | 0 <= i < |after| && Untouched(sym, v, done + {name}, i) ensures after[i] == 0 {
      assert Untouched(sym, v, done, i);
      assert !(c.offset <= i < c.offset + c.length);
    }
  }

  lemma PartialSkip(sym: Symbol, v: Value, done: set<string>, b: seq<byte>, name: string)
    requires done <= sym.children.Keys && Partial(sym, v, done, b)
    requires name in sym.children && !Given(v, name)
    ensures Partial(sym, v, done + {name}, b)
  {
    forall i | 0 <= i < |b| && Untouched(sym, v, done + {name}, i) ensures b[i] == 0 {
      assert Untouched(sym, v, done, i);
    }
  }

  /** copy(buf[at:at+width], src) */
  method Copy(buf: array<byte>, at: nat, width: nat, src: seq<byte>)
    requires at + width <= buf.Length
    modifies buf
    ensures buf[..] == Overlay(old(buf[..]), at, width, src)
  {
    var n := Min(width, |src|);
    ghost var was := buf[..];
    for i := 0 to n
      invariant buf[..] == was[..at] + src[..i] + was[at + i..]
    {
      buf[at + i] := src[i];
      CopyStep(was, at, src, i, buf[..]);
    }
  }

  lemma CopyStep(was: seq<byte>, at: nat, src: seq<byte>, i: nat, now: seq<byte>)
    requires at + i < |was| && i < |src|
    requires now == (was[..at] + src[..i] + was[at + i..])[at + i := src[i]]
    ensures now == was[..at] + src[..i + 1] + was[at + i + 1..]
  {
  }

  /** Members are visited in whatever order the map yields them. */
  method WriteToNode(sym: Symbol, v: Value) returns (r: Option<seq<byte>>)
    ensures r.None? <==> Refuses(sym, v)
    ensures r.Some? ==> Writes(sym, v, r.value)
    decreases sym
  {
    if sym.children == map[] {
      return Encode(sym.kind, sym.length, v.text);
    }
    if v.fields.None? {
      return None;
    }
    var buf := new byte[sym.length](_ => 0);
    var todo := sym.children.Keys;
    while todo != {}
      invariant todo <= sym.children.Keys
      invariant Partial(sym, v, sym.children.Keys - todo, buf[..])
      invariant forall name | name in sym.children && name !in todo :: !RefusesMember(sym, v, name)
      decreases |todo|
    {
      ghost var done := sym.children.Keys - todo;
      var name :| name in todo;
      todo := todo - {name};
      assert sym.children.Keys - todo == done + {name};
      var child := sym.children[name];
      var given := Member(v, name);
      if given.None? {
        PartialSkip(sym, v, done, buf[..], name);
        continue;
      }
      var src := WriteToNode(child, given.value);
      if src.None? || !InRange(sym, child) {
        assert RefusesMember(sym, v, name);
        return None;
      }
      PartialStep(sym, v, done, buf[..], name, src.value);
      Copy(buf, child.offset, child.length, src.value);
    }
    assert sym.children.Keys - todo == sym.children.Keys;
    return Some(buf[..]);
  }

  // ---------------------------------------------------------------- parsing

  type Path = seq<string>

  predicate IsLeaf(sym: Symbol, p: Path) {
    if p == [] then sym.children == map[]
    else p[0] in sym.children && IsLeaf(sym.children[p[0]], p[1..])
  }

  function Stop(sym: Symbol, size: nat, offset: nat): nat {
    Min(offset + sym.length, size)
  }

  /** parse succeeds on every leaf. */
  ghost predicate Parses(sym: Symbol, data: seq<byte>, offset: nat)
    decreases sym
  {
    sym.length <= |data| &&
    if sym.children == map[] then
      offset + sym.length <= |data| && Decode(sym.kind, data[offset..offset + sym.length]).Some?
    else
      offset <= |data| &&
      var inner := data[offset..Stop(sym, |data|, offset)];
      forall name | name in sym.children :: Parses(sym.children[name], inner, sym.children[name].offset)
  }

  /** No struct below sym is sliced beyond the data it is handed: otherwise the slice expression panics. */
  ghost predicate SlicesInRange(sym: Symbol, size: nat, offset: nat)
    decreases sym
  {
    sym.children == map[] || sym.length > size ||
    (offset <= size && forall name | name in sym.children ::
      SlicesInRange(sym.children[name], Stop(sym, size, offset) - offset, sym.children[name].offset))
  }

  /** The text parse stores for the leaf at p. */
  ghost function ValueAt(sym: Symbol, data: seq<byte>, offset: nat, p: Path): string
    requires Parses(sym, data, offset) && IsLeaf(sym, p)
    decreases p
  {
    if p == [] then Decode(sym.kind, data[offset..offset + sym.length]).value
    else
      var child := sym.children[p[0]];
      ValueAt(child, data[offset..Stop(sym, |data|, offset)], child.offset, p[1..])
  }

  datatype Outcome = Parsed | Failed | Panicked

  /** Every leaf of the subtree at path holds what parse stores for it. */
  ghost predicate Holds(at: map<Path, string>, sym: Symbol, data: seq<byte>, offset: nat, path: Path)
    requires Parses(sym, data, offset)
  {
    forall p: Path | IsLeaf(sym, p) :: path + p in at && at[path + p] == ValueAt(sym, data, offset, p)
  }

  /** Everything outside the subtree at path is the same in both. */
  ghost predicate SameOutside(was: map<Path, string>, at: map<Path, string>, path: Path) {
    forall q: Path | !(path <= q) :: (q in at <==> q in was) && (q in at ==> at[q] == was[q])
  }

  lemma SiblingKept(was: map<Path, string>, at: map<Path, string>, sym: Symbol, data: seq<byte>, path: Path,
                    name: string, other: string)
    requires name in sym.children && other in sym.children && name != other
    requires SameOutside(was, at, path + [name])
    requires Parses(sym.children[other], data, sym.children[other].offset)
    requires Holds(was, sym.children[other], data, sym.children[other].offset, path + [other])
    ensures Holds(at, sym.children[other], data, sym.children[other].offset, path + [other])
  {
    var o := sym.children[other];
    forall p: Path | IsLeaf(o, p)
      ensures path + [other] + p in at && at[path + [other] + p] == ValueAt(o, data, o.offset, p)
    {
      var q := path + [other] + p;
      assert q[|path|] == other && (path + [name])[|path|] == name;
      assert !(path + [name] <= q);
      assert q in was;
    }
  }

  lemma Widen(was: map<Path, string>, mid: map<Path, string>, at: map<Path, string>, path: Path, name: string)
    requires SameOutside(was, mid, path) && SameOutside(mid, at, path + [name])
    ensures SameOutside(was, at, path)
  {
    forall q: Path | !(path <= q) ensures (q in at <==> q in was) && (q in at ==> at[q] == was[q]) {
      Outside(path, name, q);
    }
  }

  lemma Outside(path: Path, name: string, q: Path)
    requires !(path <= q)
    ensures !(path + [name] <= q)
  {
    if |q| >= |path| + 1 {
      assert (path + [name])[..|path|] == path;
    }
  }

  lemma StructHolds(at: map<Path, string>, sym: Symbol, data: seq<byte>, offset: nat, path: Path)
    requires sym.children != map[] && Parses(sym, data, offset)
    requires
      var inner := data[offset..Stop(sym, |data|, offset)];
      forall name | name in sym.children ::
        Holds(at, sym.children[name], inner, sym.children[name].offset, path + [name])
    ensures Holds(at, sym, data, offset, path)
  {
    var inner := data[offset..Stop(sym, |data|, offset)];
    forall p: Path | IsLeaf(sym, p) ensures path + p in at && at[path + p] == ValueAt(sym, data, offset, p) {
      assert p != [];
      assert path + p == path + [p[0]] + p[1..];
      assert Holds(at, sym.children[p[0]], inner, sym.children[p[0]].offset, path + [p[0]]);
    }
  }

  /** The Value fields of a symbol tree, by path from its root. */
  class Values {
    var at: map<Path, string>

    constructor ()
      ensures at == map[]
    {
      at := map[];
    }

    /** Children are visited in whatever order the map yields them. */
    method Parse(sym: Symbol, data: seq<byte>, offset: nat, path: Path) returns (r: Outcome)
      modifies this
      ensures r.Parsed? <==> Parses(sym, data, offset)
      ensures r.Parsed? ==> Holds(at, sym, data, offset, path)
      ensures r.Panicked? ==> !SlicesInRange(sym, |data|, offset)
      ensures SameOutside(old(at), at, path)
      decreases sym
    {
      if sym.length > |data| {
        return Failed;
      }
      var stop := Stop(sym, |data|, offset);
      if sym.children != map[] {
        if offset > |data| {
          return Panicked;
        }
        r := ParseChildren(sym, data, offset, path);
        return;
      }
      if offset + sym.length > |data| {
        return Failed;
      }
      var text := Decode(sym.kind, data[offset..stop]);
      if text.None? {
        return Failed;
      }
      at := at[path := text.value];
      LeafHolds(at, sym, data, offset, path);
      return Parsed;
    }

    method ParseChildren(sym: Symbol, data: seq<byte>, offset: nat, path: Path) returns (r: Outcome)
      requires sym.children != map[] && sym.length <= |data| && offset <= |data|
      modifies this
      ensures r.Parsed? <==> Parses(sym, data, offset)
      ensures r.Parsed? ==> Holds(at, sym, data, offset, path)
      ensures r.Panicked? ==> !SlicesInRange(sym, |data|, offset)
      ensures SameOutside(old(at), at, path)
      decreases sym, 0
    {
      var inner := data[offset..Stop(sym, |data|, offset)];
      var todo := sym.children.Keys;
      while todo != {}
        invariant todo <= sym.children.Keys
        invariant forall name | name in sym.children && name !in todo ::
          Parses(sym.children[name], inner, sym.children[name].offset)
        invariant forall name | name in sym.children && name !in todo ::
          Holds(at, sym.children[name], inner, sym.children[name].offset, path + [name])
        invariant SameOutside(old(at), at, path)
        decreases |todo|
      {
        var name :| name in todo;
        todo := todo - {name};
        var child := sym.children[name];
        ghost var was := at;
        r := Parse(child, inner, child.offset, path + [name]);
        Widen(old(at), was, at, path, name);
        if !r.Parsed? {
          return;
        }
        forall other | other in sym.children && other !in todo && other != name
          ensures Holds(at, sym.children[other], inner, sym.children[other].offset, path + [other])
        {
          SiblingKept(was, at, sym, inner, path, name, other);
        }
      }
      StructHolds(at, sym, data, offset, path);
      return Parsed;
    }
  }

  lemma LeafHolds(at: map<Path, string>, sym: Symbol, data: seq<byte>, offset: nat, path: Path)
    requires sym.children == map[] && Parses(sym, data, offset)
    requires path in at && at[path] == Decode(sym.kind, data[offset..offset + sym.length]).value
    ensures Holds(at, sym, data, offset, path)
  {
    forall p: Path | IsLeaf(sym, p) ensures path + p in at && at[path + p] == ValueAt(sym, data, offset, p) {
      assert p == [] && path + p == path;
    }
  }

  // ---------------------------------------------------------------- round trip

  /** Members lie inside their struct and apart from each other, and leaves have their kind's width. */
  ghost predicate WellPlaced(sym: Symbol)
    decreases sym
  {
    if sym.children == map[] then FitsKind(sym.kind, sym.length)
    else
      forall name | name in sym.children ::
        Alone(sym, name) && InRange(sym, sym.children[name]) && WellPlaced(sym.children[name])
  }

  /** Every given leaf has a canonical text. */
  ghost predicate Canonical(sym: Symbol, v: Value)
    decreases sym
  {
    if sym.children == map[] then CanonicalText(sym.kind, sym.length, v.text)
    else
      v.fields.Some? &&
      forall name | name in sym.children && Given(v, name) :: Canonical(sym.children[name], Member(v, name).value)
  }

  /** What the leaf at p should read after the write: the text given for it, or the zero of its kind. */
  ghost function Expected(sym: Symbol, v: Option<Value>, p: Path): string
    requires IsLeaf(sym, p)
    decreases p
  {
    if p == [] then (if v.Some? then v.value.text else ZeroText(sym.kind))
    else Expected(sym.children[p[0]], if v.Some? then Member(v.value, p[0]) else None, p[1..])
  }

  /** Parsing a symbol looks only at its own bytes. */
  lemma ParsesOwnBytes(sym: Symbol, data: seq<byte>, offset: nat)
    requires offset + sym.length <= |data|
    ensures Parses(sym, data, offset) <==> Parses(sym, data[offset..offset + sym.length], 0)
    ensures Parses(sym, data, offset) ==>
      forall p: Path | IsLeaf(sym, p) ::
        ValueAt(sym, data, offset, p) == ValueAt(sym, data[offset..offset + sym.length], 0, p)
  {
    var own := data[offset..offset + sym.length];
    assert own[0..sym.length] == own;
  }

  /** A canonical write into a well-placed tree is never refused. */
  lemma {:induction false} NotRefused(sym: Symbol, v: Value)
    requires WellPlaced(sym) && Canonical(sym, v)
    ensures !Refuses(sym, v)
    decreases sym
  {
    if sym.children == map[] {
      LeafRoundTrip(sym.kind, sym.length, v.text);
    } else {
      forall name | name in sym.children ensures !RefusesMember(sym, v, name) {
        if Given(v, name) {
          NotRefused(sym.children[name], Member(v, name).value);
        }
      }
    }
  }

  lemma WrittenSize(sym: Symbol, v: Value, b: seq<byte>)
    requires WellPlaced(sym) && Canonical(sym, v) && Writes(sym, v, b)
    ensures |b| == sym.length
  {
    if sym.children == map[] {
      LeafRoundTrip(sym.kind, sym.length, v.text);
    }
  }

  /** A zeroed symbol parses to the zero of every leaf. */
  lemma {:induction false} ZeroRoundTrip(sym: Symbol, b: seq<byte>)
    requires WellPlaced(sym) && b == Zeros(sym.length)
    ensures Parses(sym, b, 0)
    ensures forall p: Path | IsLeaf(sym, p) :: ValueAt(sym, b, 0, p) == Expected(sym, None, p)
    decreases sym, 1
  {
    assert b[0..sym.length] == b;
    if sym.children == map[] {
      ZeroLeaf(sym.kind, sym.length);
    } else {
      forall name | name in sym.children
        ensures Parses(sym.children[name], b, sym.children[name].offset)
        ensures forall p: Path | IsLeaf(sym.children[name], p) ::
          ValueAt(sym.children[name], b, sym.children[name].offset, p) == Expected(sym.children[name], None, p)
      {
        ZeroMember(sym.children[name], b);
      }
    }
  }

  lemma ZeroMember(c: Symbol, b: seq<byte>)
    requires WellPlaced(c) && c.offset + c.length <= |b| && b == Zeros(|b|)
    ensures Parses(c, b, c.offset)
    ensures forall p: Path | IsLeaf(c, p) :: ValueAt(c, b, c.offset, p) == Expected(c, None, p)
    decreases c, 2
  {
    var own := b[c.offset..c.offset + c.length];
    assert own == Zeros(c.length);
    ZeroRoundTrip(c, own);
    OwnBytes(c, b, None);
  }

  /** What holds of a member's own bytes holds of it inside its struct. */
  lemma OwnBytes(c: Symbol, b: seq<byte>, v: Option<Value>)
    requires c.offset + c.length <= |b| && Parses(c, b[c.offset..c.offset + c.length], 0)
    requires forall p: Path | IsLeaf(c, p) :: ValueAt(c, b[c.offset..c.offset + c.length], 0, p) == Expected(c, v, p)
    ensures Parses(c, b, c.offset)
    ensures forall p: Path | IsLeaf(c, p) :: ValueAt(c, b, c.offset, p) == Expected(c, v, p)
  {
    ParsesOwnBytes(c, b, c.offset);
  }

  /** Bytes of a member the value does not mention stay zero. */
  lemma AbsentIsZero(sym: Symbol, v: Value, b: seq<byte>, name: string)
    requires WellPlaced(sym) && sym.children != map[] && Writes(sym, v, b)
    requires name in sym.children && !Given(v, name)
    ensures
      var c := sym.children[name];
      c.offset + c.length <= |b| && b[c.offset..c.offset + c.length] == Zeros(c.length)
  {
    var c := sym.children[name];
    forall i | c.offset <= i < c.offset + c.length ensures b[i] == 0 {
      assert Alone(sym, name);
      assert Untouched(sym, v, sym.children.Keys, i);
    }
  }

  /** Each member of the written struct parses to what was given for it. */
  lemma MemberRoundTrip(sym: Symbol, v: Value, b: seq<byte>, name: string)
    requires WellPlaced(sym) && Canonical(sym, v) && sym.children != map[] && Writes(sym, v, b)
    requires name in sym.children
    ensures Parses(sym.children[name], b, sym.children[name].offset)
    ensures forall p: Path | IsLeaf(sym.children[name], p) ::
      ValueAt(sym.children[name], b, sym.children[name].offset, p) == Expected(sym.children[name], Member(v, name), p)
    decreases sym, 0
  {
    if Given(v, name) {
      var c := sym.children[name];
      var src := MemberBytes(sym, v, b, name);
      RoundTrip(c, Member(v, name).value, src);
      OwnBytes(c, b, Member(v, name));
    } else {
      AbsentMember(sym, v, b, name);
    }
  }

  lemma AbsentMember(sym: Symbol, v: Value, b: seq<byte>, name: string)
    requires WellPlaced(sym) && Canonical(sym, v) && sym.children != map[] && Writes(sym, v, b)
    requires name in sym.children && !Given(v, name)
    ensures Parses(sym.children[name], b, sym.children[name].offset)
    ensures forall p: Path | IsLeaf(sym.children[name], p) ::
      ValueAt(sym.children[name], b, sym.children[name].offset, p) == Expected(sym.children[name], Member(v, name), p)
  {
    var c := sym.children[name];
    AbsentIsZero(sym, v, b, name);
    ZeroRoundTrip(c, b[c.offset..c.offset + c.length]);
    OwnBytes(c, b, None);
  }

  /** A given member's bytes in the struct are what writing it alone gives. */
  lemma MemberBytes(sym: Symbol, v: Value, b: seq<byte>, name: string) returns (src: seq<byte>)
    requires WellPlaced(sym) && Canonical(sym, v) && sym.children != map[] && Writes(sym, v, b)
    requires name in sym.children && Given(v, name)
    ensures
      var c := sym.children[name];
      c.offset + c.length <= |b| && src == b[c.offset..c.offset + c.length] && Writes(c, Member(v, name).value, src)
  {
    var c := sym.children[name];
    var w := Member(v, name).value;
    assert WritesMember(sym, v, b, name);
    src :| Writes(c, w, src) && (Alone(sym, name) ==> Placed(b, c, src));
    WrittenSize(c, w, src);
    assert src[..|src|] == src;
  }

  /** Whatever order the members were written in, every leaf parses back to its text. */
  lemma {:induction false} RoundTrip(sym: Symbol, v: Value, b: seq<byte>)
    requires WellPlaced(sym) && Canonical(sym, v) && Writes(sym, v, b)
    ensures Parses(sym, b, 0)
    ensures forall p: Path | IsLeaf(sym, p) :: ValueAt(sym, b, 0, p) == Expected(sym, Some(v), p)
    decreases sym
  {
    WrittenSize(sym, v, b);
    assert b[0..sym.length] == b;
    if sym.children == map[] {
      LeafRoundTrip(sym.kind, sym.length, v.text);
    } else {
      forall name | name in sym.children
        ensures Parses(sym.children[name], b, sym.children[name].offset)
        ensures forall p: Path | IsLeaf(sym.children[name], p) ::
          ValueAt(sym.children[name], b, sym.children[name].offset, p) ==
          Expected(sym.children[name], Member(v, name), p)
      {
        MemberRoundTrip(sym, v, b, name);
      }
    }
  }

  /** A well-placed tree never makes parse slice out of range, whatever the data. */
  lemma {:induction false} NoPanic(sym: Symbol, size: nat, offset: nat)
    requires WellPlaced(sym) && (sym.length > size || offset + sym.length <= size)
    ensures SlicesInRange(sym, size, offset)
    decreases sym
  {
    if sym.children != map[] && sym.length <= size {
      forall name | name in sym.children
        ensures SlicesInRange(sym.children[name], Stop(sym, size, offset) - offset, sym.children[name].offset)
      {
        NoPanic(sym.children[name], sym.length, sym.children[name].offset);
      }
    }
  }
}
