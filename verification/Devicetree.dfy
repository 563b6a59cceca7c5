/** Parsing the structure block of a flattened devicetree (section 5.4 of the Devicetree Specification), and the
    traversal of the tree it yields. */
module Devicetree {

  type Byte = b: int | 0 <= b < 256
  type Bytes = seq<Byte>

  const BEGIN_NODE: nat := 1
  const END_NODE: nat := 2
  const PROP: nat := 3
  const NOP: nat := 4

  /** A loaded node: its name, its properties by name, its children in order. */
  datatype Node = Node(name: Bytes, props: map<Bytes, Bytes>, children: seq<Node>)

  /** What the parser ran into: a token that begins no node, or the end of the data. */
  datatype Error = NoNode | Overrun

  datatype Result<T> = Ok(value: T, next: nat) | Err(error: Error)

  // ----- reading -----

  function BigEndian(b0: Byte, b1: Byte, b2: Byte, b3: Byte): nat {
    var w0: int, w1: int, w2: int, w3: int := b0, b1, b2, b3;
    ((w0 * 256 + w1) * 256 + w2) * 256 + w3
  }

  /** The big-endian word at word position pos. */
  function Word(b: Bytes, pos: nat): Result<nat> {
    if 4 * pos + 4 <= |b|
    then Ok(BigEndian(b[4 * pos], b[4 * pos + 1], b[4 * pos + 2], b[4 * pos + 3]), pos + 1)
    else Err(Overrun)
  }

  /** The bytes from offset at up to the next zero. */
  function CString(b: Bytes, at: nat): Result<Bytes>
    decreases |b| - at
  {
    if at >= |b| then Err(Overrun)
    else if b[at] == 0 then Ok([], at)
    else
      var r := CString(b, at + 1);
      if r.Err? then r else Ok([b[at]] + r.value, r.next)
  }

  /** The position of the first token that is no NOP. */
  function SkipNops(b: Bytes, pos: nat): (r: Result<nat>)
    ensures r.Ok? ==> r.next >= pos && Word(b, r.next) == Ok(r.value, r.next + 1) && r.value != NOP
    decreases |b| - 4 * pos
  {
    var t := Word(b, pos);
    if t.Err? then Err(t.error) else if t.value == NOP then SkipNops(b, pos + 1) else Ok(t.value, pos)
  }

  /** One property: the positions behind its value, rounded up to a whole word. */
  function ParseProp(b: Bytes, strs: Bytes, pos: nat): (r: Result<(Bytes, Bytes)>)
    ensures r.Ok? ==> r.next > pos
  {
    var len := Word(b, pos + 1);
    var off := Word(b, pos + 2);
    if len.Err? || off.Err? then Err(Overrun)
    else
      var name := CString(strs, off.value);
      var at := 4 * (pos + 3);
      if name.Err? || at + len.value > |b| then Err(Overrun)
      else Ok((name.value, b[at..at + len.value]), (at + len.value - 1) / 4 + 1)
  }

  /** The properties from pos on, a later one replacing an earlier one of the same name. */
  function ParseProps(b: Bytes, strs: Bytes, pos: nat, props: map<Bytes, Bytes>): (r: Result<map<Bytes, Bytes>>)
    ensures r.Ok? ==> r.next >= pos
    decreases |b| - 4 * pos
  {
    var t := SkipNops(b, pos);
    if t.Err? then Err(t.error)
    else if t.value != PROP then Ok(props, t.next)
    else
      var p := ParseProp(b, strs, t.next);
      if p.Err? then Err(p.error) else ParseProps(b, strs, p.next, props[p.value.0 := p.value.1])
  }

  function ParseNode(b: Bytes, strs: Bytes, pos: nat): (r: Result<Node>)
    ensures r.Ok? ==> r.next > pos
    decreases |b| - 4 * pos, 0
  {
    if 4 * pos >= |b| then Err(Overrun)
    else
      var t := SkipNops(b, pos);
      if t.Err? then Err(t.error)
      else if t.value != BEGIN_NODE then Err(NoNode)
      else
        var name := CString(b, 4 * (t.next + 1));
        if name.Err? then Err(Overrun)
        else
          var props := ParseProps(b, strs, (4 * (t.next + 1) + |name.value|) / 4 + 1, map[]);
          if props.Err? then Err(props.error)
          else
            var cs := ParseChildren(b, strs, props.next);
            if cs.Err? then Err(cs.error) else Ok(Node(name.value, props.value, cs.value), cs.next)
  }

  /** The children from pos on; whatever is neither a node nor a NOP ends the parent. */
  function ParseChildren(b: Bytes, strs: Bytes, pos: nat): (r: Result<seq<Node>>)
    ensures r.Ok? ==> r.next > pos
    decreases |b| - 4 * pos, 1
  {
    var t := Word(b, pos);
    if t.Err? then Err(t.error)
    else if t.value == NOP then ParseChildren(b, strs, pos + 1)
    else if t.value != BEGIN_NODE then Ok([], pos + 1)
    else
      var c := ParseNode(b, strs, pos);
      if c.Err? then Err(c.error)
      else
        var cs := ParseChildren(b, strs, c.next);
        Prepended([c.value], cs)
  }

  // ----- the code -----

  method Load(b: Bytes, strs: Bytes, start: nat) returns (r: Result<Node>)
    ensures r == ParseNode(b, strs, start)
    decreases |b| - 4 * start, 0
  {
    if 4 * start >= |b| { return Err(Overrun); }
    var t := Advance(b, start);
    if t.Err? { return Err(t.error); }
    if t.value != BEGIN_NODE { return Err(NoNode); }
    var pos := t.next + 1;
    var name := CString(b, 4 * pos);
    if name.Err? { return Err(Overrun); }
    pos := (4 * pos + |name.value|) / 4 + 1;
    var props := LoadProps(b, strs, pos);
    if props.Err? { return Err(props.error); }
    var children := LoadChildren(b, strs, props.next);
    if children.Err? { return Err(children.error); }
    return Ok(Node(name.value, props.value, children.value), children.next);
  }

  /** The loop over child nodes. */
  method LoadChildren(b: Bytes, strs: Bytes, start: nat) returns (r: Result<seq<Node>>)
    ensures r == ParseChildren(b, strs, start)
    decreases |b| - 4 * start, 1
  {
    var children: seq<Node> := [];
    var pos := start;
    var token := Word(b, pos);
    PrependNone(ParseChildren(b, strs, start));
    while true
      invariant pos >= start && token == Word(b, pos)
      invariant ParseChildren(b, strs, start) == Prepended(children, ParseChildren(b, strs, pos))
      decreases |b| - 4 * pos
    {
      if token.Err? { return Err(token.error); }
      if token.value == BEGIN_NODE {
        var c := Load(b, strs, pos);
        if c.Err? { return Err(c.error); }
        PrependOne(children, c.value, ParseChildren(b, strs, c.next));
        children := children + [c.value];
        pos := c.next;
      } else if token.value == NOP {
        pos := pos + 1;
      } else {
        break;
      }
      token := Word(b, pos);
    }
    assert children + [] == children;
    return Ok(children, pos + 1);
  }

  lemma PrependNone(r: Result<seq<Node>>)
    ensures Prepended([], r) == r
  {
    if r.Ok? { assert [] + r.value == r.value; }
  }

  lemma PrependOne(cs: seq<Node>, c: Node, r: Result<seq<Node>>)
    ensures Prepended(cs, Prepended([c], r)) == Prepended(cs + [c], r)
  {
    if r.Ok? { assert cs + ([c] + r.value) == cs + [c] + r.value; }
  }

  function Prepended(cs: seq<Node>, r: Result<seq<Node>>): Result<seq<Node>> {
    if r.Err? then r else Ok(cs + r.value, r.next)
  }

  method Advance(b: Bytes, start: nat) returns (t: Result<nat>)
    ensures t == SkipNops(b, start)
  {
    var pos := start;
    var w := Word(b, pos);
    while w.Ok? && w.value == NOP
      invariant w == Word(b, pos) && SkipNops(b, start) == SkipNops(b, pos)
      decreases |b| - 4 * pos
    {
      pos := pos + 1;
      w := Word(b, pos);
    }
    t := if w.Err? then Err(w.error) else Ok(w.value, pos);
  }

  method LoadProps(b: Bytes, strs: Bytes, start: nat) returns (r: Result<map<Bytes, Bytes>>)
    ensures r == ParseProps(b, strs, start, map[])
  {
    var props: map<Bytes, Bytes> := map[];
    ghost var from := start;
    var t := Advance(b, start);
    while t.Ok? && t.value == PROP
      invariant t == SkipNops(b, from) && ParseProps(b, strs, start, map[]) == ParseProps(b, strs, from, props)
      decreases |b| - 4 * from
    {
      var p := ParseProp(b, strs, t.next);
      if p.Err? { return Err(p.error); }
      props := props[p.value.0 := p.value.1];
      from := p.next;
      t := Advance(b, p.next);
    }
    r := if t.Err? then Err(t.error) else Ok(props, t.next);
  }

  // ----- the encoding -----

  /** A property: NOPs in front, the offset of its name in the strings block, its value. */
  datatype Property = Property(nops: nat, off: nat, value: Bytes)

  /** A tree to encode, with the NOPs in front of each node and of each end of a node. */
  datatype Source = Source(nops: nat, name: Bytes, props: seq<Property>, children: seq<Source>, last: nat)

  function Be(n: nat): (w: Bytes)
    ensures |w| == 4
  {
    [n / 0x100_0000 % 256, n / 0x1_0000 % 256, n / 256 % 256, n % 256]
  }

  lemma BeDecodes(n: nat)
    requires n < 0x1_0000_0000
    ensures BigEndian(Be(n)[0], Be(n)[1], Be(n)[2], Be(n)[3]) == n
  {
    assert n / 0x100_0000 % 256 == n / 256 / 256 / 256;
    assert n / 0x1_0000 % 256 == n / 256 / 256 % 256;
  }

  function Nops(n: nat): (w: Bytes)
    ensures |w| == 4 * n
  {
    if n == 0 then [] else Be(NOP) + Nops(n - 1)
  }

  /** Zeros up to the next whole word. */
  function Padded(s: Bytes): (w: Bytes)
    ensures |w| == (|s| + 3) / 4 * 4
    ensures |w| >= |s| && w[..|s|] == s
  {
    if |s| % 4 == 0 then s else if |s| % 4 == 1 then s + [0, 0, 0] else if |s| % 4 == 2 then s + [0, 0] else s + [0]
  }

  /** The words an encoding takes. */
  function PropSize(p: Property): nat { p.nops + 3 + (|p.value| + 3) / 4 }

  function PropsSize(ps: seq<Property>): nat {
    if ps == [] then 0 else PropSize(ps[0]) + PropsSize(ps[1..])
  }

  function NodeSize(s: Source): nat
    decreases s, 0
  {
    s.nops + 2 + |s.name| / 4 + PropsSize(s.props) + NodesSize(s.children) + s.last + 1
  }

  function NodesSize(cs: seq<Source>): nat
    decreases cs, 1
  {
    if cs == [] then 0 else NodeSize(cs[0]) + NodesSize(cs[1..])
  }

  function EncodeProp(p: Property): (w: Bytes)
    ensures |w| == 4 * PropSize(p)
  {
    Nops(p.nops) + Be(PROP) + Be(|p.value|) + Be(p.off) + Padded(p.value)
  }

  function EncodeProps(ps: seq<Property>): (w: Bytes)
    ensures |w| == 4 * PropsSize(ps)
  {
    if ps == [] then [] else EncodeProp(ps[0]) + EncodeProps(ps[1..])
  }

  /** BEGIN_NODE and the padded name. */
  function EncodeHead(s: Source): (w: Bytes)
    ensures |w| == 4 * (s.nops + 2 + |s.name| / 4)
  {
    Nops(s.nops) + Be(BEGIN_NODE) + Padded(s.name + [0])
  }

  function EncodeNode(s: Source): (w: Bytes)
    ensures |w| == 4 * NodeSize(s)
    decreases s, 0
  {
    EncodeHead(s) + EncodeProps(s.props) + EncodeNodes(s.children) + (Nops(s.last) + Be(END_NODE))
  }

  function EncodeNodes(cs: seq<Source>): (w: Bytes)
    ensures |w| == 4 * NodesSize(cs)
    decreases cs, 1
  {
    if cs == [] then [] else EncodeNode(cs[0]) + EncodeNodes(cs[1..])
  }

  /** Values and offsets fit a word; names hold no zero; the names of properties stand in the strings block. They
      may repeat: the last value of a name is the one kept. */
  predicate Encodable(s: Source, strs: Bytes)
    decreases s, 0
  {
    0 !in s.name && PropsEncodable(s.props, strs) && NodesEncodable(s.children, strs)
  }

  predicate NodesEncodable(cs: seq<Source>, strs: Bytes)
    decreases cs, 1
  {
    cs == [] || (Encodable(cs[0], strs) && NodesEncodable(cs[1..], strs))
  }

  predicate PropsEncodable(ps: seq<Property>, strs: Bytes) {
    ps == [] ||
    (&& |ps[0].value| < 0x1_0000_0000 && ps[0].off < 0x1_0000_0000 && CString(strs, ps[0].off).Ok?
     && PropsEncodable(ps[1..], strs))
  }

  function NameOf(p: Property, strs: Bytes): Bytes {
    if CString(strs, p.off).Ok? then CString(strs, p.off).value else []
  }

  /** The names of the properties. */
  function Names(ps: seq<Property>, strs: Bytes): set<Bytes> {
    if ps == [] then {} else {NameOf(ps[0], strs)} + Names(ps[1..], strs)
  }

  predicate DistinctNames(ps: seq<Property>, strs: Bytes) {
    ps == [] || (NameOf(ps[0], strs) !in Names(ps[1..], strs) && DistinctNames(ps[1..], strs))
  }

  /** The properties put one after another into a map. */
  function PropMap(ps: seq<Property>, strs: Bytes, m: map<Bytes, Bytes>): map<Bytes, Bytes> {
    if ps == [] then m else PropMap(ps[1..], strs, m[NameOf(ps[0], strs) := ps[0].value])
  }

  /** The tree a source describes. */
  function Tree(s: Source, strs: Bytes): Node
    decreases s, 0
  {
    Node(s.name, PropMap(s.props, strs, map[]), Trees(s.children, strs))
  }

  function Trees(cs: seq<Source>, strs: Bytes): seq<Node>
    decreases cs, 1
  {
    if cs == [] then [] else [Tree(cs[0], strs)] + Trees(cs[1..], strs)
  }

  /** With distinct names every property keeps its value, and there are no others. */
  lemma {:induction false} PropMapExact(ps: seq<Property>, strs: Bytes, m: map<Bytes, Bytes>)
    requires DistinctNames(ps, strs) && m.Keys !! Names(ps, strs)
    ensures PropMap(ps, strs, m).Keys == m.Keys + Names(ps, strs)
    ensures forall k :: k in m ==> PropMap(ps, strs, m)[k] == m[k]
    ensures forall i :: 0 <= i < |ps| ==>
              NameOf(ps[i], strs) in PropMap(ps, strs, m) && PropMap(ps, strs, m)[NameOf(ps[i], strs)] == ps[i].value
  {
    if ps != [] {
      var n := m[NameOf(ps[0], strs) := ps[0].value];
      PropMapExact(ps[1..], strs, n);
      assert forall i :: 0 < i < |ps| ==> ps[i] == ps[1..][i - 1];
      assert NameOf(ps[0], strs) in n;
    }
  }

  // ----- the round trip -----

  /** The bytes e stand at offset at. */
  predicate At(b: Bytes, at: nat, e: Bytes)
    decreases |e|
  {
    if e == [] then at <= |b| else at < |b| && b[at] == e[0] && At(b, at + 1, e[1..])
  }

  lemma {:induction false} AtParts(b: Bytes, at: nat, e: Bytes, f: Bytes)
    requires At(b, at, e + f)
    ensures At(b, at, e) && At(b, at + |e|, f)
    decreases |e|
  {
    if e == [] {
      assert e + f == f;
      AtBound(b, at, f);
    } else {
      assert (e + f)[1..] == e[1..] + f;
      AtParts(b, at + 1, e[1..], f);
    }
  }

  lemma {:induction false} AtBound(b: Bytes, at: nat, e: Bytes)
    requires At(b, at, e)
    ensures at + |e| <= |b|
    decreases |e|
  {
    if e != [] { AtBound(b, at + 1, e[1..]); }
  }

  lemma {:induction false} AtSlice(b: Bytes, at: nat, e: Bytes)
    requires At(b, at, e)
    ensures at + |e| <= |b| && b[at..at + |e|] == e
    decreases |e|
  {
    if e != [] { AtSlice(b, at + 1, e[1..]); }
  }

  lemma WordAt(b: Bytes, pos: nat, at: nat, n: nat)
    requires n < 0x1_0000_0000 && at == 4 * pos && At(b, at, Be(n))
    ensures Word(b, pos) == Ok(n, pos + 1)
  {
    BeDecodes(n);
    AtSlice(b, at, Be(n));
    var w := b[at..at + 4];
    assert b[at] == w[0] && b[at + 1] == w[1] && b[at + 2] == w[2] && b[at + 3] == w[3];
  }

  lemma NopSkipped(b: Bytes, pos: nat)
    requires Word(b, pos) == Ok(NOP, pos + 1)
    ensures SkipNops(b, pos) == SkipNops(b, pos + 1)
    ensures forall strs :: ParseChildren(b, strs, pos) == ParseChildren(b, strs, pos + 1)
  {
  }

  lemma {:induction false} NopsSkipped(b: Bytes, pos: nat, at: nat, n: nat, next: nat)
    requires at == 4 * pos && next == pos + n && At(b, at, Nops(n))
    ensures SkipNops(b, pos) == SkipNops(b, next)
    ensures forall strs :: ParseChildren(b, strs, pos) == ParseChildren(b, strs, next)
    decreases n
  {
    if n > 0 {
      PartsAt(b, at, Be(NOP), Nops(n - 1), at + 4);
      WordAt(b, pos, at, NOP);
      NopSkipped(b, pos);
      NopsSkipped(b, pos + 1, at + 4, n - 1, next);
    }
  }

  lemma {:induction false} CStringAt(b: Bytes, at: nat, s: Bytes)
    requires 0 !in s && At(b, at, s + [0])
    ensures CString(b, at) == Ok(s, at + |s|)
    decreases |s|
  {
    assert (s + [0])[0] == if s == [] then 0 else s[0];
    if s != [] {
      assert (s + [0])[1..] == s[1..] + [0];
      CStringAt(b, at + 1, s[1..]);
      assert [s[0]] + s[1..] == s;
    }
  }

  lemma PaddedAt(b: Bytes, at: nat, s: Bytes)
    requires At(b, at, Padded(s))
    ensures At(b, at, s)
  {
    assert Padded(s) == s + Padded(s)[|s|..];
    AtParts(b, at, s, Padded(s)[|s|..]);
  }

  /** The places of consecutive parts. */
  lemma PartsAt(b: Bytes, at: nat, e: Bytes, f: Bytes, x: nat)
    requires At(b, at, e + f) && x == at + |e|
    ensures At(b, at, e) && At(b, x, f)
  {
    AtParts(b, at, e, f);
  }

  lemma ThreePartsAt(b: Bytes, at: nat, e: Bytes, f: Bytes, g: Bytes, x: nat, y: nat)
    requires At(b, at, e + f + g) && x == at + |e| && y == x + |f|
    ensures At(b, at, e) && At(b, x, f) && At(b, y, g)
  {
    PartsAt(b, at, e + f, g, y);
    PartsAt(b, at, e, f, x);
  }

  lemma FourPartsAt(b: Bytes, at: nat, e: Bytes, f: Bytes, g: Bytes, h: Bytes, x: nat, y: nat, z: nat)
    requires At(b, at, e + f + g + h) && x == at + |e| && y == x + |f| && z == y + |g|
    ensures At(b, at, e) && At(b, x, f) && At(b, y, g) && At(b, z, h)
  {
    PartsAt(b, at, e + f + g, h, z);
    ThreePartsAt(b, at, e, f, g, x, y);
  }

  /** A property is read as it was encoded. */
  lemma PropParsed(b: Bytes, strs: Bytes, pos: nat, at: nat, p: Property, q: nat, next: nat)
    requires at == 4 * pos && q == pos + p.nops && next == pos + PropSize(p)
    requires At(b, at, EncodeProp(p)) && PropsEncodable([p], strs)
    ensures SkipNops(b, pos) == Ok(PROP, q) && ParseProp(b, strs, q) == Ok((NameOf(p, strs), p.value), next)
  {
    var x := 4 * q;
    PropPlaced(b, at, p, x);
    NopsSkipped(b, pos, at, p.nops, q);
    WordAt(b, q, x, PROP);
    WordAt(b, q + 1, x + 4, |p.value|);
    WordAt(b, q + 2, x + 8, p.off);
    PaddedAt(b, x + 12, p.value);
    PropRead(b, strs, q, x + 12, p, next);
  }

  lemma PropPlaced(b: Bytes, at: nat, p: Property, x: nat)
    requires At(b, at, EncodeProp(p)) && x == at + 4 * p.nops
    ensures At(b, at, Nops(p.nops)) && At(b, x, Be(PROP)) && At(b, x + 4, Be(|p.value|))
    ensures At(b, x + 8, Be(p.off)) && At(b, x + 12, Padded(p.value))
  {
    PartsAt(b, at, Nops(p.nops) + Be(PROP) + Be(|p.value|) + Be(p.off), Padded(p.value), x + 12);
    FourPartsAt(b, at, Nops(p.nops), Be(PROP), Be(|p.value|), Be(p.off), x, x + 4, x + 8);
  }

  lemma PropRead(b: Bytes, strs: Bytes, q: nat, at: nat, p: Property, next: nat)
    requires Word(b, q + 1) == Ok(|p.value|, q + 2) && Word(b, q + 2) == Ok(p.off, q + 3)
    requires at == 4 * (q + 3) && At(b, at, p.value) && CString(strs, p.off).Ok? && next == q + 3 + (|p.value| + 3) / 4
    ensures ParseProp(b, strs, q) == Ok((NameOf(p, strs), p.value), next)
  {
    AtSlice(b, at, p.value);
  }

  lemma PropsStep(b: Bytes, strs: Bytes, pos: nat, m: map<Bytes, Bytes>, at: nat, name: Bytes, value: Bytes, next: nat)
    requires SkipNops(b, pos) == Ok(PROP, at) && ParseProp(b, strs, at) == Ok((name, value), next)
    ensures ParseProps(b, strs, pos, m) == ParseProps(b, strs, next, m[name := value])
  {
  }

  lemma {:induction false} PropsParsed(b: Bytes, strs: Bytes, pos: nat, at: nat, ps: seq<Property>, m: map<Bytes, Bytes>, next: nat)
    requires at == 4 * pos && next == pos + PropsSize(ps) && At(b, at, EncodeProps(ps)) && PropsEncodable(ps, strs)
    ensures ParseProps(b, strs, pos, m) == ParseProps(b, strs, next, PropMap(ps, strs, m))
    decreases |ps|
  {
    if ps != [] {
      var p, mid := ps[0], pos + PropSize(ps[0]);
      PartsAt(b, at, EncodeProp(p), EncodeProps(ps[1..]), 4 * mid);
      PropParsed(b, strs, pos, at, p, pos + p.nops, mid);
      PropsStep(b, strs, pos, m, pos + p.nops, NameOf(p, strs), p.value, mid);
      PropsParsed(b, strs, mid, 4 * mid, ps[1..], m[NameOf(p, strs) := p.value], next);
    }
  }

  /** Where the parts of a node stand: its properties, its children, its end. */
  lemma NodePlaced(b: Bytes, pos: nat, at: nat, s: Source, p: nat, c: nat, e: nat)
    requires At(b, at, EncodeNode(s)) && p == at + 4 * (s.nops + 2 + |s.name| / 4)
    requires c == p + 4 * PropsSize(s.props) && e == c + 4 * NodesSize(s.children)
    ensures At(b, at, EncodeHead(s)) && At(b, p, EncodeProps(s.props)) && At(b, c, EncodeNodes(s.children))
    ensures At(b, e, Nops(s.last) + Be(END_NODE))
  {
    FourPartsAt(b, at, EncodeHead(s), EncodeProps(s.props), EncodeNodes(s.children), Nops(s.last) + Be(END_NODE), p, c, e);
  }

  /** The beginning of a node. */
  lemma HeadRead(b: Bytes, pos: nat, at: nat, s: Source, q: nat, x: nat)
    requires at == 4 * pos && At(b, at, EncodeHead(s)) && q == pos + s.nops && x == 4 * (q + 1)
    ensures SkipNops(b, pos) == Ok(BEGIN_NODE, q) && 4 * pos < |b| && At(b, x, s.name + [0])
    ensures forall strs :: ParseChildren(b, strs, pos) == ParseChildren(b, strs, q)
  {
    ThreePartsAt(b, at, Nops(s.nops), Be(BEGIN_NODE), Padded(s.name + [0]), 4 * q, x);
    NopsSkipped(b, pos, at, s.nops, q);
    WordAt(b, q, 4 * q, BEGIN_NODE);
    PaddedAt(b, x, s.name + [0]);
  }

  lemma NodeOpened(b: Bytes, pos: nat, at: nat, s: Source, n: nat, p: nat, c: nat, e: nat)
    requires at == 4 * pos && At(b, at, EncodeNode(s)) && 0 !in s.name
    requires n == at + 4 * (s.nops + 1) && p == n + 4 * (1 + |s.name| / 4)
    requires c == p + 4 * PropsSize(s.props) && e == c + 4 * NodesSize(s.children)
    ensures SkipNops(b, pos) == Ok(BEGIN_NODE, pos + s.nops) && 4 * pos < |b|
    ensures CString(b, n) == Ok(s.name, n + |s.name|) && At(b, p, EncodeProps(s.props))
    ensures At(b, c, EncodeNodes(s.children)) && At(b, e, Nops(s.last) + Be(END_NODE))
  {
    NodePlaced(b, pos, at, s, p, c, e);
    HeadRead(b, pos, at, s, pos + s.nops, n);
    CStringAt(b, n, s.name);
  }

  lemma NodeBegins(b: Bytes, pos: nat, at: nat, s: Source, q: nat)
    requires at == 4 * pos && At(b, at, EncodeNode(s)) && q == pos + s.nops
    ensures SkipNops(b, pos) == Ok(BEGIN_NODE, q)
    ensures forall strs :: ParseChildren(b, strs, pos) == ParseChildren(b, strs, q)
  {
    var rest := Nops(s.last) + Be(END_NODE);
    PartsAt(b, at, EncodeHead(s) + EncodeProps(s.props) + EncodeNodes(s.children), rest, at + 4 * NodeSize(s) - |rest|);
    ThreePartsAt(b, at, EncodeHead(s), EncodeProps(s.props), EncodeNodes(s.children), at + |EncodeHead(s)|,
                 at + |EncodeHead(s)| + |EncodeProps(s.props)|);
    HeadRead(b, pos, at, s, q, 4 * (q + 1));
  }

  /** Behind NOPs, the end of a node. */
  lemma EndParsed(b: Bytes, pos: nat, at: nat, n: nat, next: nat)
    requires at == 4 * pos && next == pos + n && At(b, at, Nops(n) + Be(END_NODE))
    ensures SkipNops(b, pos) == Ok(END_NODE, next)
    ensures forall strs :: ParseChildren(b, strs, pos) == Ok([], next + 1) && ParseChildren(b, strs, next) == Ok([], next + 1)
  {
    PartsAt(b, at, Nops(n), Be(END_NODE), 4 * next);
    NopsSkipped(b, pos, at, n, next);
    WordAt(b, next, 4 * next, END_NODE);
  }

  /** A node's properties end at its first child or its end. */
  lemma PropsEnd(b: Bytes, strs: Bytes, pos: nat, m: map<Bytes, Bytes>, cs: seq<Source>, last: nat, e: nat)
    requires e == pos + NodesSize(cs) && At(b, 4 * pos, EncodeNodes(cs)) && At(b, 4 * e, Nops(last) + Be(END_NODE))
    ensures var r := ParseProps(b, strs, pos, m);
            && r.Ok? && r.value == m && ParseChildren(b, strs, r.next) == ParseChildren(b, strs, pos)
  {
    if cs == [] {
      EndParsed(b, pos, 4 * pos, last, pos + last);
      StopsAt(b, strs, pos, m, END_NODE, pos + last);
    } else {
      var c := cs[0];
      PartsAt(b, 4 * pos, EncodeNode(c), EncodeNodes(cs[1..]), 4 * (pos + NodeSize(c)));
      NodeBegins(b, pos, 4 * pos, c, pos + c.nops);
      StopsAt(b, strs, pos, m, BEGIN_NODE, pos + c.nops);
    }
  }

  lemma StopsAt(b: Bytes, strs: Bytes, pos: nat, m: map<Bytes, Bytes>, token: nat, next: nat)
    requires SkipNops(b, pos) == Ok(token, next) && token != PROP
    ensures ParseProps(b, strs, pos, m) == Ok(m, next)
  {
  }

  lemma PropsRead(b: Bytes, strs: Bytes, p: nat, s: Source, m: map<Bytes, Bytes>, c: nat, e: nat)
    requires c == p + PropsSize(s.props) && e == c + NodesSize(s.children) && PropsEncodable(s.props, strs)
    requires At(b, 4 * p, EncodeProps(s.props)) && At(b, 4 * c, EncodeNodes(s.children)) && At(b, 4 * e, Nops(s.last) + Be(END_NODE))
    requires m == PropMap(s.props, strs, map[])
    ensures var r := ParseProps(b, strs, p, map[]);
            && r.Ok? && r.value == m && ParseChildren(b, strs, r.next) == ParseChildren(b, strs, c)
  {
    PropsParsed(b, strs, p, 4 * p, s.props, map[], c);
    PropsEnd(b, strs, c, m, s.children, s.last, e);
  }

  /** Everything of a node up to its children. */
  lemma NodeRead(b: Bytes, strs: Bytes, pos: nat, at: nat, s: Source, n: nat, p: nat, c: nat, e: nat, m: map<Bytes, Bytes>)
    requires at == 4 * pos && At(b, at, EncodeNode(s)) && 0 !in s.name && PropsEncodable(s.props, strs)
    requires n == pos + s.nops + 1 && p == n + 1 + |s.name| / 4 && c == p + PropsSize(s.props) && e == c + NodesSize(s.children)
    requires m == PropMap(s.props, strs, map[])
    ensures At(b, 4 * c, EncodeNodes(s.children)) && At(b, 4 * e, Nops(s.last) + Be(END_NODE))
    ensures forall cs, next :: ParseChildren(b, strs, c) == Ok(cs, next) ==> ParseNode(b, strs, pos) == Ok(Node(s.name, m, cs), next)
  {
    NodeOpened(b, pos, at, s, 4 * n, 4 * p, 4 * c, 4 * e);
    PropsRead(b, strs, p, s, m, c, e);
    forall cs, next | ParseChildren(b, strs, c) == Ok(cs, next) ensures ParseNode(b, strs, pos) == Ok(Node(s.name, m, cs), next) {
      Assembled(b, strs, pos, s, n, p, m, cs, next);
    }
  }

  /** Parsing inverts the encoding: it yields the names, the properties and the children in order, and ends just
      behind the matching END_NODE, wherever NOPs stand. */
  lemma {:induction false} NodeParsed(b: Bytes, strs: Bytes, pos: nat, at: nat, s: Source, next: nat)
    requires at == 4 * pos && next == pos + NodeSize(s) && At(b, at, EncodeNode(s)) && Encodable(s, strs)
    ensures ParseNode(b, strs, pos) == Ok(Tree(s, strs), next)
    decreases s, 0
  {
    var n := pos + s.nops + 1;
    var p := n + 1 + |s.name| / 4;
    var c := p + PropsSize(s.props);
    var e := c + NodesSize(s.children);
    NodeRead(b, strs, pos, at, s, n, p, c, e, PropMap(s.props, strs, map[]));
    NodesParsed(b, strs, c, 4 * c, s.children, s.last, e, next);
  }

  lemma Assembled(b: Bytes, strs: Bytes, pos: nat, s: Source, n: nat, p: nat, m: map<Bytes, Bytes>, cs: seq<Node>, next: nat)
    requires 4 * pos < |b| && n > 0 && SkipNops(b, pos) == Ok(BEGIN_NODE, n - 1) && p == n + 1 + |s.name| / 4
    requires CString(b, 4 * n) == Ok(s.name, 4 * n + |s.name|)
    requires ParseProps(b, strs, p, map[]).Ok? && ParseProps(b, strs, p, map[]).value == m
    requires ParseChildren(b, strs, ParseProps(b, strs, p, map[]).next) == Ok(cs, next)
    ensures ParseNode(b, strs, pos) == Ok(Node(s.name, m, cs), next)
  {
  }

  lemma {:induction false} NodesParsed(b: Bytes, strs: Bytes, pos: nat, at: nat, cs: seq<Source>, last: nat, e: nat, next: nat)
    requires at == 4 * pos && e == pos + NodesSize(cs) && next == e + last + 1
    requires At(b, at, EncodeNodes(cs)) && At(b, 4 * e, Nops(last) + Be(END_NODE)) && NodesEncodable(cs, strs)
    ensures ParseChildren(b, strs, pos) == Ok(Trees(cs, strs), next)
    decreases cs, 1
  {
    if cs == [] {
      EndParsed(b, pos, 4 * pos, last, pos + last);
    } else {
      var c := cs[0];
      var q, mid := pos + c.nops, pos + NodeSize(c);
      PartsAt(b, at, EncodeNode(c), EncodeNodes(cs[1..]), 4 * mid);
      NodeBegins(b, pos, at, c, q);
      NodeParsed(b, strs, pos, at, c, mid);
      NodesParsed(b, strs, mid, 4 * mid, cs[1..], last, e, next);
      LateStart(b, strs, pos, q);
      NodesStep(b, strs, q, Tree(c, strs), mid, Trees(cs[1..], strs), next);
    }
  }

  lemma NodesStep(b: Bytes, strs: Bytes, pos: nat, c: Node, mid: nat, cs: seq<Node>, next: nat)
    requires Word(b, pos) == Ok(BEGIN_NODE, pos + 1) && ParseNode(b, strs, pos) == Ok(c, mid)
    requires ParseChildren(b, strs, mid) == Ok(cs, next)
    ensures ParseChildren(b, strs, pos) == Ok([c] + cs, next)
  {
  }

  /** NOPs in front of a node belong to it or to its parent alike. */
  lemma LateStart(b: Bytes, strs: Bytes, pos: nat, q: nat)
    requires SkipNops(b, pos) == Ok(BEGIN_NODE, q)
    ensures ParseNode(b, strs, pos) == ParseNode(b, strs, q)
  {
    assert Word(b, q) == Ok(BEGIN_NODE, q + 1);
    assert SkipNops(b, q) == Ok(BEGIN_NODE, q);
  }

  /** A devicetree blob holding the encoding of a tree at its start is loaded as that tree. */
  lemma LoadsEncoded(s: Source, strs: Bytes, rest: Bytes)
    requires Encodable(s, strs)
    ensures ParseNode(EncodeNode(s) + rest, strs, 0) == Ok(Tree(s, strs), NodeSize(s))
  {
    Begins(EncodeNode(s), rest, 0);
    NodeParsed(EncodeNode(s) + rest, strs, 0, 0, s, NodeSize(s));
  }

  lemma {:induction false} Begins(e: Bytes, rest: Bytes, at: nat)
    requires at <= |e|
    ensures At(e + rest, at, e[at..])
    decreases |e| - at
  {
    if at < |e| {
      Begins(e, rest, at + 1);
      assert e[at..][1..] == e[at + 1..];
    } else {
      assert e[at..] == [];
    }
  }

  // ----- traversal -----

  function Preorder(n: Node): seq<Node>
    decreases n, 0
  {
    [n] + Preorders(n.children)
  }

  function Preorders(cs: seq<Node>): seq<Node>
    decreases cs, 1
  {
    if cs == [] then [] else Preorder(cs[0]) + Preorders(cs[1..])
  }

  /** A path of child positions leads to a node. */
  predicate Leads(cs: seq<Node>, path: seq<nat>)
    decreases |path|
  {
    path != [] && path[0] < |cs| && (|path| > 1 ==> Leads(cs[path[0]].children, path[1..]))
  }

  function NodeAt(cs: seq<Node>, path: seq<nat>): Node
    requires Leads(cs, path)
    decreases |path|
  {
    if |path| == 1 then cs[path[0]] else NodeAt(cs[path[0]].children, path[1..])
  }

  /** The order of a document: a node comes before those below it, and all of an earlier branch before a later one. */
  predicate Earlier(p: seq<nat>, q: seq<nat>)
    decreases |p|
  {
    && p != [] && q != []
    && (p[0] < q[0] || (p[0] == q[0] && |q| > 1 && (|p| == 1 || Earlier(p[1..], q[1..]))))
  }

  /** Where the node of a path stands in the traversal. */
  function Rank(cs: seq<Node>, path: seq<nat>): nat
    requires Leads(cs, path)
    decreases |path|
  {
    |Preorders(cs[..path[0]])| + if |path| == 1 then 0 else 1 + Rank(cs[path[0]].children, path[1..])
  }

  lemma {:induction false} PreordersAppend(ms: seq<Node>, ns: seq<Node>)
    ensures Preorders(ms + ns) == Preorders(ms) + Preorders(ns)
  {
    if ms == [] {
      assert ms + ns == ns;
    } else {
      assert (ms + ns)[1..] == ms[1..] + ns;
      PreordersAppend(ms[1..], ns);
    }
  }

  lemma PreordersFirst(ns: seq<Node>)
    requires ns != []
    ensures Preorders(ns) == ([ns[0]] + Preorders(ns[0].children)) + Preorders(ns[1..])
  {
  }

  lemma PreordersSplit(cs: seq<Node>, i: nat)
    requires i < |cs|
    ensures Preorders(cs) == Preorders(cs[..i]) + (([cs[i]] + Preorders(cs[i].children)) + Preorders(cs[i + 1..]))
  {
    var front, back := cs[..i], cs[i..];
    assert cs == front + back && back[0] == cs[i] && back[1..] == cs[i + 1..];
    PreordersAppend(front, back);
    PreordersFirst(back);
  }

  lemma {:induction false} StandsAt(cs: seq<Node>, path: seq<nat>)
    requires Leads(cs, path)
    ensures Rank(cs, path) < |Preorders(cs[..path[0] + 1])| <= |Preorders(cs)| && Preorders(cs)[Rank(cs, path)] == NodeAt(cs, path)
    decreases |path|
  {
    var i := path[0];
    PreordersSplit(cs, i);
    PreordersSplit(cs[..i + 1], i);
    assert cs[..i + 1][..i] == cs[..i];
    if |path| > 1 { StandsAt(cs[i].children, path[1..]); }
  }

  lemma {:induction false} RanksFollow(cs: seq<Node>, p: seq<nat>, q: seq<nat>)
    requires Leads(cs, p) && Leads(cs, q) && Earlier(p, q)
    ensures Rank(cs, p) < Rank(cs, q)
    decreases |p|
  {
    if p[0] < q[0] {
      StandsAt(cs, p);
      PreordersAppend(cs[..p[0] + 1], cs[..q[0]][p[0] + 1..]);
      assert cs[..p[0] + 1] + cs[..q[0]][p[0] + 1..] == cs[..q[0]];
    } else if |p| > 1 {
      RanksFollow(cs[p[0]].children, p[1..], q[1..]);
    }
  }

  lemma {:induction false} RankReached(cs: seq<Node>, i: nat) returns (path: seq<nat>)
    requires i < |Preorders(cs)|
    ensures Leads(cs, path) && Rank(cs, path) == i
    decreases cs
  {
    var below := Preorders(cs[0].children);
    if i == 0 {
      path := [0];
    } else if i <= |below| {
      var rest := RankReached(cs[0].children, i - 1);
      path := [0] + rest;
      assert path[1..] == rest;
    } else {
      var rest := RankReached(cs[1..], i - 1 - |below|);
      path := [rest[0] + 1] + rest[1..];
      assert path[1..] == rest[1..];
      PreordersAppend([cs[0]], cs[1..][..rest[0]]);
      assert cs[..path[0]] == [cs[0]] + cs[1..][..rest[0]];
      assert Preorders([cs[0]]) == [cs[0]] + below + [];
    }
  }

  /** Some path leads to the node that stands at i. */
  ghost predicate Reached(cs: seq<Node>, i: nat) {
    exists p :: Leads(cs, p) && Rank(cs, p) == i
  }

  /** A traversal meets every node exactly once, in the order of the document. */
  lemma InDocumentOrder(cs: seq<Node>)
    ensures forall p :: Leads(cs, p) ==> Rank(cs, p) < |Preorders(cs)| && Preorders(cs)[Rank(cs, p)] == NodeAt(cs, p)
    ensures forall p, q :: Leads(cs, p) && Leads(cs, q) && Earlier(p, q) ==> Rank(cs, p) < Rank(cs, q)
    ensures forall i :: 0 <= i < |Preorders(cs)| ==> Reached(cs, i)
  {
    forall p | Leads(cs, p) ensures Rank(cs, p) < |Preorders(cs)| && Preorders(cs)[Rank(cs, p)] == NodeAt(cs, p) { StandsAt(cs, p); }
    forall p, q | Leads(cs, p) && Leads(cs, q) && Earlier(p, q) ensures Rank(cs, p) < Rank(cs, q) { RanksFollow(cs, p, q); }
    forall i | 0 <= i < |Preorders(cs)| ensures Reached(cs, i) {
      var p := RankReached(cs, i);
      assert Leads(cs, p) && Rank(cs, p) == i;
    }
  }

  function Matching(ns: seq<Node>, pred: Node -> bool): seq<Node> {
    if ns == [] then [] else (if pred(ns[0]) then [ns[0]] else []) + Matching(ns[1..], pred)
  }

  /** The nodes up to and including the first on which the callback fails. */
  function UpToError(ns: seq<Node>, succeeds: Node -> bool): seq<Node> {
    if ns == [] then [] else if !succeeds(ns[0]) then [ns[0]] else [ns[0]] + UpToError(ns[1..], succeeds)
  }

  predicate AllSucceed(ns: seq<Node>, succeeds: Node -> bool) {
    ns == [] || (succeeds(ns[0]) && AllSucceed(ns[1..], succeeds))
  }

  lemma {:induction false} MatchingAppend(ms: seq<Node>, ns: seq<Node>, pred: Node -> bool)
    ensures Matching(ms + ns, pred) == Matching(ms, pred) + Matching(ns, pred)
  {
    if ms == [] {
      assert ms + ns == ns;
    } else {
      assert (ms + ns)[1..] == ms[1..] + ns;
      MatchingAppend(ms[1..], ns, pred);
    }
  }

  lemma {:induction false} ErrorAppend(ms: seq<Node>, ns: seq<Node>, succeeds: Node -> bool)
    ensures AllSucceed(ms, succeeds) ==> UpToError(ms + ns, succeeds) == ms + UpToError(ns, succeeds)
    ensures AllSucceed(ms, succeeds) ==> (AllSucceed(ms + ns, succeeds) <==> AllSucceed(ns, succeeds))
    ensures !AllSucceed(ms, succeeds) ==> UpToError(ms + ns, succeeds) == UpToError(ms, succeeds) && !AllSucceed(ms + ns, succeeds)
  {
    if ms == [] {
      assert ms + ns == ns;
    } else {
      assert (ms + ns)[1..] == ms[1..] + ns;
      ErrorAppend(ms[1..], ns, succeeds);
    }
  }

  /** What a traversal of some nodes calls back, and whether it succeeds. */
  function Visits(cs: seq<Node>, pred: Node -> bool): seq<Node> {
    Matching(Preorders(cs), pred)
  }

  lemma VisitsFirst(cs: seq<Node>, pred: Node -> bool)
    requires cs != []
    ensures Visits(cs, pred) == (if pred(cs[0]) then [cs[0]] else []) + (Visits(cs[0].children, pred) + Visits(cs[1..], pred))
  {
    var head := if pred(cs[0]) then [cs[0]] else [];
    assert Preorders(cs) == [cs[0]] + (Preorders(cs[0].children) + Preorders(cs[1..]));
    MatchingAppend([cs[0]], Preorders(cs[0].children) + Preorders(cs[1..]), pred);
    MatchingAppend(Preorders(cs[0].children), Preorders(cs[1..]), pred);
    assert Matching([cs[0]], pred) == head + [];
  }

  /** The calls for one node and the nodes below it, and whether they all succeed. */
  function Calls(c: Node, pred: Node -> bool, succeeds: Node -> bool): seq<Node> {
    if pred(c) && !succeeds(c) then [c]
    else (if pred(c) then [c] else []) + UpToError(Visits(c.children, pred), succeeds)
  }

  predicate Passes(c: Node, pred: Node -> bool, succeeds: Node -> bool) {
    (pred(c) ==> succeeds(c)) && AllSucceed(Visits(c.children, pred), succeeds)
  }

  lemma VisitStep(cs: seq<Node>, pred: Node -> bool, succeeds: Node -> bool)
    requires cs != []
    ensures var v, rest := Visits(cs, pred), Visits(cs[1..], pred);
            && AllSucceed(v, succeeds) == (Passes(cs[0], pred, succeeds) && AllSucceed(rest, succeeds))
            && UpToError(v, succeeds) == Calls(cs[0], pred, succeeds)
                                         + if Passes(cs[0], pred, succeeds) then UpToError(rest, succeeds) else []
  {
    var below, rest := Visits(cs[0].children, pred), Visits(cs[1..], pred);
    var head := if pred(cs[0]) then [cs[0]] else [];
    VisitsFirst(cs, pred);
    ErrorAppend(head, below + rest, succeeds);
    ErrorAppend(below, rest, succeeds);
    if AllSucceed(below, succeeds) { AllCalled(below, succeeds); }
    if head != [] {
      assert head[1..] == [];
      assert UpToError(head, succeeds) == head;
    }
    Associate(head, below, UpToError(rest, succeeds));
  }

  lemma Associate(a: seq<Node>, b: seq<Node>, c: seq<Node>)
    ensures a + (b + c) == a + b + c
  {
  }

  method Visit(c: Node, pred: Node -> bool, succeeds: Node -> bool) returns (called: seq<Node>, ok: bool)
    ensures called == Calls(c, pred, succeeds) && ok == Passes(c, pred, succeeds)
    decreases c, 1
  {
    called := [];
    if pred(c) {
      called := [c];
      if !succeeds(c) { return called, false; }
    }
    var sub, good := Iterate(c.children, pred, succeeds);
    return called + sub, good;
  }

  /** The calls made so far, and those still to come from position i on. */
  ghost predicate Pending(cs: seq<Node>, i: nat, called: seq<Node>, pred: Node -> bool, succeeds: Node -> bool) {
    && i <= |cs|
    && UpToError(Visits(cs, pred), succeeds) == called + UpToError(Visits(cs[i..], pred), succeeds)
    && AllSucceed(Visits(cs, pred), succeeds) == AllSucceed(Visits(cs[i..], pred), succeeds)
  }

  lemma IterateStep(cs: seq<Node>, i: nat, called: seq<Node>, pred: Node -> bool, succeeds: Node -> bool)
    requires Pending(cs, i, called, pred, succeeds) && i < |cs|
    ensures var after := called + Calls(cs[i], pred, succeeds);
            if Passes(cs[i], pred, succeeds) then Pending(cs, i + 1, after, pred, succeeds)
            else UpToError(Visits(cs, pred), succeeds) == after && !AllSucceed(Visits(cs, pred), succeeds)
  {
    VisitStep(cs[i..], pred, succeeds);
    assert cs[i..][1..] == cs[i + 1..];
    Associate(called, Calls(cs[i], pred, succeeds), UpToError(Visits(cs[i + 1..], pred), succeeds));
    assert Calls(cs[i], pred, succeeds) + [] == Calls(cs[i], pred, succeeds);
  }

  lemma IterateEnds(cs: seq<Node>, called: seq<Node>, pred: Node -> bool, succeeds: Node -> bool)
    ensures Pending(cs, |cs|, called, pred, succeeds) ==>
              UpToError(Visits(cs, pred), succeeds) == called && AllSucceed(Visits(cs, pred), succeeds)
    ensures Pending(cs, 0, [], pred, succeeds)
  {
    assert cs[|cs|..] == [] && cs[0..] == cs;
    assert called + [] == called && [] + UpToError(Visits(cs, pred), succeeds) == UpToError(Visits(cs, pred), succeeds);
  }

  /** dt_iter calls back exactly the matching nodes, in preorder, up to the first error. */
  method Iterate(cs: seq<Node>, pred: Node -> bool, succeeds: Node -> bool) returns (called: seq<Node>, ok: bool)
    ensures called == UpToError(Visits(cs, pred), succeeds) && ok == AllSucceed(Visits(cs, pred), succeeds)
    decreases cs, 0
  {
    called, ok := [], true;
    var i := 0;
    IterateEnds(cs, called, pred, succeeds);
    while i < |cs|
      invariant Pending(cs, i, called, pred, succeeds)
    {
      IterateStep(cs, i, called, pred, succeeds);
      var sub, good := Visit(cs[i], pred, succeeds);
      called := called + sub;
      if !good { return called, false; }
      i := i + 1;
    }
    IterateEnds(cs, called, pred, succeeds);
  }

  lemma {:induction false} AllCalled(ns: seq<Node>, succeeds: Node -> bool)
    requires AllSucceed(ns, succeeds)
    ensures UpToError(ns, succeeds) == ns
  {
    if ns != [] { AllCalled(ns[1..], succeeds); }
  }
}
