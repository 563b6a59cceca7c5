/** Configuration strings: what scripts/python/sysconf.py prints for a system description, and what the boot
    argument parsers of the kernel make of it. */
module BootConf {

  const NUL: char := '\0'

  /** A configured value: a word, a number, or the ports of a channel. */
  datatype Value = Word(word: string) | Num(num: int) | Ports(ports: seq<string>)

  type Record = seq<(string, Value)>

  datatype Result<T> = Ok(value: T) | Err

  predicate Separator(c: char) { c == ';' || c == ',' || c == '=' }

  /** Text that survives in a configuration string: no separator, no end of string. */
  predicate Plain(s: string) {
    forall i :: 0 <= i < |s| ==> !Separator(s[i]) && s[i] != NUL
  }

  predicate PortName(s: string) {
    Plain(s) && forall i :: 0 <= i < |s| ==> s[i] != '&'
  }

  // ----- numbers -----

  function Digit(n: nat): char
    requires n < 10
  {
    ['0', '1', '2', '3', '4', '5', '6', '7', '8', '9'][n]
  }

  /** Decimal notation, without a sign. */
  function Digits(n: nat): (s: string)
    ensures |s| > 0
  {
    if n < 10 then [Digit(n)] else Digits(n / 10) + [Digit(n % 10)]
  }

  /** str(n). */
  function Decimal(n: int): string {
    if n < 0 then "-" + Digits(-n) else Digits(n)
  }

  /** The value of a digit character, as *str - '0'. */
  function Char(c: char): int { c as int - '0' as int }

  /** The accumulating loop of strtol over the digits. */
  function Accumulate(s: string, acc: int): int
    decreases |s|
  {
    if s == [] then acc else Accumulate(s[1..], acc * 10 + Char(s[0]))
  }

  /** strtol: any number of signs, each minus flipping the sign, then the digits unchecked. */
  function Strtol(s: string): int
    decreases |s|
  {
    if s != [] && s[0] == '-' then -Strtol(s[1..])
    else if s != [] && s[0] == '+' then Strtol(s[1..])
    else Accumulate(s, 0)
  }

  /** The cast to a 32-bit int. */
  function ToInt(n: int): int { (n + 0x8000_0000) % 0x1_0000_0000 - 0x8000_0000 }

  function Atoi(s: string): int { ToInt(Strtol(s)) }

  predicate IntRange(n: int) { -0x8000_0000 <= n < 0x8000_0000 }

  lemma DigitChar(n: nat)
    requires n < 10
    ensures Char(Digit(n)) == n && Digit(n) != '-' && Digit(n) != '+' && Plain([Digit(n)])
  {
  }

  lemma {:induction false} AccumulateAppend(s: string, c: char, acc: int)
    ensures Accumulate(s + [c], acc) == Accumulate(s, acc) * 10 + Char(c)
    decreases |s|
  {
    if s == [] {
      assert s + [c] == [c];
      assert [c][1..] == [];
    } else {
      assert (s + [c])[1..] == s[1..] + [c];
      AccumulateAppend(s[1..], c, acc * 10 + Char(s[0]));
    }
  }

  lemma {:induction false} DigitsRead(n: nat)
    ensures Accumulate(Digits(n), 0) == n && Plain(Digits(n))
    ensures Digits(n)[0] != '-' && Digits(n)[0] != '+'
  {
    DigitChar(n % 10);
    if n < 10 {
      DigitChar(n);
      assert [Digit(n)][1..] == [];
    } else {
      DigitsRead(n / 10);
      AccumulateAppend(Digits(n / 10), Digit(n % 10), 0);
    }
  }

  /** The kernel reads back every decimal number that fits an int, and only those. */
  lemma AtoiDecimal(n: int)
    ensures Atoi(Decimal(n)) == n <==> IntRange(n)
    ensures Plain(Decimal(n))
  {
    if n < 0 {
      DigitsRead(-n);
      assert Decimal(n)[1..] == Digits(-n);
      assert Strtol(Digits(-n)) == -n;
    } else {
      DigitsRead(n);
    }
    assert Strtol(Decimal(n)) == n;
    assert 0 <= (n + 0x8000_0000) % 0x1_0000_0000 < 0x1_0000_0000;
  }

  // ----- splitting and joining -----

  /** The pieces of s between characters that cut it. */
  function Split(s: string, cut: char -> bool): (ts: seq<string>)
    ensures |ts| > 0
  {
    if s == [] then [[]]
    else
      var ts := Split(s[1..], cut);
      if cut(s[0]) then [[]] + ts else [[s[0]] + ts[0]] + ts[1..]
  }

  /** sep.join(ts). */
  function Join(ts: seq<string>, sep: char): string {
    if ts == [] then [] else if |ts| == 1 then ts[0] else ts[0] + [sep] + Join(ts[1..], sep)
  }

  predicate Uncut(s: string, cut: char -> bool) {
    forall i :: 0 <= i < |s| ==> !cut(s[i])
  }

  lemma {:induction false} SplitUncut(s: string, cut: char -> bool)
    requires Uncut(s, cut)
    ensures Split(s, cut) == [s]
  {
    if s != [] {
      SplitUncut(s[1..], cut);
      assert [s[0]] + s[1..] == s;
    }
  }

  /** A cut between two texts separates their pieces. */
  lemma {:induction false} SplitAppend(a: string, c: char, b: string, cut: char -> bool)
    requires cut(c)
    ensures Split(a + [c] + b, cut) == Split(a, cut) + Split(b, cut)
    decreases |a|
  {
    var s := a + [c] + b;
    if a == [] {
      assert s[0] == c && s[1..] == b;
    } else {
      assert s[1..] == a[1..] + [c] + b && s[0] == a[0];
      SplitAppend(a[1..], c, b, cut);
    }
  }

  predicate IsAmp(c: char) { c == '&' }

  /** The port list of a channel survives if and only if it is not empty: joining no ports yields the empty text,
      which the parser takes for one port without a name. */
  lemma PortsRoundTrip(ps: seq<string>)
    requires forall i :: 0 <= i < |ps| ==> PortName(ps[i])
    ensures Split(Join(ps, '&'), IsAmp) == ps <==> ps != []
  {
    if ps != [] { PortsSplit(ps); }
  }

  lemma {:induction false} PortsSplit(ps: seq<string>)
    requires ps != [] && forall i :: 0 <= i < |ps| ==> PortName(ps[i])
    ensures Split(Join(ps, '&'), IsAmp) == ps
  {
    SplitUncut(ps[0], IsAmp);
    if |ps| > 1 {
      PortsSplit(ps[1..]);
      SplitAppend(ps[0], '&', Join(ps[1..], '&'), IsAmp);
    }
  }

  // ----- the encoder -----

  /** encode_item. */
  function EncodeValue(v: Value): string {
    match v
    case Word(w) => w
    case Num(n) => Decimal(n)
    case Ports(ps) => Join(ps, '&')
  }

  function EncodeItem(item: (string, Value)): string {
    item.0 + ['='] + EncodeValue(item.1)
  }

  function EncodeItems(r: Record): seq<string> {
    if r == [] then [] else [EncodeItem(r[0])] + EncodeItems(r[1..])
  }

  function EncodeRecords(rs: seq<Record>): seq<string> {
    if rs == [] then [] else [Join(EncodeItems(rs[0]), ',')] + EncodeRecords(rs[1..])
  }

  /** One section of encode_conf. */
  function Encode(rs: seq<Record>): string {
    Join(EncodeRecords(rs), ';')
  }

  // ----- the parsers -----

  /** The sections differ in the keys they expect of each record. */
  datatype Section = Partitions | Scheduler | QueuingPorts | Channels

  function Expected(s: Section): set<string> {
    match s
    case Partitions => {"name", "prog", "memory", "period", "duration"}
    case Scheduler => {"part", "offset", "duration"}
    case QueuingPorts => {"name", "part", "direction", "max-msg-size", "max-nb-msg"}
    case Channels => {"media", "type", "ports"}
  }

  /** How many items a record must bring. */
  function Items(s: Section): nat {
    if s == Partitions || s == QueuingPorts then 5 else 3
  }

  predicate Numeric(key: string) {
    key == "memory" || key == "period" || key == "duration" || key == "offset" || key == "max-msg-size" || key == "max-nb-msg"
  }

  /** What a parser stores for a value, or its refusal. */
  function ReadValue(key: string, raw: string): Result<Value> {
    if Numeric(key) then (if key == "memory" && Atoi(raw) == 0 then Err else Ok(Num(Atoi(raw))))
    else if key == "ports" then Ok(Ports(Split(raw, IsAmp)))
    else if key == "direction" && raw != "src" && raw != "dst" then Err
    else if key == "media" && raw != "memory" then Err
    else if key == "type" && raw != "queuing" && raw != "sampling" then Err
    else Ok(Word(raw))
  }

  /** Where a parser goes on behind an item. Cutting the ports apart puts ends of strings into the value, and the
      parser goes on behind the first of them: at the second port, not at the next key. */
  function Rest(ts: seq<string>): seq<string>
    requires |ts| >= 2
  {
    (if ts[0] == "ports" then Split(ts[1], IsAmp)[1..] else []) + ts[2..]
  }

  /** Reading n more items of a record from the tokens, which alternate between keys and values. A read past the last
      token is an error, too, though the code would go on in foreign memory. */
  function ReadItems(sec: Section, ts: seq<string>, n: nat, got: map<string, Value>): Result<(map<string, Value>, seq<string>)>
    decreases n
  {
    if n == 0 then Ok((got, ts))
    else if |ts| < 2 || ts[0] !in Expected(sec) then Err
    else
      var v := ReadValue(ts[0], ts[1]);
      if v.Err? then Err else ReadItems(sec, Rest(ts), n - 1, got[ts[0] := v.value])
  }

  function ReadRecords(sec: Section, ts: seq<string>, count: nat): Result<seq<map<string, Value>>>
    decreases count
  {
    if count == 0 then Ok([])
    else
      var r := ReadItems(sec, ts, Items(sec), map[]);
      if r.Err? then Err
      else
        var rest := ReadRecords(sec, r.value.1, count - 1);
        Behind([r.value.0], rest)
  }

  predicate IsSemi(c: char) { c == ';' }

  /** As many records as there are semicolons, and one more. */
  function Parse(sec: Section, text: string): Result<seq<map<string, Value>>> {
    ReadRecords(sec, Split(text, Separator), |Split(text, IsSemi)|)
  }

  // ----- the round trip -----

  /** A value that its parser can take: plain words, numbers within int, memory not zero, at least one port. */
  predicate Fits(key: string, v: Value) {
    match v
    case Word(w) =>
      && !Numeric(key) && key != "ports" && Plain(w)
      && (key == "direction" ==> w == "src" || w == "dst")
      && (key == "media" ==> w == "memory")
      && (key == "type" ==> w == "queuing" || w == "sampling")
    case Num(n) => Numeric(key) && IntRange(n) && (key == "memory" ==> n != 0)
    case Ports(ps) => key == "ports" && ps != [] && forall i :: 0 <= i < |ps| ==> PortName(ps[i])
  }

  function Keys(r: Record): set<string> {
    if r == [] then {} else {r[0].0} + Keys(r[1..])
  }

  predicate ItemsFit(sec: Section, r: Record) {
    r == [] || (r[0].0 in Expected(sec) && Fits(r[0].0, r[0].1) && r[0].0 !in Keys(r[1..]) && ItemsFit(sec, r[1..]))
  }

  /** A record with exactly the expected keys, in any order. */
  predicate WellFormed(sec: Section, r: Record) {
    ItemsFit(sec, r) && Keys(r) == Expected(sec)
  }

  function AsMap(r: Record, got: map<string, Value>): map<string, Value> {
    if r == [] then got else AsMap(r[1..], got[r[0].0 := r[0].1])
  }

  /** The keys and values of a record, as its parser meets them. */
  function Tokens(r: Record): seq<string> {
    if r == [] then [] else [r[0].0, EncodeValue(r[0].1)] + Tokens(r[1..])
  }

  function AllTokens(rs: seq<Record>): seq<string> {
    if rs == [] then [] else Tokens(rs[0]) + AllTokens(rs[1..])
  }

  predicate AllWellFormed(sec: Section, rs: seq<Record>) {
    rs == [] || (WellFormed(sec, rs[0]) && AllWellFormed(sec, rs[1..]))
  }

  function AsMaps(rs: seq<Record>): seq<map<string, Value>> {
    if rs == [] then [] else [AsMap(rs[0], map[])] + AsMaps(rs[1..])
  }

  lemma {:induction false} JoinPlain(ps: seq<string>)
    requires forall i :: 0 <= i < |ps| ==> PortName(ps[i])
    ensures Uncut(Join(ps, '&'), Separator)
  {
    if |ps| > 1 { JoinPlain(ps[1..]); }
  }

  /** A fitting value is one token, and is read back. */
  lemma ValueRead(key: string, v: Value)
    requires Fits(key, v)
    ensures Uncut(EncodeValue(v), Separator) && ReadValue(key, EncodeValue(v)) == Ok(v)
  {
    match v
    case Word(w) =>
    case Num(n) => AtoiDecimal(n);
    case Ports(ps) => JoinPlain(ps); PortsSplit(ps);
  }

  lemma ExpectedPlain(sec: Section, key: string)
    requires key in Expected(sec)
    ensures Uncut(key, Separator)
  {
  }

  /** The keys of a section are as many as the items its records bring. */
  lemma {:induction false} ItemCount(sec: Section, r: Record)
    requires ItemsFit(sec, r)
    ensures |Keys(r)| == |r|
  {
    if r != [] { ItemCount(sec, r[1..]); }
  }

  lemma ExpectedCount(sec: Section)
    ensures |Expected(sec)| == Items(sec)
  {
  }

  /** The item leaves nothing behind for the parser to stumble over. */
  predicate Single(v: Value) {
    v.Ports? ==> |v.ports| == 1
  }

  function Left(v: Value): seq<string> {
    if v.Ports? && v.ports != [] then v.ports[1..] else []
  }

  predicate AllSingle(r: Record) {
    r == [] || (Single(r[0].1) && AllSingle(r[1..]))
  }

  /** Only the last item may be a list of several ports. */
  predicate ButLastSingle(r: Record) {
    |r| <= 1 || (Single(r[0].1) && ButLastSingle(r[1..]))
  }

  /** Several ports stand at the very end of the section, if anywhere. */
  predicate InOrder(rs: seq<Record>) {
    rs == [] || (if |rs| == 1 then ButLastSingle(rs[0]) else AllSingle(rs[0]) && InOrder(rs[1..]))
  }

  lemma {:induction false} ItemsRead(sec: Section, r: Record, rest: seq<string>, got: map<string, Value>)
    requires ItemsFit(sec, r) && ButLastSingle(r)
    ensures var left := if r == [] then [] else Left(r[|r| - 1].1);
            ReadItems(sec, Tokens(r) + rest, |r|, got) == Ok((AsMap(r, got), left + rest))
    decreases |r|
  {
    if r == [] {
      assert [] + rest == rest;
    } else {
      var ts := Tokens(r) + rest;
      assert ts[0] == r[0].0 && ts[1] == EncodeValue(r[0].1) && ts[2..] == Tokens(r[1..]) + rest;
      ItemRead(sec, ts, |r|, got, r[0].1);
      if |r| == 1 {
        assert Left(r[0].1) + ts[2..] == Left(r[0].1) + rest;
      } else {
        assert Left(r[0].1) + ts[2..] == ts[2..];
        ItemsRead(sec, r[1..], rest, got[r[0].0 := r[0].1]);
      }
    }
  }

  lemma ItemRead(sec: Section, ts: seq<string>, n: nat, got: map<string, Value>, v: Value)
    requires n > 0 && |ts| >= 2 && ts[0] in Expected(sec) && Fits(ts[0], v) && ts[1] == EncodeValue(v)
    ensures ReadItems(sec, ts, n, got) == ReadItems(sec, Left(v) + ts[2..], n - 1, got[ts[0] := v])
  {
    ValueRead(ts[0], v);
    if v.Ports? { PortsSplit(v.ports); }
    assert Rest(ts) == Left(v) + ts[2..];
  }

  lemma {:induction false} SingleLast(r: Record)
    requires AllSingle(r)
    ensures ButLastSingle(r) && (r != [] ==> Left(r[|r| - 1].1) == [])
  {
    if r != [] { SingleLast(r[1..]); }
  }

  lemma RecordRead(sec: Section, r: Record, rest: seq<string>)
    requires WellFormed(sec, r) && ButLastSingle(r)
    ensures var out := ReadItems(sec, Tokens(r) + rest, Items(sec), map[]);
            out.Ok? && out.value.0 == AsMap(r, map[]) && (AllSingle(r) ==> out.value.1 == rest)
  {
    ItemCount(sec, r);
    ExpectedCount(sec);
    ItemsRead(sec, r, rest, map[]);
    if AllSingle(r) { SingleLast(r); }
    assert [] + rest == rest;
  }

  lemma {:induction false} RecordsRead(sec: Section, rs: seq<Record>)
    requires AllWellFormed(sec, rs) && InOrder(rs)
    ensures ReadRecords(sec, AllTokens(rs), |rs|) == Ok(AsMaps(rs))
  {
    if rs != [] {
      if |rs| > 1 { SingleLast(rs[0]); }
      RecordRead(sec, rs[0], AllTokens(rs[1..]));
      RecordsRead(sec, rs[1..]);
    }
  }

  // ----- when the parser stumbles -----

  /** No port but the first of an item is named like a key of a channel. */
  predicate SafeNames(r: Record) {
    r == [] || ((forall i :: 0 <= i < |Left(r[0].1)| ==> Left(r[0].1)[i] !in Expected(Channels)) && SafeNames(r[1..]))
  }

  predicate AllSafeNames(rs: seq<Record>) {
    rs == [] || (SafeNames(rs[0]) && AllSafeNames(rs[1..]))
  }

  /** A record is refused at the key behind several ports, or leaves ports behind for the next record. */
  lemma {:induction false} ItemsStumble(sec: Section, r: Record, rest: seq<string>, got: map<string, Value>)
    requires ItemsFit(sec, r) && SafeNames(r) && !AllSingle(r)
    ensures var out := ReadItems(sec, Tokens(r) + rest, |r|, got);
            || out.Err?
            || (ButLastSingle(r) && out.value.1 != [] && out.value.1[0] !in Expected(Channels))
    decreases |r|
  {
    var ts := Tokens(r) + rest;
    var left := Left(r[0].1);
    assert ts[0] == r[0].0 && ts[1] == EncodeValue(r[0].1) && ts[2..] == Tokens(r[1..]) + rest;
    ItemRead(sec, ts, |r|, got, r[0].1);
    if left == [] {
      assert left + ts[2..] == ts[2..];
      ItemsStumble(sec, r[1..], rest, got[r[0].0 := r[0].1]);
    } else {
      assert (left + ts[2..])[0] == left[0];
      assert sec == Channels;
    }
  }

  lemma {:induction false} RecordsStumble(sec: Section, rs: seq<Record>)
    requires AllWellFormed(sec, rs) && AllSafeNames(rs) && !InOrder(rs)
    ensures ReadRecords(sec, AllTokens(rs), |rs|).Err?
  {
    var rest := AllTokens(rs[1..]);
    if AllSingle(rs[0]) {
      SingleLast(rs[0]);
      RecordRead(sec, rs[0], rest);
      RecordsStumble(sec, rs[1..]);
    } else {
      RecordStumbles(sec, rs[0], rest, |rs|);
    }
  }

  /** A record with several ports is refused, or the next one is. */
  lemma RecordStumbles(sec: Section, r: Record, rest: seq<string>, count: nat)
    requires WellFormed(sec, r) && SafeNames(r) && !AllSingle(r) && count > 0 && (count > 1 || !ButLastSingle(r))
    ensures ReadRecords(sec, Tokens(r) + rest, count).Err?
  {
    ItemCount(sec, r);
    ExpectedCount(sec);
    ItemsStumble(sec, r, rest, map[]);
    OnlyChannels(sec, r);
  }

  lemma {:induction false} OnlyChannels(sec: Section, r: Record)
    requires ItemsFit(sec, r) && !AllSingle(r)
    ensures sec == Channels
  {
    if Single(r[0].1) { OnlyChannels(sec, r[1..]); }
  }

  lemma ItemSplit(sec: Section, item: (string, Value))
    requires item.0 in Expected(sec) && Fits(item.0, item.1)
    ensures Split(EncodeItem(item), Separator) == [item.0, EncodeValue(item.1)]
  {
    ExpectedPlain(sec, item.0);
    ValueRead(item.0, item.1);
    SplitUncut(item.0, Separator);
    SplitUncut(EncodeValue(item.1), Separator);
    SplitAppend(item.0, '=', EncodeValue(item.1), Separator);
  }

  /** The separators of a printed record cut it into its keys and values. */
  lemma {:induction false} RecordSplit(sec: Section, r: Record)
    requires r != [] && ItemsFit(sec, r)
    ensures Split(Join(EncodeItems(r), ','), Separator) == Tokens(r)
  {
    ItemSplit(sec, r[0]);
    if |r| > 1 {
      RecordSplit(sec, r[1..]);
      assert EncodeItems(r)[1..] == EncodeItems(r[1..]);
      SplitAppend(EncodeItem(r[0]), ',', Join(EncodeItems(r[1..]), ','), Separator);
    }
  }

  lemma ItemUncut(sec: Section, item: (string, Value))
    requires item.0 in Expected(sec) && Fits(item.0, item.1)
    ensures Uncut(EncodeItem(item), IsSemi)
  {
    ExpectedPlain(sec, item.0);
    ValueRead(item.0, item.1);
    UncutAround(item.0, '=', EncodeValue(item.1));
  }

  lemma UncutAround(a: string, c: char, b: string)
    requires (Uncut(a, Separator) || Uncut(a, IsSemi)) && c != ';' && (Uncut(b, Separator) || Uncut(b, IsSemi))
    ensures Uncut(a + [c] + b, IsSemi)
  {
  }

  lemma {:induction false} NoSemi(sec: Section, r: Record)
    requires ItemsFit(sec, r)
    ensures Uncut(Join(EncodeItems(r), ','), IsSemi)
  {
    if r != [] {
      ItemUncut(sec, r[0]);
      NoSemi(sec, r[1..]);
      assert EncodeItems(r)[1..] == EncodeItems(r[1..]);
      if |r| > 1 { UncutAround(EncodeItem(r[0]), ',', Join(EncodeItems(r[1..]), ',')); }
    }
  }

  lemma {:induction false} SectionSplit(sec: Section, rs: seq<Record>)
    requires rs != [] && AllWellFormed(sec, rs)
    ensures Split(Encode(rs), Separator) == AllTokens(rs) && |Split(Encode(rs), IsSemi)| == |rs|
  {
    var r := Join(EncodeItems(rs[0]), ',');
    assert rs[0] != [] by { assert Expected(sec) != {}; }
    RecordSplit(sec, rs[0]);
    NoSemi(sec, rs[0]);
    SplitUncut(r, IsSemi);
    if |rs| > 1 {
      SectionSplit(sec, rs[1..]);
      SplitAppend(r, ';', Encode(rs[1..]), Separator);
      SplitAppend(r, ';', Encode(rs[1..]), IsSemi);
      assert EncodeRecords(rs)[1..] == EncodeRecords(rs[1..]);
    } else {
      assert AllTokens(rs) == Tokens(rs[0]) + [];
    }
  }

  /** The kernel rebuilds every configuration that the script prints: the same records, with the same value for
      every key, whatever the order of the items; but in the channel section a list of several ports must be the last
      item of the last record. */
  lemma ParseEncoded(sec: Section, rs: seq<Record>)
    requires rs != [] && AllWellFormed(sec, rs) && InOrder(rs)
    ensures Parse(sec, Encode(rs)) == Ok(AsMaps(rs))
  {
    SectionSplit(sec, rs);
    RecordsRead(sec, rs);
  }

  /** Where a list of several ports stands elsewhere, the section is refused, unless a port is named like a key. */
  lemma ParseStumbles(sec: Section, rs: seq<Record>)
    requires rs != [] && AllWellFormed(sec, rs) && AllSafeNames(rs)
    ensures Parse(sec, Encode(rs)) == Ok(AsMaps(rs)) <==> InOrder(rs)
    ensures !InOrder(rs) ==> Parse(sec, Encode(rs)).Err?
  {
    SectionSplit(sec, rs);
    if InOrder(rs) { RecordsRead(sec, rs); } else { RecordsStumble(sec, rs); }
  }

  /** Outside the channel section there are no ports, and every configuration is rebuilt. */
  lemma ParseOthers(sec: Section, rs: seq<Record>)
    requires rs != [] && AllWellFormed(sec, rs) && sec != Channels
    ensures Parse(sec, Encode(rs)) == Ok(AsMaps(rs))
  {
    NoPorts(sec, rs);
    ParseEncoded(sec, rs);
  }

  lemma {:induction false} NoPorts(sec: Section, rs: seq<Record>)
    requires AllWellFormed(sec, rs) && sec != Channels
    ensures InOrder(rs)
  {
    if rs != [] {
      if !AllSingle(rs[0]) { OnlyChannels(sec, rs[0]); }
      SingleLast(rs[0]);
      NoPorts(sec, rs[1..]);
    }
  }

  /** The map of a record has exactly its keys and values. */
  lemma {:induction false} AsMapExact(sec: Section, r: Record, got: map<string, Value>)
    requires ItemsFit(sec, r) && got.Keys !! Keys(r)
    ensures AsMap(r, got).Keys == got.Keys + Keys(r)
    ensures forall k :: k in got ==> AsMap(r, got)[k] == got[k]
    ensures forall i :: 0 <= i < |r| ==> r[i].0 in AsMap(r, got) && AsMap(r, got)[r[i].0] == r[i].1
  {
    if r != [] {
      AsMapExact(sec, r[1..], got[r[0].0 := r[0].1]);
      assert forall i :: 0 < i < |r| ==> r[i] == r[1..][i - 1];
    }
  }

  // ----- the code -----

  /** The pieces in memory: each behind the other, each ended by NUL. */
  function Flatten(ts: seq<string>): string {
    if ts == [] then [] else ts[0] + [NUL] + Flatten(ts[1..])
  }

  function CutChar(c: char, cut: char -> bool): char { if cut(c) then NUL else c }

  predicate NulFree(s: string) {
    forall i :: 0 <= i < |s| ==> s[i] != NUL
  }

  predicate AllNulFree(ts: seq<string>) {
    ts == [] || (NulFree(ts[0]) && AllNulFree(ts[1..]))
  }

  function CutAll(s: string, cut: char -> bool): string {
    seq(|s|, i requires 0 <= i < |s| => CutChar(s[i], cut))
  }

  /** Overwriting the cuts with NUL leaves the pieces of the text. */
  lemma {:induction false} CutFlattens(s: string, cut: char -> bool)
    requires NulFree(s)
    ensures Flatten(Split(s, cut)) == CutAll(s, cut) + [NUL] && AllNulFree(Split(s, cut))
  {
    if s == [] {
      var ts: seq<string> := [[]];
      assert ts[1..] == [];
    } else {
      CutFlattens(s[1..], cut);
      assert CutAll(s, cut) == [CutChar(s[0], cut)] + CutAll(s[1..], cut);
      var ts := Split(s[1..], cut);
      if cut(s[0]) {
        assert ([[]] + ts)[1..] == ts;
      } else {
        var us := [[s[0]] + ts[0]] + ts[1..];
        assert us[1..] == ts[1..];
        assert Flatten(us) == [s[0]] + Flatten(ts);
      }
    }
  }

  lemma {:induction false} FlattenAppend(ts: seq<string>, us: seq<string>)
    requires AllNulFree(ts) && AllNulFree(us)
    ensures Flatten(ts + us) == Flatten(ts) + Flatten(us) && AllNulFree(ts + us)
  {
    if ts == [] {
      assert ts + us == us;
    } else {
      assert (ts + us)[1..] == ts[1..] + us;
      FlattenAppend(ts[1..], us);
    }
  }

  /** How many of the first n characters cut. */
  function Cuts(s: string, n: nat, cut: char -> bool): nat
    requires n <= |s|
  {
    if n == 0 then 0 else Cuts(s, n - 1, cut) + if cut(s[n - 1]) then 1 else 0
  }

  lemma {:induction false} CutsSplit(s: string, n: nat, cut: char -> bool)
    requires n <= |s|
    ensures |Split(s[..n], cut)| == Cuts(s, n, cut) + 1
  {
    if n > 0 {
      CutsSplit(s, n - 1, cut);
      if cut(s[n - 1]) {
        assert s[..n] == s[..n - 1] + [s[n - 1]] + [];
        SplitAppend(s[..n - 1], s[n - 1], [], cut);
      } else {
        assert s[..n] == s[..n - 1] + [s[n - 1]];
        SplitExtend(s[..n - 1], s[n - 1], cut);
      }
    }
  }

  lemma {:induction false} SplitExtend(s: string, c: char, cut: char -> bool)
    requires !cut(c)
    ensures |Split(s + [c], cut)| == |Split(s, cut)|
    decreases |s|
  {
    if s == [] {
      assert s + [c] == [c];
      SplitUncut([c], cut);
    } else {
      assert (s + [c])[1..] == s[1..] + [c];
      SplitExtend(s[1..], c, cut);
    }
  }

  /** The copy of the text with its separators overwritten, and the number of records. */
  method Cut(text: string) returns (raw: array<char>, count: nat)
    requires NulFree(text)
    ensures fresh(raw) && raw[..] == Flatten(Split(text, Separator)) && count == |Split(text, IsSemi)|
  {
    raw := new char[|text| + 1](i requires 0 <= i <= |text| => if i < |text| then text[i] else NUL);
    count := 1;
    var i := 0;
    while raw[i] != NUL
      invariant 0 <= i <= |text| && raw[|text|] == NUL && count == Cuts(text, i, IsSemi) + 1
      invariant forall k :: 0 <= k < i ==> raw[k] == CutChar(text[k], Separator)
      invariant forall k :: i <= k < |text| ==> raw[k] == text[k]
      decreases |text| - i
    {
      if Separator(raw[i]) {
        if raw[i] == ';' { count := count + 1; }
        raw[i] := NUL;
      }
      i := i + 1;
    }
    assert i == |text|;
    CutsSplit(text, i, IsSemi);
    assert text[..i] == text;
    CutFlattens(text, Separator);
    assert raw[..] == CutAll(text, Separator) + [NUL];
  }

  /** The string at offset q, and the offset behind it. */
  method StringAt(raw: array<char>, q: nat, ghost ts: seq<string>) returns (s: string, next: nat)
    requires q < raw.Length && ts != [] && AllNulFree(ts) && raw[q..] == Flatten(ts)
    ensures s == ts[0] && q < next <= raw.Length && raw[next..] == Flatten(ts[1..])
  {
    ghost var rest := Flatten(ts[1..]);
    assert Flatten(ts) == ts[0] + [NUL] + rest;
    forall k | 0 <= k <= |ts[0]| ensures raw[q + k] == if k < |ts[0]| then ts[0][k] else NUL {
      assert raw[q..][k] == raw[q + k];
    }
    next := q;
    while raw[next] != NUL
      invariant q <= next <= q + |ts[0]|
      decreases q + |ts[0]| - next
    {
      next := next + 1;
    }
    s := raw[q..next];
    next := next + 1;
    assert raw[next..] == raw[q..][next - q..];
  }

  /** Overwriting the separators of one string in memory. */
  method Overwrite(raw: array<char>, at: nat, ghost word: string) returns (count: nat)
    requires at + |word| < raw.Length && NulFree(word) && raw[at..at + |word| + 1] == word + [NUL]
    modifies raw
    ensures raw[at..at + |word| + 1] == CutAll(word, IsAmp) + [NUL] && count == |Split(word, IsAmp)|
    ensures raw[at + |word| + 1..] == old(raw[at + |word| + 1..])
  {
    ghost var end := at + |word|;
    Apart(raw[at..end + 1], word);
    forall j | at <= j <= end ensures raw[j] == if j < end then word[j - at] else NUL {
      assert raw[at..end + 1][j - at] == raw[j];
    }
    count := 1;
    var i := at;
    while raw[i] != NUL
      invariant at <= i <= end && raw[end] == NUL && count == Cuts(word, i - at, IsAmp) + 1
      invariant forall j :: at <= j < i ==> raw[j] == CutChar(word[j - at], IsAmp)
      invariant forall j :: i <= j < end ==> raw[j] == word[j - at] && raw[j] != NUL
      invariant forall j :: end < j < raw.Length ==> raw[j] == old(raw[j])
      decreases end - i
    {
      if raw[i] == '&' {
        raw[i] := NUL;
        count := count + 1;
      }
      i := i + 1;
    }
    CutsSplit(word, |word|, IsAmp);
    assert word[..|word|] == word;
  }

  lemma Apart(s: string, word: string)
    requires s == word + [NUL]
    ensures |s| == |word| + 1 && forall k :: 0 <= k <= |word| ==> s[k] == if k < |word| then word[k] else NUL
  {
  }

  /** Cutting a list of ports apart where it stands; the next string is then the second port. */
  method CutPorts(raw: array<char>, at: nat, ghost ts: seq<string>) returns (ports: seq<string>, next: nat)
    requires at < raw.Length && ts != [] && AllNulFree(ts) && raw[at..] == Flatten(ts)
    modifies raw
    ensures ports == Split(ts[0], IsAmp) && at < next <= raw.Length
    ensures AllNulFree(ports[1..] + ts[1..]) && raw[next..] == Flatten(ports[1..] + ts[1..])
  {
    ghost var word, behind := ts[0], Flatten(ts[1..]);
    assert Flatten(ts) == word + [NUL] + behind;
    assert raw[at..at + |word| + 1] == raw[at..][..|word| + 1] == word + [NUL];
    assert raw[at + |word| + 1..] == raw[at..][|word| + 1..] == behind;
    var count := Overwrite(raw, at, word);
    assert raw[at..] == raw[at..at + |word| + 1] + raw[at + |word| + 1..];
    CutFlattens(word, IsAmp);
    FlattenAppend(Split(word, IsAmp), ts[1..]);
    ghost var left := Split(word, IsAmp) + ts[1..];
    assert Flatten(left) == raw[at..];
    ports := [];
    var q, i := at, 0;
    next := at;
    while i < count
      invariant 0 <= i <= count && q <= raw.Length && ports == Split(word, IsAmp)[..i]
      invariant left == Split(word, IsAmp)[i..] + ts[1..] && AllNulFree(left) && raw[q..] == Flatten(left)
      invariant i >= 1 ==> at < next <= raw.Length && raw[next..] == Flatten(Split(word, IsAmp)[1..] + ts[1..])
      invariant AllNulFree(Split(word, IsAmp)[1..] + ts[1..]) || i == 0
    {
      assert |left| > 0;
      assert Flatten(left) != [];
      var s, after := StringAt(raw, q, left);
      assert left[1..] == Split(word, IsAmp)[i + 1..] + ts[1..];
      ports := ports + [s];
      if i == 0 { next := after; }
      q, i, left := after, i + 1, left[1..];
    }
  }

  /** The items of one record, from offset q on. */
  method ParseItems(sec: Section, raw: array<char>, start: nat, ghost ts: seq<string>)
    returns (r: Result<map<string, Value>>, q: nat, ghost rest: seq<string>)
    requires start <= raw.Length && AllNulFree(ts) && raw[start..] == Flatten(ts)
    modifies raw
    ensures r.Err? <==> ReadItems(sec, ts, Items(sec), map[]).Err?
    ensures r.Ok? ==> ReadItems(sec, ts, Items(sec), map[]) == Ok((r.value, rest))
    ensures q <= raw.Length && AllNulFree(rest) && raw[q..] == Flatten(rest)
  {
    var got: map<string, Value>, n := map[], Items(sec);
    q, rest := start, ts;
    while n > 0
      invariant q <= raw.Length && AllNulFree(rest) && raw[q..] == Flatten(rest)
      invariant ReadItems(sec, ts, Items(sec), map[]) == ReadItems(sec, rest, n, got)
      decreases n
    {
      if q >= raw.Length { Exhausted(rest); return Err, q, rest; }
      HasString(rest);
      var key, at := StringAt(raw, q, rest);
      if key !in Expected(sec) { return Err, q, rest; }
      if at >= raw.Length { Exhausted(rest[1..]); return Err, q, rest; }
      HasString(rest[1..]);
      var v, next := ParseValue(sec, raw, at, key, rest);
      if v.Err? { return Err, raw.Length, []; }
      got, n, q, rest := got[key := v.value], n - 1, next, Rest(rest);
    }
    r := Ok(got);
  }

  /** The value behind a key. */
  method ParseValue(sec: Section, raw: array<char>, at: nat, key: string, ghost ts: seq<string>) returns (v: Result<Value>, next: nat)
    requires at < raw.Length && |ts| >= 2 && AllNulFree(ts) && raw[at..] == Flatten(ts[1..]) && ts[0] == key
    modifies raw
    ensures v == ReadValue(key, ts[1])
    ensures v.Ok? ==> next <= raw.Length && AllNulFree(Rest(ts)) && raw[next..] == Flatten(Rest(ts))
  {
    assert ts[1..][1..] == ts[2..];
    if key == "ports" {
      var ports;
      ports, next := CutPorts(raw, at, ts[1..]);
      v := Ok(Ports(ports));
    } else {
      var word;
      word, next := StringAt(raw, at, ts[1..]);
      v := ReadValue(key, word);
      assert [] + ts[2..] == ts[2..];
    }
  }

  lemma Exhausted(ts: seq<string>)
    requires Flatten(ts) == []
    ensures ts == []
  {
  }

  lemma HasString(ts: seq<string>)
    requires Flatten(ts) != []
    ensures ts != []
  {
  }

  /** A whole section. */
  method ParseSection(sec: Section, text: string) returns (r: Result<seq<map<string, Value>>>)
    requires NulFree(text)
    ensures r == Parse(sec, text)
  {
    var raw, count := Cut(text);
    CutFlattens(text, Separator);
    ghost var ts := Split(text, Separator);
    r := ParseRecords(sec, raw, count, ts);
  }

  /** One record, and what the records before and behind it make of the section; n are still to come. */
  method ParseRecord(sec: Section, raw: array<char>, start: nat, ghost records: seq<map<string, Value>>, ghost n: nat, ghost ts: seq<string>)
    returns (one: Result<map<string, Value>>, q: nat, ghost rest: seq<string>)
    requires n > 0 && start <= raw.Length && AllNulFree(ts) && raw[start..] == Flatten(ts)
    modifies raw
    ensures q <= raw.Length && AllNulFree(rest) && raw[q..] == Flatten(rest)
    ensures Behind(records, ReadRecords(sec, ts, n))
            == if one.Err? then Err else Behind(records + [one.value], ReadRecords(sec, rest, n - 1))
  {
    one, q, rest := ParseItems(sec, raw, start, ts);
    RecordsStep(sec, records, ts, n, one, rest);
  }

  method ParseRecords(sec: Section, raw: array<char>, count: nat, ghost start: seq<string>) returns (r: Result<seq<map<string, Value>>>)
    requires AllNulFree(start) && raw[..] == Flatten(start)
    modifies raw
    ensures r == ReadRecords(sec, start, count)
  {
    ghost var ts, left, all := start, count, ReadRecords(sec, start, count);
    var records: seq<map<string, Value>> := [];
    var q: nat, p: nat := 0, 0;
    NothingBehind(all);
    assert raw[0..] == raw[..];
    while p < count
      invariant p + left == count && q <= raw.Length && AllNulFree(ts) && raw[q..] == Flatten(ts)
      invariant all == Behind(records, ReadRecords(sec, ts, left))
    {
      var one;
      one, q, ts := ParseRecord(sec, raw, q, records, left, ts);
      if one.Err? { return Err; }
      records, p, left := records + [one.value], p + 1, left - 1;
    }
    AllRead(sec, records, ts);
    r := Ok(records);
  }

  function Behind(a: seq<map<string, Value>>, r: Result<seq<map<string, Value>>>): Result<seq<map<string, Value>>> {
    if r.Err? then Err else Ok(a + r.value)
  }

  lemma RecordsStep(sec: Section, a: seq<map<string, Value>>, ts: seq<string>, n: nat, one: Result<map<string, Value>>, rest: seq<string>)
    requires n > 0 && (one.Err? <==> ReadItems(sec, ts, Items(sec), map[]).Err?)
    requires one.Ok? ==> ReadItems(sec, ts, Items(sec), map[]) == Ok((one.value, rest))
    ensures Behind(a, ReadRecords(sec, ts, n))
            == if one.Err? then Err else Behind(a + [one.value], ReadRecords(sec, rest, n - 1))
  {
    if one.Ok? { MoreBehind(a, one.value, ReadRecords(sec, rest, n - 1)); }
  }

  lemma AllRead(sec: Section, a: seq<map<string, Value>>, ts: seq<string>)
    ensures Behind(a, ReadRecords(sec, ts, 0)) == Ok(a)
  {
    assert a + [] == a;
  }

  lemma NothingBehind(r: Result<seq<map<string, Value>>>)
    ensures Behind([], r) == r
  {
    if r.Ok? { assert [] + r.value == r.value; }
  }

  lemma MoreBehind(a: seq<map<string, Value>>, m: map<string, Value>, r: Result<seq<map<string, Value>>>)
    ensures Behind(a, Behind([m], r)) == Behind(a + [m], r)
  {
    if r.Ok? { assert a + ([m] + r.value) == a + [m] + r.value; }
  }
}
