/** When the parser of the channel section rebuilds one record, whatever its ports are called. */
module ChannelPorts {
  import opened BootConf

  /** The ports left over name, in pairs of key and value, the items behind them: all of these, or all but the first,
      which is then read where it stands. */
  predicate Mimics(left: seq<string>, behind: Record) {
    match |behind|
    case 0 => true
    case 1 => |left| >= 2 && left[..2] == Tokens(behind)
    case 2 =>
      || (|left| == 2 && left == Tokens(behind[1..]))
      || (|left| >= 4 && (left[..4] == Tokens(behind) || left[..4] == Tokens([behind[1], behind[0]])))
    case _ => false
  }

  /** The ports are at the end, or one, or pass for what is behind them. */
  predicate Rebuilt(r: Record) {
    r == [] || if Single(r[0].1) then Rebuilt(r[1..]) else Mimics(Left(r[0].1), r[1..])
  }

  /** The items of a channel but its ports. */
  predicate Plainly(key: string) { key == "media" || key == "type" }

  /** A value is read from its own text alone, and no key passes for one. */
  lemma ReadBack(key: string, v: Value, raw: string)
    requires Plainly(key) && Fits(key, v)
    ensures ReadValue(key, raw) == Ok(v) <==> raw == EncodeValue(v)
    ensures Plainly(raw) ==> ReadValue(key, raw).Err?
  {
  }

  /** Reading one more item. */
  lemma NextRead(ts: seq<string>, n: nat, got: map<string, Value>)
    requires n > 0 && |ts| >= 2
    ensures var v := ReadValue(ts[0], ts[1]);
            ReadItems(Channels, ts, n, got)
            == if ts[0] !in Expected(Channels) || v.Err? then Err else ReadItems(Channels, Rest(ts), n - 1, got[ts[0] := v.value])
  {
  }

  /** Reading n items yields the map m. */
  predicate Yields(ts: seq<string>, n: nat, got: map<string, Value>, m: map<string, Value>) {
    var out := ReadItems(Channels, ts, n, got);
    out.Ok? && out.value.0 == m
  }

  /** The last item is read if and only if key and value come next. */
  lemma LastYields(ts: seq<string>, got: map<string, Value>, x: (string, Value))
    requires |ts| >= 2 && Plainly(x.0) && Fits(x.0, x.1) && x.0 !in got
    ensures Yields(ts, 1, got, got[x.0 := x.1]) <==> ts[..2] == [x.0, EncodeValue(x.1)]
  {
    NextRead(ts, 1, got);
    ReadBack(x.0, x.1, ts[1]);
    assert x.0 in got[x.0 := x.1];
    if ts[0] == x.0 {
      var v := ReadValue(ts[0], ts[1]);
      if v.Ok? { assert got[x.0 := v.value][x.0] == v.value && got[x.0 := x.1][x.0] == x.1; }
    }
    assert ts[..2] == [ts[0], ts[1]];
  }

  lemma NotAKey(x: (string, Value))
    requires Plainly(x.0) && Fits(x.0, x.1)
    ensures !Plainly(EncodeValue(x.1))
  {
    ReadBack(x.0, x.1, EncodeValue(x.1));
  }

  /** The last two items, when the key of x comes first. */
  lemma FirstYields(ts: seq<string>, got: map<string, Value>, x: (string, Value), y: (string, Value))
    requires |ts| >= 4 && Plainly(x.0) && Plainly(y.0) && x.0 != y.0 && Fits(x.0, x.1) && Fits(y.0, y.1)
    requires x.0 !in got && y.0 !in got && ts[0] == x.0
    ensures Yields(ts, 2, got, got[x.0 := x.1][y.0 := y.1])
       <==> ts[1] == EncodeValue(x.1) && ts[2..][..2] == [y.0, EncodeValue(y.1)]
  {
    NextRead(ts, 2, got);
    ReadBack(x.0, x.1, ts[1]);
    var v := ReadValue(x.0, ts[1]);
    assert Rest(ts) == [] + ts[2..] == ts[2..];
    if v.Ok? {
      LastYields(ts[2..], got[x.0 := v.value], y);
      NextRead(ts[2..], 1, got[x.0 := v.value]);
      var w := ReadValue(ts[2], ts[3]);
      if w.Ok? && got[x.0 := v.value][ts[2] := w.value] == got[x.0 := x.1][y.0 := y.1] {
        OtherYields(got, x.0, v.value, ts[2], w.value, x.1, y);
      }
    }
  }

  /** A first value that is not the right one is not made good by the second item. */
  lemma OtherYields(got: map<string, Value>, key: string, v: Value, next: string, w: Value, right: Value, y: (string, Value))
    requires key != y.0 && y.0 !in got && got[key := v][next := w] == got[key := right][y.0 := y.1]
    ensures v == right
  {
    assert y.0 in got[key := v][next := w];
    assert got[key := v][next := w][key] == v;
    assert got[key := right][y.0 := y.1][key] == right;
  }

  /** Another key first: one of the two stays unread. */
  lemma NeverYields(ts: seq<string>, got: map<string, Value>, x: (string, Value), y: (string, Value))
    requires |ts| >= 2 && ts[0] != x.0 && ts[0] != y.0 && x.0 != y.0 && x.0 !in got && y.0 !in got
    ensures !Yields(ts, 2, got, got[x.0 := x.1][y.0 := y.1])
  {
    NextRead(ts, 2, got);
    var v := ReadValue(ts[0], ts[1]);
    var m := got[x.0 := x.1][y.0 := y.1];
    assert x.0 in m && y.0 in m;
    if v.Ok? && |Rest(ts)| >= 2 { NextRead(Rest(ts), 1, got[ts[0] := v.value]); }
  }

  lemma OneBehind(left: seq<string>, x: (string, Value), got: map<string, Value>)
    requires left != [] && Plainly(x.0) && Fits(x.0, x.1) && x.0 !in got
    ensures Yields(left + Tokens([x]), 1, got, got[x.0 := x.1]) <==> Mimics(left, [x])
  {
    var ts := left + Tokens([x]);
    assert Tokens([x]) == [x.0, EncodeValue(x.1)];
    NotAKey(x);
    LastYields(ts, got, x);
    if |left| == 1 {
      assert ts[..2][1] == x.0;
    } else {
      assert ts[..2] == left[..2];
    }
  }

  lemma TwoTokens(x: (string, Value), y: (string, Value))
    ensures Tokens([x, y]) == [x.0, EncodeValue(x.1), y.0, EncodeValue(y.1)] && Tokens([x, y][1..]) == [y.0, EncodeValue(y.1)]
  {
    assert [x, y][1..] == [y];
    assert [y][1..] == [];
    assert Tokens([y]) == [y.0, EncodeValue(y.1)];
    assert Tokens([x, y]) == [x.0, EncodeValue(x.1)] + Tokens([y]);
  }

  lemma TwoBehind(left: seq<string>, x: (string, Value), y: (string, Value), got: map<string, Value>)
    requires left != [] && Plainly(x.0) && Plainly(y.0) && x.0 != y.0 && Fits(x.0, x.1) && Fits(y.0, y.1)
    requires x.0 !in got && y.0 !in got
    ensures Yields(left + Tokens([x, y]), 2, got, got[x.0 := x.1][y.0 := y.1]) <==> Mimics(left, [x, y])
  {
    var ts := left + Tokens([x, y]);
    TwoTokens(x, y);
    TwoTokens(y, x);
    NotAKey(x);
    NotAKey(y);
    assert got[x.0 := x.1][y.0 := y.1] == got[y.0 := y.1][x.0 := x.1];
    if ts[0] == x.0 {
      FirstYields(ts, got, x, y);
    } else if ts[0] == y.0 {
      FirstYields(ts, got, y, x);
    } else {
      NeverYields(ts, got, x, y);
    }
    Prefixes(left, ts, x, y);
  }

  /** What the four tokens in front are, by how many of them are left over. */
  lemma Prefixes(left: seq<string>, ts: seq<string>, x: (string, Value), y: (string, Value))
    requires left != [] && ts == left + [x.0, EncodeValue(x.1), y.0, EncodeValue(y.1)]
    ensures |left| == 1 ==> ts[1] == x.0
    ensures |left| == 2 ==> left == [ts[0], ts[1]] && ts[2..][..2] == [x.0, EncodeValue(x.1)]
    ensures |left| == 3 ==> ts[2..][..2] == [ts[2], x.0]
    ensures |left| >= 4 ==> left[..4] == [ts[0], ts[1]] + ts[2..][..2]
  {
    var n := |left|;
    assert ts[n] == x.0 && ts[n + 1] == EncodeValue(x.1);
    forall i | 0 <= i < n ensures ts[i] == left[i] {}
    assert ts[2..][..2] == [ts[2], ts[3]];
    if n >= 4 { assert left[..4] == [left[0], left[1]] + [left[2], left[3]]; }
  }

  /** Behind the ports there are at most two items. */
  lemma BehindPorts(r: Record)
    requires ItemsFit(Channels, r) && "ports" !in Keys(r)
    ensures |r| <= 2 && Keys(r) <= {"media", "type"}
  {
    KeysExpected(r);
    ItemCount(Channels, r);
    Fewer(Keys(r), {"media", "type"});
  }

  lemma {:induction false} KeysExpected(r: Record)
    requires ItemsFit(Channels, r)
    ensures Keys(r) <= Expected(Channels)
  {
    if r != [] { KeysExpected(r[1..]); }
  }

  lemma {:induction false} Fewer(a: set<string>, b: set<string>)
    requires a <= b
    ensures |a| <= |b|
  {
    if a != {} {
      var x :| x in a;
      Fewer(a - {x}, b - {x});
    }
  }

  lemma TwoItems(x: (string, Value), y: (string, Value), got: map<string, Value>)
    requires ItemsFit(Channels, [x, y]) && Keys([x, y]) <= {"media", "type"}
    ensures Plainly(x.0) && Plainly(y.0) && x.0 != y.0 && Fits(x.0, x.1) && Fits(y.0, y.1) && Keys([x, y]) == {x.0, y.0}
    ensures AsMap([x, y], got) == got[x.0 := x.1][y.0 := y.1]
  {
    assert [x, y][1..] == [y] && [y][1..] == [];
    assert AsMap([y], got[x.0 := x.1]) == AsMap([], got[x.0 := x.1][y.0 := y.1]);
    assert Keys([y]) == {y.0} && Keys([x, y]) == {x.0} + Keys([y]);
    assert x.0 in Keys([x, y]) && y.0 in Keys([x, y]);
  }

  lemma OneItem(x: (string, Value), got: map<string, Value>)
    requires ItemsFit(Channels, [x]) && Keys([x]) <= {"media", "type"}
    ensures Plainly(x.0) && Fits(x.0, x.1) && Keys([x]) == {x.0} && AsMap([x], got) == got[x.0 := x.1]
  {
    assert [x][1..] == [];
    assert x.0 in Keys([x]);
  }

  lemma LeftBehind(left: seq<string>, b: Record, got: map<string, Value>)
    requires left != [] && ItemsFit(Channels, b) && |b| <= 2 && Keys(b) <= {"media", "type"} && got.Keys !! Keys(b)
    ensures Yields(left + Tokens(b), |b|, got, AsMap(b, got)) <==> Mimics(left, b)
  {
    if |b| == 1 {
      var x := b[0];
      assert b == [x];
      OneItem(x, got);
      OneBehind(left, x, got);
    } else if |b| == 2 {
      var x, y := b[0], b[1];
      assert b == [x, y];
      TwoItems(x, y, got);
      TwoBehind(left, x, y, got);
    }
  }

  lemma {:induction false} RecordExactly(r: Record, got: map<string, Value>)
    requires ItemsFit(Channels, r) && got.Keys !! Keys(r)
    ensures Yields(Tokens(r), |r|, got, AsMap(r, got)) <==> Rebuilt(r)
  {
    if r != [] {
      var ts, more := Tokens(r), got[r[0].0 := r[0].1];
      assert ts[0] == r[0].0 && ts[1] == EncodeValue(r[0].1) && ts[2..] == Tokens(r[1..]);
      ItemRead(Channels, ts, |r|, got, r[0].1);
      if Single(r[0].1) {
        assert Left(r[0].1) + ts[2..] == ts[2..];
        RecordExactly(r[1..], more);
      } else {
        BehindPorts(r[1..]);
        LeftBehind(Left(r[0].1), r[1..], more);
      }
    }
  }

  /** A channel section of one record is rebuilt if and only if the ports come last, or are only one, or the ports but
      the first pass for the items behind them. */
  lemma OneChannelExactly(r: Record)
    requires WellFormed(Channels, r)
    ensures Parse(Channels, Encode([r])) == Ok(AsMaps([r])) <==> Rebuilt(r)
  {
    var out := ReadItems(Channels, Tokens(r), 3, map[]);
    SectionSplit(Channels, [r]);
    assert AllTokens([r]) == Tokens(r) + [] == Tokens(r);
    ItemCount(Channels, r);
    ExpectedCount(Channels);
    RecordExactly(r, map[]);
    if out.Ok? { OneRead(r, out.value.0, out.value.1); }
  }

  lemma OneRead(r: Record, m: map<string, Value>, rest: seq<string>)
    requires ReadItems(Channels, Tokens(r), 3, map[]) == Ok((m, rest))
    ensures ReadRecords(Channels, Tokens(r), 1) == Ok([m]) && AsMaps([r]) == [AsMap(r, map[])]
  {
    assert ReadRecords(Channels, rest, 0) == Ok([]);
    assert [m] + [] == [m];
    assert [r][1..] == [];
  }

  /** Two ports named like the key and the value of the item that the parser has not read. */
  function Passing(): Record {
    [("ports", Ports(["a", "type", "queuing"])), ("media", Word("memory")), ("type", Word("queuing"))]
  }

  lemma PassingFits()
    ensures WellFormed(Channels, Passing())
  {
    var b := Passing()[1..];
    assert b == [("media", Word("memory")), ("type", Word("queuing"))] && b[1..] == [("type", Word("queuing"))];
    assert Keys(b[1..]) == {"type"} && Keys(b) == {"media", "type"};
  }

  lemma PassingRebuilt()
    ensures Rebuilt(Passing()) && !InOrder([Passing()])
  {
    var r := Passing();
    var b := r[1..];
    assert b == [("media", Word("memory")), ("type", Word("queuing"))];
    TwoTokens(b[0], b[1]);
    assert Left(r[0].1) == ["type", "queuing"];
  }

  /** Such a section is rebuilt although it is not in order. */
  lemma PortsPass()
    ensures WellFormed(Channels, Passing()) && !InOrder([Passing()])
    ensures Parse(Channels, Encode([Passing()])) == Ok(AsMaps([Passing()]))
  {
    PassingFits();
    PassingRebuilt();
    OneChannelExactly(Passing());
  }
}
