/** The byte ring of lib/circbuf.c with the variable-length messages that buffers and queuing ports keep in it.
    Offsets are 64-bit words: the tail starts one element before offset 0 and gets there by wrapping around. */
module Ring {

  type Byte = b: int | 0 <= b < 256

  const WORD: int := 0x1_0000_0000_0000_0000
  const HEADER: nat := 8

  // ----- the length word in front of each message -----

  /** The k low-order bytes of n, lowest first. */
  function Bytes(n: nat, k: nat): (s: seq<Byte>)
    ensures |s| == k
  {
    if k == 0 then [] else [n % 256] + Bytes(n / 256, k - 1)
  }

  function Value(s: seq<Byte>): nat {
    if s == [] then 0 else s[0] + 256 * Value(s[1..])
  }

  function Power(k: nat): nat {
    if k == 0 then 1 else 256 * Power(k - 1)
  }

  lemma {:induction false} ValueOfBytes(n: nat, k: nat)
    requires n < Power(k)
    ensures Value(Bytes(n, k)) == n
  {
    if k > 0 {
      ValueOfBytes(n / 256, k - 1);
    }
  }

  // ----- what a ring holds -----

  /** The slot behind slot i. */
  function After(i: nat, cap: nat): nat {
    if i + 1 >= cap then 0 else i + 1
  }

  /** The slot k places behind slot i. */
  function Slot(i: nat, k: nat, cap: nat): nat {
    if i + k < cap then i + k else i + k - cap
  }

  /** The element size is ele, the number of slots cap; b is their bytes. */
  predicate Shape(b: seq<Byte>, ele: nat, cap: nat) {
    ele > HEADER && |b| == cap * ele
  }

  lemma SlotFits(i: nat, ele: nat, cap: nat)
    requires i < cap
    ensures 0 <= i * ele && i * ele + ele <= cap * ele
  {
    assert (i + 1) * ele <= cap * ele by { MulMonotone(i + 1, cap, ele); }
  }

  lemma MulMonotone(a: nat, b: nat, c: nat)
    requires a <= b
    ensures a * c <= b * c
  {
    assert b * c == a * c + (b - a) * c;
  }

  /** The bytes of slot i. */
  function Element(b: seq<Byte>, ele: nat, cap: nat, i: nat): (e: seq<Byte>)
    requires Shape(b, ele, cap) && i < cap
    ensures |e| == ele
  {
    SlotFits(i, ele, cap);
    b[i * ele..i * ele + ele]
  }

  predicate Sized(e: seq<Byte>) {
    |e| > HEADER && Value(e[..HEADER]) <= |e| - HEADER
  }

  /** The message in an element: as many bytes as its length word says. */
  function Message(e: seq<Byte>): seq<Byte>
    requires Sized(e)
  {
    e[HEADER..HEADER + Value(e[..HEADER])]
  }

  predicate AllSized(b: seq<Byte>, ele: nat, cap: nat, first: nat, cnt: nat)
    requires Shape(b, ele, cap) && (cnt > 0 ==> first < cap)
    decreases cnt
  {
    cnt > 0 ==> Sized(Element(b, ele, cap, first)) && AllSized(b, ele, cap, After(first, cap), cnt - 1)
  }

  /** The messages of cnt slots from slot first on. */
  function Messages(b: seq<Byte>, ele: nat, cap: nat, first: nat, cnt: nat): (s: seq<seq<Byte>>)
    requires Shape(b, ele, cap) && (cnt > 0 ==> first < cap) && AllSized(b, ele, cap, first, cnt)
    ensures |s| == cnt
    decreases cnt
  {
    if cnt == 0 then []
    else [Message(Element(b, ele, cap, first))] + Messages(b, ele, cap, After(first, cap), cnt - 1)
  }

  /** Only slots that hold messages matter. */
  lemma {:induction false} MessagesSame(b: seq<Byte>, c: seq<Byte>, ele: nat, cap: nat, first: nat, cnt: nat)
    requires Shape(b, ele, cap) && Shape(c, ele, cap) && (cnt > 0 ==> first < cap) && cnt <= cap
    requires AllSized(b, ele, cap, first, cnt)
    requires forall k :: 0 <= k < cnt ==> Element(b, ele, cap, Slot(first, k, cap)) == Element(c, ele, cap, Slot(first, k, cap))
    ensures AllSized(c, ele, cap, first, cnt) && Messages(c, ele, cap, first, cnt) == Messages(b, ele, cap, first, cnt)
    decreases cnt
  {
    if cnt > 0 {
      assert Slot(first, 0, cap) == first;
      forall k | 0 <= k < cnt - 1
        ensures Element(b, ele, cap, Slot(After(first, cap), k, cap)) == Element(c, ele, cap, Slot(After(first, cap), k, cap))
      {
        assert Slot(After(first, cap), k, cap) == Slot(first, k + 1, cap);
      }
      MessagesSame(b, c, ele, cap, After(first, cap), cnt - 1);
    }
  }

  /** One more slot at the end is one more message at the end. */
  lemma {:induction false} MessagesAppend(b: seq<Byte>, ele: nat, cap: nat, first: nat, cnt: nat)
    requires Shape(b, ele, cap) && first < cap && cnt < cap
    requires AllSized(b, ele, cap, first, cnt) && Sized(Element(b, ele, cap, Slot(first, cnt, cap)))
    ensures AllSized(b, ele, cap, first, cnt + 1)
    ensures Messages(b, ele, cap, first, cnt + 1)
         == Messages(b, ele, cap, first, cnt) + [Message(Element(b, ele, cap, Slot(first, cnt, cap)))]
    decreases cnt
  {
    if cnt > 0 {
      assert Slot(After(first, cap), cnt - 1, cap) == Slot(first, cnt, cap);
      MessagesAppend(b, ele, cap, After(first, cap), cnt - 1);
    }
  }

  lemma SlotsDiffer(first: nat, k: nat, n: nat, cap: nat)
    requires first < cap && k < n < cap
    ensures Slot(first, k, cap) != Slot(first, n, cap) && Slot(first, n, cap) < cap
  {
  }

  /** Bytes written within one slot leave the other slots alone. */
  lemma OtherElement(b: seq<Byte>, c: seq<Byte>, ele: nat, cap: nat, i: nat, at: nat, j: nat)
    requires Shape(b, ele, cap) && Shape(c, ele, cap) && i < cap && j < cap && i != j && at == i * ele
    requires forall x :: 0 <= x < |b| && !(at <= x < at + ele) ==> c[x] == b[x]
    ensures Element(c, ele, cap, j) == Element(b, ele, cap, j)
  {
    SlotFits(j, ele, cap);
    if i < j { SlotFits(i, ele, j); } else { SlotFits(j, ele, i); }
  }

  /** Writing the slot behind the last message keeps the messages. */
  lemma OthersKept(b: seq<Byte>, c: seq<Byte>, ele: nat, cap: nat, first: nat, cnt: nat, at: nat)
    requires Shape(b, ele, cap) && Shape(c, ele, cap) && first < cap && cnt < cap && at == Slot(first, cnt, cap) * ele
    requires forall x :: 0 <= x < |b| && !(at <= x < at + ele) ==> c[x] == b[x]
    requires AllSized(b, ele, cap, first, cnt)
    ensures AllSized(c, ele, cap, first, cnt) && Messages(c, ele, cap, first, cnt) == Messages(b, ele, cap, first, cnt)
  {
    forall k | 0 <= k < cnt ensures Element(b, ele, cap, Slot(first, k, cap)) == Element(c, ele, cap, Slot(first, k, cap)) {
      SlotsDiffer(first, k, cnt, cap);
      OtherElement(b, c, ele, cap, Slot(first, cnt, cap), at, Slot(first, k, cap));
    }
    MessagesSame(b, c, ele, cap, first, cnt);
  }

  /** The offset one element behind offset t in a ring of size bytes, in 64-bit arithmetic. */
  function Advance(t: nat, ele: nat, size: nat): nat
    requires size > 0
  {
    (t + ele) % WORD % size
  }

  /** The unsigned negation of the element size. */
  function Negated(ele: nat): nat
    requires 0 < ele < WORD
  {
    WORD - ele
  }

  lemma Remainder(x: nat, m: nat)
    requires 0 <= x <= m && m > 0
    ensures x % m == if x == m then 0 else x
  {
  }

  /** Advancing an offset by one element is advancing its slot. */
  lemma AdvanceSlot(i: nat, ele: nat, cap: nat)
    requires i < cap && ele > 0 && cap * ele < WORD
    ensures cap * ele > 0 && Advance(i * ele, ele, cap * ele) == After(i, cap) * ele
  {
    SlotFits(i, ele, cap);
    var x, size := i * ele + ele, cap * ele;
    Remainder(x, WORD);
    Remainder(x, size);
    assert x == (i + 1) * ele;
    if i + 1 < cap {
      MulStrict(i + 1, cap, ele);
    }
  }

  lemma MulStrict(a: nat, b: nat, c: nat)
    requires a < b && c > 0
    ensures a * c < b * c
  {
    MulMonotone(a + 1, b, c);
  }

  /** The first advance wraps around to offset 0. */
  lemma AdvanceFirst(ele: nat, cap: nat)
    requires 0 < ele < WORD && cap > 0
    ensures cap * ele > 0 && Advance(Negated(ele), ele, cap * ele) == 0
  {
    MulStrict(0, cap, ele);
  }

  /** b with the bytes d copied to offset at. */
  function Stored(b: seq<Byte>, at: nat, d: seq<Byte>): (c: seq<Byte>)
    requires at + |d| <= |b|
    ensures |c| == |b|
    ensures forall i :: 0 <= i < |d| ==> c[at + i] == d[i]
    ensures forall x :: 0 <= x < |b| && !(at <= x < at + |d|) ==> c[x] == b[x]
  {
    b[..at] + d + b[at + |d|..]
  }

  /** Storing a message in the reserved slot makes it the element there, and keeps the messages before it. */
  lemma Reserved(b: seq<Byte>, c: seq<Byte>, ele: nat, cap: nat, first: nat, cnt: nat, at: nat, msg: seq<Byte>)
    requires Shape(b, ele, cap) && first < cap && cnt < cap && at == Slot(first, cnt, cap) * ele && at + ele <= |b|
    requires |msg| <= ele - HEADER && ele < WORD && AllSized(b, ele, cap, first, cnt)
    requires c == Stored(Stored(b, at, Bytes(|msg|, HEADER)), at + HEADER, msg)
    ensures Shape(c, ele, cap) && Slot(first, cnt, cap) < cap
    ensures Sized(Element(c, ele, cap, Slot(first, cnt, cap))) && Message(Element(c, ele, cap, Slot(first, cnt, cap))) == msg
    ensures AllSized(c, ele, cap, first, cnt) && Messages(c, ele, cap, first, cnt) == Messages(b, ele, cap, first, cnt)
  {
    var s := Slot(first, cnt, cap);
    TwoStores(b, c, at, ele, Bytes(|msg|, HEADER), msg);
    ElementAt(c, ele, cap, s, at);
    Decoded(Element(c, ele, cap, s), msg);
    OthersKept(b, c, ele, cap, first, cnt, at);
  }

  class CircBuf {
    const buf: array<Byte>
    const eleSize: nat
    const cap: nat
    var cnt: nat
    var head: nat
    var tail: nat
    /** The slot head stands on. */
    ghost var first: nat

    ghost predicate Valid()
      reads this, buf
    {
      && Shape(buf[..], eleSize, cap) && cap * eleSize < WORD && eleSize < WORD
      && cnt <= cap && (cap > 0 ==> first < cap) && (cap == 0 ==> first == 0)
      && head == first * eleSize && tail < WORD
      && (cap > 0 ==> cap * eleSize > 0 && Advance(tail, eleSize, cap * eleSize) == Slot(first, cnt, cap) * eleSize)
      && AllSized(buf[..], eleSize, cap, first, cnt)
    }

    /** The queued messages, oldest first. */
    ghost function Contents(): (s: seq<seq<Byte>>)
      requires Valid()
      reads this, buf
      ensures |s| == cnt
    {
      Messages(buf[..], eleSize, cap, first, cnt)
    }

    constructor (maxSize: nat, cap: nat)
      requires maxSize > 0 && cap * (maxSize + HEADER) < WORD && maxSize + HEADER < WORD
      ensures Valid() && Contents() == [] && this.cap == cap && eleSize == maxSize + HEADER && fresh(buf)
    {
      var ele := maxSize + HEADER;
      buf := new Byte[cap * ele];
      eleSize, this.cap, cnt, head, tail, first := ele, cap, 0, 0, Negated(ele), 0;
      new;
      if cap > 0 {
        AdvanceFirst(ele, cap);
      }
    }

    /** CLEAR_QUEUING_PORT empties the ring without touching its bytes. */
    method Reset()
      requires Valid()
      modifies this
      ensures Valid() && Contents() == []
    {
      head, tail, cnt, first := 0, Negated(eleSize), 0, 0;
      if cap > 0 {
        AdvanceFirst(eleSize, cap);
      }
    }

    method IsFull() returns (full: bool)
      requires Valid()
      ensures full == (|Contents()| == cap)
    {
      full := cnt == cap;
    }

    method IsEmpty() returns (empty: bool)
      requires Valid()
      ensures empty == (Contents() == [])
    {
      empty := cnt == 0;
    }

    /** Reserve the slot behind the last message; the ring holds what it held. */
    method EnqueueStart() returns (at: nat)
      requires Valid() && cnt < cap
      modifies this`tail
      ensures at == tail == Slot(first, cnt, cap) * eleSize && at + eleSize <= buf.Length
    {
      tail := Advance(tail, eleSize, cap * eleSize);
      SlotFits(Slot(first, cnt, cap), eleSize, cap);
      return tail;
    }

    /** Count the message that was written to the reserved slot. */
    method EnqueueEnd(ghost was: seq<seq<Byte>>)
      requires Shape(buf[..], eleSize, cap) && cap * eleSize < WORD && eleSize < WORD && cnt < cap && first < cap
      requires head == first * eleSize && tail == Slot(first, cnt, cap) * eleSize
      requires AllSized(buf[..], eleSize, cap, first, cnt) && was == Messages(buf[..], eleSize, cap, first, cnt)
      requires Sized(Element(buf[..], eleSize, cap, Slot(first, cnt, cap)))
      modifies this`cnt
      ensures Valid() && Contents() == was + [Message(Element(buf[..], eleSize, cap, Slot(first, old(cnt), cap)))]
    {
      ghost var s := Slot(first, cnt, cap);
      MessagesAppend(buf[..], eleSize, cap, first, cnt);
      SlotFits(s, eleSize, cap);
      AdvanceSlot(s, eleSize, cap);
      NextSlot(first, cnt, cap);
      cnt := cnt + 1;
    }

    /** memcpy into the ring. */
    method Store(at: nat, bytes: seq<Byte>)
      requires at + |bytes| <= buf.Length
      modifies buf
      ensures buf[..] == Stored(old(buf[..]), at, bytes)
    {
      for i := 0 to |bytes|
        invariant forall k :: 0 <= k < i ==> buf[at + k] == bytes[k]
        invariant forall x :: 0 <= x < buf.Length && !(at <= x < at + i) ==> buf[x] == old(buf[x])
      {
        buf[at + i] := bytes[i];
      }
    }

    /** The length word and the bytes of a message. */
    method StoreMessage(at: nat, msg: seq<Byte>)
      requires at + HEADER + |msg| <= buf.Length
      modifies buf
      ensures buf[..] == Stored(Stored(old(buf[..]), at, Bytes(|msg|, HEADER)), at + HEADER, msg)
    {
      Store(at, Bytes(|msg|, HEADER));
      Store(at + HEADER, msg);
    }

    /** buffer_send and queuing_port_send. */
    method Send(msg: seq<Byte>)
      requires Valid() && |Contents()| < cap && |msg| <= eleSize - HEADER
      modifies this, buf
      ensures Valid() && Contents() == old(Contents()) + [msg]
    {
      ghost var b, was := buf[..], Contents();
      var at := EnqueueStart();
      StoreMessage(at, msg);
      Reserved(b, buf[..], eleSize, cap, first, cnt, at, msg);
      EnqueueEnd(was);
    }

    /** Uncount the oldest message; its bytes stay where they are. */
    method DequeueStart() returns (at: nat)
      requires Valid() && cnt > 0
      modifies this`cnt
      ensures at == head && cnt == old(cnt) - 1
    {
      cnt := cnt - 1;
      return head;
    }

    method DequeueEnd()
      requires cap > 0 && first < cap && eleSize > 0 && head == first * eleSize && cap * eleSize < WORD
      modifies this`head, this`first
      ensures first == After(old(first), cap) && head == first * eleSize
    {
      AdvanceSlot(first, eleSize, cap);
      head := Advance(head, eleSize, cap * eleSize);
      first := After(first, cap);
    }

    /** The message at an offset, copied out. */
    method Load(at: nat, ghost s: nat) returns (msg: seq<Byte>)
      requires Shape(buf[..], eleSize, cap) && s < cap && at == s * eleSize && Sized(Element(buf[..], eleSize, cap, s))
      ensures msg == Message(Element(buf[..], eleSize, cap, s))
    {
      SlotFits(s, eleSize, cap);
      ghost var e := Element(buf[..], eleSize, cap, s);
      var size := Value(buf[at..at + HEADER]);
      assert buf[at..at + HEADER] == e[..HEADER];
      msg := buf[at + HEADER..at + HEADER + size];
      assert msg == e[HEADER..HEADER + size];
    }

    /** buffer_recv and queuing_port_recv. */
    method Receive() returns (msg: seq<Byte>)
      requires Valid() && Contents() != []
      modifies this
      ensures Valid() && [msg] + Contents() == old(Contents())
    {
      ghost var s := first;
      var at := DequeueStart();
      msg := Load(at, s);
      DequeueEnd();
      NextSlot(s, 0, cap);
      assert Slot(first, cnt, cap) == Slot(s, cnt + 1, cap);
    }
  }

  lemma NextSlot(first: nat, cnt: nat, cap: nat)
    requires first < cap && cnt < cap
    ensures After(Slot(first, cnt, cap), cap) == Slot(first, cnt + 1, cap)
  {
  }

  /** A length word and a message stored at offset at stay within the element there. */
  lemma TwoStores(b: seq<Byte>, c: seq<Byte>, at: nat, ele: nat, h: seq<Byte>, msg: seq<Byte>)
    requires |h| == HEADER && HEADER + |msg| <= ele && at + ele <= |b|
    requires c == Stored(Stored(b, at, h), at + HEADER, msg)
    ensures |c| == |b| && c[at..at + ele][..HEADER] == h && c[at..at + ele][HEADER..HEADER + |msg|] == msg
    ensures forall x :: 0 <= x < |b| && !(at <= x < at + ele) ==> c[x] == b[x]
  {
    var e := c[at..at + ele];
    assert forall i :: 0 <= i < HEADER ==> e[i] == c[at + i];
    assert forall j :: HEADER <= j < HEADER + |msg| ==> e[j] == c[at + j];
  }

  lemma ElementAt(c: seq<Byte>, ele: nat, cap: nat, s: nat, at: nat)
    requires Shape(c, ele, cap) && s < cap && at == s * ele && at + ele <= |c|
    ensures Element(c, ele, cap, s) == c[at..at + ele]
  {
  }

  lemma Decoded(e: seq<Byte>, msg: seq<Byte>)
    requires |e| > HEADER && |msg| <= |e| - HEADER && |e| < WORD
    requires e[..HEADER] == Bytes(|msg|, HEADER) && e[HEADER..HEADER + |msg|] == msg
    ensures Sized(e) && Message(e) == msg
  {
    assert Power(8) == WORD by { assert Power(4) == 0x1_0000_0000; }
    ValueOfBytes(|msg|, HEADER);
  }
}
