/** The chained hash map over intrusive lists: every node's prev names the slot that holds the node, and nodes are
    unlinked while their bucket is being traversed. */
module HashMap {
  import opened Common

  type NodeId = nat
  type Ptr = Option<NodeId>

  /** A place that holds a pointer to a node: the head of a bucket, or the next field of a node. */
  datatype Slot = Head(bucket: nat) | NextOf(node: NodeId)

  /** The bucket heads, and the link fields of the nodes. */
  datatype Mem = Mem(heads: seq<Ptr>, next: map<NodeId, Ptr>, prev: map<NodeId, Slot>)

  /** From the slot on, following next from first, the nodes ns are linked, and each prev names its slot. */
  ghost predicate Chain(m: Mem, slot: Slot, first: Ptr, ns: seq<NodeId>)
    decreases |ns|
  {
    if ns == [] then first == None
    else
      && first == Some(ns[0]) && ns[0] in m.next && ns[0] in m.prev && m.prev[ns[0]] == slot && ns[0] !in ns[1..]
      && Chain(m, NextOf(ns[0]), m.next[ns[0]], ns[1..])
  }

  // ----- the list operations -----

  /** hlist_remove_node. */
  function Unlinked(m: Mem, p: NodeId): Mem
    requires p in m.next && p in m.prev
  {
    var n, s := m.next[p], m.prev[p];
    var prev := if n.Some? then m.prev[n.value := s] else m.prev;
    match s
    case Head(b) => Mem(if b < |m.heads| then m.heads[b := n] else m.heads, m.next, prev)
    case NextOf(q) => Mem(m.heads, m.next[q := n], prev)
  }

  /** hlist_insert_head. */
  function Inserted(m: Mem, b: nat, p: NodeId): Mem
    requires b < |m.heads|
  {
    var n := m.heads[b];
    Mem(m.heads[b := Some(p)], m.next[p := n], (if n.Some? then m.prev[n.value := NextOf(p)] else m.prev)[p := Head(b)])
  }

  // ----- what they do to chains -----

  /** A chain does not notice changes outside its nodes. */
  lemma {:induction false} ChainSame(m: Mem, r: Mem, slot: Slot, first: Ptr, ns: seq<NodeId>)
    requires Chain(m, slot, first, ns)
    requires forall n :: n in ns ==> n in m.next && n in m.prev && n in r.next && n in r.prev && r.next[n] == m.next[n] && r.prev[n] == m.prev[n]
    ensures Chain(r, slot, first, ns)
    decreases |ns|
  {
    if ns != [] { ChainSame(m, r, NextOf(ns[0]), m.next[ns[0]], ns[1..]); }
  }

  /** A chain moved to another slot: only the first node notices. */
  lemma ChainMoved(m: Mem, r: Mem, slot: Slot, to: Slot, first: Ptr, ns: seq<NodeId>)
    requires Chain(m, slot, first, ns)
    requires forall n :: n in ns ==> n in m.next && n in m.prev && n in r.next && n in r.prev && r.next[n] == m.next[n]
    requires ns != [] ==> r.prev[ns[0]] == to && forall n :: n in ns[1..] ==> n in m.prev && n in r.prev && r.prev[n] == m.prev[n]
    ensures Chain(r, to, first, ns)
  {
    if ns != [] {
      assert forall n :: n in ns[1..] ==> n in ns;
      ChainSame(m, r, NextOf(ns[0]), m.next[ns[0]], ns[1..]);
    }
  }

  lemma {:induction false} ChainNodes(m: Mem, slot: Slot, first: Ptr, ns: seq<NodeId>)
    requires Chain(m, slot, first, ns)
    ensures forall n :: n in ns ==> n in m.next && n in m.prev && (m.prev[n] == slot || (m.prev[n].NextOf? && m.prev[n].node in ns))
    ensures forall n :: n in ns && m.next[n].Some? ==> m.next[n].value in ns
    decreases |ns|
  {
    if ns != [] {
      assert ns == [ns[0]] + ns[1..];
      ChainNodes(m, NextOf(ns[0]), m.next[ns[0]], ns[1..]);
      assert ns[1..] != [] ==> m.next[ns[0]] == Some(ns[1..][0]);
    }
  }

  /** Unlinking the first node of a chain. */
  lemma UnlinkFirst(m: Mem, slot: Slot, first: Ptr, ns: seq<NodeId>)
    requires ns != [] && Chain(m, slot, first, ns)
    ensures var r := Unlinked(m, ns[0]); (slot.NextOf? ==> slot.node !in ns) ==> Chain(r, slot, m.next[ns[0]], ns[1..])
  {
    if slot.NextOf? ==> slot.node !in ns {
      var r, p := Unlinked(m, ns[0]), ns[0];
      assert ns == [p] + ns[1..];
      ChainNodes(m, NextOf(p), m.next[p], ns[1..]);
      if ns[1..] != [] { assert ns[1..] == [ns[1..][0]] + ns[1..][1..]; }
      ChainMoved(m, r, NextOf(p), slot, m.next[p], ns[1..]);
    }
  }

  /** Unlinking a node anywhere in a chain. */
  lemma {:induction false} UnlinkChain(m: Mem, slot: Slot, first: Ptr, pre: seq<NodeId>, p: NodeId, post: seq<NodeId>)
    requires Chain(m, slot, first, pre + [p] + post) && (slot.NextOf? ==> slot.node !in pre + [p] + post)
    ensures p in m.next && p in m.prev
    ensures var r := Unlinked(m, p);
            && Chain(r, slot, if pre == [] then m.next[p] else first, pre + post)
            && m.prev[p] == if pre == [] then slot else NextOf(pre[|pre| - 1])
    decreases |pre|
  {
    var ns := pre + [p] + post;
    if pre == [] {
      assert ns == [p] + post && ns[1..] == post && pre + post == post;
      UnlinkFirst(m, slot, first, ns);
    } else {
      var a, rest := pre[0], pre[1..];
      assert ns[1..] == rest + [p] + post && (pre + post)[1..] == rest + post;
      UnlinkChain(m, NextOf(a), m.next[a], rest, p, post);
      HeadKept(m, a, rest, p, post, slot);
    }
  }

  lemma HeadKept(m: Mem, a: NodeId, rest: seq<NodeId>, p: NodeId, post: seq<NodeId>, slot: Slot)
    requires a in m.next && a in m.prev && m.prev[a] == slot && a !in rest + [p] + post
    requires Chain(m, NextOf(a), m.next[a], rest + [p] + post)
    requires p in m.next && p in m.prev && m.prev[p] == if rest == [] then NextOf(a) else NextOf(rest[|rest| - 1])
    ensures var r := Unlinked(m, p);
            && a in r.next && a in r.prev && r.prev[a] == slot && a !in rest + post
            && r.next[a] == if rest == [] then m.next[p] else m.next[a]
  {
    var ns := rest + [p] + post;
    ChainNodes(m, NextOf(a), m.next[a], ns);
    assert p in ns;
    assert m.next[p].Some? ==> m.next[p].value in ns;
    if rest != [] { assert rest[|rest| - 1] in ns; }
    assert forall n :: n in rest + post ==> n in ns;
  }

  /** Inserting a node at the head of its bucket. */
  lemma InsertChain(m: Mem, b: nat, p: NodeId, ns: seq<NodeId>)
    requires b < |m.heads| && Chain(m, Head(b), m.heads[b], ns) && p !in ns
    ensures var r := Inserted(m, b, p); Chain(r, Head(b), r.heads[b], [p] + ns)
  {
    var r := Inserted(m, b, p);
    ChainNodes(m, Head(b), m.heads[b], ns);
    if ns != [] { assert ns == [ns[0]] + ns[1..]; }
    ChainMoved(m, r, Head(b), NextOf(p), m.heads[b], ns);
    assert ([p] + ns)[1..] == ns;
  }

  // ----- the map -----

  type Key = string

  /** What h_key and h_code compute. */
  datatype Hash = Hash(keyOf: NodeId -> Key, code: Key -> nat, cap: nat)
  {
    ghost predicate Valid() { cap > 0 }
    function Bucket(k: Key): (b: nat)
      requires Valid()
      ensures b < cap
    {
      code(k) % cap
    }
  }

  /** The buckets hold exactly the nodes of the map, each in the bucket of its key. */
  ghost predicate Ok(h: Hash, m: Mem, chains: seq<seq<NodeId>>, model: map<Key, NodeId>) {
    && h.Valid() && |m.heads| == h.cap && |chains| == h.cap
    && (forall b :: 0 <= b < h.cap ==> Chain(m, Head(b), m.heads[b], chains[b]))
    && (forall b, n :: 0 <= b < h.cap && n in chains[b] ==>
          h.Bucket(h.keyOf(n)) == b && h.keyOf(n) in model && model[h.keyOf(n)] == n)
    && (forall k :: k in model ==> h.keyOf(model[k]) == k && model[k] in chains[h.Bucket(k)])
  }

  lemma UnlinkOthers(m: Mem, b: nat, ns: seq<NodeId>, p: NodeId, c: nat, os: seq<NodeId>)
    requires b < |m.heads| && c < |m.heads| && c != b && p in ns && forall n :: n in os ==> n !in ns
    requires Chain(m, Head(b), m.heads[b], ns) && Chain(m, Head(c), m.heads[c], os)
    ensures p in m.next && p in m.prev
    ensures Chain(Unlinked(m, p), Head(c), Unlinked(m, p).heads[c], os)
  {
    ChainNodes(m, Head(b), m.heads[b], ns);
    ChainNodes(m, Head(c), m.heads[c], os);
    ChainSame(m, Unlinked(m, p), Head(c), m.heads[c], os);
  }

  /** Unlinking a node takes its key, and nothing else, out of the map. */
  lemma UnlinkOk(h: Hash, m: Mem, chains: seq<seq<NodeId>>, model: map<Key, NodeId>, b: nat, pre: seq<NodeId>, p: NodeId, post: seq<NodeId>)
    requires Ok(h, m, chains, model) && b < h.cap && chains[b] == pre + [p] + post
    ensures p in m.next && p in m.prev
    ensures Ok(h, Unlinked(m, p), chains[b := pre + post], model - {h.keyOf(p)})
  {
    UnlinkChain(m, Head(b), m.heads[b], pre, p, post);
    var r, after := Unlinked(m, p), chains[b := pre + post];
    assert p in chains[b];
    forall c | 0 <= c < h.cap ensures Chain(r, Head(c), r.heads[c], after[c]) {
      if c != b {
        forall n | n in chains[c] ensures n !in chains[b] { assert h.Bucket(h.keyOf(n)) == c; }
        UnlinkOthers(m, b, chains[b], p, c, chains[c]);
      }
    }
    ChainDistinct(m, Head(b), m.heads[b], pre, p, post);
    Removed(h, chains, model, b, pre, p, post);
  }

  lemma {:induction false} ChainDistinct(m: Mem, slot: Slot, first: Ptr, pre: seq<NodeId>, p: NodeId, post: seq<NodeId>)
    requires Chain(m, slot, first, pre + [p] + post)
    ensures p !in pre + post
    decreases |pre|
  {
    var ns := pre + [p] + post;
    if pre != [] {
      assert ns[1..] == pre[1..] + [p] + post;
      ChainDistinct(m, NextOf(ns[0]), m.next[ns[0]], pre[1..], p, post);
      assert p in ns[1..];
      assert pre == [pre[0]] + pre[1..];
    } else {
      assert ns[1..] == post;
    }
  }

  lemma Removed(h: Hash, chains: seq<seq<NodeId>>, model: map<Key, NodeId>, b: nat, pre: seq<NodeId>, p: NodeId, post: seq<NodeId>)
    requires h.Valid() && |chains| == h.cap && b < h.cap && chains[b] == pre + [p] + post && p !in pre + post
    requires forall c, n :: 0 <= c < h.cap && n in chains[c] ==>
               h.Bucket(h.keyOf(n)) == c && h.keyOf(n) in model && model[h.keyOf(n)] == n
    requires forall k :: k in model ==> h.keyOf(model[k]) == k && model[k] in chains[h.Bucket(k)]
    ensures var after, less := chains[b := pre + post], model - {h.keyOf(p)};
            && (forall c, n :: 0 <= c < h.cap && n in after[c] ==>
                  h.Bucket(h.keyOf(n)) == c && h.keyOf(n) in less && less[h.keyOf(n)] == n)
            && (forall k :: k in less ==> h.keyOf(less[k]) == k && less[k] in after[h.Bucket(k)])
  {
    var after, less := chains[b := pre + post], model - {h.keyOf(p)};
    assert p in chains[b];
    forall c, n | 0 <= c < h.cap && n in after[c]
      ensures h.Bucket(h.keyOf(n)) == c && h.keyOf(n) in less && less[h.keyOf(n)] == n
    {
      assert n in chains[c];
      if c == b { assert n != p; }
      assert h.Bucket(h.keyOf(p)) == b;
    }
  }

  /** Linking a node whose key is not in the map adds it. */
  lemma InsertOk(h: Hash, m: Mem, chains: seq<seq<NodeId>>, model: map<Key, NodeId>, p: NodeId)
    requires Ok(h, m, chains, model) && h.keyOf(p) !in model
    ensures var b := h.Bucket(h.keyOf(p));
            Ok(h, Inserted(m, b, p), chains[b := [p] + chains[b]], model[h.keyOf(p) := p])
  {
    var b := h.Bucket(h.keyOf(p));
    var r, after := Inserted(m, b, p), chains[b := [p] + chains[b]];
    forall c | 0 <= c < h.cap ensures Chain(r, Head(c), r.heads[c], after[c]) {
      assert p !in chains[c];
      ChainNodes(m, Head(c), m.heads[c], chains[c]);
      if c == b {
        InsertChain(m, b, p, chains[b]);
      } else {
        ChainNodes(m, Head(b), m.heads[b], chains[b]);
        if chains[b] != [] { assert m.heads[b].value in chains[b]; }
        ChainSame(m, r, Head(c), m.heads[c], chains[c]);
      }
    }
  }

  function First(ns: seq<NodeId>): Ptr {
    if ns == [] then None else Some(ns[0])
  }

  lemma {:induction false} ChainNext(m: Mem, slot: Slot, first: Ptr, pre: seq<NodeId>, p: NodeId, post: seq<NodeId>)
    requires Chain(m, slot, first, pre + [p] + post)
    ensures p in m.next && p in m.prev && m.next[p] == First(post)
    ensures m.prev[p] == if pre == [] then slot else NextOf(pre[|pre| - 1])
    decreases |pre|
  {
    var ns := pre + [p] + post;
    if pre == [] {
      assert ns[1..] == post;
    } else {
      assert ns[1..] == pre[1..] + [p] + post;
      ChainNext(m, NextOf(ns[0]), m.next[ns[0]], pre[1..], p, post);
    }
  }

  /** The traversal stands at a node of the bucket: the nodes in pre are behind it and do not have the key. */
  ghost predicate Traversing(h: Hash, m: Mem, chains: seq<seq<NodeId>>, model: map<Key, NodeId>, key: Key, ptr: Ptr, pre: seq<NodeId>, post: seq<NodeId>) {
    && Ok(h, m, chains, model) && chains[h.Bucket(key)] == pre + post && ptr == First(post)
    && forall n :: n in pre ==> h.keyOf(n) != key
  }

  lemma TraverseNext(h: Hash, m: Mem, chains: seq<seq<NodeId>>, model: map<Key, NodeId>, key: Key, ptr: Ptr, pre: seq<NodeId>, post: seq<NodeId>)
    requires Traversing(h, m, chains, model, key, ptr, pre, post) && ptr.Some?
    ensures post != [] && ptr.value == post[0] && ptr.value in m.next && ptr.value in m.prev
    ensures m.prev[ptr.value].Head? ==> m.prev[ptr.value].bucket < |m.heads|
    ensures h.keyOf(ptr.value) != key ==> Traversing(h, m, chains, model, key, m.next[ptr.value], pre + [ptr.value], post[1..])
    ensures h.keyOf(ptr.value) == key ==>
              var r := Unlinked(m, ptr.value);
              && ptr.value in r.next && key in model
              && Traversing(h, r, chains[h.Bucket(key) := pre + post[1..]], model - {key}, key, r.next[ptr.value], pre, post[1..])
  {
    var b, p, rest := h.Bucket(key), post[0], post[1..];
    assert post == [p] + rest;
    assert pre + post == pre + [p] + rest;
    ChainNext(m, Head(b), m.heads[b], pre, p, rest);
    ChainDistinct(m, Head(b), m.heads[b], pre, p, rest);
    if h.keyOf(p) == key {
      assert p in chains[b];
      UnlinkOk(h, m, chains, model, b, pre, p, rest);
    }
  }

  /** Behind the last node the key is no key of the map. */
  lemma TraverseEnd(h: Hash, m: Mem, chains: seq<seq<NodeId>>, model: map<Key, NodeId>, key: Key, pre: seq<NodeId>, post: seq<NodeId>)
    requires Traversing(h, m, chains, model, key, None, pre, post)
    ensures key !in model
  {
    assert pre + post == pre;
  }

  lemma Smaller(model: map<Key, NodeId>, key: Key)
    requires key in model
    ensures |model| == |model - {key}| + 1
  {
    assert model == (model - {key})[key := model[key]];
  }

  lemma Without(model: map<Key, NodeId>, key: Key)
    ensures (model - {key}) - {key} == model - {key}
    ensures key !in model ==> model - {key} == model
  {
  }

  lemma Readded(model: map<Key, NodeId>, key: Key, p: NodeId)
    ensures (model - {key})[key := p] == model[key := p]
  {
  }

  class Table {
    const h: Hash
    const heads: array<Ptr>
    var next: map<NodeId, Ptr>
    var prev: map<NodeId, Slot>
    var num: nat
    ghost var chains: seq<seq<NodeId>>
    /** The finite map the table refines. */
    ghost var model: map<Key, NodeId>

    ghost function Memory(): Mem
      reads this, heads
    {
      Mem(heads[..], next, prev)
    }

    ghost predicate Valid()
      reads this, heads
    {
      Ok(h, Memory(), chains, model) && num == |model|
    }

    constructor (h: Hash)
      requires h.Valid()
      ensures Valid() && fresh(heads) && model == map[] && this.h == h
    {
      this.h := h;
      heads := new Ptr[h.cap](i => None);
      next, prev, num, chains, model := map[], map[], 0, seq(h.cap, i => []), map[];
    }

    /** hlist_remove_node: the slot that held p now holds the node behind it. */
    method Unlink(p: NodeId)
      requires p in next && p in prev && (prev[p].Head? ==> prev[p].bucket < heads.Length)
      modifies this`next, this`prev, heads
      ensures Memory() == Unlinked(old(Memory()), p)
    {
      var n, s := next[p], prev[p];
      if n.Some? { prev := prev[n.value := s]; }
      match s
      case Head(b) => heads[b] := n;
      case NextOf(q) => next := next[q := n];
    }

    method InsertHead(b: nat, p: NodeId)
      requires b < heads.Length
      modifies this`next, this`prev, heads
      ensures Memory() == Inserted(old(Memory()), b, p)
    {
      var n := heads[b];
      next := next[p := n];
      if n.Some? { prev := prev[n.value := NextOf(p)]; }
      heads[b] := Some(p);
      prev := prev[p := Head(b)];
    }

    /** Unlinking a node and uncounting it. */
    method Drop(key: Key, p: NodeId, ghost rest: seq<seq<NodeId>>)
      requires p in next && p in prev && (prev[p].Head? ==> prev[p].bucket < heads.Length) && num > 0
      modifies this`next, this`prev, this`num, this`chains, this`model, heads
      ensures Memory() == Unlinked(old(Memory()), p) && num == old(num) - 1
      ensures chains == rest && model == old(model) - {key}
    {
      Unlink(p);
      num := num - 1;
      chains, model := rest, model - {key};
    }

    /** One node of the traversal: unlinked if it has the key, left behind if not. */
    method Pass(key: Key, p: NodeId, ghost pre: seq<NodeId>, ghost post: seq<NodeId>) returns (q: Ptr, ghost behind: seq<NodeId>)
      requires Traversing(h, Memory(), chains, model, key, Some(p), pre, post) && num == |model|
      modifies this`next, this`prev, this`num, this`chains, this`model, heads
      ensures post != [] && Traversing(h, Memory(), chains, model, key, q, behind, post[1..]) && num == |model|
      ensures model - {key} == old(model) - {key}
    {
      TraverseNext(h, Memory(), chains, model, key, Some(p), pre, post);
      if h.keyOf(p) == key {
        Without(model, key);
        Smaller(model, key);
        Drop(key, p, chains[h.Bucket(key) := pre + post[1..]]);
        behind := pre;
      } else {
        behind := pre + [p];
      }
      q := next[p];
    }

    /** The traversal of hashmap_remove, and of hashmap_put before it inserts: it follows next even from a node it
        has just unlinked. */
    method Remove(key: Key)
      requires Valid()
      modifies this`next, this`prev, this`num, this`chains, this`model, heads
      ensures Valid() && model == old(model) - {key}
    {
      var ptr := heads[h.Bucket(key)];
      ghost var pre, post: seq<NodeId> := [], chains[h.Bucket(key)];
      assert [] + post == post;
      assert Chain(Memory(), Head(h.Bucket(key)), heads[h.Bucket(key)], post);
      while ptr.Some?
        invariant Traversing(h, Memory(), chains, model, key, ptr, pre, post) && num == |model|
        invariant model - {key} == old(model) - {key}
        decreases |post|
      {
        ptr, pre := Pass(key, ptr.value, pre, post);
        post := post[1..];
      }
      TraverseEnd(h, Memory(), chains, model, key, pre, post);
      Without(model, key);
    }

    method Put(p: NodeId)
      requires Valid()
      modifies this`next, this`prev, this`num, this`chains, this`model, heads
      ensures Valid() && model == old(model)[h.keyOf(p) := p]
    {
      var key := h.keyOf(p);
      ghost var before := model;
      Remove(key);
      Insert(key, p);
      Readded(before, key, p);
    }

    method Insert(key: Key, p: NodeId)
      requires Valid() && key == h.keyOf(p) && key !in model
      modifies this`next, this`prev, this`num, this`chains, this`model, heads
      ensures Valid() && model == old(model)[key := p]
    {
      InsertOk(h, Memory(), chains, model, p);
      InsertHead(h.Bucket(key), p);
      num := num + 1;
      chains := chains[h.Bucket(key) := [p] + chains[h.Bucket(key)]];
      model := model[key := p];
    }

    method Get(key: Key) returns (r: Ptr)
      requires Valid()
      ensures r == if key in model then Some(model[key]) else None
    {
      var ptr := heads[h.Bucket(key)];
      ghost var pre, post: seq<NodeId> := [], chains[h.Bucket(key)];
      assert [] + post == post;
      assert Chain(Memory(), Head(h.Bucket(key)), heads[h.Bucket(key)], post);
      while ptr.Some?
        invariant Traversing(h, Memory(), chains, model, key, ptr, pre, post)
        decreases |post|
      {
        TraverseNext(h, Memory(), chains, model, key, ptr, pre, post);
        if h.keyOf(ptr.value) == key {
          assert ptr.value in chains[h.Bucket(key)];
          return ptr;
        }
        pre := pre + [ptr.value];
        post := post[1..];
        ptr := next[ptr.value];
      }
      TraverseEnd(h, Memory(), chains, model, key, pre, post);
      return None;
    }
  }
}
