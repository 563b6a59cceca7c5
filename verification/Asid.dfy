/** Address-space identifiers of one hart: a bitmap of those in use, a generation that advances when they run out,
    and the refresh that proc_run does before it switches to a partition. */
module Asid {
  import opened Common
  import opened Bitset

  const WORD: nat := 64
  /** What the search returns when no bit is clear, as an unsigned int. */
  const NOTHING: nat := 0xffff_ffff

  type Part = nat

  /** The identifier a partition has on this hart, and the generation it is from. */
  datatype Grant = Grant(asid: nat, generation: nat)

  predicate Words(ws: seq<Bits>) {
    forall i :: 0 <= i < |ws| ==> |ws[i]| == WORD
  }

  function BitAt(ws: seq<Bits>, i: nat): bool
    requires Words(ws) && i < |ws| * WORD
  {
    ws[i / WORD][i % WORD]
  }

  /** The least clear bit, if there is one. */
  function FirstClear(ws: seq<Bits>, i: nat): (r: Option<nat>)
    requires Words(ws) && i <= |ws| * WORD
    ensures r.Some? ==> i <= r.value < |ws| * WORD && !BitAt(ws, r.value)
    ensures forall k :: i <= k < (if r.Some? then r.value else |ws| * WORD) ==> BitAt(ws, k)
    decreases |ws| * WORD - i
  {
    if i == |ws| * WORD then None else if !BitAt(ws, i) then Some(i) else FirstClear(ws, i + 1)
  }

  predicate AllSet(w: Bits) {
    forall i :: 0 <= i < |w| ==> w[i]
  }

  class Bitmap {
    var words: array<Bits>

    ghost predicate Valid()
      reads this, words
    {
      Words(words[..])
    }

    constructor (size: nat)
      ensures Valid() && fresh(words) && words.Length == size
      ensures forall i :: 0 <= i < size * WORD ==> !BitAt(words[..], i)
    {
      words := new Bits[size](i => Zeros(WORD));
      new;
      assert forall i :: 0 <= i < size ==> words[..][i] == Zeros(WORD);
    }

    method SetBit(i: nat)
      requires Valid() && i < words.Length * WORD
      modifies words
      ensures Valid()
      ensures forall k :: 0 <= k < words.Length * WORD ==> BitAt(words[..], k) == (k == i || BitAt(old(words[..]), k))
    {
      words[i / WORD] := words[i / WORD][i % WORD := true];
    }

    method ClearBit(i: nat)
      requires Valid() && i < words.Length * WORD
      modifies words
      ensures Valid()
      ensures forall k :: 0 <= k < words.Length * WORD ==> BitAt(words[..], k) == (k != i && BitAt(old(words[..]), k))
    {
      words[i / WORD] := words[i / WORD][i % WORD := false];
    }

    method Reset()
      requires Valid()
      modifies words
      ensures Valid() && forall k :: 0 <= k < words.Length * WORD ==> !BitAt(words[..], k)
    {
      for i := 0 to words.Length
        invariant Valid() && forall j :: 0 <= j < i ==> words[j] == Zeros(WORD)
      {
        words[i] := Zeros(WORD);
      }
    }

    /** The word-level search. Behind a full bitmap it looks at the word that follows it in memory; whatever that
        is, the result then lies past the bitmap. */
    method FindFirstZero(following: Bits) returns (bit: nat)
      requires Valid() && |following| == WORD && words.Length * WORD + WORD < NOTHING
      ensures var r := FirstClear(words[..], 0);
              if r.Some? then bit == r.value else bit >= words.Length * WORD
    {
      var i := 0;
      while i < words.Length && AllSet(words[i])
        invariant 0 <= i <= words.Length
        invariant forall k :: 0 <= k < i ==> AllSet(words[k])
      {
        i := i + 1;
      }
      var w := Not(if i < words.Length then words[i] else following);
      var j := Ffs64(w);
      bit := if j > 0 then i * WORD + (j - 1) else NOTHING;
      if i == words.Length {
        FullBefore(words[..], i, 0);
        if j == 0 {
        } else {
          assert bit >= i * WORD;
        }
      } else {
        var r := LowestExists(w);
        Ffs64Finds(w, r);
        ClearAt(words[..], i, r);
      }
    }
  }

  lemma {:induction false} FullBefore(ws: seq<Bits>, n: nat, i: nat)
    requires Words(ws) && n == |ws| && i <= n * WORD && forall k :: 0 <= k < n ==> AllSet(ws[k])
    ensures FirstClear(ws, i) == None
    decreases n * WORD - i
  {
    if i < n * WORD {
      assert AllSet(ws[i / WORD]);
      FullBefore(ws, n, i + 1);
    }
  }

  /** The first word that is not full holds the least clear bit. */
  lemma ClearAt(ws: seq<Bits>, n: nat, r: nat)
    requires Words(ws) && n < |ws| && forall k :: 0 <= k < n ==> AllSet(ws[k])
    requires r < WORD && !ws[n][r] && forall k :: 0 <= k < r ==> ws[n][k]
    ensures FirstClear(ws, 0) == Some(n * WORD + r)
  {
    var at := n * WORD + r;
    assert at / WORD == n && at % WORD == r;
    assert !BitAt(ws, at);
    forall k | 0 <= k < at ensures BitAt(ws, k) { SetBefore(ws, n, r, k); }
  }

  lemma SetBefore(ws: seq<Bits>, n: nat, r: nat, k: nat)
    requires Words(ws) && n < |ws| && forall i :: 0 <= i < n ==> AllSet(ws[i])
    requires r < WORD && forall i :: 0 <= i < r ==> ws[n][i]
    requires k < n * WORD + r
    ensures BitAt(ws, k)
  {
    if k / WORD < n { assert AllSet(ws[k / WORD]); }
  }

  /** Every identifier up to the maximum is in use. */
  ghost predicate AllTaken(ws: seq<Bits>, max: nat) {
    Words(ws) && max < |ws| * WORD && forall i :: 0 <= i <= max ==> BitAt(ws, i)
  }

  /** The identifier was the least not in use, and is in use now, and nothing else has changed. */
  ghost predicate TakesLeast(was: seq<Bits>, ws: seq<Bits>, max: nat, asid: nat) {
    && Words(was) && Words(ws) && asid <= max < |was| * WORD && |ws| == |was|
    && !BitAt(was, asid) && (forall i :: 0 <= i < asid ==> BitAt(was, i))
    && forall i :: 0 <= i <= max ==> BitAt(ws, i) == (i == asid || BitAt(was, i))
  }

  /** All were in use; now the first one is alone. */
  ghost predicate StartsOver(was: seq<Bits>, ws: seq<Bits>, max: nat, asid: nat) {
    AllTaken(was, max) && asid == 0 && Words(ws) && |ws| == |was| && forall i :: 0 <= i <= max ==> BitAt(ws, i) == (i == 0)
  }

  class Hart {
    const max: nat
    var generation: nat
    var map_: Bitmap
    var grants: map<Part, Grant>

    predicate Current(p: Part)
      reads this
    {
      p in grants && grants[p].generation == generation
    }

    /** Partitions of the current generation have distinct identifiers in range, each marked in use. */
    ghost predicate Valid()
      reads this, map_, map_.words
    {
      && map_.Valid() && map_.words.Length == max / WORD + 1 && max <= 0xffff && generation >= 1
      && (forall p :: p in grants ==> grants[p].generation <= generation)
      && (forall p :: Current(p) ==> grants[p].asid <= max && BitAt(map_.words[..], grants[p].asid))
      && (forall p, q :: Current(p) && Current(q) && p != q ==> grants[p].asid != grants[q].asid)
    }

    constructor (max: nat)
      requires max <= 0xffff
      ensures Valid() && fresh(map_) && fresh(map_.words) && this.max == max && grants == map[] && generation == 1
    {
      this.max, generation, grants := max, 1, map[];
      map_ := new Bitmap(max / WORD + 1);
    }

    /** A new partition starts with generation 0, which is never current. */
    method AddPart(p: Part)
      requires Valid() && p !in grants
      modifies this`grants
      ensures Valid() && grants == old(grants)[p := Grant(0, 0)] && !Current(p)
    {
      grants := grants[p := Grant(0, 0)];
    }

    /** asid_alloc fails exactly when all identifiers up to the maximum are in use. */
    method Alloc(following: Bits) returns (asid: Option<nat>)
      requires Valid() && |following| == WORD
      modifies map_.words
      ensures Valid()
      ensures asid.None? <==> forall i :: 0 <= i <= max ==> BitAt(old(map_.words[..]), i)
      ensures asid.Some? ==> asid.value <= max && !BitAt(old(map_.words[..]), asid.value)
                             && forall i :: 0 <= i < asid.value ==> BitAt(old(map_.words[..]), i)
      ensures asid.Some? ==> forall i :: 0 <= i <= max ==>
                BitAt(map_.words[..], i) == (i == asid.value || BitAt(old(map_.words[..]), i))
      ensures asid.None? ==> map_.words[..] == old(map_.words[..])
    {
      var bit := map_.FindFirstZero(following);
      if bit > max { return None; }
      map_.SetBit(bit);
      return Some(bit);
    }

    /** asid_free refuses an identifier out of range or not in use. The hypothesis: no partition of the current
        generation has it. */
    method Free(asid: nat) returns (ok: bool)
      requires Valid() && forall p :: Current(p) ==> grants[p].asid != asid
      modifies map_.words
      ensures Valid()
      ensures ok <==> asid <= max && BitAt(old(map_.words[..]), asid)
      ensures forall i :: 0 <= i <= max ==> BitAt(map_.words[..], i) == (!(ok && i == asid) && BitAt(old(map_.words[..]), i))
    {
      if asid > max { return false; }
      if !map_.words[asid / WORD][asid % WORD] { return false; }
      map_.ClearBit(asid);
      return true;
    }

    /** No identifier of an older generation counts any more. */
    method NextGeneration()
      requires Valid()
      modifies this`generation, map_.words
      ensures Valid() && generation == old(generation) + 1
      ensures forall i :: 0 <= i <= max ==> !BitAt(map_.words[..], i)
    {
      generation := generation + 1;
      map_.Reset();
    }

    /** What proc_run does before a switch to partition p: a partition of an older generation gets a new
        identifier, in a new generation if all are taken; the loop ends after one new generation at most. */
    method Refresh(p: Part, following: Bits)
      requires Valid() && p in grants && |following| == WORD
      modifies this`generation, this`grants, map_.words
      ensures Valid() && old(generation) <= generation <= old(generation) + 1
      ensures grants.Keys == old(grants.Keys) && grants[p].generation == generation && forall q :: q in grants && q != p ==> grants[q] == old(grants)[q]
      ensures old(grants)[p].generation == old(generation) ==>
                grants == old(grants) && generation == old(generation) && map_.words[..] == old(map_.words[..])
      ensures old(grants)[p].generation < old(generation) ==>
                if generation == old(generation) then TakesLeast(old(map_.words[..]), map_.words[..], max, grants[p].asid)
                else StartsOver(old(map_.words[..]), map_.words[..], max, grants[p].asid)
    {
      if grants[p].generation < generation {
        ghost var was := map_.words[..];
        var asid := Alloc(following);
        while asid.None?
          invariant Valid() && grants == old(grants) && grants[p].generation < generation && map_.words.Length == |was|
          invariant asid.None? ==> generation == old(generation) && map_.words[..] == was && AllTaken(was, max)
          invariant asid.Some? ==> Granted(asid.value) && old(generation) <= generation <= old(generation) + 1
          invariant asid.Some? ==> if generation == old(generation) then TakesLeast(was, map_.words[..], max, asid.value)
                                   else StartsOver(was, map_.words[..], max, asid.value)
          decreases asid.None?
        {
          asid := AllocAnew(following);
        }
        grants := grants[p := Grant(asid.value, generation)];
      }
    }

    /** The first identifier of a new generation. */
    method AllocAnew(following: Bits) returns (asid: Option<nat>)
      requires Valid() && |following| == WORD
      modifies this`generation, map_.words
      ensures Valid() && generation == old(generation) + 1 && asid == Some(0) && Granted(0)
      ensures forall i :: 0 <= i <= max ==> BitAt(map_.words[..], i) == (i == 0)
    {
      NextGeneration();
      ghost var ws := map_.words[..];
      assert !BitAt(ws, 0);
      asid := Alloc(following);
    }

    /** In range, in use, and of no partition of the current generation. */
    ghost predicate Granted(asid: nat)
      reads this, map_, map_.words
    {
      && map_.Valid() && map_.words.Length == max / WORD + 1
      && asid <= max && BitAt(map_.words[..], asid)
      && forall q :: Current(q) ==> grants[q].asid != asid
    }
  }
}
