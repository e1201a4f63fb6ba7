/**
 The arena of the short allocator: a bump pointer over a fixed buffer, which falls back on the
 heap when the buffer is full and takes memory back only when the block on top is freed.
 Addresses are naturals below 2^64; heap addresses lie outside the buffer.
 */
module Arena {
  import opened Arithmetic
  import opened BitMask

  /** `buf_`, `N` and `alignment`; the alignment is 2^k. */
  datatype Layout = Layout(base: nat, size: nat, k: nat) {
    function Alignment(): nat {
      Pow2(k)
    }

    /** The end of the buffer counts as inside, as in the source. */
    predicate InBuffer(p: nat) {
      base <= p <= base + size
    }

    ghost predicate Valid() {
      k <= 63 && Alignment() <= WORD && base % Alignment() == 0 && base + size < WORD
    }

    function Rounded(n: nat): nat
      requires Alignment() <= WORD
    {
      AlignUp(n, Alignment())
    }

    /** A request whose rounding does not wrap; without it the block would be smaller than asked. */
    predicate Fits(n: nat) {
      n + Alignment() - 1 < WORD
    }
  }

  /** An address handed out, and the size asked for. */
  datatype Block = Block(p: nat, n: nat)

  datatype State = State(ptr: nat, live: seq<Block>)

  function Init(l: Layout): State {
    State(l.base, [])
  }

  function Used(l: Layout, s: State): int {
    s.ptr - l.base
  }

  function Allocate(l: Layout, s: State, n: nat, heap: nat): State
    requires l.Valid()
  {
    if l.base + l.size - s.ptr >= l.Rounded(n) then State(s.ptr + l.Rounded(n), s.live + [Block(s.ptr, n)])
    else State(s.ptr, s.live + [Block(heap, n)])
  }

  function Freed(l: Layout, ptr: nat, b: Block): nat
    requires l.Valid()
  {
    if l.InBuffer(b.p) && b.p + l.Rounded(b.n) == ptr then b.p else ptr
  }

  /** Any live block may be freed. */
  function Deallocate(l: Layout, s: State, i: nat): State
    requires l.Valid() && i < |s.live|
  {
    State(Freed(l, s.ptr, s.live[i]), s.live[..i] + s.live[i + 1..])
  }

  // ----- the invariant -----

  ghost predicate Aligned(l: Layout, p: nat)
    requires l.Valid()
  {
    p % l.Alignment() == 0
  }

  /** Where a live block of the buffer lies. Only a block of size zero may lie above the pointer. */
  ghost predicate Placed(l: Layout, ptr: nat, b: Block)
    requires l.Valid()
  {
    l.InBuffer(b.p) ==>
      Aligned(l, b.p) && b.n <= l.Rounded(b.n) && (b.n > 0 ==> b.p + l.Rounded(b.n) <= ptr)
  }

  ghost predicate Disjoint(l: Layout, a: Block, b: Block)
    requires l.Valid()
  {
    l.InBuffer(a.p) && l.InBuffer(b.p) && a.n > 0 && b.n > 0 ==>
      a.p + l.Rounded(a.n) <= b.p || b.p + l.Rounded(b.n) <= a.p
  }

  ghost predicate Inv(l: Layout, s: State)
    requires l.Valid()
  {
    && l.InBuffer(s.ptr) && Aligned(l, s.ptr)
    && (forall i :: 0 <= i < |s.live| ==> Placed(l, s.ptr, s.live[i]) && l.Fits(s.live[i].n))
    && (forall i, j :: 0 <= i < j < |s.live| ==> Disjoint(l, s.live[i], s.live[j]))
  }

  lemma SumAligned(l: Layout, a: nat, b: nat)
    requires l.Valid() && Aligned(l, a) && Aligned(l, b)
    ensures Aligned(l, a + b)
  {
    var m := l.Alignment();
    DivMod(a, m);
    DivMod(b, m);
    MulMinus(a / m, -(b / m), m);
    MulMinus(0, b / m, m);
    RemainderUnique(a + b, m, a / m + b / m, 0);
  }

  lemma RoundedFacts(l: Layout, n: nat)
    requires l.Valid() && l.Fits(n)
    ensures Aligned(l, l.Rounded(n)) && n <= l.Rounded(n) && (n == 0 ==> l.Rounded(n) == 0)
  {
    AlignUpIsLeast(n, l.k);
    if n == 0 {
      RemainderUnique(0, l.Alignment(), 0, 0);
    }
  }

  lemma AllocateInv(l: Layout, s: State, n: nat, heap: nat)
    requires l.Valid() && Inv(l, s) && l.Fits(n) && !l.InBuffer(heap)
    ensures Inv(l, Allocate(l, s, n, heap))
  {
    var s' := Allocate(l, s, n, heap);
    RoundedFacts(l, n);
    if s'.ptr != s.ptr {
      SumAligned(l, s.ptr, l.Rounded(n));
    }
    forall i | 0 <= i < |s'.live| ensures Placed(l, s'.ptr, s'.live[i]) && l.Fits(s'.live[i].n) {
      if i < |s.live| {
        assert s'.live[i] == s.live[i];
      }
    }
    forall i, j | 0 <= i < j < |s'.live| ensures Disjoint(l, s'.live[i], s'.live[j]) {
      assert s'.live[i] == s.live[i] && Placed(l, s.ptr, s.live[i]);
      if j < |s.live| {
        assert s'.live[j] == s.live[j];
      }
    }
  }

  lemma DeallocateInv(l: Layout, s: State, i: nat)
    requires l.Valid() && Inv(l, s) && i < |s.live|
    ensures Inv(l, Deallocate(l, s, i))
  {
    var s', b := Deallocate(l, s, i), s.live[i];
    RoundedFacts(l, b.n);
    assert Placed(l, s.ptr, b);
    forall j | 0 <= j < |s'.live| ensures Placed(l, s'.ptr, s'.live[j]) && l.Fits(s'.live[j].n) {
      var j' := if j < i then j else j + 1;
      var c := s.live[j'];
      assert s'.live[j] == c && Placed(l, s.ptr, c);
      assert Disjoint(l, if j < i then c else b, if j < i then b else c);
    }
    forall j, k | 0 <= j < k < |s'.live| ensures Disjoint(l, s'.live[j], s'.live[k]) {
      var j', k' := if j < i then j else j + 1, if k < i then k else k + 1;
      assert s'.live[j] == s.live[j'] && s'.live[k] == s.live[k'];
    }
  }

  // ----- runs -----

  datatype Op = Alloc(n: nat, heap: nat) | Free(i: nat)

  predicate Legal(l: Layout, s: State, op: Op) {
    match op
    case Alloc(n, heap) => l.Fits(n) && !l.InBuffer(heap)
    case Free(i) => i < |s.live|
  }

  function Apply(l: Layout, s: State, op: Op): State
    requires l.Valid() && Legal(l, s, op)
  {
    match op
    case Alloc(n, heap) => Allocate(l, s, n, heap)
    case Free(i) => Deallocate(l, s, i)
  }

  ghost predicate LegalRun(l: Layout, s: State, ops: seq<Op>)
    requires l.Valid()
    decreases |ops|
  {
    ops == [] || (Legal(l, s, ops[0]) && LegalRun(l, Apply(l, s, ops[0]), ops[1..]))
  }

  function Exec(l: Layout, s: State, ops: seq<Op>): State
    requires l.Valid() && LegalRun(l, s, ops)
    decreases |ops|
  {
    if ops == [] then s else Exec(l, Apply(l, s, ops[0]), ops[1..])
  }

  lemma {:induction false} RunInv(l: Layout, s: State, ops: seq<Op>)
    requires l.Valid() && Inv(l, s) && LegalRun(l, s, ops)
    ensures Inv(l, Exec(l, s, ops))
    decreases |ops|
  {
    if ops != [] {
      match ops[0] {
        case Alloc(n, heap) => AllocateInv(l, s, n, heap);
        case Free(i) => DeallocateInv(l, s, i);
      }
      RunInv(l, Apply(l, s, ops[0]), ops[1..]);
    }
  }

  /**
   After any allocations and frees, in any order: live blocks of the buffer are aligned, lie
   below the pointer and inside the buffer, and do not overlap; what is used is a multiple of
   the alignment and at most the size.
   */
  lemma BlocksNeverOverlap(l: Layout, ops: seq<Op>)
    requires l.Valid() && LegalRun(l, Init(l), ops)
    ensures var s := Exec(l, Init(l), ops);
            && 0 <= Used(l, s) <= l.size && Used(l, s) % l.Alignment() == 0
            && (forall i :: 0 <= i < |s.live| && l.InBuffer(s.live[i].p) ==> s.live[i].p % l.Alignment() == 0)
            && (forall i :: 0 <= i < |s.live| && l.InBuffer(s.live[i].p) && s.live[i].n > 0 ==>
                  s.live[i].p + s.live[i].n <= s.ptr <= l.base + l.size)
            && (forall i, j :: 0 <= i < j < |s.live| && l.InBuffer(s.live[i].p) && l.InBuffer(s.live[j].p) ==>
                  NoOverlap(s.live[i], s.live[j]))
  {
    RunInv(l, Init(l), ops);
    var s := Exec(l, Init(l), ops);
    DifferenceAligned(l, s.ptr, l.base);
    forall i | 0 <= i < |s.live| && l.InBuffer(s.live[i].p)
      ensures s.live[i].p % l.Alignment() == 0
      ensures s.live[i].n > 0 ==> s.live[i].p + s.live[i].n <= s.ptr <= l.base + l.size
    {
      assert Placed(l, s.ptr, s.live[i]);
    }
    forall i, j | 0 <= i < j < |s.live| && l.InBuffer(s.live[i].p) && l.InBuffer(s.live[j].p)
      ensures NoOverlap(s.live[i], s.live[j])
    {
      assert Placed(l, s.ptr, s.live[i]) && Placed(l, s.ptr, s.live[j]);
      assert Disjoint(l, s.live[i], s.live[j]);
    }
  }

  predicate Covers(b: Block, address: nat) {
    b.p <= address < b.p + b.n
  }

  /** No address belongs to both blocks. */
  ghost predicate NoOverlap(a: Block, b: Block) {
    forall x: nat :: !(Covers(a, x) && Covers(b, x))
  }

  lemma DifferenceAligned(l: Layout, a: nat, b: nat)
    requires l.Valid() && Aligned(l, a) && Aligned(l, b) && b <= a
    ensures (a - b) % l.Alignment() == 0
  {
    var m := l.Alignment();
    DivMod(a, m);
    DivMod(b, m);
    MulMinus(a / m, b / m, m);
    MulAtLeast(b / m - a / m, m);
    MulMinus(b / m, a / m, m);
    RemainderUnique(a - b, m, a / m - b / m, 0);
  }

  /** In every run every live block of the buffer of size `n` ends at or below the pointer. */
  ghost predicate AlwaysBelow(l: Layout, n: nat)
    requires l.Valid()
  {
    forall ops, i :: LegalRun(l, Init(l), ops) && 0 <= i < |Exec(l, Init(l), ops).live| ==>
      EndsBelow(l, Exec(l, Init(l), ops), i, n)
  }

  predicate EndsBelow(l: Layout, s: State, i: nat, n: nat)
    requires i < |s.live|
  {
    l.InBuffer(s.live[i].p) && s.live[i].n == n ==> s.live[i].p + n <= s.ptr
  }

  /**
   A block of size zero, allocated on top of a block that is then freed, is live above the
   pointer; any layout with room for a block allows it.
   */
  lemma EmptyBlockAbovePointer(l: Layout) returns (ops: seq<Op>)
    requires l.Valid() && l.Alignment() <= l.size
    ensures LegalRun(l, Init(l), ops)
    ensures Exec(l, Init(l), ops) == State(l.base, [Block(l.base + l.Alignment(), 0)])
  {
    var a, h := l.Alignment(), l.base + l.size + 1;
    OneAlignedBlock(l);
    RoundedFacts(l, 0);
    var s1 := State(l.base + a, [Block(l.base, a)]);
    var s2 := State(l.base + a, [Block(l.base, a), Block(l.base + a, 0)]);
    var s3 := State(l.base, [Block(l.base + a, 0)]);
    var free := [Free(0)];
    var more := [Alloc(0, h), Free(0)];
    ops := [Alloc(a, h), Alloc(0, h), Free(0)];
    assert Allocate(l, Init(l), a, h) == s1 && Allocate(l, s1, 0, h) == s2 && Deallocate(l, s2, 0) == s3;
    assert LegalRun(l, s2, free) && Exec(l, s2, free) == s3;
    assert more[1..] == free && ops[1..] == more;
    assert LegalRun(l, s1, more) && Exec(l, s1, more) == s3;
  }

  lemma OneAlignedBlock(l: Layout)
    requires l.Valid() && l.Alignment() <= l.size
    ensures l.Fits(l.Alignment()) && l.Rounded(l.Alignment()) == l.Alignment()
  {
    var a := l.Alignment();
    AtMostHalfAWord(l.k);
    AlignUpIsLeast(a, l.k);
    RemainderUnique(a, a, 1, 0);
  }

  /** An alignment is a power of two below 2^64. */
  lemma AtMostHalfAWord(k: nat)
    requires k <= 63
    ensures 2 * Pow2(k) <= WORD
  {
    WordIsPow2();
    Pow2Monotone(k + 1, 64);
  }

  /** In a buffer too small for a block of any size the pointer stays where it is. */
  lemma SmallBuffer(l: Layout, p: nat)
    requires l.Valid() && l.size < l.Alignment() && l.InBuffer(p) && Aligned(l, p)
    ensures p == l.base
  {
    if l.base < p {
      MultiplesApart(p, l.base, l.Alignment());
    }
  }

  /**
   When live blocks of size `n` are always below the pointer: exactly when `n` is not zero, or
   the buffer is too small to hold any block of another size.
   */
  lemma AlwaysBelowExactlyWhen(l: Layout, n: nat)
    requires l.Valid()
    ensures AlwaysBelow(l, n) <==> n > 0 || l.size < l.Alignment()
  {
    if n > 0 || l.size < l.Alignment() {
      forall ops, i | LegalRun(l, Init(l), ops) && 0 <= i < |Exec(l, Init(l), ops).live|
        ensures EndsBelow(l, Exec(l, Init(l), ops), i, n)
      {
        RunEndsBelow(l, ops, i, n);
      }
    } else {
      var ops := EmptyBlockAbovePointer(l);
      assert !EndsBelow(l, Exec(l, Init(l), ops), 0, 0);
    }
  }

  lemma RunEndsBelow(l: Layout, ops: seq<Op>, i: nat, n: nat)
    requires l.Valid() && LegalRun(l, Init(l), ops) && i < |Exec(l, Init(l), ops).live|
    requires n > 0 || l.size < l.Alignment()
    ensures EndsBelow(l, Exec(l, Init(l), ops), i, n)
  {
    var s := Exec(l, Init(l), ops);
    RunInv(l, Init(l), ops);
    assert Placed(l, s.ptr, s.live[i]);
    if l.InBuffer(s.live[i].p) && n == 0 {
      SmallBuffer(l, s.live[i].p);
    }
  }

  // ----- stack discipline -----

  /** Nested lifetimes: allocate, do something nested, free that block, go on. */
  datatype Script = Done | Scope(n: nat, heap: nat, inner: Script, next: Script)

  predicate LegalScript(l: Layout, script: Script) {
    || script.Done?
    || (l.Fits(script.n) && !l.InBuffer(script.heap) && LegalScript(l, script.inner) && LegalScript(l, script.next))
  }

  /** The block freed at the end of a scope is the one allocated at its start, wherever it is in the list. */
  function Play(l: Layout, s: State, script: Script): State
    requires l.Valid()
    decreases script
  {
    match script
    case Done => s
    case Scope(n, heap, inner, next) =>
      var s1 := Allocate(l, s, n, heap);
      var s2 := Play(l, s1, inner);
      if |s.live| < |s2.live| then Play(l, Deallocate(l, s2, |s.live|), next) else s2
  }

  /** Freeing in the exact reverse order of allocation restores the arena, however deeply scopes nest. */
  lemma {:induction false} ReverseOrderRestores(l: Layout, s: State, script: Script)
    requires l.Valid() && l.InBuffer(s.ptr) && LegalScript(l, script)
    ensures Play(l, s, script) == s
    decreases script
  {
    if script.Scope? {
      var s1 := Allocate(l, s, script.n, script.heap);
      ReverseOrderRestores(l, s1, script.inner);
      assert s1.live[..|s.live|] + s1.live[|s.live| + 1..] == s.live;
      assert Deallocate(l, s1, |s.live|) == s;
      ReverseOrderRestores(l, s, script.next);
    }
  }

  // ----- the object -----

  class ArenaObject {
    const l: Layout
    var ptr: nat
    ghost var live: seq<Block>

    ghost function View(): State
      reads this
    {
      State(ptr, live)
    }

    constructor (l: Layout)
      requires l.Valid()
      ensures this.l == l && View() == Init(l)
    {
      this.l, ptr, live := l, l.base, [];
    }

    /** `heap` is what `operator new` would return. */
    method AllocateBlock(n: nat, heap: nat) returns (p: nat)
      requires l.Valid() && l.InBuffer(ptr)
      modifies this
      ensures View() == Allocate(l, old(View()), n, heap)
      ensures live == old(live) + [Block(p, n)]
      ensures p == if l.base + l.size - old(ptr) >= l.Rounded(n) then old(ptr) else heap
    {
      var alignedN := AlignUp(n, l.Alignment());
      if l.base + l.size - ptr >= alignedN {
        p := ptr;
        ptr := ptr + alignedN;
      } else {
        p := heap;
      }
      live := live + [Block(p, n)];
    }

    /** The block is the live block number `i`. */
    method DeallocateBlock(p: nat, n: nat, ghost i: nat)
      requires l.Valid() && i < |live| && live[i] == Block(p, n)
      modifies this
      ensures View() == Deallocate(l, old(View()), i)
    {
      if l.InBuffer(p) {
        var alignedN := AlignUp(n, l.Alignment());
        if p + alignedN == ptr {
          ptr := p;
        }
      }
      live := live[..i] + live[i + 1..];
    }

    /** The used bytes hold every live block that is not empty; what remains is what can still be allocated. */
    method UsedBytes() returns (used: int)
      requires l.Valid() && Inv(l, View())
      ensures 0 <= used <= l.size && used % l.Alignment() == 0
      ensures forall i :: 0 <= i < |live| && l.InBuffer(live[i].p) && live[i].n > 0 ==>
                live[i].p + live[i].n <= l.base + used
      ensures forall n, heap :: (Allocate(l, View(), n, heap).ptr == ptr + l.Rounded(n) <==>
                                 l.Rounded(n) <= l.size - used)
    {
      DifferenceAligned(l, ptr, l.base);
      forall i | 0 <= i < |live| && l.InBuffer(live[i].p) && live[i].n > 0 ensures live[i].p + live[i].n <= ptr {
        assert Placed(l, ptr, live[i]);
      }
      used := ptr - l.base;
    }

    /** Every block handed out so far is given up at once. */
    method Reset()
      requires l.Valid()
      modifies this
      ensures View() == Init(l)
    {
      ptr := l.base;
      live := [];
    }
  }
}
