/** The window pointers of main.py (get_pointer and pointer_at_max, lines
    69-74). A window is a [pointer, size] pair whose pointer starts at -1
    (lines 99-101) and is advanced modulo the size before every write. */
module Windows {

  /** The pointer get_pointer computes: (pointer + 1) % size. */
  function NextPointer(p: int, size: int): (r: int)
    requires size > 0 && -1 <= p < size
    ensures 0 <= r < size
    ensures r == if p == size - 1 then 0 else p + 1
  {
    (p + 1) % size
  }

  /** The pointer after k calls of get_pointer on a fresh window. */
  function Advance(size: int, k: nat): (r: int)
    requires size > 0
    ensures -1 <= r < size
  {
    if k == 0 then -1 else NextPointer(Advance(size, k - 1), size)
  }

  /** Before the first wrap the pointer counts the calls; it never runs ahead of them. */
  lemma {:induction false} AdvanceFacts(size: int, k: nat)
    requires size > 0
    ensures Advance(size, k) <= k - 1
    ensures k <= size ==> Advance(size, k) == k - 1
  {
    if k > 0 {
      AdvanceFacts(size, k - 1);
    }
  }

  lemma ModStep(size: int, k: nat)
    requires size > 0
    ensures k % size == if (k - 1) % size == size - 1 then 0 else (k - 1) % size + 1
  {
    var q, a := (k - 1) / size, (k - 1) % size;
    assert k - 1 == q * size + a;
    if a == size - 1 {
      assert k == (q + 1) * size;
      ModOfMultiple(q + 1, size);
    } else {
      assert k == q * size + (a + 1);
      ModUnique(k, size, q, a + 1);
    }
  }

  lemma ModOfMultiple(q: int, size: int)
    requires size > 0
    ensures (q * size) % size == 0
  {
    ModUnique(q * size, size, q, 0);
  }

  lemma ModUnique(x: int, size: int, q: int, a: int)
    requires size > 0 && 0 <= a < size && x == q * size + a
    ensures x % size == a
  {
    var q', a' := x / size, x % size;
    assert x == q' * size + a';
    if q > q' {
      MulAtLeast(q - q', size);
    } else if q < q' {
      MulAtLeast(q' - q, size);
    }
  }

  lemma {:induction false} MulAtLeast(d: int, size: int)
    requires d >= 1 && size > 0
    ensures d * size >= size
  {
    if d > 1 {
      MulAtLeast(d - 1, size);
      assert d * size == (d - 1) * size + size;
    }
  }

  /** Successive calls of get_pointer from -1 yield 0, 1, ..., size-1, 0, 1, ...:
      the k-th call returns (k - 1) % size. */
  lemma {:induction false} AdvanceCycles(size: int, k: nat)
    requires size > 0 && k >= 1
    ensures Advance(size, k) == (k - 1) % size
  {
    if k > 1 {
      AdvanceCycles(size, k - 1);
      ModStep(size, k - 1);
    }
  }

  /** A window: the [pointer, size] list of main.py, whose pointer get_pointer
      updates in place. `calls` counts the get_pointer calls made so far. */
  class Window {
    var pointer: int
    const size: int
    ghost var calls: nat

    ghost predicate Valid()
      reads this
    {
      size > 0 && pointer == Advance(size, calls)
    }

    constructor (size: int)
      requires size > 0
      ensures Valid() && this.size == size && pointer == -1 && calls == 0
    {
      this.size := size;
      pointer := -1;
      calls := 0;
    }

    /** get_pointer: advances the pointer modulo the size and returns it. */
    method GetPointer() returns (p: int)
      requires Valid()
      modifies this
      ensures Valid() && calls == old(calls) + 1
      ensures p == pointer == NextPointer(old(pointer), size)
      ensures 0 <= p < size
    {
      pointer := (pointer + 1) % size;
      calls := calls + 1;
      p := pointer;
    }

    /** pointer_at_max: the pointer is on a slot (it has been advanced at
        least once) and the next get_pointer wraps round to slot 0. */
    function AtMax(): (b: bool)
      reads this
      requires Valid()
      ensures b <==> pointer != -1 && NextPointer(pointer, size) == 0
    {
      pointer == size - 1
    }
  }
}
