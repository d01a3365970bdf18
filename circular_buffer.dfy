/**
 * commons/circular_buffer_test.go: a fixed-capacity ring buffer over a
 * backing array the caller supplies.  The implementation is not part of
 * this model; the class below is written to the test's assertions: the
 * buffer keeps the last Capacity() values pushed, oldest first.
 */
module CircularBuffers {

  /** The window a buffer of capacity n keeps of everything pushed: the last n values. */
  function Window<T>(s: seq<T>, n: nat): (r: seq<T>)
    ensures |r| == if |s| <= n then |s| else n
    ensures forall k | 0 <= k < |r| :: r[k] == s[|s| - |r| + k]
  {
    if |s| <= n then s else s[|s| - n..]
  }

  /** Pushing onto a window is the window of the longer history. */
  lemma WindowPush<T>(s: seq<T>, x: T, n: nat)
    requires n > 0
    ensures Window(Window(s, n) + [x], n) == Window(s + [x], n)
  {
    var w := Window(s, n);
    var l := Window(w + [x], n);
    var r := Window(s + [x], n);
    assert |l| == |r|;
    forall k | 0 <= k < |l|
      ensures l[k] == r[k]
    {
      if k < |l| - 1 {
        assert l[k] == w[|w| + 1 - |l| + k];
      }
    }
  }

  class CircularBuffer<T> {
    /** The backing array, shared with the caller that supplied it. */
    const elements: array<T>
    var start: int
    var count: int

    predicate Valid()
      reads this
    {
      elements.Length > 0 && 0 <= start < elements.Length && 0 <= count <= elements.Length
    }

    function Capacity(): nat
      reads this
    {
      elements.Length
    }

    /** The slot of the k-th retained value. */
    function Slot(k: int): (r: int)
      reads this
      requires Valid() && 0 <= k < elements.Length
      ensures 0 <= r < elements.Length
    {
      if start + k < elements.Length then start + k else start + k - elements.Length
    }

    /** All: the retained values, oldest first. */
    function All(): (r: seq<T>)
      reads this, elements
      requires Valid()
      ensures |r| == count
    {
      seq(count, k requires Valid() && 0 <= k < count reads this, elements => elements[Slot(k)])
    }

    constructor (elements: array<T>)
      requires elements.Length > 0
      ensures this.elements == elements && Valid() && All() == []
    {
      this.elements := elements;
      start := 0;
      count := 0;
    }

    /** Size: how many values are retained. */
    function Size(): (r: int)
      reads this, elements
      requires Valid()
      ensures r == |All()| && 0 <= r <= Capacity()
    {
      count
    }

    function Get(i: int): (r: T)
      reads this, elements
      requires Valid() && 0 <= i < Size()
      ensures r == All()[i]
    {
      elements[Slot(i)]
    }

    function First(): (r: T)
      reads this, elements
      requires Valid() && Size() > 0
      ensures r == All()[0]
    {
      elements[start]
    }

    function Last(): (r: T)
      reads this, elements
      requires Valid() && Size() > 0
      ensures r == All()[|All()| - 1]
    {
      elements[Slot(count - 1)]
    }

    /** Push: the value is retained as the newest; when full, the oldest one is dropped. */
    method Push(x: T)
      requires Valid()
      modifies this, elements
      ensures Valid()
      ensures All() == Window(old(All()) + [x], Capacity())
    {
      ghost var before := All();
      if count < elements.Length {
        var slot := start + count;
        if slot >= elements.Length {
          slot := slot - elements.Length;
        }
        elements[slot] := x;
        count := count + 1;
        assert forall k | 0 <= k < count - 1 :: Slot(k) != slot;
        assert All() == before + [x];
      } else {
        elements[start] := x;
        start := if start + 1 == elements.Length then 0 else start + 1;
        assert forall k | 0 <= k < count - 1 :: All()[k] == before[k + 1];
        assert All() == (before + [x])[1..];
      }
    }
  }

  function Range(lo: int, hi: int): (r: seq<int>)
    requires lo <= hi
    ensures |r| == hi - lo && forall k | 0 <= k < |r| :: r[k] == lo + k
  {
    seq(hi - lo, k => lo + k)
  }

  /** What the test checks after pushing 0, 1, ..., c into a buffer of capacity 10. */
  lemma TestChecks(c: nat)
    ensures var all := Window(Range(0, c + 1), 10);
            (c < 10 ==> |all| == 1 + c && (forall i | 0 <= i <= c :: all[i] == i) && all[0] == 0 && all[|all| - 1] == c) &&
            (c >= 10 ==> |all| == 10 && (forall i | 0 <= i < 10 :: all[i] == c - 9 + i) && all[0] == c - 9 && all[9] == c)
  {
  }

  /**
   * TestCircularBuffer: 100 pushes into a buffer over a 10-slot array,
   * checking size, contents, Get, First and Last after each one.
   */
  method TestCircularBuffer() returns (last: seq<int>)
    ensures last == Range(90, 100)
  {
    var backing := new int[10];
    var cb := new CircularBuffer(backing);
    var i := 0;
    while i < 100
      invariant 0 <= i <= 100
      invariant cb.Valid() && cb.elements == backing && cb.Capacity() == 10
      invariant cb.All() == Window(Range(0, i), 10)
    {
      cb.Push(i);
      WindowPushOfRange(i);
      TestChecks(i);
      var all := cb.All();
      if i < 10 {
        assert cb.Size() == 1 + i && |all| == 1 + i;
        assert forall k | 0 <= k <= i :: all[k] == k && all[k] == cb.Get(k);
        assert cb.Last() == i && cb.First() == all[0];
      } else {
        assert cb.Size() == 10 && |all| == 10;
        assert forall k | 0 <= k < 10 :: all[k] == i - 9 + k && all[k] == cb.Get(k);
        assert cb.Last() == i && cb.First() == i - 9 && cb.First() == all[0] && all[|all| - 1] == cb.Last();
      }
      i := i + 1;
    }
    last := cb.All();
  }

  lemma WindowPushOfRange(i: nat)
    ensures Window(Window(Range(0, i), 10) + [i], 10) == Window(Range(0, i + 1), 10)
  {
    WindowPush(Range(0, i), i, 10);
    assert Range(0, i) + [i] == Range(0, i + 1);
  }
}
