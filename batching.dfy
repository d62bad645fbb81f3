/** Fixed-size chunking of a sequence, as the exporter uses it to cut the
    gathered envelopes into batches of at most `max_batch_size`. */
module Batching {

  /** Chunks of `n` consecutive elements, in order; the last chunk may be shorter. */
  function Window<T>(s: seq<T>, n: nat): seq<seq<T>>
    requires n >= 1
    decreases |s|
  {
    if s == [] then []
    else
      var k := if |s| < n then |s| else n;
      [s[..k]] + Window(s[k..], n)
  }

  function Flatten<T>(ss: seq<seq<T>>): seq<T>
  {
    if ss == [] then [] else ss[0] + Flatten(ss[1..])
  }

  /** Putting the batches back together gives the original sequence. */
  lemma {:induction false} WindowFlattens<T>(s: seq<T>, n: nat)
    requires n >= 1
    ensures Flatten(Window(s, n)) == s
    decreases |s|
  {
    if s != [] {
      var k := if |s| < n then |s| else n;
      var w := Window(s, n);
      assert w[0] == s[..k] && w[1..] == Window(s[k..], n);
      WindowFlattens(s[k..], n);
      assert s[..k] + s[k..] == s;
    }
  }

  /** Every batch is non-empty and at most `n` long; all but the last are exactly `n` long. */
  lemma {:induction false} WindowSizes<T>(s: seq<T>, n: nat)
    requires n >= 1
    ensures forall i | 0 <= i < |Window(s, n)| :: 1 <= |Window(s, n)[i]| <= n
    ensures forall i | 0 <= i < |Window(s, n)| - 1 :: |Window(s, n)[i]| == n
    decreases |s|
  {
    if s != [] {
      var k := if |s| < n then |s| else n;
      var w := Window(s, n);
      var rest := Window(s[k..], n);
      assert w == [s[..k]] + rest;
      WindowSizes(s[k..], n);
      if |s| < n {
        assert s[k..] == [];
      }
      forall i | 0 <= i < |w|
        ensures 1 <= |w[i]| <= n
        ensures i < |w| - 1 ==> |w[i]| == n
      {
        if i > 0 {
          assert w[i] == rest[i - 1];
        }
      }
    }
  }

  /** There are ceil(|s| / n) batches; in particular no envelopes means no batch. */
  lemma WindowCount<T>(s: seq<T>, n: nat)
    requires n >= 1
    ensures |Window(s, n)| == (|s| + n - 1) / n
    ensures Window(s, n) == [] <==> s == []
  {
    WindowBounds(s, n);
    DivFromBounds(|s| + n - 1, n, |Window(s, n)|);
  }

  /** `q` batches of at most `n` cover more than `q - 1` full batches and at most `q`. */
  lemma {:induction false} WindowBounds<T>(s: seq<T>, n: nat)
    requires n >= 1
    ensures |Window(s, n)| * n - n < |s| <= |Window(s, n)| * n
    ensures Window(s, n) == [] <==> s == []
    decreases |s|
  {
    if s != [] {
      var k := if |s| < n then |s| else n;
      WindowBounds(s[k..], n);
      var q := |Window(s[k..], n)|;
      assert |Window(s, n)| == q + 1;
      MulSucc(q, n);
      if |s| < n {
        assert s[k..] == [];
      }
    }
  }

  lemma DivFromBounds(x: int, n: int, q: int)
    requires n >= 1 && q * n <= x < q * n + n
    ensures x / n == q
  {
    var r, m := x / n, x % n;
    var d := r - q;
    assert d * n + m == x - q * n by {
      assert x == r * n + m;
      assert d * n == r * n - q * n;
    }
    if d > 0 {
      MulAtLeast(d, n);
    } else if d < 0 {
      MulAtLeast(-d, n);
    }
  }

  lemma MulAtLeast(d: int, n: int)
    requires d >= 1 && n >= 1
    ensures d * n >= n
  {
    MulSucc(d - 1, n);
  }

  lemma MulSucc(q: int, n: int)
    ensures (q + 1) * n == q * n + n
  {
  }
}
