/** How a batched insert loop cuts the dataset: consecutive whole batches of
    `k` rows from the front, as long as a whole batch is left; a trailing
    partial batch is never formed. */
module Batching {

  /** The batches a loop `for (i = 0; i + (k - 1) < |s|; i += k)` visits, in order. */
  function Batches<T>(s: seq<T>, k: nat): seq<seq<T>>
    requires 1 <= k
    decreases |s|
  {
    if |s| < k then [] else [s[..k]] + Batches(s[k..], k)
  }

  function Flatten<T>(b: seq<seq<T>>): seq<T> {
    if b == [] then [] else b[0] + Flatten(b[1..])
  }

  lemma MulAtLeast(d: int, k: int)
    requires 1 <= d && 1 <= k
    ensures d * k >= k
  {
  }

  /** Quotient and remainder are the only ones: n == a*k + r with 0 <= r < k
      fixes a and r. */
  lemma DivUnique(n: int, k: int, a: int, r: int)
    requires 1 <= k && 0 <= r < k && n == a * k + r
    ensures n / k == a && n % k == r
  {
    var q, t := n / k, n % k;
    assert (a - q) * k == t - r;
    if a - q >= 1 {
      MulAtLeast(a - q, k);
    } else if q - a >= 1 {
      MulAtLeast(q - a, k);
    }
  }

  lemma DivStep(n: nat, k: nat)
    requires 1 <= k <= n
    ensures (n - k) / k == n / k - 1 && (n - k) % k == n % k
  {
    var q, r := (n - k) / k, (n - k) % k;
    assert n == (q + 1) * k + r;
    DivUnique(n, k, q + 1, r);
  }

  /** A loop of width `k` over `s` executes |s| / k statements. */
  lemma {:induction false} BatchCount<T>(s: seq<T>, k: nat)
    requires 1 <= k
    ensures |Batches(s, k)| == |s| / k
    decreases |s|
  {
    if |s| >= k {
      DivStep(|s|, k);
      BatchCount(s[k..], k);
    }
  }

  /** Batch number `b` holds exactly the rows b*k .. b*k + k - 1. */
  lemma {:induction false} BatchAt<T>(s: seq<T>, k: nat, b: nat)
    requires 1 <= k && b < |Batches(s, k)|
    ensures b * k + k <= |s| && Batches(s, k)[b] == s[b * k .. b * k + k]
    decreases b
  {
    if b > 0 {
      BatchAt(s[k..], k, b - 1);
      assert (b - 1) * k + k == b * k;
    }
  }

  /** The executed batches, concatenated in loop order, are the prefix of
      `s` that leaves out the |s| % k trailing rows. */
  lemma {:induction false} BatchesCoverPrefix<T>(s: seq<T>, k: nat)
    requires 1 <= k
    ensures Flatten(Batches(s, k)) == s[..|s| - |s| % k]
    decreases |s|
  {
    if |s| < k {
      DivUnique(|s|, k, 0, |s|);
    } else {
      var m := |s| - |s| % k;
      DivStep(|s|, k);
      assert |s[k..]| - |s[k..]| % k == m - k;
      BatchesCoverPrefix(s[k..], k);
      assert Flatten(Batches(s, k)) == s[..k] + Flatten(Batches(s[k..], k));
      assert s[k..][..m - k] == s[k..m];
      assert s[..k] + s[k..m] == s[..m];
    }
  }

  /** The rows a loop of width `k` leaves out are fewer than `k`, and there
      are none exactly when `k` divides |s|. */
  lemma DroppedTail<T>(s: seq<T>, k: nat)
    requires 1 <= k
    ensures |Flatten(Batches(s, k))| + |s| % k == |s|
    ensures |s| % k < k
    ensures |Flatten(Batches(s, k))| == |s| <==> |s| % k == 0
  {
    BatchesCoverPrefix(s, k);
  }

  /** A loop of width 1 visits every row, in order. */
  lemma WidthOne<T>(s: seq<T>)
    ensures Flatten(Batches(s, 1)) == s
    ensures |Batches(s, 1)| == |s|
  {
    BatchesCoverPrefix(s, 1);
    BatchCount(s, 1);
  }
}
