/** Small helpers shared by every model: optional values, results standing in
    for Python exceptions, and Python's slicing rules for negative bounds. */
module Common {

  /** Python's `None` or a present value. */
  datatype Option<+T> = None | Some(value: T)

  /** A call that either returns a value or raises an exception with a message. */
  datatype Result<+T> = Ok(value: T) | Err(message: string)

  function Min(a: int, b: int): int { if a <= b then a else b }

  function Max(a: int, b: int): int { if a >= b then a else b }

  /** Python's `s[:k]`: a negative `k` counts from the end, and bounds are clipped. */
  function PyPrefix<T>(s: seq<T>, k: int): (r: seq<T>)
    ensures |r| <= |s| && r == s[..|r|]
    ensures 0 <= k <= |s| ==> r == s[..k]
    ensures k >= |s| ==> r == s
    ensures k < 0 ==> |r| == Max(0, |s| + k)
  {
    if k >= |s| then s
    else if k >= 0 then s[..k]
    else if |s| + k >= 0 then s[..|s| + k]
    else []
  }

  /** Python's `s[-k:]` for `k >= 0`: the last `k` elements, or all of them when
      `k` is 0 (because `-0` is `0`) or exceeds the length. */
  function PyLast<T>(s: seq<T>, k: nat): (r: seq<T>)
    ensures k == 0 ==> r == s
    ensures 0 < k <= |s| ==> |r| == k
    ensures k > |s| ==> r == s
    ensures |r| <= |s| && r == s[|s| - |r|..]
  {
    if k == 0 || k >= |s| then s else s[|s| - k..]
  }

  /** Python's `s[k:]`: a negative `k` counts from the end, and bounds are clipped. */
  function PyFrom<T>(s: seq<T>, k: int): (r: seq<T>)
    ensures |r| <= |s| && r == s[|s| - |r|..]
    ensures 0 <= k <= |s| ==> |r| == |s| - k
    ensures -|s| <= k < 0 ==> |r| == -k
    ensures k < -|s| ==> r == s
  {
    if k >= |s| then []
    else if k >= 0 then s[k..]
    else if |s| + k >= 0 then s[|s| + k..]
    else s
  }

  /** Number of positions `i < k` of `s` satisfying `p`. */
  function CountWhere<T>(s: seq<T>, p: T -> bool): (n: nat)
    ensures n <= |s|
  {
    if s == [] then 0 else CountWhere(s[..|s| - 1], p) + (if p(s[|s| - 1]) then 1 else 0)
  }

  /** The set `{0, ..., n - 1}`. */
  function Below(n: nat): (r: set<nat>)
    ensures forall p: nat :: p in r <==> p < n
  {
    if n == 0 then {} else Below(n - 1) + {n - 1}
  }

  /** Every element of `s` is a distinct object or value. */
  predicate Distinct<T(==)>(s: seq<T>)
  {
    forall i, j :: 0 <= i < j < |s| ==> s[i] != s[j]
  }

  /** Python's `str(n)` for a natural number. */
  function DecimalString(n: nat): (r: string)
    ensures |r| > 0 && forall i :: 0 <= i < |r| ==> '0' <= r[i] <= '9'
  {
    if n < 10 then ["0123456789"[n]] else DecimalString(n / 10) + ["0123456789"[n % 10]]
  }

  /** Python's `str(i)` for an integer. */
  function IntString(i: int): string
  {
    if i < 0 then "-" + DecimalString(-i) else DecimalString(i)
  }

  /** Euclidean division is unique: `q` and `r` with `h == q * n + r` and
      `0 <= r < n` are the quotient and the remainder. */
  lemma DivModUnique(h: int, n: int, q: int, r: int)
    requires n > 0 && 0 <= r < n && h == q * n + r
    ensures h / n == q && h % n == r
  {
    var q', r' := h / n, h % n;
    assert (q - q') * n == r' - r;
    if q > q' {
      MulAtLeast(q - q', n);
    } else if q < q' {
      MulAtLeast(q' - q, n);
    }
  }

  lemma {:induction false} MulAtLeast(d: int, n: int)
    requires d >= 1 && n > 0
    ensures d * n >= n
  {
    if d > 1 {
      MulAtLeast(d - 1, n);
      assert d * n == (d - 1) * n + n;
    }
  }
}
