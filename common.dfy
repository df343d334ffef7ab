/**
 * Values shared by every stage of the signal pipeline: JavaScript numbers as the
 * stages see them, the candle record, JavaScript's rounding functions, and the
 * filter-map shape that every stage's outer loop has.
 */
module Common {

  datatype Option<+T> = None | Some(value: T)

  /**
   * A JavaScript value read where a number is expected.  `Fin` is an ordinary
   * number, `NaN` is the IEEE not-a-number (its `typeof` is still 'number'), and
   * `NotNumber` is anything whose `typeof` is not 'number' (null, undefined, a
   * string, an object, a missing property).
   */
  datatype Num = Fin(r: real) | NaN | NotNumber {
    /** `typeof x === 'number'`, which NaN passes */
    predicate IsNumber() { !NotNumber? }
  }

  // JavaScript's relational operators on values the code has already checked to
  // be numbers: every comparison with NaN is false.
  predicate Lt(a: Num, b: Num) { a.Fin? && b.Fin? && a.r < b.r }
  predicate Le(a: Num, b: Num) { a.Fin? && b.Fin? && a.r <= b.r }
  predicate Gt(a: Num, b: Num) { a.Fin? && b.Fin? && a.r > b.r }
  predicate Ge(a: Num, b: Num) { a.Fin? && b.Fin? && a.r >= b.r }
  /** `a === b` on numbers: NaN equals nothing, not even itself */
  predicate Same(a: Num, b: Num) { a.Fin? && b.Fin? && a.r == b.r }

  /** `a - b` on numbers: NaN as soon as one side is NaN */
  function Minus(a: Num, b: Num): Num {
    if a.Fin? && b.Fin? then Fin(a.r - b.r) else NaN
  }

  /** `k * a + m * b` on numbers, the shape of the EMA update */
  function Blend(k: real, a: Num, m: real, b: Num): Num {
    if a.Fin? && b.Fin? then Fin(k * a.r + m * b.r) else NaN
  }

  /** `x || d` for a configuration number: 0, NaN, null and undefined are falsy */
  function OrDefault(x: Num, d: real): (v: real)
    requires d != 0.0
    ensures v != 0.0
    ensures x.Fin? && x.r != 0.0 ==> v == x.r
  {
    if x.Fin? && x.r != 0.0 then x.r else d
  }

  type PosReal = x: real | x > 0.0 witness 1.0

  /** `Math.sqrt`, left abstract: any function that is non-negative where the root is defined */
  type Sqrt = f: real -> real | forall x :: 0.0 <= x ==> 0.0 <= f(x)
    witness (x: real) => if x < 0.0 then 0.0 else x

  function Max(a: real, b: real): real { if a >= b then a else b }
  function Min(a: real, b: real): real { if a <= b then a else b }

  /** Left-to-right sum, the `reduce((a, b) => a + b, 0)` of the source */
  function Sum(s: seq<real>): real {
    if s == [] then 0.0 else Sum(s[..|s| - 1]) + s[|s| - 1]
  }

  /** `Math.round(x)`: the nearest integer, a half rounded up */
  function MathRound(x: real): (n: int)
    ensures x - 0.5 < n as real <= x + 0.5
  {
    (x + 0.5).Floor
  }

  function Pow10(d: nat): (p: real)
    ensures p >= 1.0
  {
    if d == 0 then 1.0 else 10.0 * Pow10(d - 1)
  }

  /** x with its decimal point moved d places to the right */
  function Scaled(x: real, d: nat): real { x * Pow10(d) }

  /**
   * `+x.toFixed(d)`: x to d decimals, a half rounded away from zero.  The
   * decimal digits of the binary double are not modelled: x is taken exactly.
   */
  function ToFixed(x: real, d: nat): real {
    if x < 0.0 then -(MathRound(Scaled(-x, d)) as real / Pow10(d))
    else MathRound(Scaled(x, d)) as real / Pow10(d)
  }

  /** Rounding to d decimals never goes below a bound that has d decimals itself. */
  lemma ToFixedAtLeast(x: real, d: nat, k: int)
    requires k >= 0 && x >= k as real / Pow10(d)
    ensures ToFixed(x, d) >= k as real / Pow10(d)
  {
    var p := Pow10(d);
    var q := k as real / p;
    DivNonNegative(k as real, p);
    ScaleUp(x, q, p);
    DivMul(k as real, p);
    var n := MathRound(Scaled(x, d));
    assert n >= k;
    DivMonotone(n as real, k as real, p);
  }

  /** Rounding to d decimals never goes above a bound that has d decimals itself. */
  lemma ToFixedAtMost(x: real, d: nat, k: int)
    requires x >= 0.0 && x <= k as real / Pow10(d)
    ensures ToFixed(x, d) <= k as real / Pow10(d)
  {
    var n := MathRound(Scaled(x, d));
    ScaledAtMost(x, d, k as real);
    RoundAtMost(Scaled(x, d), k);
    ToFixedNonNegative(x, d);
    DivMonotone(k as real, n as real, Pow10(d));
  }

  lemma ToFixedNonNegative(x: real, d: nat)
    requires x >= 0.0
    ensures ToFixed(x, d) == MathRound(Scaled(x, d)) as real / Pow10(d)
  {
  }

  lemma ScaledAtMost(x: real, d: nat, a: real)
    requires x <= a / Pow10(d)
    ensures Scaled(x, d) <= a
  {
    var p := Pow10(d);
    ScaleUp(a / p, x, p);
    DivMul(a, p);
  }

  /** A value at most a whole number rounds to at most that number. */
  lemma RoundAtMost(y: real, k: int)
    requires y <= k as real
    ensures MathRound(y) <= k
  {
    assert MathRound(y) as real <= k as real + 0.5;
  }

  lemma MulNonNegative(p: real, q: real)
    requires p >= 0.0 && q >= 0.0
    ensures p * q >= 0.0
  {
  }

  lemma RatioAtLeast(a: real, b: real, k: real)
    requires b > 0.0
    ensures a / b >= k <==> a >= k * b
  {
    var q := a / b;
    assert a == q * b;
    if q >= k {
      MulNonNegative(q - k, b);
      assert (q - k) * b == a - k * b;
    } else {
      MulPositive(k - q, b);
      assert (k - q) * b == k * b - a;
    }
  }

  lemma MulPositive(p: real, q: real)
    requires p > 0.0 && q > 0.0
    ensures p * q > 0.0
  {
  }

  lemma DivNonNegative(a: real, p: real)
    requires p > 0.0 && a >= 0.0
    ensures a / p >= 0.0
  {
  }

  lemma DivMul(a: real, p: real)
    requires p != 0.0
    ensures (a / p) * p == a
  {
  }

  lemma ScaleUp(x: real, q: real, p: real)
    requires p > 0.0 && x >= q
    ensures x * p >= q * p
  {
  }

  lemma DivMonotone(a: real, b: real, p: real)
    requires p > 0.0 && a >= b
    ensures a / p >= b / p
  {
  }

  /** `arr.slice(-n)`: the last n elements, the whole sequence when n is 0 or too large */
  function Tail<T>(s: seq<T>, n: nat): (w: seq<T>)
    ensures |w| == if n == 0 || n > |s| then |s| else n
  {
    if n == 0 || n > |s| then s else s[|s| - n..]
  }

  /** The elements of s that satisfy p, in their order in s (`Array.prototype.filter`) */
  function Filter<T>(s: seq<T>, p: T -> bool): (r: seq<T>)
    ensures |r| <= |s|
    ensures forall i :: 0 <= i < |r| ==> p(r[i])
  {
    if s == [] then [] else Filter(s[..|s| - 1], p) + (if p(s[|s| - 1]) then [s[|s| - 1]] else [])
  }

  lemma {:induction false} FilterKeeps<T>(s: seq<T>, p: T -> bool, x: T)
    ensures x in Filter(s, p) <==> x in s && p(x)
  {
    if s != [] {
      FilterKeeps(s[..|s| - 1], p, x);
      assert s == s[..|s| - 1] + [s[|s| - 1]];
    }
  }

  lemma {:induction false} FilterAppend<T>(s: seq<T>, t: seq<T>, p: T -> bool)
    ensures Filter(s + t, p) == Filter(s, p) + Filter(t, p)
  {
    if t != [] {
      assert (s + t)[..|s + t| - 1] == s + t[..|t| - 1];
      FilterAppend(s, t[..|t| - 1], p);
    } else {
      assert s + t == s;
    }
  }

  /**
   * The shape of every stage's outer loop: each input either is dropped (None)
   * or contributes one output record, in input order.
   */
  function FilterMap<A, B>(s: seq<A>, f: A -> Option<B>): (r: seq<B>)
    ensures |r| <= |s|
  {
    if s == [] then []
    else FilterMap(s[..|s| - 1], f) + (match f(s[|s| - 1]) case Some(b) => [b] case None => [])
  }

  /** One more input's image appended keeps a map loop's output equal to the images of the inputs so far. */
  lemma MapStep<A, B>(out: seq<B>, xs: seq<A>, f: A -> B, m: nat)
    requires m < |xs| && |out| == m
    requires forall n :: 0 <= n < m ==> out[n] == f(xs[n])
    ensures forall n :: 0 <= n < m + 1 ==> (out + [f(xs[m])])[n] == f(xs[n])
  {
  }

  /** One more input adds its record, if it produces one, at the end (the step of every stage loop). */
  lemma FilterMapStep<A, B>(s: seq<A>, f: A -> Option<B>, i: nat)
    requires i < |s|
    ensures FilterMap(s[..i + 1], f) == FilterMap(s[..i], f) + (match f(s[i]) case Some(b) => [b] case None => [])
  {
    assert s[..i + 1][..i] == s[..i];
  }

  /** One more element is appended exactly when it satisfies the predicate. */
  lemma FilterStep<T>(s: seq<T>, p: T -> bool, i: nat)
    requires i < |s|
    ensures Filter(s[..i + 1], p) == Filter(s[..i], p) + (if p(s[i]) then [s[i]] else [])
  {
    assert s[..i + 1][..i] == s[..i];
  }

  /** Every output record of a filter-map was produced by some input, and inputs that survive keep their order. */
  lemma {:induction false} FilterMapOrigin<A, B>(s: seq<A>, f: A -> Option<B>, j: nat)
    requires j < |FilterMap(s, f)|
    ensures exists i :: 0 <= i < |s| && f(s[i]) == Some(FilterMap(s, f)[j])
  {
    var prefix := s[..|s| - 1];
    if j < |FilterMap(prefix, f)| {
      FilterMapOrigin(prefix, f, j);
      var i :| 0 <= i < |prefix| && f(prefix[i]) == Some(FilterMap(prefix, f)[j]);
      assert s[i] == prefix[i];
    } else {
      assert f(s[|s| - 1]) == Some(FilterMap(s, f)[j]);
    }
  }

  lemma {:induction false} FilterMapAppend<A, B>(s: seq<A>, t: seq<A>, f: A -> Option<B>)
    ensures FilterMap(s + t, f) == FilterMap(s, f) + FilterMap(t, f)
  {
    if t != [] {
      assert (s + t)[..|s + t| - 1] == s + t[..|t| - 1];
      FilterMapAppend(s, t[..|t| - 1], f);
    } else {
      assert s + t == s;
    }
  }

  /** Every input that produces a record has its record in the output. */
  lemma {:induction false} FilterMapHas<A, B>(s: seq<A>, f: A -> Option<B>, a: nat)
    requires a < |s| && f(s[a]).Some?
    ensures exists p :: 0 <= p < |FilterMap(s, f)| && FilterMap(s, f)[p] == f(s[a]).value
  {
    var init := s[..|s| - 1];
    if a < |s| - 1 {
      FilterMapHas(init, f, a);
      var p :| 0 <= p < |FilterMap(init, f)| && FilterMap(init, f)[p] == f(init[a]).value;
      assert FilterMap(s, f)[p] == FilterMap(init, f)[p];
    } else {
      assert FilterMap(s, f)[|FilterMap(init, f)|] == f(s[a]).value;
    }
  }

  /** Records of two inputs appear in the output in the inputs' order. */
  lemma FilterMapPair<A, B>(s: seq<A>, f: A -> Option<B>, a: nat, b: nat)
    requires a < b < |s| && f(s[a]).Some? && f(s[b]).Some?
    ensures exists p, q :: (0 <= p < q < |FilterMap(s, f)| &&
      FilterMap(s, f)[p] == f(s[a]).value && FilterMap(s, f)[q] == f(s[b]).value)
  {
    var pre, rest := s[..b], s[b + 1..];
    assert s == pre + [s[b]] + rest;
    FilterMapAppend(pre + [s[b]], rest, f);
    FilterMapAppend(pre, [s[b]], f);
    assert FilterMap([s[b]], f) == [f(s[b]).value] by {
      assert [s[b]][..0] == [];
    }
    FilterMapHas(pre, f, a);
    var p :| 0 <= p < |FilterMap(pre, f)| && FilterMap(pre, f)[p] == f(pre[a]).value;
    var q := |FilterMap(pre, f)|;
    assert FilterMap(s, f)[p] == f(s[a]).value;
    assert FilterMap(s, f)[q] == f(s[b]).value;
  }

  /** Calendar days, taken as abstract ordered keys */
  type Date = int

  /** One OHLCV bar. Every price field may hold a non-number, as the source guards each read. */
  datatype Candle = Candle(date: Date, open: Num, high: Num, low: Num, close: Num, volume: Num)

  /** An entry of a candle array; the stages tolerate `null` entries */
  type Slot = Option<Candle>

  datatype Field = Open | High | Low | Close | Volume

  /** `arr[i][field]`, where reading through a null entry counts as a non-number */
  function Get(s: Slot, f: Field): Num {
    match s
    case None => NotNumber
    case Some(c) =>
      match f
      case Open => c.open
      case High => c.high
      case Low => c.low
      case Close => c.close
      case Volume => c.volume
  }

  /** One field read out of every entry of a candle array */
  function Column(cs: seq<Slot>, f: Field): (col: seq<Num>)
    ensures |col| == |cs|
    ensures forall i :: 0 <= i < |cs| ==> col[i] == Get(cs[i], f)
  {
    seq(|cs|, i requires 0 <= i < |cs| => Get(cs[i], f))
  }
}
