/**
 * The FECR embedding modulator: a diagonal gain matrix built from a FECR
 * vector by block replication (the last weight fills any remainder), and
 * its product with an embedding.
 */
module Modulator {
  import opened FecrVector

  /** `np.repeat(phi, base)`: each weight `base` times over, in order. */
  function Repeat(phi: seq<real>, base: nat): (g: seq<real>)
    ensures |g| == |phi| * base
    decreases |phi|
  {
    if phi == [] then [] else Const(base, phi[0]) + Repeat(phi[1..], base)
  }

  /**
   * The diagonal of `_make_matrix(phi, d)`: the repeated weights, then the
   * last weight again until there are d of them.
   */
  function Gains(phi: seq<real>, d: nat): (g: seq<real>)
    requires phi != []
    ensures |g| == d
  {
    DivMod(d, |phi|);
    var base := d / |phi|;
    var gains := Repeat(phi, base);
    if |gains| < d then gains + Const(d - |gains|, phi[|phi| - 1]) else gains
  }

  /** `np.diag(g)`: a square matrix with g on the diagonal and 0 elsewhere. */
  function Diag(g: seq<real>): (m: seq<seq<real>>)
    ensures |m| == |g|
    ensures forall i :: 0 <= i < |g| ==> |m[i]| == |g|
  {
    seq(|g|, i requires 0 <= i < |g| =>
      seq(|g|, j requires 0 <= j < |g| => if i == j then g[i] else 0.0))
  }

  function Dot(a: seq<real>, b: seq<real>): real
    requires |a| == |b|
  {
    if a == [] then 0.0 else a[0] * b[0] + Dot(a[1..], b[1..])
  }

  /** The matrix product `m @ v`. */
  function MatVec(m: seq<seq<real>>, v: seq<real>): (r: seq<real>)
    requires forall i :: 0 <= i < |m| ==> |m[i]| == |v|
    ensures |r| == |m|
  {
    seq(|m|, i requires 0 <= i < |m| => Dot(m[i], v))
  }

  /** `_make_matrix(phi, d)`. */
  function MakeMatrix(phi: seq<real>, d: nat): (m: seq<seq<real>>)
    requires phi != []
    ensures |m| == d && forall i :: 0 <= i < d ==> |m[i]| == d
    ensures forall i, j :: 0 <= i < d && 0 <= j < d ==> m[i][j] == if i == j then Gains(phi, d)[i] else 0.0
  {
    Diag(Gains(phi, d))
  }

  /** `modulate(emb, phi)`: the embedding itself when phi is empty. */
  function Modulate(emb: seq<real>, phi: seq<real>): (r: seq<real>)
    ensures |r| == |emb|
    ensures phi == [] ==> r == emb
  {
    if phi == [] then emb else MatVec(MakeMatrix(phi, |emb|), emb)
  }

  /** Elementwise product. */
  function Times(g: seq<real>, v: seq<real>): (r: seq<real>)
    requires |g| == |v|
    ensures |r| == |v|
    ensures forall j :: 0 <= j < |v| ==> r[j] == g[j] * v[j]
  {
    seq(|v|, j requires 0 <= j < |v| => g[j] * v[j])
  }

  function Plus(a: seq<real>, b: seq<real>): (r: seq<real>)
    requires |a| == |b|
    ensures |r| == |a|
    ensures forall j :: 0 <= j < |a| ==> r[j] == a[j] + b[j]
  {
    seq(|a|, j requires 0 <= j < |a| => a[j] + b[j])
  }

  /** Element r of block q of a repetition is the q-th weight. */
  lemma {:induction false} RepeatBlock(phi: seq<real>, base: nat, q: nat, r: nat)
    requires q < |phi| && r < base
    ensures q * base + r < |Repeat(phi, base)|
    ensures Repeat(phi, base)[q * base + r] == phi[q]
    decreases q
  {
    if q > 0 {
      RepeatBlock(phi[1..], base, q - 1, r);
      var x := (q - 1) * base + r;
      assert q * base + r == base + x;
      var head := Const(base, phi[0]);
      assert Repeat(phi, base) == head + Repeat(phi[1..], base);
      assert (head + Repeat(phi[1..], base))[base + x] == Repeat(phi[1..], base)[x];
    }
  }

  lemma DivMod(j: nat, base: nat)
    requires base > 0
    ensures j == (j / base) * base + j % base
    ensures 0 <= j % base < base
  {
  }

  lemma MulMonotone(q: nat, n: nat, base: nat)
    requires n <= q
    ensures n * base <= q * base
  {
    assert q * base == n * base + (q - n) * base;
  }

  lemma RepeatAt(phi: seq<real>, base: nat, j: nat)
    requires base > 0 && j < |phi| * base
    ensures j / base < |phi|
    ensures Repeat(phi, base)[j] == phi[j / base]
  {
    var q, r := j / base, j % base;
    DivMod(j, base);
    if q >= |phi| {
      MulMonotone(q, |phi|, base);
      assert false;
    }
    RepeatBlock(phi, base, q, r);
  }

  /**
   * The gain of dimension j: the first base * |phi| dimensions form |phi|
   * blocks of base dimensions each, block q getting phi[q]; the remaining
   * tail gets the last weight.
   */
  lemma GainsAt(phi: seq<real>, d: nat, j: nat)
    requires phi != [] && j < d
    ensures |Gains(phi, d)| == d
    ensures var base := d / |phi|;
      j < base * |phi| ==> base > 0 && j / base < |phi| && Gains(phi, d)[j] == phi[j / base]
    ensures j >= (d / |phi|) * |phi| ==> Gains(phi, d)[j] == phi[|phi| - 1]
  {
    var base := d / |phi|;
    var gains := Repeat(phi, base);
    assert |gains| == base * |phi|;
    assert base == 0 ==> base * |phi| == 0;
    if j < base * |phi| {
      RepeatAt(phi, base, j);
      assert Gains(phi, d)[j] == gains[j];
    } else {
      var tail := Const(d - |gains|, phi[|phi| - 1]);
      assert Gains(phi, d) == gains + tail;
      assert Gains(phi, d)[j] == tail[j - |gains|];
    }
  }

  /** With fewer dimensions than weights, every dimension gets the last weight. */
  lemma GainsShort(phi: seq<real>, d: nat)
    requires phi != [] && d < |phi|
    ensures Gains(phi, d) == Const(d, phi[|phi| - 1])
  {
    assert d / |phi| == 0;
  }

  /** Constant weights give constant gains. */
  lemma GainsConstant(phi: seq<real>, d: nat, c: real)
    requires phi != []
    requires forall i :: 0 <= i < |phi| ==> phi[i] == c
    ensures Gains(phi, d) == Const(d, c)
  {
    forall j | 0 <= j < d
      ensures Gains(phi, d)[j] == c
    {
      GainsAt(phi, d, j);
    }
  }

  /** Row i of a diagonal matrix times v picks out g[i] * v[i]. */
  lemma DiagRow(g: seq<real>, v: seq<real>, i: nat)
    requires |g| == |v| && i < |g|
    ensures Dot(Diag(g)[i], v) == g[i] * v[i]
  {
    DotUnit(Diag(g)[i], v, i);
  }

  lemma {:induction false} DotUnit(a: seq<real>, v: seq<real>, i: nat)
    requires |a| == |v| && i < |a|
    requires forall k :: 0 <= k < |a| && k != i ==> a[k] == 0.0
    ensures Dot(a, v) == a[i] * v[i]
    decreases |a|
  {
    if i == 0 {
      DotZero(a[1..], v[1..]);
    } else {
      DotUnit(a[1..], v[1..], i - 1);
    }
  }

  lemma {:induction false} DotZero(a: seq<real>, v: seq<real>)
    requires |a| == |v|
    requires forall k :: 0 <= k < |a| ==> a[k] == 0.0
    ensures Dot(a, v) == 0.0
    decreases |a|
  {
    if a != [] {
      DotZero(a[1..], v[1..]);
    }
  }

  /** A diagonal matrix acts dimension by dimension. */
  lemma MatVecDiag(g: seq<real>, v: seq<real>)
    requires |g| == |v|
    ensures MatVec(Diag(g), v) == Times(g, v)
  {
    forall j | 0 <= j < |v|
      ensures MatVec(Diag(g), v)[j] == g[j] * v[j]
    {
      DiagRow(g, v, j);
    }
  }

  /** The gain matrix is diagonal, so modulation multiplies dimension by dimension. */
  lemma ModulateElementwise(emb: seq<real>, phi: seq<real>)
    requires phi != []
    ensures |Gains(phi, |emb|)| == |emb|
    ensures Modulate(emb, phi) == Times(Gains(phi, |emb|), emb)
  {
    MatVecDiag(Gains(phi, |emb|), emb);
  }

  /** A constant vector of weight c scales the embedding by c. */
  lemma ModulateConstant(emb: seq<real>, phi: seq<real>, c: real)
    requires phi != []
    requires forall i :: 0 <= i < |phi| ==> phi[i] == c
    ensures Modulate(emb, phi) == Scale(emb, c)
  {
    ModulateElementwise(emb, phi);
    GainsConstant(phi, |emb|, c);
    TimesConst(emb, c);
  }

  lemma TimesConst(v: seq<real>, c: real)
    ensures Times(Const(|v|, c), v) == Scale(v, c)
  {
    forall j | 0 <= j < |v|
      ensures Times(Const(|v|, c), v)[j] == Scale(v, c)[j]
    {
      assert c * v[j] == v[j] * c;
    }
  }

  lemma TimesScale(g: seq<real>, v: seq<real>, c: real)
    requires |g| == |v|
    ensures Times(g, Scale(v, c)) == Scale(Times(g, v), c)
  {
    forall j | 0 <= j < |v|
      ensures Times(g, Scale(v, c))[j] == Scale(Times(g, v), c)[j]
    {
      assert g[j] * (v[j] * c) == (g[j] * v[j]) * c;
    }
  }

  lemma TimesPlus(g: seq<real>, a: seq<real>, b: seq<real>)
    requires |g| == |a| == |b|
    ensures Times(g, Plus(a, b)) == Plus(Times(g, a), Times(g, b))
  {
    forall j | 0 <= j < |a|
      ensures Times(g, Plus(a, b))[j] == Plus(Times(g, a), Times(g, b))[j]
    {
      assert g[j] * (a[j] + b[j]) == g[j] * a[j] + g[j] * b[j];
    }
  }

  /** The neutral vector scales every dimension by 1/13. */
  lemma ModulateNeutral(emb: seq<real>)
    ensures Modulate(emb, Neutral()) == Scale(emb, 1.0 / 13.0)
  {
    ModulateConstant(emb, Neutral(), 1.0 / 13.0);
  }

  /** Modulation commutes with scaling. */
  lemma ModulateScale(emb: seq<real>, phi: seq<real>, c: real)
    ensures Modulate(Scale(emb, c), phi) == Scale(Modulate(emb, phi), c)
  {
    if phi != [] {
      ModulateElementwise(emb, phi);
      ModulateElementwise(Scale(emb, c), phi);
      TimesScale(Gains(phi, |emb|), emb, c);
    }
  }

  /** Modulation commutes with addition. */
  lemma ModulatePlus(a: seq<real>, b: seq<real>, phi: seq<real>)
    requires |a| == |b|
    ensures |Modulate(a, phi)| == |Modulate(b, phi)| == |a|
    ensures Modulate(Plus(a, b), phi) == Plus(Modulate(a, phi), Modulate(b, phi))
  {
    if phi != [] {
      ModulateElementwise(a, phi);
      ModulateElementwise(b, phi);
      ModulateElementwise(Plus(a, b), phi);
      TimesPlus(Gains(phi, |a|), a, b);
    }
  }
}
