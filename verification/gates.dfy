/**
 * Qubit indexing and routing in the simulator (Qlay/Gates.cpp).
 *
 * Amplitudes are not modelled as numbers. What is modelled exactly is the
 * integer and index logic around them: which basis indices a measurement keeps,
 * how an operator is widened to the whole register by Kronecker factors, and how
 * a two-qubit gate on non-neighbouring qubits is routed with adjacent SWAPs.
 */
module Gates {
  import Core

  // ---------------------------------------------------------------------------
  // Bits of basis indices
  // ---------------------------------------------------------------------------

  function Pow2(n: nat): (p: nat)
    ensures p >= 1
  {
    if n == 0 then 1 else 2 * Pow2(n - 1)
  }

  lemma {:induction false} Pow2Add(m: nat, n: nat)
    ensures Pow2(m + n) == Pow2(m) * Pow2(n)
  {
    if m > 0 {
      Pow2Add(m - 1, n);
    }
  }

  lemma {:induction false} Pow2Strict(m: nat, n: nat)
    requires m < n
    ensures Pow2(m) < Pow2(n)
  {
    if m + 1 < n {
      Pow2Strict(m, n - 1);
    }
  }

  /** Bit b of a non-negative index, as `i & (1 << b)` tests it. */
  predicate Bit(i: nat, b: nat) {
    (i / Pow2(b)) % 2 == 1
  }

  /** The indices below x whose bit b equals value. */
  ghost function WithBit(x: int, b: nat, value: bool): set<nat> {
    set i: nat | i < x && Bit(i, b) == value
  }

  /** ints_with_bit: scan 0 .. x-1 and keep the indices whose bit b equals value. */
  method IntsWithBit(x: int, b: nat, value: bool) returns (s: set<nat>)
    ensures forall i: nat :: i in s <==> i < x && Bit(i, b) == value
  {
    s := {};
    var i: nat := 0;
    while i < x
      invariant i == 0 || i <= x
      invariant forall j: nat :: j in s <==> j < i && Bit(j, b) == value
    {
      if Bit(i, b) == value {
        s := s + {i};
      }
      i := i + 1;
    }
  }

  /** The two sets M computes, s (bit set) and sc (bit clear), split the basis indices. */
  lemma MeasurementSetsPartition(n: int, k: nat)
    ensures WithBit(n, k, true) !! WithBit(n, k, false)
    ensures forall i: nat :: i < n <==> i in WithBit(n, k, true) || i in WithBit(n, k, false)
  {
  }

  /**
   * The part of M after the outcome is drawn: zero every amplitude whose index
   * contradicts the outcome, then rescale the kept ones. The outcome itself
   * (chance of the summed probability) and the norm are inputs: `rescale`
   * stands for the division by the square root of the kept probability.
   */
  method Collapse<A>(state: array<A>, count: nat, index: nat, result: bool, zero: A, rescale: A -> A)
    requires index < count && state.Length == Pow2(count)
    modifies state
    ensures forall i :: 0 <= i < state.Length ==>
      state[i] == if Bit(i, index) == result then rescale(old(state[i])) else zero
  {
    var s := IntsWithBit(Pow2(count), index, true);
    var sc := IntsWithBit(Pow2(count), index, false);
    var contradictory := if result then sc else s;
    var kept := if result then s else sc;
    var todo := contradictory;
    while todo != {}
      invariant todo <= contradictory
      invariant forall i :: 0 <= i < state.Length ==>
        state[i] == if i in contradictory && i !in todo then zero else old(state[i])
      decreases todo
    {
      var i :| i in todo;
      state[i] := zero;
      todo := todo - {i};
    }
    todo := kept;
    while todo != {}
      invariant todo <= kept
      invariant forall i :: 0 <= i < state.Length ==>
        state[i] == if i in kept && i !in todo then rescale(old(state[i]))
                    else if i in contradictory then zero else old(state[i])
      decreases todo
    {
      var i :| i in todo;
      state[i] := rescale(state[i]);
      todo := todo - {i};
    }
  }

  // ---------------------------------------------------------------------------
  // The gates of `namespace gates`
  // ---------------------------------------------------------------------------

  /** Every gate the simulator defines; the rotations carry their angle. */
  datatype GateName =
    | X | Y | Z | H | SRNOT
    | Rx(angle: real) | Ry(angle: real) | Rz(angle: real) | Rp(angle: real)
    | SWAP | SRSWAP | CNOT
  {
    /** The TwoGate functors; the others are Gate or AngleGate functors on one qubit. */
    predicate IsTwoQubit() {
      SWAP? || SRSWAP? || CNOT?
    }

    /** The AngleGate functors, parametrised with an angle in radians. */
    predicate HasAngle() {
      Rx? || Ry? || Rz? || Rp?
    }

    /** Row count of the gate's base matrix. */
    function Rows(): (r: nat)
      ensures r == 4 <==> IsTwoQubit()
      ensures r == 2 || r == 4
    {
      if IsTwoQubit() then 4 else 2
    }
  }

  // ---------------------------------------------------------------------------
  // expand_operator: the operator as a list of Kronecker factors, leftmost first
  // ---------------------------------------------------------------------------

  /** One Kronecker factor: the 2x2 identity I, or the gate's own matrix. */
  datatype Factor = Identity | Operator(rows: nat)

  function Dim(f: Factor): nat {
    match f
    case Identity => 2
    case Operator(r) => r
  }

  /** Dimension of the product of the factors; the empty product is the 1x1 [1]. */
  function Dims(fs: seq<Factor>): nat {
    if fs == [] then 1 else Dim(fs[0]) * Dims(fs[1..])
  }

  lemma {:induction false} DimsAppend(xs: seq<Factor>, ys: seq<Factor>)
    ensures Dims(xs + ys) == Dims(xs) * Dims(ys)
  {
    if xs != [] {
      assert (xs + ys)[1..] == xs[1..] + ys;
      DimsAppend(xs[1..], ys);
      calc {
        Dims(xs + ys);
        Dim(xs[0]) * Dims(xs[1..] + ys);
        Dim(xs[0]) * (Dims(xs[1..]) * Dims(ys));
        (Dim(xs[0]) * Dims(xs[1..])) * Dims(ys);
      }
    } else {
      assert xs + ys == ys;
    }
  }

  /** I (x) I (x) ... (x) I with n factors; none when n <= 0. */
  function Identities(n: int): (fs: seq<Factor>)
    ensures |fs| == if n <= 0 then 0 else n
  {
    if n <= 0 then [] else [Identity] + Identities(n - 1)
  }

  lemma {:induction false} DimsIdentities(n: nat)
    ensures Dims(Identities(n)) == Pow2(n)
  {
    if n > 0 {
      assert Identities(n)[1..] == Identities(n - 1);
      DimsIdentities(n - 1);
    }
  }

  /** Last index before which expand_operator still adds identities on the left. */
  function Limit(rows: nat, count: int): int {
    if rows == 4 then count - 2 else count - 1
  }

  /** I^(limit - index) (x) m (x) I^index, the factors expand_operator builds. */
  function Expanded(rows: nat, count: int, index: int): seq<Factor> {
    Identities(Limit(rows, count) - index) + [Operator(rows)] + Identities(index)
  }

  method ExpandOperator(rows: nat, count: int, index: int) returns (result: seq<Factor>)
    ensures result == Expanded(rows, count, index)
  {
    result := [];
    var i := 0;
    while i < index
      invariant 0 <= i && (i == 0 || i <= index)
      invariant result == Identities(i)
    {
      result := [Identity] + result;
      i := i + 1;
    }
    result := [Operator(rows)] + result;
    var limit := if rows == 4 then count - 2 else count - 1;
    i := index;
    while i < limit
      invariant index <= i && (i == index || i <= limit)
      invariant result == Identities(i - index) + [Operator(rows)] + Identities(index)
    {
      result := [Identity] + result;
      i := i + 1;
    }
  }

  /** Within 0 <= index <= limit the widened operator is exactly 2^count square. */
  lemma {:induction false} ExpandedDim(rows: nat, count: int, index: int)
    requires rows == 2 || rows == 4
    requires 0 <= index <= Limit(rows, count)
    ensures count >= 0 && Dims(Expanded(rows, count, index)) == Pow2(count)
  {
    var left := Limit(rows, count) - index;
    var e := Expanded(rows, count, index);
    DimsAppend(Identities(left) + [Operator(rows)], Identities(index));
    DimsAppend(Identities(left), [Operator(rows)]);
    DimsIdentities(left);
    DimsIdentities(index);
    assert Dims([Operator(rows)]) == rows;
    var k := if rows == 4 then 2 else 1;
    assert rows == Pow2(k);
    Pow2Add(left, k);
    Pow2Add(left + k, index);
  }

  /** Past the limit the widened operator is larger than the register: the source relies on index <= limit. */
  lemma {:induction false} ExpandedTooLarge(rows: nat, count: nat, index: nat)
    requires rows == 2 || rows == 4
    requires index > Limit(rows, count)
    ensures Dims(Expanded(rows, count, index)) > Pow2(count)
  {
    var k := if rows == 4 then 2 else 1;
    assert Identities(Limit(rows, count) - index) == [];
    assert Expanded(rows, count, index) == [Operator(rows)] + Identities(index);
    DimsAppend([Operator(rows)], Identities(index));
    assert Dims([Operator(rows)]) == rows == Pow2(k);
    DimsIdentities(index);
    Pow2Add(k, index);
    Pow2Strict(count, k + index);
  }

  /** The 2x2 identity matrix. */
  const I2: Core.Matrix := Core.Matrix(2, 2, [[1, 0], [0, 1]])

  /** The Kronecker product of the factors, right-nested the way expand_operator builds it. */
  function Evaluate(fs: seq<Factor>, m: Core.Matrix): (e: Core.Matrix)
    requires m.Valid()
    ensures e.Valid()
    ensures (forall k :: 0 <= k < |fs| && fs[k].Operator? ==> fs[k].rows == m.rows == m.cols) ==>
      e.rows == Dims(fs) && e.cols == Dims(fs)
  {
    if fs == [] then Core.One
    else
      assert forall k :: 0 <= k < |fs| - 1 ==> fs[1..][k] == fs[k + 1];
      var rest := Evaluate(fs[1..], m);
      if fs[0].Identity? then Core.Kron(I2, rest) else Core.Kron(m, rest)
  }

  /** At index 0 with a single-factor expansion, kronecker_product(m, [1]) leaves m itself. */
  lemma ExpandAtZero(m: Core.Matrix)
    requires m.Valid()
    ensures Evaluate([Operator(m.rows)], m) == m
  {
    assert [Operator(m.rows)][1..] == [];
    Core.KronRightUnit(m);
  }

  // ---------------------------------------------------------------------------
  // Routing: which qubit sits at which position of the state vector
  // ---------------------------------------------------------------------------

  /** The layout after exchanging the contents of positions x and y. */
  function Exchange(l: seq<nat>, x: nat, y: nat): (r: seq<nat>)
    requires x < |l| && y < |l|
    ensures |r| == |l|
    ensures forall k :: 0 <= k < |l| ==> r[k] == if k == y then l[x] else if k == x then l[y] else l[k]
  {
    l[x := l[y]][y := l[x]]
  }

  /** The loop `for i = f; i > t; i-- SWAP(i, i-1)`: the content of f moves down to t, t..f-1 move up one. */
  function MoveDown(l: seq<nat>, t: nat, f: nat): (r: seq<nat>)
    requires t <= f < |l|
    ensures |r| == |l|
    ensures forall k :: 0 <= k < |l| ==> r[k] == if k < t || k > f then l[k] else if k == t then l[f] else l[k - 1]
  {
    l[..t] + [l[f]] + l[t..f] + l[f + 1..]
  }

  /** The loop `for i = t; i < f; i++ SWAP(i+1, i)`: the content of t moves up to f, t+1..f move down one. */
  function MoveUp(l: seq<nat>, t: nat, f: nat): (r: seq<nat>)
    requires t <= f < |l|
    ensures |r| == |l|
    ensures forall k :: 0 <= k < |l| ==> r[k] == if k < t || k > f then l[k] else if k == f then l[t] else l[k + 1]
  {
    l[..t] + l[t + 1..f + 1] + [l[t]] + l[f + 1..]
  }

  lemma MoveDownStep(l: seq<nat>, i: nat, f: nat)
    requires 0 < i <= f < |l|
    ensures Exchange(MoveDown(l, i, f), i, i - 1) == MoveDown(l, i - 1, f)
  {
    var x, y := Exchange(MoveDown(l, i, f), i, i - 1), MoveDown(l, i - 1, f);
    assert forall k :: 0 <= k < |l| ==> x[k] == y[k];
  }

  lemma MoveUpStep(l: seq<nat>, t: nat, i: nat)
    requires t <= i && i + 1 < |l|
    ensures Exchange(MoveUp(l, t, i), i + 1, i) == MoveUp(l, t, i + 1)
  {
    var x, y := Exchange(MoveUp(l, t, i), i + 1, i), MoveUp(l, t, i + 1);
    assert forall k :: 0 <= k < |l| ==> x[k] == y[k];
  }

  /** Swapping back in the reverse order undoes the forward swaps. */
  lemma MoveUpUndoesMoveDown(l: seq<nat>, t: nat, f: nat)
    requires t <= f < |l|
    ensures MoveUp(MoveDown(l, t, f), t, f) == l
  {
    var x := MoveUp(MoveDown(l, t, f), t, f);
    assert forall k :: 0 <= k < |l| ==> x[k] == l[k];
  }

  /** Position of a's content once b's content has been moved down to position 0. */
  function Displaced(a: nat, b: nat): nat {
    if a < b then a + 1 else a
  }

  /** After the b-loop and the a-loop, a's content is at 1 and b's at 0. */
  lemma RoutedIntoPlace(l: seq<nat>, a: nat, b: nat)
    requires a < |l| && b < |l| && a != b
    ensures 1 <= Displaced(a, b) < |l|
    ensures MoveDown(MoveDown(l, 0, b), 1, Displaced(a, b))[1] == l[a]
    ensures MoveDown(MoveDown(l, 0, b), 1, Displaced(a, b))[0] == l[b]
  {
  }

  /** Moving a's content to 1, exchanging positions 1 and 0 and moving it back exchanges positions f and 0. */
  lemma ConjugatedSwapInner(l: seq<nat>, f: nat)
    requires 1 <= f < |l|
    ensures MoveUp(Exchange(MoveDown(l, 1, f), 1, 0), 1, f) == Exchange(l, f, 0)
  {
    var x, y := MoveUp(Exchange(MoveDown(l, 1, f), 1, 0), 1, f), Exchange(l, f, 0);
    assert forall k :: 0 <= k < |l| ==> x[k] == y[k];
  }

  /** With b's content moved down to 0, exchanging 0 with a's displaced position and moving back exchanges a and b. */
  lemma ConjugatedSwapOuter(l: seq<nat>, a: nat, b: nat)
    requires a < |l| && b < |l| && a != b
    ensures Displaced(a, b) < |l|
    ensures MoveUp(Exchange(MoveDown(l, 0, b), Displaced(a, b), 0), 0, b) == Exchange(l, a, b)
  {
    var ai := Displaced(a, b);
    var l1 := MoveDown(l, 0, b);
    var e := Exchange(l1, ai, 0);
    var x, y := MoveUp(e, 0, b), Exchange(l, a, b);
    forall k | 0 <= k < |l|
      ensures x[k] == y[k]
    {
      if k < b {
        assert x[k] == e[k + 1];
        if k + 1 == ai {
          assert k == a && e[k + 1] == l1[0] == l[b];
        } else {
          assert e[k + 1] == l1[k + 1] == l[k];
        }
      } else if k == b {
        assert x[k] == e[0] == l1[ai] == l[a];
      } else {
        assert x[k] == e[k];
        if k == ai {
          assert k == a && e[k] == l1[0] == l[b];
        } else {
          assert e[k] == l1[k] == l[k];
        }
      }
    }
  }

  /** A SWAP payload at positions (1, 0), conjugated by both loops, exchanges a and b. */
  lemma RoutedSwapExchanges(l: seq<nat>, a: nat, b: nat)
    requires a < |l| && b < |l| && a != b
    ensures 1 <= Displaced(a, b) < |l|
    ensures MoveUp(MoveUp(Exchange(MoveDown(MoveDown(l, 0, b), 1, Displaced(a, b)), 1, 0), 1, Displaced(a, b)), 0, b)
      == Exchange(l, a, b)
  {
    ConjugatedSwapInner(MoveDown(l, 0, b), Displaced(a, b));
    ConjugatedSwapOuter(l, a, b);
  }

  // ---------------------------------------------------------------------------
  // The register: the state vector's qubit layout and the operators applied to it
  // ---------------------------------------------------------------------------

  /**
   * One operator multiplied into the state: the gate, the qubits it acts on
   * (for two qubits the one at the higher position first) and the position
   * expand_operator placed it at.
   */
  datatype Applied = Applied(gate: GateName, operands: seq<nat>, position: nat)

  /** Where TwoGate applies its matrix: at b, at a after a SWAP, or at 0 after routing. */
  function TwoGatePosition(a: nat, b: nat): nat {
    if a == b + 1 then b else if a + 1 == b then a else 0
  }

  /** Every branch of TwoGate widens its matrix to exactly the register's dimension. */
  lemma TwoGatePositionFits(a: nat, b: nat, count: nat)
    requires a < count && b < count && a != b
    ensures TwoGatePosition(a, b) + 1 < count
    ensures Dims(Expanded(4, count, TwoGatePosition(a, b))) == Pow2(count)
  {
    ExpandedDim(4, count, TwoGatePosition(a, b));
  }

  function Range(n: nat): (r: seq<nat>)
    ensures |r| == n && forall k :: 0 <= k < n ==> r[k] == k
  {
    seq(n, k => k)
  }

  /**
   * A qubit system as the routing code sees it. `layout[p]` is the qubit whose
   * amplitude index bit sits at position p; SWAP applications permute it. Every
   * other operator is recorded in `applied`, naming the qubits it acts on.
   */
  class QubitSystem {
    const count: nat
    var layout: seq<nat>
    var applied: seq<Applied>

    ghost predicate Valid()
      reads this
    {
      |layout| == count
    }

    constructor (n: nat)
      ensures Valid() && count == n
      ensures layout == Range(n) && applied == []
    {
      count := n;
      layout := Range(n);
      applied := [];
    }

    /** Gate and AngleGate: widen the matrix to the qubit's position, multiply it in. */
    method ApplyGate(g: GateName, q: nat)
      requires Valid() && !g.IsTwoQubit() && q < count
      modifies this
      ensures Valid() && layout == old(layout)
      ensures applied == old(applied) + [Applied(g, [old(layout)[q]], q)]
    {
      var op := ExpandOperator(g.Rows(), count, q);
      ExpandedDim(g.Rows(), count, q);
      assert Dims(op) == Pow2(count);
      applied := applied + [Applied(g, [layout[q]], q)];
    }

    /** `expand_operator(m_, count, p)` then `state = op * state` for a two-qubit matrix at positions p+1, p. */
    method ApplyAt(g: GateName, p: nat)
      requires Valid() && g.IsTwoQubit() && p + 1 < count
      modifies this
      ensures Valid()
      ensures g == SWAP ==> layout == Exchange(old(layout), p + 1, p) && applied == old(applied)
      ensures g != SWAP ==>
        layout == old(layout) && applied == old(applied) + [Applied(g, [old(layout)[p + 1], old(layout)[p]], p)]
    {
      var op := ExpandOperator(g.Rows(), count, p);
      ExpandedDim(g.Rows(), count, p);
      assert Dims(op) == Pow2(count);
      if g == SWAP {
        layout := Exchange(layout, p + 1, p);
      } else {
        applied := applied + [Applied(g, [layout[p + 1], layout[p]], p)];
      }
    }

    /**
     * TwoGate::operator()(a, b). Whatever branch is taken, the matrix sees a's
     * qubit at the higher position and b's at the lower one, and the layout
     * returns to where it was (a SWAP gate leaves a and b exchanged). The
     * routing SWAPs call this method on neighbours, which take the direct branch.
     */
    method TwoGate(g: GateName, a: nat, b: nat)
      requires Valid() && g.IsTwoQubit() && a < count && b < count && a != b
      modifies this
      decreases if a == b + 1 then 0 else 4
      ensures Valid()
      ensures layout == if g == SWAP then Exchange(old(layout), a, b) else old(layout)
      ensures applied == old(applied) +
        if g == SWAP then [] else [Applied(g, [old(layout)[a], old(layout)[b]], TwoGatePosition(a, b))]
    {
      if a == b + 1 {
        ApplyAt(g, b);
      } else if a + 1 == b {
        TwoGate(SWAP, b, a);
        ApplyAt(g, a);
        TwoGate(SWAP, b, a);
        assert layout == if g == SWAP then Exchange(old(layout), a, b) else old(layout);
      } else {
        Route(g, a, b);
      }
    }

    /** The else branch of TwoGate: route b to position 0 and a to 1, apply, route back. */
    method Route(g: GateName, a: nat, b: nat)
      requires Valid() && g.IsTwoQubit() && a < count && b < count && a != b
      modifies this
      decreases 3
      ensures Valid()
      ensures layout == if g == SWAP then Exchange(old(layout), a, b) else old(layout)
      ensures applied == old(applied) + if g == SWAP then [] else [Applied(g, [old(layout)[a], old(layout)[b]], 0)]
    {
      ghost var l0 := layout;
      var ai := Displaced(a, b);
      RoutedIntoPlace(l0, a, b);
      SwapDown(0, b);
      ghost var l1 := layout;
      SwapDown(1, ai);
      ApplyAt(g, 0);
      SwapUp(1, ai);
      SwapUp(0, b);
      if g == SWAP {
        RoutedSwapExchanges(l0, a, b);
      } else {
        MoveUpUndoesMoveDown(l1, 1, ai);
        MoveUpUndoesMoveDown(l0, 0, b);
      }
    }

    /** The loop `for (i = f; i > t; i--) SWAP(Qubit(qs, i), Qubit(qs, i - 1))`. */
    method SwapDown(t: nat, f: nat)
      requires Valid() && t <= f < count
      modifies this
      decreases 2
      ensures Valid() && applied == old(applied)
      ensures layout == MoveDown(old(layout), t, f)
    {
      var i := f;
      while i > t
        invariant Valid() && t <= i <= f && applied == old(applied)
        invariant layout == MoveDown(old(layout), i, f)
      {
        TwoGate(SWAP, i, i - 1);
        MoveDownStep(old(layout), i, f);
        i := i - 1;
      }
    }

    /** The loop `for (i = t; i < f; i++) SWAP(Qubit(qs, i + 1), Qubit(qs, i))`. */
    method SwapUp(t: nat, f: nat)
      requires Valid() && t <= f < count
      modifies this
      decreases 2
      ensures Valid() && applied == old(applied)
      ensures layout == MoveUp(old(layout), t, f)
    {
      ghost var l := layout;
      var i := t;
      while i < f
        invariant Valid() && t <= i <= f && applied == old(applied)
        invariant layout == MoveUp(l, t, i)
      {
        SwapUpStep(l, t, i);
        i := i + 1;
      }
    }

    /** One pass of SwapUp's loop: the SWAP of positions i + 1 and i carries t's content one further up. */
    method SwapUpStep(ghost l: seq<nat>, t: nat, i: nat)
      requires Valid() && t <= i && i + 1 < count && |l| == count && layout == MoveUp(l, t, i)
      modifies this
      decreases 1
      ensures Valid() && applied == old(applied)
      ensures layout == MoveUp(l, t, i + 1)
    {
      TwoGate(SWAP, i + 1, i);
      MoveUpStep(l, t, i);
    }
  }
}
