/**
 * The classical side of two nonlocal games from QlayExamples: GHZ
 * (QlayExamples/GHZ.cpp) and CHSH (QlayExamples/CHSH.cpp). Each runs a
 * classical loop and then a quantum loop of `repeats` rounds and counts the
 * rounds won. The fair coin flips that pick the questions, and the answers the
 * quantum players measure, are inputs indexed by round.
 */
module Games {
  import Gates

  /** The two `chance(0.5)` draws at the start of a round, in the order they are made. */
  datatype Flips = Flips(first: bool, second: bool)

  /** A C++ `bool` promoted to `int` by a bitwise operator, kept to its one significant bit. */
  function Bit(b: bool): bv1 {
    if b then 1 else 0
  }

  /** `qlay::PI`. */
  const Pi: real := 3.14159265358979323846

  /** One call a quantum round makes on its qubits, numbered in the order they are created. */
  datatype Step =
    | Apply(gate: Gates.GateName, qubit: nat)
    | Controlled(gate: Gates.GateName, control: nat, target: nat)
    | Measure(qubit: nat, inX: bool)

  /** The qubits a circuit measures, in order. */
  function Measured(c: seq<Step>): (m: seq<nat>)
    ensures |m| <= |c|
  {
    if c == [] then [] else (if c[0].Measure? then [c[0].qubit] else []) + Measured(c[1..])
  }

  lemma {:induction false} MeasuredAppend(c: seq<Step>, d: seq<Step>)
    ensures Measured(c + d) == Measured(c) + Measured(d)
  {
    if c == [] {
      assert c + d == d;
    } else {
      var head := if c[0].Measure? then [c[0].qubit] else [];
      assert (c + d)[0] == c[0];
      assert (c + d)[1..] == c[1..] + d;
      assert Measured(c + d) == head + Measured(c[1..] + d);
      MeasuredAppend(c[1..], d);
      assert Measured(c) == head + Measured(c[1..]);
    }
  }

  /** A circuit with no measurement measures nothing. */
  lemma {:induction false} NothingMeasured(c: seq<Step>)
    requires forall i :: 0 <= i < |c| ==> !c[i].Measure?
    ensures Measured(c) == []
  {
    if c != [] {
      NothingMeasured(c[1..]);
    }
  }

  /** A single measurement measures its qubit. */
  lemma MeasuredOne(q: nat, inX: bool)
    ensures Measured([Measure(q, inX)]) == [q]
  {
    assert [Measure(q, inX)][1..] == [];
  }

  // ---------------------------------------------------------------------------
  // GHZ
  // ---------------------------------------------------------------------------

  /** Alice's, Bob's and Charlie's questions. */
  datatype Questions = Questions(r: bool, s: bool, t: bool)

  /** Alice's, Bob's and Charlie's answers. */
  datatype Answers = Answers(a: bool, b: bool, c: bool)

  /** `generate_questions`: r and s from the two draws, then `t = r ^ s`. */
  function GenerateQuestions(f: Flips): (q: Questions)
    ensures q.r == f.first && q.s == f.second
    ensures Bit(q.r) ^ Bit(q.s) ^ Bit(q.t) == 0
  {
    Questions(f.first, f.second, Bit(f.first) ^ Bit(f.second) == 1)
  }

  /** The generated questions are always one of 000, 011, 101 and 110. */
  lemma QuestionsAreValid(f: Flips)
    ensures GenerateQuestions(f) in
      {Questions(false, false, false), Questions(false, true, true), Questions(true, false, true), Questions(true, true, false)}
  {
  }

  /** `(r || s || t) == (a ^ b ^ c)`, the bool on the left promoted to compare with the int on the right. */
  predicate GhzWin(q: Questions, x: Answers) {
    Bit(q.r || q.s || q.t) == Bit(x.a) ^ Bit(x.b) ^ Bit(x.c)
  }

  /** The classical strategy: every player answers true. */
  const AlwaysTrue := Answers(true, true, true)

  /** The classical strategy wins a round exactly when some question is true. */
  lemma ClassicalGhzWin(q: Questions)
    ensures GhzWin(q, AlwaysTrue) <==> q.r || q.s || q.t
  {
  }

  /** Of the four valid question sets, the classical strategy loses only 000. */
  lemma ClassicalGhzLosesOnlyAllFalse(f: Flips)
    ensures !GhzWin(GenerateQuestions(f), AlwaysTrue) <==> GenerateQuestions(f) == Questions(false, false, false)
  {
    ClassicalGhzWin(GenerateQuestions(f));
  }

  /** Prepares 0.5|000> - 0.5|011> - 0.5|101> - 0.5|110> on Alice's (0), Bob's (1) and Charlie's (2) qubits. */
  const GhzPreparation: seq<Step> := [
    Apply(Gates.H, 2), Apply(Gates.H, 1), Controlled(Gates.CNOT, 2, 0), Controlled(Gates.CNOT, 1, 0),
    Apply(Gates.Rp(Pi / 2.0), 0), Apply(Gates.Rp(Pi / 2.0), 1), Apply(Gates.Rp(Pi / 2.0), 2)
  ]

  /** A player asked `question` applies H to their qubit first when the question is true, then measures it. */
  function Answer(question: bool, qubit: nat): (c: seq<Step>)
    ensures Measured(c) == [qubit]
    ensures Apply(Gates.H, qubit) in c <==> question
    ensures forall i :: 0 <= i < |c| ==> c[i] in {Apply(Gates.H, qubit), Measure(qubit, false)}
  {
    var h: seq<Step> := if question then [Apply(Gates.H, qubit)] else [];
    MeasuredAppend(h, [Measure(qubit, false)]);
    NothingMeasured(h);
    MeasuredOne(qubit, false);
    h + [Measure(qubit, false)]
  }

  /** The calls of one quantum GHZ round on questions q. */
  function GhzRound(q: Questions): seq<Step> {
    GhzPreparation + Answer(q.r, 0) + Answer(q.s, 1) + Answer(q.t, 2)
  }

  /**
   * Every quantum GHZ round starts from the same preparation, measures Alice's,
   * Bob's and Charlie's qubits once each, in that order, and puts a player's
   * qubit in the X basis (an H after the preparation) exactly when that
   * player's question is true.
   */
  lemma GhzRoundShape(q: Questions)
    ensures GhzRound(q)[..7] == GhzPreparation
    ensures Measured(GhzRound(q)) == [0, 1, 2]
    ensures Apply(Gates.H, 0) in GhzRound(q)[7..] <==> q.r
    ensures Apply(Gates.H, 1) in GhzRound(q)[7..] <==> q.s
    ensures Apply(Gates.H, 2) in GhzRound(q)[7..] <==> q.t
  {
    var a, b, c := Answer(q.r, 0), Answer(q.s, 1), Answer(q.t, 2);
    assert GhzRound(q) == GhzPreparation + (a + b + c);
    assert GhzRound(q)[..7] == GhzPreparation;
    assert GhzRound(q)[7..] == a + b + c;
    GhzMeasured(a, b, c);
    Owned(a, b, c, 0);
    Owned(b, a, c, 1);
    Owned(c, a, b, 2);
  }

  /** The preparation measures nothing, then each answer measures its own qubit. */
  lemma GhzMeasured(a: seq<Step>, b: seq<Step>, c: seq<Step>)
    requires Measured(a) == [0] && Measured(b) == [1] && Measured(c) == [2]
    ensures Measured(GhzPreparation + (a + b + c)) == [0, 1, 2]
  {
    NothingMeasured(GhzPreparation);
    MeasuredAppend(GhzPreparation, a + b + c);
    MeasuredAppend(a + b, c);
    MeasuredAppend(a, b);
  }

  /** An H on qubit p in three answers comes from the answer that owns p. */
  lemma Owned(mine: seq<Step>, x: seq<Step>, y: seq<Step>, p: nat)
    requires forall i :: 0 <= i < |x| ==> !x[i].Apply? || x[i].qubit != p
    requires forall i :: 0 <= i < |y| ==> !y[i].Apply? || y[i].qubit != p
    ensures Apply(Gates.H, p) in mine + x + y <==> Apply(Gates.H, p) in x + mine + y
    ensures Apply(Gates.H, p) in mine + x + y <==> Apply(Gates.H, p) in x + y + mine
    ensures Apply(Gates.H, p) in mine + x + y <==> Apply(Gates.H, p) in mine
  {
  }

  /** Rounds among the first n whose questions are not 000. */
  function NotAllFalse(flips: nat -> Flips, n: nat): (c: nat)
    ensures c <= n
  {
    if n == 0 then 0 else NotAllFalse(flips, n - 1) + if flips(n - 1).first || flips(n - 1).second then 1 else 0
  }

  /** Rounds among the first n that the quantum players win. */
  function GhzQuantumWins(flips: nat -> Flips, measured: (nat, Questions) -> Answers, n: nat): (c: nat)
    ensures c <= n
  {
    if n == 0 then 0
    else
      var q := GenerateQuestions(flips(n - 1));
      GhzQuantumWins(flips, measured, n - 1) + if GhzWin(q, measured(n - 1, q)) then 1 else 0
  }

  /**
   * `GHZ(repeats)`. Round i of the classical loop draws `classical(i)`, round
   * i of the quantum loop draws `quantum(i)`, and `measured(i, q)` is what the
   * three measurements of quantum round i give on questions q. The classical
   * count is the number of rounds not asked 000; the quantum count starts
   * again from 0 and uses the same win predicate.
   */
  method Ghz(repeats: nat, classical: nat -> Flips, quantum: nat -> Flips, measured: (nat, Questions) -> Answers)
    returns (classicalWins: nat, quantumWins: nat)
    ensures classicalWins == NotAllFalse(classical, repeats) && classicalWins <= repeats
    ensures quantumWins == GhzQuantumWins(quantum, measured, repeats) && quantumWins <= repeats
  {
    var wins := 0;
    var i := 0;
    while i < repeats
      invariant 0 <= i <= repeats
      invariant wins == NotAllFalse(classical, i)
    {
      var q := GenerateQuestions(classical(i));
      var x := AlwaysTrue;
      ClassicalGhzWin(q);
      if GhzWin(q, x) {
        wins := wins + 1;
      }
      i := i + 1;
    }
    classicalWins := wins;

    wins := 0;
    i := 0;
    while i < repeats
      invariant 0 <= i <= repeats
      invariant wins == GhzQuantumWins(quantum, measured, i)
    {
      var q := GenerateQuestions(quantum(i));
      var x := measured(i, q);
      if GhzWin(q, x) {
        wins := wins + 1;
      }
      i := i + 1;
    }
    quantumWins := wins;
  }

  // ---------------------------------------------------------------------------
  // CHSH
  // ---------------------------------------------------------------------------

  /** The classical round's test `(r & s) == (a ^ b)`, with both sides promoted to int. */
  predicate ChshClassicalWin(r: bool, s: bool, a: bool, b: bool) {
    Bit(r) & Bit(s) == Bit(a) ^ Bit(b)
  }

  /** The quantum round's test `(r && s) == (a ^ b)`, the bool on the left promoted. */
  predicate ChshQuantumWin(r: bool, s: bool, a: bool, b: bool) {
    Bit(r && s) == Bit(a) ^ Bit(b)
  }

  /** The two loops test the same condition although one writes `&` and the other `&&`. */
  lemma ChshPredicatesAgree(r: bool, s: bool, a: bool, b: bool)
    ensures ChshClassicalWin(r, s, a, b) <==> ChshQuantumWin(r, s, a, b)
  {
  }

  /** With both answers false, the classical players win exactly when not both questions are true. */
  lemma ClassicalChshWin(r: bool, s: bool)
    ensures ChshClassicalWin(r, s, false, false) <==> !(r && s)
  {
  }

  /**
   * The calls of one quantum CHSH round on questions (r, s): an entangled pair,
   * Alice measures in the X basis when r, Bob rotates by +2pi/8 about Y when s
   * and by -2pi/8 otherwise, then measures.
   */
  function ChshRound(r: bool, s: bool): seq<Step> {
    [Apply(Gates.H, 0), Controlled(Gates.CNOT, 0, 1), Measure(0, r),
     Apply(Gates.Ry(if s then 2.0 * Pi / 8.0 else -2.0 * Pi / 8.0), 1), Measure(1, false)]
  }

  /** Alice's qubit is measured first, in the X basis exactly when r; Bob's angle has the sign of s. */
  lemma ChshRoundShape(r: bool, s: bool)
    ensures Measured(ChshRound(r, s)) == [0, 1]
    ensures ChshRound(r, s)[2] == Measure(0, r)
    ensures ChshRound(r, s)[3].gate.Ry? && (ChshRound(r, s)[3].gate.angle > 0.0 <==> s)
  {
    var pair: seq<Step> := [Apply(Gates.H, 0), Controlled(Gates.CNOT, 0, 1)];
    var rotate: seq<Step> := [Apply(Gates.Ry(if s then 2.0 * Pi / 8.0 else -2.0 * Pi / 8.0), 1)];
    assert ChshRound(r, s) == pair + [Measure(0, r)] + rotate + [Measure(1, false)];
    NothingMeasured(pair);
    NothingMeasured(rotate);
    MeasuredOne(0, r);
    MeasuredOne(1, false);
    MeasuredAppend(pair, [Measure(0, r)]);
    MeasuredAppend(pair + [Measure(0, r)], rotate);
    MeasuredAppend(pair + [Measure(0, r)] + rotate, [Measure(1, false)]);
  }

  /** Rounds among the first n in which not both questions are true. */
  function NotBothAsked(flips: nat -> Flips, n: nat): (c: nat)
    ensures c <= n
  {
    if n == 0 then 0 else NotBothAsked(flips, n - 1) + if flips(n - 1).first && flips(n - 1).second then 0 else 1
  }

  /** Rounds among the first n that the quantum players win; `measured(i, r, s)` is their (a, b). */
  function ChshQuantumWins(flips: nat -> Flips, measured: (nat, bool, bool) -> (bool, bool), n: nat): (c: nat)
    ensures c <= n
  {
    if n == 0 then 0
    else
      var f := flips(n - 1);
      var ab := measured(n - 1, f.first, f.second);
      ChshQuantumWins(flips, measured, n - 1) + if ChshQuantumWin(f.first, f.second, ab.0, ab.1) then 1 else 0
  }

  /**
   * `CHSH(repeats)`: the classical count is the number of rounds in which not
   * both questions are true; the quantum count starts again from 0.
   */
  method Chsh(repeats: nat, classical: nat -> Flips, quantum: nat -> Flips,
              measured: (nat, bool, bool) -> (bool, bool))
    returns (classicalWins: nat, quantumWins: nat)
    ensures classicalWins == NotBothAsked(classical, repeats) && classicalWins <= repeats
    ensures quantumWins == ChshQuantumWins(quantum, measured, repeats) && quantumWins <= repeats
  {
    var wins := 0;
    var i := 0;
    while i < repeats
      invariant 0 <= i <= repeats
      invariant wins == NotBothAsked(classical, i)
    {
      var r := classical(i).first;
      var s := classical(i).second;
      var a := false;
      var b := false;
      ClassicalChshWin(r, s);
      if ChshClassicalWin(r, s, a, b) {
        wins := wins + 1;
      }
      i := i + 1;
    }
    classicalWins := wins;

    wins := 0;
    i := 0;
    while i < repeats
      invariant 0 <= i <= repeats
      invariant wins == ChshQuantumWins(quantum, measured, i)
    {
      var r := quantum(i).first;
      var s := quantum(i).second;
      var ab := measured(i, r, s);
      if ChshQuantumWin(r, s, ab.0, ab.1) {
        wins := wins + 1;
      }
      i := i + 1;
    }
    quantumWins := wins;
  }
}
