/**
 * The C++/CLI wrapper QlayCLI: the static `Gates` table that managed code
 * reaches by method name, and the managed `Qubit` handle that owns one native
 * `qlay::Qubit` and releases it at most once.
 */
module Cli {
  import opened Wrappers
  import Gates

  // ---------------------------------------------------------------------------
  // The `Gates` table (QlayCLI/Qlay.cpp), as managed reflection sees it
  // ---------------------------------------------------------------------------

  /** What a static method of `Gates` takes and returns: `angles` doubles, then `qubits` Qubit handles. */
  datatype Signature = Signature(angles: nat, qubits: nat, returnsBool: bool)

  /** One public static method of the `Gates` class, in declaration order. */
  datatype Entry = Entry(name: string, sig: Signature)

  const Measurement := Signature(0, 1, true)
  const Plain := Signature(0, 1, false)
  const Angled := Signature(1, 1, false)

  /** The methods of `ref class Gates`, in the order they are declared. */
  const Table: seq<Entry> := [
    Entry("M", Measurement), Entry("Mx", Measurement),
    Entry("X", Plain), Entry("Y", Plain), Entry("Z", Plain), Entry("H", Plain), Entry("SRNOT", Plain),
    Entry("Rx", Angled), Entry("Ry", Angled), Entry("Rz", Angled), Entry("Rp", Angled)
  ]

  /** The name is declared in `t`. */
  predicate Declared(t: seq<Entry>, name: string) {
    exists i :: 0 <= i < |t| && t[i].name == name
  }

  /** Scan of `t` for `name` (`GetMethod`): the first entry with that name, or nothing. */
  function Find(t: seq<Entry>, name: string): (r: Option<Signature>)
    ensures r.None? <==> !Declared(t, name)
    ensures r.Some? ==> exists i :: 0 <= i < |t| && t[i] == Entry(name, r.value)
  {
    if t == [] then None
    else if t[0].name == name then Some(t[0].sig)
    else
      var r := Find(t[1..], name);
      assert r.Some? ==> t[1..][0..] == t[1..];
      r
  }

  /** `typeof(Gates).GetMethod(name)`, without the overload resolution that the table never needs. */
  function Lookup(name: string): (r: Option<Signature>)
    ensures r.None? <==> !Declared(Table, name)
    ensures r.Some? ==> r.value.qubits == 1 && r.value.angles <= 1
    ensures r.Some? && r.value.returnsBool ==> r.value.angles == 0
  {
    Find(Table, name)
  }

  /** No two methods of the table share a name, so a lookup by name is unambiguous. */
  lemma NamesDistinct()
    ensures forall i, j :: 0 <= i < j < |Table| ==> Table[i].name != Table[j].name
  {
  }

  /** A scan finds the first entry with a name, whatever follows it. */
  lemma {:induction false} FindFirst(t: seq<Entry>, i: nat)
    requires i < |t| && forall j :: 0 <= j < i ==> t[j].name != t[i].name
    ensures Find(t, t[i].name) == Some(t[i].sig)
  {
    if i > 0 {
      assert t[1..][i - 1] == t[i];
      FindFirst(t[1..], i - 1);
    }
  }

  /** Entry i of the table is what a lookup of its name returns. */
  lemma TableEntry(i: nat)
    requires i < |Table|
    ensures Lookup(Table[i].name) == Some(Table[i].sig)
  {
    NamesDistinct();
    FindFirst(Table, i);
  }

  /** M and Mx take one qubit and return bool. */
  lemma MeasurementSignatures()
    ensures Lookup("M") == Some(Measurement) && Lookup("Mx") == Some(Measurement)
  {
    TableEntry(0);
    TableEntry(1);
  }

  /** X, Y, Z, H and SRNOT take one qubit and no angle and return nothing. */
  lemma PlainSignatures()
    ensures Lookup("X") == Some(Plain) && Lookup("Y") == Some(Plain) && Lookup("Z") == Some(Plain)
    ensures Lookup("H") == Some(Plain) && Lookup("SRNOT") == Some(Plain)
  {
    TableEntry(2);
    TableEntry(3);
    TableEntry(4);
    TableEntry(5);
    TableEntry(6);
  }

  /** Rx, Ry, Rz and Rp take one angle, then one qubit, and return nothing. */
  lemma AngleSignatures()
    ensures Lookup("Rx") == Some(Angled) && Lookup("Ry") == Some(Angled)
    ensures Lookup("Rz") == Some(Angled) && Lookup("Rp") == Some(Angled)
  {
    TableEntry(7);
    TableEntry(8);
    TableEntry(9);
    TableEntry(10);
  }

  /**
   * The wrapper exposes none of the two-qubit gates: the simulator's SWAP,
   * SRSWAP and CNOT cannot be reached by name.
   */
  lemma NoTwoQubitGate(name: string)
    ensures name in {"SWAP", "SRSWAP", "CNOT"} ==> Lookup(name).None?
  {
    if name in {"SWAP", "SRSWAP", "CNOT"} {
      assert forall i :: 0 <= i < |Table| ==> Table[i].name != name;
    }
  }

  /**
   * The simulator gate behind a non-measuring wrapper method: each forwards to
   * the `qlay` function of the same name, passing its angle through.
   */
  function Forward(name: string, angle: real): (g: Option<Gates.GateName>)
    ensures g.Some? ==> !g.value.IsTwoQubit()
  {
    match name
    case "X" => Some(Gates.X)
    case "Y" => Some(Gates.Y)
    case "Z" => Some(Gates.Z)
    case "H" => Some(Gates.H)
    case "SRNOT" => Some(Gates.SRNOT)
    case "Rx" => Some(Gates.Rx(angle))
    case "Ry" => Some(Gates.Ry(angle))
    case "Rz" => Some(Gates.Rz(angle))
    case "Rp" => Some(Gates.Rp(angle))
    case _ => None
  }

  /** A registered method either measures or forwards to a one-qubit gate of the simulator. */
  lemma RegisteredForwards(name: string, angle: real)
    requires Lookup(name).Some?
    ensures Lookup(name).value.returnsBool <==> Forward(name, angle).None?
    ensures Forward(name, angle).Some? ==> (Lookup(name).value.angles == 1 <==> Forward(name, angle).value.HasAngle())
  {
    var i :| 0 <= i < |Table| && Table[i].name == name;
    TableEntry(i);
    EntryForwards(i, angle);
  }

  /** Entry i measures exactly when it has no simulator gate, and its angle count matches the gate's. */
  lemma EntryForwards(i: nat, angle: real)
    requires i < |Table|
    ensures Table[i].sig.returnsBool <==> Forward(Table[i].name, angle).None?
    ensures Forward(Table[i].name, angle).Some? ==>
      (Table[i].sig.angles == 1 <==> Forward(Table[i].name, angle).value.HasAngle())
  {
  }

  // ---------------------------------------------------------------------------
  // The managed Qubit (QlayCLI/Qlay.cpp:42-69, QlayCLI/Qubit.cpp)
  // ---------------------------------------------------------------------------

  /** A native `qlay::Qubit` allocated with `new`; `initial` is the basis state it starts in. */
  class NativeQubit {
    const initial: bool

    constructor (initial: bool)
      ensures this.initial == initial
    {
      this.initial := initial;
    }
  }

  /** The native heap as far as the wrapper uses it: which qubits are live, and every `delete` in order. */
  class NativeHeap {
    var live: set<NativeQubit>
    var deleted: seq<NativeQubit>

    constructor ()
      ensures live == {} && deleted == []
    {
      live := {};
      deleted := [];
    }

    /** `new qlay::Qubit(b)`. */
    method Allocate(b: bool) returns (p: NativeQubit)
      modifies this
      ensures fresh(p) && p.initial == b
      ensures live == old(live) + {p} && deleted == old(deleted)
    {
      p := new NativeQubit(b);
      live := live + {p};
    }

    /** `delete p`: only a live qubit may be deleted, so this precondition rules out a double free. */
    method Delete(p: NativeQubit)
      requires p in live
      modifies this
      ensures live == old(live) - {p} && deleted == old(deleted) + [p]
    {
      live := live - {p};
      deleted := deleted + [p];
    }
  }

  /** `ref class Qubit`: `impl` is `impl_`, null once released. */
  class Qubit {
    const heap: NativeHeap
    var impl: NativeQubit?

    /** A non-null `impl` is still live on the heap. */
    ghost predicate Valid()
      reads this, heap
    {
      impl != null ==> impl in heap.live
    }

    /** `Qubit()`: a fresh native qubit in |0>. */
    constructor (heap: NativeHeap)
      modifies heap
      ensures this.heap == heap && Valid()
      ensures impl != null && fresh(impl) && !impl.initial
      ensures heap.live == old(heap.live) + {impl} && heap.deleted == old(heap.deleted)
    {
      this.heap := heap;
      var p := heap.Allocate(false);
      impl := p;
    }

    /** `Qubit(bool b)`: a fresh native qubit in the basis state b. */
    constructor InBasis(heap: NativeHeap, b: bool)
      modifies heap
      ensures this.heap == heap && Valid()
      ensures impl != null && fresh(impl) && impl.initial == b
      ensures heap.live == old(heap.live) + {impl} && heap.deleted == old(heap.deleted)
    {
      this.heap := heap;
      var p := heap.Allocate(b);
      impl := p;
    }

    /** The finaliser `!Qubit()`: delete `impl_` only if it is non-null, then null it. */
    method Finalize()
      requires Valid()
      modifies this, heap
      ensures Valid() && impl == null
      ensures old(impl) != null ==>
        heap.live == old(heap.live) - {old(impl)} && heap.deleted == old(heap.deleted) + [old(impl)]
      ensures old(impl) == null ==> heap.live == old(heap.live) && heap.deleted == old(heap.deleted)
    {
      if impl != null {
        heap.Delete(impl);
        impl := null;
      }
    }

    /** The destructor `~Qubit()`, which `Dispose` and `using` call: it delegates to the finaliser. */
    method Dispose()
      requires Valid()
      modifies this, heap
      ensures Valid() && impl == null
      ensures old(impl) != null ==>
        heap.live == old(heap.live) - {old(impl)} && heap.deleted == old(heap.deleted) + [old(impl)]
      ensures old(impl) == null ==> heap.live == old(heap.live) && heap.deleted == old(heap.deleted)
    {
      Finalize();
    }
  }

  /**
   * Disposing a qubit and then letting the garbage collector finalise it
   * deletes the native qubit exactly once.
   */
  method DisposeThenFinalize(q: Qubit)
    requires q.Valid() && q.impl != null
    modifies q, q.heap
    ensures q.impl == null
    ensures q.heap.deleted == old(q.heap.deleted) + [old(q.impl)]
    ensures q.heap.live == old(q.heap.live) - {old(q.impl)}
  {
    q.Dispose();
    q.Finalize();
  }
}
