/**
 * The data model behind QlayVisual's main window (QlayVisual/DataModel.cs):
 * the file path with the file name and window title derived from it, `New`,
 * and `RunSimulation`, which turns the circuit items on the canvas into calls
 * on the managed `Gates` table, 1000 times, and tallies the final measurement.
 */
module DataModel {
  import opened Wrappers
  import opened Canvas
  import Cli

  // ---------------------------------------------------------------------------
  // FileName and WindowTitle
  // ---------------------------------------------------------------------------

  /** The directory, alternative directory and volume separators of `System.IO.Path` on Windows. */
  predicate IsSeparator(c: char) {
    c == '\\' || c == '/' || c == ':'
  }

  /** `Path.GetFileName` on a non-null path: what follows its last separator (all of it when there is none). */
  function AfterLastSeparator(p: string): (r: string)
    ensures |r| <= |p| && r == p[|p| - |r|..]
    ensures forall i :: 0 <= i < |r| ==> !IsSeparator(r[i])
    ensures |r| < |p| ==> IsSeparator(p[|p| - |r| - 1])
  {
    if p == [] then []
    else if IsSeparator(p[|p| - 1]) then []
    else
      var r := AfterLastSeparator(p[..|p| - 1]);
      assert p[|p| - |r| - 1..] == p[..|p| - 1][|p| - 1 - |r|..] + [p[|p| - 1]];
      r + [p[|p| - 1]]
  }

  /** `FileName`: null for a null path, else the part after the last separator. */
  function FileName(path: Option<string>): (r: Option<string>)
    ensures r.None? <==> path.None?
    ensures r.Some? ==> forall i :: 0 <= i < |r.value| ==> !IsSeparator(r.value[i])
    ensures r.Some? ==> |r.value| <= |path.value| && r.value == path.value[|path.value| - |r.value|..]
  {
    match path
    case None => None
    case Some(p) => Some(AfterLastSeparator(p))
  }

  const Suffix := " - Qlay Visual"

  /** `WindowTitle`: `(FileName ?? "Untitled") + " - Qlay Visual"`. */
  function WindowTitle(path: Option<string>): (t: string)
    ensures path.None? ==> t == "Untitled - Qlay Visual"
    ensures |t| >= |Suffix| && t[|t| - |Suffix|..] == Suffix
  {
    (match FileName(path) case None => "Untitled" case Some(n) => n) + Suffix
  }

  /** A path with no separator is its own file name. */
  lemma {:induction false} PlainNameIsFileName(p: string)
    requires forall i :: 0 <= i < |p| ==> !IsSeparator(p[i])
    ensures FileName(Some(p)) == Some(p)
    ensures WindowTitle(Some(p)) == p + " - Qlay Visual"
  {
    if p != [] {
      PlainNameIsFileName(p[..|p| - 1]);
    }
  }

  /** The name after the last separator is kept whatever directory precedes it. */
  lemma {:induction false} DirectoryIsDropped(dir: string, sep: char, name: string)
    requires IsSeparator(sep)
    requires forall i :: 0 <= i < |name| ==> !IsSeparator(name[i])
    ensures FileName(Some(dir + [sep] + name)) == Some(name)
  {
    if name == [] {
      assert (dir + [sep] + name)[|dir + [sep] + name| - 1] == sep;
    } else {
      var p := dir + [sep] + name;
      assert p[..|p| - 1] == dir + [sep] + name[..|name| - 1];
      DirectoryIsDropped(dir, sep, name[..|name| - 1]);
      assert name[..|name| - 1] + [name[|name| - 1]] == name;
    }
  }

  /**
   * A path ending in a separator has an empty, not a null, file name, so the
   * title has no name in front of the suffix rather than "Untitled".
   */
  lemma TrailingSeparatorTitle(dir: string)
    ensures WindowTitle(Some(dir + "\\")) == " - Qlay Visual"
  {
    assert (dir + "\\")[|dir + "\\"| - 1] == '\\';
  }

  // ---------------------------------------------------------------------------
  // Ordering the circuit items (`OfType<CircuitItem>().OrderBy(Canvas.GetLeft)`)
  // ---------------------------------------------------------------------------

  /** The circuit items among the children, in child order. */
  function ItemsOf(cs: seq<Element>): (r: seq<Element>)
    ensures |r| <= |cs|
    ensures forall i :: 0 <= i < |r| ==> r[i].kind.Item? && r[i] in cs
  {
    if cs == [] then []
    else if cs[0].kind.Item? then [cs[0]] + ItemsOf(cs[1..])
    else ItemsOf(cs[1..])
  }

  /** The items of a concatenation are the items of each part, in order; one child contributes itself exactly when it is an item. */
  lemma {:induction false} ItemsOfAppend(a: seq<Element>, b: seq<Element>)
    ensures ItemsOf(a + b) == ItemsOf(a) + ItemsOf(b)
    ensures |a| == 1 ==> ItemsOf(a) == if a[0].kind.Item? then a else []
  {
    if a == [] {
      assert a + b == b;
    } else {
      assert (a + b)[1..] == a[1..] + b;
      ItemsOfAppend(a[1..], b);
      if |a| == 1 {
        assert a[1..] == [];
      }
    }
  }

  /** Children that are all items are kept whole and in order; children with no item give none. */
  lemma {:induction false} ItemsOfAllOrNone(cs: seq<Element>)
    ensures AllItems(cs) ==> ItemsOf(cs) == cs
    ensures (forall i :: 0 <= i < |cs| ==> !cs[i].kind.Item?) ==> ItemsOf(cs) == []
  {
    if cs != [] {
      ItemsOfAllOrNone(cs[1..]);
      assert forall i :: 1 <= i < |cs| ==> cs[1..][i - 1] == cs[i];
    }
  }

  /** `Double.CompareTo(a, b) < 0`: NaN is below every number and equal to itself. */
  predicate KeyBelow(a: Coord, b: Coord) {
    (a.NaN? && b.Num?) || (a.Num? && b.Num? && a.v < b.v)
  }

  /** Item i goes before item j: a smaller Left, or the same Left and an earlier child (OrderBy is stable). */
  predicate Before(items: seq<Element>, i: nat, j: nat)
    requires i < |items| && j < |items|
  {
    KeyBelow(items[i].left, items[j].left) || (items[i].left == items[j].left && i < j)
  }

  lemma BeforeTotal(items: seq<Element>, i: nat, j: nat)
    requires i < |items| && j < |items| && i != j
    ensures Before(items, i, j) != Before(items, j, i)
  {
  }

  lemma BeforeTransitive(items: seq<Element>, i: nat, j: nat, k: nat)
    requires i < |items| && j < |items| && k < |items|
    requires Before(items, i, j) && Before(items, j, k)
    ensures Before(items, i, k)
  {
  }

  predicate InRange(items: seq<Element>, s: seq<nat>) {
    forall a :: 0 <= a < |s| ==> s[a] < |items|
  }

  predicate Ordered(items: seq<Element>, s: seq<nat>)
    requires InRange(items, s)
  {
    forall a, b :: 0 <= a < b < |s| ==> Before(items, s[a], s[b])
  }

  /** Insert index x into an ordered list of indices. */
  function Insert(items: seq<Element>, x: nat, s: seq<nat>): (r: seq<nat>)
    requires x < |items| && InRange(items, s)
    ensures |r| == |s| + 1 && multiset(r) == multiset(s) + multiset{x}
    ensures InRange(items, r)
  {
    if s == [] then [x]
    else if Before(items, x, s[0]) then [x] + s
    else
      assert s == [s[0]] + s[1..];
      [s[0]] + Insert(items, x, s[1..])
  }

  lemma {:induction false} InsertOrdered(items: seq<Element>, x: nat, s: seq<nat>)
    requires x < |items| && InRange(items, s) && Ordered(items, s) && x !in s
    ensures Ordered(items, Insert(items, x, s))
  {
    if s == [] {
    } else if Before(items, x, s[0]) {
      forall b | 0 < b < |s|
        ensures Before(items, x, s[b])
      {
        BeforeTransitive(items, x, s[0], s[b]);
      }
    } else {
      BeforeTotal(items, x, s[0]);
      assert s == [s[0]] + s[1..];
      InsertOrdered(items, x, s[1..]);
      var r := Insert(items, x, s[1..]);
      forall b | 0 <= b < |r|
        ensures Before(items, s[0], r[b])
      {
        assert r[b] in multiset(r);
        if r[b] != x {
          assert r[b] in multiset(s[1..]);
          var c :| 0 <= c < |s[1..]| && s[1..][c] == r[b];
          assert s[c + 1] == r[b];
        }
      }
    }
  }

  function Indices(n: nat): (r: seq<nat>)
    ensures |r| == n && forall i :: 0 <= i < n ==> r[i] == i
  {
    if n == 0 then [] else Indices(n - 1) + [n - 1]
  }

  /** The insertion order of the first n items: each new index is placed after everything not after it. */
  function Order(items: seq<Element>, n: nat): (r: seq<nat>)
    requires n <= |items|
    ensures |r| == n && InRange(items, r)
    ensures multiset(r) == multiset(Indices(n))
  {
    if n == 0 then []
    else
      assert Indices(n) == Indices(n - 1) + [n - 1];
      Insert(items, n - 1, Order(items, n - 1))
  }

  lemma {:induction false} OrderOrdered(items: seq<Element>, n: nat)
    requires n <= |items|
    ensures Ordered(items, Order(items, n))
  {
    if n > 0 {
      OrderOrdered(items, n - 1);
      assert n - 1 !in multiset(Indices(n - 1));
      InsertOrdered(items, n - 1, Order(items, n - 1));
    }
  }

  /** `OrderBy(n => Canvas.GetLeft(n))` on the items: the items picked in the order of their indices in Order. */
  function OrderByLeft(items: seq<Element>): (r: seq<Element>)
    ensures |r| == |items|
    ensures forall a :: 0 <= a < |r| ==> r[a] == items[Order(items, |items|)[a]]
  {
    var o := Order(items, |items|);
    seq(|o|, a requires 0 <= a < |o| => items[o[a]])
  }

  /**
   * OrderBy picks every item exactly once (its index order is a permutation
   * of the item indices), in non-decreasing Left with NaN first, and keeps
   * items of equal Left in their child order.
   */
  lemma OrderByLeftSorted(items: seq<Element>)
    ensures multiset(Order(items, |items|)) == multiset(Indices(|items|))
    ensures forall a, b :: 0 <= a < b < |items| ==>
      !KeyBelow(OrderByLeft(items)[b].left, OrderByLeft(items)[a].left)
    ensures forall a, b :: 0 <= a < b < |items| && OrderByLeft(items)[a].left == OrderByLeft(items)[b].left ==>
      Order(items, |items|)[a] < Order(items, |items|)[b]
  {
    forall a, b | 0 <= a < b < |items|
      ensures !KeyBelow(OrderByLeft(items)[b].left, OrderByLeft(items)[a].left)
      ensures OrderByLeft(items)[a].left == OrderByLeft(items)[b].left ==>
        Order(items, |items|)[a] < Order(items, |items|)[b]
    {
      OrderedPair(items, a, b);
    }
  }

  lemma OrderedPair(items: seq<Element>, a: nat, b: nat)
    requires a < b < |items|
    ensures !KeyBelow(OrderByLeft(items)[b].left, OrderByLeft(items)[a].left)
    ensures OrderByLeft(items)[a].left == OrderByLeft(items)[b].left ==>
      Order(items, |items|)[a] < Order(items, |items|)[b]
  {
    var o := Order(items, |items|);
    var r := OrderByLeft(items);
    OrderOrdered(items, |items|);
    assert Before(items, o[a], o[b]);
    assert r[a] == items[o[a]] && r[b] == items[o[b]];
    KeyBelowAsymmetric(r[a].left, r[b].left);
  }

  lemma KeyBelowAsymmetric(x: Coord, y: Coord)
    ensures KeyBelow(x, y) ==> !KeyBelow(y, x) && x != y
  {
  }

  // ---------------------------------------------------------------------------
  // Building one call (the `args` list, then `GetMethod(tag).Invoke`)
  // ---------------------------------------------------------------------------

  /** One argument passed to a `Gates` method: an angle already in radians, or the trial's qubit. */
  datatype Arg = Angle(radians: real) | QubitOf(trial: nat)

  /** One invocation of a `Gates` method. */
  datatype Call = Call(gate: string, args: seq<Arg>)

  /** Why a run stops with an exception. */
  datatype SimError =
    | NoCanvas                              // the content is not a CircuitCanvas
    | BadNumber(text: string)               // double.Parse rejected a TextBox
    | UnknownGate(name: string)             // GetMethod found no method of that name
    | ArgumentCount(name: string, given: nat) // Invoke with the wrong number of arguments

  /** The texts of the TextBoxes among an item's parts, in child order. */
  function Texts(parts: seq<Part>): (r: seq<string>)
    ensures |r| <= |parts|
  {
    if parts == [] then []
    else if parts[0].TextBox? then [parts[0].text] + Texts(parts[1..])
    else Texts(parts[1..])
  }

  lemma {:induction false} TextsAppend(a: seq<Part>, b: seq<Part>)
    ensures Texts(a + b) == Texts(a) + Texts(b)
  {
    if a == [] {
      assert a + b == b;
    } else {
      assert (a + b)[1..] == a[1..] + b;
      TextsAppend(a[1..], b);
    }
  }

  predicate AllParse(texts: seq<string>, parse: string -> Option<real>) {
    forall i :: 0 <= i < |texts| ==> parse(texts[i]).Some?
  }

  /** Text i is the first that does not parse. */
  predicate FirstBad(texts: seq<string>, parse: string -> Option<real>, i: int) {
    0 <= i < |texts| && parse(texts[i]).None? && forall j :: 0 <= j < i ==> parse(texts[j]).Some?
  }

  /** `Core.deg_to_rad(double.Parse(text))` for each text. */
  function Radians(texts: seq<string>, parse: string -> Option<real>, toRad: real -> real): (r: seq<Arg>)
    requires AllParse(texts, parse)
    ensures |r| == |texts| && forall i :: 0 <= i < |r| ==> r[i] == Angle(toRad(parse(texts[i]).value))
  {
    seq(|texts|, i requires 0 <= i < |texts| => Angle(toRad(parse(texts[i]).value)))
  }

  /** Part k adds its own text, if any, to the texts of the parts before it, and the rest follow. */
  lemma {:induction false} TextsStep(parts: seq<Part>, k: nat)
    requires k < |parts|
    ensures Texts(parts[..k + 1]) == Texts(parts[..k]) + if parts[k].TextBox? then [parts[k].text] else []
    ensures Texts(parts) == Texts(parts[..k + 1]) + Texts(parts[k + 1..])
  {
    assert parts[..k + 1] == parts[..k] + [parts[k]];
    TextsAppend(parts[..k], [parts[k]]);
    assert [parts[k]][1..] == [];
    assert Texts([parts[k]]) == if parts[k].TextBox? then [parts[k].text] else [];
    assert parts == parts[..k + 1] + parts[k + 1..];
    TextsAppend(parts[..k + 1], parts[k + 1..]);
  }

  /** One more parsed text adds its angle at the end. */
  lemma RadiansSnoc(texts: seq<string>, t: string, parse: string -> Option<real>, toRad: real -> real)
    requires AllParse(texts, parse) && parse(t).Some?
    ensures AllParse(texts + [t], parse)
    ensures Radians(texts + [t], parse, toRad) == Radians(texts, parse, toRad) + [Angle(toRad(parse(t).value))]
  {
    assert forall i :: 0 <= i < |texts| ==> (texts + [t])[i] == texts[i];
  }

  /** What the argument list of one item must be: every angle in child order, then the qubit; or the first bad text. */
  ghost predicate ArgsSpec(texts: seq<string>, parse: string -> Option<real>, toRad: real -> real, trial: nat,
                     r: Result<seq<Arg>, SimError>)
  {
    (r.Ok? <==> AllParse(texts, parse)) &&
    (r.Ok? ==> AllParse(texts, parse) && r.value == Radians(texts, parse, toRad) + [QubitOf(trial)]) &&
    (r.Err? ==> exists i :: FirstBad(texts, parse, i) && r.error == BadNumber(texts[i]))
  }

  function FirstBadIndex(texts: seq<string>, parse: string -> Option<real>): (i: nat)
    requires !AllParse(texts, parse)
    ensures FirstBad(texts, parse, i)
  {
    if parse(texts[0]).None? then 0
    else
      var i := FirstBadIndex(texts[1..], parse);
      assert forall j :: 1 <= j <= i ==> texts[1..][j - 1] == texts[j];
      i + 1
  }

  /** The argument list of one item, or the parse error that aborts it. */
  function ArgsOf(texts: seq<string>, parse: string -> Option<real>, toRad: real -> real, trial: nat):
    (r: Result<seq<Arg>, SimError>)
    ensures ArgsSpec(texts, parse, toRad, trial, r)
  {
    if AllParse(texts, parse) then Ok(Radians(texts, parse, toRad) + [QubitOf(trial)])
    else Err(BadNumber(texts[FirstBadIndex(texts, parse)]))
  }

  /** ArgsSpec leaves one possible result. */
  lemma ArgsDetermined(texts: seq<string>, parse: string -> Option<real>, toRad: real -> real, trial: nat,
                       r: Result<seq<Arg>, SimError>)
    requires ArgsSpec(texts, parse, toRad, trial, r)
    ensures r == ArgsOf(texts, parse, toRad, trial)
  {
    if r.Err? {
      var i :| FirstBad(texts, parse, i) && r.error == BadNumber(texts[i]);
      var j := FirstBadIndex(texts, parse);
      assert !(i < j) && !(j < i);
    }
  }

  /**
   * The inner `foreach (UIElement uie in …Children)` of one item: each TextBox
   * in child order adds `deg_to_rad(double.Parse(text))`, then the qubit is
   * added last.
   */
  method BuildArgs(parts: seq<Part>, parse: string -> Option<real>, toRad: real -> real, trial: nat)
    returns (r: Result<seq<Arg>, SimError>)
    ensures ArgsSpec(Texts(parts), parse, toRad, trial, r)
  {
    var args: seq<Arg> := [];
    var k := 0;
    while k < |parts|
      invariant 0 <= k <= |parts|
      invariant AllParse(Texts(parts[..k]), parse)
      invariant args == Radians(Texts(parts[..k]), parse, toRad)
    {
      TextsStep(parts, k);
      if parts[k].TextBox? {
        var v := parse(parts[k].text);
        if v.None? {
          assert FirstBad(Texts(parts), parse, |Texts(parts[..k])|);
          return Err(BadNumber(parts[k].text));
        }
        RadiansSnoc(Texts(parts[..k]), parts[k].text, parse, toRad);
        args := args + [Angle(toRad(v.value))];
      }
      k := k + 1;
    }
    assert parts[..k] == parts;
    r := Ok(args + [QubitOf(trial)]);
  }

  /** The call one circuit item makes in a trial, or the exception it raises. */
  function ItemCall(e: Element, parse: string -> Option<real>, toRad: real -> real, trial: nat):
    (r: Result<Call, SimError>)
    requires e.kind.Item?
    ensures r.Ok? ==> r.value.gate == e.kind.tag && Cli.Lookup(e.kind.tag).Some?
    ensures r.Ok? ==> |r.value.args| == Cli.Lookup(e.kind.tag).value.angles + 1
    ensures r.Ok? ==> AllParse(Texts(e.kind.parts), parse) && r.value.args == Radians(Texts(e.kind.parts), parse, toRad) + [QubitOf(trial)]
    ensures r.Ok? <==>
      (AllParse(Texts(e.kind.parts), parse) && Cli.Lookup(e.kind.tag).Some? &&
       Cli.Lookup(e.kind.tag).value.angles == |Texts(e.kind.parts)|)
    ensures !AllParse(Texts(e.kind.parts), parse) ==>
      r == Err(BadNumber(Texts(e.kind.parts)[FirstBadIndex(Texts(e.kind.parts), parse)]))
    ensures AllParse(Texts(e.kind.parts), parse) && Cli.Lookup(e.kind.tag).None? ==> r == Err(UnknownGate(e.kind.tag))
    ensures (AllParse(Texts(e.kind.parts), parse) && Cli.Lookup(e.kind.tag).Some? &&
             Cli.Lookup(e.kind.tag).value.angles != |Texts(e.kind.parts)|) ==>
      r == Err(ArgumentCount(e.kind.tag, |Texts(e.kind.parts)| + 1))
  {
    match ArgsOf(Texts(e.kind.parts), parse, toRad, trial)
    case Err(err) => Err(err)
    case Ok(args) =>
      match Cli.Lookup(e.kind.tag)
      case None => Err(UnknownGate(e.kind.tag))
      case Some(sig) =>
        if sig.angles + sig.qubits != |args| then Err(ArgumentCount(e.kind.tag, |args|))
        else Ok(Call(e.kind.tag, args))
  }

  /** Whether an item's call succeeds does not depend on the trial; only the qubit argument differs. */
  lemma ItemCallTrialFree(e: Element, parse: string -> Option<real>, toRad: real -> real, t1: nat, t2: nat)
    requires e.kind.Item?
    ensures ItemCall(e, parse, toRad, t1).Ok? == ItemCall(e, parse, toRad, t2).Ok?
    ensures ItemCall(e, parse, toRad, t1).Err? ==> ItemCall(e, parse, toRad, t1) == ItemCall(e, parse, toRad, t2)
  {
  }

  // ---------------------------------------------------------------------------
  // One trial: the calls in order, stopping at the first exception
  // ---------------------------------------------------------------------------

  /** What one trial did: the calls it made, in order, and the exception that ended it early, if any. */
  datatype Outcome = Outcome(calls: seq<Call>, error: Option<SimError>)

  predicate AllItems(items: seq<Element>) {
    forall i :: 0 <= i < |items| ==> items[i].kind.Item?
  }

  /** The result each item's call would have in this trial, item by item. */
  function Results(items: seq<Element>, parse: string -> Option<real>, toRad: real -> real, trial: nat):
    (rs: seq<Result<Call, SimError>>)
    requires AllItems(items)
    ensures |rs| == |items| && forall i :: 0 <= i < |items| ==> rs[i] == ItemCall(items[i], parse, toRad, trial)
  {
    seq(|items|, i requires 0 <= i < |items| => ItemCall(items[i], parse, toRad, trial))
  }

  /** o is what running the results in order gives: the calls of a prefix, then the first error if any. */
  ghost predicate Follows(rs: seq<Result<Call, SimError>>, o: Outcome) {
    |o.calls| <= |rs| &&
    (o.error.None? ==> |o.calls| == |rs|) &&
    (forall i :: 0 <= i < |o.calls| ==> rs[i] == Ok(o.calls[i])) &&
    (o.error.Some? ==> |o.calls| < |rs| && rs[|o.calls|] == Err(o.error.value))
  }

  /** Run the results in order, stopping at the first error. */
  function UntilError(rs: seq<Result<Call, SimError>>): (o: Outcome)
    ensures Follows(rs, o)
  {
    if rs == [] then Outcome([], None)
    else
      match rs[0]
      case Err(err) => Outcome([], Some(err))
      case Ok(c) =>
        var rest := UntilError(rs[1..]);
        assert forall i :: 1 <= i < |rs| ==> rs[1..][i - 1] == rs[i];
        Outcome([c] + rest.calls, rest.error)
  }

  /** Follows leaves one possible outcome. */
  lemma {:induction false} FollowsDetermined(rs: seq<Result<Call, SimError>>, o: Outcome)
    requires Follows(rs, o)
    ensures o == UntilError(rs)
  {
    if rs != [] && rs[0].Ok? {
      assert |o.calls| > 0;
      var o' := Outcome(o.calls[1..], o.error);
      assert forall i :: 1 <= i < |rs| ==> rs[1..][i - 1] == rs[i];
      FollowsDetermined(rs[1..], o');
      assert o.calls == [o.calls[0]] + o'.calls;
    }
  }

  /** Two runs whose steps fail at the same places, with the same errors, stop at the same place. */
  lemma {:induction false} SameFailures(rs1: seq<Result<Call, SimError>>, rs2: seq<Result<Call, SimError>>)
    requires |rs1| == |rs2|
    requires forall i :: 0 <= i < |rs1| ==> rs1[i].Ok? == rs2[i].Ok? && (rs1[i].Err? ==> rs1[i] == rs2[i])
    ensures UntilError(rs1).error == UntilError(rs2).error
    ensures |UntilError(rs1).calls| == |UntilError(rs2).calls|
  {
    if rs1 != [] && rs1[0].Ok? {
      SameFailures(rs1[1..], rs2[1..]);
    }
  }

  /** One trial: the items' calls in order, up to the first that throws. */
  function Plan(items: seq<Element>, parse: string -> Option<real>, toRad: real -> real, trial: nat): (o: Outcome)
    requires AllItems(items)
    ensures |o.calls| <= |items| && (o.error.None? ==> |o.calls| == |items|)
    ensures forall i :: 0 <= i < |o.calls| ==> ItemCall(items[i], parse, toRad, trial) == Ok(o.calls[i])
    ensures o.error.Some? ==> |o.calls| < |items| && ItemCall(items[|o.calls|], parse, toRad, trial) == Err(o.error.value)
  {
    UntilError(Results(items, parse, toRad, trial))
  }

  /** Plan's contract leaves one outcome: the calls of the items up to the first that fails, and its error. */
  lemma PlanDetermined(items: seq<Element>, parse: string -> Option<real>, toRad: real -> real, trial: nat, o: Outcome)
    requires AllItems(items)
    requires |o.calls| <= |items| && (o.error.None? ==> |o.calls| == |items|)
    requires forall i :: 0 <= i < |o.calls| ==> ItemCall(items[i], parse, toRad, trial) == Ok(o.calls[i])
    requires o.error.Some? ==> |o.calls| < |items| && ItemCall(items[|o.calls|], parse, toRad, trial) == Err(o.error.value)
    ensures o == Plan(items, parse, toRad, trial)
  {
    FollowsDetermined(Results(items, parse, toRad, trial), o);
  }

  /** Whether a trial throws, what, and after how many calls, is the same in every trial. */
  lemma PlanTrialFree(items: seq<Element>, parse: string -> Option<real>, toRad: real -> real, t1: nat, t2: nat)
    requires AllItems(items)
    ensures Plan(items, parse, toRad, t1).error == Plan(items, parse, toRad, t2).error
    ensures |Plan(items, parse, toRad, t1).calls| == |Plan(items, parse, toRad, t2).calls|
  {
    var rs1 := Results(items, parse, toRad, t1);
    var rs2 := Results(items, parse, toRad, t2);
    forall i | 0 <= i < |items|
      ensures rs1[i].Ok? == rs2[i].Ok? && (rs1[i].Err? ==> rs1[i] == rs2[i])
    {
      ItemCallTrialFree(items[i], parse, toRad, t1, t2);
    }
    SameFailures(rs1, rs2);
  }

  /** The body of the item loop for one item: build its arguments, find its method, invoke it. */
  method CallItem(e: Element, parse: string -> Option<real>, toRad: real -> real, trial: nat)
    returns (r: Result<Call, SimError>)
    requires e.kind.Item?
    ensures r == ItemCall(e, parse, toRad, trial)
  {
    var args := BuildArgs(e.kind.parts, parse, toRad, trial);
    ArgsDetermined(Texts(e.kind.parts), parse, toRad, trial, args);
    if args.Err? {
      return Err(args.error);
    }
    var name := e.kind.tag;
    var sig := Cli.Lookup(name);
    if sig.None? {
      return Err(UnknownGate(name));
    }
    if sig.value.angles + sig.value.qubits != |args.value| {
      return Err(ArgumentCount(name, |args.value|));
    }
    r := Ok(Call(name, args.value));
  }

  /** The item loop of one trial. */
  method ApplyGates(items: seq<Element>, parse: string -> Option<real>, toRad: real -> real, trial: nat)
    returns (o: Outcome)
    requires AllItems(items)
    ensures o == Plan(items, parse, toRad, trial)
  {
    o := CallItems(items, parse, toRad, trial);
    PlanDetermined(items, parse, toRad, trial, o);
  }

  /** The loop itself: the calls of the items in order, stopping at the first that fails. */
  method CallItems(items: seq<Element>, parse: string -> Option<real>, toRad: real -> real, trial: nat)
    returns (o: Outcome)
    requires AllItems(items)
    ensures |o.calls| <= |items| && (o.error.None? ==> |o.calls| == |items|)
    ensures forall i :: 0 <= i < |o.calls| ==> ItemCall(items[i], parse, toRad, trial) == Ok(o.calls[i])
    ensures o.error.Some? ==> |o.calls| < |items| && ItemCall(items[|o.calls|], parse, toRad, trial) == Err(o.error.value)
  {
    var calls: seq<Call> := [];
    var k := 0;
    while k < |items|
      invariant 0 <= k <= |items| && |calls| == k
      invariant forall i :: 0 <= i < k ==> ItemCall(items[i], parse, toRad, trial) == Ok(calls[i])
    {
      var r := CallItem(items[k], parse, toRad, trial);
      if r.Err? {
        return Outcome(calls, Some(r.error));
      }
      calls := calls + [r.value];
      k := k + 1;
    }
    o := Outcome(calls, None);
  }

  // ---------------------------------------------------------------------------
  // The whole run
  // ---------------------------------------------------------------------------

  /** `int repeats = 1000`. */
  const Repeats: nat := 1000

  /** The tally the run reports. */
  datatype Tally = Tally(zeroes: nat, ones: nat)

  /** Trials among the first n whose final measurement gives 1. */
  function CountOnes(measure: nat -> bool, n: nat): (c: nat)
    ensures c <= n
  {
    if n == 0 then 0 else CountOnes(measure, n - 1) + if measure(n - 1) then 1 else 0
  }

  /** The calls of trials 0 to n - 1, one trial after another. */
  function Concat(trial: nat -> seq<Call>, n: nat): seq<Call> {
    if n == 0 then [] else Concat(trial, n - 1) + trial(n - 1)
  }

  /** When every trial makes k calls, n trials make n * k. */
  lemma {:induction false} ConcatLength(trial: nat -> seq<Call>, n: nat, k: nat)
    requires forall t: nat :: t < n ==> |trial(t)| == k
    ensures |Concat(trial, n)| == n * k
  {
    if n > 0 {
      ConcatLength(trial, n - 1, k);
      assert (n - 1) * k + k == n * k;
    }
  }

  /** The calls of the first n trials when none throws, trial after trial. */
  function Schedule(items: seq<Element>, parse: string -> Option<real>, toRad: real -> real, n: nat): seq<Call>
    requires AllItems(items)
  {
    Concat((t: nat) => Plan(items, parse, toRad, t).calls, n)
  }

  /** A trial that throws is the first one, with the first trial's error and calls. */
  lemma TrialThrows(items: seq<Element>, parse: string -> Option<real>, toRad: real -> real, i: nat, o: Outcome)
    requires AllItems(items) && o == Plan(items, parse, toRad, i) && o.error.Some?
    requires i > 0 ==> Plan(items, parse, toRad, 0).error.None?
    ensures i == 0 && Schedule(items, parse, toRad, i) + o.calls == Plan(items, parse, toRad, 0).calls
    ensures o.error == Plan(items, parse, toRad, 0).error
  {
    PlanTrialFree(items, parse, toRad, 0, i);
    assert Schedule(items, parse, toRad, i) == [];
  }

  /** A trial that does not throw appends its calls to the schedule, and so did the first. */
  lemma TrialExtends(items: seq<Element>, parse: string -> Option<real>, toRad: real -> real, i: nat, o: Outcome)
    requires AllItems(items) && o == Plan(items, parse, toRad, i) && o.error.None?
    ensures Schedule(items, parse, toRad, i) + o.calls == Schedule(items, parse, toRad, i + 1)
    ensures Plan(items, parse, toRad, 0).error.None?
  {
    PlanTrialFree(items, parse, toRad, 0, i);
  }

  /**
   * What a run of n trials over `items` gives: a tally of every trial's
   * measurement after the calls of all trials, or, when the first trial
   * throws, that trial's error after the calls it made.
   */
  ghost predicate RunOutcome(items: seq<Element>, parse: string -> Option<real>, toRad: real -> real, measure: nat -> bool,
    n: nat, r: Result<Tally, SimError>, calls: seq<Call>)
    requires AllItems(items)
  {
    (r.Ok? <==> Plan(items, parse, toRad, 0).error.None?) &&
    (r.Ok? ==>
      r.value.zeroes + r.value.ones == n && r.value.ones == CountOnes(measure, n) &&
      calls == Schedule(items, parse, toRad, n)) &&
    (r.Err? ==>
      r.error == Plan(items, parse, toRad, 0).error.value && calls == Plan(items, parse, toRad, 0).calls)
  }

  /** `after` is `before` followed by k more deleted native qubits, no two of them the same. */
  predicate Released(before: seq<Cli.NativeQubit>, after: seq<Cli.NativeQubit>, k: nat) {
    |after| == |before| + k && before <= after &&
    forall j, l :: |before| <= j < l < |after| ==> after[j] != after[l]
  }

  /** A trial that deletes one qubit not deleted before adds one to the count. */
  lemma ReleasedOneMore(before: seq<Cli.NativeQubit>, mid: seq<Cli.NativeQubit>, after: seq<Cli.NativeQubit>, k: nat)
    requires Released(before, mid, k)
    requires |after| == |mid| + 1 && mid <= after && after[|mid|] !in mid
    ensures Released(before, after, k + 1)
  {
    forall j, l | |before| <= j < l < |after|
      ensures after[j] != after[l]
    {
      if l == |mid| {
        assert after[j] == mid[j];
      } else {
        assert after[j] == mid[j] && after[l] == mid[l];
      }
    }
  }

  /** The items of a canvas in the order RunSimulation applies them. */
  function RunOrder(cs: seq<Element>): (r: seq<Element>)
    ensures AllItems(r)
  {
    var items := ItemsOf(cs);
    var r := OrderByLeft(items);
    assert forall a :: 0 <= a < |r| ==> r[a] == items[Order(items, |items|)[a]];
    r
  }

  class DataModel {
    /** `_filePath`. */
    var filePath: Option<string>
    /** The property names raised through `PropertyChanged`, in order. */
    var notifications: seq<string>
    /** `ContentContainer.Content as CircuitCanvas`: null when the content is something else. */
    var content: CircuitCanvas?
    /** The native heap the trial qubits are allocated on. */
    const heap: Cli.NativeHeap

    /** `DataModel(contentContainer)`. */
    constructor (content: CircuitCanvas?, heap: Cli.NativeHeap)
      ensures this.content == content && this.heap == heap
      ensures filePath == None && notifications == []
    {
      this.content := content;
      this.heap := heap;
      filePath := None;
      notifications := [];
    }

    /** The `FilePath` setter: store the value, then announce FilePath, FileName and WindowTitle, in that order. */
    method SetFilePath(value: Option<string>)
      modifies this
      ensures filePath == value && content == old(content)
      ensures notifications == old(notifications) + ["FilePath", "FileName", "WindowTitle"]
    {
      filePath := value;
      notifications := notifications + ["FilePath"];
      notifications := notifications + ["FileName"];
      notifications := notifications + ["WindowTitle"];
    }

    /** `New()`: an empty canvas and no file, so the window is titled "Untitled - Qlay Visual". */
    method New()
      modifies this
      ensures content != null && fresh(content) && content.children == [] && content.requests == []
      ensures filePath == None && WindowTitle(filePath) == "Untitled - Qlay Visual"
      ensures notifications == old(notifications) + ["FilePath", "FileName", "WindowTitle"]
    {
      content := new CircuitCanvas();
      SetFilePath(None);
    }

    /**
     * `RunSimulation()`: 1000 trials, each on a fresh qubit disposed at its
     * end, applying the items by ascending Left and then measuring once.
     * `measure(i)` is what the final `Gates.M(q)` of trial i returns; `parse`
     * is `double.Parse` (None where it throws) and `toRad` is `Core.deg_to_rad`.
     * `calls` lists every gate invocation made, in order. Every qubit the run
     * allocates is released, whether it finishes or throws.
     */
    method RunSimulation(parse: string -> Option<real>, toRad: real -> real, measure: nat -> bool)
      returns (r: Result<Tally, SimError>, calls: seq<Call>)
      modifies heap
      ensures heap.live == old(heap.live)
      ensures Released(old(heap.deleted), heap.deleted, if content != null && r.Ok? then Repeats else 1)
      ensures content == null ==> r == Err(NoCanvas) && calls == []
      ensures content != null ==> RunOutcome(RunOrder(content.children), parse, toRad, measure, Repeats, r, calls)
    {
      var cc := content;
      if cc == null {
        // Trial 0 enters `using (Qubit q = new Qubit())`, then `cc.Children` throws.
        var q := new Cli.Qubit(heap);
        q.Dispose();
        return Err(NoCanvas), [];
      }
      r, calls := RunTrials(cc, Repeats, parse, toRad, measure);
    }

    /** The `for` loop of RunSimulation over the canvas cc, for n trials: trial after trial, tallying each measurement. */
    method RunTrials(cc: CircuitCanvas, n: nat, parse: string -> Option<real>, toRad: real -> real, measure: nat -> bool)
      returns (r: Result<Tally, SimError>, calls: seq<Call>)
      requires n > 0
      modifies heap
      ensures heap.live == old(heap.live)
      ensures Released(old(heap.deleted), heap.deleted, if r.Ok? then n else 1)
      ensures RunOutcome(RunOrder(cc.children), parse, toRad, measure, n, r, calls)
    {
      // Every trial orders the canvas' items afresh; nothing moves them during a run, so the order is the same.
      var order := RunOrder(cc.children);
      var zeroes, ones := 0, 0;
      calls := [];
      var i := 0;
      while i < n
        invariant 0 <= i <= n && zeroes + ones == i && ones == CountOnes(measure, i)
        invariant heap.live == old(heap.live)
        invariant Released(old(heap.deleted), heap.deleted, i)
        invariant calls == Schedule(order, parse, toRad, i)
        invariant i > 0 ==> Plan(order, parse, toRad, 0).error.None?
      {
        var stop: Option<SimError>;
        ghost var before := heap.deleted;
        calls, zeroes, ones, stop := TrialStep(order, i, parse, toRad, measure, calls, zeroes, ones);
        ReleasedOneMore(old(heap.deleted), before, heap.deleted, i);
        if stop.Some? {
          return Err(stop.value), calls;
        }
        i := i + 1;
      }
      r := Ok(Tally(zeroes, ones));
    }

    /**
     * One pass of the `for` loop: trial i, then its measurement tallied; or the
     * exception that ends the run, which only the first trial can raise.
     */
    method TrialStep(items: seq<Element>, i: nat, parse: string -> Option<real>, toRad: real -> real,
      measure: nat -> bool, calls: seq<Call>, zeroes: nat, ones: nat)
      returns (calls': seq<Call>, zeroes': nat, ones': nat, stop: Option<SimError>)
      requires AllItems(items)
      requires calls == Schedule(items, parse, toRad, i) && (i > 0 ==> Plan(items, parse, toRad, 0).error.None?)
      requires zeroes + ones == i && ones == CountOnes(measure, i)
      modifies heap
      ensures heap.live == old(heap.live)
      ensures |heap.deleted| == |old(heap.deleted)| + 1 && old(heap.deleted) <= heap.deleted
      ensures fresh(heap.deleted[|old(heap.deleted)|])
      ensures stop.Some? ==> Plan(items, parse, toRad, 0).error == stop && calls' == Plan(items, parse, toRad, 0).calls
      ensures stop.None? ==> Plan(items, parse, toRad, 0).error.None? && calls' == Schedule(items, parse, toRad, i + 1)
      ensures stop.None? ==> zeroes' + ones' == i + 1 && ones' == CountOnes(measure, i + 1)
    {
      var o, one := Trial(items, i, parse, toRad, measure);
      if o.error.Some? {
        TrialThrows(items, parse, toRad, i, o);
        return calls + o.calls, zeroes, ones, o.error;
      }
      TrialExtends(items, parse, toRad, i, o);
      calls' := calls + o.calls;
      stop := None;
      if one.value {
        zeroes', ones' := zeroes, ones + 1;
      } else {
        zeroes', ones' := zeroes + 1, ones;
      }
    }

    /**
     * Trial i of RunSimulation: a fresh qubit, the items' calls in order, then
     * `Gates.M(q)` unless a call threw; the qubit is disposed either way.
     */
    method Trial(items: seq<Element>, i: nat, parse: string -> Option<real>, toRad: real -> real, measure: nat -> bool)
      returns (o: Outcome, one: Option<bool>)
      requires AllItems(items)
      modifies heap
      ensures heap.live == old(heap.live)
      ensures |heap.deleted| == |old(heap.deleted)| + 1 && old(heap.deleted) <= heap.deleted
      ensures fresh(heap.deleted[|old(heap.deleted)|])
      ensures o == Plan(items, parse, toRad, i)
      ensures one.Some? <==> o.error.None?
      ensures one.Some? ==> one.value == measure(i)
    {
      var q := new Cli.Qubit(heap);
      o := ApplyGates(items, parse, toRad, i);
      if o.error.None? {
        one := Some(measure(i));  // Gates.M(q)
      } else {
        one := None;
      }
      q.Dispose();
    }
  }
}
