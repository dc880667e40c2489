# Qlay, modelled in Dafny

Qlay is a small quantum-computing playground. It has four parts:

- a C++ state-vector simulator (`Qlay`);
- a C++/CLI wrapper that exposes it to .NET (`QlayCLI`);
- a WPF circuit editor (`QlayVisual`), where the user drops gate items on qubit lines and runs the circuit 1000 times;
- example programs (`QlayExamples`), among them the GHZ and CHSH nonlocal games.

This project models the parts of Qlay that are integer, index, list and boolean logic. It proves what they promise.

- **Simulator indexing** (`gates.dfy`, module `Gates`; `core.dfy`, module `Core`):
  - `ints_with_bit` and the way measurement splits and zeroes the state vector.
  - `expand_operator`, as the list of Kronecker factors it multiplies together.
  - The three branches of a two-qubit gate. The routing branch moves the two operands to positions 1 and 0 with adjacent SWAPs and moves them back. It is modelled as a permutation of qubit labels over positions (`layout`), plus a log of the operators applied (`applied`).
  - `kronecker_product`, over integer entries and on two-dimensional arrays.
- **Managed wrapper** (`cli.dfy`, module `Cli`):
  - The static `Gates` table, which the editor reaches by method name.
  - The managed `Qubit` handle. It owns one native qubit, and its destructor and finaliser release that qubit at most once.
- **Editor** (`canvas.dfy`, `movethumb.dfy` and `datamodel.dfy`):
  - The qubit lines of the circuit canvas and its measured size.
  - The drag handle of an item, which moves the item, then deletes it or asks it to snap.
  - The file-path, file-name and window-title state.
  - `RunSimulation`:
    - orders the items by their left edge, with a stable sort;
    - builds each call as its angles, converted to radians, followed by the qubit;
    - runs 1000 trials, each with a fresh qubit, and tallies the measurements.
- **Games** (`games.dfy`, module `Games`):
  - GHZ and CHSH: question generation, the fixed classical strategies, the win predicates, the two win counters, and the gates each quantum round calls.

Several inputs are function parameters rather than modelled behaviour:

- parsing a TextBox (`parse`);
- `deg_to_rad` (`toRad`);
- the outcome of the final measurement in each trial (`measure`);
- the coin flips of the games, and the answers the quantum players measure.

Floating-point coordinates are `Coord = NaN | Num(real)`. Every comparison with `NaN` is false, as in IEEE arithmetic. `NaN` sorts before every number, as `Double.CompareTo` orders it.

## Model

| member | source | states |
|---|---|---|
| Core.Kron | Qlay/Core.cpp:38-48 | the product has rows(a)*rows(b) rows and cols(a)*cols(b) columns, and every entry is the product of the entry of `a` for its block and the entry of `b` at its offset inside the block |
| Core.KronBlock | Qlay/Core.cpp:42-45 | entry (i*rows(b)+p, j*cols(b)+q) of the product is a(i,j)*b(p,q) |
| Core.BlocksDisjoint | Qlay/Core.cpp:42-45 | two different (block, offset) pairs never name the same row (or column), so no entry is written twice |
| Core.BlocksCover | Qlay/Core.cpp:42-45 | every row (column) below m*n lies in block x/n at offset x%n, so every entry is written |
| Core.KronRightUnit | Qlay/Core.cpp:38-48 | the product with the 1x1 matrix [1] on the right is the left operand |
| Core.KronLeftUnit | Qlay/Core.cpp:38-48 | the product with the 1x1 matrix [1] on the left is the right operand |
| Core.AssignBlock | Qlay/Core.cpp:44-45 | `k.block(r0, c0, rows(b), cols(b)) = s * b` writes s*b into that block and leaves every other entry of `k` unchanged |
| Core.KroneckerProduct | Qlay/Core.cpp:38-48 | the block-filling loops produce a fresh array of the product's shape in which block (i, j) holds a(i, j) times b, so the whole array is the Kronecker product of the inputs; the inputs are not modified (the method has no `modifies` clause) |
| Gates.Pow2Add | Qlay/Gates.cpp:269 | 2^(m+n) = 2^m * 2^n, the size of a register of m+n qubits |
| Gates.IntsWithBit | Qlay/Gates.cpp:249-264 | the result holds exactly the indices below x whose bit b equals `value` |
| Gates.MeasurementSetsPartition | Qlay/Gates.cpp:266-272 | the indices with bit k set and those with it clear are disjoint and together cover [0, n) |
| Gates.Collapse | Qlay/Gates.cpp:283-295 | after a measurement giving `result`, every amplitude whose bit `index` disagrees with `result` is zero, and every other one is its old value rescaled |
| Gates.Identities | Qlay/Gates.cpp:100-109 | a loop that runs n times (none when n <= 0) adds that many identity factors |
| Gates.DimsAppend | Qlay/Gates.cpp:101-109 | the dimension of a Kronecker product of factor lists is the product of their dimensions |
| Gates.DimsIdentities | Qlay/Gates.cpp:100-101 | n identity factors have dimension 2^n |
| Gates.ExpandOperator | Qlay/Gates.cpp:95-112 | the loops build I^(limit-index) (x) m (x) I^index, where limit is count-2 for a 4x4 operator and count-1 otherwise |
| Gates.ExpandedDim | Qlay/Gates.cpp:95-112 | when 0 <= index <= limit, the expanded operator is 2^count square |
| Gates.ExpandedTooLarge | Qlay/Gates.cpp:106-109 | when index is past the limit, the second loop adds nothing and the operator is larger than 2^count |
| Gates.Evaluate | Qlay/Gates.cpp:95-112 | multiplying out a factor list whose operators all have the operator's size gives a square matrix of the list's dimension |
| Gates.ExpandAtZero | Qlay/Gates.cpp:97-103 | at index 0 with nothing around it, the expansion is the operator itself, because [1] is a right unit of the Kronecker product |
| Gates.Exchange | Qlay/Gates.cpp:228-244 | SWAP of positions x and y exchanges their labels and leaves every other position alone |
| Gates.MoveDown | Qlay/Gates.cpp:189-197 | moving the label at position f down to position t shifts the labels in between up by one and leaves the rest alone |
| Gates.MoveUp | Qlay/Gates.cpp:204-209 | moving the label at position t up to position f shifts the labels in between down by one and leaves the rest alone |
| Gates.MoveDownStep | Qlay/Gates.cpp:189-197 | one more adjacent SWAP (i, i-1) in the routing loops moves the routed label one further position down |
| Gates.MoveUpStep | Qlay/Gates.cpp:204-209 | one more adjacent SWAP (i+1, i) in the swap-back loops moves the label one further position up |
| Gates.MoveUpUndoesMoveDown | Qlay/Gates.cpp:189-209 | the swap-back loops undo the routing loops: the net permutation is the identity |
| Gates.RoutedIntoPlace | Qlay/Gates.cpp:188-197 | after the b-loop, b's label is at 0 and a's is at a_i (a+1 when a < b, else a); after the a-loop, a's label is at 1 and b's at 0 |
| Gates.ConjugatedSwapInner | Qlay/Gates.cpp:195-205 | routing a label to position 1, swapping positions 1 and 0, and routing back swaps the labels at positions f and 0 |
| Gates.ConjugatedSwapOuter | Qlay/Gates.cpp:188-209 | the same for the b-loop: the routed swap exchanges the labels at positions a and b |
| Gates.RoutedSwapExchanges | Qlay/Gates.cpp:188-209 | a SWAP routed through the general branch exchanges exactly the labels at a and b |
| Gates.TwoGatePositionFits | Qlay/Gates.cpp:170-201 | each of the three branches widens the 4x4 operator at a position p with p+1 < count, to exactly 2^count |
| Gates.Range | Qlay/Gates.cpp:189-209 | the identity layout: position k holds qubit k |
| Gates.QubitSystem.ApplyGate | Qlay/Gates.cpp:126-150 | a Gate or AngleGate functor applies its operator to the qubit at q and leaves the layout unchanged |
| Gates.QubitSystem.ApplyAt | Qlay/Gates.cpp:172-201 | a two-qubit operator widened at position p acts on the labels at p+1 and p; for SWAP that exchanges them |
| Gates.QubitSystem.TwoGate | Qlay/Gates.cpp:164-211 | in every branch, a SWAP exchanges the labels of a and b, and any other gate acts once on (a, b) in that order; the layout is the same afterwards |
| Gates.QubitSystem.Route | Qlay/Gates.cpp:186-210 | the general branch: the operator is applied at position 0 to (a, b), and the layout is restored (exchanged for SWAP) |
| Gates.QubitSystem.SwapDown | Qlay/Gates.cpp:189-197 | the routing loops' adjacent SWAPs move the label at f down to t, and each is a direct-branch SWAP |
| Gates.QubitSystem.SwapUp | Qlay/Gates.cpp:204-209 | the swap-back loops' adjacent SWAPs move the label at t back up to f |
| Gates.QubitSystem.SwapUpStep | Qlay/Gates.cpp:204-209 | one pass of the swap-back loop carries t's label from position i to i+1 and applies no operator |
| Cli.Find | QlayCLI/Qlay.cpp:73-141 | a lookup by name finds nothing exactly when no method has that name, and otherwise returns the signature of a method with that name |
| Cli.Lookup | QlayCLI/Qlay.cpp:73-141 | every method of `Gates` takes exactly one qubit and at most one angle, and the ones returning bool take no angle |
| Cli.NamesDistinct | QlayCLI/Qlay.cpp:73-141 | no two methods share a name, so `GetMethod(name)` is never ambiguous |
| Cli.MeasurementSignatures | QlayCLI/Qlay.cpp:76-86 | M and Mx take one qubit and return bool |
| Cli.PlainSignatures | QlayCLI/Qlay.cpp:88-116 | X, Y, Z, H and SRNOT take one qubit and no angle, and return void |
| Cli.AngleSignatures | QlayCLI/Qlay.cpp:118-140 | Rx, Ry, Rz and Rp take one angle, then one qubit, and return void |
| Cli.NoTwoQubitGate | QlayCLI/Qlay.cpp:73-141 | SWAP, SRSWAP and CNOT cannot be reached by name |
| Cli.Forward | QlayCLI/Qlay.cpp:88-140 | each non-measuring wrapper forwards to a one-qubit gate of the simulator |
| Cli.TableEntry | QlayCLI/Qlay.cpp:73-141 | looking up the name of any method of `Gates` returns that method's own signature |
| Cli.EntryForwards | QlayCLI/Qlay.cpp:76-140 | each method of `Gates` returns bool exactly when it forwards to no simulator gate, and takes an angle exactly when the gate it forwards to is a rotation |
| Cli.RegisteredForwards | QlayCLI/Qlay.cpp:76-140 | a registered method returns bool exactly when it does not forward to a gate, and it takes an angle exactly when its gate is a rotation |
| Cli.NativeHeap.Allocate | QlayCLI/Qlay.cpp:48-52 | `new qlay::Qubit(b)` adds one fresh live qubit in basis state b |
| Cli.NativeHeap.Delete | QlayCLI/Qlay.cpp:65 | `delete` is allowed only on a live qubit, removes it and records the deletion |
| Cli.Qubit.constructor | QlayCLI/Qubit.cpp:13-15 | the constructor leaves `impl_` non-null, pointing to a fresh live qubit in basis state 0 |
| Cli.Qubit.InBasis | QlayCLI/Qlay.cpp:52-54 | the constructor from a bool leaves `impl_` pointing to a fresh live qubit in that basis state |
| Cli.Qubit.Finalize | QlayCLI/Qubit.cpp:22-29 | the finaliser deletes `impl_` only when it is non-null, then nulls it; on a null `impl_` it changes nothing |
| Cli.Qubit.Dispose | QlayCLI/Qubit.cpp:17-20 | the destructor has exactly the finaliser's effect |
| Cli.DisposeThenFinalize | QlayCLI/Qlay.cpp:56-68 | disposing and then finalising deletes the native qubit exactly once |
| Canvas.LinesOf | QlayVisual/CircuitCanvas.cs:37-50 | `Children.OfType<Line>()` keeps only line children |
| Canvas.NonLines | QlayVisual/CircuitCanvas.cs:50-51 | the children that removing the lines leaves are exactly those that are not lines |
| Canvas.LinesOfAppend | QlayVisual/CircuitCanvas.cs:50-51 | the lines, and the children that are not lines, of a concatenation are those of each part in order, so both filters keep child order |
| Canvas.LinesOfAllLines | QlayVisual/CircuitCanvas.cs:50-51 | a list made only of lines is its own line list and leaves nothing when its lines are removed |
| Canvas.RemoveFirst | QlayVisual/CircuitCanvas.cs:51 | `Children.Remove` removes one child when it is present and changes nothing otherwise |
| Canvas.RemoveFirstExact | QlayVisual/CircuitCanvas.cs:51 | when x is a child, `Children.Remove(x)` drops its first occurrence and keeps every child before and after it, in order |
| Canvas.RemoveFirstLine | QlayVisual/CircuitCanvas.cs:50-51 | removing the first line drops it from the line list and leaves every other child as it was |
| Canvas.QubitLines | QlayVisual/CircuitCanvas.cs:54-68 | the add loop adds max(n, 0) lines, and line i is the line at height 80*(i+1) |
| Canvas.RebuiltLines | QlayVisual/CircuitCanvas.cs:27-68 | after the rebuild there are exactly max(n, 0) lines; line i is horizontal at Y1 = Y2 = 80*(i+1), runs from X 0 to `Width`, and has z-index -1; the other children are unchanged |
| Canvas.LineYs | QlayVisual/CircuitCanvas.cs:32-41 | the Y1 of each line child, in child order |
| Canvas.RebuiltLineYs | QlayVisual/CircuitCanvas.cs:32-68 | after `SetQubitLines(n)` the line heights are 80, 160, ..., 80n, strictly increasing |
| Canvas.CircuitCanvas.Loaded | QlayVisual/CircuitCanvas.cs:71-78 | loading leaves exactly one qubit line |
| Canvas.CircuitCanvas.SetQubitLines | QlayVisual/CircuitCanvas.cs:47-69 | the removal loop and the add loop leave the non-line children followed by the n new lines |
| Canvas.LineYsStep | QlayVisual/CircuitCanvas.cs:32-41 | one more child adds its Y1 to the line heights exactly when it is a line |
| Canvas.CircuitCanvas.QubitLineYValues | QlayVisual/CircuitCanvas.cs:32-41 | the loop returns the Y1 of each line child, in child order, ignoring the other children |
| Canvas.CircuitCanvas.MeasureOverride | QlayVisual/CircuitCanvas.cs:80-105 | the size is at least 10x10; a NaN left or top counts as 0 and children with a NaN desired size are skipped; every other child fits inside with a margin of 10; each dimension is 10 or is reached by some child; with no children the size is exactly 10x10 |
| MoveThumb.Moved | QlayVisual/MoveThumb.cs:22-25 | the item moves by exactly (HorizontalChange, VerticalChange), and a NaN position stays NaN |
| MoveThumb.Centre | QlayVisual/MoveThumb.cs:35-36 | the centre is a number exactly when both position and size are |
| MoveThumb.DeleteIffCentreOutside | QlayVisual/MoveThumb.cs:35-42 | an item is deleted exactly when its centre lies outside [0, width] x [0, height] |
| MoveThumb.EdgeIsKept | QlayVisual/MoveThumb.cs:41-46 | a centre anywhere on the edge of the canvas rectangle is kept and snapped, because the bounds are inclusive |
| MoveThumb.NaNIsKept | QlayVisual/MoveThumb.cs:35-46 | an item whose centre is NaN in both directions is never deleted |
| MoveThumb.DragDelta | QlayVisual/MoveThumb.cs:17-27 | a circuit item is moved by the drag change, and nothing else changes |
| MoveThumb.DragCompleted | QlayVisual/MoveThumb.cs:29-51 | exactly one of delete or snap happens, and the measurement labels are cleared in both cases; a child that is not an item is left alone |
| DataModel.AfterLastSeparator | QlayVisual/DataModel.cs:55 | `Path.GetFileName` returns a suffix of the path that holds no separator and follows the last separator |
| DataModel.FileName | QlayVisual/DataModel.cs:55 | the file name is null exactly when the path is, and is otherwise the path's final component |
| DataModel.WindowTitle | QlayVisual/DataModel.cs:55-60 | the title always ends in " - Qlay Visual", and is "Untitled - Qlay Visual" with no path |
| DataModel.PlainNameIsFileName | QlayVisual/DataModel.cs:55-60 | a path without separators is its own file name, and the title is that name + " - Qlay Visual" |
| DataModel.DirectoryIsDropped | QlayVisual/DataModel.cs:55 | the file name of dir + separator + name is name |
| DataModel.TrailingSeparatorTitle | QlayVisual/DataModel.cs:55-60 | a path ending in a separator has the empty file name, so the title is " - Qlay Visual" and not "Untitled" |
| DataModel.ItemsOf | QlayVisual/DataModel.cs:107 | `OfType<CircuitItem>()` keeps only circuit items, all of them children |
| DataModel.ItemsOfAppend | QlayVisual/DataModel.cs:107 | the filter distributes over concatenation, and one child is kept exactly when it is a circuit item, so every circuit item is kept in child order |
| DataModel.ItemsOfAllOrNone | QlayVisual/DataModel.cs:107 | children that are all circuit items are kept whole and in order; children with none give nothing |
| DataModel.BeforeTotal | QlayVisual/DataModel.cs:107 | for two different items, exactly one comes first in the stable order by left edge |
| DataModel.BeforeTransitive | QlayVisual/DataModel.cs:107 | the stable order by left edge is transitive |
| DataModel.Insert | QlayVisual/DataModel.cs:107 | one insertion step adds exactly the new index |
| DataModel.InsertOrdered | QlayVisual/DataModel.cs:107 | inserting into an ordered list of indices keeps it ordered |
| DataModel.Order | QlayVisual/DataModel.cs:107 | the sorted indices are a permutation of 0 .. n-1 |
| DataModel.OrderOrdered | QlayVisual/DataModel.cs:107 | the sorted indices are ordered by left edge, ties by child position |
| DataModel.OrderByLeft | QlayVisual/DataModel.cs:107 | `OrderBy(GetLeft)` returns the items at the sorted indices |
| DataModel.OrderByLeftSorted | QlayVisual/DataModel.cs:107 | the gates are a permutation of the items, in ascending left edge (NaN first), and items with the same left edge keep their child order because `OrderBy` is stable |
| DataModel.Radians | QlayVisual/DataModel.cs:113-115 | each TextBox text, in child order, becomes `deg_to_rad(double.Parse(text))` |
| DataModel.FirstBadIndex | QlayVisual/DataModel.cs:113-115 | when some text does not parse, this is the first one, where `double.Parse` throws |
| DataModel.ArgsOf | QlayVisual/DataModel.cs:110-118 | the argument list is all the angles followed by the qubit, or the first parse failure |
| DataModel.ArgsDetermined | QlayVisual/DataModel.cs:110-118 | that description leaves exactly one possible argument list or error |
| DataModel.TextsStep | QlayVisual/DataModel.cs:113-114 | the TextBoxes up to child k+1 are those up to child k, plus child k when it is a TextBox; the rest follow after child k+1 |
| DataModel.RadiansSnoc | QlayVisual/DataModel.cs:113-115 | one more text that parses appends its converted angle to the argument list |
| DataModel.BuildArgs | QlayVisual/DataModel.cs:110-118 | the loop builds the angles of the TextBoxes in child order, then appends the qubit, and stops at the first text that does not parse |
| DataModel.ItemCall | QlayVisual/DataModel.cs:110-119 | a call succeeds exactly when every text parses, the tag is a registered name, and the name takes as many angles as there are texts. Its arguments are then the converted angles followed by the qubit. Otherwise the first failing step decides the error: the first text that does not parse gives BadNumber of that text, an unregistered tag gives UnknownGate, and a count mismatch gives ArgumentCount with the number of arguments built |
| DataModel.ItemCallTrialFree | QlayVisual/DataModel.cs:110-119 | whether an item's call fails, and how, does not depend on the trial |
| DataModel.Results | QlayVisual/DataModel.cs:107-119 | the result of each item's call in this trial, in gate order |
| DataModel.UntilError | QlayVisual/DataModel.cs:107-120 | the calls made in order before the first exception, and that exception if there is one |
| DataModel.FollowsDetermined | QlayVisual/DataModel.cs:107-120 | there is only one such run |
| DataModel.SameFailures | QlayVisual/DataModel.cs:107-120 | two result lists that fail at the same places with the same errors stop at the same point with the same error |
| DataModel.Plan | QlayVisual/DataModel.cs:107-120 | one trial calls the gates in order: every call before the stop succeeds, and the trial stops at the first failing item or runs them all |
| DataModel.PlanDetermined | QlayVisual/DataModel.cs:107-120 | any outcome whose calls are the items' calls up to the first failing item, with that item's error, is the plan |
| DataModel.PlanTrialFree | QlayVisual/DataModel.cs:107-120 | every trial stops at the same item with the same error |
| DataModel.CallItem | QlayVisual/DataModel.cs:110-119 | building one item's arguments, finding its method and invoking it gives exactly that item's call or its error |
| DataModel.CallItems | QlayVisual/DataModel.cs:107-120 | the foreach loop makes the items' calls in order, and stops at the first item that fails, with that item's error |
| DataModel.ApplyGates | QlayVisual/DataModel.cs:107-120 | the foreach loop makes exactly the calls of the plan, and raises its error when there is one |
| DataModel.CountOnes | QlayVisual/DataModel.cs:122-126 | the number of trials measuring one is at most the number of trials |
| DataModel.ConcatLength | QlayVisual/DataModel.cs:102-120 | n trials that make k calls each make n*k calls together |
| DataModel.TrialThrows | QlayVisual/DataModel.cs:102-120 | a trial that throws is the first one, and it throws the first trial's error after the first trial's calls |
| DataModel.TrialExtends | QlayVisual/DataModel.cs:102-120 | a trial that does not throw appends its calls to those of the trials before it, and then the first trial did not throw either |
| RunShape.PlanLength | QlayVisual/DataModel.cs:107-120 | when the first trial makes no failing call, every trial makes one call per item |
| RunShape.ScheduleShape | QlayVisual/DataModel.cs:102-120 | when no call fails, n trials make n times as many calls as there are items |
| DataModel.RunOrder | QlayVisual/DataModel.cs:107 | the gate order holds only circuit items |
| DataModel.DataModel.SetFilePath | QlayVisual/DataModel.cs:40-50 | setting `FilePath` stores the value, then notifies FilePath, FileName and WindowTitle, in that order |
| DataModel.DataModel.New | QlayVisual/DataModel.cs:84-88 | `New` installs a fresh empty canvas and clears the path, so the title is "Untitled - Qlay Visual" |
| DataModel.DataModel.RunSimulation | QlayVisual/DataModel.cs:93-131 | with no canvas, the run fails; otherwise it succeeds exactly when no call of the first trial fails. On success, zeroes + ones = 1000, ones counts the trials that measured one, and the calls are those of trials 0 to 999 in turn. On failure, the error and the calls made are those of the first trial. Every qubit created is released, and the qubits deleted are distinct, one per trial run: 1000 on success, 1 on failure or with no canvas |
| DataModel.DataModel.RunTrials | QlayVisual/DataModel.cs:99-128 | after n trials, the run succeeds exactly when the first trial makes no failing call; then zeroes + ones = n, ones counts the trials that measured one, and the calls are every trial's calls in turn; otherwise the error and the calls are the first trial's; every qubit is released, and exactly one distinct qubit is deleted per trial run: n on success, 1 on failure |
| DataModel.DataModel.TrialStep | QlayVisual/DataModel.cs:102-127 | one pass of the loop either stops the run with the first trial's error and calls, or extends the calls by trial i's and adds its measurement to the tally; either way one fresh qubit is deleted |
| DataModel.DataModel.Trial | QlayVisual/DataModel.cs:104-127 | one trial makes the plan's calls and measures once only if no call failed; it creates one fresh qubit and deletes exactly that qubit, leaving the live qubits as they were |
| DataModel.ReleasedOneMore | QlayVisual/DataModel.cs:102-104 | a trial that deletes one qubit not deleted before extends the run's deleted qubits by one more distinct entry, so trials run equal qubits deleted |
| Games.GenerateQuestions | QlayExamples/GHZ.cpp:19-25 | r and s are the two draws, and r ^ s ^ t is false |
| Games.QuestionsAreValid | QlayExamples/GHZ.cpp:19-25 | the questions are always one of 000, 011, 101 and 110 |
| Games.ClassicalGhzWin | QlayExamples/GHZ.cpp:33-38 | with every answer true, a round is won exactly when r, s or t is true |
| Games.ClassicalGhzLosesOnlyAllFalse | QlayExamples/GHZ.cpp:19-38 | of the valid question sets, the classical strategy loses only 000 |
| Games.Answer | QlayExamples/GHZ.cpp:63-73 | a player measures their own qubit once, and applies H to it first exactly when their question is true |
| Games.GhzRoundShape | QlayExamples/GHZ.cpp:54-73 | every quantum GHZ round starts from the same preparation, measures Alice's, Bob's and Charlie's qubits once each, in order, and applies H to a player's qubit after the preparation exactly when that player's question is true |
| Games.NotAllFalse | QlayExamples/GHZ.cpp:28-39 | the number of rounds not asked 000 is at most the number of rounds |
| Games.GhzQuantumWins | QlayExamples/GHZ.cpp:44-77 | the number of quantum rounds won is at most the number of rounds |
| Games.Ghz | QlayExamples/GHZ.cpp:13-80 | the classical count is the number of rounds not asked 000; the quantum count starts again from 0 and counts the rounds the measured answers win by the same predicate; both stay in [0, repeats] |
| Games.ChshPredicatesAgree | QlayExamples/CHSH.cpp:27-68 | `(r & s) == (a ^ b)` and `(r && s) == (a ^ b)` agree on all booleans |
| Games.ClassicalChshWin | QlayExamples/CHSH.cpp:21-28 | with both answers false, a round is won exactly when r and s are not both true |
| Games.ChshRoundShape | QlayExamples/CHSH.cpp:42-66 | Alice's qubit is measured first, in the X basis exactly when r; Bob then rotates about Y by a positive angle exactly when s, and measures |
| Games.NotBothAsked | QlayExamples/CHSH.cpp:18-29 | the number of rounds where r and s are not both true is at most the number of rounds |
| Games.ChshQuantumWins | QlayExamples/CHSH.cpp:34-70 | the number of quantum rounds won is at most the number of rounds |
| Games.Chsh | QlayExamples/CHSH.cpp:13-73 | the classical count is the number of rounds where r and s are not both true; the quantum count starts again from 0 and counts the rounds won; both stay in [0, repeats] |

## Left out

- Complex and floating-point numerics are not modelled:
  - the matrix constants and rotation matrices;
  - `state = op * state`;
  - the probability sum and the square root in `M`;
  - `Mx`;
  - `deg_to_rad`, which is a parameter `toRad`.

  Amplitudes in `Gates.Collapse` are values of any type, and the rescaling is a parameter. Kronecker products are over `int`.
- Randomness is not modelled: `init`, `chance` and the generator are replaced by inputs. The measurement outcome of each editor trial is `measure(i)`. The coin flips of round i of a game are `classical(i)` or `quantum(i)`.
- The stream positions the generator would have across the classical and quantum loops are not modelled.
- The quantum state that a round of GHZ or CHSH prepares is not simulated. `Games.GhzRound` and `Games.ChshRound` list the calls a round makes. The answers those calls measure are the input `measured`.
- Gates.IntsWithBit: does not model the `1 << b` mask of type `T`. It uses an unbounded power of two, so a bit index at or beyond the width of `T` is not modelled.
- Gates.QubitSystem.TwoGate: requires a != b. With equal indices the source falls into the routing branch and misroutes. The caller is expected never to pass the same qubit twice.
- Games.Ghz: the counters are unbounded naturals. The source's `int wins` could overflow when `repeats` exceeds `INT_MAX`.
- Games.Chsh: the counters are unbounded naturals, for the same reason as `Games.Ghz`.
- The percentage printed after each loop, `(double)wins / repeats * 100`, is not modelled. Neither is any other console output.
- `Qlay/Qubit.cpp` and its `operator=` are not part of this model, because that code rests on floating-point probabilities.
- The exceptions the .NET runtime raises in `RunSimulation` are collapsed into one error datatype:
  - `double.Parse` failing becomes `BadNumber`;
  - `GetMethod` returning null for an unknown tag becomes `UnknownGate`;
  - `Invoke` with the wrong number of arguments becomes `ArgumentCount`;
  - a content that is not a `CircuitCanvas` becomes `NoCanvas`.

  A `Tag` that is not a string is not modelled. Neither is a null `Tag`: the canvas never sets it on a dropped item, and `GetMethod(null)` would then throw `ArgumentNullException`, but the model's tag is always a string. Neither is item content that is not a `Canvas`.
- DataModel.DataModel.RunSimulation: the circuit acts on the trial's single qubit only, because every wrapper method takes exactly one qubit. The message box that shows the tally is not modelled; the tally is returned.
- Gates.QubitSystem.SwapDown: the routing loops call `Qubit(qs, i)`, which `Qlay/Qlay.h` does not declare; it only declares `Qubit(QubitSystem &system)`. The model reads `Qubit(qs, i)` as the qubit at position i of the system. Gates.QubitSystem.SwapUp and Gates.QubitSystem.SwapUpStep read it the same way.
- DataModel.DataModel.RunTrials: states that the deleted qubits are distinct and number one per trial. That each was created by its own trial is stated per trial, by DataModel.DataModel.Trial and DataModel.DataModel.TrialStep, and not over the whole run. DataModel.DataModel.RunSimulation has the same gap.
- DataModel.DataModel.RunTrials: orders the items once, before the loop, where the source orders them again in every trial. Nothing changes the canvas during a run, so every trial sees the same order.
- DataModel.DataModel: the `ContentControl` is folded into the field `content`. `PropertyChanged` handlers are represented by the list of notified property names.
- Canvas.CircuitCanvas.MeasureOverride: the layout constraint and `e.Measure(constraint)` are folded into the parameter `desired`. Infinite coordinates are not modelled.
- Canvas.CircuitCanvas.SetQubitLines: `Children.Remove(l)` removes by reference. The model removes the first child equal in value. The two agree here, because every line in the list is removed.
- Stroke colour and thickness of a qubit line, and the style assignment on loading, are not modelled.
- `SnapToQubitLine` and `ClearMeasurementLabels` are not defined in the code. A completed drag records them as requests on the canvas. `DeleteFromCanvas` removes the child.
- `Path.GetFileName`'s checks for invalid path characters are not modelled. Separators are `\`, `/` and `:`.
- Not modelled, because they are user interface, file or process I/O:
  - XAML serialisation (`Serialise`, `Deserialise`);
  - `OnDrop`;
  - the main window, the toolbox and the application class.
- The other example programs are not modelled: teleportation, superdense coding, entanglement, Hadamard, PauliX and Deutsch-Jozsa. They are simulations of quantum states.
