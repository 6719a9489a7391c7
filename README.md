# cutqc-mlft core in Dafny

This project models the symbolic core of cutqc-mlft. The system cuts a quantum circuit into
fragments and learns a model of each fragment by fragment tomography. It can correct the models
by maximum likelihood. It then recombines them into the output distribution of the uncut circuit.
The model also covers the CutQC helpers that share this code base:
- the instrumentation of subcircuits, and the measurement-basis bookkeeping of the evaluator;
- the split of a job list over worker processes;
- the translation of qiskit circuits through qusetta gate strings into cirq circuits, with the cut
  positions that ride along.

Modules, following the repository's files:

| module | file | models |
|---|---|---|
| `Common` | common.dfy | Python dicts as ordered association lists, `range`, bit strings, `Result` with the exception kinds |
| `Circuits` | circuits.dfy | cirq qubits (`LineQubit`, the `cut_i` named qubits), operations, moments, circuits, `sorted(set(...))` |
| `Sorting` | sorting.dfy | Python's stable `sorted` under a total preorder |
| `Products` | products.dfy | `itertools.product`, plain and repeated |
| `Fragments` | fragment.dfy | `Fragment.__init__` |
| `Cutting` | cutting.dfy | `cut_circuit`: the cut loop, renaming, routing, factorisation, per-fragment restriction |
| `PrepFunctions` | prep.dfy | prep-state labels, projectors, preparation and measurement gates |
| `TransformFunctions` | transform.dfy | `condition_iterator`, `conditions_to_vec`, `interrogation_matrix` |
| `Containers` | containers.dfy | `FragmentTomographyData` and `FragmentModel` |
| `Tomography` | tomography.dfy | shot budgeting, setting enumeration and outcome recording, with the simulator as a parameter |
| `Build` | build.dfy | assembly of the least-squares fit and of the fragment models, with `lstsq` as a parameter |
| `MaximumLikelihood` | correction.dfy | `correct_probability_distribution`, on an array of reals |
| `ChoiCorrection` | choi.dfy | `corrected_single_fragment_model`: the axis moves, the joint correction, the rebuilt blocks |
| `PostProcess` | postprocess.dfy | `get_outcome_combiner` and the `outcome_combiner` closure |
| `Rebuild` | rebuild.dfy | `recombine_fragment_models`, with the contraction as a parameter |
| `Evaluator` | evaluator.dfy | `modify_subcircuit_instance`, `mutate_measurement_basis`, `measure_state`, `measure_prob` |
| `Jobs` | jobs.dfy | `find_process_jobs` |
| `Text` | text.dfy | `str.index`, `strip`, `upper`, `split`, `join`, `str(int)`, `int(str)` on ASCII text |
| `Conversion` | conversion.dfy | `gate_info`, `qiskit_to_qusetta`, `cirq_from_qusetta` |

Code that works by updating state step by step is modelled by methods with loops:
- the cut loop;
- the tomography loops;
- the elimination loop of the correction, in place on an array;
- the routing `while` loop;
- the recombination loop;
- the evaluator's loops;
- the conversion loops.

Each method is proved equal to a specification function. The properties are proved about those
functions. Pure code is modelled by functions and lemmas. Every exception the source raises on
its own is a `Result` error of the same kind. Of the exceptions `eval` can raise, only the
NameError for an undefined name is modelled (see Left out). Foreign numerics are function-typed
parameters:
- `eigh`, the eigenvector reconstruction and `lstsq`;
- the tensor contraction;
- the cirq simulator.

Behaviour of the code that a reader might not expect:
- **Shot count.** Any non-zero budget is replaced by exactly `max(10^4, 2^n)` shots per setting.
  A zero budget selects exact mode.
- **Variant count.** The variant count is the length of the basis name, not the number of its
  states (see Findings).
- **Trace.** The correction preserves the trace only when the total is non-negative. With every
  value negative, the last value is zeroed with nothing left to receive it.
- **Block tags.** Blocks are built untagged and with the default rank cutoff, because
  `fragment_key` and `rank_cutoff` are not passed on.
- **The `fragment_0` check.** Recombination raises `KeyError` when no model is keyed
  `fragment_0`, because of a debug print.

## Model

| member | source | states |
|---|---|---|
| Fragments.NewFragment | mlft/classes/Fragment.py:21-32 | Missing maps become empty. It fails with AssertionError iff some quantum input or output is not a circuit qubit. On success the circuit outputs are strictly sorted and duplicate-free, disjoint from the quantum outputs, together with them exactly the circuit's qubits, and include every quantum input that is not a quantum output |
| Circuits.SortedQubits | mlft/classes/Fragment.py:32 | `sorted(set(s))`: strictly increasing in cirq's qubit order, with exactly the elements of `s` |
| Sorting.InsertionSortSpec | mlft/cutting_methods.py:37 | Sorting gives a sequence that is sorted under the preorder and is a permutation of its input |
| Cutting.SortCuts | mlft/cutting_methods.py:37 | The cuts in ascending (moment, qubit) order, the same multiset of cuts |
| Cutting.FirstTouching | mlft/cutting_methods.py:51-55 | Index of the first operation of a moment that addresses the qubit, if there is one |
| Cutting.RenameOp | mlft/cutting_methods.py:53 | `transform_qubits({old: new})` keeps the gate and the arity |
| Cutting.ReplaceInMoment | mlft/cutting_methods.py:61 | Each operation equal to the old one becomes the new one. Every other operation stays in place |
| Cutting.BatchReplace | mlft/cutting_methods.py:61 | `batch_replace` keeps the number of moments |
| Cutting.CutQubits | mlft/cutting_methods.py:38-42 | The qubits `cut_0 .. cut_{n-1}`, in order |
| Cutting.ReplaceFirstTouching | mlft/cutting_methods.py:50-55 | In a valid moment, replacing the first operation on `src` renames every operation on `src` and nothing else |
| Cutting.BatchReplaceFrom | mlft/cutting_methods.py:49-61 | The collected replacements, applied from moment `i` on, rename exactly the operations that address `src` |
| Cutting.RenameDownstream | mlft/cutting_methods.py:48-61 | After `batch_replace`, moments before the cut are unchanged. From the cut on, every operation on the old qubit addresses the new one and every other operation is unchanged. At most one operation per moment is rewritten |
| Cutting.ReplacementsEmpty | mlft/cutting_methods.py:49-59 | The scan finds no replacement iff no operation at or after the cut moment addresses the qubit |
| Cutting.RenameMomentQubits | mlft/cutting_methods.py:53 | Renaming a moment trades `src` for `dst` in its qubits and changes nothing else |
| Cutting.RenameMomentValid | mlft/cutting_methods.py:53 | Renaming to a qubit the moment does not use keeps its operations on disjoint qubits |
| Cutting.TrivialCut | mlft/cutting_methods.py:38-64 | A cut is trivial iff it leaves the whole loop state unchanged. A non-trivial cut advances `cut_index` by one, routes the cut qubit to `cut_i` and renames downstream of the routed qubit |
| Cutting.TrivialCutInv | mlft/cutting_methods.py:44-59 | A skipped cut keeps the loop invariant |
| Cutting.NontrivialCutInv | mlft/cutting_methods.py:48-64 | A non-trivial cut appends `(cut_n, "cut_n")` to the quantum inputs and `(routed qubit, "cut_n")` to the quantum outputs, renames downstream, and keeps the invariant |
| Cutting.ApplyCutsInv | mlft/cutting_methods.py:36-64 | After any sorted run of cuts the invariant holds. Cut names are `cut_0..cut_{n-1}` without gaps, each recorded once as an output and once as an input. The circuit stays valid and keeps its length |
| Cutting.ComponentsSpec | mlft/cutting_methods.py:69 | The qubit components partition the operations' qubits, and each operation lies within one component |
| Cutting.FactorCircuit | mlft/cutting_methods.py:69-70 | A factor has every moment of the circuit, each keeping only the operations that touch the group |
| Cutting.Factorize | mlft/cutting_methods.py:69 | Every factor has as many moments as the circuit |
| Cutting.FactorGroups | mlft/cutting_methods.py:69-71 | The factors' qubit groups partition the circuit's qubits, and no operation straddles two groups |
| Cutting.MakeFragment | mlft/cutting_methods.py:72-76 | The fragment is what `Fragment(...)` builds from the global maps restricted to the factor's qubits, and that construction cannot fail |
| Cutting.FragmentsOf | mlft/cutting_methods.py:68-76 | Keys are `0..n-1`, one per factor. Fragment `i` is built from factor `i` with the restricted maps |
| Cutting.FindReplacements | mlft/cutting_methods.py:49-55 | The inner scan's loop computes the replacements specification |
| Cutting.CutStep | mlft/cutting_methods.py:37-64 | One loop iteration updates the five loop variables exactly as one step of the cut fold |
| Cutting.CollectFragments | mlft/cutting_methods.py:68-76 | The closing loop builds `FragmentsOf` the cut state |
| Cutting.FragmentsOfPrefix | mlft/cutting_methods.py:68-76 | The fragments of the first `i + 1` factors extend those of the first `i` by one entry |
| Cutting.CutCircuit | mlft/cutting_methods.py:9-77 | `cut_circuit` returns the fragments of the state reached by folding the sorted cuts over the circuit |
| PrepFunctions.StateOf | mlft/helper_functions/prep_functions.py:11-28 | The labels `Z+ S0 Z- X+ X- Y+ Y- S1 S2 S3` name a state. Every other label is a ValueError |
| PrepFunctions.StateLabelShape | mlft/helper_functions/prep_functions.py:36-40 | The Pauli and SIC label lists hold exactly the two-character labels `Z`/`X`/`Y` with a sign and `S` with a digit 0-3 |
| PrepFunctions.Projector | mlft/helper_functions/prep_functions.py:29 | Entry `2a + b` of the flattened outer product is `vec[a] * conj(vec[b])` |
| PrepFunctions.PrepStateToProj | mlft/helper_functions/prep_functions.py:9-29 | Four entries. `Z+` and `S0` give the same projector. An unknown label is a ValueError |
| PrepFunctions.GetPrepStates | mlft/helper_functions/prep_functions.py:31-43 | `Pauli` gives `Z+ Z- X+ X- Y+ Y-` and `SIC` gives `S0 S1 S2 S3`, in that order. Any other basis is a ValueError |
| PrepFunctions.PrepStatesValid | mlft/helper_functions/prep_functions.py:36-40 | Every label of either basis names a state |
| PrepFunctions.PrepGates | mlft/helper_functions/prep_functions.py:48-71 | The label-to-gates table: none for Z+/S0, X, H, X then H, H then S, H then S^-1, and ry then rz for S1-S3. The rz is dropped for corner 0. Anything else is a ValueError |
| PrepFunctions.PrepStateOps | mlft/helper_functions/prep_functions.py:45-71 | Labels and qubits are paired up to the shorter list. The first unknown paired label is a ValueError |
| PrepFunctions.PrepGatesPrepare | mlft/helper_functions/prep_functions.py:45-71 | The gates of a label take the zero state to the state the label names in `prep_state_to_proj` |
| PrepFunctions.PrepStateOpsOn | mlft/helper_functions/prep_functions.py:47-71 | With distinct qubits, the i-th paired qubit receives exactly its label's gates |
| PrepFunctions.PrepStateOpsPrepare | mlft/helper_functions/prep_functions.py:45-71 | The operations on the i-th paired qubit prepare the state its label names |
| PrepFunctions.PrepStateOpsElsewhere | mlft/helper_functions/prep_functions.py:47 | No operation acts on a qubit outside the paired ones |
| PrepFunctions.MeasBasisOpsOn | mlft/helper_functions/prep_functions.py:73-80 | With distinct qubits, the i-th paired qubit receives H for X, S^-1 then H for Y, and nothing for any other basis |
| PrepFunctions.MeasBasisOpsElsewhere | mlft/helper_functions/prep_functions.py:75 | No operation acts on a qubit outside the paired ones |
| PrepFunctions.MeasGatesRotate | mlft/helper_functions/prep_functions.py:73-80 | The basis change takes the eigenstate labelled `basis + "+"` or `basis + "-"` to the zero or one state. Outcome labels and measurement gates agree |
| TransformFunctions.ConditionIterator | mlft/helper_functions/transform_functions.py:49-62 | The conditions for a known basis. An unknown basis is a ValueError |
| TransformFunctions.ConditionsCount | mlft/helper_functions/transform_functions.py:59-62 | There are exactly `|states|^k * 3^m * 2^m` conditions |
| TransformFunctions.ConditionsAt | mlft/helper_functions/transform_functions.py:59-62 | Position `(i 3^m + j) 2^m + l` holds prep tuple `i`, basis tuple `j` and outcome `l`: prep outermost, outcome innermost |
| TransformFunctions.ConditionsMember | mlft/helper_functions/transform_functions.py:59-61 | Every condition has a length-k prep tuple, a length-m basis tuple over Z, X, Y and an m-bit outcome, and every such triple occurs |
| TransformFunctions.OutcomeLabels | mlft/helper_functions/transform_functions.py:41 | Each (basis, bit) pair maps to `basis + "+"` for 0 and `basis + "-"` for 1, up to the shorter list |
| TransformFunctions.Projectors | mlft/helper_functions/transform_functions.py:42-43 | One projector per label, in order. The first unknown label is a ValueError |
| TransformFunctions.ProjectorsAt | mlft/helper_functions/transform_functions.py:42-43 | Entry `i` is the projector of the state of label `i` |
| TransformFunctions.KronAt | mlft/helper_functions/transform_functions.py:46 | Entry `i |w| + j` of `kron(u, w)` is `u[i] * w[j]` |
| TransformFunctions.KronAllLength | mlft/helper_functions/transform_functions.py:44-45 | Reducing with `kron` over `n` four-entry vectors gives `4^n` entries |
| TransformFunctions.ConditionsToVec | mlft/helper_functions/transform_functions.py:31-46 | A row is built exactly when every prep and outcome label names a state, and then has `4^(k + m)` entries. An unknown label is a ValueError |
| TransformFunctions.ConditionsToVecAt | mlft/helper_functions/transform_functions.py:31-46 | For entry indices `a` of the input projectors and `b` of the output projectors, the row entry at `a` and then `b` read as one base-4 numeral is the conjugate of the product of the chosen input entries times the product of the chosen output entries |
| TransformFunctions.Row | mlft/helper_functions/transform_functions.py:44-46 | The Kronecker product of `k` conjugated and `m` plain four-entry projectors has `4^(k + m)` entries |
| TransformFunctions.InterrogationMatrix | mlft/helper_functions/transform_functions.py:13-29 | One row per condition in `condition_iterator` order, each of length `4^(k + m)`. An unknown basis is a ValueError |
| TransformFunctions.ConditionWellFormed | mlft/helper_functions/transform_functions.py:22-27 | Every enumerated condition has valid prep and outcome labels, so building a row never fails |
| Products.ProductLength | mlft/rebuild_fragments.py:37 | `itertools.product` has as many elements as the product of the option counts |
| Products.ProductAt | mlft/helper_functions/transform_functions.py:59-61 | Lexicographic order: choice `i` first with tail `j` sits at `i * |tails| + j` |
| Products.ProductMember | mlft/rebuild_fragments.py:37 | Every element of the product picks one option per position |
| Products.ProductComplete | mlft/rebuild_fragments.py:37 | Every choice of one option per position occurs in the product |
| Products.BitStringsLength | mlft/tomography.py:106-107 | `product([0, 1], repeat=n)` holds `2^n` strings of `n` bits |
| Products.TriplesAt | mlft/helper_functions/transform_functions.py:59-62 | In the three nested loops, `(as[i], bs[j], cs[l])` sits at `(i |bs| + j) |cs| + l` |
| Containers.FragmentTomographyData.Substrings | mlft/classes/FragmentTomographyData.py:34-36 | Exactly the keys of the data, in order |
| Containers.FragmentTomographyData.ConditionOn | mlft/classes/FragmentTomographyData.py:38-43 | The stored map for the outcome, or KeyError when it is absent |
| Containers.FragmentModel.Substrings | mlft/classes/FragmentModel.py:30-32 | Exactly the keys of the data, in order |
| Containers.FragmentModel.Block | mlft/classes/FragmentModel.py:34-36 | `data[s]`, or KeyError when `s` is absent |
| Containers.FragmentModel.Blocks | mlft/classes/FragmentModel.py:38-40 | The (outcome, tensor) pairs of the data, in order |
| Containers.FragmentModel.NumBlocks | mlft/classes/FragmentModel.py:42-43 | The number of keys |
| Containers.BlocksAgree | mlft/classes/FragmentModel.py:34-40 | With distinct outcomes, every pair `blocks` yields is what `block` returns for its outcome |
| Tomography.SettingsLength | mlft/tomography.py:78-91 | A fragment has `|states|^k * 3^m` prep and measurement settings |
| Tomography.NumVariantsCountsSettings | mlft/tomography.py:27-31 | Counted with the number of prep states, `num_variants` is the number of settings simulated over all fragments |
| Tomography.NumVariantsPositive | mlft/tomography.py:27-31 | With a fragment and a non-empty state list, the count is positive |
| Tomography.FloorDiv | mlft/tomography.py:32 | `a // n` is the floor: `q n <= a < (q + 1) n` |
| Tomography.PerVariantAsWritten | mlft/tomography.py:27-32 | As written (states counted by the basis name's length): None is a TypeError. A zero count is a ZeroDivisionError. Otherwise the result is the floor quotient |
| Tomography.PerVariant | mlft/tomography.py:27-32 | Corrected count: ValueError for an unknown basis with a fragment. TypeError for None. ZeroDivisionError without fragments. Otherwise the floor of repetitions over the settings count |
| Tomography.VariantCountMismatch | mlft/tomography.py:27-32 | One SIC fragment with one input and 3 repetitions: as written the budget is 1 and tomography samples. Corrected it is 0 and tomography is exact |
| Tomography.Shots | mlft/tomography.py:65-68 | A non-zero budget samples with `max(10^4, 2^n)` shots whatever the budget was. None or 0 means exact mode |
| Tomography.SplitJoined | mlft/tomography.py:124-125 | An outcome that begins with `o` splits at `|o|` into `o` and the rest |
| Tomography.RecordAt | mlft/tomography.py:110 | After recording a value it is found again, and every other entry is unchanged |
| Tomography.PrepsRunnable | mlft/tomography.py:78-79 | Every enumerated prep tuple of a known basis can be prepared |
| Tomography.SingleFragmentTomographySpec | mlft/tomography.py:40-149 | Succeeds iff the basis is known, else ValueError. Keeps the fragment and the basis |
| Tomography.SingleFragmentTomographyRecords | mlft/tomography.py:60-129 | The data holds, for an outcome and a condition, what that condition's setting observed (splitting outcomes at the circuit outputs), and nothing for a condition that is no setting |
| Tomography.ExactModeRecordsAll | mlft/tomography.py:78-110 | In exact mode every circuit outcome is recorded with every quantum outcome for every setting. The value is the simulated probability of the concatenated outcome over `circuit_outputs ++ quantum outputs` |
| Tomography.RecordQuantumLoop | mlft/tomography.py:107-110 | The innermost loop computes its specification |
| Tomography.RecordExactLoop | mlft/tomography.py:106-110 | The exact-mode loops compute their specification |
| Tomography.RecordCountsLoop | mlft/tomography.py:123-129 | The sampling loop records counts / shots under the split outcome |
| Tomography.RecordBasesLoop | mlft/tomography.py:91-129 | The loop over measurement bases computes its specification |
| Tomography.SingleFragmentTomography | mlft/tomography.py:40-149 | The method with the source's loops computes the specification function |
| Tomography.FragmentTomography | mlft/tomography.py:21-38 | Uses the budget as written (`len(prep_basis)`, see Findings). Fails with the budget's error when it fails, and otherwise with ValueError iff the basis is unknown. On success it keeps the fragment keys, and each entry is the tomography of that fragment with that budget |
| Build.InterrogationOutcomes | mlft/build_fragments.py:77-80 | The `b` vector: KeyError for an unobserved outcome, ValueError for an unknown basis. Otherwise one entry per condition in order, 0 for a missing one |
| Build.RowsAligned | mlft/build_fragments.py:76-80 | Row `i` of `A` and entry `i` of `b` belong to the same, i-th, condition |
| Build.OutcomesObserved | mlft/build_fragments.py:65-80 | Read back from tomography data, entry `i` of `b` is what condition `i`'s setting observed for the outcome, or 0 |
| Build.CutShape | mlft/build_fragments.py:90 | `(4,) * n` has `n` axes of size 4 |
| Build.BuildConditionalFragmentModel | mlft/build_fragments.py:41-95 | The errors come in the source's order. The tensor has `k + m` axes of size 4, indices the input then the output cut names, and no tag |
| Build.BuildBlocks | mlft/build_fragments.py:34-37 | One block per outcome in order. The first failure is raised |
| Build.BuildSingleFragmentModel | mlft/build_fragments.py:27-38 | Succeeds iff the block of every observed outcome builds, and otherwise raises ValueError. The model has one block per observed outcome, in `substrings` order, with the data's fragment |
| Build.SingleModelIgnoresKeyAndCutoff | mlft/build_fragments.py:27-38 | The model does not depend on the key or the cutoff, and no block has a tag |
| Build.SingleModelBlocks | mlft/build_fragments.py:34-38 | Every outcome of the data has a block, and it is the conditional model for that outcome |
| Build.BuildFragmentModels | mlft/build_fragments.py:13-24 | One model per fragment, under the same keys in the same order |
| MaximumLikelihood.ArgSort | mlft/mlft.py:81 | A permutation of the positions that lists the values in ascending order, with ties in index order |
| MaximumLikelihood.Gather | mlft/mlft.py:82 | `s[idx]` entry by entry |
| MaximumLikelihood.InverseOfPermutation | mlft/mlft.py:89 | `argsort` of a permutation is its inverse |
| MaximumLikelihood.GatherPermutes | mlft/mlft.py:82 | Gathering through a permutation gives the same multiset of values |
| MaximumLikelihood.GatherSum | mlft/mlft.py:82 | Gathering through a permutation keeps the sum |
| MaximumLikelihood.Spread | mlft/mlft.py:86-88 | One step zeroes entry `idx` and adds `val / (n - idx - 1)` to every later entry. Nothing is added at the last entry |
| MaximumLikelihood.Eliminate | mlft/mlft.py:83-88 | The loop from `idx` stops at the first non-negative value. The stop is at least `idx` |
| MaximumLikelihood.EliminateShape | mlft/mlft.py:83-88 | Values before `idx` are kept and values up to the stop are zeroed. Every later value is shifted by one common non-positive amount |
| MaximumLikelihood.EliminateNonNegative | mlft/mlft.py:83-88 | From sorted values, every result value is non-negative |
| MaximumLikelihood.SpreadSum | mlft/mlft.py:86-88 | One step keeps the total, except at the last value, whose value is dropped |
| MaximumLikelihood.SpreadTail | mlft/mlft.py:88 | After one step, the values after `idx` sum to their old sum plus one share each |
| MaximumLikelihood.SharesAddUp | mlft/mlft.py:87-88 | The shares handed out add up to the eliminated value. At the last position nothing is handed out |
| MaximumLikelihood.EliminateSum | mlft/mlft.py:83-88 | With a non-negative total, elimination keeps the total |
| MaximumLikelihood.CorrectedDistribution | mlft/mlft.py:75-92 | Same size as the input |
| MaximumLikelihood.AddToTail | mlft/mlft.py:88 | `sorted[from:] += share` in place, the prefix unchanged |
| MaximumLikelihood.EliminateStep | mlft/mlft.py:86-88 | One loop body on the array is one `Spread` step |
| MaximumLikelihood.CorrectProbabilityDistribution | mlft/mlft.py:75-92 | The method sorts, runs the elimination loop and writes back, computing `CorrectedDistribution` |
| MaximumLikelihood.EliminateInPlace | mlft/mlft.py:83-88 | The in-place loop with its early `break` leaves the sorted values as `Eliminate` says |
| MaximumLikelihood.CorrectedNonNegative | mlft/mlft.py:83-88 | Same size, and every result value is non-negative |
| MaximumLikelihood.CorrectedWriteBack | mlft/mlft.py:89-90 | The value sorted to position `j` comes back at original position `order[j]` |
| MaximumLikelihood.CorrectedShape | mlft/mlft.py:81-90 | The zeroed values are the smallest ones. Every survivor is shifted by one common non-positive amount, so their relative order is kept |
| MaximumLikelihood.CorrectedSum | mlft/mlft.py:83-88 | With a non-negative total, the total (the trace) is kept |
| MaximumLikelihood.CorrectedUnchanged | mlft/mlft.py:84-85 | A distribution without negative values comes back unchanged |
| MaximumLikelihood.CorrectedIdempotent | mlft/mlft.py:75-92 | Correcting twice is correcting once |
| ChoiCorrection.MatrixAxes | mlft/mlft.py:43-47 | Tensor to matrix: row axes are the even axes, column axes the odd ones |
| ChoiCorrection.TensorAxes | mlft/mlft.py:63-67 | Matrix to tensor: row and column axes are interleaved again |
| ChoiCorrection.MoveToMatrix | mlft/mlft.py:43-47 | `moveaxis(range(1, 2n, 2), range(n, 2n))` is the order `MatrixAxes` |
| ChoiCorrection.MoveToTensor | mlft/mlft.py:63-67 | `moveaxis(range(n, 2n), range(1, 2n, 2))` is the order `TensorAxes` |
| ChoiCorrection.AxesInverse | mlft/mlft.py:43-67 | The two axis moves are inverse permutations |
| ChoiCorrection.Transpose | mlft/mlft.py:43-47 | Entry `j` of the transposed data reads the input multi-index through the order. The length is kept |
| ChoiCorrection.TransposeInverse | mlft/mlft.py:43-67 | Transposing by an order and then by its inverse gives the data back |
| ChoiCorrection.ChoiMatrix | mlft/mlft.py:43-47 | The matrix view of a block has the block's size |
| ChoiCorrection.TensorData | mlft/mlft.py:63-67 | The tensor view of a matrix has the matrix's size |
| ChoiCorrection.ChoiRoundTrip | mlft/mlft.py:43-67 | Moving a block into matrix form and back gives its data unchanged, and vice versa |
| ChoiCorrection.BlockSpectrum | mlft/mlft.py:43-50 | ValueError when the block does not have `4^n` entries or the eigenvalue row does not have `2^n` values. Otherwise the spectrum of the block's Choi matrix |
| ChoiCorrection.Spectra | mlft/mlft.py:41-50 | One spectrum per block in block order. The first failure stops the loop |
| ChoiCorrection.Eigenvalues | mlft/mlft.py:49 | The eigenvalue row of every spectrum, in order |
| ChoiCorrection.Rows | mlft/mlft.py:51 | The flat values cut back into rows of width `w` |
| ChoiCorrection.CorrectedEigenvalues | mlft/mlft.py:51 | All blocks' eigenvalues corrected as one distribution, one row per block |
| ChoiCorrection.JointCorrection | mlft/mlft.py:51 | Every corrected eigenvalue is non-negative. The total over all blocks is kept when non-negative. All non-negative eigenvalues are kept as they are |
| ChoiCorrection.BlockTensor | mlft/mlft.py:59-70 | ValueError on a wrong size or index count. Otherwise `4^n` data with the original indices and tags |
| ChoiCorrection.Rebuilt | mlft/mlft.py:55-70 | One rebuilt block per block, in order, under its outcome |
| ChoiCorrection.RebuiltBlocks | mlft/mlft.py:55-70 | With distinct outcomes, block `i` of the result is rebuilt block `i` under the same outcome |
| ChoiCorrection.Paired | mlft/mlft.py:56-57 | Pairs each block's corrected eigenvalue row with its eigenvector matrix, position by position. The two lists have one entry per block, so their lengths are equal |
| ChoiCorrection.Eigenvectors | mlft/mlft.py:56-57 | The eigenvectors of every spectrum, in order |
| ChoiCorrection.CorrectedModel | mlft/mlft.py:30-73 | Errors in the source's order. A model without blocks raises UnboundLocalError. Otherwise the same fragment |
| ChoiCorrection.CorrectedModelSteps | mlft/mlft.py:51-73 | Once the first loop succeeds, the result is the rebuild's error, or UnboundLocalError without blocks, or the model with the rebuilt blocks |
| ChoiCorrection.CorrectedModelBlocks | mlft/mlft.py:55-73 | A block for every outcome, in order. Each keeps its indices and tags, has one 4-sized axis per cut qubit, and is the tensor form of the matrix rebuilt from the jointly corrected eigenvalues |
| ChoiCorrection.Diagonalise | mlft/mlft.py:41-50 | The first loop fills the eigenvalue and eigenvector rows as `Spectra` |
| ChoiCorrection.RebuildBlocks | mlft/mlft.py:55-70 | The second loop fills `corrected_data` as `Rebuilt` |
| ChoiCorrection.CorrectedSingleFragmentModel | mlft/mlft.py:30-73 | The method with the source's loops computes `CorrectedModel` |
| ChoiCorrection.CorrectedFragmentModels | mlft/mlft.py:11-28 | Every model corrected, under its own key. The first failure is raised |
| PostProcess.OwnQubits | mlft/helper_functions/post_process.py:52 | A fragment's qubits that are not its quantum inputs, each once, in cirq's order |
| PostProcess.CircuitQubitsMember | mlft/helper_functions/post_process.py:51-52 | A circuit qubit is a qubit of some fragment that is not one of that fragment's quantum inputs |
| PostProcess.AsMapGet | mlft/helper_functions/post_process.py:53 | With distinct keys, the map built by `update` holds what the dict holds |
| PostProcess.Inverted | mlft/helper_functions/post_process.py:54 | `{cut: qubit}`: the keys are the dict's values |
| PostProcess.InvertedAt | mlft/helper_functions/post_process.py:54 | Looking a cut up in the inverted dict gives a qubit that the dict sends to that cut |
| PostProcess.QubitToCut | mlft/helper_functions/post_process.py:49-53 | The qubit-to-cut map over all fragments' quantum outputs, later fragments winning |
| PostProcess.CutToQubit | mlft/helper_functions/post_process.py:50-54 | The cut-to-qubit map over all fragments' quantum inputs, later fragments winning |
| PostProcess.CollectCuts | mlft/helper_functions/post_process.py:48-54 | The collecting loop computes the circuit qubits and both maps |
| PostProcess.Route | mlft/helper_functions/post_process.py:59-61 | A routed qubit feeds no cut. Otherwise KeyError for a cut without a downstream qubit, or NonTermination |
| PostProcess.RouteReaches | mlft/helper_functions/post_process.py:59-61 | A routed qubit is some number of hops from the start and feeds no cut |
| PostProcess.RouteMoreFuel | mlft/helper_functions/post_process.py:60-61 | A route that ends keeps its end with more fuel |
| PostProcess.OutOfFuelHops | mlft/helper_functions/post_process.py:60-61 | Running out of fuel means every qubit on the way continues through a cut |
| PostProcess.CycleHops | mlft/helper_functions/post_process.py:60-61 | A wire that returns to a qubit it passed cycles forever |
| PostProcess.EndlessRoute | mlft/helper_functions/post_process.py:60-61 | A wire whose every qubit continues never ends, whatever the fuel |
| PostProcess.RouteFuelSuffices | mlft/helper_functions/post_process.py:57-61 | One hop per cut-feeding qubit is enough. Running out of it means the source's `while` never ends |
| PostProcess.FinalQubits | mlft/helper_functions/post_process.py:57-61 | Every circuit qubit routed to the end of its wire. The first failure stops the loop |
| PostProcess.FinalQubitsPrefix | mlft/helper_functions/post_process.py:57-61 | Once a prefix fails, the whole loop fails the same way |
| PostProcess.FinalQubitsErr | mlft/helper_functions/post_process.py:57-61 | A failure before the last qubit is the failure of the whole loop |
| PostProcess.RouteQubit | mlft/helper_functions/post_process.py:59-61 | The `while` loop for one qubit computes `Route` |
| PostProcess.RouteQubits | mlft/helper_functions/post_process.py:57-61 | The routing loop computes `FinalQubits` |
| PostProcess.Order | mlft/helper_functions/post_process.py:64-65 | The given order, or the circuit qubits sorted with duplicates kept |
| PostProcess.FinalOrder | mlft/helper_functions/post_process.py:66 | Each qubit replaced by the end of its wire. An unrouted qubit stays |
| PostProcess.FirstIndex | mlft/helper_functions/post_process.py:73 | `list.index`: the first position, or ValueError |
| PostProcess.BitPermutation | mlft/helper_functions/post_process.py:70-73 | Succeeds iff every final qubit is among the concatenated circuit outputs, else ValueError. Entry `i` is the first position of final qubit `i` |
| PostProcess.Outputs | mlft/helper_functions/post_process.py:70-72 | The circuit outputs of every fragment, in key order |
| PostProcess.OutcomeCombiner | mlft/helper_functions/post_process.py:25-85 | Errors in the source's order: the routing loop's KeyError or NonTermination, then TypeError without fragments, then ValueError. It succeeds iff there are fragments, every wire routes, and every final qubit is some fragment's circuit output. On success it keeps the fragment keys and has one permutation entry per qubit of the order |
| PostProcess.GetOutcomeCombiner | mlft/helper_functions/post_process.py:25-85 | The method with the source's loops computes `OutcomeCombiner` |
| PostProcess.Parts | mlft/helper_functions/post_process.py:81 | The fragments' substrings in key order |
| PostProcess.Combine | mlft/helper_functions/post_process.py:76-83 | KeyError, TypeError or IndexError as the closure raises them. Otherwise bit `i` is the concatenation's bit at `bit_permutation[i]` |
| PostProcess.OutcomeCombinerReads | mlft/helper_functions/post_process.py:66-83 | Bit `i` is read at the first position of the final qubit of `qubit_order[i]`'s wire among the concatenated circuit outputs |
| PostProcess.CombineWellSized | mlft/helper_functions/post_process.py:76-83 | Substrings of the right lengths always combine, into one bit per qubit of the order |
| Rebuild.ModelFragments | mlft/rebuild_fragments.py:24-27 | The fragment of every model under the model's key |
| Rebuild.FirstBlocks | mlft/helper_functions/post_process.py:19-22 | The first block of every model, or StopIteration for a model without blocks |
| Rebuild.Options | mlft/rebuild_fragments.py:33-35 | The substrings of every model, in key order |
| Rebuild.Zipped | mlft/rebuild_fragments.py:40 | `dict(zip(...))` pairs up to the shorter list |
| Rebuild.ZippedAt | mlft/rebuild_fragments.py:40 | With distinct keys, each key gets the value at its own position |
| Rebuild.Tensors | mlft/rebuild_fragments.py:47-50 | `block(substring)` of each model for its chosen substring, in key order |
| Rebuild.Entries | mlft/rebuild_fragments.py:37-57 | One entry per element of the product, in order |
| Rebuild.RecordOk | mlft/rebuild_fragments.py:37-57 | The loop completes iff every iteration has an entry. Otherwise it fails as the first failing one |
| Rebuild.RecordPrefix | mlft/rebuild_fragments.py:37-57 | Once a prefix fails, the whole loop fails the same way |
| Rebuild.LastValueSpec | mlft/rebuild_fragments.py:54-56 | The value stored for an outcome is that of the last iteration with that outcome |
| Rebuild.RecordedValue | mlft/rebuild_fragments.py:54-56 | `recombined_distribution[k]` is the real part of the last contraction combining to `k`, and there is no entry for any other outcome |
| Rebuild.RecordedKeys | mlft/rebuild_fragments.py:54 | The recorded outcomes are distinct and are those of the iterations |
| Rebuild.Recombine | mlft/rebuild_fragments.py:14-59 | Errors come in the source's order: StopIteration when the contraction path fails, then the combiner's own error, then KeyError when no model is keyed `fragment_0`. Success implies all three checks passed |
| Rebuild.ProductChoices | mlft/rebuild_fragments.py:37 | Every element of the product picks one substring per model |
| Rebuild.ChosenTensors | mlft/rebuild_fragments.py:47-50 | The tensors of a product element are the blocks of its chosen substrings, which always exist |
| Rebuild.IterationCount | mlft/rebuild_fragments.py:32-37 | The loop runs once per element of the product of the models' `num_blocks` |
| Rebuild.EveryChoiceVisited | mlft/rebuild_fragments.py:37 | Every choice of one substring per model is visited |
| Rebuild.EntryWellSized | mlft/rebuild_fragments.py:40-50 | A product element whose substrings have the circuit outputs' lengths has an entry |
| Rebuild.RecombineWellSized | mlft/rebuild_fragments.py:37-57 | With well-sized substrings, every combination past the first checks has an entry |
| Rebuild.RecordNext | mlft/rebuild_fragments.py:37-57 | One more entry: a failing one ends the loop with its error, another is stored under its key |
| Rebuild.RecordAll | mlft/rebuild_fragments.py:37-57 | The loop fills the dict entry by entry, as the recording fold |
| Rebuild.RecombineFragmentModels | mlft/rebuild_fragments.py:14-59 | The method with the source's loop computes `Recombine` |
| Evaluator.InitGates | cutqc/evaluator.py:119-154 | Gates for `zero one plus minus plusI minusI`. Any other label raises Exception |
| Evaluator.MeasGates | cutqc/evaluator.py:157-171 | Gates for `I comp X Y`. Any other label raises Exception |
| Evaluator.Instrument | cutqc/evaluator.py:117-171 | Label `i` instruments qubit `i` at the front or back. IndexError past the last qubit |
| Evaluator.InstrumentWires | cutqc/evaluator.py:117-171 | Succeeds iff there is a qubit per label and every label is known. Labelled wires get their label's gates before or after their own operations. Other wires are unchanged |
| Evaluator.InstrumentPrefix | cutqc/evaluator.py:117-171 | Once a prefix fails, the loop fails the same way |
| Evaluator.ModifiedInstanceWires | cutqc/evaluator.py:108-173 | Qubit `i` runs `init[i]`'s gates, its own operations, then `meas[i]`'s gates. It exists iff both label lists fit the qubits and use known labels |
| Evaluator.Front | cutqc/evaluator.py:122-124 | `apply_operation_front` puts the gate first on its wire |
| Evaluator.Back | cutqc/evaluator.py:160-162 | `apply_operation_back` puts the gate last on its wire |
| Evaluator.Initialise | cutqc/evaluator.py:117-154 | The loop over the init labels computes `Instrument` at the front, stopping at the first error |
| Evaluator.InitialiseQubit | cutqc/evaluator.py:119-154 | The front insertions for one label, one gate at a time, put the label's gates before the wire's operations; an unknown label raises |
| Evaluator.Measure | cutqc/evaluator.py:155-171 | The loop over the measurement labels computes `Instrument` at the back, stopping at the first error |
| Evaluator.MeasureQubit | cutqc/evaluator.py:157-171 | The back insertions for one label, one gate at a time, put the label's gates after the wire's operations; an unknown label raises |
| Evaluator.InstrumentNext | cutqc/evaluator.py:117-171 | One more label: IndexError past the last qubit, the label's error, or its gates added to its wire |
| Evaluator.ModifySubcircuitInstance | cutqc/evaluator.py:108-173 | The method with the source's loops computes `ModifiedInstance` |
| Evaluator.BasisOptions | cutqc/evaluator.py:183-187 | Options per position: `I` may be `I` or `Z`. Any other basis is kept |
| Evaluator.SingletonProduct | cutqc/evaluator.py:179-180 | Without `I` the product of the options is `[meas]` |
| Evaluator.MutateIsProduct | cutqc/evaluator.py:179-189 | The shortcut of lines 179-180 agrees with the product |
| Evaluator.MutationsSpec | cutqc/evaluator.py:175-189 | There are `2^(number of I)` bases. Each keeps every non-`I` basis and measures each `I` as `I` or `Z`, and every such basis occurs |
| Evaluator.Binary | cutqc/evaluator.py:198 | `bin(n)[2:]`: no leading zero, and `0` is `[0]` |
| Evaluator.Zfill | cutqc/evaluator.py:198 | Zeros prepended up to the width. A longer string is kept whole |
| Evaluator.ZfillBinary | cutqc/evaluator.py:198 | A state that fits in `w` bits pads to exactly its `w` bits |
| Evaluator.Paired | cutqc/evaluator.py:201 | Bit `k` is paired with basis `|meas| - 1 - k`, up to the shorter list |
| Evaluator.Sign | cutqc/evaluator.py:199-203 | `(-1)^flips` is 1 or -1 |
| Evaluator.EffectiveStateBound | cutqc/evaluator.py:204-206 | The effective state is below `2^(number of comp)`, whatever the full state |
| Evaluator.EffectiveLength | cutqc/evaluator.py:201-205 | The effective bit string has one bit per `comp` basis |
| Evaluator.EffectiveState | cutqc/evaluator.py:204-206 | The `comp` bits read as a number, 0 when there are none, always an index of the measured vector |
| Evaluator.MeasureState | cutqc/evaluator.py:191-208 | The loop computes sigma, `(-1)^` the flips at non-`I`, non-`comp` bases, and the effective state |
| Evaluator.Zeros | cutqc/evaluator.py:214 | `np.zeros(n)` |
| Evaluator.Accumulated | cutqc/evaluator.py:216-218 | `measured_prob` has `2^(number of comp)` entries after any prefix of the states |
| Evaluator.AccumulatedEntries | cutqc/evaluator.py:214-218 | Entry `e` is the sum of `sigma * p` over the full states that map to `e` |
| Evaluator.MeasureProbability | cutqc/evaluator.py:210-219 | The method with the source's loop computes `MeasureProb`: the input unchanged when all bases are `comp` or it is a scalar |
| Evaluator.AddState | cutqc/evaluator.py:217-218 | One iteration adds `sigma * p` at the effective state |
| Evaluator.SignedProduct | cutqc/evaluator.py:218 | For a sign `sigma`, `sigma * p` is `p` or `-p`, which is how the model adds it |
| Jobs.PyMod | helper_functions/non_ibmq_functions.py:57 | Python's `%` takes the divisor's sign and agrees with Euclidean `%` for a positive divisor |
| Jobs.TruncDiv | helper_functions/non_ibmq_functions.py:56 | `int(a / b)` truncates the quotient towards zero |
| Jobs.Slice | helper_functions/non_ibmq_functions.py:64 | Python slicing: `s[a..b]` for in-range bounds, empty from past the end |
| Jobs.ProcessJobs | helper_functions/non_ibmq_functions.py:55-65 | ZeroDivisionError iff there are no workers. Rank `r` gets `len // w` jobs, plus one when `r < len % w` |
| Jobs.BoundsInRange | helper_functions/non_ibmq_functions.py:56-63 | The slice bounds lie within the list, and their difference is the share size |
| Jobs.Contiguous | helper_functions/non_ibmq_functions.py:58-63 | Worker `r + 1` starts where worker `r` stops |
| Jobs.Ends | helper_functions/non_ibmq_functions.py:58-63 | Worker 0 starts at 0, and the last worker stops at the end |
| Jobs.ProcessedPrefix | helper_functions/non_ibmq_functions.py:55-65 | The first `k` workers process exactly the jobs before worker `k`'s start |
| Jobs.AllJobsProcessed | helper_functions/non_ibmq_functions.py:55-65 | Over ranks `0..w-1`, the slices joined in rank order are the job list: disjoint, contiguous, complete |
| Jobs.Balanced | helper_functions/non_ibmq_functions.py:58-63 | Two shares differ by at most one job, and a lower rank never gets fewer |
| Jobs.IdleRank | helper_functions/non_ibmq_functions.py:55-65 | A rank at or beyond the pool size gets no jobs |
| Text.IndexOf | helper_functions/conversion.py:140 | `str.index`: the first occurrence, or ValueError iff there is none |
| Text.StripLeft | helper_functions/conversion.py:141 | Only whitespace is removed from the front, and what is left starts with a non-space |
| Text.StripLeftSuffix | helper_functions/conversion.py:141 | What `lstrip` leaves is a suffix of the text |
| Text.StripRight | helper_functions/conversion.py:141 | A prefix with only whitespace removed, ending with a non-space |
| Text.StripSpaced | helper_functions/conversion.py:141 | Text without surrounding whitespace survives `strip` after leading whitespace |
| Text.Upper | helper_functions/conversion.py:141 | Same length, each letter upper-cased |
| Text.UpperFixed | helper_functions/conversion.py:141 | Text without a lower-case letter is its own upper-case form |
| Text.Split | helper_functions/conversion.py:145 | `str.split` gives at least one piece |
| Text.SplitPieces | helper_functions/conversion.py:145 | No piece contains the separator |
| Text.JoinSplit | helper_functions/conversion.py:149 | Joining the pieces with the separator gives the text back |
| Text.SplitJoin | helper_functions/conversion.py:66-69 | Splitting `", ".join(parts)` at `,` gives the parts, each after the first with a leading blank |
| Text.IntToString | helper_functions/conversion.py:67 | `str(i)` is non-empty, has no surrounding whitespace, and has no comma or parenthesis |
| Text.ParseInt | helper_functions/conversion.py:149 | `int(s)` succeeds iff the stripped text is an optional sign then digits. Otherwise ValueError |
| Text.ParseIntToString | helper_functions/conversion.py:149 | `int(str(i)) == i`, also after leading whitespace |
| Conversion.ParseInts | helper_functions/conversion.py:149 | `tuple(int(x) ...)`: one integer per piece, or the first ValueError |
| Conversion.ParseGate | helper_functions/conversion.py:124-157 | ValueError without `(`. Otherwise only ValueError, NotImplementedError or NameError. On success the name is the stripped, upper-cased text before the first `(` |
| Conversion.ParseGateNames | helper_functions/conversion.py:143-155 | NotImplementedError for a name in neither gate set. A read gate is in one of the sets, and its params are empty iff it is parameter-free. A NameError comes only from a rotation |
| Conversion.GateSetsDisjoint | helper_functions/conversion.py:8-12 | No name is in both gate sets |
| Conversion.ParseArguments | helper_functions/conversion.py:142-153 | Only ValueError, NotImplementedError or NameError. Parameters are evaluated before the qubits are read. A read gate keeps the given name |
| Conversion.ParseArgumentsNames | helper_functions/conversion.py:143-155 | A name in neither gate set is not implemented. Params are empty iff the gate is parameter-free. Only a rotation raises NameError |
| Conversion.Eval | helper_functions/conversion.py:145 | `float(eval(x))`: NameError iff the text names `PI`, `inf` or `nan` while the scope leaves it undefined. Otherwise the text is kept |
| Conversion.EvalAll | helper_functions/conversion.py:145 | Succeeds iff no piece names an undefined name, keeping the pieces. Otherwise NameError |
| Conversion.PiNamed | helper_functions/conversion.py:47-49 | `PI` after a blank or at the start, and before `/`, names `PI`. This makes the text unreadable in a scope without `PI` |
| Conversion.DefinedWithPi | helper_functions/conversion.py:145 | With `PI` defined, text without the letter `n` (so without `inf` or `nan`) evaluates |
| Conversion.ReverseIndex | helper_functions/conversion.py:66-69 | `n - 1 - i` stays in `[0, n)` and undoes itself |
| Conversion.QubitTexts | helper_functions/conversion.py:66-69 | One printed, reversed index per qubit |
| Conversion.Renamed | helper_functions/conversion.py:39-42 | `ID` becomes `I` and `U1` becomes `RZ`. Other names are kept |
| Conversion.Translate | helper_functions/conversion.py:34-70 | MEASURE gives nothing. U2 and U3 give three rotations, or IndexError when a qubit or parameter is missing. Otherwise one gate string |
| Conversion.Translated | helper_functions/conversion.py:33-70 | The instructions' gate strings in circuit order, or the first error |
| Conversion.TranslatedPrefix | helper_functions/conversion.py:33-70 | A failure on a prefix is the failure of the whole circuit |
| Conversion.Positions | helper_functions/conversion.py:71-80 | `qs_position` has distinct keys, and each key maps to the last (occurrence, reversed wire) given for it |
| Conversion.PositionsLookup | helper_functions/conversion.py:71-80 | A recorded position is found under its key with its last occurrence |
| Conversion.QiskitToQusetta | helper_functions/conversion.py:19-81 | The method with the source's loops computes `Translated` and `Positions` |
| Conversion.TranslateInstruction | helper_functions/conversion.py:34-70 | The loop body computes `Translate` for one instruction |
| Conversion.ReadBackInts | helper_functions/conversion.py:149-152 | Printed integers joined by `", "` read back as the same integers |
| Conversion.ParameterFreeRoundTrip | helper_functions/conversion.py:62-70 | A translated parameter-free gate is read back by `gate_info` as the renamed gate on the reversed qubits, with no parameters |
| Conversion.FreeGateText | helper_functions/conversion.py:150-153 | A parameter-free gate with a printed group of integers reads back as that gate on them |
| Conversion.NameShape | helper_functions/conversion.py:140-141 | A known gate name before `(` is found again by `gate_info` |
| Conversion.GateNamesPlain | helper_functions/conversion.py:8-12 | Every known gate name is a non-empty run of capital letters |
| Conversion.RotationRoundTrip | helper_functions/conversion.py:43-60 | The intended reading, with `PI` defined: U2 and U3 with finite printed parameters expand into gates read back as RZ, RX, RZ on the single reversed qubit, each with its printed parameter text |
| Conversion.ExpansionUnreadable | helper_functions/conversion.py:43-60 | As written, `gate_info` raises NameError on the first and last rotation of a U2 or U3 expansion, and also on the middle rotation of a U2 |
| Conversion.ExpansionStops | helper_functions/conversion.py:17-18 | As written, any circuit holding a U2 or U3 is translated into text whose conversion to cirq fails |
| Conversion.UnreadableStops | helper_functions/conversion.py:97-122 | One gate string that `gate_info` cannot read makes the whole conversion fail |
| Conversion.TranslatedOkPrefix | helper_functions/conversion.py:33-70 | A successful translation translates every prefix of the circuit into a prefix of its text |
| Conversion.RotationShape | helper_functions/conversion.py:143-149 | `g(p)(x)` reads back as `g` on qubit `x` with parameter `p`, or NameError exactly when `p` names an undefined name |
| Conversion.RotationArguments | helper_functions/conversion.py:144-149 | The text `p)(x)` reads as parameter `p` and qubit `x`, or NameError exactly when `p` names an undefined name |
| Conversion.Earliest | helper_functions/conversion.py:110 | The insertion moment is within the circuit, no later moment touches the operation's qubits, and the moment before it does |
| Conversion.AppendOp | helper_functions/conversion.py:110 | The operation joins moment `Earliest`, or a new last one. The length grows by at most one |
| Conversion.AppendKeepsValid | helper_functions/conversion.py:110 | Appending keeps each moment's operations on disjoint qubits |
| Conversion.Step | helper_functions/conversion.py:104-121 | One loop pass only extends the cut list. A new cut records the current moment count |
| Conversion.RunNext | helper_functions/conversion.py:103-121 | One more gate string: an unreadable one stops the loop with its error, a readable one is counted and checked for a cut |
| Conversion.ReadGate | helper_functions/conversion.py:104-121 | One pass of the loop computes the loop specification one gate further |
| Conversion.Outcome | helper_functions/conversion.py:122 | The function hands back the circuit and its cuts, or the error that stopped it |
| Conversion.RunError | helper_functions/conversion.py:103-121 | The loop fails only with its own ValueError or with the error of a gate string it read |
| Conversion.Parsed | helper_functions/conversion.py:104 | `gate_info` of each gate string, in order |
| Conversion.RunPrefix | helper_functions/conversion.py:103-121 | Once a prefix fails, the whole loop fails the same way |
| Conversion.Converted | helper_functions/conversion.py:97-122 | Fails only with ValueError, NotImplementedError or NameError |
| Conversion.CountsAgree | helper_functions/conversion.py:111-114 | `gate_occurrence_map` counts the multi-qubit gates per key, and single-qubit gates are never counted |
| Conversion.LastCut | helper_functions/conversion.py:116-121 | A gate adds a cut iff it is multi-qubit, its key has a position, and its count equals the recorded occurrence. The cut records the moment count |
| Conversion.EmitsOnce | helper_functions/conversion.py:112-121 | Two gates that emit cuts have different keys |
| Conversion.RunValid | helper_functions/conversion.py:110 | The built circuit keeps each moment's operations on disjoint qubits |
| Conversion.PositionKeyMatches | helper_functions/conversion.py:76-80 | The key recorded for a multi-qubit gate's position is the key `cirq_from_qusetta` computes when it reads the translated gate back |
| Conversion.CirqFromQusetta | helper_functions/conversion.py:83-122 | The method with the source's loop computes `Converted` |
| Conversion.CountGate | helper_functions/conversion.py:104-121 | The loop body computes one `Step` |

## Findings

| source | as written | input that shows it | evidently intended | confidence | as-written member | corrected member |
|---|---|---|---|---|---|---|
| helper_functions/conversion.py:145 | `eval` runs in a module that imports only cirq, qiskit and typing, so `PI` is undefined. The U2 and U3 expansions (lines 47-49 and 56-58) print `PI/2`, and reading them back raises NameError | a qiskit circuit with one `u2` gate: its first rotation `RZ(… - PI/2)(0)` cannot be read | `PI` is π, as the docstring's example `RX(PI/2)(1)` (line 131) presumes | not executed | Conversion.ExpansionUnreadable, Conversion.ExpansionStops | Conversion.RotationRoundTrip |
| mlft/tomography.py:28 | `len(prep_basis)` counts the characters of the basis name: 3 for "SIC", 5 for "Pauli" | one fragment with one quantum input, basis "SIC", `repetitions=3`: `3 // 3 = 1`, so tomography samples | the number of prep states of the basis (4 and 6), as simulated: `3 // 4 = 0`, so tomography is exact | not executed | Tomography.PerVariantAsWritten, Tomography.VariantCountMismatch, Tomography.FragmentTomography | Tomography.PerVariant |

## Left out

- Floating-point and complex numerics are not modelled.
  - State amplitudes are symbolic products of labelled amplitudes.
  - Probabilities and eigenvalues are Dafny `real`.
  - `eigh`, the eigenvector reconstruction, `lstsq`, the quimb contraction and the cirq simulator
    are function-typed parameters.
- Rebuild.Contract: the contraction path (`get_contraction_path` and the `optimize=` argument) is
  not modelled. The contraction takes only the tensors. Of the path's computation, only the
  StopIteration it raises for a model without blocks is modelled.
- The `ry`/`rz` angle values of the SIC preparations are not modelled. Their action on states is
  modelled only through the gate labels.
- Qiskit's DAG is modelled as one gate list per wire. Gates spanning several wires are not
  instrumented by the evaluator, so only per-wire order is modelled.
- `cirq.Circuit.factorize` is modelled as connected components of qubits, ordered by least qubit.
  Each factor keeps only the operations touching its group. cirq returns the circuit itself when
  there is one component, which keeps zero-qubit operations; the model drops them.
  `batch_replace` is modelled as a per-moment replacement of operations.
- Python sets have no order. `all_qubits() - set(...)` is modelled as a list in cirq's qubit
  order.
- Fragment keys `fragment_i` are modelled by the number `i`, and cut names `cut_i` by `i`.
- The routing `while` loop has no bound. It is modelled with fuel, and `NonTermination` reports
  running out. PostProcess.RouteFuelSuffices shows the fuel given is enough unless the loop never
  ends.
- Python's `Exception(...)` raised by the evaluator is modelled as the error kind
  `RaisedException`.
- `UnboundLocalError` (mlft/mlft.py:72) and `KeyError` (mlft/rebuild_fragments.py:36) come from
  debug `print` calls. They are modelled because they change the outcome. Every other `print` is
  left out.
- Conversion.ParseArguments: `eval` (helper_functions/conversion.py:145) is modelled only by its
  NameError for the names `PI`, `inf` and `nan`.
  - Other expressions, syntax errors and the `float` conversion are not modelled.
  - A parameter that evaluates is kept as its text.
  - A parameter's `str` and `%g` renderings are given as data (`Conversion.Param`).
- ChoiCorrection.MoveAxis: only increasing destination ranges are modelled, which are the only
  ones the source passes.
- Conversion.Step: the gate names and parameter counts that cirq's `getattr` dispatch and gate
  constructors accept (helper_functions/conversion.py:107-110) are not checked. Building a gate
  with the wrong number of qubits is not an error in the model. Neither is cirq's ValueError for
  an operation that names the same qubit twice.
- Conversion.QiskitToQusetta: an absent (`None`) position list is modelled as the empty list.
- Text.ParseInt: Python's `int` also accepts `_` separators and non-ASCII digits, and `strip`
  removes non-ASCII whitespace. Only ASCII text is modelled.
- Text.Upper: only ASCII letters are upper-cased.
- Jobs.TruncDiv: `int(len(jobs) / num_workers)` goes through a float. For lists longer than 2^53
  it can round differently. The model uses the exact quotient.
- Tomography: the simulator's histograms are given as data with the invariant that they hold
  counts. Seeds and randomness are not modelled.
- `get_num_workers`, `run_subcircuit_instances`, `attribute_shots`, `evaluate_circ` and
  `scrambled` are not part of this model. They use the process environment, files, subprocesses
  and randomness.
- The lines of `perform_single_fragment_tomography` that compute `prob_arr` and print are not
  modelled. They only feed `print`.
- Memoisation (`functools.lru_cache`) is not modelled. The modelled functions are pure, so
  repeated calls agree.
