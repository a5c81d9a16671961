# Catcher environment and tabular Q-value model

A Dafny model of two parts of the X reinforcement-learning toolkit:

- **`Catcher`** (`x/environment.py`). A single fruit falls one row per step down a
  `grid_size × grid_size` grid. A three-cell basket on the bottom row moves left,
  stays or moves right. The state is the triple `(fruit_row, fruit_col, basket)`.
  The reward is +1 when the fruit reaches the bottom row within one column of the
  basket, −1 when it reaches the bottom row elsewhere, and 0 otherwise. The episode
  is over exactly when the fruit is on the bottom row. Observations are the rendered
  canvas flattened row-major (`pixels`) or the raw triple (`position`).
- **`TableModel`** (`x/models.py`). A dictionary from observation tuples to
  action-value vectors. `compile` builds it over the Cartesian product of the
  per-dimension values. `update` moves `table[input][action]` towards the batch
  row's target, using values read before the loop, and returns a squared-error loss.

Layout:

- `wrappers.dfy` holds `Option` and `Result`.
- `environment.dfy` (module `Environment`) holds:
  - the pure transition, reward and terminal test on `State`;
  - the canvas as a function;
  - the `Catcher` class. Its `state` field is replaced by `Update` and `Reset`. Its
    `DrawState` method fills a zeroed `array2` in place.
- `models.dfy` (module `Models`) holds:
  - the `TableModel` class, whose `table` field is a `map<seq<int>, seq<real>>`
    reassigned by `Compile` and `Update`;
  - the specification functions `Product`, `Written` and `BroadcastLoss`, with their
    lemmas.

Behaviour as the code has it:

- The constructor stores `output_shape` only when none is passed
  (x/environment.py:72-76). An explicit `output_shape` is therefore dropped, not used
  as an override. A `pixels` observation then fails (Python's AttributeError); the
  model's `MissingOutputShape` stands for this.
- An unrecognised `output_type` makes `observe` fail (UnboundLocalError). The model's
  `UnboundObservation` stands for this.
- Nothing stops `update` after the terminal step. The fruit row then passes
  `grid_size - 1`. From there `is_over` is false again, the reward is 0, and drawing
  the canvas fails with an index error (`FruitOffCanvas`).
- After clamping, the basket ranges over `[1, grid_size - 1]`. At `grid_size - 1`
  numpy clips the basket slice to two cells.
- Action 0 moves left and 1 stays. Every other integer moves right; no action is
  rejected.
- In `TableModel.update`:
  - Before `compile` there is no table, so any call raises (AttributeError), even on
    an empty batch. The model returns `NotCompiled`.
  - A missing key raises before any write. The table is unchanged and the model
    returns `MissingKey`.
  - A missing action or target, or an action outside the row, raises `IndexError`
    at that row. The rows before it have already been written (`IndexOutOfRange`).
  - A negative action indexes from the end of the row, as numpy does.
  - The loss is `((targets - current_values) ** 2).sum()` under numpy broadcasting.
    `targets` has shape `(B,)` and the snapshot has shape `(B, W)`, so column `j`
    pairs `targets[j]`, not `targets[i]`, with `current[i][j]`. Shapes that cannot
    be broadcast fail (`ShapeMismatch`) after all writes.

Inputs the model takes as parameters:

- The two random draws of `reset` (numpy's `randint`) are parameters `n` and `m`.
  Preconditions require `0 <= n < grid_size - 1` and `1 <= m < grid_size - 2`, the
  half-open ranges `randint` draws from.

## Model

| member | source | states |
|---|---|---|
| `Environment.Delta` | x/environment.py:85-90 | the basket delta is in −1..1. It is −1 exactly for action 0 and 0 exactly for action 1, so every other action moves right |
| `Environment.Clamp` | x/environment.py:92 | for grid_size ≥ 2 the clamped basket lies in [1, grid_size−1]. A value already in range is kept; values above clamp to grid_size−1 and values below to 1 |
| `Environment.Step` | x/environment.py:79-98 | the fruit row goes up by exactly 1 and the fruit column is unchanged. The new basket is in [1, grid_size−1], equals old + delta whenever that is in range, and moves by at most one column |
| `Environment.IsOver` | x/environment.py:147-152 | true iff fruit_row == grid_size−1, derived from the state and not stored. No update of a terminal state gives a terminal state |
| `Environment.Canvas` | x/environment.py:100-108 | the g×g image: cell (r, c) is 1 exactly where `Lit` holds (the fruit cell, or the bottom row within one column of the basket) and 0 everywhere else, so the fruit cell is 1 whenever it lies on the grid |
| `Environment.Reward` | x/environment.py:110-118 | the reward is 0 iff the state is not terminal. It is +1 iff terminal and \|fruit_col − basket\| ≤ 1, and −1 iff terminal and further away. So a non-zero reward implies `is_over` |
| `Environment.RunInvariant` | x/environment.py:91-94 | after any sequence of updates, the fruit row has grown by the number of updates. The column is unchanged and the basket stays in [1, grid_size−1] |
| `Environment.EpisodeLength` | x/environment.py:138-152 | a reset state is not terminal. From it, `is_over` holds iff exactly grid_size−1 updates were applied, so it is false again past the bottom. Every other count gives reward 0 |
| `Environment.StayAndCatch` | x/environment.py:132-136 | on a 5×5 grid with fruit and basket in column 2, four "stay" updates give rewards 0, 0, 0 and then +1, ending at (4, 2, 2) with the episode over |
| `Environment.BasketStrip` | x/environment.py:103-108 | with the fruit off the bottom row, the bottom row of the canvas is zeros, then 1,1,1 centred on the basket, then zeros. With the basket at grid_size−1 it is zeros then 1,1 (the clipped slice) |
| `Environment.FlattenAt` | x/environment.py:127 | row-major flattening of equal-width rows puts cell (r, c) at index r·w + c and has length rows·w |
| `Environment.Catcher.constructor` | x/environment.py:68-77 | stores grid size (default 10) and output type (default pixels). Derives output_shape ((g²,) or (3,)) only when none is passed and the type is recognised. Starts at (0, n, m), which is not terminal |
| `Environment.Catcher.Reset` | x/environment.py:138-141 | the new state is (0, n, m) with n, m in the random draws' ranges; the episode is not over |
| `Environment.Catcher.Observe` | x/environment.py:124-130 | position gives the triple. Pixels gives g² values, with cell (r, c) at index r·g + c: 1 at the fruit and on the clipped basket strip, 0 elsewhere. In pixels mode every success is a pixel observation. It fails with `FruitOffCanvas` when the fruit is below the canvas and otherwise with `MissingOutputShape` when no output_shape was stored. An unknown type fails with `UnboundObservation` |
| `Environment.Catcher.DrawState` | x/environment.py:100-108 | fails iff fruit_row ≥ grid_size. Otherwise returns a new g×g array that is 1 at (fruit_row, fruit_col), 1 on the bottom row within one column of the basket, and 0 elsewhere |
| `Environment.Catcher.ObserveImage` | x/environment.py:120-122 | the same rendering as `DrawState`, in a new array equal cell by cell to the canvas function, whatever the output type |
| `Environment.Catcher.Update` | x/environment.py:132-136 | the new state is one `Step` of the old. The result is (observation, reward, is_over), all of the new state, or the observation's failure. The object invariant is kept |
| `Models.ProductMembers` | x/models.py:211 | a tuple is in the Cartesian product iff it has one entry per dimension and entry i is among dimension i's values |
| `Models.TableModel.constructor` | x/models.py:186-196 | records state_dim and num_actions; the table starts empty and the model is not compiled |
| `Models.TableModel.Compile` | x/models.py:198-212 | the key set is exactly the product of `dims`. Every key maps to the initial vector, by default num_actions zeros. lr (default 0.2) is stored and the model is compiled |
| `Models.TableModel.Values` | x/models.py:214-216 | for one observation that is a key, the values are that key's row |
| `Models.TableModel.BatchValues` | x/models.py:217-221 | for a batch of keys, the values are one row per observation, in order |
| `Models.GoodRows` | x/models.py:235-237 | the loop stops at the first row whose action or target is missing or whose action does not index the row. All rows before it are writable |
| `Models.Written` | x/models.py:235-237 | replaying the batch's writes keeps the key set and the length of every row |
| `Models.WrittenEntry` | x/models.py:233-237 | after the writes, slot j of key k holds t[k][j] + lr·(target − t[k][j]) for the last row that hits it. Every slot no row hits is unchanged, so the last write wins and writes do not compound |
| `Models.BroadcastLoss` | x/models.py:239 | the loss exists iff numpy can broadcast targets against the snapshot. It is then ≥ 0, and 0 for an empty batch; otherwise it is `ShapeMismatch` |
| `Models.TableModel.Update` | x/models.py:231-239 | before `compile` it fails with `NotCompiled`, and a missing key fails with `MissingKey`, both with the table unchanged. Otherwise the table is the snapshot-based write of the rows before the first bad row: `IndexOutOfRange` if one exists, else the broadcast loss |
| `Models.TableModel.WriteRows` | x/models.py:235-237 | the loop of `update`: it writes the rows in order from the snapshot and stops at the first row that cannot be written. The new table is `Written` of the old one over exactly the `GoodRows` prefix, and every row keeps its length |
| `Models.TableModel.NumActions` | x/models.py:241-243 | the number of actions given at construction |
| `Models.TableModel.InputShape` | x/models.py:245-247 | a one-axis shape whose extent is state_dim |

## Left out

- `KerasModel` (x/models.py:68-182): a wrapper over Keras symbolic graphs, optimizers and objectives, which are foreign code.
- `policies`, `policy_rule`, `max_values` and `policy`: the `policies` module is not part of this model, and these members only delegate to it. `Compile` does not record the policy rule.
- The abstract bases `Model` and `Enviroment`: they only raise `NotImplementedError`.
- `description` (both classes): display strings with no logic.
- Random numbers: the draws of `reset` are parameters. Numpy's size-1 arrays from `randint` are taken as plain integers.
- Environment.Catcher.constructor: its draws' ranges force grid_size ≥ 4. Smaller grids, where `randint` raises, are not modelled.
- Reshaping: `observe` returns the flattened canvas. A reshape keeps row-major order, so only the leading batch axis and the 4-D layout of `observe_image` are dropped.
- Models.TableModel.Update: values are reals, so float rounding is not modelled. Actions are integers, so `int()` truncation of float actions is not modelled.
- Models.TableModel.Values: the Python method returns the table's own row array, not a copy. The model's rows are values, so the aliasing is not modelled.
- Models.TableModel.BatchValues: this is the intended list of row lookups. Under Python 3, `np.asarray(map(...))` does not give a matrix.
- Models.TableModel.constructor: before `compile` the Python object has no `table`, `lr` or `init_value`. The model gives these fields placeholder values (an empty table, lr 0, an empty initial vector) and a `compiled` flag that is false. `Update` then fails with `NotCompiled`, and `Values` and `BatchValues` require the flag. num_actions is a natural number, because `np.zeros` rejects a negative count.
- Models.TableModel.Compile: the initial vector is a vector of reals. An integer initial vector such as `[0, 0, 0]` makes `np.array` build an integer array. Every later write into it is then truncated to an integer, so for example 0 + 0.2·(1 − 0) is stored as 0. The model does not capture this.
- Environment.Catcher.DrawState: the canvas comes from `np.zeros`, so its cells are the floats 0.0 and 1.0. The model uses an integer array holding 0 and 1.
- `setup.py`: packaging metadata, with no logic.
