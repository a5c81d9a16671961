/**
 * The tabular Q-value store: one action-value vector per observation tuple,
 * trained by moving the chosen action's value towards a target.
 */
module Models {
  import opened Wrappers

  /** What `TableModel.update` can raise. */
  datatype Fault =
    | NotCompiled       // `compile` has not run, so there is no table: AttributeError
    | MissingKey        // an input is not a key of the table: KeyError, before any write
    | IndexOutOfRange   // a batch row's action, or its target, is missing: IndexError
    | ShapeMismatch     // targets and values cannot be broadcast together: ValueError

  /** Observation tuple to action-value vector. */
  type Table = map<seq<int>, seq<real>>

  /** itertools.product: every tuple taking its i-th entry from dims[i]. */
  function Product(dims: seq<seq<int>>): set<seq<int>>
    decreases |dims|
  {
    if |dims| == 0 then {[]}
    else set x, t | x in dims[0] && t in Product(dims[1..]) :: [x] + t
  }

  /** A key of the product is a tuple as long as `dims` whose i-th entry is drawn from dims[i]. */
  predicate InProduct(key: seq<int>, dims: seq<seq<int>>)
  {
    |key| == |dims| && forall i :: 0 <= i < |dims| ==> key[i] in dims[i]
  }

  lemma {:induction false} ProductMembers(dims: seq<seq<int>>, key: seq<int>)
    ensures key in Product(dims) <==> InProduct(key, dims)
    decreases |dims|
  {
    if |dims| > 0 {
      if key in Product(dims) {
        var x, t :| x in dims[0] && t in Product(dims[1..]) && key == [x] + t;
        ProductMembers(dims[1..], t);
        assert forall i :: 1 <= i < |dims| ==> key[i] == t[i - 1];
      }
      if InProduct(key, dims) {
        var x, t := key[0], key[1..];
        assert forall i :: 0 <= i < |t| ==> t[i] == key[i + 1] && dims[1..][i] == dims[i + 1];
        assert InProduct(t, dims[1..]);
        ProductMembers(dims[1..], t);
        assert key == [x] + t;
      }
    }
  }

  function Zeros(n: nat): seq<real>
  {
    seq(n, _ => 0.0)
  }

  /** numpy indexing of a length-w vector: a negative index counts from the end. */
  function Slot(a: int, w: int): int
  {
    if a < 0 then a + w else a
  }

  /**
   * Batch row i can be written: its action and target exist and the action
   * indexes its value vector.
   */
  predicate RowOk(current: seq<seq<real>>, targets: seq<real>, actions: seq<int>, i: nat)
    requires i < |current|
  {
    i < |actions| && i < |targets| && -|current[i]| <= actions[i] < |current[i]|
  }

  /** The first batch row from i on that cannot be written, or the batch size if none. */
  function GoodRows(current: seq<seq<real>>, targets: seq<real>, actions: seq<int>, i: nat): (n: nat)
    requires i <= |current|
    ensures i <= n <= |current|
    ensures forall j :: i <= j < n ==> RowOk(current, targets, actions, j)
    ensures n < |current| ==> !RowOk(current, targets, actions, n)
    decreases |current| - i
  {
    if i == |current| || !RowOk(current, targets, actions, i) then i
    else GoodRows(current, targets, actions, i + 1)
  }

  /** The value row i writes: the snapshot value moved by lr towards the row's target. */
  function Moved(current: seq<seq<real>>, targets: seq<real>, actions: seq<int>, lr: real, i: nat): real
    requires i < |current| && RowOk(current, targets, actions, i)
  {
    var a := Slot(actions[i], |current[i]|);
    current[i][a] + lr * (targets[i] - current[i][a])
  }

  /** Preconditions of replaying the first n rows of a batch on table t. */
  predicate Writable(t: Table, inputs: seq<seq<int>>, current: seq<seq<real>>,
                     targets: seq<real>, actions: seq<int>, n: nat)
  {
    n <= |inputs| == |current| && n <= |actions| && n <= |targets| &&
    forall i :: 0 <= i < n ==>
      inputs[i] in t && |t[inputs[i]]| == |current[i]| && RowOk(current, targets, actions, i)
  }

  /** The table after the loop of `update` has written rows 0 .. n - 1 of the batch. */
  function Written(t: Table, inputs: seq<seq<int>>, current: seq<seq<real>>,
                   targets: seq<real>, actions: seq<int>, lr: real, n: nat): (r: Table)
    requires Writable(t, inputs, current, targets, actions, n)
    ensures r.Keys == t.Keys
    ensures forall k :: k in t ==> |r[k]| == |t[k]|
    decreases n
  {
    if n == 0 then t
    else
      var p := Written(t, inputs, current, targets, actions, lr, n - 1);
      var i := n - 1;
      assert RowOk(current, targets, actions, i);
      var a := Slot(actions[i], |current[i]|);
      p[inputs[i] := p[inputs[i]][a := Moved(current, targets, actions, lr, i)]]
  }

  /** Writing row n of the batch on top of the first n rows. */
  lemma WrittenNext(t: Table, inputs: seq<seq<int>>, current: seq<seq<real>>,
                    targets: seq<real>, actions: seq<int>, lr: real, n: nat,
                    p: Table, a: int, value: real)
    requires Writable(t, inputs, current, targets, actions, n) && n < |inputs|
    requires inputs[n] in t && |t[inputs[n]]| == |current[n]| && RowOk(current, targets, actions, n)
    requires p == Written(t, inputs, current, targets, actions, lr, n)
    requires a == Slot(actions[n], |current[n]|) && value == Moved(current, targets, actions, lr, n)
    ensures Writable(t, inputs, current, targets, actions, n + 1)
    ensures inputs[n] in p && 0 <= a < |p[inputs[n]]|
    ensures Written(t, inputs, current, targets, actions, lr, n + 1) == p[inputs[n] := p[inputs[n]][a := value]]
  {
  }

  /** The loop stops at row n exactly when rows before n are fine and row n is not (or n ends the batch). */
  lemma GoodRowsAt(current: seq<seq<real>>, targets: seq<real>, actions: seq<int>, n: nat)
    requires n <= |current|
    requires forall j :: 0 <= j < n ==> RowOk(current, targets, actions, j)
    requires n < |current| ==> !RowOk(current, targets, actions, n)
    ensures GoodRows(current, targets, actions, 0) == n
  {
  }

  /** Row i of the batch writes slot j of key k. */
  predicate Hits(inputs: seq<seq<int>>, current: seq<seq<real>>, actions: seq<int>,
                 i: nat, k: seq<int>, j: int)
    requires i < |inputs| && i < |current| && i < |actions|
  {
    inputs[i] == k && Slot(actions[i], |current[i]|) == j
  }

  /** The last of the first n batch rows that writes slot j of key k, or -1 when none does. */
  function LastHit(inputs: seq<seq<int>>, current: seq<seq<real>>, actions: seq<int>,
                   n: nat, k: seq<int>, j: int): (h: int)
    requires n <= |inputs| && n <= |current| && n <= |actions|
    ensures -1 <= h < n
    ensures h >= 0 ==> Hits(inputs, current, actions, h, k, j)
    ensures forall i :: h < i < n ==> !Hits(inputs, current, actions, i, k, j)
    decreases n
  {
    if n == 0 then -1
    else if Hits(inputs, current, actions, n - 1, k, j) then n - 1
    else LastHit(inputs, current, actions, n - 1, k, j)
  }

  /**
   * After replaying n rows, slot j of key k holds the value the last row
   * hitting it wrote, computed from the snapshot, or its old value when no
   * row hit it: no other key and no other slot of the same key changes,
   * the last write wins and writes do not compound.
   */
  lemma {:induction false} WrittenEntry(t: Table, inputs: seq<seq<int>>, current: seq<seq<real>>,
                                        targets: seq<real>, actions: seq<int>, lr: real, n: nat,
                                        k: seq<int>, j: int)
    requires Writable(t, inputs, current, targets, actions, n)
    requires forall i :: 0 <= i < |inputs| && inputs[i] in t ==> current[i] == t[inputs[i]]
    requires k in t && 0 <= j < |t[k]|
    ensures var h := LastHit(inputs, current, actions, n, k, j);
      Written(t, inputs, current, targets, actions, lr, n)[k][j] ==
        if h < 0 then t[k][j] else t[k][j] + lr * (targets[h] - t[k][j])
    decreases n
  {
    if n > 0 {
      WrittenEntry(t, inputs, current, targets, actions, lr, n - 1, k, j);
    }
  }

  /** The sum over the first n columns of a row of the squared broadcast differences. */
  function RowSquares(targets: seq<real>, row: seq<real>, n: nat): (s: real)
    requires n <= (if |targets| == 1 then |row| else |targets|)
    requires |row| == 1 || n <= |row|
    ensures s >= 0.0
    decreases n
  {
    if n == 0 then 0.0
    else
      var d := targets[if |targets| == 1 then 0 else n - 1] - row[if |row| == 1 then 0 else n - 1];
      RowSquares(targets, row, n - 1) + d * d
  }

  /** Broadcasting targets (length T) against a B x w matrix is possible. */
  predicate Broadcastable(targets: seq<real>, current: seq<seq<real>>, w: nat)
  {
    if |current| == 0 then |targets| <= 1
    else |targets| == w || |targets| == 1 || w == 1
  }

  /** ((targets - current_values) ** 2).sum() over the first n rows, under numpy broadcasting. */
  function GridSquares(targets: seq<real>, current: seq<seq<real>>, w: nat, n: nat): (s: real)
    requires n <= |current|
    requires forall i :: 0 <= i < |current| ==> |current[i]| == w
    requires |targets| == w || |targets| == 1 || w == 1
    ensures s >= 0.0
    decreases n
  {
    if n == 0 then 0.0
    else GridSquares(targets, current, w, n - 1) +
         RowSquares(targets, current[n - 1], if |targets| == 1 then w else |targets|)
  }

  /**
   * The loss `update` returns: targets has shape (T,), the snapshot shape
   * (B, w) (an empty batch gives shape (0,)); numpy aligns the trailing
   * axes, so column j of row i pairs targets[j] with current[i][j], a
   * length-1 axis being repeated.
   */
  function BroadcastLoss(targets: seq<real>, current: seq<seq<real>>, w: nat): (r: Result<real, Fault>)
    requires forall i :: 0 <= i < |current| ==> |current[i]| == w
    ensures r.Success? <==> Broadcastable(targets, current, w)
    ensures r.Failure? ==> r.error == ShapeMismatch
    ensures r.Success? ==> r.value >= 0.0
    ensures |current| == 0 && r.Success? ==> r.value == 0.0
  {
    if !Broadcastable(targets, current, w) then Failure(ShapeMismatch)
    else if |current| == 0 then Success(0.0)
    else Success(GridSquares(targets, current, w, |current|))
  }

  /** The table of Q-values `TableModel` keeps and trains. */
  class TableModel {
    const stateDim: int
    const nActions: nat
    var table: Table
    var lr: real
    var initValue: seq<real>
    var compiled: bool   // whether `compile` has created table, lr and init_value

    /** Every value vector is a copy of the initial vector, so all have its length. */
    ghost predicate Valid()
      reads this
    {
      (!compiled ==> table == map[]) &&
      forall k :: k in table ==> |table[k]| == |initValue|
    }

    /** `__init__`: records the state dimension and the number of actions; no table yet. */
    constructor (stateDim: int, numActions: nat)
      ensures Valid()
      ensures this.stateDim == stateDim && nActions == numActions
      ensures table == map[] && !compiled
    {
      this.stateDim := stateDim;
      nActions := numActions;
      table := map[];
      lr := 0.0;
      initValue := [];
      compiled := false;
    }

    /** The number of actions given at construction. */
    function NumActions(): (n: nat)
      reads this
      ensures n == nActions
    {
      nActions
    }

    /** The shape of one observation: a single axis of length state_dim. */
    function InputShape(): (shape: seq<int>)
      reads this
      ensures |shape| == 1 && shape[0] == stateDim
    {
      [stateDim]
    }

    /**
     * `compile`: one key per tuple of the product of `dims`, each mapped to
     * the initial vector (num_actions zeros unless one is given).
     */
    method Compile(dims: seq<seq<int>>, lr: real := 0.2, init: Option<seq<real>> := None)
      modifies this`table, this`lr, this`initValue, this`compiled
      ensures Valid() && compiled
      ensures initValue == if init.Some? then init.value else Zeros(nActions)
      ensures forall key :: key in table <==> InProduct(key, dims)
      ensures forall key :: key in table ==> table[key] == initValue
      ensures this.lr == lr
    {
      initValue := if init.Some? then init.value else Zeros(NumActions());
      table := map key | key in Product(dims) :: initValue;
      this.lr := lr;
      compiled := true;
      forall key
        ensures key in table <==> InProduct(key, dims)
      {
        ProductMembers(dims, key);
      }
    }

    /** `values` of one observation: its row of the table. */
    function Values(observation: seq<int>): (v: seq<real>)
      reads this
      requires compiled && observation in table
      ensures v == table[observation]
    {
      table[observation]
    }

    /** `values` of a batch: the row of each observation, in order. */
    function BatchValues(observations: seq<seq<int>>): (vs: seq<seq<real>>)
      reads this
      requires compiled
      requires forall i :: 0 <= i < |observations| ==> observations[i] in table
      ensures |vs| == |observations|
      ensures forall i :: 0 <= i < |observations| ==> vs[i] == table[observations[i]]
    {
      seq(|observations|, i requires 0 <= i < |observations| && observations[i] in table reads this => table[observations[i]])
    }

    /**
     * `update`: for each batch row, moves the chosen action's value of that
     * row's observation towards its target, from values read before the loop;
     * returns the broadcast sum of squared errors against those values.
     */
    method Update(inputs: seq<seq<int>>, targets: seq<real>, actions: seq<int>)
      returns (loss: Result<real, Fault>)
      requires Valid()
      modifies this`table
      ensures Valid()
      ensures !compiled ==> loss == Failure(NotCompiled) && table == old(table)
      ensures compiled && (exists i :: 0 <= i < |inputs| && inputs[i] !in old(table)) ==>
        loss == Failure(MissingKey) && table == old(table)
      ensures compiled && (forall i :: 0 <= i < |inputs| ==> inputs[i] in old(table)) ==>
        var current := old(BatchValues(inputs));
        var n := GoodRows(current, targets, actions, 0);
        Writable(old(table), inputs, current, targets, actions, n) &&
        table == Written(old(table), inputs, current, targets, actions, lr, n) &&
        loss == if n < |inputs| then Failure(IndexOutOfRange) else BroadcastLoss(targets, current, |initValue|)
    {
      if !compiled {
        return Failure(NotCompiled);
      }
      if exists i :: 0 <= i < |inputs| && inputs[i] !in table {
        return Failure(MissingKey);
      }
      var current := BatchValues(inputs);
      var n := WriteRows(inputs, current, targets, actions);
      loss := if n < |inputs| then Failure(IndexOutOfRange) else BroadcastLoss(targets, current, |initValue|);
    }

    /**
     * The loop of `update`: writes rows in order until one cannot be
     * written, and says how many were.
     */
    method WriteRows(inputs: seq<seq<int>>, current: seq<seq<real>>, targets: seq<real>, actions: seq<int>)
      returns (n: nat)
      requires Valid() && compiled
      requires |current| == |inputs|
      requires forall i :: 0 <= i < |inputs| ==> inputs[i] in table && current[i] == table[inputs[i]]
      modifies this`table
      ensures Valid()
      ensures n == GoodRows(current, targets, actions, 0)
      ensures Writable(old(table), inputs, current, targets, actions, n)
      ensures table == Written(old(table), inputs, current, targets, actions, lr, n)
    {
      ghost var t0 := table;
      var rate := lr;
      var i := 0;
      while i < |inputs|
        invariant 0 <= i <= |inputs|
        invariant Writable(t0, inputs, current, targets, actions, i)
        invariant table == Written(t0, inputs, current, targets, actions, rate, i)
      {
        if !RowOk(current, targets, actions, i) {
          GoodRowsAt(current, targets, actions, i);
          return i;
        }
        var a := Slot(actions[i], |current[i]|);
        var value := current[i][a] + rate * (targets[i] - current[i][a]);
        WrittenNext(t0, inputs, current, targets, actions, rate, i, table, a, value);
        table := table[inputs[i] := table[inputs[i]][a := value]];
        i := i + 1;
      }
      GoodRowsAt(current, targets, actions, i);
      n := i;
    }
  }
}
