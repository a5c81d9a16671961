/**
 * The Catcher grid world: a single fruit falls one row per step down a
 * square grid while a three-cell basket on the bottom row moves left,
 * stays or moves right.
 */
module Environment {
  import opened Wrappers

  /** The triple (fruit_row, fruit_col, basket) the environment keeps as its state. */
  datatype State = State(fruitRow: int, fruitCol: int, basket: int)

  /** The encoding `observe` selects: a rendered image, the raw triple, or anything else. */
  datatype OutputType = Pixels | Position | Unrecognised

  datatype Observation =
    | PixelObs(pixels: seq<int>)   // the canvas, flattened row-major
    | PositionObs(triple: State)

  /** What `update`, `observe` and `observe_image` can raise. */
  datatype Fault =
    | FruitOffCanvas        // the fruit row lies below the canvas: numpy IndexError
    | MissingOutputShape    // an explicit output_shape was given, so none was stored
    | UnboundObservation    // output_type is neither 'pixels' nor 'position'

  /** What `update` returns: (observation, reward, is_over). */
  datatype Transition = Transition(observation: Observation, reward: int, over: bool)

  function Abs(x: int): nat { if x < 0 then -x else x }

  /** The basket movement an action stands for: 0 is left, 1 stays, every other value is right. */
  function Delta(action: int): (d: int)
    ensures -1 <= d <= 1
    ensures d == -1 <==> action == 0
    ensures d == 0 <==> action == 1
  {
    if action == 0 then -1 else if action == 1 then 0 else 1
  }

  /** min(max(1, x), g - 1): the basket position after clamping. */
  function Clamp(x: int, g: int): (b: int)
    ensures g >= 2 ==> 1 <= b <= g - 1
    ensures 1 <= x <= g - 1 ==> b == x
    ensures x > g - 1 ==> b == g - 1
    ensures x < 1 && g >= 2 ==> b == 1
  {
    var lo := if 1 < x then x else 1;
    if lo < g - 1 then lo else g - 1
  }

  /** One transition of `_update_state`. */
  function Step(s: State, action: int, g: int): (t: State)
    ensures t.fruitRow == s.fruitRow + 1 && t.fruitCol == s.fruitCol
    ensures g >= 2 ==> 1 <= t.basket <= g - 1
    ensures 1 <= s.basket + Delta(action) <= g - 1 ==> t.basket == s.basket + Delta(action)
    ensures 1 <= s.basket <= g - 1 ==> Abs(t.basket - s.basket) <= 1
  {
    State(s.fruitRow + 1, s.fruitCol, Clamp(s.basket + Delta(action), g))
  }

  /** The episode is over exactly when the fruit is on the bottom row. */
  predicate IsOver(s: State, g: int)
    ensures IsOver(s, g) <==> s.fruitRow == g - 1
    ensures IsOver(s, g) ==> forall action :: Step(s, action, g).fruitRow != g - 1
  {
    s.fruitRow == g - 1
  }

  /** The three-valued sparse reward of a state. */
  function Reward(s: State, g: int): (r: int)
    ensures r == 0 <==> !IsOver(s, g)
    ensures r == 1 <==> IsOver(s, g) && Abs(s.fruitCol - s.basket) <= 1
    ensures r == -1 <==> IsOver(s, g) && Abs(s.fruitCol - s.basket) > 1
  {
    if s.fruitRow == g - 1 then
      if Abs(s.fruitCol - s.basket) <= 1 then 1 else -1
    else
      0
  }

  /** The state after applying `actions` one after another. */
  function Run(s: State, actions: seq<int>, g: int): State
    decreases |actions|
  {
    if |actions| == 0 then s else Run(Step(s, actions[0], g), actions[1..], g)
  }

  /**
   * Cell (r, c) of the canvas is lit when the fruit is there, or when it lies
   * on the bottom row within one column of the basket; cells outside the grid
   * are never asked about, which is numpy's clipping of the basket slice.
   */
  predicate Lit(s: State, g: int, r: int, c: int)
  {
    (r == s.fruitRow && c == s.fruitCol) || (r == g - 1 && s.basket - 1 <= c <= s.basket + 1)
  }

  /** The g x g image `_draw_state` renders, as rows. */
  function Canvas(s: State, g: nat): (rows: seq<seq<int>>)
    ensures |rows| == g && forall r :: 0 <= r < g ==> |rows[r]| == g
    ensures forall r, c :: 0 <= r < g && 0 <= c < g ==> (rows[r][c] == 1 <==> Lit(s, g, r, c))
    ensures forall r, c :: 0 <= r < g && 0 <= c < g ==> (rows[r][c] == 0 <==> !Lit(s, g, r, c))
    ensures 0 <= s.fruitRow < g && 0 <= s.fruitCol < g ==> rows[s.fruitRow][s.fruitCol] == 1
  {
    seq(g, r => seq(g, c => if Lit(s, g, r, c) then 1 else 0))
  }

  /** Row-major concatenation of rows: numpy's reshape of a 2-D canvas to one axis. */
  function Flatten(rows: seq<seq<int>>): seq<int>
  {
    if |rows| == 0 then [] else rows[0] + Flatten(rows[1..])
  }

  /** Where cell (r, c) of a w-column image lands once flattened row-major. */
  function PixelIndex(r: int, c: int, w: int): int
  {
    r * w + c
  }

  function Zeros(n: nat): seq<int>
  {
    seq(n, _ => 0)
  }

  /** The shape the constructor derives when no explicit output_shape is passed. */
  function DerivedShape(t: OutputType, g: int): Option<seq<int>>
  {
    match t
    case Pixels => Some([g * g])
    case Position => Some([3])
    case Unrecognised => None
  }

  lemma {:induction false} FlattenAt(rows: seq<seq<int>>, w: nat, r: nat, c: nat)
    requires forall i :: 0 <= i < |rows| ==> |rows[i]| == w
    requires r < |rows| && c < w
    ensures |Flatten(rows)| == |rows| * w
    ensures PixelIndex(r, c, w) < |rows| * w
    ensures Flatten(rows)[PixelIndex(r, c, w)] == rows[r][c]
  {
    FlattenLength(rows, w);
    if r == 0 {
    } else {
      FlattenAt(rows[1..], w, r - 1, c);
      assert PixelIndex(r, c, w) == w + PixelIndex(r - 1, c, w);
    }
  }

  lemma {:induction false} FlattenLength(rows: seq<seq<int>>, w: nat)
    requires forall i :: 0 <= i < |rows| ==> |rows[i]| == w
    ensures |Flatten(rows)| == |rows| * w
  {
    if |rows| > 0 {
      FlattenLength(rows[1..], w);
    }
  }

  /** The canvas with the fruit off the bottom row: its bottom row is the basket strip alone. */
  lemma BasketStrip(s: State, g: nat)
    requires 1 <= s.basket <= g - 1 && s.fruitRow != g - 1
    ensures s.basket <= g - 2 ==>
      Canvas(s, g)[g - 1] == Zeros(s.basket - 1) + [1, 1, 1] + Zeros(g - s.basket - 2)
    ensures s.basket == g - 1 ==> Canvas(s, g)[g - 1] == Zeros(g - 2) + [1, 1]
  {
    var row := Canvas(s, g)[g - 1];
    if s.basket <= g - 2 {
      var want := Zeros(s.basket - 1) + [1, 1, 1] + Zeros(g - s.basket - 2);
      assert forall c :: 0 <= c < g ==> row[c] == want[c];
    } else {
      var want := Zeros(g - 2) + [1, 1];
      assert forall c :: 0 <= c < g ==> row[c] == want[c];
    }
  }

  /** Every step moves the fruit down one row and leaves its column and the basket range alone. */
  lemma {:induction false} RunInvariant(s: State, actions: seq<int>, g: int)
    requires g >= 2 && 1 <= s.basket <= g - 1
    ensures Run(s, actions, g).fruitRow == s.fruitRow + |actions|
    ensures Run(s, actions, g).fruitCol == s.fruitCol
    ensures 1 <= Run(s, actions, g).basket <= g - 1
    decreases |actions|
  {
    if |actions| > 0 {
      RunInvariant(Step(s, actions[0], g), actions[1..], g);
    }
  }

  /**
   * From a state `reset` can produce, the episode is over after exactly
   * g - 1 updates, not before, and (since nothing stops further updates)
   * no longer afterwards.
   */
  lemma EpisodeLength(g: int, n: int, m: int, actions: seq<int>)
    requires 0 <= n < g - 1 && 1 <= m < g - 2
    ensures !IsOver(State(0, n, m), g)
    ensures IsOver(Run(State(0, n, m), actions, g), g) <==> |actions| == g - 1
    ensures |actions| != g - 1 ==> Reward(Run(State(0, n, m), actions, g), g) == 0
  {
    RunInvariant(State(0, n, m), actions, g);
  }

  /**
   * On a 5 x 5 grid, fruit in column 2 and basket in column 2: four "stay"
   * actions bring the fruit to the bottom row, the first three with reward 0
   * and the fourth with reward +1 and the episode over.
   */
  lemma StayAndCatch()
    ensures var s := State(0, 2, 2);
      Reward(Run(s, [1], 5), 5) == 0 && Reward(Run(s, [1, 1], 5), 5) == 0 &&
      Reward(Run(s, [1, 1, 1], 5), 5) == 0 && !IsOver(Run(s, [1, 1, 1], 5), 5) &&
      Run(s, [1, 1, 1, 1], 5) == State(4, 2, 2) &&
      Reward(Run(s, [1, 1, 1, 1], 5), 5) == 1 && IsOver(Run(s, [1, 1, 1, 1], 5), 5)
  {
  }

  /** The objects `Catcher` creates: a grid size, an observation encoding and the current state. */
  class Catcher {
    const gridSize: int
    const outputType: OutputType
    const outputShape: Option<seq<int>>
    var state: State

    /** The object invariant: the state lies where `reset` and `update` can put it. */
    ghost predicate Valid()
      reads this
    {
      gridSize >= 4 &&
      0 <= state.fruitRow &&
      0 <= state.fruitCol <= gridSize - 2 &&
      1 <= state.basket <= gridSize - 1 &&
      (outputShape.Some? ==> outputShape == DerivedShape(outputType, gridSize))
    }

    /**
     * `__init__` followed by `reset`; n and m are the two random draws,
     * from [0, gridSize - 1) and [1, gridSize - 2). The other parameters
     * default as in the source: a 10 x 10 grid, no explicit shape, pixels.
     */
    constructor (n: int, m: int, gridSize: int := 10, outputShape: Option<seq<int>> := None,
                 outputType: OutputType := Pixels)
      requires 0 <= n < gridSize - 1 && 1 <= m < gridSize - 2
      ensures Valid()
      ensures this.gridSize == gridSize && this.outputType == outputType
      ensures this.outputShape == (if outputShape.None? then DerivedShape(outputType, gridSize) else None)
      ensures state == State(0, n, m) && !IsOver(state, gridSize)
    {
      this.gridSize := gridSize;
      this.outputType := outputType;
      this.outputShape := if outputShape.None? then DerivedShape(outputType, gridSize) else None;
      state := State(0, n, m);
    }

    /** A fresh episode: the fruit at the top, column n, basket at m (the random draws). */
    method Reset(n: int, m: int)
      requires Valid()
      requires 0 <= n < gridSize - 1 && 1 <= m < gridSize - 2
      modifies this`state
      ensures Valid()
      ensures state == State(0, n, m) && !IsOver(state, gridSize)
    {
      state := State(0, n, m);
    }

    /** The observation of the current state in the configured encoding. */
    function Observe(): (o: Result<Observation, Fault>)
      reads this
      requires Valid()
      ensures outputType == Position ==> o == Success(PositionObs(state))
      ensures outputType == Unrecognised ==> o == Failure(UnboundObservation)
      ensures outputType == Pixels && state.fruitRow >= gridSize ==> o == Failure(FruitOffCanvas)
      ensures outputType == Pixels ==> (o.Success? <==> state.fruitRow < gridSize && outputShape.Some?)
      ensures outputType == Pixels && state.fruitRow < gridSize && outputShape.None? ==>
        o == Failure(MissingOutputShape)
      ensures outputType == Pixels && o.Success? ==> o.value.PixelObs?
      ensures o.Success? && o.value.PixelObs? ==>
        |o.value.pixels| == gridSize * gridSize &&
        forall r, c :: 0 <= r < gridSize && 0 <= c < gridSize ==>
          PixelIndex(r, c, gridSize) < |o.value.pixels| &&
          o.value.pixels[PixelIndex(r, c, gridSize)] == if Lit(state, gridSize, r, c) then 1 else 0
    {
      match outputType
      case Position => Success(PositionObs(state))
      case Unrecognised => Failure(UnboundObservation)
      case Pixels =>
        if state.fruitRow >= gridSize then Failure(FruitOffCanvas)
        else if outputShape.None? then Failure(MissingOutputShape)
        else
          var canvas := Canvas(state, gridSize);
          FlattenCanvas(canvas, gridSize);
          Success(PixelObs(Flatten(canvas)))
    }

    /** `_draw_state`: a zeroed canvas with the fruit cell and the basket strip set to 1. */
    method DrawState() returns (image: Result<array2<int>, Fault>)
      requires Valid()
      ensures image.Success? <==> state.fruitRow < gridSize
      ensures image.Failure? ==> image.error == FruitOffCanvas
      ensures image.Success? ==> fresh(image.value)
      ensures image.Success? ==>
        image.value.Length0 == gridSize && image.value.Length1 == gridSize &&
        forall r, c :: 0 <= r < gridSize && 0 <= c < gridSize ==>
          image.value[r, c] == if Lit(state, gridSize, r, c) then 1 else 0
    {
      var g := gridSize;
      if state.fruitRow >= g {
        return Failure(FruitOffCanvas);
      }
      var canvas := new int[g, g]((r, c) => 0);
      canvas[state.fruitRow, state.fruitCol] := 1;
      // the slice basket - 1 : basket + 2, clipped to the grid
      var col := state.basket - 1;
      var stop := if state.basket + 2 < g then state.basket + 2 else g;
      while col < stop
        invariant state.basket - 1 <= col <= stop
        invariant forall r, c :: 0 <= r < g && 0 <= c < g ==>
          canvas[r, c] == if (r == state.fruitRow && c == state.fruitCol) ||
                             (r == g - 1 && state.basket - 1 <= c < col) then 1 else 0
      {
        canvas[g - 1, col] := 1;
        col := col + 1;
      }
      return Success(canvas);
    }

    /** `observe_image`: the rendered canvas whatever the configured encoding. */
    method ObserveImage() returns (image: Result<array2<int>, Fault>)
      requires Valid()
      ensures image.Success? <==> state.fruitRow < gridSize
      ensures image.Failure? ==> image.error == FruitOffCanvas
      ensures image.Success? ==> fresh(image.value)
      ensures image.Success? ==>
        image.value.Length0 == gridSize && image.value.Length1 == gridSize &&
        forall r, c :: 0 <= r < gridSize && 0 <= c < gridSize ==>
          image.value[r, c] == Canvas(state, gridSize)[r][c]
    {
      image := DrawState();
    }

    /** One time step: move basket and fruit, then report the new state's observation, reward and end flag. */
    method Update(action: int) returns (result: Result<Transition, Fault>)
      requires Valid()
      modifies this`state
      ensures Valid()
      ensures state == Step(old(state), action, gridSize)
      ensures Observe().Failure? ==> result == Failure(Observe().error)
      ensures Observe().Success? ==>
        result == Success(Transition(Observe().value, Reward(state, gridSize), IsOver(state, gridSize)))
    {
      state := Step(state, action, gridSize);
      var reward := Reward(state, gridSize);
      var over := IsOver(state, gridSize);
      var observation := Observe();
      match observation
      case Success(o) => result := Success(Transition(o, reward, over));
      case Failure(e) => result := Failure(e);
    }
  }

  lemma FlattenCanvas(canvas: seq<seq<int>>, g: nat)
    requires |canvas| == g && forall r :: 0 <= r < g ==> |canvas[r]| == g
    ensures |Flatten(canvas)| == g * g
    ensures forall r, c :: 0 <= r < g && 0 <= c < g ==>
      PixelIndex(r, c, g) < |Flatten(canvas)| && Flatten(canvas)[PixelIndex(r, c, g)] == canvas[r][c]
  {
    FlattenLength(canvas, g);
    forall r, c | 0 <= r < g && 0 <= c < g
      ensures PixelIndex(r, c, g) < |Flatten(canvas)| && Flatten(canvas)[PixelIndex(r, c, g)] == canvas[r][c]
    {
      FlattenAt(canvas, g, r, c);
    }
  }
}
