/** The game logic of Lights Out on values: the grid of buttons, the toggle
    rule, the win predicate, and the facts that make a puzzle generated by
    "walking backwards" from the all-off board solvable. */
module Board {

  /** Position of a button: `x` is the column, `y` the row. */
  datatype Coordinates = Coordinates(x: nat, y: nat)

  /** One button of the board. */
  datatype Button = Button(coordinates: Coordinates, isLightOn: bool)

  /** The board's dimensions (`numButtons`): `x` columns and `y` rows. */
  datatype Size = Size(x: nat, y: nat)

  /** A toggle centred at row `i`, column `j`. */
  datatype Move = Move(i: nat, j: nat)

  /** The rows of buttons; `g[i][j]` is row `i`, column `j`. */
  type Grid = seq<seq<Button>>

  /** `g` has `n.y` rows of `n.x` buttons each. */
  predicate IsGrid(g: Grid, n: Size)
  {
    |g| == n.y && forall r :: 0 <= r < |g| ==> |g[r]| == n.x
  }

  /** Every button carries its own position: `g[i][j]` is at `x = j`, `y = i`. */
  predicate Coordinated(g: Grid)
  {
    forall r, c :: 0 <= r < |g| && 0 <= c < |g[r]| ==> g[r][c].coordinates == Coordinates(c, r)
  }

  predicate ValidMove(n: Size, m: Move)
  {
    m.i < n.y && m.j < n.x
  }

  predicate ValidMoves(n: Size, ms: seq<Move>)
  {
    forall k :: 0 <= k < |ms| ==> ValidMove(n, ms[k])
  }

  /** The win condition: no light anywhere on the board. */
  ghost predicate NoLightOn(g: Grid)
  {
    forall r, c :: 0 <= r < |g| && 0 <= c < |g[r]| ==> !g[r][c].isLightOn
  }

  function Abs(k: int): nat
  {
    if k < 0 then -k else k
  }

  /** Row `r`, column `c` is the centre of move `m` or one of its four
      orthogonal neighbours: Manhattan distance at most one. */
  predicate Near(m: Move, r: int, c: int)
  {
    Abs(r - m.i) + Abs(c - m.j) <= 1
  }

  /** Near means the centre or one of the four neighbours. */
  lemma NearIsCross(m: Move, r: int, c: int)
    ensures Near(m, r, c) <==>
      (r == m.i && c == m.j) || (r == m.i - 1 && c == m.j) || (r == m.i + 1 && c == m.j) ||
      (r == m.i && c == m.j - 1) || (r == m.i && c == m.j + 1)
  {
  }

  /** Row `i` of the board the constructor builds. */
  function OffRow(cols: nat, i: nat): seq<Button>
  {
    seq(cols, j requires 0 <= j => Button(Coordinates(j, i), false))
  }

  /** The board the constructor builds: every light off, every button at
      its own position. */
  function AllOff(n: Size): (g: Grid)
    ensures IsGrid(g, n) && Coordinated(g) && AreLightsOut(g)
  {
    seq(n.y, i requires 0 <= i => OffRow(n.x, i))
  }

  /** `any` over one row: some button of `row` is lit. */
  function AnyLightOn(row: seq<Button>): (b: bool)
    ensures b <==> exists k :: 0 <= k < |row| && row[k].isLightOn
  {
    if row == [] then false
    else row[0].isLightOn || AnyLightOn(row[1..])
  }

  /** The outer `any`: some row of `g` has a lit button. */
  function AnyRowLit(g: Grid): (b: bool)
    ensures b <==> exists r, c :: 0 <= r < |g| && 0 <= c < |g[r]| && g[r][c].isLightOn
  {
    if g == [] then false
    else
      var rest := AnyRowLit(g[1..]);
      assert rest <==> exists r, c :: 1 <= r < |g| && 0 <= c < |g[r]| && g[r][c].isLightOn by {
        if rest {
          var r, c :| 0 <= r < |g[1..]| && 0 <= c < |g[1..][r]| && g[1..][r][c].isLightOn;
          assert g[r + 1][c].isLightOn;
        }
        if exists r, c :: 1 <= r < |g| && 0 <= c < |g[r]| && g[r][c].isLightOn {
          var r, c :| 1 <= r < |g| && 0 <= c < |g[r]| && g[r][c].isLightOn;
          assert g[1..][r - 1][c].isLightOn;
        }
      }
      AnyLightOn(g[0]) || rest
  }

  /** `areLightsOut`: the board is solved exactly when no light is on. */
  function AreLightsOut(g: Grid): (solved: bool)
    ensures solved <==> NoLightOn(g)
  {
    !AnyRowLit(g)
  }

  /** `toggleLight`: flip one button, keeping its position. */
  function ToggleLight(b: Button): (t: Button)
    ensures t.coordinates == b.coordinates && t.isLightOn == !b.isLightOn
  {
    b.(isLightOn := !b.isLightOn)
  }

  /** The board after a toggle centred at `m`: the light of every button
      near `m` is flipped; nothing else changes. No neighbour wraps around,
      because the board only has the rows and columns of `n`. */
  function Toggled(g: Grid, n: Size, m: Move): (t: Grid)
    requires IsGrid(g, n) && ValidMove(n, m)
    ensures IsGrid(t, n)
    ensures forall r, c :: 0 <= r < n.y && 0 <= c < n.x ==>
      t[r][c].coordinates == g[r][c].coordinates &&
      (t[r][c].isLightOn <==> (g[r][c].isLightOn != Near(m, r, c)))
  {
    seq(n.y, r requires 0 <= r < n.y =>
      seq(n.x, c requires 0 <= c < n.x =>
        if Near(m, r, c) then ToggleLight(g[r][c]) else g[r][c]))
  }

  /** `toggleLight` on the button at row `r`, column `c`. */
  function ToggleLightAt(g: Grid, n: Size, r: nat, c: nat): (t: Grid)
    requires IsGrid(g, n) && r < n.y && c < n.x
    ensures IsGrid(t, n)
    ensures forall r', c' :: 0 <= r' < n.y && 0 <= c' < n.x ==>
      t[r'][c'] == (if r' == r && c' == c then ToggleLight(g[r][c]) else g[r'][c'])
  {
    g[r := g[r][c := ToggleLight(g[r][c])]]
  }

  /** The five steps of `toggleLights` on a copy `g0` of the board: first
      the centre, then top, bottom, left and right where they lie on the
      board. */
  ghost predicate ToggleSteps(g0: Grid, g1: Grid, g2: Grid, g3: Grid, g4: Grid, g5: Grid, n: Size, m: Move): (b: bool)
    ensures b ==> (IsGrid(g0, n) && IsGrid(g5, n) &&
      forall r, c :: 0 <= r < n.y && 0 <= c < n.x ==> g5[r][c].coordinates == g0[r][c].coordinates)
  {
    IsGrid(g0, n) && ValidMove(n, m) &&
    g1 == ToggleLightAt(g0, n, m.i, m.j) &&
    g2 == (if m.i > 0 then ToggleLightAt(g1, n, m.i - 1, m.j) else g1) &&
    g3 == (if m.i < n.y - 1 then ToggleLightAt(g2, n, m.i + 1, m.j) else g2) &&
    g4 == (if m.j > 0 then ToggleLightAt(g3, n, m.i, m.j - 1) else g3) &&
    g5 == (if m.j < n.x - 1 then ToggleLightAt(g4, n, m.i, m.j + 1) else g4)
  }

  /** One button after the five steps: flipped exactly when it is near `m`. */
  lemma ToggleStepsAt(g0: Grid, g1: Grid, g2: Grid, g3: Grid, g4: Grid, g5: Grid, n: Size, m: Move, r: nat, c: nat)
    requires ToggleSteps(g0, g1, g2, g3, g4, g5, n, m) && r < n.y && c < n.x
    ensures IsGrid(g5, n)
    ensures g5[r][c].coordinates == g0[r][c].coordinates
    ensures g5[r][c].isLightOn == (g0[r][c].isLightOn != Near(m, r, c))
  {
    NearIsCross(m, r, c);
  }

  /** The five steps produce the toggle at `m`. */
  lemma ToggleStepsAreToggled(g0: Grid, g1: Grid, g2: Grid, g3: Grid, g4: Grid, g5: Grid, n: Size, m: Move)
    requires ToggleSteps(g0, g1, g2, g3, g4, g5, n, m)
    ensures g5 == Toggled(g0, n, m)
  {
    forall r: nat, c: nat | r < n.y && c < n.x
      ensures g5[r][c].coordinates == g0[r][c].coordinates
      ensures g5[r][c].isLightOn == (g0[r][c].isLightOn != Near(m, r, c))
    {
      ToggleStepsAt(g0, g1, g2, g3, g4, g5, n, m, r, c);
    }
    ToggleStepsAt(g0, g1, g2, g3, g4, g5, n, m, 0, 0);
    GridExt(g5, Toggled(g0, n, m), n);
  }

  /** Two grids of the same size that agree on every button are equal. */
  lemma {:induction false} GridExt(g: Grid, h: Grid, n: Size)
    requires IsGrid(g, n) && IsGrid(h, n)
    requires forall r, c :: 0 <= r < n.y && 0 <= c < n.x ==>
      g[r][c].coordinates == h[r][c].coordinates && g[r][c].isLightOn == h[r][c].isLightOn
    ensures g == h
  {
    forall r | 0 <= r < n.y
      ensures g[r] == h[r]
    {
      forall c | 0 <= c < n.x
        ensures g[r][c] == h[r][c]
      {
        assert g[r][c] == Button(g[r][c].coordinates, g[r][c].isLightOn);
      }
    }
  }

  /** Toggling at the same place twice restores the board. */
  lemma ToggledTwice(g: Grid, n: Size, m: Move)
    requires IsGrid(g, n) && ValidMove(n, m)
    ensures Toggled(Toggled(g, n, m), n, m) == g
  {
    GridExt(Toggled(Toggled(g, n, m), n, m), g, n);
  }

  /** Toggles at any two places commute. */
  lemma ToggledCommute(g: Grid, n: Size, m1: Move, m2: Move)
    requires IsGrid(g, n) && ValidMove(n, m1) && ValidMove(n, m2)
    ensures Toggled(Toggled(g, n, m1), n, m2) == Toggled(Toggled(g, n, m2), n, m1)
  {
    GridExt(Toggled(Toggled(g, n, m1), n, m2), Toggled(Toggled(g, n, m2), n, m1), n);
  }

  /** The board after the toggles `ms`, applied from first to last. */
  function ApplyMoves(g: Grid, n: Size, ms: seq<Move>): (t: Grid)
    requires IsGrid(g, n) && ValidMoves(n, ms)
    ensures IsGrid(t, n)
    ensures forall r, c :: 0 <= r < n.y && 0 <= c < n.x ==> t[r][c].coordinates == g[r][c].coordinates
    decreases |ms|
  {
    if ms == [] then g
    else Toggled(ApplyMoves(g, n, ms[..|ms| - 1]), n, ms[|ms| - 1])
  }

  lemma {:induction false} ApplyMovesConcat(g: Grid, n: Size, s: seq<Move>, u: seq<Move>)
    requires IsGrid(g, n) && ValidMoves(n, s) && ValidMoves(n, u)
    ensures ValidMoves(n, s + u)
    ensures ApplyMoves(g, n, s + u) == ApplyMoves(ApplyMoves(g, n, s), n, u)
    decreases |u|
  {
    if u != [] {
      var p := u[..|u| - 1];
      assert (s + u)[..|s + u| - 1] == s + p;
      ApplyMovesConcat(g, n, s, p);
    } else {
      assert s + u == s;
    }
  }

  /** A toggle made first can be moved to the end of any sequence of toggles. */
  lemma {:induction false} ToggledPastMoves(g: Grid, n: Size, m: Move, ms: seq<Move>)
    requires IsGrid(g, n) && ValidMove(n, m) && ValidMoves(n, ms)
    ensures ApplyMoves(Toggled(g, n, m), n, ms) == Toggled(ApplyMoves(g, n, ms), n, m)
    decreases |ms|
  {
    if ms != [] {
      var p, y := ms[..|ms| - 1], ms[|ms| - 1];
      ToggledPastMoves(g, n, m, p);
      ToggledCommute(ApplyMoves(g, n, p), n, m, y);
    }
  }

  /** Replaying the toggles of a sequence undoes the sequence. */
  lemma {:induction false} ApplyMovesTwice(g: Grid, n: Size, ms: seq<Move>)
    requires IsGrid(g, n) && ValidMoves(n, ms)
    ensures ApplyMoves(ApplyMoves(g, n, ms), n, ms) == g
    decreases |ms|
  {
    if ms != [] {
      var p, y := ms[..|ms| - 1], ms[|ms| - 1];
      var b := ApplyMoves(g, n, p);
      ToggledTwice(b, n, y);
      ToggledPastMoves(b, n, y, p);
      ToggledTwice(ApplyMoves(b, n, p), n, y);
      ApplyMovesTwice(g, n, p);
    }
  }

  /** A toggle in the middle of a sequence can be moved to its end. */
  lemma ToggledToEnd(g: Grid, n: Size, a: seq<Move>, y: Move, b: seq<Move>)
    requires IsGrid(g, n) && ValidMoves(n, a) && ValidMove(n, y) && ValidMoves(n, b)
    ensures ValidMoves(n, a + [y] + b) && ValidMoves(n, a + b)
    ensures ApplyMoves(g, n, a + [y] + b) == Toggled(ApplyMoves(g, n, a + b), n, y)
  {
    ApplyMovesConcat(g, n, a + [y], b);
    ApplyMovesConcat(g, n, a, b);
    assert (a + [y])[..|a + [y]| - 1] == a;
    ToggledPastMoves(ApplyMoves(g, n, a), n, y, b);
  }

  /** Where the last element of `ms` sits in a permutation `ms'` of it. */
  lemma SplitPermutation(ms: seq<Move>, ms': seq<Move>) returns (a: seq<Move>, b: seq<Move>)
    requires ms != [] && multiset(ms) == multiset(ms')
    ensures ms' == a + [ms[|ms| - 1]] + b
    ensures multiset(ms[..|ms| - 1]) == multiset(a + b)
  {
    var p, y := ms[..|ms| - 1], ms[|ms| - 1];
    assert ms == p + [y];
    assert y in multiset(ms');
    var k :| 0 <= k < |ms'| && ms'[k] == y;
    a, b := ms'[..k], ms'[k + 1..];
    assert ms' == a + [y] + b;
    calc {
      multiset(p);
      multiset(p + [y]) - multiset{y};
      multiset(a + [y] + b) - multiset{y};
      multiset(a) + multiset{y} + multiset(b) - multiset{y};
      multiset(a) + multiset(b);
      multiset(a + b);
    }
  }

  /** The order of the toggles does not matter: only which toggles, and how
      often each, are made. */
  lemma {:induction false} ApplyMovesPermutation(g: Grid, n: Size, ms: seq<Move>, ms': seq<Move>)
    requires IsGrid(g, n) && ValidMoves(n, ms) && ValidMoves(n, ms')
    requires multiset(ms) == multiset(ms')
    ensures ApplyMoves(g, n, ms) == ApplyMoves(g, n, ms')
    decreases |ms|
  {
    if ms == [] {
      assert |ms'| == |multiset(ms')| == 0;
    } else {
      var p, y := ms[..|ms| - 1], ms[|ms| - 1];
      var a, b := SplitPermutation(ms, ms');
      assert ValidMoves(n, a) && ValidMoves(n, b) by {
        assert forall k :: 0 <= k < |a| ==> a[k] == ms'[k];
        assert forall k :: 0 <= k < |b| ==> b[k] == ms'[|a| + 1 + k];
      }
      ToggledToEnd(g, n, a, y, b);
      ApplyMovesPermutation(g, n, p, a + b);
    }
  }

  /** Walking backwards: a puzzle made by toggles from the all-off board is
      solved by replaying the same toggles, in any order. */
  lemma ReplaySolves(n: Size, ms: seq<Move>, ms': seq<Move>)
    requires ValidMoves(n, ms) && ValidMoves(n, ms')
    requires multiset(ms) == multiset(ms')
    ensures AreLightsOut(ApplyMoves(ApplyMoves(AllOff(n), n, ms), n, ms'))
  {
    var puzzle := ApplyMoves(AllOff(n), n, ms);
    ApplyMovesPermutation(puzzle, n, ms, ms');
    ApplyMovesTwice(AllOff(n), n, ms);
  }

  /** A puzzle can start solved: toggles that come in pairs cancel, so the
      scramble `s + s` leaves the all-off board unchanged. A new game whose
      draws pick such a sequence (possible once `5 + numGamesWon` is even)
      starts with every light off, and every click on it is then ignored. */
  lemma DoubledMovesStartSolved(n: Size, s: seq<Move>)
    requires ValidMoves(n, s)
    ensures ValidMoves(n, s + s)
    ensures ApplyMoves(AllOff(n), n, s + s) == AllOff(n)
    ensures AreLightsOut(ApplyMoves(AllOff(n), n, s + s))
  {
    ApplyMovesConcat(AllOff(n), n, s, s);
    ApplyMovesTwice(AllOff(n), n, s);
  }

  /** A board of the right size whose buttons carry their positions and
      whose lights are all off is the board the constructor builds. */
  lemma ClearedIsAllOff(g: Grid, n: Size)
    requires IsGrid(g, n) && Coordinated(g) && NoLightOn(g)
    ensures g == AllOff(n)
  {
    GridExt(g, AllOff(n), n);
  }

  /** One value of `Math.random()` for the row and one for the column. */
  datatype Draw = Draw(ry: real, rx: real)

  predicate ValidDraw(d: Draw)
  {
    0.0 <= d.ry < 1.0 && 0.0 <= d.rx < 1.0
  }

  /** `Math.floor(size * r)` for `0 <= r < 1` and a positive size lies in
      `[0, size)`. */
  function FloorScaled(size: nat, r: real): (k: nat)
    requires 0 < size && 0.0 <= r < 1.0
    ensures k < size
    ensures k as real <= size as real * r < k as real + 1.0
  {
    var p := size as real * r;
    assert 0.0 <= p < size as real by {
      assert size as real * r < size as real * 1.0;
    }
    p.Floor
  }

  /** The toggle `createPuzzle` makes from one pair of random numbers. */
  function PickMove(n: Size, d: Draw): (m: Move)
    requires 0 < n.x && 0 < n.y && ValidDraw(d)
    ensures ValidMove(n, m)
  {
    Move(FloorScaled(n.y, d.ry), FloorScaled(n.x, d.rx))
  }

  /** The toggles `createPuzzle` makes from a sequence of random pairs. */
  function PickMoves(n: Size, ds: seq<Draw>): (ms: seq<Move>)
    requires 0 < n.x && 0 < n.y
    requires forall k :: 0 <= k < |ds| ==> ValidDraw(ds[k])
    ensures |ms| == |ds| && ValidMoves(n, ms)
  {
    seq(|ds|, k requires 0 <= k < |ds| => PickMove(n, ds[k]))
  }
}
