/** The Lights Out component's state and game logic: the board it keeps,
    the move and win counters, and the handlers that update them. */
module LightsOut {
  import opened Board

  class LightsOutComponent {
    /** `numButtons`: five columns and five rows. */
    const numButtons: Size := Size(5, 5)
    var buttons: Grid
    var numMoves: nat
    var numGamesWon: nat

    /** The board has the component's dimensions and every button carries
        its own position. */
    ghost predicate Valid()
      reads this
    {
      IsGrid(buttons, numButtons) && Coordinated(buttons)
    }

    /** Builds the all-off board row by row. `numMoves` is left unset, as
        the component leaves it until the first `StartGame`. */
    constructor ()
      ensures Valid()
      ensures buttons == AllOff(numButtons)
      ensures forall i, j :: 0 <= i < numButtons.y && 0 <= j < numButtons.x ==>
        buttons[i][j] == Button(Coordinates(j, i), false)
      ensures numGamesWon == 0
    {
      var n := Size(5, 5);
      var grid: Grid := [];
      for i := 0 to n.y
        invariant grid == AllOff(n)[..i]
      {
        var rowOfButtons: seq<Button> := [];
        for j := 0 to n.x
          invariant rowOfButtons == OffRow(n.x, i)[..j]
        {
          rowOfButtons := rowOfButtons + [Button(Coordinates(j, i), false)];
        }
        assert rowOfButtons == OffRow(n.x, i);
        assert AllOff(n)[..i + 1] == AllOff(n)[..i] + [OffRow(n.x, i)];
        grid := grid + [rowOfButtons];
      }
      assert grid == AllOff(n);
      buttons := grid;
      numGamesWon := 0;
    }

    /** `toggleLights(i, j)`: works on a copy of the board, flips the centre
        and each of its four neighbours that lies on the board, then makes
        the copy the board. */
    method ToggleLights(i: nat, j: nat)
      requires Valid() && i < numButtons.y && j < numButtons.x
      modifies this
      ensures Valid()
      ensures buttons == Toggled(old(buttons), numButtons, Move(i, j))
      ensures numMoves == old(numMoves) && numGamesWon == old(numGamesWon)
    {
      // Make a copy (the board is a value)
      var grid := buttons;
      ghost var g0 := grid;

      // Centre
      grid := ToggleLightAt(grid, numButtons, i, j);
      ghost var g1 := grid;

      // Top
      if i > 0 {
        grid := ToggleLightAt(grid, numButtons, i - 1, j);
      }
      ghost var g2 := grid;

      // Bottom
      if i < numButtons.y - 1 {
        grid := ToggleLightAt(grid, numButtons, i + 1, j);
      }
      ghost var g3 := grid;

      // Left
      if j > 0 {
        grid := ToggleLightAt(grid, numButtons, i, j - 1);
      }
      ghost var g4 := grid;

      // Right
      if j < numButtons.x - 1 {
        grid := ToggleLightAt(grid, numButtons, i, j + 1);
      }

      ToggleStepsAreToggled(g0, g1, g2, g3, g4, grid, numButtons, Move(i, j));
      buttons := grid;
    }

    /** `createPuzzle`: makes `5 + numGamesWon` toggles, each at the row and
        column that a pair of random numbers picks. */
    method CreatePuzzle(draws: seq<Draw>)
      requires Valid()
      requires |draws| == 5 + numGamesWon
      requires forall k :: 0 <= k < |draws| ==> ValidDraw(draws[k])
      modifies this
      ensures Valid()
      ensures buttons == ApplyMoves(old(buttons), numButtons, PickMoves(numButtons, draws))
      ensures numMoves == old(numMoves) && numGamesWon == old(numGamesWon)
    {
      var maxNumMovesNeeded := 5 + numGamesWon;
      ghost var ms := PickMoves(numButtons, draws);
      for index := 0 to maxNumMovesNeeded
        invariant Valid()
        invariant buttons == ApplyMoves(old(buttons), numButtons, ms[..index])
        invariant numMoves == old(numMoves) && numGamesWon == old(numGamesWon)
      {
        var i := FloorScaled(numButtons.y, draws[index].ry);
        var j := FloorScaled(numButtons.x, draws[index].rx);
        ToggleLights(i, j);
        assert ms[..index + 1][..index] == ms[..index];
      }
      assert ms[..|ms|] == ms;
    }

    /** `startGame`: resets the move counter, turns every light off and
        scrambles the board. The result is solved by replaying the same
        toggles, in any order. */
    method StartGame(draws: seq<Draw>)
      requires Valid()
      requires |draws| == 5 + numGamesWon
      requires forall k :: 0 <= k < |draws| ==> ValidDraw(draws[k])
      modifies this
      ensures Valid()
      ensures buttons == ApplyMoves(AllOff(numButtons), numButtons, PickMoves(numButtons, draws))
      ensures numMoves == 0 && numGamesWon == old(numGamesWon)
      ensures forall ms: seq<Move> ::
        ValidMoves(numButtons, ms) && multiset(ms) == multiset(PickMoves(numButtons, draws)) ==>
        AreLightsOut(ApplyMoves(buttons, numButtons, ms))
    {
      numMoves := 0;
      for r := 0 to |buttons|
        invariant Valid() && numMoves == 0 && numGamesWon == old(numGamesWon)
        invariant forall rr, cc :: 0 <= rr < r && 0 <= cc < numButtons.x ==> !buttons[rr][cc].isLightOn
      {
        for c := 0 to |buttons[r]|
          invariant Valid() && numMoves == 0 && numGamesWon == old(numGamesWon)
          invariant forall rr, cc :: 0 <= rr < r && 0 <= cc < numButtons.x ==> !buttons[rr][cc].isLightOn
          invariant forall cc :: 0 <= cc < c ==> !buttons[r][cc].isLightOn
        {
          buttons := buttons[r := buttons[r][c := buttons[r][c].(isLightOn := false)]];
        }
      }
      ClearedIsAllOff(buttons, numButtons);

      CreatePuzzle(draws);

      forall ms: seq<Move> |
        ValidMoves(numButtons, ms) && multiset(ms) == multiset(PickMoves(numButtons, draws))
        ensures AreLightsOut(ApplyMoves(buttons, numButtons, ms))
      {
        ReplaySolves(numButtons, PickMoves(numButtons, draws), ms);
      }
    }

    /** `onButtonClick`: ignored on a solved board; otherwise toggles at the
        clicked button, then counts a win if that solved the board and a
        move if it did not. `restartScheduled` is true when the handler
        schedules the delayed `StartGame`. */
    method OnButtonClick(coordinates: Coordinates) returns (restartScheduled: bool)
      requires Valid() && coordinates.x < numButtons.x && coordinates.y < numButtons.y
      modifies this
      ensures Valid()
      ensures AreLightsOut(old(buttons)) ==>
        buttons == old(buttons) && numMoves == old(numMoves) && numGamesWon == old(numGamesWon) &&
        !restartScheduled
      ensures !AreLightsOut(old(buttons)) ==>
        buttons == Toggled(old(buttons), numButtons, Move(coordinates.y, coordinates.x))
      ensures !AreLightsOut(old(buttons)) && AreLightsOut(buttons) ==>
        numGamesWon == old(numGamesWon) + 1 && numMoves == old(numMoves) && restartScheduled
      ensures !AreLightsOut(old(buttons)) && !AreLightsOut(buttons) ==>
        numMoves == old(numMoves) + 1 && numGamesWon == old(numGamesWon) && !restartScheduled
    {
      if AreLightsOut(buttons) {
        return false;
      }

      // Toggle lights
      ToggleLights(coordinates.y, coordinates.x);

      // Restart game if the player won
      if AreLightsOut(buttons) {
        numGamesWon := numGamesWon + 1;
        restartScheduled := true;
      } else {
        numMoves := numMoves + 1;
        restartScheduled := false;
      }
    }
  }
}
