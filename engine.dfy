/** The program's game state as one object whose fields check_box, undo and the
    placement block of the event loop update in place (dots.py:28-33, 68-107,
    130-147). Each method is proved to move the object from State() to the
    state the matching function of GameState gives, and to keep Valid(). */
module Engine {
  import opened Geometry
  import opened GameState
  import opened Invariants

  class Board {
    var lines: set<Move>
    var boxes: map<Box, Player>
    var scores: map<Player, int>
    var player: Player
    var history: seq<Move>
    /** The first dot of a two-tap gesture, once it has been tapped. */
    var selected: Option<Dot>

    function State(): Game
      reads this
    {
      Game(lines, boxes, scores, player, history)
    }

    ghost predicate Valid()
      reads this
    {
      Inv(State())
    }

    /** The globals as the program initialises them. */
    constructor ()
      ensures Valid() && State() == Initial() && selected == None
    {
      lines := {};
      boxes := map[];
      scores := map[X := 0, O := 0];
      player := X;
      history := [];
      selected := None;
      InitialInv();
    }

    /** check_box(x, y): claim box b for the current player when nobody owns it
        and all four of its sides are drawn, whoever drew them. */
    method CheckBox(b: Box) returns (claimed: bool)
      requires InBoxRange(b) && player in scores
      modifies this
      ensures (State(), claimed) == GameState.CheckBox(old(State()), b)
      ensures claimed <==> old(b !in boxes) && Complete(lines, b)
      ensures selected == old(selected)
    {
      if b in boxes {
        return false;
      }
      var top, bottom, left, right := Top(b), Bottom(b), Left(b), Right(b);
      if Move(top, X) in lines || Move(top, O) in lines {
        if Move(bottom, X) in lines || Move(bottom, O) in lines {
          if Move(left, X) in lines || Move(left, O) in lines {
            if Move(right, X) in lines || Move(right, O) in lines {
              boxes := boxes[b := player];
              scores := scores[player := scores[player] + 1];
              return true;
            }
          }
        }
      }
      return false;
    }

    /** The loop of the placement block over the boxes `around` the tapped
        dot: check_box on each box that lies in the grid, remembering whether
        any call claimed a box. */
    method CheckAround(around: seq<Box>) returns (completed: bool)
      requires player in scores
      requires forall i, j :: 0 <= i < j < |around| ==> around[i] != around[j]
      modifies this
      ensures (State(), completed) == CheckAll(old(State()), around)
      ensures State() == ClaimAll(old(State()), ClaimedAmong(old(State()), around))
      ensures completed <==> ClaimedAmong(old(State()), around) != {}
      ensures selected == old(selected)
    {
      ghost var start := State();
      completed := false;
      var k := 0;
      while k < |around|
        invariant 0 <= k <= |around|
        invariant (State(), completed) == CheckAll(start, around[..k])
        invariant selected == old(selected)
      {
        var b := around[k];
        assert around[..k + 1][..k] == around[..k];
        if 0 <= b.x < GridSize - 1 && 0 <= b.y < GridSize - 1 {
          var claimed := CheckBox(b);
          if claimed {
            completed := true;
          }
        }
        k := k + 1;
      }
      assert around[..k] == around;
      CheckAllClaims(start, around);
    }

    /** The placement block: `first` is the selected dot and `second` the dot
        just tapped. The line between them is rejected when it is drawn already;
        otherwise it is recorded, the four boxes around `second` that lie in the
        grid are checked, and the turn passes only if none was completed. */
    method Place(first: Dot, second: Dot) returns (accepted: bool)
      requires Valid()
      modifies this
      ensures (State(), accepted) == GameState.Place(old(State()), first, second)
      ensures Valid() && selected == old(selected)
    {
      ghost var before := State();
      var line := Canon(first, second);
      if Move(line, X) in lines || Move(line, O) in lines {
        return false;
      }
      lines := lines + {Move(line, player)};
      history := history + [Move(line, player)];
      var completed := CheckAround(Neighbours(second));
      if !completed {
        player := Other(player);
      }
      accepted := true;
      assert (State(), accepted) == GameState.Place(before, first, second);
      PlacePreservesInv(before, first, second);
    }

    /** The loop of undo: delete each box of `removed` and take one point from
        `owner` for each. */
    method DeleteBoxes(removed: set<Box>, owner: Player)
      requires owner in scores
      modifies this
      ensures State() == old(State()).(boxes := old(boxes) - removed,
                                       scores := old(scores)[owner := old(scores)[owner] - |removed|])
      ensures selected == old(selected)
    {
      var pending := removed;
      while pending != {}
        invariant pending <= removed
        invariant State() == old(State()).(boxes := old(boxes) - (removed - pending),
                                           scores := old(scores)[owner := old(scores)[owner] - (|removed| - |pending|)])
        invariant selected == old(selected)
        decreases pending
      {
        var b :| b in pending;
        boxes := boxes - {b};
        scores := scores[owner := scores[owner] - 1];
        pending := pending - {b};
      }
    }

    /** undo(): pop the last move, erase its line, delete the owned boxes that
        have that line as a side, taking a point from the line's owner for
        each, and pass the turn back only if none was deleted. */
    method Undo()
      requires Valid()
      modifies this
      ensures State() == GameState.Undo(old(State()))
      ensures Valid() && selected == old(selected)
    {
      ghost var before := State();
      if history == [] {
        return;
      }
      var last := history[|history| - 1];
      history := history[..|history| - 1];
      lines := lines - {last};
      var removed := SideBoxes(boxes, last.line);
      DeleteBoxes(removed, last.owner);
      if removed == {} {
        player := Other(player);
      }
      ghost var undone := GameState.Undo(before);
      assert last == before.history[|before.history| - 1];
      assert removed == SideBoxes(before.boxes, last.line);
      assert history == undone.history && lines == undone.lines;
      assert boxes == undone.boxes && scores == undone.scores && player == undone.player;
      UndoPreservesInv(before);
    }

    /** A tap on a dot: the first tap of a gesture selects it, the second tries
        the line from the selected dot and clears the selection either way. */
    method Tap(dot: Dot) returns (accepted: bool)
      requires Valid()
      modifies this
      ensures Valid()
      ensures old(selected) == None ==> selected == Some(dot) && State() == old(State()) && !accepted
      ensures old(selected).Some? ==>
                selected == None && (State(), accepted) == GameState.Place(old(State()), old(selected).value, dot)
    {
      if selected == None {
        selected := Some(dot);
        accepted := false;
      } else {
        accepted := Place(selected.value, dot);
        selected := None;
      }
    }
  }
}
