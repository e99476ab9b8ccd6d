/** What placement and undo promise to a player: when a line is accepted, who
    keeps the turn, and that undo takes a placement back exactly
    (dots.py:68-107, 130-147). */
module Laws {
  import opened Geometry
  import opened GameState
  import opened Invariants

  /** A placement is accepted exactly when its line is drawn by nobody; an
      accepted one adds the line under the current player to `lines` and to the
      end of `history`, and a rejected one changes nothing. Adjacency plays no
      part: any two dots, even the same dot twice, make an acceptable line. */
  lemma PlaceAcceptance(g: Game, a: Dot, s: Dot)
    requires g.player in g.scores
    ensures var (r, accepted) := Place(g, a, s);
            && (accepted <==> !Drawn(g.lines, Canon(a, s)))
            && (!accepted ==> r == g)
            && (accepted ==> (r.lines == g.lines + {Move(Canon(a, s), g.player)}
                              && r.history == g.history + [Move(Canon(a, s), g.player)]))
  {
  }

  /** check_box is idempotent: asking about the same box again claims nothing
      more and changes nothing. */
  lemma CheckBoxIdempotent(g: Game, b: Box)
    requires g.player in g.scores
    ensures var r := CheckBox(g, b).0;
            r.player in r.scores && CheckBox(r, b) == (r, false)
  {
  }

  /** Placing a line a second time, from either end, is rejected. */
  lemma {:induction false} PlaceTwiceRejected(g: Game, a: Dot, s: Dot)
    requires forall p: Player :: p in g.scores
    ensures var r := Place(g, a, s).0;
            Place(r, s, a) == (r, false) && Place(r, a, s) == (r, false)
  {
    CanonSymmetric(a, s);
    var r := Place(g, a, s).0;
    assert Drawn(r.lines, Canon(a, s));
  }

  /** Tapping the two dots in either order has the same outcome: the same line,
      and the same boxes claimed, although the loop looks around the second dot. */
  lemma {:induction false} PlaceOrderIrrelevant(g: Game, a: Dot, s: Dot)
    requires BoxesAreComplete(g) && g.player in g.scores
    ensures Place(g, a, s) == Place(g, s, a)
  {
    CanonSymmetric(a, s);
    var l := Canon(a, s);
    if !Drawn(g.lines, l) {
      var d := WithMove(g, Move(l, g.player));
      ClaimedAreCompletedByLine(g, a, s);
      ClaimedAreCompletedByLine(g, s, a);
      assert Claimable(d, s) == Claimable(d, a);
    }
  }

  /** The cardinality of the owned boxes after an accepted placement. */
  lemma ClaimCount(boxes: map<Box, Player>, c: set<Box>, p: Player)
    requires forall b :: b in c ==> b !in boxes
    ensures |boxes + Assign(c, p)| == |boxes| + |c|
  {
    var r := boxes + Assign(c, p);
    assert r.Keys == boxes.Keys + c;
    assert boxes.Keys * c == {};
  }

  /** After an accepted placement the mover keeps the turn exactly when the
      number of owned boxes grew, and the mover's score grew by that many. */
  lemma {:induction false} PlaceTurn(g: Game, a: Dot, s: Dot)
    requires g.player in g.scores && Place(g, a, s).1
    ensures var r := Place(g, a, s).0;
            && |r.boxes| >= |g.boxes|
            && (r.player == g.player <==> |r.boxes| > |g.boxes|)
            && (r.player != g.player ==> r.player == Other(g.player))
            && r.scores[g.player] == g.scores[g.player] + (|r.boxes| - |g.boxes|)
  {
    var p := g.player;
    var c := Claimable(WithMove(g, Move(Canon(a, s), p)), s);
    var r := Place(g, a, s).0;
    assert r.boxes == g.boxes + Assign(c, p);
    ClaimCount(g.boxes, c, p);
  }

  /** A line that does not join two grid neighbours (a diagonal, a longer line,
      or a dot joined to itself) is never a side of a box: accepting it claims
      nothing and passes the turn. */
  lemma {:induction false} NonUnitLinePassesTurn(g: Game, a: Dot, s: Dot)
    requires BoxesAreComplete(g) && g.player in g.scores
    requires !IsUnit(Canon(a, s)) && !Drawn(g.lines, Canon(a, s))
    ensures var r := Place(g, a, s).0;
            r.boxes == g.boxes && r.scores == g.scores && r.player == Other(g.player)
  {
    var l := Canon(a, s);
    var d := WithMove(g, Move(l, g.player));
    forall b ensures b !in Claimable(d, s) {
      AddLineCompletes(g.lines, Move(l, g.player), b);
      if IsSide(l, b) {
        SidesAreCanonical(b, l);
      }
    }
    assert Claimable(d, s) == {};
  }

  /** The boxes undo deletes after an accepted placement are exactly the boxes
      that placement claimed. */
  lemma {:induction false} UndoUnclaimsPlaced(g: Game, a: Dot, s: Dot)
    requires BoxesAreComplete(g) && g.player in g.scores && Place(g, a, s).1
    ensures var r := Place(g, a, s).0;
            r.history != [] && Unclaimed(r) == Claimable(WithMove(g, Move(Canon(a, s), g.player)), s)
  {
    var l := Canon(a, s);
    var m := Move(l, g.player);
    var c := Claimable(WithMove(g, m), s);
    var r := Place(g, a, s).0;
    ClaimedAreCompletedByLine(g, a, s);
    assert LastMove(r) == m;
    assert r.boxes == g.boxes + Assign(c, g.player);
    forall b | b in Unclaimed(r) ensures b in c {
      if b !in c {
        UndrawnSide(g.lines, l, b);
      }
    }
  }

  /** Undo of a state that an accepted move m produced from g, when undo
      deletes exactly the boxes c that the move claimed, gives back g. */
  lemma {:induction false} UndoAfterClaim(g: Game, m: Move, c: set<Box>, r: Game)
    requires forall p: Player :: p in g.scores
    requires m !in g.lines && m.owner == g.player
    requires forall b :: b in c ==> b !in g.boxes
    requires r == ClaimAll(WithMove(g, m), c).(player := if c == {} then Other(g.player) else g.player)
    requires Unclaimed(r) == c
    ensures Undo(r) == g
  {
    var u := Undo(r);
    assert LastMove(r) == m;
    assert r.history[..|r.history| - 1] == g.history;
    assert u.lines == g.lines;
    assert u.boxes == g.boxes;
    assert u.scores == g.scores;
  }

  /** Undo right after an accepted placement restores every part of the state:
      lines, boxes, scores, turn and history. */
  lemma {:induction false} PlaceThenUndo(g: Game, a: Dot, s: Dot)
    requires BoxesAreComplete(g) && (forall p: Player :: p in g.scores) && Place(g, a, s).1
    ensures Undo(Place(g, a, s).0) == g
  {
    var m := Move(Canon(a, s), g.player);
    var c := Claimable(WithMove(g, m), s);
    UndoUnclaimsPlaced(g, a, s);
    UndoAfterClaim(g, m, c, Place(g, a, s).0);
  }

  /** What one placement contributes to the unwinding: either it was accepted,
      added one move and one undo takes it back, or it changed nothing. */
  lemma PlaceStep(g: Game, a: Dot, s: Dot)
    requires BoxesAreComplete(g) && forall p: Player :: p in g.scores
    ensures Place(g, a, s).1 ==> |Place(g, a, s).0.history| == |g.history| + 1 && Undo(Place(g, a, s).0) == g
    ensures !Place(g, a, s).1 ==> Place(g, a, s).0 == g
  {
    if Place(g, a, s).1 {
      PlaceThenUndo(g, a, s);
    }
  }

  /** Undo, pressed once per move r has beyond g, takes r back to g. */
  ghost predicate Unwinds(g: Game, r: Game) {
    && (forall p: Player :: p in r.scores)
    && |r.history| >= |g.history|
    && UndoTimes(r, |r.history| - |g.history|) == g
  }

  /** The counting behind UnwindStep, on states: if undo takes r back to g1
      and g1 is g or one move past it, undo takes r back to g. */
  lemma UnwindCount(g: Game, g1: Game, r: Game)
    requires Unwinds(g1, r)
    requires g1 == g || (|g1.history| == |g.history| + 1 && Undo(g1) == g)
    ensures Unwinds(g, r)
  {
    if g1 != g {
      var k := |r.history| - |g1.history|;
      assert |r.history| - |g.history| == k + 1;
    }
  }

  /** One step of UndoUnwindsPlay: if undo unwinds the rest of the taps back
      to the state after the first placement, one more undo unwinds them to the
      state before it. */
  lemma {:induction false} UnwindStep(g: Game, taps: seq<(Dot, Dot)>)
    requires BoxesAreComplete(g) && (forall p: Player :: p in g.scores) && taps != []
    requires var g1 := Place(g, taps[0].0, taps[0].1).0;
             Unwinds(g1, PlayAll(g1, taps[1..]))
    ensures Unwinds(g, PlayAll(g, taps))
  {
    var g1 := Place(g, taps[0].0, taps[0].1).0;
    var r := PlayAll(g1, taps[1..]);
    assert PlayAll(g, taps) == r;
    PlaceStep(g, taps[0].0, taps[0].1);
    UnwindCount(g, g1, r);
  }

  /** Undo pressed once for every accepted placement unwinds any sequence of
      taps back to the state it started from. */
  lemma {:induction false} UndoUnwindsPlay(g: Game, taps: seq<(Dot, Dot)>)
    requires Inv(g)
    ensures Unwinds(g, PlayAll(g, taps))
    decreases |taps|
  {
    if taps != [] {
      PlacePreservesInv(g, taps[0].0, taps[0].1);
      UndoUnwindsPlay(Place(g, taps[0].0, taps[0].1).0, taps[1..]);
      UnwindStep(g, taps);
    }
  }

  /** Undo on an empty history changes nothing. */
  lemma UndoEmpty(g: Game)
    requires forall p: Player :: p in g.scores
    requires g.history == []
    ensures Undo(g) == g
  {
  }
}
