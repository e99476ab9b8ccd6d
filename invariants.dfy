/** The invariants every reachable engine state satisfies, and the proofs that
    placement and undo keep them (dots.py:68-107, 130-147). */
module Invariants {
  import opened Geometry
  import opened GameState

  /** `lines` holds exactly the entries of `history`. */
  ghost predicate LinesMirrorHistory(g: Game) {
    forall m :: m in g.lines <==> m in g.history
  }

  /** No line occurs twice in the history. */
  ghost predicate HistoryLinesDistinct(h: seq<Move>) {
    forall i, j :: 0 <= i < j < |h| ==> h[i].line != h[j].line
  }

  /** The owned boxes are exactly the boxes in range whose four sides are drawn. */
  ghost predicate BoxesAreComplete(g: Game) {
    && (forall b :: b in g.boxes ==> InBoxRange(b) && Complete(g.lines, b))
    && (forall b {:trigger Complete(g.lines, b)} :: InBoxRange(b) && Complete(g.lines, b) ==> b in g.boxes)
  }

  /** Each owned box belongs to the player who drew the latest of its sides. */
  ghost predicate OwnerDrewLastSide(g: Game) {
    forall b :: b in g.boxes ==> LastSideOwner(g.history, b) == Some(g.boxes[b])
  }

  /** Each player's score is the number of boxes that player owns. */
  ghost predicate ScoresCountBoxes(g: Game) {
    forall p: Player :: p in g.scores && g.scores[p] == |OwnedBy(g.boxes, p)|
  }

  ghost predicate Inv(g: Game) {
    && LinesMirrorHistory(g)
    && HistoryLinesDistinct(g.history)
    && BoxesAreComplete(g)
    && OwnerDrewLastSide(g)
    && ScoresCountBoxes(g)
  }

  lemma InitialInv()
    ensures Inv(Initial())
  {
    var g := Initial();
    forall p: Player ensures p in g.scores && g.scores[p] == |OwnedBy(g.boxes, p)| {
      assert p == X || p == O;
      assert OwnedBy(g.boxes, p) == {};
    }
  }

  /** Looking back through a history that ends with m. */
  lemma LastSideOwnerAppend(h: seq<Move>, m: Move, b: Box)
    ensures LastSideOwner(h + [m], b) == if IsSide(m.line, b) then Some(m.owner) else LastSideOwner(h, b)
  {
    assert (h + [m])[..|h|] == h;
  }

  /** Every move in `lines` is at some position of the history. */
  lemma MoveInHistory(g: Game, m: Move) returns (i: nat)
    requires LinesMirrorHistory(g) && m in g.lines
    ensures i < |g.history| && g.history[i] == m
  {
    assert m in g.history;
    i :| 0 <= i < |g.history| && g.history[i] == m;
  }

  /** A line never has two owners at once. */
  lemma {:induction false} OneOwnerPerLine(g: Game, l: Line, p: Player, q: Player)
    requires Inv(g)
    requires Move(l, p) in g.lines && Move(l, q) in g.lines
    ensures p == q
  {
    var i := MoveInHistory(g, Move(l, p));
    var j := MoveInHistory(g, Move(l, q));
  }

  /** Scores are never negative and together count every owned box. */
  lemma ScoresSumToBoxes(g: Game)
    requires ScoresCountBoxes(g)
    ensures g.scores[X] >= 0 && g.scores[O] >= 0
    ensures g.scores[X] + g.scores[O] == |g.boxes|
  {
    var xs, os := OwnedBy(g.boxes, X), OwnedBy(g.boxes, O);
    forall b | b in g.boxes ensures b in xs + os {
      if g.boxes[b] == X { assert b in xs; } else { assert b in os; }
    }
    assert g.boxes.Keys == xs + os;
    assert xs * os == {};
  }

  /** A side that is not drawn keeps its box from being complete. */
  lemma UndrawnSide(lines: set<Move>, l: Line, b: Box)
    requires IsSide(l, b) && !Drawn(lines, l)
    ensures !Complete(lines, b)
  {
  }

  /** Drawing one more line completes a box only when the line is one of its
      sides, and never un-completes one. */
  lemma AddLineCompletes(lines: set<Move>, m: Move, b: Box)
    ensures Complete(lines, b) ==> Complete(lines + {m}, b)
    ensures Complete(lines + {m}, b) && !Complete(lines, b) ==> IsSide(m.line, b)
  {
  }

  /** The boxes the placement loop claims are exactly the boxes in range that
      the new line completes: checking the four boxes around the second dot
      misses none of them. */
  lemma {:induction false} ClaimedAreCompletedByLine(g: Game, a: Dot, s: Dot)
    requires BoxesAreComplete(g) && g.player in g.scores && !Drawn(g.lines, Canon(a, s))
    ensures var d := WithMove(g, Move(Canon(a, s), g.player));
            forall b :: b in Claimable(d, s) <==> InBoxRange(b) && IsSide(Canon(a, s), b) && Complete(d.lines, b)
  {
    var l := Canon(a, s);
    var m := Move(l, g.player);
    var d := WithMove(g, m);
    forall b ensures b in Claimable(d, s) <==> InBoxRange(b) && IsSide(l, b) && Complete(d.lines, b) {
      if b in Claimable(d, s) {
        assert !Complete(g.lines, b);
        assert IsSide(l, b);
      }
      if InBoxRange(b) && IsSide(l, b) && Complete(d.lines, b) {
        SideIsNeighbour(a, s, b);
        UndrawnSide(g.lines, l, b);
        assert b !in g.boxes;
      }
    }
  }

  /** One pass of the placement loop on a box b not yet counted, after the
      boxes c have been claimed: it claims b exactly when b is in range,
      unowned and complete. */
  lemma NextClaims(g: Game, c: set<Box>, b: Box)
    requires g.player in g.scores && b !in c
    requires forall x :: x in c ==> x !in g.boxes
    ensures var c' := if InBoxRange(b) && b !in g.boxes && Complete(g.lines, b) then c + {b} else c;
            CheckNext((ClaimAll(g, c), c != {}), b) == (ClaimAll(g, c'), c' != {})
  {
    var h := ClaimAll(g, c);
    assert b !in h.boxes <==> b !in g.boxes;
    if InBoxRange(b) && b !in g.boxes && Complete(g.lines, b) {
      assert |c + {b}| == |c| + 1;
      assert h.boxes[b := g.player] == ClaimAll(g, c + {b}).boxes;
      assert h.scores[g.player := h.scores[g.player] + 1] == ClaimAll(g, c + {b}).scores;
    }
  }

  /** The boxes claimable among front + [b]. */
  lemma ClaimedAmongSnoc(g: Game, front: seq<Box>, b: Box)
    ensures ClaimedAmong(g, front + [b])
            == if InBoxRange(b) && b !in g.boxes && Complete(g.lines, b)
               then ClaimedAmong(g, front) + {b} else ClaimedAmong(g, front)
  {
  }

  /** The step of CheckAllClaims: one more box b, not among the earlier ones. */
  lemma {:induction false} CheckAllStep(g: Game, front: seq<Box>, b: Box)
    requires g.player in g.scores && b !in front
    requires CheckAll(g, front) == (ClaimAll(g, ClaimedAmong(g, front)), ClaimedAmong(g, front) != {})
    ensures var bs := front + [b];
            CheckAll(g, bs) == (ClaimAll(g, ClaimedAmong(g, bs)), ClaimedAmong(g, bs) != {})
  {
    var bs := front + [b];
    assert bs[..|bs| - 1] == front;
    NextClaims(g, ClaimedAmong(g, front), b);
    ClaimedAmongSnoc(g, front, b);
  }

  /** Running check_box over distinct boxes claims, for the current player,
      exactly the boxes among them that are in range, unowned and complete, adds
      their number to that player's score, and reports whether there was one. */
  lemma {:induction false} CheckAllClaims(g: Game, bs: seq<Box>)
    requires g.player in g.scores
    requires forall i, j :: 0 <= i < j < |bs| ==> bs[i] != bs[j]
    ensures CheckAll(g, bs) == (ClaimAll(g, ClaimedAmong(g, bs)), ClaimedAmong(g, bs) != {})
    decreases |bs|
  {
    if bs == [] {
      assert ClaimedAmong(g, bs) == {};
      assert ClaimAll(g, {}).boxes == g.boxes;
      assert ClaimAll(g, {}).scores == g.scores;
    } else {
      var front := bs[..|bs| - 1];
      CheckAllClaims(g, front);
      assert bs == front + [bs[|bs| - 1]];
      CheckAllStep(g, front, bs[|bs| - 1]);
    }
  }

  /** Placement adds the move to both `lines` and `history`, and to neither twice. */
  lemma PlaceKeepsHistory(g: Game, a: Dot, s: Dot)
    requires Inv(g) && !Drawn(g.lines, Canon(a, s))
    ensures var r := Place(g, a, s).0;
            LinesMirrorHistory(r) && HistoryLinesDistinct(r.history)
  {
    var m := Move(Canon(a, s), g.player);
    var r := Place(g, a, s).0;
    assert r.lines == g.lines + {m} && r.history == g.history + [m];
    forall m' ensures m' in r.lines <==> m' in r.history {
      assert m' in r.history <==> m' in g.history || m' == m;
    }
    forall i, j | 0 <= i < j < |r.history| ensures r.history[i].line != r.history[j].line {
      assert r.history[i] == g.history[i];
      if j == |g.history| {
        assert g.history[i] in g.lines;
        assert g.history[i].owner == X || g.history[i].owner == O;
      } else {
        assert r.history[j] == g.history[j];
      }
    }
  }

  /** After placement the owned boxes are still exactly the complete ones. */
  lemma {:induction false} PlaceKeepsBoxesComplete(g: Game, a: Dot, s: Dot)
    requires BoxesAreComplete(g) && g.player in g.scores && !Drawn(g.lines, Canon(a, s))
    ensures BoxesAreComplete(Place(g, a, s).0)
  {
    var l := Canon(a, s);
    var m := Move(l, g.player);
    var c := Claimable(WithMove(g, m), s);
    var r := Place(g, a, s).0;
    ClaimedAreCompletedByLine(g, a, s);
    assert r.lines == g.lines + {m};
    assert r.boxes == g.boxes + Assign(c, g.player);
    forall b ensures b in r.boxes <==> InBoxRange(b) && Complete(r.lines, b) {
      AddLineCompletes(g.lines, m, b);
    }
  }

  /** Every newly claimed box has its latest side drawn by the mover, and no
      older box has the new line as a side. */
  lemma {:induction false} PlaceKeepsOwners(g: Game, a: Dot, s: Dot)
    requires BoxesAreComplete(g) && OwnerDrewLastSide(g) && g.player in g.scores && !Drawn(g.lines, Canon(a, s))
    ensures OwnerDrewLastSide(Place(g, a, s).0)
  {
    var l := Canon(a, s);
    var m := Move(l, g.player);
    var c := Claimable(WithMove(g, m), s);
    var r := Place(g, a, s).0;
    ClaimedAreCompletedByLine(g, a, s);
    assert r.history == g.history + [m];
    assert r.boxes == g.boxes + Assign(c, g.player);
    forall b | b in r.boxes ensures LastSideOwner(r.history, b) == Some(r.boxes[b]) {
      LastSideOwnerAppend(g.history, m, b);
      if b !in c && IsSide(l, b) {
        UndrawnSide(g.lines, l, b);
      }
    }
  }

  /** Claiming boxes that nobody owns adds them to p's count and leaves the
      other player's boxes alone. */
  lemma ClaimOwnedBy(boxes: map<Box, Player>, c: set<Box>, p: Player)
    requires forall b :: b in c ==> b !in boxes
    ensures var r := boxes + Assign(c, p);
            |OwnedBy(r, p)| == |OwnedBy(boxes, p)| + |c| && OwnedBy(r, Other(p)) == OwnedBy(boxes, Other(p))
  {
    ClaimOwnedByMover(boxes, c, p);
    ClaimOwnedByOther(boxes, c, p);
  }

  lemma ClaimOwnedByMover(boxes: map<Box, Player>, c: set<Box>, p: Player)
    requires forall b :: b in c ==> b !in boxes
    ensures OwnedBy(boxes + Assign(c, p), p) == OwnedBy(boxes, p) + c
    ensures |OwnedBy(boxes + Assign(c, p), p)| == |OwnedBy(boxes, p)| + |c|
  {
    assert OwnedBy(boxes + Assign(c, p), p) == OwnedBy(boxes, p) + c;
    assert OwnedBy(boxes, p) * c == {};
  }

  lemma ClaimOwnedByOther(boxes: map<Box, Player>, c: set<Box>, p: Player)
    requires forall b :: b in c ==> b !in boxes
    ensures OwnedBy(boxes + Assign(c, p), Other(p)) == OwnedBy(boxes, Other(p))
  {
  }

  /** Claiming unowned boxes for the current player keeps every score equal
      to the number of boxes its player owns. */
  lemma {:induction false} ClaimKeepsScores(d: Game, c: set<Box>)
    requires ScoresCountBoxes(d) && forall b :: b in c ==> b !in d.boxes
    ensures ScoresCountBoxes(ClaimAll(d, c))
  {
    var p := d.player;
    var r := ClaimAll(d, c);
    ClaimOwnedBy(d.boxes, c, p);
    forall q: Player ensures q in r.scores && r.scores[q] == |OwnedBy(r.boxes, q)| {
      if q != p {
        assert q == Other(p);
      }
    }
  }

  /** The mover's score grows by the number of boxes claimed; the other's stays. */
  lemma {:induction false} PlaceKeepsScores(g: Game, a: Dot, s: Dot)
    requires ScoresCountBoxes(g) && !Drawn(g.lines, Canon(a, s))
    ensures ScoresCountBoxes(Place(g, a, s).0)
  {
    var d := WithMove(g, Move(Canon(a, s), g.player));
    var c := Claimable(d, s);
    ClaimKeepsScores(d, c);
    assert Place(g, a, s).0.boxes == ClaimAll(d, c).boxes;
    assert Place(g, a, s).0.scores == ClaimAll(d, c).scores;
  }

  /** Every placement, accepted or rejected, keeps the invariants. */
  lemma PlacePreservesInv(g: Game, a: Dot, s: Dot)
    requires Inv(g)
    ensures Inv(Place(g, a, s).0)
  {
    if !Drawn(g.lines, Canon(a, s)) {
      PlaceKeepsHistory(g, a, s);
      PlaceKeepsBoxesComplete(g, a, s);
      PlaceKeepsOwners(g, a, s);
      PlaceKeepsScores(g, a, s);
    }
  }

  /** The last move of the history, which undo pops. */
  function LastMove(g: Game): Move
    requires g.history != []
  {
    g.history[|g.history| - 1]
  }

  /** The boxes undo deletes: the owned boxes with the popped line as a side. */
  function Unclaimed(g: Game): set<Box>
    requires g.history != []
  {
    SideBoxes(g.boxes, LastMove(g).line)
  }

  /** Once undo has removed the last move, its line is drawn by nobody. */
  lemma {:induction false} UndoErasesLine(g: Game)
    requires LinesMirrorHistory(g) && HistoryLinesDistinct(g.history)
    requires g.history != [] && forall p: Player :: p in g.scores
    ensures !Drawn(Undo(g).lines, LastMove(g).line)
  {
    var last := LastMove(g);
    var n := |g.history|;
    forall q: Player ensures Move(last.line, q) !in Undo(g).lines {
      if Move(last.line, q) in g.lines {
        var i := MoveInHistory(g, Move(last.line, q));
        assert g.history[i] == last;
      }
    }
  }

  /** Undo removes its move from both `lines` and `history`. */
  lemma {:induction false} UndoKeepsHistory(g: Game)
    requires LinesMirrorHistory(g) && HistoryLinesDistinct(g.history)
    requires forall p: Player :: p in g.scores
    ensures LinesMirrorHistory(Undo(g)) && HistoryLinesDistinct(Undo(g).history)
  {
    if g.history != [] {
      var last := LastMove(g);
      var n := |g.history|;
      var r := Undo(g);
      assert g.history == r.history + [last];
      forall m ensures m in r.lines <==> m in r.history {
        if m in r.history {
          var i :| 0 <= i < n - 1 && r.history[i] == m;
          assert g.history[i] == m;
          assert g.history[i].line != g.history[n - 1].line;
        }
      }
    }
  }

  /** Removing a line that is not a side of a box leaves its completeness as it was. */
  lemma RemoveLineCompletes(lines: set<Move>, m: Move, b: Box)
    ensures Complete(lines - {m}, b) ==> Complete(lines, b)
    ensures !IsSide(m.line, b) ==> (Complete(lines - {m}, b) <==> Complete(lines, b))
  {
  }

  /** After undo the owned boxes are still exactly the complete ones. */
  lemma {:induction false} UndoKeepsBoxesComplete(g: Game)
    requires LinesMirrorHistory(g) && HistoryLinesDistinct(g.history) && BoxesAreComplete(g)
    requires forall p: Player :: p in g.scores
    ensures BoxesAreComplete(Undo(g))
  {
    if g.history != [] {
      var last := LastMove(g);
      var r := Undo(g);
      UndoErasesLine(g);
      assert r.lines == g.lines - {last};
      assert r.boxes == g.boxes - Unclaimed(g);
      forall b ensures b in r.boxes <==> InBoxRange(b) && Complete(r.lines, b) {
        RemoveLineCompletes(g.lines, last, b);
        if IsSide(last.line, b) {
          UndrawnSide(r.lines, last.line, b);
        }
      }
    }
  }

  /** Each box undo deletes belongs to the player who drew the popped line:
      taking the points from the line's owner, as undo does, is taking them
      from the box's owner. */
  lemma {:induction false} UnclaimedOwnedByLineOwner(g: Game)
    requires OwnerDrewLastSide(g) && g.history != []
    ensures forall b :: b in Unclaimed(g) ==> g.boxes[b] == LastMove(g).owner
  {
    var n := |g.history|;
    forall b | b in Unclaimed(g) ensures g.boxes[b] == LastMove(g).owner {
      LastSideOwnerAppend(g.history[..n - 1], LastMove(g), b);
      assert g.history[..n - 1] + [LastMove(g)] == g.history;
    }
  }

  /** After undo each remaining box still belongs to whoever drew its latest side. */
  lemma {:induction false} UndoKeepsOwners(g: Game)
    requires OwnerDrewLastSide(g) && forall p: Player :: p in g.scores
    ensures OwnerDrewLastSide(Undo(g))
  {
    if g.history != [] {
      var last := LastMove(g);
      var r := Undo(g);
      assert r.history + [last] == g.history;
      forall b | b in r.boxes ensures LastSideOwner(r.history, b) == Some(r.boxes[b]) {
        LastSideOwnerAppend(r.history, last, b);
      }
    }
  }

  /** Deleting some of p's boxes lowers p's count by their number and leaves the
      other player's boxes alone. */
  lemma RemoveOwnedBy(boxes: map<Box, Player>, c: set<Box>, p: Player)
    requires forall b :: b in c ==> b in boxes && boxes[b] == p
    ensures |OwnedBy(boxes - c, p)| == |OwnedBy(boxes, p)| - |c|
    ensures OwnedBy(boxes - c, Other(p)) == OwnedBy(boxes, Other(p))
  {
    assert OwnedBy(boxes - c, p) == OwnedBy(boxes, p) - c;
    assert c <= OwnedBy(boxes, p);
    assert OwnedBy(boxes, p) == OwnedBy(boxes - c, p) + c;
  }

  /** Undo takes one point per deleted box from the line's owner, which keeps
      every score equal to the number of boxes owned. */
  lemma {:induction false} UndoKeepsScores(g: Game)
    requires OwnerDrewLastSide(g) && ScoresCountBoxes(g)
    ensures ScoresCountBoxes(Undo(g))
  {
    if g.history != [] {
      var last := LastMove(g);
      var c := Unclaimed(g);
      var r := Undo(g);
      UnclaimedOwnedByLineOwner(g);
      assert r.boxes == g.boxes - c;
      assert r.scores == g.scores[last.owner := g.scores[last.owner] - |c|];
      RemoveOwnedBy(g.boxes, c, last.owner);
      assert r.scores[last.owner] == |OwnedBy(r.boxes, last.owner)|;
      assert r.scores[Other(last.owner)] == |OwnedBy(r.boxes, Other(last.owner))|;
      forall q: Player ensures q in r.scores && r.scores[q] == |OwnedBy(r.boxes, q)| {
        if q != last.owner {
          assert q == Other(last.owner);
        }
      }
    }
  }

  /** Every undo keeps the invariants. */
  lemma UndoPreservesInv(g: Game)
    requires Inv(g)
    ensures Inv(Undo(g))
  {
    UndoKeepsHistory(g);
    UndoKeepsBoxesComplete(g);
    UndoKeepsOwners(g);
    UndoKeepsScores(g);
  }
}
