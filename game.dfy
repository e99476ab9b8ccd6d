/** The engine's state as a value and its three transitions, placement,
    check_box and undo, as functions of the state (dots.py:28-33, 68-107, 130-147).
    The class Engine.Board runs the same transitions in place. */
module GameState {
  import opened Geometry

  datatype Option<T> = None | Some(value: T)

  datatype Player = X | O

  /** The turn switch: "O" if player == "X" else "X". */
  function Other(p: Player): (q: Player)
    ensures q != p
  {
    if p == X then O else X
  }

  /** An entry of `lines` and of `history`: a line with the player who drew it. */
  datatype Move = Move(line: Line, owner: Player)

  /** The five globals of the program. */
  datatype Game = Game(
    lines: set<Move>,
    boxes: map<Box, Player>,
    scores: map<Player, int>,
    player: Player,
    history: seq<Move>)

  /** The state the program starts in. */
  function Initial(): Game {
    Game({}, map[], map[X := 0, O := 0], X, [])
  }

  /** A line is drawn when it is in `lines` under either owner. */
  predicate Drawn(lines: set<Move>, l: Line) {
    Move(l, X) in lines || Move(l, O) in lines
  }

  /** All four sides of the box are drawn, whoever drew them. */
  predicate Complete(lines: set<Move>, b: Box) {
    Drawn(lines, Top(b)) && Drawn(lines, Bottom(b)) && Drawn(lines, Left(b)) && Drawn(lines, Right(b))
  }

  /** The boxes owned by p. */
  function OwnedBy(boxes: map<Box, Player>, p: Player): set<Box> {
    set b | b in boxes && boxes[b] == p
  }

  /** The ownership entries for boxes c, all owned by p. */
  function Assign(c: set<Box>, p: Player): map<Box, Player> {
    map b | b in c :: p
  }

  /** The boxes of `boxes` that have l as a side. */
  function SideBoxes(boxes: map<Box, Player>, l: Line): set<Box> {
    set b | b in boxes && IsSide(l, b)
  }

  /** check_box(x, y): claim the unowned box b for the current player when it is
      complete, adding one to that player's score. The flag says whether it did. */
  function CheckBox(g: Game, b: Box): (r: (Game, bool))
    requires g.player in g.scores
    ensures r.1 <==> b !in g.boxes && Complete(g.lines, b)
    ensures r.0.lines == g.lines && r.0.history == g.history && r.0.player == g.player
    ensures r.0.scores.Keys == g.scores.Keys
  {
    if b in g.boxes then (g, false)
    else if Complete(g.lines, b) then
      (g.(boxes := g.boxes[b := g.player], scores := g.scores[g.player := g.scores[g.player] + 1]), true)
    else (g, false)
  }

  /** The state right after an accepted line is added to `lines` and `history`. */
  function WithMove(g: Game, m: Move): Game {
    g.(lines := g.lines + {m}, history := g.history + [m])
  }

  /** The boxes among bs that are in range, unowned and complete. */
  function ClaimedAmong(g: Game, bs: seq<Box>): set<Box> {
    set b | b in bs && InBoxRange(b) && b !in g.boxes && Complete(g.lines, b)
  }

  /** The boxes the placement loop claims once the line is in g.lines: those
      around the second dot s that are in range, unowned and complete. */
  function Claimable(g: Game, s: Dot): set<Box> {
    ClaimedAmong(g, Neighbours(s))
  }

  /** The state after the unowned boxes c have been claimed for the current
      player, one point each. */
  function ClaimAll(g: Game, c: set<Box>): Game
    requires g.player in g.scores
  {
    g.(boxes := g.boxes + Assign(c, g.player),
       scores := g.scores[g.player := g.scores[g.player] + |c|])
  }

  /** One pass of the placement loop: check_box on b when it lies in the grid,
      after the earlier passes gave r. */
  function CheckNext(r: (Game, bool), b: Box): (r': (Game, bool))
    requires r.0.player in r.0.scores
    ensures r'.0.lines == r.0.lines && r'.0.history == r.0.history && r'.0.player == r.0.player
    ensures r'.0.scores.Keys == r.0.scores.Keys
    ensures r'.1 <==> r.1 || (InBoxRange(b) && b !in r.0.boxes && Complete(r.0.lines, b))
  {
    if InBoxRange(b) then
      var (h, claimed) := CheckBox(r.0, b);
      (h, r.1 || claimed)
    else r
  }

  /** The loop of the placement block: check_box on each box of bs that lies in
      the grid, in order. The flag says whether any of the calls claimed a box. */
  function CheckAll(g: Game, bs: seq<Box>): (r: (Game, bool))
    requires g.player in g.scores
    ensures r.0.lines == g.lines && r.0.history == g.history && r.0.player == g.player
    ensures r.0.scores.Keys == g.scores.Keys
    decreases |bs|
  {
    if bs == [] then (g, false)
    else CheckNext(CheckAll(g, bs[..|bs| - 1]), bs[|bs| - 1])
  }

  /** The placement block of the event loop, for the selected dot `first` and the
      tapped dot `second`. The flag says whether the line was accepted. */
  function Place(g: Game, first: Dot, second: Dot): (r: (Game, bool))
    requires g.player in g.scores
    ensures r.0.scores.Keys == g.scores.Keys
  {
    var line := Canon(first, second);
    if Drawn(g.lines, line) then (g, false)
    else
      var m := Move(line, g.player);
      var drawn := WithMove(g, m);
      var claimed := Claimable(drawn, second);
      (ClaimAll(drawn, claimed).(player := if claimed == {} then Other(g.player) else g.player), true)
  }

  /** undo(): pop the last move, erase its line, delete every owned box that has
      that line as a side, take one point per deleted box from the line's owner,
      and give the turn back only when no box was deleted. */
  function Undo(g: Game): (r: Game)
    requires forall p: Player :: p in g.scores
    ensures r.scores.Keys == g.scores.Keys
  {
    if g.history == [] then g
    else
      var last := g.history[|g.history| - 1];
      var removed := SideBoxes(g.boxes, last.line);
      g.(lines := g.lines - {last},
         history := g.history[..|g.history| - 1],
         boxes := g.boxes - removed,
         scores := g.scores[last.owner := g.scores[last.owner] - |removed|],
         player := if removed == {} then Other(g.player) else g.player)
  }

  /** The owner of the most recent move in h that drew a side of b. */
  function LastSideOwner(h: seq<Move>, b: Box): Option<Player> {
    if h == [] then None
    else if IsSide(h[|h| - 1].line, b) then Some(h[|h| - 1].owner)
    else LastSideOwner(h[..|h| - 1], b)
  }

  /** The state after each pair of dots in `taps` has been placed in turn. */
  function PlayAll(g: Game, taps: seq<(Dot, Dot)>): (r: Game)
    requires forall p: Player :: p in g.scores
    ensures r.scores.Keys == g.scores.Keys
    decreases |taps|
  {
    if taps == [] then g
    else PlayAll(Place(g, taps[0].0, taps[0].1).0, taps[1..])
  }

  /** The state after n presses of the undo button. */
  function UndoTimes(g: Game, n: nat): (r: Game)
    requires forall p: Player :: p in g.scores
    ensures r.scores.Keys == g.scores.Keys
  {
    if n == 0 then g else Undo(UndoTimes(g, n - 1))
  }
}
