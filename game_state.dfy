/** The game-state store: the roster of players and their sheets, and the
    operations that replace it (update a cell, rename, add, remove, reset). */
module GameStore {
  import opened Common
  import opened Game
  import Score

  datatype Player = Player(id: string, name: string, upper: UpperSection, lower: LowerSection)

  /** The persisted and synchronised state: the players in display order. */
  datatype GameState = GameState(players: seq<Player>)

  /** The `section` and `field` arguments of an update, together: a field of the upper
      or of the lower section. */
  datatype CellRef = InUpper(u: UpperField) | InLower(l: LowerField)

  /** `Partial<GameCell>`: each of the two fields is left out or given. */
  datatype CellUpdate = CellUpdate(value: Patch<Option<int>>, struck: Patch<bool>)

  const InitialPlayerId: string := "player-1"

  /** `createEmptyCell`. */
  function CreateEmptyCell(): (c: Cell)
    ensures c.value == None && !c.struck
  {
    Cell(None, false)
  }

  /** An upper section whose six cells are all `e`. */
  function UniformUpper(e: Cell): (u: UpperSection)
    ensures forall f :: u.Get(f) == e
  {
    UpperSection(e, e, e, e, e, e)
  }

  /** A lower section whose sixteen cells are all `e`. */
  function UniformLower(e: Cell): (l: LowerSection)
    ensures forall f :: l.Get(f) == e
  {
    LowerSection(e, e, e, e, e, e, e, e, e, e, e, e, e, e, e, e)
  }

  /** `createPlayer`: all six upper and sixteen lower cells empty. */
  function CreatePlayer(id: string, name: string): (p: Player)
    ensures p.id == id && p.name == name
    ensures forall f :: p.upper.Get(f) == CreateEmptyCell()
    ensures forall f :: p.lower.Get(f) == CreateEmptyCell()
  {
    Player(id, name, UniformUpper(CreateEmptyCell()), UniformLower(CreateEmptyCell()))
  }

  /** `createInitialState`: one unnamed blank player with id `player-1`. */
  function CreateInitialState(): (s: GameState)
    ensures |s.players| == 1
    ensures s.players[0].id == InitialPlayerId && s.players[0].name == ""
    ensures forall f :: s.players[0].upper.Get(f) == CreateEmptyCell()
    ensures forall f :: s.players[0].lower.Get(f) == CreateEmptyCell()
  {
    GameState([CreatePlayer(InitialPlayerId, "")])
  }

  function CellAt(p: Player, at: CellRef): Cell
  {
    match at
    case InUpper(f) => p.upper.Get(f)
    case InLower(f) => p.lower.Get(f)
  }

  /** `{...player, [section]: {...currentSection, [field]: c}}`. */
  function WithCell(p: Player, at: CellRef, c: Cell): (q: Player)
    ensures q.id == p.id && q.name == p.name
    ensures CellAt(q, at) == c
    ensures forall other :: other != at ==> CellAt(q, other) == CellAt(p, other)
    ensures at.InUpper? ==> q.lower == p.lower
    ensures at.InLower? ==> q.upper == p.upper
  {
    match at
    case InUpper(f) => p.(upper := p.upper.With(f, c))
    case InLower(f) => p.(lower := p.lower.With(f, c))
  }

  /** `{value: current.value, struck: current.struck, ...updates}`: a field the update
      leaves out keeps its current content. */
  function Merge(current: Cell, updates: CellUpdate): (r: Cell)
    ensures updates.value.Keep? ==> r.value == current.value
    ensures updates.value.Set? ==> r.value == updates.value.to
    ensures updates.struck.Keep? ==> r.struck == current.struck
    ensures updates.struck.Set? ==> r.struck == updates.struck.to
  {
    Cell(Patched(current.value, updates.value), Patched(current.struck, updates.struck))
  }

  /** The new roster of `updateCell`: the `players.map` over the roster. */
  function UpdateCellIn(ps: seq<Player>, playerId: string, at: CellRef, updates: CellUpdate): (r: seq<Player>)
    ensures |r| == |ps|
    ensures forall i :: 0 <= i < |ps| ==>
              r[i] == if ps[i].id == playerId then WithCell(ps[i], at, Merge(CellAt(ps[i], at), updates))
                      else ps[i]
  {
    if |ps| == 0 then []
    else
      var p := ps[0];
      var q := if p.id == playerId then WithCell(p, at, Merge(CellAt(p, at), updates)) else p;
      [q] + UpdateCellIn(ps[1..], playerId, at, updates)
  }

  /** The new roster of `updatePlayerName`. */
  function RenameIn(ps: seq<Player>, playerId: string, name: string): (r: seq<Player>)
    ensures |r| == |ps|
    ensures forall i :: 0 <= i < |ps| ==>
              r[i] == if ps[i].id == playerId then ps[i].(name := name) else ps[i]
  {
    if |ps| == 0 then []
    else
      var p := ps[0];
      [if p.id == playerId then p.(name := name) else p] + RenameIn(ps[1..], playerId, name)
  }

  /** The new roster of `addPlayer`, with the generated id passed in. */
  function AddPlayerTo(ps: seq<Player>, newId: string): (r: seq<Player>)
    ensures |r| == |ps| + 1 && r[..|ps|] == ps
    ensures r[|ps|].id == newId && r[|ps|].name == ""
  {
    ps + [CreatePlayer(newId, "")]
  }

  /** The new roster of `removePlayer`: `players.filter(p => p.id !== playerId)`. */
  function RemoveFrom(ps: seq<Player>, playerId: string): (r: seq<Player>)
    ensures forall p :: p in r <==> p in ps && p.id != playerId
    ensures |r| <= |ps|
  {
    if |ps| == 0 then []
    else
      assert ps == [ps[0]] + ps[1..];
      if ps[0].id == playerId then RemoveFrom(ps[1..], playerId)
      else [ps[0]] + RemoveFrom(ps[1..], playerId)
  }

  /** `updateCell` changes, in each player with the id, the addressed cell only, to the
      merge of its old content and the update; ids, names and every other cell of every
      player stay as they were. */
  lemma UpdateCellFrame(ps: seq<Player>, playerId: string, at: CellRef, updates: CellUpdate, i: nat)
    requires i < |ps|
    ensures var r := UpdateCellIn(ps, playerId, at, updates);
            && |r| == |ps|
            && r[i].id == ps[i].id && r[i].name == ps[i].name
            && (forall other :: other != at ==> CellAt(r[i], other) == CellAt(ps[i], other))
            && CellAt(r[i], at) == (if ps[i].id == playerId then Merge(CellAt(ps[i], at), updates)
                                    else CellAt(ps[i], at))
            && (ps[i].id != playerId ==> r[i] == ps[i])
  {
  }

  /** An id that names no player leaves the roster as it is, for `updateCell` and for
      `updatePlayerName`. */
  lemma UnknownIdUnchanged(ps: seq<Player>, playerId: string, at: CellRef, updates: CellUpdate, name: string)
    requires forall p :: p in ps ==> p.id != playerId
    ensures UpdateCellIn(ps, playerId, at, updates) == ps
    ensures RenameIn(ps, playerId, name) == ps
  {
    var r := UpdateCellIn(ps, playerId, at, updates);
    assert forall i :: 0 <= i < |ps| ==> ps[i] in ps;
    assert forall i :: 0 <= i < |ps| ==> r[i] == ps[i];
  }

  /** `addPlayer` appends exactly one unnamed blank player and keeps the others, in order. */
  lemma AddPlayerAppends(ps: seq<Player>, newId: string)
    ensures var r := AddPlayerTo(ps, newId);
            && |r| == |ps| + 1 && r[..|ps|] == ps
            && r[|ps|].id == newId && r[|ps|].name == ""
            && (forall f :: r[|ps|].upper.Get(f) == CreateEmptyCell())
            && (forall f :: r[|ps|].lower.Get(f) == CreateEmptyCell())
  {
  }

  /** `removePlayer` keeps the order of the players it keeps: it distributes over
      concatenation. */
  lemma {:induction false} RemoveFromAppend(a: seq<Player>, b: seq<Player>, playerId: string)
    ensures RemoveFrom(a + b, playerId) == RemoveFrom(a, playerId) + RemoveFrom(b, playerId)
  {
    if |a| > 0 {
      assert (a + b)[0] == a[0];
      assert (a + b)[1..] == a[1..] + b;
      RemoveFromAppend(a[1..], b, playerId);
    } else {
      assert a + b == b;
    }
  }

  /** Nothing guards the last player: removing the only player empties the roster. */
  lemma RemoveLastPlayer(p: Player)
    ensures RemoveFrom([p], p.id) == []
  {
    assert [p][1..] == [];
  }

  /** A new player scores 0 in every total. */
  lemma NewPlayerScoresZero(id: string, name: string)
    ensures var p := CreatePlayer(id, name);
            Score.UpperSum(p.upper) == 0 && Score.UpperTotal(p.upper) == 0
            && Score.LowerSum(p.lower) == 0 && Score.GrandTotal(p.upper, p.lower) == 0
  {
    var p := CreatePlayer(id, name);
    Score.EmptySheetScoresZero(p.upper, p.lower);
  }

  /** The `useGameState` hook: one game state that every operation replaces. */
  class GameStateStore {
    var gameState: GameState

    /** The initial state: the saved state when storage holds one, else a fresh one.
        Reading and parsing storage is outside the model; `saved` is its result. */
    constructor (saved: Option<GameState>)
      ensures gameState == if saved.Some? then saved.value else CreateInitialState()
    {
      gameState := if saved.Some? then saved.value else CreateInitialState();
    }

    method UpdateCell(playerId: string, at: CellRef, updates: CellUpdate)
      modifies this
      ensures gameState.players == UpdateCellIn(old(gameState.players), playerId, at, updates)
    {
      gameState := gameState.(players := UpdateCellIn(gameState.players, playerId, at, updates));
    }

    method UpdatePlayerName(playerId: string, name: string)
      modifies this
      ensures gameState.players == RenameIn(old(gameState.players), playerId, name)
    {
      gameState := gameState.(players := RenameIn(gameState.players, playerId, name));
    }

    /** `newId` stands for the source's time-derived `player-<now>` id. */
    method AddPlayer(newId: string)
      modifies this
      ensures gameState.players == AddPlayerTo(old(gameState.players), newId)
    {
      gameState := gameState.(players := AddPlayerTo(gameState.players, newId));
    }

    method RemovePlayer(playerId: string)
      modifies this
      ensures gameState.players == RemoveFrom(old(gameState.players), playerId)
    {
      gameState := gameState.(players := RemoveFrom(gameState.players, playerId));
    }

    method ResetGame()
      modifies this
      ensures gameState == CreateInitialState()
    {
      gameState := CreateInitialState();
    }
  }
}
