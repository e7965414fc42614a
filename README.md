# Kniffel Extreme score block — a Dafny model

Kniffel Extreme is a score sheet for an extended Yahtzee ("Kniffel") variant. Each player
has six upper cells (ones to sixes) and sixteen lower cells. A cell holds an optional
number and a "struck" flag. The sheet computes:

- the upper sum, with a bonus of 45 from 73 points;
- the lower sum, where ten fields score a fixed constant once ticked and superChance
  counts double;
- the grand total.

Several devices can share a game over peer-to-peer connections. Each connection pushes the
whole game state as a `sync` message, and the ids of known peers are remembered in browser
storage so that a reload reconnects. A share button exports the results (names, bonus,
points, starting player and winner) to another app. A long press on that button reveals a
settings dialog in which the exported game name can be edited.

The model covers the logic under the user interface:

- `game.dfy` (module `Game`): cells, the two sections as records with `Get`/`With`
  access, and the fixed-score table.
- `score.dfy` (module `Score`): the scorer, as pure functions and lemmas.
- `game_state.dfy` (module `GameStore`): the game-state hook. It is a class whose one
  `gameState` field every operation replaces. Each operation is specified by a pure
  function on the roster, with frame lemmas beside it.
- `peer_directory.dfy` (module `PeerDirectory`): the stored known-peer list, as pure
  functions over an abstract stored value.
- `peer_sync.dfy` (module `PeerSync`): the connection bookkeeping of the sync hook, as a
  class `Engine`. The fields are:
  - the connection map (peer id to connection number);
  - the connecting set;
  - the visible `connectedPeers` list;
  - the flags;
  - the two storage keys.

  The transport is replaced by event methods: `OnOpen`, `OnData`, `OnClose`, `OnError`,
  `OnTimeout`, `OnIncoming`, `OnPeerOpen` and `OnPeerError`. Each connection object the
  transport hands out is a numbered `Channel`, so an event is always about one
  connection object. Examples are a `close` arriving from a replaced connection, or a
  timeout after the connection opened.
- `long_press.dfy` (module `LongPress`): the long-press detector, as a class over its
  three refs, with the browser timer reduced to an `armed` flag and an explicit
  `TimerFires` event.
- `share_settings.dfy` (module `ShareSettings`): the share settings, a record of named
  JSON values loaded over the defaults and replaced by object spread (map union).
- `share_export.dfy` (module `ShareExport`): the export helpers and the settings dialog's
  save guard (JavaScript `trim`).
- `common.dfy` and `json.dfy`: shared helpers (option, duplicate removal, decimal
  rendering) and the JSON value and stored-value shapes.

JavaScript details are written out where the code depends on them:

- truthiness (`cell.value || 0`, a value of 0 counts as not entered);
- `?? 0`;
- object spread and key overwriting;
- `Array.from(new Set(...))`, which keeps first occurrences;
- `filter(Boolean)`;
- the ECMAScript white-space set of `trim`.

The scorer is modelled as written. `under10` is not in the fixed-score table, so it
scores its raw value. The sheet's interface stores 1 when the under10 box is ticked, and
that scores 1 point (`Score.Under10ScoresRawValue`).

## Model

| member | source | states |
|---|---|---|
| Game.UpperSection.With | src/types/game.ts:6-13 | replacing one upper cell changes that cell and no other |
| Game.LowerSection.With | src/types/game.ts:15-32 | replacing one lower cell changes that cell and no other |
| Game.UpperFieldsExact | src/types/game.ts:6-13 | the upper section has exactly six distinct cells, each at its own position |
| Game.LowerFieldsExact | src/types/game.ts:15-32 | the lower section has exactly sixteen distinct cells |
| Game.FixedScoresKeys | src/types/game.ts:41-52 | the fixed-score table has exactly ten keys, each the key of a lower field |
| Game.FixedScoreValues | src/types/game.ts:41-52 | the ten constants: threePairs 35, twoThrees 45, fullHouse 25, largeFullHouse 45, smallStraight 30, largeStraight 40, highway 50, kniffel 50, kniffelExtreme 75, over33 40 |
| Game.FreeFieldsNotFixed | src/types/game.ts:41-52 | threeOfKind, fourOfKind, twoPairs, under10, chance and superChance are not in the table |
| Score.UpperPoints | src/utils/scoreCalculations.ts:4-7 | a struck or empty upper cell adds nothing; any other adds its value |
| Score.UpperSum | src/utils/scoreCalculations.ts:3-8 | the sum of the six upper cells' points, each cell counted once |
| Score.UpperBonus | src/utils/scoreCalculations.ts:10-12 | the bonus is 0 or 45, and 45 exactly when the sum is at least 73 |
| Score.UpperTotal | src/utils/scoreCalculations.ts:14-18 | the upper sum, or the upper sum plus 45, the latter exactly when the sum reaches 73 |
| Score.LowerPoints | src/utils/scoreCalculations.ts:21-35 | a struck or empty lower cell adds nothing; the other cases are stated by `LowerPointsByKind` |
| Score.LowerSum | src/utils/scoreCalculations.ts:20-36 | a sheet whose lower cells all score 0 sums to 0, and cells that score nothing negative give a non-negative sum; `LowerSumWith` states that each cell counts once |
| Score.GrandTotal | src/utils/scoreCalculations.ts:38-40 | the upper sum plus the lower sum, plus 45 exactly when the upper sum reaches 73 |
| Score.Totals | src/utils/scoreCalculations.ts:14-18 | upper total = upper sum + bonus; grand total = upper total + lower sum |
| Score.UpperSumWith | src/utils/scoreCalculations.ts:3-8 | the upper sum adds each cell once: 0 if struck, else the value or 0 |
| Score.LowerSumWith | src/utils/scoreCalculations.ts:20-36 | the lower sum adds each cell once, by its points |
| Score.StrikeUpper | src/utils/scoreCalculations.ts:5 | striking an upper cell removes exactly its points; un-striking restores them |
| Score.StrikeLower | src/utils/scoreCalculations.ts:22 | striking a lower cell removes exactly its points; un-striking restores them |
| Score.LowerPointsByKind | src/utils/scoreCalculations.ts:20-36 | struck scores 0; a fixed field its constant if the value is truthy, else 0; superChance twice its value; every other field, under10 included, its raw value |
| Score.FixedIgnoresMagnitude | src/utils/scoreCalculations.ts:24-27 | a fixed field's points do not depend on the magnitude of its value |
| Score.EmptySheetScoresZero | src/utils/scoreCalculations.ts:3-40 | a sheet whose cells are all empty or struck scores 0 in every total |
| Score.ExampleUpper | src/utils/scoreCalculations.ts:3-18 | ones..sixes 1..6 give upper sum and upper total 21, with no bonus |
| Score.ExampleLower | src/utils/scoreCalculations.ts:20-36 | kniffel ticked and superChance 10, all else empty, give lower sum 70 |
| Score.ExamplePoints | src/utils/scoreCalculations.ts:24-32 | a ticked kniffel scores its table constant 50; a superChance of 10 scores twice 10 |
| Score.ExampleSheet | src/utils/scoreCalculations.ts:3-40 | ones..sixes 1..6, kniffel ticked and superChance 10 give upper total 21, lower sum 70, grand total 91 |
| Score.StruckChanceExample | src/utils/scoreCalculations.ts:22 | striking a chance of 20 removes 20 points, and un-striking brings them back |
| Score.Under10ScoresRawValue | src/utils/scoreCalculations.ts:34 | a ticked under10 (value 1) scores 1, as it is not a fixed field |
| GameStore.CreateEmptyCell | src/hooks/useGameState.ts:4 | a new cell has no value and is not struck |
| GameStore.CreatePlayer | src/hooks/useGameState.ts:6-35 | a new player has the given id and name and all 6 + 16 cells empty |
| GameStore.CreateInitialState | src/hooks/useGameState.ts:37-39 | one player, id `player-1`, empty name, all cells empty |
| GameStore.WithCell | src/hooks/useGameState.ts:62-75 | the addressed cell is replaced and every other cell, the id and the name are kept |
| GameStore.Merge | src/hooks/useGameState.ts:69-73 | a field left out of the update keeps its current content, a given one takes the update |
| GameStore.UpdateCellIn | src/hooks/useGameState.ts:57-77 | every player with the id gets the merged cell; every other player is unchanged; the length is kept |
| GameStore.RenameIn | src/hooks/useGameState.ts:80-87 | every player with the id gets the name, the others are unchanged |
| GameStore.RemoveFrom | src/hooks/useGameState.ts:96-101 | the result holds exactly the players whose id differs |
| GameStore.UpdateCellFrame | src/hooks/useGameState.ts:51-78 | update changes only the addressed cell of players with the id; ids, names and all other cells are kept |
| GameStore.UnknownIdUnchanged | src/hooks/useGameState.ts:60 | an id that names no player leaves the roster unchanged, for update and rename |
| GameStore.AddPlayerTo | src/hooks/useGameState.ts:89-94 | the roster grows by one player with the given id and an empty name, after the earlier players, which are kept |
| GameStore.AddPlayerAppends | src/hooks/useGameState.ts:89-94 | one unnamed blank player is appended and the earlier players are kept in order |
| GameStore.RemoveFromAppend | src/hooks/useGameState.ts:96-101 | removal keeps the order of the kept players (it distributes over concatenation) |
| GameStore.RemoveLastPlayer | src/hooks/useGameState.ts:96-101 | nothing stops removal of the only player: the roster becomes empty |
| GameStore.NewPlayerScoresZero | src/hooks/useGameState.ts:6-35 | a new player scores 0 in every total |
| GameStore.GameStateStore.constructor | src/hooks/useGameState.ts:42-45 | the saved state when there is one, else the initial state |
| GameStore.GameStateStore.UpdateCell | src/hooks/useGameState.ts:51-78 | the new roster is `UpdateCellIn` of the old one |
| GameStore.GameStateStore.UpdatePlayerName | src/hooks/useGameState.ts:80-87 | the new roster is `RenameIn` of the old one |
| GameStore.GameStateStore.AddPlayer | src/hooks/useGameState.ts:89-94 | the new roster is `AddPlayerTo` of the old one |
| GameStore.GameStateStore.RemovePlayer | src/hooks/useGameState.ts:96-101 | the new roster is `RemoveFrom` of the old one |
| GameStore.GameStateStore.ResetGame | src/hooks/useGameState.ts:103-106 | the state is the initial state |
| PeerDirectory.UniquePeers | src/hooks/usePeerSync.ts:8 | no duplicates, no empty id, exactly the non-empty ids of the input |
| PeerDirectory.UniquePeersPrefix | src/hooks/usePeerSync.ts:8 | first occurrences are kept in order: the result for a prefix is a prefix of the result |
| PeerDirectory.UniquePeersOfClean | src/hooks/usePeerSync.ts:8 | a clean list is returned unchanged |
| PeerDirectory.UniquePeersIdempotent | src/hooks/usePeerSync.ts:8 | cleaning twice is cleaning once |
| PeerDirectory.ReadStoredPeerId | src/hooks/usePeerSync.ts:10 | a stored id reads back as itself; a missing key reads as `''` |
| PeerDirectory.StringItems | src/hooks/usePeerSync.ts:17 | exactly the string items are kept |
| PeerDirectory.ReadStoredPeers | src/hooks/usePeerSync.ts:12-22 | nothing stored, unparseable text or a non-array read as no peers; an array reads as its non-empty string items, without duplicates |
| PeerDirectory.StorePeers | src/hooks/usePeerSync.ts:32-34 | a JSON array holding the cleaned ids as strings, in order; `ReadAfterStore` reads it back |
| PeerDirectory.AddStoredPeer | src/hooks/usePeerSync.ts:36-42 | an empty id leaves storage as it is; any other id is listed afterwards (the rest is stated by `AddStoredPeerSpec`) |
| PeerDirectory.RemoveStoredPeer | src/hooks/usePeerSync.ts:44-48 | an empty id leaves storage as it is; the id is not listed afterwards (the rest is stated by `RemoveStoredPeerSpec`) |
| PeerDirectory.StringItemsOfAsJson | src/hooks/usePeerSync.ts:24-26 | the string items of a written list are the list |
| PeerDirectory.ReadAfterStore | src/hooks/usePeerSync.ts:12-26 | reading back what was stored gives the cleaned list |
| PeerDirectory.StoredEmpty | src/hooks/usePeerSync.ts:24-26 | storing the empty list reads back as no peers |
| PeerDirectory.AddStoredPeerSpec | src/hooks/usePeerSync.ts:36-42 | an empty id changes nothing; a new id is appended after the others; a listed id is not added again; adding is idempotent |
| PeerDirectory.RemoveStoredPeerSpec | src/hooks/usePeerSync.ts:44-48 | an empty id changes nothing; otherwise the id is unlisted and the others keep their order |
| PeerSync.Reconnecting | src/hooks/usePeerSync.ts:74-82 | the `isReconnecting` formula; `ReconnectingMeaning` states what it means |
| PeerSync.ReconnectingMeaning | src/hooks/usePeerSync.ts:74-82 | reconnecting exactly when an attempt is under way or, with the peer not ready, stored peers wait |
| PeerSync.Recipients | src/hooks/usePeerSync.ts:293-299 | the recipients of the deliveries, one per delivery, in order |
| PeerSync.Opened | src/hooks/usePeerSync.ts:104-111 | the connection opens; an outbound one also disarms its timeout and resolves unless already settled |
| PeerSync.Failed | src/hooks/usePeerSync.ts:156-164 | the timeout is disarmed and the promise rejects unless already settled |
| PeerSync.CloseMapped | src/hooks/usePeerSync.ts:277 | the same connection numbers; each mapped one closed, every other one unchanged |
| PeerSync.Engine.constructor | src/hooks/usePeerSync.ts:251-262 | mounting starts with empty bookkeeping and runs `initPeer` with the stored id and peers |
| PeerSync.Engine.UpdateConnectingState | src/hooks/usePeerSync.ts:74-82 | `isReconnecting` is recomputed with the given or current readiness |
| PeerSync.Engine.InitPeer | src/hooks/usePeerSync.ts:210-220 | the stored peers are remembered, the peer is not ready, a local peer with the requested id exists |
| PeerSync.Engine.SetGameState | src/hooks/usePeerSync.ts:83-85 | the state reference follows the current game state |
| PeerSync.Engine.ConnectToPeer | src/hooks/usePeerSync.ts:132-164 | rejects iff there is no local peer; resolves and changes nothing for `''`, the own id, or an open or connecting peer; otherwise a new outbound connection is mapped and the peer is connecting |
| PeerSync.Engine.StartAttempt | src/hooks/usePeerSync.ts:143-164 | a new connection number, mapped from the peer, with its timeout armed; the peer is connecting, `isReconnecting` recomputed, `isConnecting` set unless silent |
| PeerSync.Engine.OnOpen | src/hooks/usePeerSync.ts:104-111 | the `open` event of a connection runs the handler its direction installed: an inbound one sends a `sync` delivery, an outbound one none; in both the peer leaves the connecting set, is stored and is listed once |
| PeerSync.Engine.OpenOutbound | src/hooks/usePeerSync.ts:166-177 | the timeout is disarmed and the attempt resolves; the peer leaves the connecting set with `isReconnecting` recomputed, is stored and listed once; `isConnecting` is cleared unless silent; nothing is sent |
| PeerSync.Engine.OpenInbound | src/hooks/usePeerSync.ts:104-111 | the peer leaves the connecting set (without recomputing `isReconnecting`), is stored and listed once, `isConnecting` is cleared, and the current state goes to that peer on that connection |
| PeerSync.Engine.StopConnecting | src/hooks/usePeerSync.ts:169-170 | the peer leaves the connecting set and `isReconnecting` is recomputed |
| PeerSync.Engine.DropPeer | src/hooks/usePeerSync.ts:121-122 | the peer leaves the map and is filtered out of the list, which stays duplicate-free |
| PeerSync.Engine.RecordOpen | src/hooks/usePeerSync.ts:107-108 | the peer is added to the stored list and to the visible list, once |
| PeerSync.Engine.OnData | src/hooks/usePeerSync.ts:113-117 | a `sync` message hands over its state, other messages nothing |
| PeerSync.Engine.OnClose | src/hooks/usePeerSync.ts:119-123 | the peer leaves the map and the list; only an outbound close (185-191) touches the connecting set |
| PeerSync.Engine.OnError | src/hooks/usePeerSync.ts:124-129 | the peer leaves the map and the list; an outbound error (193-204) also leaves the connecting set and rejects |
| PeerSync.Engine.OnTimeout | src/hooks/usePeerSync.ts:156-164 | the peer leaves the connecting set and the map, and the attempt rejects |
| PeerSync.Engine.OnIncoming | src/hooks/usePeerSync.ts:91-102 | a connection from an open or connecting peer is refused and changes nothing; otherwise it is mapped |
| PeerSync.Engine.RemovePeer | src/hooks/usePeerSync.ts:264-274 | afterwards the peer is absent from the map, the connecting set, the list and the stored list |
| PeerSync.Engine.ForgetConnection | src/hooks/usePeerSync.ts:265-271 | the peer's mapped connection, if any, is closed and no other; the peer leaves the map and the connecting set |
| PeerSync.Engine.UnlistPeer | src/hooks/usePeerSync.ts:272-273 | the peer is filtered out of the list and the stored list, and is listed in neither |
| PeerSync.Engine.UnstorePeer | src/hooks/usePeerSync.ts:273 | the stored list without the peer |
| PeerSync.Engine.CloseAll | src/hooks/usePeerSync.ts:277 | every mapped connection is closed and no other |
| PeerSync.Engine.Unmount | src/hooks/usePeerSync.ts:256-261 | every mapped connection is closed, the peer is not ready, and `isReconnecting` holds exactly when an attempt is under way or stored peers wait |
| PeerSync.Engine.ClearStorage | src/hooks/usePeerSync.ts:287-288 | both storage keys are cleared |
| PeerSync.Engine.ForgetConnections | src/hooks/usePeerSync.ts:277-282 | every mapped connection is closed; map, connecting set and list are empty and both flags clear |
| PeerSync.Engine.ResetPeerId | src/hooks/usePeerSync.ts:276-291 | map, connecting set, list and stored peers are empty, the own id is cleared, and a fresh peer is started |
| PeerSync.Engine.BroadcastState | src/hooks/usePeerSync.ts:293-299 | one `sync` to each peer whose mapped connection is open, on that connection, and to no other |
| PeerSync.Engine.OnPeerOpen | src/hooks/usePeerSync.ts:221-235 | the id is stored and the peer is ready; every remembered peer other than itself is then open or connecting |
| PeerSync.Engine.ReconnectPending | src/hooks/usePeerSync.ts:228-234 | every remembered peer other than the local one ends open or connecting, nothing open or connecting stops being so, and `isConnecting` is untouched (the attempts are silent) |
| PeerSync.Engine.OnPeerError | src/hooks/usePeerSync.ts:241-246 | the peer is not ready and `isConnecting` is cleared |
| LongPress.Detector.constructor | src/hooks/useTouchLongPress.ts:8-14 | delay 600 unless given; no timer and both flags clear |
| LongPress.Detector.ClearLongPressTimeout | src/hooks/useTouchLongPress.ts:16-23 | no timer remains pending |
| LongPress.Detector.StartLongPressTimer | src/hooks/useTouchLongPress.ts:25-36 | the triggered flag is cleared and the pending timer is replaced by a new one |
| LongPress.Detector.HandlePointerDown | src/hooks/useTouchLongPress.ts:38-48 | a mouse press changes nothing; a touch or pen press starts the timer as a non-hover |
| LongPress.Detector.HandlePointerEnter | src/hooks/useTouchLongPress.ts:50-60 | only a mouse entering starts the timer, as a hover; others change nothing |
| LongPress.Detector.HandlePointerEnd | src/hooks/useTouchLongPress.ts:62-64 | the pending timer is cancelled |
| LongPress.Detector.TimerFires | src/hooks/useTouchLongPress.ts:28-35 | the callback runs once; the triggered flag ends true for a touch and false for a hover; the hover flag ends false |
| LongPress.Detector.ShouldHandleClick | src/hooks/useTouchLongPress.ts:66-73 | false exactly when a long press was triggered, and the flag is consumed |
| LongPress.Detector.ResetLongPress | src/hooks/useTouchLongPress.ts:75-77 | the triggered flag is cleared |
| LongPress.Detector.Unmount | src/hooks/useTouchLongPress.ts:79-83 | the pending timer is cancelled |
| LongPress.TouchLongPressScenario | src/hooks/useTouchLongPress.ts:25-73 | a held touch fires once, and only the first following click is swallowed |
| LongPress.HoverLongPressScenario | src/hooks/useTouchLongPress.ts:25-73 | a hover long press fires once and does not swallow the click |
| LongPress.ShortTapScenario | src/hooks/useTouchLongPress.ts:38-73 | a tap released before the delay fires nothing and its click is handled |
| ShareSettings.IndexKeyed | src/hooks/useShareSettings.ts:25-28 | an array spreads item i under the decimal rendering of i, and no other key |
| ShareSettings.LoadInitialSettings | src/hooks/useShareSettings.ts:12-35 | the defaults without a window, without saved text, for unparseable text or a non-object; for a stored object its properties override the defaults and `gameName` falls back to the default; for a stored array item i sits under key i, no other key is added, and `gameName` keeps its default |
| ShareSettings.LoadAfterPersist | src/hooks/useShareSettings.ts:40-50 | what the store persists loads back unchanged |
| ShareSettings.ShareSettingsStore.constructor | src/hooks/useShareSettings.ts:38-50 | the loaded settings, persisted in a browser |
| ShareSettings.ShareSettingsStore.Persist | src/hooks/useShareSettings.ts:40-50 | in a browser, storage holds the current settings |
| ShareSettings.ShareSettingsStore.UpdateShareSettings | src/hooks/useShareSettings.ts:52-57 | given properties replace current ones; every other property is kept |
| ShareSettings.ShareSettingsStore.ResetShareSettings | src/hooks/useShareSettings.ts:59-61 | exactly the defaults |
| ShareExport.DisplayName | src/components/ShareNutsAboutStatsButton.tsx:159 | the name, or `Spieler <i+1>` when it is empty; never empty |
| ShareExport.PlayerNames | src/components/ShareNutsAboutStatsButton.tsx:159 | one non-empty name per player, in order, with the default for empty names |
| ShareExport.DefaultNamesDistinct | src/components/ShareNutsAboutStatsButton.tsx:159 | two unnamed players never get the same name |
| ShareExport.Tally | src/components/ShareNutsAboutStatsButton.tsx:162-177 | the record's keys are exactly the names |
| ShareExport.TallyLastWins | src/components/ShareNutsAboutStatsButton.tsx:162-177 | a name holds the value of its last occurrence |
| ShareExport.TallySnoc | src/components/ShareNutsAboutStatsButton.tsx:162-177 | one more assignment extends the record built so far by that entry |
| ShareExport.BonusFlags | src/components/ShareNutsAboutStatsButton.tsx:165 | a player's flag is true exactly when its upper sum is at least 73 |
| ShareExport.GrandTotals | src/components/ShareNutsAboutStatsButton.tsx:174 | each player's grand total, in order |
| ShareExport.Bonus | src/components/ShareNutsAboutStatsButton.tsx:162-168 | the record has one key per display name; `BonusSpec` states each entry |
| ShareExport.Points | src/components/ShareNutsAboutStatsButton.tsx:171-177 | the record has one key per display name; `PointsSpec` states each entry |
| ShareExport.BonusSpec | src/components/ShareNutsAboutStatsButton.tsx:162-168 | one entry per name; a name is true exactly when its last player's upper sum is at least 73 |
| ShareExport.PointsSpec | src/components/ShareNutsAboutStatsButton.tsx:171-177 | one entry per name, holding the grand total of its last player |
| ShareExport.SameNameLastWins | src/components/ShareNutsAboutStatsButton.tsx:171-177 | of two players with one name, the later one's total is exported |
| ShareExport.UnnamedPlayerPoints | src/components/ShareNutsAboutStatsButton.tsx:171-177 | an unnamed player's total is exported under its default name, unless a later player bears that name |
| ShareExport.NamedLikeDefaultHides | src/components/ShareNutsAboutStatsButton.tsx:159-177 | a player named `Spieler 1` hides an unnamed first player's total |
| ShareExport.GetBonus | src/components/ShareNutsAboutStatsButton.tsx:162-168 | the loop builds exactly the bonus record |
| ShareExport.GetPoints | src/components/ShareNutsAboutStatsButton.tsx:171-177 | the loop builds exactly the points record |
| ShareExport.StartingPlayer | src/components/ShareNutsAboutStatsButton.tsx:180 | the first display name, `''` without players |
| ShareExport.Leader | src/components/ShareNutsAboutStatsButton.tsx:185-193 | a name with the most points, the first such name on ties, `''` for no names |
| ShareExport.GetWinner | src/components/ShareNutsAboutStatsButton.tsx:183-194 | the winner has the most points of all display names and is the first such; `''` without players |
| ShareExport.LeadingSpace | src/components/ShareNutsAboutStatsButton.tsx:113 | the length of the leading white space |
| ShareExport.TrailingSpaceStart | src/components/ShareNutsAboutStatsButton.tsx:113 | where the trailing white space begins |
| ShareExport.Trim | src/components/ShareNutsAboutStatsButton.tsx:113 | empty exactly for all-white-space text; otherwise the text between the leading and trailing white space, starting and ending with non-space |
| ShareExport.TrimIdempotent | src/components/ShareNutsAboutStatsButton.tsx:113 | trimming a trimmed text changes nothing |
| ShareExport.SavedNameStable | src/components/ShareNutsAboutStatsButton.tsx:118-119 | a saved name is already trimmed, so saving it again stores the same name |
| ShareExport.SettingsDialog.constructor | src/components/ShareNutsAboutStatsButton.tsx:37-38 | the dialog starts closed, with the given edited name |
| ShareExport.SettingsDialog.IsSaveDisabled | src/components/ShareNutsAboutStatsButton.tsx:137 | saving is disabled exactly when the edited name is all white space |
| ShareExport.SettingsDialog.SaveShareSettings | src/components/ShareNutsAboutStatsButton.tsx:112-121 | a blank name changes nothing; otherwise the trimmed name becomes the game name, every other setting is kept, and the dialog closes |
| Common.Distinct | src/hooks/usePeerSync.ts:8 | no duplicates, the same members, no longer than the input |
| Common.DistinctPrefix | src/hooks/usePeerSync.ts:8 | first occurrences keep their order |
| Common.Without | src/hooks/usePeerSync.ts:46 | exactly the other members, order and duplicate-freedom kept |
| Common.NatToString | src/components/ShareNutsAboutStatsButton.tsx:159 | a non-empty string of decimal digits without a leading zero |
| Common.DigitsValueOfNatToString | src/components/ShareNutsAboutStatsButton.tsx:159 | the rendering reads back as the number |

## Left out

- Reading and parsing browser storage, and writing it as JSON text. Each storage key is an abstract `Stored` value (absent, unparseable, or a parsed JSON value). A saved game state that parses but has the wrong shape is not modelled: the source would fail at run time.
- Storage writes that throw, such as a full quota, and the console warnings logged for them and for parse failures.
- The peer-to-peer transport library. The local peer's and the connections' `open`, `data`, `close` and `error` events are explicit methods. Its `destroy` on reset, and whether the transport itself still considers a connection open after an `error`, are not modelled.
- An incoming connection that is refused is not recorded as a channel. It is closed at once and has no further effect on the bookkeeping.
- Real timers and timing. The 10-second connection timeout and the long-press delay are explicit events (`OnTimeout`, `TimerFires`), and the order of events across peers is not modelled.
- React scheduling: state updates batched per render, the effects re-run when callback identities change (which re-runs `initPeer`), and callbacks that see an old `isPeerReady` through a stale closure. Every method sees the current field values.
- JavaScript key order of records. It matters to `connectionsRef.forEach` in broadcast and reset, and to the exported records. The model states the sets of recipients and the record contents, not their order.
- `Date.now()` player ids: `AddPlayer` takes the new id as a parameter, and uniqueness is not guaranteed.
- `parseInt` returning `NaN` and floating-point arithmetic: cell values are unbounded integers or absent.
- `revancheGame`, version checks and a `setGameState` export. They do not appear in the modelled hooks.
- The Web Share API, file construction and the exported JSON text. The model stops at the payload's records.
- The share button's tooltip, the hide-settings timer, and the dialog's `tempGameName` syncing effect and open handler.
- ShareExport.SettingsDialog.SaveShareSettings: the edited name is always text. A stored `gameName` that is not a string, which the source would fail to trim, is not modelled.
- ShareExport.Tally: a player named `__proto__` is not modelled. JavaScript's `record[name] = value` with that name calls the prototype setter, which ignores a boolean or a number, so the record gets no such key. The model gives the name an ordinary entry.
- ShareExport.Bonus: its "one entry per display name" does not hold in the source for a player named `__proto__`, which JavaScript gives no entry (see ShareExport.Tally).
- ShareExport.Points: its "one entry per display name" does not hold in the source for a player named `__proto__`, which JavaScript gives no entry (see ShareExport.Tally).
- ShareExport.BonusSpec: its "one entry per display name" does not hold in the source for a player named `__proto__`, which JavaScript gives no entry (see ShareExport.Tally).
- ShareExport.PointsSpec: its "one entry per display name" does not hold in the source for a player named `__proto__`, which JavaScript gives no entry (see ShareExport.Tally).
- ShareExport.GetBonus: its "one entry per display name" does not hold in the source for a player named `__proto__`, which JavaScript gives no entry (see ShareExport.Tally).
- ShareExport.GetPoints: its "one entry per display name" does not hold in the source for a player named `__proto__`, which JavaScript gives no entry (see ShareExport.Tally).
- ShareExport.Leader: for a player named `__proto__`, `points[name] ?? 0` yields `Object.prototype`, and every `>` against it is false. So in the source a first player with that name always wins and a later one never does. The model compares that name's points like any other name's.
- ShareExport.GetWinner: inherits the `__proto__` gap of ShareExport.Leader.
- Presentation components, layout and element-size observation.
