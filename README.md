# Coup rules engine, modelled in Dafny

This project models the rules engine of a C++ implementation of the card
game Coup. The engine has three parts:

- the `Game` coordinator, which keeps the roster of players, the index of the
  seat whose turn it is, and the bribe flag;
- the six actions of `Player`: gather, tax, bribe, arrest, sanction and coup;
- the special abilities of the General, Governor, Judge, Baron and Spy roles,
  and the factory that picks a role from a string.

The model has two layers.

- **Rules** (`rules.dfy`): the engine on plain values. A `Seat` holds every
  field the engine reads or writes of one player. A `Table` holds the roster,
  the turn and the bribe flag. Each coordinator operation and each action
  maps a table to a `Step`: an outcome (`Pass`, or `Fail` with the error the
  source would throw) and the table left behind.
- **Engine** (`engine.dfy`): the source's objects. `Player` and `Game` are
  classes whose methods update fields in place, behind the same guards as
  the C++ code. The six actions of `Player`, the effects of arrest and
  sanction, and the methods of `Game` from `winner` to `turn_manager` are
  each proved against a function of Rules: they return what it returns and
  change the game's abstract table (`Game.Table()`) exactly as it does. Most
  share the function's name; `Game.HaveArrestsOptions` is proved against
  `Rules.HaveArrestOptions`, `Game.ProbeActive` against `Rules.Probe` and
  `Game.StepToActive` against `Rules.Rotate`. The helpers `Player.Earn` and
  `Player.Note` are proved against `Rules.AddCoins` and `Rules.Record`. The
  setters, the constructors, `Game.ClearPlayers`, `Game.AddPlayer`,
  `Player.MarkSanctioned`, `Player.Deactivate` and the role abilities have
  no Rules counterpart: their contracts state the new field values directly.

`turn_manager`'s do-while moves `_turn` one seat at a time until it reaches
an active seat. The model splits this in two: `Game.ProbeActive` walks the
same seats in a loop and counts the steps without moving the turn, and
`Game.StepToActive` then sets the turn once. The final turn is the one the
do-while reaches. The self-call of `turn_manager` becomes a recursive method.

`rules_facts.dfy` proves what the engine promises about those functions.
`actions.dfy` and `roles.dfy` hold the action enum, the error kinds and the
role tags.

The roster's players are distinct objects (`Game.Valid`). Every actor and
target of an action is a roster member. The turn indexes the roster whenever
the roster is not empty (`TurnInRange`): the source reads `_players[_turn]`
without a bounds check, so an out-of-range turn is undefined behaviour there.

Where the code and the game's documentation or tests disagree, the model
follows the code:

- Players start with 0 coins.
- A bribe sets the bribe flag to false before advancing, so the briber gets
  no extra action: when the next seat is active and unsanctioned, the turn
  moves there (`RulesFacts.BribeGrantsNoBonusTurn`).
- A coup never records COUP as the actor's last action. So a player with ten
  or more coins is refused every action, the coup included
  (`RulesFacts.ForcedCoupRefused`), no seat ever records COUP
  (`RulesFacts.UntargetedMovesRecordNoCoup`,
  `RulesFacts.TargetedMovesRecordNoCoup`), and the General's block of a coup
  always fails in play.
- The Judge's block fines the briber but does not touch the bribe flag.
- Coins are not bounded below: a valid sanction of a Judge by a player with
  three coins succeeds and leaves that player at -1
  (`RulesFacts.SanctionJudgeGoesNegative`).
- The Merchant clause of `have_arrests_options` and the Baron clause of
  `can_take_action` add nothing to the clauses before them
  (`RulesFacts.ArrestTargetPlain`, `RulesFacts.CanTakeActionPlain`). A
  Merchant with one coin that is active, not last arrested and not the
  current seat therefore counts as someone to arrest, yet arresting it is
  refused (`RulesFacts.MerchantArrestOptionRefused`).
- A freshly constructed player's last action is left uninitialised by the
  C++ constructor; here it starts at NONE.
- `Spy::uniqe` as written does not compile: it uses a getter and a setter as
  if they were fields. The model takes the evident meaning: refuse an
  inactive Spy or target, otherwise clear the target's `canArrest`.
- `Governor::tax` is declared as an override; its body is not part of this
  model. The game's tests expect a Governor's tax to earn three coins,
  and the model uses that (`Rules.TaxGain`).
- When no seat at all is active, `turn_manager`'s do-while never ends. This
  happens when the last active player coups itself with no bribe pending.
  The model reports it as `Fail(NoActiveSeat)`
  (`RulesFacts.SelfCoupFindsNoSeat`).
- `turn_manager` calls itself when the seat it lands on cannot act. The
  recursion terminates: a seat that cannot act is sanctioned, and every round
  clears one sanction (measure `Rules.Pending`).

## Model

| member | source | states |
|---|---|---|
| Roles.RoleFor | Players/PlayerFactory.hpp:11-19 | each of the six exact role strings yields its role, and any other string (other case, empty) yields a plain player, in both directions |
| Roles.RoleForRoleName | Players/PlayerFactory.hpp:11-19 | the factory maps the name of each role back to that role, and the empty name of a plain player to a plain player |
| Roles.RoleNameRoleFor | Players/PlayerFactory.hpp:12-17 | a string the factory recognises is exactly the name of the role it builds |
| Engine.CreatePlayer | Players/PlayerFactory.hpp:11-19 | one fresh player of the role the string selects, carrying the given name unchanged, in the initial state |
| Engine.Player.constructor | Players/Player.cpp:9-13 | a new player has 0 coins, is active, unsanctioned, may arrest, was not last arrested |
| Engine.Player.SetName | Players/Player.cpp:69-71 | the name becomes the given one, nothing else changes |
| Engine.Player.SetCoins | Players/Player.cpp:72-74 | the coins become the given value, nothing else changes |
| Engine.Player.SetActive | Players/Player.cpp:75-77 | the active flag becomes the given value, nothing else changes |
| Engine.Player.SetSanction | Players/Player.cpp:78-80 | the sanction flag becomes the given value, nothing else changes |
| Engine.Player.SetCanArrest | Players/Player.cpp:81-83 | the arrest right becomes the given value, nothing else changes |
| Engine.Player.SetLastArrested | Players/Player.cpp:84-86 | the last-arrested mark becomes the given value, nothing else changes |
| Engine.Player.SetLastAction | Players/Player.cpp:87-89 | the last action becomes the given value, nothing else changes |
| Engine.Player.Earn | Players/Player.cpp:97 | a change of one player's coins changes exactly that seat's coins in the roster |
| Engine.Player.Note | Players/Player.cpp:98 | recording an action changes exactly that seat's last action in the roster |
| Engine.Player.MarkSanctioned | Players/Player.cpp:157 | a sanction marks exactly the target's seat in the roster |
| Engine.Player.Deactivate | Players/Player.cpp:167 | a coup clears exactly the target's active flag in the roster |
| Engine.Player.Gather | Players/Player.cpp:92-100 | the outcome and the new table are those of `Rules.Gather`, the roster objects unchanged |
| Engine.Player.Tax | Players/Player.cpp:101-109 | the outcome and the new table are those of `Rules.Tax` |
| Engine.Player.Bribe | Players/Player.cpp:111-121 | the outcome and the new table are those of `Rules.Bribe`, the flag lowered before the advance |
| Engine.Player.Arrest | Players/Player.cpp:122-143 | the outcome and the new table are those of `Rules.Arrest` |
| Engine.Player.ArrestEffect | Players/Player.cpp:131-141 | the in-place coin moves and record of an arrest give the roster `Rules.ArrestEffect` |
| Engine.Player.Sanction | Players/Player.cpp:144-160 | the outcome and the new table are those of `Rules.Sanction` |
| Engine.Player.SanctionEffect | Players/Player.cpp:150-158 | the in-place coin moves, mark and record of a sanction give the roster `Rules.SanctionEffect` |
| Engine.Player.Coup | Players/Player.cpp:161-177 | the outcome and the new table are those of `Rules.Coup`: no advance when a winner exists |
| Engine.Player.BlockCoup | Players/General.cpp:4-17 | fails exactly when the General is out and not saving itself, or lacks 5 coins, or the action was not a coup; on success it pays 5, resets the action to NONE and revives the target; a failure changes nothing |
| Engine.Player.BlockTax | Players/Governor.cpp:4-18 | succeeds exactly when the Governor is active and the target's last action is TAX; then the target loses its tax gain (3 for a Governor, 2 otherwise) and keeps TAX recorded; only the target's coins may change |
| Engine.Player.BlockBribe | Players/Judge.cpp:4-13 | succeeds exactly when the Judge is active and the target's last action is BRIBE; then the target loses 5 coins with no floor; only the target's coins may change |
| Engine.Player.Invest | Players/Baron.cpp:6-19 | succeeds exactly when the Baron is active with 3 to 9 coins, and then gains 3; the three failures are told apart; only its coins may change |
| Engine.Player.DisableArrest | Players/Spy.cpp:4-13 | succeeds exactly when both Spy and target are active, and then clears the target's arrest right; only that flag may change |
| Engine.Game.constructor | Game.cpp:4-7 | an empty roster, turn 0, no bribe pending |
| Engine.Game.ClearPlayers | Game.cpp:22-29 | the roster is emptied, the turn is 0 and no bribe is pending |
| Engine.Game.AddPlayer | Game.cpp:30-32 | a player joins at the end of the roster and the roster stays free of repeats |
| Engine.Game.SetTurn | Game.cpp:40-42 | the turn becomes the given index |
| Engine.Game.SetIsBribe | Game.cpp:43-45 | the bribe flag becomes the given value |
| Rules.Winner | Game.cpp:51-64 | a winner exactly when one seat is active, named after that seat; NoWinner otherwise, an empty roster included |
| Engine.Game.Winner | Game.cpp:51-64 | the counting loop returns what `Rules.Winner` does |
| Rules.IsCurrent | Game.cpp:66-72 | an error exactly on an empty roster; otherwise whether the name matches the seat whose turn it is |
| Engine.Game.IsCurrent | Game.cpp:66-72 | the object version agrees with `Rules.IsCurrent` |
| Rules.CheckValidMove | Game.cpp:78-89 | a move passes exactly when the player is active, holds the turn and either has at most 9 coins or last did COUP; each failure reports its own error |
| Engine.Game.CheckValidMove | Game.cpp:78-89 | the object version agrees with `Rules.CheckValidMove` |
| Engine.Game.HaveArrestsOptions | Game.cpp:95-109 | the scan returns `Rules.HaveArrestOptions`: the right to arrest and some other active, unmarked seat holding a coin |
| RulesFacts.ArrestTargetPlain | Game.cpp:101-105 | a seat is a target exactly when it is another active seat, not last arrested, holding at least one coin |
| Engine.Game.CanTakeAction | Game.cpp:115-126 | the early returns give `Rules.CanTakeAction` |
| RulesFacts.CanTakeActionPlain | Game.cpp:115-126 | a player can act exactly when unsanctioned, or holding more than 2 coins, or having someone to arrest |
| Rules.Probe | Game.cpp:147-149 | the first step from the current seat that reaches an active seat, or None after a lap of inactive seats |
| RulesFacts.ProbeNoneIff | Game.cpp:147-149 | the walk finds nothing exactly when no seat of the roster is active |
| Engine.Game.ProbeActive | Game.cpp:147-149 | the do-while walked as a loop returns what `Rules.Probe` does |
| Rules.Rotate | Game.cpp:147-149 | the turn moves to an index in range; roster and bribe flag unchanged |
| RulesFacts.RotateLandsOnNextActive | Game.cpp:147-149 | the turn lands on the first active seat after the current one, cyclically, and finds none exactly when no seat is active |
| Engine.Game.StepToActive | Game.cpp:147-149 | the turn is moved as `Rules.Rotate` moves it, and left alone when no seat is active |
| Engine.Game.ClearOutgoing | Game.cpp:135-141 | the outgoing player is unsanctioned and may arrest again, nothing else changes |
| Engine.Game.PayMerchant | Game.cpp:151-153 | a Merchant with more than 2 coins whose turn it now is gains one coin, nothing else changes |
| Rules.Land | Game.cpp:147-156 | a round that settles ends in Pass or NoActiveSeat; a round that goes on lands on a sanctioned seat and keeps the number of sanctions |
| Engine.Game.Land | Game.cpp:147-156 | moving the turn, paying the Merchant and testing the landing seat settle or go round as `Rules.Land` does |
| Rules.TurnRound | Game.cpp:135-156 | one round keeps the roster size and the turn in range; a round that settles ends in Pass or NoActiveSeat; a round that goes on strictly lowers `Rules.Pending` |
| Engine.Game.TurnRound | Game.cpp:135-156 | one pass of the body settles or goes round as `Rules.TurnRound` does |
| Rules.TurnManager | Game.cpp:131-158 | the advance keeps the roster size and the turn in range, and terminates; it fails with NoPlayers exactly on an empty roster, and otherwise ends in Pass or NoActiveSeat |
| Engine.Game.TurnManager | Game.cpp:131-158 | the recursive method's outcome and new table are those of `Rules.TurnManager` |
| RulesFacts.TurnManagerOutcome | Game.cpp:131-145 | NoPlayers exactly on an empty roster; otherwise Pass or NoActiveSeat; a pending bribe is consumed with the turn kept; on a non-empty roster no bribe is ever left pending |
| RulesFacts.LandOutcome | Game.cpp:147-156 | a pass that settles fails exactly when the walk finds no active seat; a pass that goes round has landed on an active seat and keeps the bribe flag |
| RulesFacts.LandKeepsFlags | Game.cpp:147-153 | moving the turn and paying a Merchant change no seat's sanction mark or arrest right |
| RulesFacts.TurnManagerStalls | Game.cpp:147-149 | without a bribe pending, the advance fails exactly when no seat is active |
| RulesFacts.TurnManagerLands | Game.cpp:147-156 | a successful advance without a bribe lands on an active seat that can act |
| RulesFacts.TurnManagerClearsOutgoing | Game.cpp:135-141 | the outgoing player ends the advance unsanctioned and free to arrest |
| RulesFacts.TurnManagerKeeps | Game.cpp:131-158 | the advance never changes a name, role, active flag, arrest mark or last action; it only clears sanctions and restores arrest rights |
| RulesFacts.TurnRoundCoins | Game.cpp:147-156 | a round that goes on has moved no coins; one that settles has paid only the Merchant it lands on |
| RulesFacts.TurnManagerCoins | Game.cpp:151-153 | the only coin the advance moves is the one a Merchant with more than 2 coins gains where the turn settles |
| Rules.ClearOutgoing | Game.cpp:135-141 | the outgoing seat becomes unsanctioned and may arrest, none of its other fields changes, and no other seat, the turn or the bribe flag changes |
| Rules.PayMerchant | Game.cpp:151-153 | the seat whose turn it is gains one coin exactly when it is a Merchant with more than 2 coins; no other seat, the turn or the bribe flag changes |
| Rules.HaveArrestOptions | Game.cpp:95-109 | the arrest right and some other active, unmarked seat holding a coin; its plain form is stated by `RulesFacts.ArrestTargetPlain` |
| Rules.CanTakeAction | Game.cpp:115-126 | the early returns of `can_take_action`; its plain form is stated by `RulesFacts.CanTakeActionPlain` |
| Rules.Settle | Players/Player.cpp:168-176 | with a winner the game stops where it is with Pass; otherwise the advance runs, keeping the roster size and the turn in range, and can only end in Pass, NoPlayers or NoActiveSeat |
| Engine.Game.Settle | Players/Player.cpp:168-176 | after a coup the game stops where it is when there is a winner, and advances otherwise, as `Rules.Settle` does |
| RulesFacts.ValidMoveHoldsTurn | Game.cpp:78-89 | with distinct names, a move that passes the check is made by the seat whose turn it is |
| Rules.TaxGain | Players/Player.cpp:101-109 | a tax earns 3 coins exactly for a Governor and 2 for every other role |
| Rules.Gather | Players/Player.cpp:92-100 | the roster size and the turn range are kept; a failure is NotActive, OutOfTurn, MustCoup, Sanctioned or NoActiveSeat, and every failure but NoActiveSeat leaves the table as it was |
| Rules.Tax | Players/Player.cpp:101-109 | the roster size and the turn range are kept; a failure is NotActive, OutOfTurn, MustCoup, Sanctioned or NoActiveSeat, and every failure but NoActiveSeat leaves the table as it was |
| Rules.Bribe | Players/Player.cpp:111-121 | the roster size and the turn range are kept; a failure is NotActive, OutOfTurn, MustCoup, NotEnoughMoney or NoActiveSeat, and every failure but NoActiveSeat leaves the table as it was |
| Rules.Arrest | Players/Player.cpp:122-143 | the roster size and the turn range are kept; a failure is NotActive, OutOfTurn, MustCoup, TargetHasNoMoney, MerchantLacksTwo or NoActiveSeat, and every failure but NoActiveSeat leaves the table as it was |
| Rules.ArrestEffect | Players/Player.cpp:131-141 | the roster keeps its size and every seat but the actor's and the target's; no seat's active flag, name or role changes |
| Rules.Sanction | Players/Player.cpp:144-160 | the roster size and the turn range are kept; a failure is NotActive, OutOfTurn, MustCoup, NotEnoughMoney or NoActiveSeat, and every failure but NoActiveSeat leaves the table as it was |
| Rules.SanctionEffect | Players/Player.cpp:150-158 | the roster keeps its size and every seat but the actor's and the target's; no seat's active flag, name or role changes |
| Rules.Coup | Players/Player.cpp:161-177 | the roster size and the turn range are kept; a failure is NotActive, OutOfTurn, MustCoup, NotEnoughMoney or NoActiveSeat, and every failure but NoActiveSeat leaves the table as it was |
| Rules.CoupEffect | Players/Player.cpp:166-167 | the roster keeps its size and every seat but the actor's and the target's; exactly the target leaves the game |
| RulesFacts.ForcedCoupRefused | Game.cpp:85-87 | a player holding 10 or more coins whose last action is not COUP is refused every action, the coup included |
| RulesFacts.AdvanceRecordsNoCoup | Game.cpp:131-158 | the advance records no COUP |
| RulesFacts.AddCoinsRecordsNoCoup | Players/Player.cpp:97 | moving coins records no COUP |
| RulesFacts.EffectsRecordNoCoup | Players/Player.cpp:131-167 | the effects of arrest, sanction and coup record no COUP |
| RulesFacts.UntargetedMovesRecordNoCoup | Players/Player.cpp:92-121 | gather, tax and bribe never make any seat's last action COUP |
| RulesFacts.TargetedMovesRecordNoCoup | Players/Player.cpp:161-177 | arrest, sanction and coup never make any seat's last action COUP: a coup records nothing |
| RulesFacts.UntargetedMovesLeaveNoBribe | Players/Player.cpp:111-121 | starting with no bribe pending, after gather, tax or bribe no bribe is pending: the briber gets no extra action |
| RulesFacts.TargetedMovesLeaveNoBribe | Players/Player.cpp:122-177 | starting with no bribe pending, after arrest, sanction or coup no bribe is pending |
| RulesFacts.UntargetedMovesSucceed | Players/Player.cpp:92-121 | gather and tax succeed exactly when the move is valid and the actor is unsanctioned; a bribe exactly when it is valid and the actor holds 4 coins |
| RulesFacts.ArrestSucceeds | Players/Player.cpp:122-143 | an arrest succeeds exactly when the move is valid and the target holds a coin, two for a Merchant |
| RulesFacts.SanctionSucceeds | Players/Player.cpp:144-160 | a sanction succeeds exactly when the move is valid and the actor holds more than 2 coins |
| RulesFacts.CoupSucceeds | Players/Player.cpp:161-177 | a coup of another seat succeeds exactly when the move is valid and the actor holds more than 6 coins |
| RulesFacts.GatherGains | Players/Player.cpp:92-100 | a successful gather adds one coin and records GATHER, plus the Merchant bonus if the turn comes straight back |
| RulesFacts.TaxGains | Players/Player.cpp:101-109 | a successful tax adds 2 coins, 3 for a Governor, and records TAX, plus the Merchant bonus if the turn comes straight back |
| RulesFacts.BribeCosts | Players/Player.cpp:111-121 | a successful bribe costs 4 coins and records BRIBE, less the Merchant bonus if the turn comes straight back |
| RulesFacts.ArrestDeltas | Players/Player.cpp:131-141 | net coins of an arrest of another seat: +1/-1 for a plain target, 0/0 for a General, 0/-2 for a Merchant; ARREST recorded; no other field or seat changes |
| RulesFacts.SanctionDeltas | Players/Player.cpp:150-158 | in a sanction of another seat, the actor pays 3, or 4 against a Judge; a Baron target gains 1; the target is sanctioned; SANCTION recorded; no other seat changes |
| RulesFacts.CoupDeltas | Players/Player.cpp:166-167 | in a coup of another seat, the actor pays 7, the target leaves the game, no last action changes, no other seat changes |
| RulesFacts.SanctionJudgeGoesNegative | Players/Player.cpp:150-153 | on any table, a valid sanction of another seat that is a Judge, by an actor with exactly 3 coins, succeeds and leaves the actor at -1 coins |
| RulesFacts.LandOnNextSeat | Game.cpp:147-153 | when the seat after the current one is active and unsanctioned, the pass moves the turn there, pays a Merchant there, and settles with Pass |
| RulesFacts.AdvanceToNextSeat | Game.cpp:131-156 | with no bribe pending, when the next seat is active and unsanctioned, the advance succeeds with the turn on that seat and no bribe pending |
| RulesFacts.BribeGrantsNoBonusTurn | Players/Player.cpp:111-121 | on any table, a valid bribe with 4 or more coins succeeds and, when the next seat is active and unsanctioned, moves the turn to it with no bribe pending: no extra action |
| RulesFacts.MerchantArrestOptionRefused | Game.cpp:95-109 | on any table, an active Merchant with one coin, not last arrested and not the current seat, counts as someone to arrest for a player who may arrest, yet arresting it is refused with MerchantLacksTwo and nothing changes |
| RulesFacts.SelfCoupFindsNoSeat | Game.cpp:147-149 | on any table where the actor is the only active seat and no bribe is pending, a valid coup of itself finds no seat for the turn to move to |

## Left out

- The GUI (`Gui/`): SFML windows, layout and the event loop. Only the action
  enum is taken from it, with the NONE value the engine uses.
- `Game::instance` (the singleton), the destructor and the `delete` calls in
  `clear_players`: ownership plumbing. The game is an object built with its
  constructor.
- The console announcement of the winner in `Player::coup`: I/O.
- The getters of `Player` and `Game`: the model reads the fields directly.
- `Merchant.cpp` is not part of this model. Its behaviour enters
  only through the role tests in `Game.cpp` and `Player.cpp`, which are
  modelled.
- The body of `Governor::tax` is not part of this model. The model gives
  a Governor's tax 3 coins, as the game's tests expect.
- `turn_manager` looping forever when no seat is active is modelled as the
  outcome `NoActiveSeat` rather than as divergence.
- Engine.Game.AddPlayer: the source fills the roster by pushing onto the
  vector that `get_players` returns by reference. The model gives that a
  method, and requires that the player is not already seated.
- Integers are unbounded: the source's `int` coins and turn never come near
  32-bit overflow in play, and no wrap-around is modelled.
