/** The engine as the source builds it: players are objects whose fields the
    actions update in place, and the game object owns the roster, the turn
    and the bribe flag. The six actions of Player, the effects of arrest and
    sanction, and the methods of Game from Winner to TurnManager are each
    proved against a function of module Rules: they return what it returns
    and change the game's abstract table exactly as it does. Most share the
    function's name; HaveArrestsOptions is proved against HaveArrestOptions,
    ProbeActive against Probe and StepToActive against Rotate, and the
    helpers Earn and Note against AddCoins and Record. The setters, the
    constructors, ClearPlayers, AddPlayer, MarkSanctioned, Deactivate and the
    role abilities have no Rules counterpart: their contracts state the new
    field values directly. */
module Engine {
  import opened Actions
  import opened Roles
  import Rules

  /** Player, with its role subclasses folded into the constant `role`. */
  class Player {
    var name: string
    const role: Role
    var coins: int
    var active: bool
    var sanction: bool
    var canArrest: bool
    var lastArrested: bool
    var lastAction: GameAction

    /** The player's fields as a value. */
    function View(): Rules.Seat
      reads this
    {
      Rules.Seat(name, role, coins, active, sanction, canArrest, lastArrested, lastAction)
    }

    /** A new player: no coins, active, unsanctioned, free to arrest. The
        source leaves the last action uninitialised; it starts at NONE here. */
    constructor (name: string, role: Role)
      ensures View() == Rules.Seat(name, role, 0, true, false, true, false, NONE)
    {
      this.name := name;
      this.role := role;
      coins := 0;
      active := true;
      sanction := false;
      canArrest := true;
      lastArrested := false;
      lastAction := NONE;
    }

    method SetName(name: string)
      modifies this`name
      ensures this.name == name
    {
      this.name := name;
    }

    method SetCoins(coins: int)
      modifies this`coins
      ensures this.coins == coins
    {
      this.coins := coins;
    }

    method SetActive(active: bool)
      modifies this`active
      ensures this.active == active
    {
      this.active := active;
    }

    method SetSanction(sanction: bool)
      modifies this`sanction
      ensures this.sanction == sanction
    {
      this.sanction := sanction;
    }

    method SetCanArrest(canArrest: bool)
      modifies this`canArrest
      ensures this.canArrest == canArrest
    {
      this.canArrest := canArrest;
    }

    method SetLastArrested(lastArrested: bool)
      modifies this`lastArrested
      ensures this.lastArrested == lastArrested
    {
      this.lastArrested := lastArrested;
    }

    method SetLastAction(act: GameAction)
      modifies this`lastAction
      ensures lastAction == act
    {
      lastAction := act;
    }

    // ------------------------------------------------------- base actions

    /** The mark a sanction leaves, as the game's roster sees it. */
    method MarkSanctioned(ghost game: Game)
      requires game.Valid() && this in game.players
      modifies this`sanction
      ensures game.Seats() == old(game.Seats())[game.SeatOf(this) := old(game.Seats())[game.SeatOf(this)].(sanction := true)]
    {
      sanction := true;
      assert game.Seats() == old(game.Seats())[game.SeatOf(this) := View()];
    }

    /** The elimination a coup causes, as the game's roster sees it. */
    method Deactivate(ghost game: Game)
      requires game.Valid() && this in game.players
      modifies this`active
      ensures game.Seats() == old(game.Seats())[game.SeatOf(this) := old(game.Seats())[game.SeatOf(this)].(active := false)]
    {
      active := false;
      assert game.Seats() == old(game.Seats())[game.SeatOf(this) := View()];
    }

    /** The coins change of an action, as the game's roster sees it. */
    method Earn(ghost game: Game, d: int)
      requires game.Valid() && this in game.players
      modifies this`coins
      ensures game.Seats() == Rules.AddCoins(old(game.Seats()), game.SeatOf(this), d)
    {
      coins := coins + d;
      assert game.Seats() == old(game.Seats())[game.SeatOf(this) := View()];
    }

    /** The recording of an action, as the game's roster sees it. */
    method Note(ghost game: Game, act: GameAction)
      requires game.Valid() && this in game.players
      modifies this`lastAction
      ensures game.Seats() == Rules.Record(old(game.Seats()), game.SeatOf(this), act)
    {
      lastAction := act;
      assert game.Seats() == old(game.Seats())[game.SeatOf(this) := View()];
    }

    /** Player::gather. */
    method Gather(game: Game) returns (r: Outcome)
      requires game.Valid() && game.TurnInRange() && this in game.players
      modifies game, game.players
      ensures game.Valid() && game.TurnInRange() && game.players == old(game.players)
      ensures Rules.Step(r, game.Table()) == Rules.Gather(old(game.Table()), game.SeatOf(this))
    {
      ghost var t := game.Table();
      ghost var a := game.SeatOf(this);
      r := game.CheckValidMove(this);
      if r.Fail? {
        return;
      }
      if sanction {
        return Fail(Sanctioned);
      }
      Earn(game, 1);
      Note(game, GATHER);
      r := game.TurnManager();
    }

    /** Player::tax, with the Governor's override folded in. */
    method Tax(game: Game) returns (r: Outcome)
      requires game.Valid() && game.TurnInRange() && this in game.players
      modifies game, game.players
      ensures game.Valid() && game.TurnInRange() && game.players == old(game.players)
      ensures Rules.Step(r, game.Table()) == Rules.Tax(old(game.Table()), game.SeatOf(this))
    {
      ghost var t := game.Table();
      ghost var a := game.SeatOf(this);
      r := game.CheckValidMove(this);
      if r.Fail? {
        return;
      }
      if sanction {
        return Fail(Sanctioned);
      }
      Earn(game, Rules.TaxGain(role));
      Note(game, TAX);
      r := game.TurnManager();
    }

    /** Player::bribe. */
    method Bribe(game: Game) returns (r: Outcome)
      requires game.Valid() && game.TurnInRange() && this in game.players
      modifies game, game.players
      ensures game.Valid() && game.TurnInRange() && game.players == old(game.players)
      ensures Rules.Step(r, game.Table()) == Rules.Bribe(old(game.Table()), game.SeatOf(this))
    {
      ghost var t := game.Table();
      ghost var a := game.SeatOf(this);
      r := game.CheckValidMove(this);
      if r.Fail? {
        return;
      }
      if coins < 4 {
        return Fail(NotEnoughMoney);
      }
      Earn(game, -4);
      Note(game, BRIBE);
      game.SetIsBribe(false);
      r := game.TurnManager();
    }

    /** Player::arrest of `other`. */
    method Arrest(game: Game, other: Player) returns (r: Outcome)
      requires game.Valid() && game.TurnInRange() && this in game.players && other in game.players
      modifies game, game.players
      ensures game.Valid() && game.TurnInRange() && game.players == old(game.players)
      ensures Rules.Step(r, game.Table())
           == Rules.Arrest(old(game.Table()), game.SeatOf(this), game.SeatOf(other))
    {
      ghost var t := game.Table();
      ghost var a := game.SeatOf(this);
      ghost var o := game.SeatOf(other);
      r := game.CheckValidMove(this);
      if r.Fail? {
        return;
      }
      if other.coins < 1 {
        return Fail(TargetHasNoMoney);
      }
      if other.role == Merchant && other.coins < 2 {
        return Fail(MerchantLacksTwo);
      }
      ArrestEffect(game, other);
      r := game.TurnManager();
    }

    /** The coins and record an arrest of `other` leaves. */
    method ArrestEffect(ghost game: Game, other: Player)
      requires game.Valid() && this in game.players && other in game.players
      modifies this`coins, this`lastAction, other`coins
      ensures game.Seats() == Rules.ArrestEffect(old(game.Seats()), game.SeatOf(this), game.SeatOf(other))
    {
      ghost var t := game.Seats();
      ghost var a := game.SeatOf(this);
      ghost var o := game.SeatOf(other);
      Earn(game, 1);
      other.Earn(game, -1);
      ghost var s1 := Rules.AddCoins(Rules.AddCoins(t, a, 1), o, -1);
      if other.role == General {
        Earn(game, -1);
        other.Earn(game, 1);
      }
      ghost var s2 := if t[o].role == General then Rules.AddCoins(Rules.AddCoins(s1, a, -1), o, 1) else s1;
      assert game.Seats() == s2;
      if other.role == Merchant {
        Earn(game, -1);
        other.Earn(game, -1);
      }
      Note(game, ARREST);
    }

    /** Player::sanction of `other`. */
    method Sanction(game: Game, other: Player) returns (r: Outcome)
      requires game.Valid() && game.TurnInRange() && this in game.players && other in game.players
      modifies game, game.players
      ensures game.Valid() && game.TurnInRange() && game.players == old(game.players)
      ensures Rules.Step(r, game.Table())
           == Rules.Sanction(old(game.Table()), game.SeatOf(this), game.SeatOf(other))
    {
      ghost var t := game.Table();
      ghost var a := game.SeatOf(this);
      ghost var o := game.SeatOf(other);
      r := game.CheckValidMove(this);
      if r.Fail? {
        return;
      }
      if coins <= 2 {
        return Fail(NotEnoughMoney);
      }
      SanctionEffect(game, other);
      r := game.TurnManager();
    }

    /** The coins, mark and record a sanction of `other` leaves. */
    method SanctionEffect(ghost game: Game, other: Player)
      requires game.Valid() && this in game.players && other in game.players
      modifies this`coins, this`lastAction, other`coins, other`sanction
      ensures game.Seats() == Rules.SanctionEffect(old(game.Seats()), game.SeatOf(this), game.SeatOf(other))
    {
      ghost var t := game.Seats();
      ghost var a := game.SeatOf(this);
      ghost var o := game.SeatOf(other);
      Earn(game, -3);
      ghost var s1 := Rules.AddCoins(t, a, -3);
      if other.role == Judge {
        Earn(game, -1);
      } else if other.role == Baron {
        other.Earn(game, 1);
      }
      ghost var s2 := if t[o].role == Judge then Rules.AddCoins(s1, a, -1)
                      else if t[o].role == Baron then Rules.AddCoins(s1, o, 1)
                      else s1;
      assert game.Seats() == s2;
      other.MarkSanctioned(game);
      Note(game, SANCTION);
    }

    /** Player::coup of `other`. The announcement of the winner is console
        output and is not modelled. */
    method Coup(game: Game, other: Player) returns (r: Outcome)
      requires game.Valid() && game.TurnInRange() && this in game.players && other in game.players
      modifies game, game.players
      ensures game.Valid() && game.TurnInRange() && game.players == old(game.players)
      ensures Rules.Step(r, game.Table())
           == Rules.Coup(old(game.Table()), game.SeatOf(this), game.SeatOf(other))
    {
      ghost var t := game.Table();
      ghost var a := game.SeatOf(this);
      ghost var o := game.SeatOf(other);
      r := game.CheckValidMove(this);
      if r.Fail? {
        return;
      }
      if coins <= 6 {
        return Fail(NotEnoughMoney);
      }
      Earn(game, -7);
      other.Deactivate(game);
      assert game.Seats() == Rules.CoupEffect(t.seats, a, o);
      r := game.Settle();
    }

    // ------------------------------------------------------ role abilities

    /** General::uniqe: pay five coins to cancel `action`'s coup and bring
        `target` back. A couped General may still save itself. */
    method BlockCoup(action: Player, target: Player) returns (r: Outcome)
      requires role == General
      modifies this`coins, action`lastAction, target`active
      ensures r == Pass <==>
        (old(active) || old(target.name) == name) && old(coins) >= 5 && old(action.lastAction) == COUP
      ensures r == Fail(NotActive) <==> !old(active) && old(target.name) != name
      ensures r == Fail(LacksCoins) <==> (old(active) || old(target.name) == name) && old(coins) < 5
      ensures r == Fail(OnlyBlocksCoup) <==>
        (old(active) || old(target.name) == name) && old(coins) >= 5 && old(action.lastAction) != COUP
      ensures r.Fail? ==> coins == old(coins) && action.lastAction == old(action.lastAction)
                          && target.active == old(target.active)
      ensures r == Pass ==> coins == old(coins) - 5 && action.lastAction == NONE && target.active
    {
      if !active && target.name != name {
        return Fail(NotActive);
      }
      if coins < 5 {
        return Fail(LacksCoins);
      }
      if action.lastAction != COUP {
        return Fail(OnlyBlocksCoup);
      }
      action.SetLastAction(NONE);
      coins := coins - 5;
      target.SetActive(true);
      r := Pass;
    }

    /** Governor::uniqe: take back the tax `other` last collected. */
    method BlockTax(other: Player) returns (r: Outcome)
      requires role == Governor
      modifies other`coins
      ensures r == Pass <==> active && other.lastAction == TAX
      ensures !active ==> r == Fail(NotActive)
      ensures active && other.lastAction != TAX ==> r == Fail(OnlyBlocksTax)
      ensures other.coins == if r == Pass then old(other.coins) - Rules.TaxGain(other.role) else old(other.coins)
    {
      if !active {
        return Fail(NotActive);
      }
      if other.lastAction != TAX {
        return Fail(OnlyBlocksTax);
      }
      if other.role == Governor {
        other.SetCoins(other.coins - 3);
      } else {
        other.SetCoins(other.coins - 2);
      }
      r := Pass;
    }

    /** Judge::uniqe: fine `other` five coins for its bribe, with no floor. */
    method BlockBribe(other: Player) returns (r: Outcome)
      requires role == Judge
      modifies other`coins
      ensures r == Pass <==> active && other.lastAction == BRIBE
      ensures !active ==> r == Fail(NotActive)
      ensures active && other.lastAction != BRIBE ==> r == Fail(OnlyBlocksBribe)
      ensures other.coins == if r == Pass then old(other.coins) - 5 else old(other.coins)
    {
      if !active {
        return Fail(NotActive);
      }
      if other.lastAction != BRIBE {
        return Fail(OnlyBlocksBribe);
      }
      other.SetCoins(other.coins - 3);
      other.SetCoins(other.coins - 2);
      r := Pass;
    }

    /** Baron::uniqe: invest three coins' worth, between three and nine coins. */
    method Invest() returns (r: Outcome)
      requires role == Baron
      modifies this`coins
      ensures r == Pass <==> active && 3 <= old(coins) <= 9
      ensures !active ==> r == Fail(NotActive)
      ensures active && old(coins) < 3 ==> r == Fail(LacksCoins)
      ensures active && old(coins) > 9 ==> r == Fail(MustCoup)
      ensures coins == if r == Pass then old(coins) + 3 else old(coins)
    {
      if !active {
        return Fail(NotActive);
      }
      if coins < 3 {
        return Fail(LacksCoins);
      }
      if coins > 9 {
        return Fail(MustCoup);
      } else {
        coins := coins + 3;
      }
      r := Pass;
    }

    /** Spy::uniqe: stop an active `other` from arresting until its next turn. */
    method DisableArrest(other: Player) returns (r: Outcome)
      requires role == Spy
      modifies other`canArrest
      ensures r == Pass <==> active && other.active
      ensures !active ==> r == Fail(NotActive)
      ensures active && !other.active ==> r == Fail(TargetNotActive)
      ensures other.canArrest == if r == Pass then false else old(other.canArrest)
    {
      if !active {
        return Fail(NotActive);
      }
      if !other.active {
        return Fail(TargetNotActive);
      }
      other.SetCanArrest(false);
      r := Pass;
    }
  }

  /** PlayerFactory::createPlayer. */
  method CreatePlayer(role: string, name: string) returns (p: Player)
    ensures fresh(p)
    ensures p.View() == Rules.Seat(name, RoleFor(role), 0, true, false, true, false, NONE)
  {
    p := new Player(name, RoleFor(role));
  }

  /** The coordinator. */
  class Game {
    var players: seq<Player>
    var turn: int
    var isBribe: bool

    /** No player sits twice in the roster. */
    ghost predicate Valid()
      reads this`players
    {
      forall i, j :: 0 <= i < j < |players| ==> players[i] != players[j]
    }

    /** The turn indexes the roster whenever there is one: the source reads
        the seat at the turn without a bounds check. */
    predicate TurnInRange()
      reads this`players, this`turn
    {
      |players| > 0 ==> 0 <= turn < |players|
    }

    /** The seat a roster member occupies. */
    ghost function SeatOf(p: Player): (i: nat)
      requires Valid() && p in players
      reads this`players
      ensures i < |players| && players[i] == p
    {
      var i :| 0 <= i < |players| && players[i] == p; i
    }

    /** The roster as values. */
    function Seats(): (s: seq<Rules.Seat>)
      reads this`players, players
      ensures |s| == |players| && forall i :: 0 <= i < |players| ==> s[i] == players[i].View()
    {
      SeatsOf(players)
    }

    static function SeatsOf(ps: seq<Player>): (s: seq<Rules.Seat>)
      reads ps
      ensures |s| == |ps| && forall i :: 0 <= i < |ps| ==> s[i] == ps[i].View()
    {
      if ps == [] then [] else [ps[0].View()] + SeatsOf(ps[1..])
    }

    /** The whole game as a value. */
    function Table(): Rules.Table
      reads this, players
    {
      Rules.Table(Seats(), turn, isBribe)
    }

    /** Game::Game. */
    constructor ()
      ensures Valid() && players == [] && turn == 0 && !isBribe
    {
      players := [];
      turn := 0;
      isBribe := false;
    }

    /** Game::clear_players: the roster is emptied and the state reset. */
    method ClearPlayers()
      modifies this
      ensures Valid() && players == [] && turn == 0 && !isBribe
    {
      players := [];
      turn := 0;
      isBribe := false;
    }

    /** A seat is added at the end of the roster, which is how the roster is
        filled through the reference get_players() hands out. */
    method AddPlayer(p: Player)
      requires Valid() && p !in players
      modifies this`players
      ensures Valid() && players == old(players) + [p]
    {
      players := players + [p];
    }

    method SetTurn(turn: int)
      modifies this`turn
      ensures this.turn == turn
    {
      this.turn := turn;
    }

    method SetIsBribe(isBribe: bool)
      modifies this`isBribe
      ensures this.isBribe == isBribe
    {
      this.isBribe := isBribe;
    }

    /** Game::winner. */
    method Winner() returns (r: Result<string>)
      ensures r == Rules.Winner(Seats())
    {
      var won := "";
      var count := 0;
      var i := 0;
      while i < |players|
        invariant 0 <= i <= |players|
        invariant count == Rules.ActiveCount(Seats()[..i])
        invariant count > 0 ==> won == Seats()[Rules.LastActive(Seats()[..i])].name
      {
        assert Seats()[..i + 1][..i] == Seats()[..i];
        if players[i].active {
          count := count + 1;
          won := players[i].name;
        }
        i := i + 1;
      }
      assert Seats()[..i] == Seats();
      if count == 1 {
        return Ok(won);
      }
      return Err(NoWinner);
    }

    /** Game::is_current. */
    function IsCurrent(p: Player): (r: Result<bool>)
      requires TurnInRange()
      reads this, players, p
      ensures r == Rules.IsCurrent(Table(), p.name)
    {
      if |players| == 0 then Err(NoPlayers) else Ok(players[turn].name == p.name)
    }

    /** Game::check_valid_move. */
    function CheckValidMove(p: Player): (r: Outcome)
      requires TurnInRange()
      reads this, players, p
      ensures r == Rules.CheckValidMove(Table(), p.View())
    {
      if !p.active then Fail(NotActive)
      else
        match IsCurrent(p)
        case Err(e) => Fail(e)
        case Ok(current) =>
          if !current then Fail(OutOfTurn)
          else if p.coins > 9 && p.lastAction != COUP then Fail(MustCoup)
          else Pass
    }

    /** Game::have_arrests_options. */
    method HaveArrestsOptions(p: Player) returns (r: bool)
      ensures r == Rules.HaveArrestOptions(Table(), p.View())
    {
      if !p.canArrest {
        return false;
      }
      var i := 0;
      while i < |players|
        invariant 0 <= i <= |players|
        invariant forall j :: 0 <= j < i ==> !Rules.ArrestTarget(Table(), j)
      {
        var q := players[i];
        if i != turn && q.active && !q.lastArrested {
          var c := q.coins;
          if c > 0 || (q.role == Merchant && c > 1) {
            assert Rules.ArrestTarget(Table(), i);
            return true;
          }
        }
        i := i + 1;
      }
      return false;
    }

    /** Game::can_take_action. */
    method CanTakeAction(p: Player) returns (r: bool)
      ensures r == Rules.CanTakeAction(Table(), p.View())
    {
      if !p.sanction {
        return true;
      }
      if p.coins > 2 {
        return true;
      }
      if p.role == Baron && p.coins > 2 {
        return true;
      }
      r := HaveArrestsOptions(p);
    }

    /** The first part of Game::turn_manager: the outgoing player's
        sanction is lifted and its arrest restored. */
    method ClearOutgoing()
      requires Valid() && |players| > 0 && TurnInRange()
      modifies players
      ensures Table() == Rules.ClearOutgoing(old(Table()))
    {
      ghost var s := Seats();
      var current := players[turn];
      if current.sanction {
        current.SetSanction(false);
      }
      if !current.canArrest {
        current.SetCanArrest(true);
      }
      assert Seats() == s[turn := current.View()];
    }

    /** The do-while of Game::turn_manager, walked without moving the turn:
        the number of cyclic steps from the current seat to the next active
        one, or None when a whole lap finds no active seat (where the source
        would loop forever). */
    method ProbeActive() returns (r: Option<nat>)
      requires |players| > 0 && TurnInRange()
      ensures r == Rules.Probe(Seats(), turn, 1)
    {
      ghost var s := Seats();
      var n := |players|;
      Rules.Wrap(turn, 1, n);
      var next := (turn + 1) % n;
      var k := 1;
      while !players[next].active
        invariant 1 <= k <= n && 0 <= next < n && next == (turn + k) % n
        invariant forall j :: 1 <= j < k ==> !Rules.ActiveAt(s, turn, j)
        decreases n - k
      {
        assert !Rules.ActiveAt(s, turn, k);
        if k == n {
          Rules.ProbeMisses(s, turn);
          return None;
        }
        Rules.Wrap(turn, k, n);
        Rules.Wrap(turn, k + 1, n);
        Rules.Wrap(next, 1, n);
        next := (next + 1) % n;
        k := k + 1;
      }
      assert Rules.ActiveAt(s, turn, k);
      Rules.ProbeFinds(s, turn, k);
      r := Some(k);
    }

    /** The turn moves to the next active seat, if there is one. */
    method StepToActive() returns (found: bool)
      requires |players| > 0 && TurnInRange()
      modifies this`turn
      ensures TurnInRange()
      ensures found == Rules.Rotate(old(Table())).Some?
      ensures Table() == if found then Rules.Rotate(old(Table())).value else old(Table())
    {
      ghost var s := Seats();
      var p := ProbeActive();
      found := p.Some?;
      if found {
        turn := (turn + p.value) % |players|;
        assert Seats() == s;
      }
    }

    /** The end of Player::coup: a winner stops the game where it is, and
        otherwise the turn advances. */
    method Settle() returns (r: Outcome)
      requires Valid() && TurnInRange()
      modifies this, players
      ensures Valid() && TurnInRange() && players == old(players)
      ensures Rules.Step(r, Table()) == Rules.Settle(old(Table()))
    {
      var w := Winner();
      if w.Ok? {
        return Pass;
      }
      r := TurnManager();
    }

    /** The Merchant bonus of Game::turn_manager, paid to the seat whose turn it now is. */
    method PayMerchant()
      requires Valid() && |players| > 0 && TurnInRange()
      modifies players
      ensures Table() == Rules.PayMerchant(old(Table()))
    {
      var landed := players[turn];
      if landed.role == Merchant && landed.coins > 2 {
        landed.SetCoins(landed.coins + 1);
      }
      assert Seats() == old(Seats())[turn := landed.View()];
    }

    /** One pass of the body of Game::turn_manager: the outcome when the
        pass settles, None when the turn manager must go round again. */
    method TurnRound() returns (r: Option<Outcome>)
      requires Valid() && TurnInRange() && |players| > 0
      modifies this, players
      ensures Valid() && TurnInRange() && players == old(players)
      ensures match Rules.TurnRound(old(Table()))
              case Settled(step) => r == Some(step.outcome) && Table() == step.after
              case Continue(m) => r == None && Table() == m
    {
      ClearOutgoing();
      if isBribe {
        isBribe := false;
        return Some(Pass);
      }
      r := Land();
    }

    /** The pass once no bribe is pending: step to the next active seat, pay
        a Merchant landed on, and settle when that seat can act. */
    method Land() returns (r: Option<Outcome>)
      requires Valid() && TurnInRange() && |players| > 0
      modifies this`turn, players
      ensures Valid() && TurnInRange()
      ensures match Rules.Land(old(Table()))
              case Settled(step) => r == Some(step.outcome) && Table() == step.after
              case Continue(m) => r == None && Table() == m
    {
      var found := StepToActive();
      if !found {
        return Some(Fail(NoActiveSeat));
      }
      PayMerchant();
      var can := CanTakeAction(players[turn]);
      if can {
        return Some(Pass);
      }
      r := None;
    }

    /** Game::turn_manager. */
    method TurnManager() returns (r: Outcome)
      requires Valid() && TurnInRange()
      modifies this, players
      ensures Valid() && TurnInRange() && players == old(players)
      ensures Rules.Step(r, Table()) == Rules.TurnManager(old(Table()))
      decreases Rules.Pending(Table())
    {
      if |players| == 0 {
        return Fail(NoPlayers);
      }
      var settled := TurnRound();
      if settled.Some? {
        return settled.value;
      }
      r := TurnManager();
    }
  }
}
