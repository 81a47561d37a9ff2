/** The coordinator's rules on plain values: the roster is a sequence of
    seats, and every operation maps a table to an outcome and a new table.
    The classes in module Engine are proved to follow these functions. */
module Rules {
  import opened Actions
  import opened Roles

  /** Everything the engine reads or writes of one player. */
  datatype Seat = Seat(name: string, role: Role, coins: int, active: bool, sanction: bool,
                       canArrest: bool, lastArrested: bool, lastAction: GameAction)

  /** The coordinator: the roster in seat (turn) order, the seat to move, the bribe flag. */
  datatype Table = Table(seats: seq<Seat>, turn: int, isBribe: bool)

  /** What an operation reports and the table it leaves behind. */
  datatype Step = Step(outcome: Outcome, after: Table)

  /** The source indexes the roster with the turn without a bounds check;
      every operation that does so needs the index to be in range. */
  predicate TurnInRange(t: Table)
  {
    |t.seats| > 0 ==> 0 <= t.turn < |t.seats|
  }

  // ---------------------------------------------------------------- winner

  /** The number of active seats. */
  function ActiveCount(s: seq<Seat>): nat
  {
    if s == [] then 0 else ActiveCount(s[..|s| - 1]) + (if s[|s| - 1].active then 1 else 0)
  }

  /** The last active seat, which is the name the winner scan keeps. */
  function LastActive(s: seq<Seat>): (i: nat)
    requires ActiveCount(s) > 0
    ensures i < |s| && s[i].active
    ensures forall j :: i < j < |s| ==> !s[j].active
  {
    if s[|s| - 1].active then |s| - 1 else LastActive(s[..|s| - 1])
  }

  /** Two active seats make the count at least two. */
  lemma {:induction false} TwoActive(s: seq<Seat>, i: nat, j: nat)
    requires i < j < |s| && s[i].active && s[j].active
    ensures ActiveCount(s) >= 2
  {
    if j < |s| - 1 {
      TwoActive(s[..|s| - 1], i, j);
    } else {
      OneActive(s[..|s| - 1], i);
    }
  }

  /** An active seat makes the count at least one. */
  lemma {:induction false} OneActive(s: seq<Seat>, i: nat)
    requires i < |s| && s[i].active
    ensures ActiveCount(s) >= 1
  {
    if i < |s| - 1 {
      OneActive(s[..|s| - 1], i);
    }
  }

  /** Game::winner: the name of the only active seat when exactly one seat
      is active; NoWinner otherwise, including on an empty roster. */
  function Winner(s: seq<Seat>): (r: Result<string>)
    ensures r.Ok? <==> ActiveCount(s) == 1
    ensures r.Err? ==> r.error == NoWinner
    ensures r.Ok? ==> exists i :: 0 <= i < |s| && s[i].active && s[i].name == r.value
    ensures r.Ok? ==> forall i :: 0 <= i < |s| && s[i].active ==> s[i].name == r.value
  {
    if ActiveCount(s) == 1 then
      var w := LastActive(s);
      assert forall i :: 0 <= i < |s| && s[i].active ==> i == w by {
        forall i | 0 <= i < |s| && s[i].active ensures i == w {
          if i < w { TwoActive(s, i, w); }
        }
      }
      Ok(s[w].name)
    else
      Err(NoWinner)
  }

  // ------------------------------------------------------- move validation

  /** Game::is_current: compares names with the seat whose turn it is. */
  function IsCurrent(t: Table, name: string): (r: Result<bool>)
    requires TurnInRange(t)
    ensures r.Err? <==> |t.seats| == 0
    ensures r.Err? ==> r.error == NoPlayers
    ensures r.Ok? ==> (r.value <==> t.seats[t.turn].name == name)
  {
    if |t.seats| == 0 then Err(NoPlayers) else Ok(t.seats[t.turn].name == name)
  }

  /** Game::check_valid_move: the player must be active, hold the turn, and
      with more than nine coins must have COUP as its last action. */
  function CheckValidMove(t: Table, p: Seat): (r: Outcome)
    requires TurnInRange(t)
    ensures r == Pass <==>
      p.active && |t.seats| > 0 && t.seats[t.turn].name == p.name && (p.coins <= 9 || p.lastAction == COUP)
    ensures !p.active ==> r == Fail(NotActive)
    ensures p.active && |t.seats| == 0 ==> r == Fail(NoPlayers)
    ensures p.active && |t.seats| > 0 && t.seats[t.turn].name != p.name ==> r == Fail(OutOfTurn)
    ensures p.active && |t.seats| > 0 && t.seats[t.turn].name == p.name && p.coins > 9 && p.lastAction != COUP
            ==> r == Fail(MustCoup)
  {
    if !p.active then Fail(NotActive)
    else
      match IsCurrent(t, p.name)
      case Err(e) => Fail(e)
      case Ok(current) =>
        if !current then Fail(OutOfTurn)
        else if p.coins > 9 && p.lastAction != COUP then Fail(MustCoup)
        else Pass
  }

  // ---------------------------------------------------- auto-skip predicates

  /** Seat i is one the player whose turn it is could arrest. The Merchant
      clause is the source's and adds nothing to coins > 0. */
  predicate ArrestTarget(t: Table, i: int)
    requires 0 <= i < |t.seats|
  {
    var s := t.seats[i];
    i != t.turn && s.active && !s.lastArrested && (s.coins > 0 || (s.role == Merchant && s.coins > 1))
  }

  /** Game::have_arrests_options. */
  predicate HaveArrestOptions(t: Table, p: Seat)
  {
    p.canArrest && exists i :: 0 <= i < |t.seats| && ArrestTarget(t, i)
  }

  /** Game::can_take_action. The Baron clause is the source's and adds
      nothing to coins > 2. */
  predicate CanTakeAction(t: Table, p: Seat)
  {
    !p.sanction || p.coins > 2 || (p.role == Baron && p.coins > 2) || HaveArrestOptions(t, p)
  }

  // ------------------------------------------------------------ turn advance

  /** The number of sanctioned seats. */
  function SanctionCount(s: seq<Seat>): nat
  {
    if s == [] then 0 else SanctionCount(s[..|s| - 1]) + (if s[|s| - 1].sanction then 1 else 0)
  }

  /** Replacing one seat changes the sanction count by the difference of the two flags. */
  lemma {:induction false} SanctionCountUpdate(s: seq<Seat>, i: nat, x: Seat)
    requires i < |s|
    ensures SanctionCount(s[i := x]) + (if s[i].sanction then 1 else 0)
         == SanctionCount(s) + (if x.sanction then 1 else 0)
  {
    var u := s[i := x];
    if i < |s| - 1 {
      assert u[..|u| - 1] == s[..|s| - 1][i := x];
      SanctionCountUpdate(s[..|s| - 1], i, x);
    } else {
      assert u[..|u| - 1] == s[..|s| - 1];
    }
  }

  /** The outgoing player loses its sanction and regains its arrest. */
  function ClearOutgoing(t: Table): (r: Table)
    requires 0 <= t.turn < |t.seats|
    ensures r.turn == t.turn && r.isBribe == t.isBribe && |r.seats| == |t.seats|
    ensures !r.seats[t.turn].sanction && r.seats[t.turn].canArrest
    ensures r.seats[t.turn].(sanction := t.seats[t.turn].sanction, canArrest := t.seats[t.turn].canArrest) == t.seats[t.turn]
    ensures forall i :: 0 <= i < |t.seats| && i != t.turn ==> r.seats[i] == t.seats[i]
  {
    var p := t.seats[t.turn];
    t.(seats := t.seats[t.turn := p.(sanction := false, canArrest := true)])
  }

  /** Whether the seat k steps after `from`, cyclically, is active. */
  predicate ActiveAt(s: seq<Seat>, from: int, k: int)
    requires |s| > 0
  {
    s[(from + k) % |s|].active
  }

  /** Stepping at most once around the table wraps at most once. */
  lemma Wrap(from: int, k: int, n: int)
    requires 0 <= from < n && 0 <= k <= n
    ensures (from + k) % n == if from + k < n then from + k else from + k - n
  {
  }

  /** The do-while of the turn advance: the number of steps, from k on, to
      the next active seat; None when none of the steps k .. |s| lands on
      one, which is where the source loops forever. */
  function Probe(s: seq<Seat>, from: int, k: nat): (r: Option<nat>)
    requires |s| > 0 && 1 <= k
    ensures r.Some? ==> k <= r.value <= |s| && ActiveAt(s, from, r.value)
    ensures r.Some? ==> forall j :: k <= j < r.value ==> !ActiveAt(s, from, j)
    ensures r.None? ==> forall j :: k <= j <= |s| ==> !ActiveAt(s, from, j)
    decreases |s| + 1 - k
  {
    if k > |s| then None
    else if ActiveAt(s, from, k) then Some(k)
    else Probe(s, from, k + 1)
  }

  /** The first active step, found by walking the table, is what Probe reports. */
  lemma ProbeFinds(s: seq<Seat>, from: int, k: nat)
    requires |s| > 0 && 1 <= k <= |s| && ActiveAt(s, from, k)
    requires forall j :: 1 <= j < k ==> !ActiveAt(s, from, j)
    ensures Probe(s, from, 1) == Some(k)
  {
  }

  /** A full lap of inactive seats is what makes Probe report nothing. */
  lemma ProbeMisses(s: seq<Seat>, from: int)
    requires |s| > 0
    requires forall j :: 1 <= j <= |s| ==> !ActiveAt(s, from, j)
    ensures Probe(s, from, 1).None?
  {
  }

  /** The do-while of Game::turn_manager: the table with the turn moved to
      the next active seat, cyclically; None when there is none to move to. */
  function Rotate(c: Table): (r: Option<Table>)
    requires TurnInRange(c) && |c.seats| > 0
    ensures r.Some? ==> TurnInRange(r.value) && r.value.seats == c.seats && r.value.isBribe == c.isBribe
  {
    match Probe(c.seats, c.turn, 1)
    case None => None
    case Some(k) => Some(c.(turn := (c.turn + k) % |c.seats|))
  }

  /** The Merchant's passive income when the turn lands on it. */
  function MerchantBonus(p: Seat): Seat
  {
    if p.role == Merchant && p.coins > 2 then p.(coins := p.coins + 1) else p
  }

  /** A Merchant whose turn it now is collects its bonus. */
  function PayMerchant(t: Table): (r: Table)
    requires 0 <= t.turn < |t.seats|
    ensures r.turn == t.turn && r.isBribe == t.isBribe && |r.seats| == |t.seats|
    ensures var p := t.seats[t.turn];
      r.seats[t.turn] == p.(coins := p.coins + (if p.role == Merchant && p.coins > 2 then 1 else 0))
    ensures forall i :: 0 <= i < |t.seats| && i != t.turn ==> r.seats[i] == t.seats[i]
  {
    t.(seats := t.seats[t.turn := MerchantBonus(t.seats[t.turn])])
  }

  /** What is left to clear before the recursion of the turn advance must stop. */
  function Pending(t: Table): nat
  {
    SanctionCount(t.seats) + (if 0 <= t.turn < |t.seats| && !t.seats[t.turn].sanction then 1 else 0)
  }

  /** Where one pass of Game::turn_manager's body ends: with the step it
      returns, or at the table it calls itself on again. */
  datatype Advance = Settled(step: Step) | Continue(next: Table)

  /** One pass of Game::turn_manager's body on a non-empty roster. It clears
      the outgoing player's flags; a pending bribe is consumed and keeps the
      seat; otherwise the turn moves to the next active seat, a Merchant there
      with more than two coins gains one, and a seat that cannot act is passed
      over by going round again. Each repetition clears one sanctioned seat,
      which is what bounds the recursion. */
  function TurnRound(t: Table): (r: Advance)
    requires TurnInRange(t) && |t.seats| > 0
    ensures r.Settled? ==> TurnInRange(r.step.after) && |r.step.after.seats| == |t.seats|
    ensures r.Settled? ==> r.step.outcome == Pass || r.step.outcome == Fail(NoActiveSeat)
    ensures r.Continue? ==> TurnInRange(r.next) && |r.next.seats| == |t.seats| && Pending(r.next) < Pending(t)
  {
    var c := ClearOutgoing(t);
    if c.isBribe then Settled(Step(Pass, c.(isBribe := false)))
    else
      var r := Land(c);
      if r.Continue? then
        SanctionCountUpdate(t.seats, t.turn, c.seats[t.turn]);
        r
      else r
  }

  /** The rest of the pass once no bribe is pending: the turn moves to the
      next active seat, a Merchant there with more than two coins gains one,
      and the pass settles when that seat can act. A seat that cannot act is
      a sanctioned one, and the sanctions are all still in place. */
  function Land(c: Table): (r: Advance)
    requires TurnInRange(c) && |c.seats| > 0
    ensures r.Settled? ==> TurnInRange(r.step.after) && |r.step.after.seats| == |c.seats|
    ensures r.Settled? ==> r.step.outcome == Pass || r.step.outcome == Fail(NoActiveSeat)
    ensures r.Continue? ==> TurnInRange(r.next) && |r.next.seats| == |c.seats| && r.next.seats[r.next.turn].sanction
    ensures r.Continue? ==> SanctionCount(r.next.seats) == SanctionCount(c.seats)
  {
    match Rotate(c)
    case None => Settled(Step(Fail(NoActiveSeat), c))
    case Some(n) =>
      var m := PayMerchant(n);
      if CanTakeAction(m, m.seats[m.turn]) then Settled(Step(Pass, m))
      else
        SanctionCountUpdate(n.seats, m.turn, MerchantBonus(n.seats[m.turn]));
        Continue(m)
  }

  /** Game::turn_manager: an empty roster is an error, and otherwise the
      body repeats until a pass settles. */
  function TurnManager(t: Table): (r: Step)
    requires TurnInRange(t)
    ensures TurnInRange(r.after) && |r.after.seats| == |t.seats|
    ensures r.outcome == Fail(NoPlayers) <==> |t.seats| == 0
    ensures r.outcome == Pass || r.outcome == Fail(NoPlayers) || r.outcome == Fail(NoActiveSeat)
    decreases Pending(t)
  {
    if |t.seats| == 0 then Step(Fail(NoPlayers), t)
    else
      match TurnRound(t)
      case Settled(step) => step
      case Continue(m) => TurnManager(m)
  }


  // ----------------------------------------------------------------- actions

  /** Seat i's coins moved by d. */
  function AddCoins(s: seq<Seat>, i: int, d: int): seq<Seat>
    requires 0 <= i < |s|
  {
    s[i := s[i].(coins := s[i].coins + d)]
  }

  /** Seat i records its last action. */
  function Record(s: seq<Seat>, i: int, act: GameAction): seq<Seat>
    requires 0 <= i < |s|
  {
    s[i := s[i].(lastAction := act)]
  }

  /** What a tax earns: the Governor's override earns three. */
  function TaxGain(role: Role): (r: int)
    ensures r == 3 <==> role == Governor
    ensures r == 2 <==> role != Governor
  {
    if role == Governor then 3 else 2
  }

  /** Player::gather by the player at seat a. */
  function Gather(t: Table, a: int): (r: Step)
    requires TurnInRange(t) && 0 <= a < |t.seats|
    ensures TurnInRange(r.after) && |r.after.seats| == |t.seats|
    ensures r.outcome.Fail? ==> r.outcome.error in {NotActive, OutOfTurn, MustCoup, Sanctioned, NoActiveSeat}
    ensures r.outcome.Fail? && r.outcome.error != NoActiveSeat ==> r.after == t
  {
    var v := CheckValidMove(t, t.seats[a]);
    if v.Fail? then Step(v, t)
    else if t.seats[a].sanction then Step(Fail(Sanctioned), t)
    else TurnManager(t.(seats := Record(AddCoins(t.seats, a, 1), a, GATHER)))
  }

  /** Player::tax, and the Governor's override of it, by the player at seat a. */
  function Tax(t: Table, a: int): (r: Step)
    requires TurnInRange(t) && 0 <= a < |t.seats|
    ensures TurnInRange(r.after) && |r.after.seats| == |t.seats|
    ensures r.outcome.Fail? ==> r.outcome.error in {NotActive, OutOfTurn, MustCoup, Sanctioned, NoActiveSeat}
    ensures r.outcome.Fail? && r.outcome.error != NoActiveSeat ==> r.after == t
  {
    var v := CheckValidMove(t, t.seats[a]);
    if v.Fail? then Step(v, t)
    else if t.seats[a].sanction then Step(Fail(Sanctioned), t)
    else TurnManager(t.(seats := Record(AddCoins(t.seats, a, TaxGain(t.seats[a].role)), a, TAX)))
  }

  /** Player::bribe by the player at seat a. The source lowers the bribe
      flag before advancing the turn, so no extra turn follows. */
  function Bribe(t: Table, a: int): (r: Step)
    requires TurnInRange(t) && 0 <= a < |t.seats|
    ensures TurnInRange(r.after) && |r.after.seats| == |t.seats|
    ensures r.outcome.Fail? ==> r.outcome.error in {NotActive, OutOfTurn, MustCoup, NotEnoughMoney, NoActiveSeat}
    ensures r.outcome.Fail? && r.outcome.error != NoActiveSeat ==> r.after == t
  {
    var v := CheckValidMove(t, t.seats[a]);
    if v.Fail? then Step(v, t)
    else if t.seats[a].coins < 4 then Step(Fail(NotEnoughMoney), t)
    else TurnManager(t.(seats := Record(AddCoins(t.seats, a, -4), a, BRIBE), isBribe := false))
  }

  /** The coin moves of an arrest by seat a of seat o, in the source's order. */
  function ArrestEffect(s: seq<Seat>, a: int, o: int): (r: seq<Seat>)
    requires 0 <= a < |s| && 0 <= o < |s|
    ensures |r| == |s| && forall i :: 0 <= i < |s| && i != a && i != o ==> r[i] == s[i]
    ensures forall i :: 0 <= i < |s| ==> r[i].active == s[i].active && r[i].name == s[i].name && r[i].role == s[i].role
  {
    var s1 := AddCoins(AddCoins(s, a, 1), o, -1);
    var s2 := if s[o].role == General then AddCoins(AddCoins(s1, a, -1), o, 1) else s1;
    var s3 := if s[o].role == Merchant then AddCoins(AddCoins(s2, a, -1), o, -1) else s2;
    Record(s3, a, ARREST)
  }

  /** Player::arrest by seat a of seat o. */
  function Arrest(t: Table, a: int, o: int): (r: Step)
    requires TurnInRange(t) && 0 <= a < |t.seats| && 0 <= o < |t.seats|
    ensures TurnInRange(r.after) && |r.after.seats| == |t.seats|
    ensures r.outcome.Fail? ==> r.outcome.error in {NotActive, OutOfTurn, MustCoup, TargetHasNoMoney, MerchantLacksTwo, NoActiveSeat}
    ensures r.outcome.Fail? && r.outcome.error != NoActiveSeat ==> r.after == t
  {
    var v := CheckValidMove(t, t.seats[a]);
    if v.Fail? then Step(v, t)
    else if t.seats[o].coins < 1 then Step(Fail(TargetHasNoMoney), t)
    else if t.seats[o].role == Merchant && t.seats[o].coins < 2 then Step(Fail(MerchantLacksTwo), t)
    else TurnManager(t.(seats := ArrestEffect(t.seats, a, o)))
  }

  /** The effect of a sanction by seat a on seat o, in the source's order. */
  function SanctionEffect(s: seq<Seat>, a: int, o: int): (r: seq<Seat>)
    requires 0 <= a < |s| && 0 <= o < |s|
    ensures |r| == |s| && forall i :: 0 <= i < |s| && i != a && i != o ==> r[i] == s[i]
    ensures forall i :: 0 <= i < |s| ==> r[i].active == s[i].active && r[i].name == s[i].name && r[i].role == s[i].role
  {
    var s1 := AddCoins(s, a, -3);
    var s2 := if s[o].role == Judge then AddCoins(s1, a, -1)
              else if s[o].role == Baron then AddCoins(s1, o, 1)
              else s1;
    var s3 := s2[o := s2[o].(sanction := true)];
    Record(s3, a, SANCTION)
  }

  /** Player::sanction by seat a of seat o. */
  function Sanction(t: Table, a: int, o: int): (r: Step)
    requires TurnInRange(t) && 0 <= a < |t.seats| && 0 <= o < |t.seats|
    ensures TurnInRange(r.after) && |r.after.seats| == |t.seats|
    ensures r.outcome.Fail? ==> r.outcome.error in {NotActive, OutOfTurn, MustCoup, NotEnoughMoney, NoActiveSeat}
    ensures r.outcome.Fail? && r.outcome.error != NoActiveSeat ==> r.after == t
  {
    var v := CheckValidMove(t, t.seats[a]);
    if v.Fail? then Step(v, t)
    else if t.seats[a].coins <= 2 then Step(Fail(NotEnoughMoney), t)
    else TurnManager(t.(seats := SanctionEffect(t.seats, a, o)))
  }

  /** The effect of a coup by seat a on seat o. No last action is recorded. */
  function CoupEffect(s: seq<Seat>, a: int, o: int): (r: seq<Seat>)
    requires 0 <= a < |s| && 0 <= o < |s|
    ensures |r| == |s| && forall i :: 0 <= i < |s| && i != a && i != o ==> r[i] == s[i]
    ensures forall i :: 0 <= i < |s| ==> r[i].active == (s[i].active && i != o)
  {
    var s1 := AddCoins(s, a, -7);
    s1[o := s1[o].(active := false)]
  }

  /** What follows a coup: the game stops when one seat is left active,
      and otherwise the turn advances. */
  function Settle(u: Table): (r: Step)
    requires TurnInRange(u)
    ensures TurnInRange(r.after) && |r.after.seats| == |u.seats|
    ensures Winner(u.seats).Ok? ==> r == Step(Pass, u)
    ensures Winner(u.seats).Err? ==> r.outcome == Pass || r.outcome == Fail(NoPlayers) || r.outcome == Fail(NoActiveSeat)
  {
    if Winner(u.seats).Ok? then Step(Pass, u) else TurnManager(u)
  }

  /** Player::coup by seat a of seat o. When the coup leaves a single active
      seat the game is over and the turn stays where it is. */
  function Coup(t: Table, a: int, o: int): (r: Step)
    requires TurnInRange(t) && 0 <= a < |t.seats| && 0 <= o < |t.seats|
    ensures TurnInRange(r.after) && |r.after.seats| == |t.seats|
    ensures r.outcome.Fail? ==> r.outcome.error in {NotActive, OutOfTurn, MustCoup, NotEnoughMoney, NoActiveSeat}
    ensures r.outcome.Fail? && r.outcome.error != NoActiveSeat ==> r.after == t
  {
    var v := CheckValidMove(t, t.seats[a]);
    if v.Fail? then Step(v, t)
    else if t.seats[a].coins <= 6 then Step(Fail(NotEnoughMoney), t)
    else
      Settle(t.(seats := CoupEffect(t.seats, a, o)))
  }
}
