/** What the rules promise, and where they differ from what the game's
    documentation and tests expect, proved about the functions of module
    Rules. */
module RulesFacts {
  import opened Actions
  import opened Roles
  import opened Rules

  // ------------------------------------------------------ turn advance facts

  /** The fields the turn advance never touches. */
  predicate Kept(before: Seat, after: Seat)
  {
    after.name == before.name && after.role == before.role && after.active == before.active
    && after.lastArrested == before.lastArrested && after.lastAction == before.lastAction
  }

  /** No seat of the roster is active. */
  predicate NoneActive(s: seq<Seat>)
  {
    forall i :: 0 <= i < |s| ==> !s[i].active
  }

  /** The cyclic walk of the do-while finds nothing exactly when no seat at
      all is active: every seat is some number of steps, between one and the
      roster size, after the starting one. */
  lemma ProbeNoneIff(s: seq<Seat>, from: int)
    requires |s| > 0 && 0 <= from < |s|
    ensures Probe(s, from, 1).None? <==> NoneActive(s)
  {
    var n := |s|;
    var r := Probe(s, from, 1);
    if r.None? {
      forall i | 0 <= i < n
        ensures !s[i].active
      {
        var j := if i > from then i - from else i - from + n;
        Wrap(from, j, n);
        assert !ActiveAt(s, from, j);
      }
    } else {
      assert s[(from + r.value) % n].active;
    }
  }

  /** The number of cyclic steps, between one and n, from seat `from` to
      seat `to` of a table of n seats; a full lap when the two are equal. */
  function Steps(from: int, to: int, n: int): (d: int)
    requires 0 <= from < n && 0 <= to < n
    ensures 1 <= d <= n && (from + d) % n == to
  {
    var d := if to > from then to - from else to - from + n;
    Wrap(from, d, n);
    d
  }

  /** The do-while moves the turn to the first active seat after the
      current one, cyclically, and finds none exactly when no seat is
      active. The roster and the bribe flag are left as they were. */
  lemma RotateLandsOnNextActive(c: Table)
    requires TurnInRange(c) && |c.seats| > 0
    ensures Rotate(c).None? <==> NoneActive(c.seats)
    ensures Rotate(c).Some? ==>
      var n := |c.seats|;
      var to := Rotate(c).value.turn;
      c.seats[to].active
      && forall j :: 1 <= j < Steps(c.turn, to, n) ==> !ActiveAt(c.seats, c.turn, j)
  {
    ProbeNoneIff(c.seats, c.turn);
    var n := |c.seats|;
    match Probe(c.seats, c.turn, 1)
    case None =>
    case Some(k) =>
      var to := (c.turn + k) % n;
      Wrap(c.turn, k, n);
      assert Steps(c.turn, to, n) == k;
  }

  /** Between two rosters of one size, every seat keeps the fields the
      turn advance never touches, loses sanctions only and gains the right
      to arrest only. */
  predicate Unmoved(s: seq<Seat>, u: seq<Seat>)
  {
    |u| == |s|
    && (forall i :: 0 <= i < |s| ==> Kept(s[i], u[i]))
    && (forall i :: 0 <= i < |s| && u[i].sanction ==> s[i].sanction)
    && (forall i :: 0 <= i < |s| && s[i].canArrest ==> u[i].canArrest)
  }

  lemma UnmovedTrans(s: seq<Seat>, u: seq<Seat>, w: seq<Seat>)
    requires Unmoved(s, u) && Unmoved(u, w)
    ensures Unmoved(s, w)
  {
  }

  /** Whatever the turn advance does, it leaves every seat's name, role,
      active flag, arrest mark and last action alone; it only ever clears
      sanctions and only ever restores the right to arrest. */
  lemma {:induction false} TurnManagerKeeps(t: Table)
    requires TurnInRange(t)
    ensures Unmoved(t.seats, TurnManager(t).after.seats)
    decreases Pending(t)
  {
    if |t.seats| > 0 {
      var c := ClearOutgoing(t);
      assert Unmoved(t.seats, c.seats);
      if !c.isBribe {
        match Rotate(c)
        case None =>
        case Some(n) =>
          var m := PayMerchant(n);
          assert Unmoved(c.seats, m.seats);
          UnmovedTrans(t.seats, c.seats, m.seats);
          if !CanTakeAction(m, m.seats[m.turn]) {
            assert TurnRound(t) == Continue(m);
            TurnManagerKeeps(m);
            UnmovedTrans(t.seats, m.seats, TurnManager(m).after.seats);
          }
      }
    }
  }

  /** Coins at seat i after the turn advance on t: the landing Merchant's
      bonus when the turn moved and settled there, and otherwise untouched. */
  predicate CoinsAfterAdvance(t: Table, r: Step, i: int)
    requires 0 <= i < |t.seats| && |r.after.seats| == |t.seats|
  {
    r.after.seats[i].coins ==
      if i == r.after.turn && r.outcome == Pass && !t.isBribe
      then MerchantBonus(t.seats[i]).coins else t.seats[i].coins
  }

  /** The only coins the turn advance moves are the one a Merchant with
      more than two coins collects when the turn lands on it for good: a
      seat passed over because it cannot act holds at most two coins, so no
      Merchant is paid on the way. */
  lemma {:induction false} TurnManagerCoins(t: Table)
    requires TurnInRange(t)
    ensures forall i :: 0 <= i < |t.seats| ==> CoinsAfterAdvance(t, TurnManager(t), i)
    decreases Pending(t)
  {
    if |t.seats| > 0 {
      TurnRoundCoins(t);
      match TurnRound(t)
      case Settled(step) =>
      case Continue(m) =>
        TurnManagerCoins(m);
        CoinsAfterRoundAgain(t, m, TurnManager(m));
    }
  }

  /** A round that went on moved no coins and kept the roles, so what the
      rest of the advance does to the coins is measured from either table. */
  lemma CoinsAfterRoundAgain(t: Table, m: Table, r: Step)
    requires |m.seats| == |t.seats| == |r.after.seats| && !m.isBribe && !t.isBribe
    requires forall i :: 0 <= i < |t.seats| ==>
      m.seats[i].coins == t.seats[i].coins && m.seats[i].role == t.seats[i].role
    requires forall i :: 0 <= i < |m.seats| ==> CoinsAfterAdvance(m, r, i)
    ensures forall i :: 0 <= i < |t.seats| ==> CoinsAfterAdvance(t, r, i)
  {
    forall i | 0 <= i < |t.seats|
      ensures CoinsAfterAdvance(t, r, i)
    {
      assert CoinsAfterAdvance(m, r, i);
      assert MerchantBonus(m.seats[i]).coins == MerchantBonus(t.seats[i]).coins;
    }
  }

  /** One pass of the turn advance: when it settles, only the Merchant it
      lands on for good may have gained a coin; when it goes round again,
      no coins have moved. */
  lemma TurnRoundCoins(t: Table)
    requires TurnInRange(t) && |t.seats| > 0
    ensures match TurnRound(t)
      case Settled(step) => forall i :: 0 <= i < |t.seats| ==> CoinsAfterAdvance(t, step, i)
      case Continue(m) => !m.isBribe && !t.isBribe && forall i :: 0 <= i < |t.seats| ==>
        m.seats[i].coins == t.seats[i].coins && m.seats[i].role == t.seats[i].role
  {
    var c := ClearOutgoing(t);
    if !c.isBribe {
      match Rotate(c)
      case None =>
      case Some(n) =>
        var m := PayMerchant(n);
        if !CanTakeAction(m, m.seats[m.turn]) {
          assert MerchantBonus(n.seats[m.turn]) == n.seats[m.turn];
        }
    }
  }

  /** Landing moves no sanction mark and no arrest right: only the turn
      and a Merchant's coins change. */
  lemma LandKeepsFlags(c: Table, i: int)
    requires TurnInRange(c) && |c.seats| > 0 && 0 <= i < |c.seats|
    ensures match Land(c)
      case Settled(step) =>
        step.after.seats[i].sanction == c.seats[i].sanction && step.after.seats[i].canArrest == c.seats[i].canArrest
      case Continue(m) =>
        m.seats[i].sanction == c.seats[i].sanction && m.seats[i].canArrest == c.seats[i].canArrest
  {
    match Rotate(c)
    case None =>
    case Some(n) =>
      var m := PayMerchant(n);
      assert m.seats[i].sanction == n.seats[i].sanction && m.seats[i].canArrest == n.seats[i].canArrest;
  }

  /** Whatever else happens, the outgoing player ends the turn advance
      unsanctioned and free to arrest again. */
  lemma TurnManagerClearsOutgoing(t: Table)
    requires TurnInRange(t) && |t.seats| > 0
    ensures !TurnManager(t).after.seats[t.turn].sanction
    ensures TurnManager(t).after.seats[t.turn].canArrest
  {
    var c := ClearOutgoing(t);
    assert !c.seats[t.turn].sanction && c.seats[t.turn].canArrest;
    if c.isBribe {
      assert TurnRound(t) == Settled(Step(Pass, c.(isBribe := false)));
    } else {
      assert TurnRound(t) == Land(c);
      LandKeepsFlags(c, t.turn);
      match Land(c)
      case Settled(step) =>
      case Continue(m) =>
        TurnManagerKeeps(m);
    }
  }

  /** The outcomes of the turn advance: it fails on an empty roster and
      only there with NoPlayers, and otherwise either succeeds or finds no
      active seat; a pending bribe is consumed and the turn stays, the
      outgoing flags cleared. It never leaves a bribe pending. */
  lemma {:induction false} TurnManagerOutcome(t: Table)
    requires TurnInRange(t)
    ensures var r := TurnManager(t);
      (r.outcome == Fail(NoPlayers) <==> |t.seats| == 0)
      && (r.outcome == Pass || r.outcome == Fail(NoPlayers) || r.outcome == Fail(NoActiveSeat))
      && (|t.seats| == 0 ==> r.after == t)
      && (|t.seats| > 0 ==> !r.after.isBribe)
      && (|t.seats| > 0 && t.isBribe ==> r == Step(Pass, ClearOutgoing(t).(isBribe := false)))
    decreases Pending(t)
  {
    if |t.seats| > 0 {
      var c := ClearOutgoing(t);
      if !c.isBribe {
        match Rotate(c)
        case None =>
        case Some(n) =>
          var m := PayMerchant(n);
          if !CanTakeAction(m, m.seats[m.turn]) {
            assert TurnRound(t) == Continue(m);
            TurnManagerOutcome(m);
          }
      }
    }
  }

  /** A pass that settles fails exactly when the walk found no active seat;
      one that goes round again has landed on an active seat. */
  lemma LandOutcome(c: Table)
    requires TurnInRange(c) && |c.seats| > 0
    ensures Land(c).Settled? ==> (Land(c).step.outcome == Fail(NoActiveSeat) <==> Rotate(c).None?)
    ensures Land(c).Continue? ==>
      Rotate(c).Some? && Land(c).next.seats[Land(c).next.turn].active && Land(c).next.isBribe == c.isBribe
  {
    match Rotate(c)
    case None =>
    case Some(n) =>
      var m := PayMerchant(n);
      assert m.seats[m.turn].active == n.seats[n.turn].active;
  }

  /** Without a pending bribe, the turn advance on a non-empty roster fails
      exactly when no seat is active: the case where the source loops
      forever. */
  lemma {:induction false} TurnManagerStalls(t: Table)
    requires TurnInRange(t) && |t.seats| > 0 && !t.isBribe
    ensures TurnManager(t).outcome == Fail(NoActiveSeat) <==> NoneActive(t.seats)
    decreases Pending(t)
  {
    var c := ClearOutgoing(t);
    RotateLandsOnNextActive(c);
    assert forall i :: 0 <= i < |t.seats| ==> c.seats[i].active == t.seats[i].active;
    assert NoneActive(c.seats) == NoneActive(t.seats);
    assert TurnRound(t) == Land(c);
    LandOutcome(c);
    match Land(c)
    case Settled(step) =>
    case Continue(m) =>
      assert !NoneActive(m.seats);
      TurnManagerStalls(m);
  }

  /** A turn advance that succeeds without a pending bribe lands on an
      active seat that can take an action. */
  lemma {:induction false} TurnManagerLands(t: Table)
    requires TurnInRange(t)
    ensures var r := TurnManager(t);
      r.outcome == Pass && !t.isBribe ==>
        r.after.seats[r.after.turn].active && CanTakeAction(r.after, r.after.seats[r.after.turn])
    decreases Pending(t)
  {
    if |t.seats| > 0 {
      var c := ClearOutgoing(t);
      if !c.isBribe {
        match Rotate(c)
        case None =>
        case Some(n) =>
          var m := PayMerchant(n);
          if !CanTakeAction(m, m.seats[m.turn]) {
            assert TurnRound(t) == Continue(m);
            TurnManagerLands(m);
          }
      }
    }
  }

  // ----------------------------------------------------------- move checks

  /** With distinct names, a move that passes the check is made by the seat
      whose turn it is. */
  lemma ValidMoveHoldsTurn(t: Table, a: int)
    requires TurnInRange(t) && 0 <= a < |t.seats|
    requires forall i, j :: 0 <= i < j < |t.seats| ==> t.seats[i].name != t.seats[j].name
    ensures CheckValidMove(t, t.seats[a]) == Pass ==> a == t.turn
  {
    if a != t.turn {
      if a < t.turn {
        assert t.seats[a].name != t.seats[t.turn].name;
      } else {
        assert t.seats[t.turn].name != t.seats[a].name;
      }
    }
  }

  /** The Merchant clause of have_arrests_options adds nothing: a target
      qualifies exactly when it is another active seat, not marked as last
      arrested, holding at least one coin. */
  lemma ArrestTargetPlain(t: Table, i: int)
    requires 0 <= i < |t.seats|
    ensures ArrestTarget(t, i) <==>
      i != t.turn && t.seats[i].active && !t.seats[i].lastArrested && t.seats[i].coins >= 1
  {
  }

  /** The Baron clause of can_take_action adds nothing: an unsanctioned
      seat or one with more than two coins can act, and otherwise it can act
      exactly when it has someone to arrest. */
  lemma CanTakeActionPlain(t: Table, p: Seat)
    ensures CanTakeAction(t, p) <==> !p.sanction || p.coins > 2 || HaveArrestOptions(t, p)
  {
  }

  // -------------------------------------------------------------- actions

  /** A player holding ten or more coins whose last action is not COUP is
      refused every action, the coup included, although the game's rules
      and tests call for that player to coup. */
  lemma ForcedCoupRefused(t: Table, a: int, o: int)
    requires TurnInRange(t) && 0 <= a < |t.seats| && 0 <= o < |t.seats|
    requires t.seats[a].active && t.seats[t.turn].name == t.seats[a].name
    requires t.seats[a].coins > 9 && t.seats[a].lastAction != COUP
    ensures Gather(t, a) == Tax(t, a) == Bribe(t, a) == Step(Fail(MustCoup), t)
    ensures Arrest(t, a, o) == Sanction(t, a, o) == Coup(t, a, o) == Step(Fail(MustCoup), t)
  {
  }

  /** No seat records COUP. */
  predicate NoCoupRecorded(s: seq<Seat>)
  {
    forall i :: 0 <= i < |s| ==> s[i].lastAction != COUP
  }

  /** The turn advance records nothing. */
  lemma AdvanceRecordsNoCoup(u: Table)
    requires TurnInRange(u) && NoCoupRecorded(u.seats)
    ensures NoCoupRecorded(TurnManager(u).after.seats)
  {
    TurnManagerKeeps(u);
  }

  /** Moving coins records nothing. */
  lemma AddCoinsRecordsNoCoup(s: seq<Seat>, i: int, d: int)
    requires 0 <= i < |s| && NoCoupRecorded(s)
    ensures NoCoupRecorded(AddCoins(s, i, d))
  {
    assert forall j :: 0 <= j < |s| ==> AddCoins(s, i, d)[j].lastAction == s[j].lastAction;
  }

  /** The effects of arrest, sanction and coup record no COUP. */
  lemma EffectsRecordNoCoup(s: seq<Seat>, a: int, o: int)
    requires 0 <= a < |s| && 0 <= o < |s| && NoCoupRecorded(s)
    ensures NoCoupRecorded(ArrestEffect(s, a, o))
    ensures NoCoupRecorded(SanctionEffect(s, a, o))
    ensures NoCoupRecorded(CoupEffect(s, a, o))
  {
    AddCoinsRecordsNoCoup(s, a, 1);
    var s1 := AddCoins(AddCoins(s, a, 1), o, -1);
    AddCoinsRecordsNoCoup(AddCoins(s, a, 1), o, -1);
    AddCoinsRecordsNoCoup(s1, a, -1);
    AddCoinsRecordsNoCoup(AddCoins(s1, a, -1), o, 1);
    var s2 := if s[o].role == General then AddCoins(AddCoins(s1, a, -1), o, 1) else s1;
    AddCoinsRecordsNoCoup(s2, a, -1);
    AddCoinsRecordsNoCoup(AddCoins(s2, a, -1), o, -1);
    AddCoinsRecordsNoCoup(s, a, -3);
    var u1 := AddCoins(s, a, -3);
    AddCoinsRecordsNoCoup(u1, a, -1);
    AddCoinsRecordsNoCoup(u1, o, 1);
  }

  /** No action ever records COUP, a coup included: starting from fresh
      players, whose last action is NONE, no seat's last action is ever
      COUP, so the forced coup of ten coins is always refused and a
      General's block of a coup is always refused. This lemma covers the
      three moves without a target, the next one the three with a target. */
  lemma UntargetedMovesRecordNoCoup(t: Table, a: int)
    requires TurnInRange(t) && 0 <= a < |t.seats|
    requires NoCoupRecorded(t.seats)
    ensures NoCoupRecorded(Gather(t, a).after.seats)
    ensures NoCoupRecorded(Tax(t, a).after.seats)
    ensures NoCoupRecorded(Bribe(t, a).after.seats)
  {
    var s := t.seats;
    assert NoCoupRecorded(Gather(t, a).after.seats) by {
      AddCoinsRecordsNoCoup(s, a, 1);
      AdvanceRecordsNoCoup(t.(seats := Record(AddCoins(s, a, 1), a, GATHER)));
    }
    assert NoCoupRecorded(Tax(t, a).after.seats) by {
      AddCoinsRecordsNoCoup(s, a, TaxGain(s[a].role));
      AdvanceRecordsNoCoup(t.(seats := Record(AddCoins(s, a, TaxGain(s[a].role)), a, TAX)));
    }
    AddCoinsRecordsNoCoup(s, a, -4);
    AdvanceRecordsNoCoup(t.(seats := Record(AddCoins(s, a, -4), a, BRIBE), isBribe := false));
  }

  /** Arrest, sanction and coup never record COUP either; a coup leaves the
      actor's last action as it was. */
  lemma TargetedMovesRecordNoCoup(t: Table, a: int, o: int)
    requires TurnInRange(t) && 0 <= a < |t.seats| && 0 <= o < |t.seats|
    requires NoCoupRecorded(t.seats)
    ensures NoCoupRecorded(Arrest(t, a, o).after.seats)
    ensures NoCoupRecorded(Sanction(t, a, o).after.seats)
    ensures NoCoupRecorded(Coup(t, a, o).after.seats)
  {
    var s := t.seats;
    EffectsRecordNoCoup(s, a, o);
    assert NoCoupRecorded(Arrest(t, a, o).after.seats) by {
      var u := t.(seats := ArrestEffect(s, a, o));
      AdvanceRecordsNoCoup(u);
      assert Arrest(t, a, o).after == t || Arrest(t, a, o) == TurnManager(u);
    }
    assert NoCoupRecorded(Sanction(t, a, o).after.seats) by {
      var u := t.(seats := SanctionEffect(s, a, o));
      AdvanceRecordsNoCoup(u);
      assert Sanction(t, a, o).after == t || Sanction(t, a, o) == TurnManager(u);
    }
    assert NoCoupRecorded(Coup(t, a, o).after.seats) by {
      var u := t.(seats := CoupEffect(s, a, o));
      AdvanceRecordsNoCoup(u);
      assert Coup(t, a, o).after == t || Coup(t, a, o) == Settle(u);
    }
  }

  /** Every move leaves no bribe pending: a successful bribe included, since
      the source lowers the flag before advancing, the briber never keeps
      the turn for a second action. This lemma covers the three moves
      without a target, the next one the three with a target. */
  lemma UntargetedMovesLeaveNoBribe(t: Table, a: int)
    requires TurnInRange(t) && 0 <= a < |t.seats|
    requires !t.isBribe
    ensures !Gather(t, a).after.isBribe
    ensures !Tax(t, a).after.isBribe
    ensures !Bribe(t, a).after.isBribe
  {
    var s := t.seats;
    assert !Gather(t, a).after.isBribe by {
      TurnManagerOutcome(t.(seats := Record(AddCoins(s, a, 1), a, GATHER)));
    }
    assert !Tax(t, a).after.isBribe by {
      TurnManagerOutcome(t.(seats := Record(AddCoins(s, a, TaxGain(s[a].role)), a, TAX)));
    }
    TurnManagerOutcome(t.(seats := Record(AddCoins(s, a, -4), a, BRIBE), isBribe := false));
  }

  /** Arrest, sanction and coup leave no bribe pending either. */
  lemma TargetedMovesLeaveNoBribe(t: Table, a: int, o: int)
    requires TurnInRange(t) && 0 <= a < |t.seats| && 0 <= o < |t.seats|
    requires !t.isBribe
    ensures !Arrest(t, a, o).after.isBribe
    ensures !Sanction(t, a, o).after.isBribe
    ensures !Coup(t, a, o).after.isBribe
  {
    var s := t.seats;
    assert !Arrest(t, a, o).after.isBribe by {
      TurnManagerOutcome(t.(seats := ArrestEffect(s, a, o)));
    }
    assert !Sanction(t, a, o).after.isBribe by {
      TurnManagerOutcome(t.(seats := SanctionEffect(s, a, o)));
    }
    var u := t.(seats := CoupEffect(s, a, o));
    assert !Settle(u).after.isBribe by {
      TurnManagerOutcome(u);
    }
  }

  /** A move without a target succeeds exactly when the move is valid and
      the action's own guard holds: the actor stays active, so the turn
      advance always finds a seat. */
  lemma UntargetedMovesSucceed(t: Table, a: int)
    requires TurnInRange(t) && 0 <= a < |t.seats|
    ensures var ok := CheckValidMove(t, t.seats[a]) == Pass;
      (Gather(t, a).outcome == Pass <==> ok && !t.seats[a].sanction)
      && (Tax(t, a).outcome == Pass <==> ok && !t.seats[a].sanction)
      && (Bribe(t, a).outcome == Pass <==> ok && t.seats[a].coins >= 4)
  {
    var s := t.seats;
    if CheckValidMove(t, s[a]) == Pass {
      var g := t.(seats := Record(AddCoins(s, a, 1), a, GATHER));
      assert g.seats[a].active;
      TurnManagerOutcome(g);
      if !t.isBribe {
        TurnManagerStalls(g);
      }
      var x := t.(seats := Record(AddCoins(s, a, TaxGain(s[a].role)), a, TAX));
      assert x.seats[a].active;
      TurnManagerOutcome(x);
      if !t.isBribe {
        TurnManagerStalls(x);
      }
      var b := t.(seats := Record(AddCoins(s, a, -4), a, BRIBE), isBribe := false);
      assert b.seats[a].active;
      TurnManagerOutcome(b);
      TurnManagerStalls(b);
    }
  }

  /** An arrest succeeds exactly when the move is valid and the target
      holds a coin, two for a Merchant. */
  lemma ArrestSucceeds(t: Table, a: int, o: int)
    requires TurnInRange(t) && 0 <= a < |t.seats| && 0 <= o < |t.seats|
    ensures Arrest(t, a, o).outcome == Pass <==>
      CheckValidMove(t, t.seats[a]) == Pass && t.seats[o].coins >= 1
      && !(t.seats[o].role == Merchant && t.seats[o].coins < 2)
  {
    var s := t.seats;
    if CheckValidMove(t, s[a]) == Pass && s[o].coins >= 1 && !(s[o].role == Merchant && s[o].coins < 2) {
      var x := t.(seats := ArrestEffect(s, a, o));
      assert Arrest(t, a, o) == TurnManager(x);
      assert x.seats[a].active;
      TurnManagerOutcome(x);
      if !t.isBribe {
        TurnManagerStalls(x);
      }
    }
  }

  /** A sanction succeeds exactly when the move is valid and the actor
      holds more than two coins. */
  lemma SanctionSucceeds(t: Table, a: int, o: int)
    requires TurnInRange(t) && 0 <= a < |t.seats| && 0 <= o < |t.seats|
    ensures Sanction(t, a, o).outcome == Pass <==> CheckValidMove(t, t.seats[a]) == Pass && t.seats[a].coins > 2
  {
    var s := t.seats;
    if CheckValidMove(t, s[a]) == Pass && s[a].coins > 2 {
      var y := t.(seats := SanctionEffect(s, a, o));
      assert Sanction(t, a, o) == TurnManager(y);
      assert y.seats[a].active;
      TurnManagerOutcome(y);
      if !t.isBribe {
        TurnManagerStalls(y);
      }
    }
  }

  /** A coup of another seat succeeds exactly when the move is valid and
      the actor holds more than six coins. A coup of oneself by the last
      active player is the one valid, affordable move that fails. */
  lemma CoupSucceeds(t: Table, a: int, o: int)
    requires TurnInRange(t) && 0 <= a < |t.seats| && 0 <= o < |t.seats| && a != o
    ensures Coup(t, a, o).outcome == Pass <==> CheckValidMove(t, t.seats[a]) == Pass && t.seats[a].coins > 6
  {
    var s := t.seats;
    if CheckValidMove(t, s[a]) == Pass && s[a].coins > 6 {
      var u := t.(seats := CoupEffect(s, a, o));
      assert u.seats[a].active;
      assert Coup(t, a, o) == Settle(u);
      TurnManagerOutcome(u);
      if !t.isBribe {
        TurnManagerStalls(u);
      }
    }
  }

  /** A successful bribe: four coins paid and BRIBE recorded, with the
      Merchant's bonus coin when the turn comes straight back to the briber. */
  lemma BribeCosts(t: Table, a: int)
    requires TurnInRange(t) && 0 <= a < |t.seats|
    ensures Bribe(t, a).outcome == Pass ==>
      Bribe(t, a).after.seats[a].lastAction == BRIBE
      && Bribe(t, a).after.seats[a].coins - t.seats[a].coins
         == -4 + (if a == Bribe(t, a).after.turn && t.seats[a].role == Merchant && t.seats[a].coins - 4 > 2 then 1 else 0)
  {
    if Bribe(t, a).outcome == Pass {
      var b := t.(seats := Record(AddCoins(t.seats, a, -4), a, BRIBE), isBribe := false);
      assert Bribe(t, a) == TurnManager(b);
      var r := TurnManager(b);
      TurnManagerCoins(b);
      TurnManagerKeeps(b);
      assert CoinsAfterAdvance(b, r, a) && Kept(b.seats[a], r.after.seats[a]);
      assert b.seats[a] == t.seats[a].(coins := t.seats[a].coins - 4, lastAction := BRIBE);
    }
  }

  /** A successful gather: one coin recorded as GATHER, plus the Merchant's
      bonus coin when the turn comes straight back to the gatherer. */
  lemma GatherGains(t: Table, a: int)
    requires TurnInRange(t) && 0 <= a < |t.seats|
    ensures Gather(t, a).outcome == Pass ==>
      Gather(t, a).after.seats[a].lastAction == GATHER
      && Gather(t, a).after.seats[a].coins - t.seats[a].coins
         == 1 + (if a == Gather(t, a).after.turn && !t.isBribe && t.seats[a].role == Merchant && t.seats[a].coins + 1 > 2 then 1 else 0)
  {
    if Gather(t, a).outcome == Pass {
      var u := t.(seats := Record(AddCoins(t.seats, a, 1), a, GATHER));
      assert Gather(t, a) == TurnManager(u);
      var r := TurnManager(u);
      TurnManagerCoins(u);
      TurnManagerKeeps(u);
      assert CoinsAfterAdvance(u, r, a) && Kept(u.seats[a], r.after.seats[a]);
      assert u.seats[a] == t.seats[a].(coins := t.seats[a].coins + 1, lastAction := GATHER);
    }
  }

  /** A successful tax: the role's tax gain recorded as TAX, plus the
      Merchant's bonus coin when the turn comes straight back to the taxer. */
  lemma TaxGains(t: Table, a: int)
    requires TurnInRange(t) && 0 <= a < |t.seats|
    ensures Tax(t, a).outcome == Pass ==>
      Tax(t, a).after.seats[a].lastAction == TAX
      && Tax(t, a).after.seats[a].coins - t.seats[a].coins
         == TaxGain(t.seats[a].role) + (if a == Tax(t, a).after.turn && !t.isBribe && t.seats[a].role == Merchant && t.seats[a].coins + 2 > 2 then 1 else 0)
  {
    if Tax(t, a).outcome == Pass {
      var v := t.(seats := Record(AddCoins(t.seats, a, TaxGain(t.seats[a].role)), a, TAX));
      assert Tax(t, a) == TurnManager(v);
      var r := TurnManager(v);
      TurnManagerCoins(v);
      TurnManagerKeeps(v);
      assert CoinsAfterAdvance(v, r, a) && Kept(v.seats[a], r.after.seats[a]);
      assert v.seats[a] == t.seats[a].(coins := t.seats[a].coins + TaxGain(t.seats[a].role), lastAction := TAX);
    }
  }

  // -------------------------------------------------------- coin movements

  /** The net coins of an arrest by one seat of another: a plain target
      pays one to the actor, a General target loses nothing, and a Merchant
      target loses two while the actor gains nothing. The arrest mark is
      neither read nor set. */
  lemma ArrestDeltas(s: seq<Seat>, a: int, o: int)
    requires 0 <= a < |s| && 0 <= o < |s| && a != o
    ensures var e := ArrestEffect(s, a, o);
      |e| == |s|
      && e[a].coins == s[a].coins + (if s[o].role == General || s[o].role == Merchant then 0 else 1)
      && e[o].coins == s[o].coins + (if s[o].role == General then 0 else if s[o].role == Merchant then -2 else -1)
      && e[a] == s[a].(coins := e[a].coins, lastAction := ARREST)
      && e[o] == s[o].(coins := e[o].coins)
      && forall i :: 0 <= i < |s| && i != a && i != o ==> e[i] == s[i]
  {
  }

  /** The effect of a sanction by one seat on another: the actor pays three,
      four against a Judge; a Baron target is paid one; the target is
      sanctioned; the actor records SANCTION. */
  lemma SanctionDeltas(s: seq<Seat>, a: int, o: int)
    requires 0 <= a < |s| && 0 <= o < |s| && a != o
    ensures var e := SanctionEffect(s, a, o);
      |e| == |s|
      && e[a] == s[a].(coins := s[a].coins - (if s[o].role == Judge then 4 else 3), lastAction := SANCTION)
      && e[o] == s[o].(coins := s[o].coins + (if s[o].role == Baron then 1 else 0), sanction := true)
      && forall i :: 0 <= i < |s| && i != a && i != o ==> e[i] == s[i]
  {
  }

  /** The effect of a coup: the actor pays seven and the target leaves the
      game; nobody's last action changes. */
  lemma CoupDeltas(s: seq<Seat>, a: int, o: int)
    requires 0 <= a < |s| && 0 <= o < |s| && a != o
    ensures var e := CoupEffect(s, a, o);
      |e| == |s|
      && e[a] == s[a].(coins := s[a].coins - 7)
      && e[o] == s[o].(active := false)
      && forall i :: 0 <= i < |s| && i != a && i != o ==> e[i] == s[i]
  {
  }

  // ------------------------------------------- behaviour the documentation does not expect

  /** Sanctioning a Judge with exactly three coins leaves the actor in debt:
      coins are not bounded below. */
  lemma SanctionJudgeGoesNegative(t: Table, a: int, o: int)
    requires TurnInRange(t) && 0 <= a < |t.seats| && 0 <= o < |t.seats| && a != o
    requires CheckValidMove(t, t.seats[a]) == Pass
    requires t.seats[a].coins == 3 && t.seats[o].role == Judge
    ensures Sanction(t, a, o).outcome == Pass && Sanction(t, a, o).after.seats[a].coins == -1
  {
    SanctionSucceeds(t, a, o);
    SanctionDeltas(t.seats, a, o);
    var u := t.(seats := SanctionEffect(t.seats, a, o));
    assert Sanction(t, a, o) == TurnManager(u);
    TurnManagerCoins(u);
    assert CoinsAfterAdvance(u, TurnManager(u), a);
  }

  /** The pass lands on the next seat and settles there when that seat is
      active and not sanctioned. */
  lemma LandOnNextSeat(c: Table)
    requires TurnInRange(c) && |c.seats| > 0
    requires var next := (c.turn + 1) % |c.seats|;
      c.seats[next].active && !c.seats[next].sanction
    ensures Land(c) == Settled(Step(Pass, PayMerchant(c.(turn := (c.turn + 1) % |c.seats|))))
  {
    assert ActiveAt(c.seats, c.turn, 1);
    assert Probe(c.seats, c.turn, 1) == Some(1);
    var m := PayMerchant(c.(turn := (c.turn + 1) % |c.seats|));
    assert CanTakeAction(m, m.seats[m.turn]);
  }

  /** With no bribe pending, an advance from a table whose next seat is
      active and not sanctioned moves the turn to that seat and settles. */
  lemma AdvanceToNextSeat(u: Table)
    requires TurnInRange(u) && |u.seats| > 0 && !u.isBribe
    requires var next := (u.turn + 1) % |u.seats|;
      u.seats[next].active && !u.seats[next].sanction
    ensures TurnManager(u).outcome == Pass
    ensures TurnManager(u).after.turn == (u.turn + 1) % |u.seats| && !TurnManager(u).after.isBribe
  {
    var c := ClearOutgoing(u);
    LandOnNextSeat(c);
    assert TurnRound(u) == Land(c);
  }

  /** A successful bribe hands the turn on, like any other action: when the
      next seat is active and not sanctioned, the turn moves there and no
      bonus turn is left pending. */
  lemma BribeGrantsNoBonusTurn(t: Table, a: int)
    requires TurnInRange(t) && 0 <= a < |t.seats|
    requires CheckValidMove(t, t.seats[a]) == Pass && t.seats[a].coins >= 4
    requires var next := (t.turn + 1) % |t.seats|;
      t.seats[next].active && !t.seats[next].sanction
    ensures Bribe(t, a).outcome == Pass
    ensures Bribe(t, a).after.turn == (t.turn + 1) % |t.seats| && !Bribe(t, a).after.isBribe
  {
    var next := (t.turn + 1) % |t.seats|;
    var u := t.(seats := Record(AddCoins(t.seats, a, -4), a, BRIBE), isBribe := false);
    assert |u.seats| == |t.seats| && (u.turn + 1) % |u.seats| == next;
    assert u.seats[next].active && !u.seats[next].sanction;
    AdvanceToNextSeat(u);
    assert Bribe(t, a) == TurnManager(u);
  }

  /** A Merchant holding one coin is counted as someone to arrest, yet
      arresting it is refused. */
  lemma MerchantArrestOptionRefused(t: Table, a: int, o: int)
    requires TurnInRange(t) && 0 <= a < |t.seats| && 0 <= o < |t.seats| && o != t.turn
    requires CheckValidMove(t, t.seats[a]) == Pass && t.seats[a].canArrest
    requires t.seats[o].active && !t.seats[o].lastArrested
    requires t.seats[o].role == Merchant && t.seats[o].coins == 1
    ensures HaveArrestOptions(t, t.seats[a]) && Arrest(t, a, o) == Step(Fail(MerchantLacksTwo), t)
  {
    assert ArrestTarget(t, o);
  }

  /** The last active player couping itself leaves nobody active: there is
      no winner, and with no bribe pending the turn advance finds no seat to
      move to, where the source loops forever. */
  lemma SelfCoupFindsNoSeat(t: Table, a: int)
    requires TurnInRange(t) && 0 <= a < |t.seats| && !t.isBribe
    requires CheckValidMove(t, t.seats[a]) == Pass && t.seats[a].coins > 6
    requires forall i :: 0 <= i < |t.seats| && i != a ==> !t.seats[i].active
    ensures Coup(t, a, a).outcome == Fail(NoActiveSeat)
  {
    var u := t.(seats := CoupEffect(t.seats, a, a));
    assert NoneActive(u.seats) by {
      forall i | 0 <= i < |u.seats|
        ensures !u.seats[i].active
      {
        if i != a {
          assert u.seats[i] == t.seats[i];
        }
      }
    }
    assert Winner(u.seats).Err?;
    assert Coup(t, a, a) == TurnManager(u);
    TurnManagerStalls(u);
  }
}
