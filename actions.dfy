/** The moves a player records as its last action, and the error kinds the
    engine raises when it refuses an operation. */
module Actions {

  /** The last action a player took. The GUI's enum lists the six moves;
      the engine also assigns NONE when a General cancels a coup, and a
      freshly constructed player starts at NONE. */
  datatype GameAction = NONE | GATHER | TAX | BRIBE | ARREST | SANCTION | COUP

  /** One value per distinct reason the engine throws a runtime error. */
  datatype Error =
    | NoPlayers            // the roster is empty
    | NotActive            // the acting player has been couped
    | OutOfTurn            // the acting player is not the seat whose turn it is
    | MustCoup             // ten or more coins: a turn with anything but a coup, or a Baron investing
    | Sanctioned           // gather or tax while sanctioned
    | NotEnoughMoney       // bribe, sanction or coup without the coins for it
    | TargetHasNoMoney     // arrest of a target holding no coin
    | MerchantLacksTwo     // arrest of a Merchant holding fewer than two coins
    | NoWinner             // zero or several players still active
    | LacksCoins           // a role ability its holder cannot afford
    | OnlyBlocksCoup       // a General blocking something other than a coup
    | OnlyBlocksTax        // a Governor blocking something other than a tax
    | OnlyBlocksBribe      // a Judge blocking something other than a bribe
    | TargetNotActive      // a Spy aiming at a couped player
    | NoActiveSeat         // the turn advance found no active seat: the source loops forever here

  datatype Option<+T> = None | Some(value: T)

  /** The result of an operation that returns nothing but may throw. */
  datatype Outcome = Pass | Fail(error: Error)

  /** The result of an operation that returns a value or throws. */
  datatype Result<+T> = Ok(value: T) | Err(error: Error)
}
