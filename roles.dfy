/** The seven player variants and the factory that picks one from a string. */
module Roles {

  /** A plain player (Citizen) or one of the six role subclasses. The source
      tells them apart with runtime type tests; here the tag is matched. */
  datatype Role = Citizen | Governor | Spy | Baron | General | Judge | Merchant

  /** The factory's spelling of each role; a plain player has no spelling. */
  function RoleName(r: Role): string
  {
    match r
    case Citizen => ""
    case Governor => "Governor"
    case Spy => "Spy"
    case Baron => "Baron"
    case General => "General"
    case Judge => "Judge"
    case Merchant => "Merchant"
  }

  /** PlayerFactory::createPlayer's choice of class: the first branch whose
      exact, case-sensitive string matches wins, and anything else gives a
      plain player. */
  function RoleFor(role: string): (r: Role)
    ensures r == Governor <==> role == "Governor"
    ensures r == Spy <==> role == "Spy"
    ensures r == Baron <==> role == "Baron"
    ensures r == General <==> role == "General"
    ensures r == Judge <==> role == "Judge"
    ensures r == Merchant <==> role == "Merchant"
    ensures r == Citizen <==> role !in {"Governor", "Spy", "Baron", "General", "Judge", "Merchant"}
  {
    if role == "Governor" then Governor
    else if role == "Spy" then Spy
    else if role == "Baron" then Baron
    else if role == "General" then General
    else if role == "Judge" then Judge
    else if role == "Merchant" then Merchant
    else Citizen
  }

  /** Naming a role and handing the name to the factory gives the role back. */
  lemma RoleForRoleName(r: Role)
    ensures RoleFor(RoleName(r)) == r
  {
  }

  /** A string the factory recognises is exactly the name of the role it builds. */
  lemma RoleNameRoleFor(s: string)
    requires RoleFor(s) != Citizen
    ensures RoleName(RoleFor(s)) == s
  {
  }
}
