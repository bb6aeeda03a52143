/** The seat record created for a joining user (game/player.js). */
module Players {
  import opened Wrappers
  import opened Users

  /**
   * The player's last decision. game/util/PlayerAction.js is not part of
   * this model; the modelled code only ever uses NONE.
   */
  datatype PlayerAction = NONE

  /** Chips a new player sits down with. */
  const StartingMoney: int := 100_000

  datatype Player = Player(id: string, name: Option<string>, image: Option<string>, money: int, action: PlayerAction)

  /** `new Player(user)`: identity from the user, the fixed stack and no action yet. */
  function NewPlayer(user: User): (p: Player)
    ensures p.id == user.uid && p.image == user.picture
    ensures p.name == (if Truthy(user.name) then user.name else user.email)
    ensures p.money == StartingMoney && p.action == NONE
  {
    Player(user.uid, NameOrEmail(user), user.picture, StartingMoney, NONE)
  }
}
