/** The ten table phases (game/util/GameState.js). */
module GameStates {
  import opened Wrappers

  /** The enumeration; each constant's value is the string of its own name. */
  datatype Phase =
    | INITIALIZING
    | WAITING_FOR_PLAYERS
    | STARTING
    | DEALING_CARDS
    | PRE_FLOP
    | FLOP
    | TURN
    | RIVER
    | SHOWDOWN
    | GAME_OVER

  /** The constants in declaration order. */
  const AllPhases: seq<Phase> :=
    [INITIALIZING, WAITING_FOR_PLAYERS, STARTING, DEALING_CARDS, PRE_FLOP,
     FLOP, TURN, RIVER, SHOWDOWN, GAME_OVER]

  /** The string value of a constant. */
  function Name(p: Phase): string
  {
    match p
    case INITIALIZING => "INITIALIZING"
    case WAITING_FOR_PLAYERS => "WAITING_FOR_PLAYERS"
    case STARTING => "STARTING"
    case DEALING_CARDS => "DEALING_CARDS"
    case PRE_FLOP => "PRE_FLOP"
    case FLOP => "FLOP"
    case TURN => "TURN"
    case RIVER => "RIVER"
    case SHOWDOWN => "SHOWDOWN"
    case GAME_OVER => "GAME_OVER"
  }

  /** The constant whose value is s, if any. */
  function FromName(s: string): Option<Phase>
  {
    if s == "INITIALIZING" then Some(INITIALIZING)
    else if s == "WAITING_FOR_PLAYERS" then Some(WAITING_FOR_PLAYERS)
    else if s == "STARTING" then Some(STARTING)
    else if s == "DEALING_CARDS" then Some(DEALING_CARDS)
    else if s == "PRE_FLOP" then Some(PRE_FLOP)
    else if s == "FLOP" then Some(FLOP)
    else if s == "TURN" then Some(TURN)
    else if s == "RIVER" then Some(RIVER)
    else if s == "SHOWDOWN" then Some(SHOWDOWN)
    else if s == "GAME_OVER" then Some(GAME_OVER)
    else None
  }

  /** Every value reads back as its own constant, so the ten values are pairwise distinct. */
  lemma NameRoundTrip(p: Phase)
    ensures FromName(Name(p)) == Some(p)
  {
  }

  /** A string that reads as a constant is that constant's value. */
  lemma FromNameSound(s: string)
    ensures FromName(s).Some? ==> Name(FromName(s).value) == s
  {
  }

  /** Equality of values distinguishes phases. */
  lemma NamesDistinct(p: Phase, q: Phase)
    ensures Name(p) == Name(q) <==> p == q
  {
    NameRoundTrip(p);
    NameRoundTrip(q);
  }

  /** Position of a constant in declaration order. */
  function Index(p: Phase): (i: nat)
    ensures i < |AllPhases| && AllPhases[i] == p
  {
    match p
    case INITIALIZING => 0
    case WAITING_FOR_PLAYERS => 1
    case STARTING => 2
    case DEALING_CARDS => 3
    case PRE_FLOP => 4
    case FLOP => 5
    case TURN => 6
    case RIVER => 7
    case SHOWDOWN => 8
    case GAME_OVER => 9
  }

  /** The enumeration has exactly ten members, each listed once. */
  lemma ExactlyTen()
    ensures |AllPhases| == 10
    ensures forall p: Phase :: p in AllPhases
    ensures forall i, j | 0 <= i < j < |AllPhases| :: AllPhases[i] != AllPhases[j]
  {
    forall p: Phase ensures p in AllPhases {
      assert AllPhases[Index(p)] == p;
    }
  }
}
