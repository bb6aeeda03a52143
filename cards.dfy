/** A playing card with its display symbols (game/util/Card.js). */
module Cards {
  import opened Wrappers

  /** The four suit symbols, indexed by suit 0..3. */
  const SuitSymbols: seq<string> := ["♥", "♦", "♣", "♠"]

  /** The thirteen value symbols, indexed by value 0..12 (ace first). */
  const ValueSymbols: seq<string> := ["A", "2", "3", "4", "5", "6", "7", "8", "9", "10", "J", "Q", "K"]

  /**
   * A card as the constructor leaves it: suit and value as given, and the two
   * symbols cached from the lookup tables (undefined outside the tables).
   */
  datatype Card = Card(value: int, valueSymbol: Option<string>, suit: int, suitSymbol: Option<string>)

  /** The suit and value name a real card. */
  predicate InRange(suit: int, value: int)
  {
    0 <= suit < 4 && 0 <= value < 13
  }

  /** `getSuitSymbol`: a lookup in the four-entry table, undefined for any other key. */
  function GetSuitSymbol(suit: int): (r: Option<string>)
    ensures r.Some? <==> 0 <= suit < 4
    ensures r.Some? ==> |r.value| == 1
  {
    if 0 <= suit < 4 then Some(SuitSymbols[suit]) else None
  }

  /** `getValueSymbol`: a lookup in the thirteen-entry table, undefined for any other key. */
  function GetValueSymbol(value: int): (r: Option<string>)
    ensures r.Some? <==> 0 <= value < 13
    ensures r.Some? ==> 1 <= |r.value| <= 2
  {
    if 0 <= value < 13 then Some(ValueSymbols[value]) else None
  }

  /** `new Card(suit, value)`. */
  function NewCard(suit: int, value: int): (c: Card)
    ensures c.suit == suit && c.value == value
    ensures c.suitSymbol == GetSuitSymbol(suit) && c.valueSymbol == GetValueSymbol(value)
    ensures InRange(suit, value) <==> c.suitSymbol.Some? && c.valueSymbol.Some?
  {
    Card(value, GetValueSymbol(value), suit, GetSuitSymbol(suit))
  }

  /** `toString`: the value symbol followed by the suit symbol, both looked up afresh. */
  function ToString(c: Card): (r: string)
    ensures InRange(c.suit, c.value) ==> 2 <= |r| <= 3
  {
    Interpolated(GetValueSymbol(c.value)) + Interpolated(GetSuitSymbol(c.suit))
  }

  /** Inverse of the suit table. */
  function SuitOfSymbol(s: string): (r: Option<int>)
  {
    if s == "♥" then Some(0)
    else if s == "♦" then Some(1)
    else if s == "♣" then Some(2)
    else if s == "♠" then Some(3)
    else None
  }

  /** Inverse of the value table. */
  function ValueOfSymbol(s: string): (r: Option<int>)
  {
    if s == "A" then Some(0)
    else if s == "2" then Some(1)
    else if s == "3" then Some(2)
    else if s == "4" then Some(3)
    else if s == "5" then Some(4)
    else if s == "6" then Some(5)
    else if s == "7" then Some(6)
    else if s == "8" then Some(7)
    else if s == "9" then Some(8)
    else if s == "10" then Some(9)
    else if s == "J" then Some(10)
    else if s == "Q" then Some(11)
    else if s == "K" then Some(12)
    else None
  }

  /** Reads a text back: the last character is the suit, the rest the value. */
  function ParseLabel(text: string): (r: Option<(int, int)>)
  {
    if |text| < 2 then None
    else
      match (SuitOfSymbol(text[|text| - 1..]), ValueOfSymbol(text[..|text| - 1]))
      case (Some(s), Some(v)) => Some((s, v))
      case _ => None
  }

  /** Every suit symbol reads back as its own suit, so the four symbols are distinct. */
  lemma SuitSymbolRoundTrip(suit: int)
    requires 0 <= suit < 4
    ensures SuitOfSymbol(SuitSymbols[suit]) == Some(suit)
  {
  }

  /** Every value symbol reads back as its own value, so the thirteen symbols are distinct. */
  lemma ValueSymbolRoundTrip(value: int)
    requires 0 <= value < 13
    ensures ValueOfSymbol(ValueSymbols[value]) == Some(value)
  {
  }

  /** The text of a real card is its value symbol followed by its suit symbol. */
  lemma ToStringOfRealCard(c: Card)
    requires InRange(c.suit, c.value)
    ensures ToString(c) == ValueSymbols[c.value] + SuitSymbols[c.suit]
  {
  }

  /** A card outside the tables renders the missing symbol as "undefined". */
  lemma ToStringOutOfRange(c: Card)
    requires !(0 <= c.suit < 4)
    ensures |ToString(c)| >= 9 && ToString(c)[|ToString(c)| - 9..] == "undefined"
  {
  }

  /** `toString` of a real card reads back as that card's suit and value. */
  lemma {:induction false} LabelRoundTrip(c: Card)
    requires InRange(c.suit, c.value)
    ensures ParseLabel(ToString(c)) == Some((c.suit, c.value))
  {
    var vs, ss := ValueSymbols[c.value], SuitSymbols[c.suit];
    var text := ToString(c);
    assert text == vs + ss;
    assert text[|text| - 1..] == ss;
    assert text[..|text| - 1] == vs;
    SuitSymbolRoundTrip(c.suit);
    ValueSymbolRoundTrip(c.value);
  }

  /** Over real cards `toString` is injective in (suit, value). */
  lemma {:induction false} ToStringInjective(c1: Card, c2: Card)
    requires InRange(c1.suit, c1.value) && InRange(c2.suit, c2.value)
    requires ToString(c1) == ToString(c2)
    ensures c1.suit == c2.suit && c1.value == c2.value
  {
    LabelRoundTrip(c1);
    LabelRoundTrip(c2);
  }
}
