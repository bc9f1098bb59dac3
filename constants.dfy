/** The coin table and the integer tuning constants of the Fortune Ninja round. */
module Constants {

  /** How a coin type is drawn and whether clicking it scores or costs. */
  datatype CoinStyle = CoinStyle(bg: string, glow: string, symbol: string, labelText: string, isGood: bool)

  const COIN_CONFIG: map<string, CoinStyle> := map[
    "bitcoin"  := CoinStyle("#F7931A", "#FFB84D", "\U{20BF}", "BTC", true),
    "ethereum" := CoinStyle("#627EEA", "#8B9FFF", "\U{039E}", "ETH", true),
    "monad"    := CoinStyle("#836EF9", "#A78BFA", "M", "MONAD", true),
    "pizzadao" := CoinStyle("#E85D04", "#FF7B1A", "\U{2B21}", "PIZZA", true),
    "ftx"      := CoinStyle("#16213E", "#FF4444", "F", "FTX", false),
    "terra"    := CoinStyle("#2D3A87", "#FF6B6B", "L", "LUNA", false)
  ]

  const GOOD_TYPES: seq<string> := ["bitcoin", "ethereum", "monad", "pizzadao"]
  const BAD_TYPES: seq<string> := ["ftx", "terra"]

  const GRAVITY: int := 800             // px/s², drives the coin kinematics, which are not modelled
  const COIN_RADIUS: int := 36          // px, used only by the geometry the model abstracts
  const SPAWN_INTERVAL_MS: int := 550
  const MAX_COINS: int := 14
  const GOOD_SCORE: int := 10
  const BAD_PENALTY: int := 15
  const BAD_COIN_CHANCE: real := 0.2    // the random draw itself is an input of the model
  const WINDOW_MS: int := 10000
  const GAME_DURATION: int := 10000

  /** A coin type name with a table entry whose `isGood` flag is `good`. */
  predicate TypeIs(name: string, good: bool)
  {
    name in COIN_CONFIG && COIN_CONFIG[name].isGood == good
  }

  /** Every name in `GOOD_TYPES` is a good coin of the table. */
  lemma GoodTypesAreGood()
    ensures forall i :: 0 <= i < |GOOD_TYPES| ==> TypeIs(GOOD_TYPES[i], true)
  {
  }

  /** Every name in `BAD_TYPES` is a bad coin of the table. */
  lemma BadTypesAreBad()
    ensures forall i :: 0 <= i < |BAD_TYPES| ==> TypeIs(BAD_TYPES[i], false)
  {
  }

  /** The two pools share no name and together name exactly the six table entries. */
  lemma PoolsPartitionTable()
    ensures forall i, j :: 0 <= i < |GOOD_TYPES| && 0 <= j < |BAD_TYPES| ==> GOOD_TYPES[i] != BAD_TYPES[j]
    ensures forall name :: name in COIN_CONFIG <==> name in GOOD_TYPES || name in BAD_TYPES
    ensures |COIN_CONFIG| == |GOOD_TYPES| + |BAD_TYPES| == 6
  {
    assert COIN_CONFIG.Keys == {"bitcoin", "ethereum", "monad", "pizzadao", "ftx", "terra"};
  }

  /** The spawn loop needs a positive interval and a positive cap; the round and the click window last 10 s. */
  lemma TuningConstants()
    ensures SPAWN_INTERVAL_MS > 0 && MAX_COINS > 0
    ensures WINDOW_MS == GAME_DURATION == 10000
    ensures GOOD_SCORE == 10 && BAD_PENALTY == 15
  {
  }
}
