/**
 * The Fortune Ninja round: phases idle -> playing -> gameover, per-click
 * scoring, the coin-spawn loop driven by an accumulating timer, the
 * 10-second window of click timestamps and the countdown display.
 *
 * Times are integer milliseconds. Where a coin is on the canvas is not
 * modelled: whether a pointer event hits a coin and whether a coin is
 * still on screen are predicates handed to the operations, and the two
 * random draws of `makeCoin` are an input indexed by coin id.
 */
module Game {
  import opened Common
  import opened Constants

  datatype Phase = Idle | Playing | GameOver

  /** The counters held in `statsRef` (and copied into the `uiStats` state); JavaScript numbers, so plain integers. */
  datatype Stats = Stats(score: int, totalClicked: int, goodClicked: int, badClicked: int, phase: Phase)

  const INITIAL_STATS := Stats(0, 0, 0, 0, Idle)

  /**
   * What the counters always satisfy: no count is negative, every click is
   * good or bad, and the score is never negative and never more than the
   * good clicks earned.
   */
  predicate Consistent(s: Stats)
  {
    && 0 <= s.goodClicked && 0 <= s.badClicked
    && s.totalClicked == s.goodClicked + s.badClicked
    && 0 <= s.score <= GOOD_SCORE * s.goodClicked
  }

  // ------------------------------------------------------------------ coins

  /** A thrown coin: its id, its type name, whether it is good, and which hand threw it. */
  datatype Coin = Coin(id: nat, kind: string, isGood: bool, fromLeftHand: bool)

  function IsGoodCoin(c: Coin): bool { c.isGood }

  /** The type agrees with the table, and even ids come from the left hand. */
  predicate WellFormed(c: Coin)
  {
    TypeIs(c.kind, c.isGood) && (c.fromLeftHand <==> c.id % 2 == 0)
  }

  predicate IdsIncreasing(cs: seq<Coin>)
  {
    forall i, j :: 0 <= i < j < |cs| ==> cs[i].id < cs[j].id
  }

  function Pool(isBad: bool): seq<string> { if isBad then BAD_TYPES else GOOD_TYPES }

  /** The two `Math.random()` results `makeCoin` uses: bad or good, and the index into that pool. */
  datatype Draw = Draw(isBad: bool, index: nat)

  type PoolDraw = d: Draw | d.index < |Pool(d.isBad)| witness Draw(false, 0)

  /** `makeCoin`: the type comes from the pool the draw picked, and the coin is good exactly when that pool is the good one. */
  function MakeCoin(id: nat, isLeft: bool, d: PoolDraw): (c: Coin)
    ensures c.id == id && c.fromLeftHand == isLeft
    ensures c.isGood == !d.isBad && c.kind in Pool(d.isBad)
    ensures TypeIs(c.kind, c.isGood)
  {
    GoodTypesAreGood();
    BadTypesAreBad();
    Coin(id, Pool(d.isBad)[d.index], !d.isBad, isLeft)
  }

  /** The coins the spawn loop pushes when it runs `k` times from coin id `firstId`. */
  function Spawned(firstId: nat, k: nat, draws: nat -> PoolDraw): (r: seq<Coin>)
    ensures |r| == k
  {
    if k == 0 then []
    else
      var id := firstId + k - 1;
      Spawned(firstId, k - 1, draws) + [MakeCoin(id, id % 2 == 0, draws(id))]
  }

  /** The `i`-th coin of a burst has id `firstId + i`, is thrown by the left hand exactly when that id is even, and uses that id's draw. */
  lemma {:induction false} SpawnedCoins(firstId: nat, k: nat, draws: nat -> PoolDraw)
    ensures forall i :: 0 <= i < k ==>
      Spawned(firstId, k, draws)[i] == MakeCoin(firstId + i, (firstId + i) % 2 == 0, draws(firstId + i))
  {
    if k > 0 {
      SpawnedCoins(firstId, k - 1, draws);
      var r, init := Spawned(firstId, k, draws), Spawned(firstId, k - 1, draws);
      forall i | 0 <= i < k ensures r[i] == MakeCoin(firstId + i, (firstId + i) % 2 == 0, draws(firstId + i)) {
        if i < k - 1 {
          assert r[i] == init[i];
        }
      }
    }
  }

  /** One more run of the spawn loop pushes the next coin after the burst so far. */
  lemma AppendSpawned(prefix: seq<Coin>, firstId: nat, k: nat, id: nat, draws: nat -> PoolDraw)
    requires id == firstId + k
    ensures prefix + Spawned(firstId, k + 1, draws) == prefix + Spawned(firstId, k, draws) + [MakeCoin(id, id % 2 == 0, draws(id))]
  {
  }

  /** Consecutive coins of one burst come from alternating hands. */
  lemma SpawnedAlternateHands(firstId: nat, k: nat, draws: nat -> PoolDraw)
    ensures forall i :: 0 <= i < k - 1 ==>
      Spawned(firstId, k, draws)[i].fromLeftHand != Spawned(firstId, k, draws)[i + 1].fromLeftHand
  {
    SpawnedCoins(firstId, k, draws);
  }

  /**
   * How many coins the spawn loop adds, in closed form: one per full interval
   * in the timer, but never past `MAX_COINS`.
   */
  function SpawnCount(timer: int, present: nat): (k: nat)
    ensures present <= MAX_COINS ==> present + k <= MAX_COINS
    ensures k * SPAWN_INTERVAL_MS <= Max(timer, 0)
    ensures present <= MAX_COINS ==>
      timer - k * SPAWN_INTERVAL_MS < SPAWN_INTERVAL_MS || present + k == MAX_COINS
  {
    if timer < SPAWN_INTERVAL_MS || present >= MAX_COINS then 0
    else Min(timer / SPAWN_INTERVAL_MS, MAX_COINS - present)
  }

  /** The loop's exit condition and its bookkeeping determine how often it ran. */
  lemma SpawnCountUnique(timer: int, present: nat, k: nat)
    requires present + k <= MAX_COINS
    requires k * SPAWN_INTERVAL_MS <= Max(timer, 0)
    requires timer - k * SPAWN_INTERVAL_MS < SPAWN_INTERVAL_MS || present + k == MAX_COINS
    ensures k == SpawnCount(timer, present)
  {
    if k > 0 {
      assert timer >= SPAWN_INTERVAL_MS;
      assert k <= timer / SPAWN_INTERVAL_MS;
    }
  }

  /** Filtering keeps the coin ids in increasing order. */
  lemma {:induction false} FilterKeepsIdsIncreasing(cs: seq<Coin>, p: Coin -> bool)
    requires IdsIncreasing(cs)
    ensures IdsIncreasing(Filter(cs, p))
  {
    if cs != [] {
      var init, last := cs[..|cs| - 1], cs[|cs| - 1];
      FilterKeepsIdsIncreasing(init, p);
      var f := Filter(init, p);
      FilterMembers(init, p);
      forall i | 0 <= i < |f| ensures f[i].id < last.id {
        assert f[i] in init;
      }
      assert cs == init + [last];
    }
  }

  // ---------------------------------------------------------------- scoring

  /** One hit coin: a good coin adds `GOOD_SCORE`, a bad one takes `BAD_PENALTY` off, never below zero. */
  function ScoreHit(s: Stats, c: Coin): (r: Stats)
    ensures r.phase == s.phase && r.totalClicked == s.totalClicked + 1
    ensures c.isGood ==>
      r.goodClicked == s.goodClicked + 1 && r.badClicked == s.badClicked && r.score == s.score + GOOD_SCORE
    ensures !c.isGood ==>
      r.badClicked == s.badClicked + 1 && r.goodClicked == s.goodClicked && r.score == Max(0, s.score - BAD_PENALTY)
    ensures r.score >= 0 || s.score < 0
    ensures Consistent(s) ==> Consistent(r)
  {
    var s' := s.(totalClicked := s.totalClicked + 1);
    if c.isGood then s'.(goodClicked := s.goodClicked + 1, score := s.score + GOOD_SCORE)
    else s'.(badClicked := s.badClicked + 1, score := Max(0, s.score - BAD_PENALTY))
  }

  /** The hit coins scored one after the other, in order. */
  function ScoreAll(s: Stats, hits: seq<Coin>): (r: Stats)
    ensures r.phase == s.phase
    ensures r.totalClicked == s.totalClicked + |hits|
    ensures Consistent(s) ==> Consistent(r)
  {
    if hits == [] then s
    else ScoreHit(ScoreAll(s, hits[..|hits| - 1]), hits[|hits| - 1])
  }

  lemma ScoreAllSnoc(s: Stats, hits: seq<Coin>, c: Coin)
    ensures ScoreAll(s, hits + [c]) == ScoreHit(ScoreAll(s, hits), c)
  {
    assert (hits + [c])[..|hits|] == hits;
  }

  /** The good and the bad counters grow by the number of good and of bad coins hit. */
  lemma {:induction false} ScoreAllCounts(s: Stats, hits: seq<Coin>)
    ensures ScoreAll(s, hits).goodClicked == s.goodClicked + |Filter(hits, IsGoodCoin)|
    ensures ScoreAll(s, hits).badClicked == s.badClicked + |Filter(hits, Missed(IsGoodCoin))|
  {
    if hits != [] {
      var init, last := hits[..|hits| - 1], hits[|hits| - 1];
      ScoreAllCounts(s, init);
      assert hits == init + [last];
      FilterSnoc(init, last, IsGoodCoin);
      FilterSnoc(init, last, Missed(IsGoodCoin));
    }
  }

  /** Scoring two batches of hits one after the other is scoring them together. */
  lemma {:induction false} ScoreAllAppend(s: Stats, a: seq<Coin>, b: seq<Coin>)
    ensures ScoreAll(s, a + b) == ScoreAll(ScoreAll(s, a), b)
  {
    if b == [] {
      assert a + b == a;
    } else {
      var init, last := b[..|b| - 1], b[|b| - 1];
      ScoreAllAppend(s, a, init);
      assert a + b == (a + init) + [last];
      ScoreAllSnoc(s, a + init, last);
      ScoreAllSnoc(ScoreAll(s, a), init, last);
      assert init + [last] == b;
    }
  }

  /** From a fresh round, any sequence of hits leaves total = good + bad and 0 <= score <= GOOD_SCORE * good. */
  lemma ScoresFromStart(hits: seq<Coin>)
    ensures var s := ScoreAll(INITIAL_STATS.(phase := Playing), hits);
      && s.totalClicked == s.goodClicked + s.badClicked == |hits|
      && 0 <= s.score <= GOOD_SCORE * s.goodClicked
  {
  }

  /** `c => !hit(c)`, the coins a pointer event leaves on the board. */
  function Missed(hit: Coin -> bool): Coin -> bool
  {
    c => !hit(c)
  }

  // --------------------------------------------------------- click window

  /** `t => now - t < WINDOW_MS`. */
  function InWindow(now: int): int -> bool
  {
    t => now - t < WINDOW_MS
  }

  /** The window keeps exactly the timestamps less than `WINDOW_MS` old, and keeping twice changes nothing. */
  lemma WindowKeepsRecent(ts: seq<int>, now: int)
    ensures forall t :: t in Filter(ts, InWindow(now)) <==> t in ts && now - t < WINDOW_MS
    ensures Filter(Filter(ts, InWindow(now)), InWindow(now)) == Filter(ts, InWindow(now))
  {
    var r := Filter(ts, InWindow(now));
    FilterMembers(ts, InWindow(now));
    forall t ensures t in r <==> t in ts && now - t < WINDOW_MS {
      if t in r {
        var i :| 0 <= i < |r| && r[i] == t;
      }
      if t in ts && now - t < WINDOW_MS {
        var i :| 0 <= i < |ts| && ts[i] == t;
      }
    }
    FilterIdempotent(ts, InWindow(now));
  }

  // ------------------------------------------------------------- frame time

  const MAX_FRAME_DT := 50

  /** `Math.min(ts - lastTs, 50)`: the elapsed frame time, capped. */
  function FrameDt(ts: int, lastTs: int): (dt: int)
    ensures dt <= MAX_FRAME_DT
    ensures ts - lastTs <= MAX_FRAME_DT ==> dt == ts - lastTs
    ensures ts - lastTs > MAX_FRAME_DT ==> dt == MAX_FRAME_DT
  {
    Min(ts - lastTs, MAX_FRAME_DT)
  }

  // ------------------------------------------------------------------ timer

  const LOW_TIME_MS := 3000

  /** What `renderTimer` shows: the milliseconds left, the whole seconds shown (rounded up) and whether the ring turns red. */
  datatype TimerView = TimerView(remaining: nat, seconds: nat, isLow: bool)

  function Timer(elapsed: int): (t: TimerView)
    ensures t.remaining == 0 <==> elapsed >= GAME_DURATION
    ensures elapsed < GAME_DURATION ==> t.remaining == GAME_DURATION - elapsed
    ensures (t.seconds - 1) * 1000 < t.remaining <= t.seconds * 1000
    ensures t.isLow <==> t.remaining < LOW_TIME_MS
    ensures t.isLow ==> t.seconds <= 3
    ensures elapsed >= 0 ==> t.remaining <= GAME_DURATION && t.seconds <= GAME_DURATION / 1000
  {
    var remaining := Max(0, GAME_DURATION - elapsed);
    TimerView(remaining, (remaining + 999) / 1000, remaining < LOW_TIME_MS)
  }

  /** The countdown never goes up as time passes. */
  lemma TimerCountsDown(e1: int, e2: int)
    requires e1 <= e2
    ensures Timer(e2).remaining <= Timer(e1).remaining
    ensures Timer(e2).seconds <= Timer(e1).seconds
  {
    var t1, t2 := Timer(e1), Timer(e2);
  }

  /** A burst appended to a board whose ids are all below its first id leaves a well-formed board with increasing ids. */
  lemma SpawnedKeepsBoard(cs: seq<Coin>, firstId: nat, k: nat, draws: nat -> PoolDraw)
    requires forall i :: 0 <= i < |cs| ==> WellFormed(cs[i]) && cs[i].id < firstId
    requires IdsIncreasing(cs)
    ensures forall i :: 0 <= i < |cs| + k ==>
      WellFormed((cs + Spawned(firstId, k, draws))[i]) && (cs + Spawned(firstId, k, draws))[i].id < firstId + k
    ensures IdsIncreasing(cs + Spawned(firstId, k, draws))
  {
    var sp := Spawned(firstId, k, draws);
    var r := cs + sp;
    SpawnedCoins(firstId, k, draws);
    forall i | 0 <= i < |r| ensures WellFormed(r[i]) && r[i].id < firstId + k {
      if i >= |cs| {
        assert r[i] == sp[i - |cs|];
      }
    }
  }

  /** Every coin a filter keeps was on the board, so it stays well formed and below the next id. */
  lemma FilterStaysValid(cs: seq<Coin>, p: Coin -> bool, nextId: int)
    requires forall i :: 0 <= i < |cs| ==> WellFormed(cs[i]) && cs[i].id < nextId
    ensures forall i :: 0 <= i < |Filter(cs, p)| ==> WellFormed(Filter(cs, p)[i]) && Filter(cs, p)[i].id < nextId
  {
    FilterMembers(cs, p);
  }

  /** One more coin examined by the pointer loop: it is hit and scored, or kept. */
  lemma PointerStep(s0: Stats, cs: seq<Coin>, i: nat, hit: Coin -> bool)
    requires i < |cs|
    ensures Filter(cs[..i + 1], hit) == Filter(cs[..i], hit) + (if hit(cs[i]) then [cs[i]] else [])
    ensures Filter(cs[..i + 1], Missed(hit)) == Filter(cs[..i], Missed(hit)) + (if hit(cs[i]) then [] else [cs[i]])
    ensures ScoreAll(s0, Filter(cs[..i + 1], hit)) ==
      if hit(cs[i]) then ScoreHit(ScoreAll(s0, Filter(cs[..i], hit)), cs[i]) else ScoreAll(s0, Filter(cs[..i], hit))
  {
    assert cs[..i + 1] == cs[..i] + [cs[i]];
    FilterSnoc(cs[..i], cs[i], hit);
    FilterSnoc(cs[..i], cs[i], Missed(hit));
    ScoreAllSnoc(s0, Filter(cs[..i], hit), cs[i]);
    if !hit(cs[i]) {
      assert Filter(cs[..i], hit) + [] == Filter(cs[..i], hit);
    }
  }

  /**
   * The spawn `while` loop of the animation frame on the values it reads and
   * writes: while the timer holds a full interval and the board has room,
   * take an interval off the timer and push the next coin, alternating hands.
   */
  method SpawnLoop(coins: seq<Coin>, timer: int, nextId: nat, draws: nat -> PoolDraw)
    returns (coins': seq<Coin>, timer': int, nextId': nat)
    requires |coins| <= MAX_COINS
    ensures var k := SpawnCount(timer, |coins|);
      && coins' == coins + Spawned(nextId, k, draws)
      && timer' == timer - k * SPAWN_INTERVAL_MS && nextId' == nextId + k
    ensures timer' < SPAWN_INTERVAL_MS || |coins'| == MAX_COINS
  {
    coins', timer', nextId' := coins, timer, nextId;
    ghost var k: nat := 0;
    while timer' >= SPAWN_INTERVAL_MS && |coins'| < MAX_COINS
      invariant |coins'| == |coins| + k <= MAX_COINS
      invariant k * SPAWN_INTERVAL_MS <= Max(timer, 0)
      invariant timer' == timer - k * SPAWN_INTERVAL_MS
      invariant nextId' == nextId + k
      invariant coins' == coins + Spawned(nextId, k, draws)
      decreases MAX_COINS - |coins'|
    {
      timer' := timer' - SPAWN_INTERVAL_MS;
      var isLeft := nextId' % 2 == 0;
      var c := MakeCoin(nextId', isLeft, draws(nextId'));
      AppendSpawned(coins, nextId, k, nextId', draws);
      coins' := coins' + [c];
      nextId' := nextId' + 1;
      k := k + 1;
    }
    SpawnCountUnique(timer, |coins|, k);
  }

  // ------------------------------------------------------------------ round

  /** The refs and state of the `Game` component that the update half of the loop and the handlers change. */
  class Round {
    var stats: Stats          // statsRef.current
    var uiStats: Stats        // the uiStats state, a copy taken by syncUI
    var eventsIn10s: nat      // the eventsIn10s state
    var coins: seq<Coin>      // coinsRef.current
    var clickTs: seq<int>     // clickTsRef.current, Date.now() values
    var spawnTimer: int       // spawnTimerRef.current
    var nextCoinId: nat       // the module-level _coinId counter
    var gameStart: int        // gameStartRef.current
    var lastTs: int           // lastTs of the animation loop

    ghost predicate Valid()
      reads this
    {
      && Consistent(stats) && Consistent(uiStats)
      && |coins| <= MAX_COINS
      && (stats.phase != Playing ==> coins == [])
      && (forall i :: 0 <= i < |coins| ==> WellFormed(coins[i]) && coins[i].id < nextCoinId)
      && IdsIncreasing(coins)
      && |clickTs| <= stats.totalClicked
    }

    /** The component as mounted: `INITIAL_STATS`, empty refs. */
    constructor ()
      ensures stats == INITIAL_STATS && uiStats == INITIAL_STATS && eventsIn10s == 0
      ensures coins == [] && clickTs == [] && spawnTimer == 0 && nextCoinId == 0
      ensures gameStart == 0 && lastTs == 0
      ensures Valid()
    {
      stats, uiStats, eventsIn10s := INITIAL_STATS, INITIAL_STATS, 0;
      coins, clickTs, spawnTimer, nextCoinId := [], [], 0, 0;
      gameStart, lastTs := 0, 0;
    }

    /** `syncUI`: copy the counters for display and count the clicks of the last `WINDOW_MS` without pruning them. */
    method SyncUI(wallNow: int)
      requires Valid()
      modifies this`uiStats, this`eventsIn10s
      ensures Valid()
      ensures uiStats == stats
      ensures eventsIn10s == |Filter(clickTs, InWindow(wallNow))|
    {
      uiStats := stats;
      eventsIn10s := |Filter(clickTs, InWindow(wallNow))|;
    }

    /** The 500 ms interval: drop the clicks older than the window and show how many are left. */
    method PruneClicks(wallNow: int)
      requires Valid()
      modifies this`clickTs, this`eventsIn10s
      ensures Valid()
      ensures clickTs == Filter(old(clickTs), InWindow(wallNow))
      ensures eventsIn10s == |clickTs|
    {
      clickTs := Filter(clickTs, InWindow(wallNow));
      eventsIn10s := |clickTs|;
    }

    /** `startGame`: reset the coin ids, every list, the spawn timer and the counters, and start playing at `now`. */
    method StartGame(now: int, wallNow: int)
      requires Valid()
      modifies this
      ensures Valid()
      ensures stats == INITIAL_STATS.(phase := Playing)
      ensures coins == [] && clickTs == [] && spawnTimer == 0 && nextCoinId == 0
      ensures gameStart == now && lastTs == old(lastTs)
      ensures uiStats == stats && eventsIn10s == 0
    {
      nextCoinId := 0;
      coins := [];
      clickTs := [];
      spawnTimer := 0;
      gameStart := now;
      stats := INITIAL_STATS.(phase := Playing);
      SyncUI(wallNow);
    }

    /** The spawn `while` loop: push a coin per full interval in the timer while there is room for one. */
    method SpawnCoins(draws: nat -> PoolDraw)
      requires Valid() && stats.phase == Playing
      modifies this`coins, this`spawnTimer, this`nextCoinId
      ensures Valid()
      ensures spawnTimer < SPAWN_INTERVAL_MS || |coins| == MAX_COINS
      ensures var k := SpawnCount(old(spawnTimer), |old(coins)|);
        && coins == old(coins) + Spawned(old(nextCoinId), k, draws)
        && spawnTimer == old(spawnTimer) - k * SPAWN_INTERVAL_MS
        && nextCoinId == old(nextCoinId) + k
    {
      coins, spawnTimer, nextCoinId := SpawnLoop(coins, spawnTimer, nextCoinId, draws);
      SpawnedKeepsBoard(old(coins), old(nextCoinId), SpawnCount(old(spawnTimer), |old(coins)|), draws);
    }

    /** A frame of play before time is up: feed the spawn timer, spawn, then keep only the coins still on screen. */
    method Advance(dt: int, draws: nat -> PoolDraw, onScreen: Coin -> bool)
      requires Valid() && stats.phase == Playing
      modifies this`coins, this`spawnTimer, this`nextCoinId
      ensures Valid()
      ensures var timer := old(spawnTimer) + dt;
        var k := SpawnCount(timer, |old(coins)|);
        && spawnTimer == timer - k * SPAWN_INTERVAL_MS
        && nextCoinId == old(nextCoinId) + k
        && coins == Filter(old(coins) + Spawned(old(nextCoinId), k, draws), onScreen)
    {
      spawnTimer := spawnTimer + dt;
      SpawnCoins(draws);
      FilterKeepsIdsIncreasing(coins, onScreen);
      FilterStaysValid(coins, onScreen, nextCoinId);
      coins := Filter(coins, onScreen);
    }

    /**
     * The update half of one animation frame: end the round when its time is
     * up (clearing the coins), otherwise feed the spawn timer, run the spawn
     * loop and drop the coins that left the screen.
     */
    method Frame(ts: int, now: int, wallNow: int, draws: nat -> PoolDraw, onScreen: Coin -> bool)
      requires Valid()
      modifies this`lastTs, this`stats, this`coins, this`spawnTimer, this`nextCoinId, this`uiStats, this`eventsIn10s
      ensures Valid()
      ensures lastTs == ts
      ensures old(stats.phase) != Playing ==>
        && stats == old(stats) && coins == old(coins)
        && spawnTimer == old(spawnTimer) && nextCoinId == old(nextCoinId)
        && uiStats == old(uiStats) && eventsIn10s == old(eventsIn10s)
      ensures old(stats.phase) == Playing && now - old(gameStart) >= GAME_DURATION ==>
        && stats == old(stats).(phase := GameOver) && coins == []
        && spawnTimer == old(spawnTimer) && nextCoinId == old(nextCoinId)
        && uiStats == stats && eventsIn10s == |Filter(clickTs, InWindow(wallNow))|
      ensures old(stats.phase) == Playing && now - old(gameStart) < GAME_DURATION ==>
        var timer := old(spawnTimer) + FrameDt(ts, old(lastTs));
        var k := SpawnCount(timer, |old(coins)|);
        && stats == old(stats) && uiStats == old(uiStats) && eventsIn10s == old(eventsIn10s)
        && spawnTimer == timer - k * SPAWN_INTERVAL_MS
        && nextCoinId == old(nextCoinId) + k
        && coins == Filter(old(coins) + Spawned(old(nextCoinId), k, draws), onScreen)
    {
      var dt := FrameDt(ts, lastTs);
      lastTs := ts;
      var elapsed := if stats.phase == Playing then now - gameStart else 0;
      if stats.phase == Playing {
        if elapsed >= GAME_DURATION {
          stats := stats.(phase := GameOver);
          coins := [];
          SyncUI(wallNow);
        } else {
          Advance(dt, draws, onScreen);
        }
      }
    }

    /**
     * The loop of `onPointerDown` over the coins: each hit coin is scored and
     * gets a timestamp, each missed coin is kept, in board order.
     */
    method CollectHits(wallNow: int, hit: Coin -> bool) returns (kept: seq<Coin>, hitAny: bool)
      modifies this`stats, this`clickTs
      ensures kept == Filter(coins, Missed(hit))
      ensures stats == ScoreAll(old(stats), Filter(coins, hit))
      ensures clickTs == old(clickTs) + Repeat(wallNow, |Filter(coins, hit)|)
      ensures hitAny <==> Filter(coins, hit) != []
    {
      var cs, s, ts := coins, stats, clickTs;
      kept, hitAny := [], false;
      for i := 0 to |cs|
        invariant kept == Filter(cs[..i], Missed(hit))
        invariant s == ScoreAll(old(stats), Filter(cs[..i], hit))
        invariant ts == old(clickTs) + Repeat(wallNow, |Filter(cs[..i], hit)|)
        invariant hitAny <==> Filter(cs[..i], hit) != []
      {
        var c := cs[i];
        PointerStep(old(stats), cs, i, hit);
        if !hit(c) {
          kept := kept + [c];
        } else {
          hitAny := true;
          s := ScoreHit(s, c);
          AppendRepeat(old(clickTs), wallNow, |Filter(cs[..i], hit)|);
          ts := ts + [wallNow];
        }
      }
      assert cs[..|cs|] == cs;
      stats, clickTs := s, ts;
    }

    /**
     * `onPointerDown`: outside a round nothing happens; during one, every hit
     * coin is scored and removed (in order), a timestamp is recorded per hit,
     * and the display is refreshed if anything was hit.
     */
    method PointerDown(wallNow: int, hit: Coin -> bool)
      requires Valid()
      modifies this`stats, this`coins, this`clickTs, this`uiStats, this`eventsIn10s
      ensures Valid()
      ensures old(stats.phase) != Playing ==> unchanged(this)
      ensures old(stats.phase) == Playing ==>
        var hits := Filter(old(coins), hit);
        && stats == ScoreAll(old(stats), hits)
        && coins == Filter(old(coins), Missed(hit))
        && clickTs == old(clickTs) + Repeat(wallNow, |hits|)
        && (hits == [] ==> uiStats == old(uiStats) && eventsIn10s == old(eventsIn10s))
        && (hits != [] ==> uiStats == stats && eventsIn10s == |Filter(clickTs, InWindow(wallNow))|)
    {
      if stats.phase != Playing {
        return;
      }
      FilterKeepsIdsIncreasing(coins, Missed(hit));
      FilterStaysValid(coins, Missed(hit), nextCoinId);
      var kept, hitAny := CollectHits(wallNow, hit);
      coins := kept;
      if hitAny {
        SyncUI(wallNow);
      }
    }
  }
}
