/**
 * The app shell: which of the six pages is shown, the burner wallet the
 * lobby hands over, the board and score the game hands back, and the key
 * and address passed to the pages. Local storage is an input: the map from
 * storage keys to stored values at render time.
 */
module App {
  import opened Common
  import LB = Leaderboard

  const STORAGE_KEY := "monad-ballgame-burner-key"

  datatype Page = Landing | Lobby | Game | Leaderboard | Reward | WalletExport

  /** The fields of the ethers `Wallet` the app reads. */
  datatype Wallet = Wallet(address: string, privateKey: string)

  /** The app's state: `page`, `wallet`, `leaderboard` and `myScore`. */
  datatype Model = Model(page: Page, wallet: Option<Wallet>, leaderboard: seq<LB.Entry>, myScore: int)

  /** `useState('landing')`, `useState(null)`, `useState([])`, `useState(0)`. */
  function Initial(): Model
  {
    Model(Landing, None, [], 0)
  }

  /** The callbacks the pages fire. */
  datatype Event =
    | Play                                           // handlePlay
    | GameStart(w: Wallet)                           // handleGameStart
    | GameEnd(lb: seq<LB.Entry>, score: int)         // handleGameEnd
    | ClaimPrize                                     // handleClaimPrize
    | ExportWallet                                   // handleExportWallet
    | Done                                           // handleDone

  /** The state after one callback. */
  function Handle(m: Model, ev: Event): Model
  {
    match ev
    case Play => m.(page := Lobby)
    case GameStart(w) => m.(wallet := Some(w), page := Game)
    case GameEnd(lb, score) => m.(leaderboard := lb, myScore := score, page := Leaderboard)
    case ClaimPrize => m.(page := Reward)
    case ExportWallet => m.(page := WalletExport)
    case Done => m.(page := Landing)
  }

  /** The state after the callbacks `evs`, fired in order. */
  function Run(m: Model, evs: seq<Event>): Model
    decreases |evs|
  {
    if evs == [] then m else Run(Handle(m, evs[0]), evs[1..])
  }

  /** `wallet?.privateKey ?? localStorage.getItem(STORAGE_KEY) ?? ''`. */
  function PrivateKey(wallet: Option<Wallet>, storage: map<string, string>): string
  {
    match wallet
    case Some(w) => w.privateKey
    case None => if STORAGE_KEY in storage then storage[STORAGE_KEY] else ""
  }

  /** `wallet?.address ?? ''`. */
  function Address(wallet: Option<Wallet>): string
  {
    match wallet
    case Some(w) => w.address
    case None => ""
  }

  /** What the render switch returns, with the props each page receives. */
  datatype Screen =
    | LandingScreen
    | LobbyScreen
    | GameScreen(wallet: Wallet)
    | Nothing                                        // `null`
    | LeaderboardScreen(leaderboard: seq<LB.Entry>, myScore: int, myAddress: string)
    | RewardScreen(myScore: int, myAddress: string)
    | WalletScreen(privateKey: string, address: string)

  function Render(m: Model, storage: map<string, string>): Screen
  {
    match m.page
    case Landing => LandingScreen
    case Lobby => LobbyScreen
    case Game => if m.wallet.Some? then GameScreen(m.wallet.value) else Nothing
    case Leaderboard => LeaderboardScreen(m.leaderboard, m.myScore, Address(m.wallet))
    case Reward => RewardScreen(m.myScore, Address(m.wallet))
    case WalletExport => WalletScreen(PrivateKey(m.wallet, storage), Address(m.wallet))
  }

  // ------------------------------------------------------------- properties

  /**
   * The key comes from the wallet when there is one, whatever is stored;
   * otherwise from the stored burner key; otherwise it is empty. The
   * address has no stored fallback.
   */
  lemma PrivateKeyFallback(wallet: Option<Wallet>, storage: map<string, string>)
    ensures wallet.Some? ==> PrivateKey(wallet, storage) == wallet.value.privateKey && Address(wallet) == wallet.value.address
    ensures wallet.None? && STORAGE_KEY in storage ==> PrivateKey(wallet, storage) == storage[STORAGE_KEY]
    ensures wallet.None? && STORAGE_KEY !in storage ==> PrivateKey(wallet, storage) == ""
    ensures wallet.None? ==> Address(wallet) == ""
    ensures wallet.Some? ==> forall other :: PrivateKey(wallet, other) == PrivateKey(wallet, storage)
  {
  }

  /** Every callback moves to its own page; only `GameStart` changes the wallet, and only `GameEnd` the board and score. */
  lemma HandleChangesOnly(m: Model, ev: Event)
    ensures ev.Play? ==> Handle(m, ev).page == Lobby
    ensures ev.GameStart? ==> Handle(m, ev).page == Game
    ensures ev.GameEnd? ==> Handle(m, ev).page == Leaderboard
    ensures ev.ClaimPrize? ==> Handle(m, ev).page == Reward
    ensures ev.ExportWallet? ==> Handle(m, ev).page == WalletExport
    ensures ev.Done? ==> Handle(m, ev).page == Landing
    ensures !ev.GameStart? ==> Handle(m, ev).wallet == m.wallet
    ensures !ev.GameEnd? ==> Handle(m, ev).leaderboard == m.leaderboard && Handle(m, ev).myScore == m.myScore
  {
  }

  lemma {:induction false} RunAppend(m: Model, a: seq<Event>, b: seq<Event>)
    ensures Run(m, a + b) == Run(Run(m, a), b)
    decreases |a|
  {
    if a != [] {
      assert (a + b)[1..] == a[1..] + b;
      RunAppend(Handle(m, a[0]), a[1..], b);
    } else {
      assert a + b == b;
    }
  }

  /** Once a wallet is set, every later callback other than another `GameStart` keeps it. */
  lemma {:induction false} WalletPersists(m: Model, evs: seq<Event>)
    requires forall i :: 0 <= i < |evs| ==> !evs[i].GameStart?
    ensures Run(m, evs).wallet == m.wallet
    decreases |evs|
  {
    if evs != [] {
      HandleChangesOnly(m, evs[0]);
      WalletPersists(Handle(m, evs[0]), evs[1..]);
    }
  }

  /**
   * After a game has started with wallet `w`, exporting at any later point
   * (no second start in between) shows `w`'s own key and address, whatever
   * burner key is stored.
   */
  lemma {:induction false} ExportAfterStart(m: Model, w: Wallet, evs: seq<Event>, storage: map<string, string>)
    requires forall i :: 0 <= i < |evs| ==> !evs[i].GameStart?
    ensures Render(Run(m, [GameStart(w)] + evs + [ExportWallet]), storage) == WalletScreen(w.privateKey, w.address)
  {
    var started := Handle(m, GameStart(w));
    assert Run(m, [GameStart(w)]) == started;
    RunAppend(m, [GameStart(w)], evs);
    WalletPersists(started, evs);
    var before := Run(started, evs);
    RunAppend(m, [GameStart(w)] + evs, [ExportWallet]);
    assert Run(before, [ExportWallet]) == Handle(before, ExportWallet);
  }

  /** The game page is shown only with a wallet set. */
  ghost predicate GameHasWallet(m: Model)
  {
    m.page == Game ==> m.wallet.Some?
  }

  /**
   * From the initial state, whatever callbacks fire, the game page always has
   * a wallet: the `null` branch of the render switch is never taken.
   */
  lemma {:induction false} GameNeverWithoutWallet(m: Model, evs: seq<Event>, storage: map<string, string>)
    requires GameHasWallet(m)
    ensures GameHasWallet(Run(m, evs))
    ensures Render(Run(m, evs), storage) != Nothing
    decreases |evs|
  {
    if evs != [] {
      GameNeverWithoutWallet(Handle(m, evs[0]), evs[1..], storage);
    }
  }

  /** The initial state is the landing page and satisfies the wallet condition. */
  lemma InitialRendersLanding(storage: map<string, string>)
    ensures GameHasWallet(Initial())
    ensures Render(Initial(), storage) == LandingScreen
  {
  }

  /** Without a wallet the game page renders nothing. */
  lemma GameWithoutWalletIsNull(m: Model, storage: map<string, string>)
    requires m.page == Game && m.wallet == None
    ensures Render(m, storage) == Nothing
  {
  }

  /**
   * A whole round: play, start with burner wallet `w`, end with board `lb`
   * and score `score`, claim, export and finish. Each page shows the wallet's
   * own address and key, whatever is in storage, and the flow ends on the
   * landing page with the wallet, board and score kept.
   */
  lemma RoundScreens(m: Model, w: Wallet, lb: seq<LB.Entry>, score: int, storage: map<string, string>)
    ensures var m1 := Handle(Handle(m, Play), GameStart(w));
      && Render(Handle(m, Play), storage) == LobbyScreen
      && Render(m1, storage) == GameScreen(w)
      && var m2 := Handle(m1, GameEnd(lb, score));
      && Render(m2, storage) == LeaderboardScreen(lb, score, w.address)
      && var m3 := Handle(m2, ClaimPrize);
      && Render(m3, storage) == RewardScreen(score, w.address)
      && var m4 := Handle(m3, ExportWallet);
      && Render(m4, storage) == WalletScreen(w.privateKey, w.address)
      && Handle(m4, Done) == Model(Landing, Some(w), lb, score)
  {
  }

  // ------------------------------------------------------------------ state

  /** The `App` component's state, changed by its callbacks. */
  class AppState {
    var page: Page
    var wallet: Option<Wallet>
    var leaderboard: seq<LB.Entry>
    var myScore: int

    function State(): Model
      reads this
    {
      Model(page, wallet, leaderboard, myScore)
    }

    constructor ()
      ensures State() == Initial()
    {
      page, wallet, leaderboard, myScore := Landing, None, [], 0;
    }

    /** What the app renders now, given what is in storage. */
    function Screen(storage: map<string, string>): Screen
      reads this
    {
      Render(State(), storage)
    }

    method HandlePlay()
      modifies this`page
      ensures State() == Handle(old(State()), Play)
    {
      page := Lobby;
    }

    method HandleGameStart(w: Wallet)
      modifies this`wallet, this`page
      ensures State() == Handle(old(State()), GameStart(w))
    {
      wallet := Some(w);
      page := Game;
    }

    method HandleGameEnd(lb: seq<LB.Entry>, score: int)
      modifies this`leaderboard, this`myScore, this`page
      ensures State() == Handle(old(State()), GameEnd(lb, score))
    {
      leaderboard := lb;
      myScore := score;
      page := Leaderboard;
    }

    method HandleClaimPrize()
      modifies this`page
      ensures State() == Handle(old(State()), ClaimPrize)
    {
      page := Reward;
    }

    method HandleExportWallet()
      modifies this`page
      ensures State() == Handle(old(State()), ExportWallet)
    {
      page := WalletExport;
    }

    method HandleDone()
      modifies this`page
      ensures State() == Handle(old(State()), Done)
    {
      page := Landing;
    }
  }
}
