/**
 * The counter test page: connecting a wallet (switching to Monad Testnet,
 * adding it when the switch fails), reading the counter, and sending `inc()`
 * or `incBy(n)` with the amount checked first.
 *
 * Each handler is described by the effects it has, in order: the React state
 * updates (`setCount`, `setAccount`, `setLoading`, `setStatus`) and the
 * requests it makes of the wallet or the contract. What a request returns (a
 * value, or the text of the error it throws) is an input. The `Page`
 * class performs the handlers step by step and keeps a ghost trace of every
 * effect since mounting; its fields are always that trace replayed.
 */
module CounterPage {
  import opened Common
  import opened JsText

  const COUNTER_ADDRESS := "0x7B60257377bC34F12E451DE2e9eBe7Fc99974c5b"
  const MONAD_TESTNET_CHAIN_ID := "0x27AF"

  datatype NativeCurrency = NativeCurrency(name: string, symbol: string, decimals: nat)

  /** The parameters of `wallet_addEthereumChain`. */
  datatype ChainParams = ChainParams(
    chainId: string, chainName: string, nativeCurrency: NativeCurrency,
    rpcUrls: seq<string>, blockExplorerUrls: seq<string>)

  const MONAD_TESTNET := ChainParams(
    MONAD_TESTNET_CHAIN_ID, "Monad Testnet", NativeCurrency("MON", "MON", 18),
    ["https://testnet-rpc.monad.xyz"], ["https://testnet.monadexplorer.com"])

  /** A state-changing contract call. */
  datatype Call = Inc | IncBy(amount: nat)

  /** A request the page awaits from the wallet or the counter contract. */
  datatype Request =
    | ListAccounts                   // eth_accounts, on mount
    | RequestAccounts                // eth_requestAccounts
    | SwitchChain(chainId: string)   // wallet_switchEthereumChain
    | AddChain(params: ChainParams)  // wallet_addEthereumChain
    | ReadCounter                    // contract.x()
    | GetSigner                      // provider.getSigner()
    | Send(call: Call)               // contract.inc() / contract.incBy(n)
    | WaitReceipt                    // tx.wait()

  /** How an awaited request settles: with a value, or by throwing an error (given as its `${err}` text). */
  datatype Reply<T> = Value(value: T) | Thrown(error: string)

  /** One observable step of a handler. */
  datatype Effect =
    | CountSet(count: Option<string>)
    | AccountSet(account: Option<string>)
    | LoadingSet(on: bool)
    | StatusSet(status: Status)
    | InputSet(text: string)
    | Issued(request: Request)

  /** The page's state: `count`, `account`, `loading`, `incByValue` and `status`. */
  datatype PageState = PageState(count: Option<string>, account: Option<string>, loading: bool, incByValue: string, status: Status)

  /** `useState(null)`, `useState(null)`, `useState(false)`, `useState('1')`, `useState('')`. */
  function Initial(): PageState
  {
    PageState(None, None, false, "1", Blank)
  }

  function Apply(s: PageState, e: Effect): PageState
  {
    match e
    case CountSet(c) => s.(count := c)
    case AccountSet(a) => s.(account := a)
    case LoadingSet(on) => s.(loading := on)
    case StatusSet(t) => s.(status := t)
    case InputSet(t) => s.(incByValue := t)
    case Issued(_) => s
  }

  /** The state after the effects `es`, applied in order. */
  function Replay(s: PageState, es: seq<Effect>): PageState
  {
    if es == [] then s else Apply(Replay(s, es[..|es| - 1]), es[|es| - 1])
  }

  /** The statuses the effects set, in order. */
  function Statuses(es: seq<Effect>): (r: seq<Status>)
    ensures |r| <= |es|
  {
    if es == [] then []
    else Statuses(es[..|es| - 1]) + (if es[|es| - 1].StatusSet? then [es[|es| - 1].status] else [])
  }

  /** The requests the effects make, in order. */
  function Requests(es: seq<Effect>): (r: seq<Request>)
    ensures |r| <= |es|
  {
    if es == [] then []
    else Requests(es[..|es| - 1]) + (if es[|es| - 1].Issued? then [es[|es| - 1].request] else [])
  }

  /** One more effect: the state, the statuses and the requests each take one step. */
  lemma Step(s: PageState, es: seq<Effect>, e: Effect)
    ensures Replay(s, es + [e]) == Apply(Replay(s, es), e)
    ensures Statuses(es + [e]) == Statuses(es) + if e.StatusSet? then [e.status] else []
    ensures Requests(es + [e]) == Requests(es) + if e.Issued? then [e.request] else []
  {
    assert (es + [e])[..|es|] == es;
  }

  /** A request changes no state and adds itself to the requests. */
  lemma StepIssued(s: PageState, es: seq<Effect>, r: Request)
    ensures Replay(s, es + [Issued(r)]) == Replay(s, es)
    ensures Statuses(es + [Issued(r)]) == Statuses(es)
    ensures Requests(es + [Issued(r)]) == Requests(es) + [r]
  {
    Step(s, es, Issued(r));
  }

  /** A status update changes the status and adds itself to the statuses. */
  lemma StepStatus(s: PageState, es: seq<Effect>, st: Status)
    ensures Replay(s, es + [StatusSet(st)]) == Replay(s, es).(status := st)
    ensures Statuses(es + [StatusSet(st)]) == Statuses(es) + [st]
    ensures Requests(es + [StatusSet(st)]) == Requests(es)
  {
    Step(s, es, StatusSet(st));
  }

  /** Any other update changes its field only. */
  lemma StepField(s: PageState, es: seq<Effect>, e: Effect)
    requires !e.StatusSet? && !e.Issued?
    ensures Replay(s, es + [e]) == Apply(Replay(s, es), e)
    ensures Statuses(es + [e]) == Statuses(es)
    ensures Requests(es + [e]) == Requests(es)
  {
    Step(s, es, e);
  }

  /** Replaying two runs of effects one after the other is replaying them together. */
  lemma {:induction false} ReplayAppend(s: PageState, a: seq<Effect>, b: seq<Effect>)
    ensures Replay(s, a + b) == Replay(Replay(s, a), b)
  {
    if b == [] {
      assert a + b == a;
    } else {
      var init, last := b[..|b| - 1], b[|b| - 1];
      ReplayAppend(s, a, init);
      assert (a + b)[..|a + b| - 1] == a + init;
      assert (a + b)[|a + b| - 1] == last;
    }
  }

  /** Effects that do not touch `loading` leave it as it was. */
  lemma {:induction false} ReplayKeepsLoading(s: PageState, es: seq<Effect>)
    requires forall i :: 0 <= i < |es| ==> !es[i].LoadingSet?
    ensures Replay(s, es).loading == s.loading
  {
    if es != [] {
      ReplayKeepsLoading(s, es[..|es| - 1]);
    }
  }

  /** `w` is `u` followed by effects none of which touches `loading`. */
  ghost predicate ExtendsWithoutLoading(u: seq<Effect>, w: seq<Effect>)
  {
    |u| <= |w| && w[..|u|] == u && forall j :: |u| <= j < |w| ==> !w[j].LoadingSet?
  }

  lemma ExtendsWithoutLoadingSnoc(u: seq<Effect>, w: seq<Effect>, e: Effect)
    requires ExtendsWithoutLoading(u, w) && !e.LoadingSet?
    ensures ExtendsWithoutLoading(u, w + [e])
  {
    assert (w + [e])[..|u|] == w[..|u|];
  }

  lemma ExtendsWithoutLoadingTrans(u: seq<Effect>, v: seq<Effect>, w: seq<Effect>)
    requires ExtendsWithoutLoading(u, v) && ExtendsWithoutLoading(v, w)
    ensures ExtendsWithoutLoading(u, w)
  {
    assert w[..|u|] == w[..|v|][..|u|];
  }

  // ---------------------------------------------------------------- status

  /** What the status line says; `StatusText` gives the exact text the page shows. */
  datatype Status =
    | Blank                              // the initial ''
    | NoWallet
    | ConnectionFailed(error: string)
    | ReadFailed(error: string)
    | InvalidAmount
    | Sending(call: Call)
    | Waiting
    | Confirmed(call: Call)
    | Failed(call: Call, error: string)

  function StatusText(st: Status): string
  {
    match st
    case Blank => ""
    case NoWallet => "No wallet found. Install MetaMask."
    case ConnectionFailed(e) => "Connection failed: " + e
    case ReadFailed(e) => "Failed to read counter: " + e
    case InvalidAmount => "Value must be a positive number"
    case Sending(Inc) => "Sending inc()..."
    case Sending(IncBy(n)) => "Sending incBy(" + DecimalString(n) + ")..."
    case Waiting => "Waiting for confirmation..."
    case Confirmed(Inc) => "inc() confirmed!"
    case Confirmed(IncBy(n)) => "incBy(" + DecimalString(n) + ") confirmed!"
    case Failed(Inc, e) => "inc() failed: " + e
    case Failed(IncBy(_), e) => "incBy() failed: " + e
  }

  /** The texts of the stages of one call differ, so the status line tells them apart. */
  lemma StageTextsDiffer(call: Call, error: string)
    ensures StatusText(Sending(call)) != StatusText(Waiting)
    ensures StatusText(Waiting) != StatusText(Confirmed(call))
    ensures StatusText(Sending(call)) != StatusText(Confirmed(call))
    ensures StatusText(Failed(call, error)) != StatusText(Confirmed(call))
    ensures StatusText(Failed(call, error)) != StatusText(Waiting)
  {
    assert StatusText(Sending(call))[1] == 'e' && StatusText(Waiting)[1] == 'a' && StatusText(Confirmed(call))[1] == 'n';
    match call
    case Inc =>
      assert StatusText(Failed(call, error))[6] == 'f' && StatusText(Confirmed(call))[6] == 'c';
    case IncBy(n) =>
      assert StatusText(Failed(call, error))[6] == ')';
      assert StatusText(Confirmed(call))[6] != ')';
  }

  /** The amount shown while sending `incBy` is its decimal text, and it parses back to the amount sent. */
  lemma SendingTextCarriesAmount(n: nat)
    ensures var t := StatusText(Sending(IncBy(n)));
      && |t| == 18 + |DecimalString(n)|
      && t[14..|t| - 4] == DecimalString(n)
      && ParseInt(t[14..|t| - 4]) == Some(n)
  {
    var t := StatusText(Sending(IncBy(n)));
    assert t == "Sending incBy(" + DecimalString(n) + ")...";
    assert t[14..|t| - 4] == DecimalString(n);
    ParseIntDecimalString(n);
  }

  // ---------------------------------------------------------- amount check

  /** `parseInt(incByValue)` followed by `if (!val || val <= 0)`: NaN, zero and negatives are refused. */
  function IncByAmount(input: string): (r: Option<nat>)
  {
    match ParseInt(input)
    case None => None
    case Some(v) => if v <= 0 then None else Some(v)
  }

  /** An accepted amount is the number `parseInt` reads, and it is at least 1; everything else is refused. */
  lemma IncByAmountIsPositiveParse(input: string)
    ensures IncByAmount(input).Some? <==> ParseInt(input).Some? && ParseInt(input).value >= 1
    ensures IncByAmount(input).Some? ==> IncByAmount(input).value == ParseInt(input).value >= 1
  {
  }

  /** Leading digits worth at least 1 are accepted as their value; whatever follows them is ignored. */
  lemma IncByAcceptsLeadingDigits(digits: string, rest: string)
    requires digits != [] && AllDigits(digits) && DigitsValue(digits) >= 1
    requires rest == [] || !IsDigit(rest[0])
    ensures IncByAmount(digits + rest) == Some(DigitsValue(digits))
  {
    ParseIntLeadingDigits(digits, rest);
  }

  /** `"3abc"` is accepted as 3. */
  lemma IncByThreeAbc()
    ensures IncByAmount("3abc") == Some(3)
  {
    ParseIntThreeAbc();
  }

  /** A minus sign before the digits is refused. */
  lemma IncByRefusesNegative(digits: string)
    requires digits != [] && AllDigits(digits)
    ensures IncByAmount("-" + digits) == None
  {
    var s := "-" + digits;
    assert TrimStart(s) == s;
    assert s[1..] == digits + [];
    LeadingDigitsOfDigits(digits, []);
    assert (digits + [])[..|digits|] == digits;
  }

  /** Text with no digit after the optional sign is `NaN` and refused. */
  lemma IncByRefusesNaN(input: string)
    requires var t := TrimStart(input);
             var u := if t != [] && (t[0] == '-' || t[0] == '+') then t[1..] else t;
             u == [] || !IsDigit(u[0])
    ensures IncByAmount(input) == None
  {
    ParseIntNaN(input);
  }

  /** Every positive amount typed as its decimal digits is accepted as itself. */
  lemma IncByDecimal(n: nat)
    requires n >= 1
    ensures IncByAmount(DecimalString(n)) == Some(n)
  {
    ParseIntDecimalString(n);
  }

  // ------------------------------------------------------------ handler traces
  //
  // Each function below takes the effects so far, `t`, and returns them
  // followed by what the handler does, one effect at a time in the order the
  // handler acts.

  /** `fetchCount`: without a wallet nothing; otherwise read `x()` and show it, or report the failure in the status. */
  function FetchTrace(t: seq<Effect>, hasWallet: bool, read: Reply<nat>): seq<Effect>
  {
    if !hasWallet then t
    else
      var t1 := t + [Issued(ReadCounter)];
      match read
      case Value(v) => t1 + [CountSet(Some(DecimalString(v)))]
      case Thrown(e) => t1 + [StatusSet(ReadFailed(e))]
  }

  /** Once the transaction is sent: wait for its receipt, then confirm and re-read the counter. */
  function ReceiptTrace(t: seq<Effect>, call: Call, wait: Reply<()>, read: Reply<nat>): seq<Effect>
  {
    var t1 := t + [StatusSet(Waiting)] + [Issued(WaitReceipt)];
    if wait.Thrown? then t1 + [StatusSet(Failed(call, wait.error))]
    else FetchTrace(t1 + [StatusSet(Confirmed(call))], true, read)
  }

  /** The `try` block of `callInc`/`callIncBy`: signer, send, wait, confirm and re-read, stopping at the first error. */
  function AttemptTrace(t: seq<Effect>, call: Call, signer: Reply<()>, send: Reply<()>, wait: Reply<()>, read: Reply<nat>): seq<Effect>
  {
    var t1 := t + [Issued(GetSigner)];
    if signer.Thrown? then t1 + [StatusSet(Failed(call, signer.error))]
    else
      var t2 := t1 + [Issued(Send(call))];
      if send.Thrown? then t2 + [StatusSet(Failed(call, send.error))]
      else ReceiptTrace(t2, call, wait, read)
  }

  /** `setLoading(true)`, the sending status, the attempt, and `setLoading(false)` in `finally`. */
  function SubmitTrace(t: seq<Effect>, call: Call, signer: Reply<()>, send: Reply<()>, wait: Reply<()>, read: Reply<nat>): seq<Effect>
  {
    AttemptTrace(t + [LoadingSet(true)] + [StatusSet(Sending(call))], call, signer, send, wait, read) + [LoadingSet(false)]
  }

  function CallIncTrace(t: seq<Effect>, hasWallet: bool, signer: Reply<()>, send: Reply<()>, wait: Reply<()>, read: Reply<nat>): seq<Effect>
  {
    if !hasWallet then t else SubmitTrace(t, Inc, signer, send, wait, read)
  }

  function CallIncByTrace(t: seq<Effect>, hasWallet: bool, input: string, signer: Reply<()>, send: Reply<()>, wait: Reply<()>, read: Reply<nat>): seq<Effect>
  {
    if !hasWallet then t
    else
      match IncByAmount(input)
      case None => t + [StatusSet(InvalidAmount)]
      case Some(n) => SubmitTrace(t, IncBy(n), signer, send, wait, read)
  }

  /** `accounts[0]`: `undefined` (no account) for an empty list. */
  function FirstAccount(accounts: seq<string>): Option<string>
  {
    if accounts == [] then None else Some(accounts[0])
  }

  /** `connect`: request accounts, switch to Monad Testnet, add it only if the switch throws, then set the account and read. */
  function ConnectTrace(t: seq<Effect>, hasWallet: bool, accounts: Reply<seq<string>>, switch: Reply<()>, add: Reply<()>, read: Reply<nat>): seq<Effect>
  {
    if !hasWallet then t + [StatusSet(NoWallet)]
    else
      var t1 := t + [Issued(RequestAccounts)];
      match accounts
      case Thrown(e) => t1 + [StatusSet(ConnectionFailed(e))]
      case Value(accs) => JoinTrace(t1, accs, switch, add, read)
  }

  /** Once the accounts arrive: switch to Monad Testnet, adding it if the switch throws, then take the first account. */
  function JoinTrace(t: seq<Effect>, accounts: seq<string>, switch: Reply<()>, add: Reply<()>, read: Reply<nat>): seq<Effect>
  {
    var t1 := t + [Issued(SwitchChain(MONAD_TESTNET_CHAIN_ID))];
    if !switch.Thrown? then ConnectedTrace(t1, accounts, read)
    else
      var t2 := t1 + [Issued(AddChain(MONAD_TESTNET))];
      if add.Thrown? then t2 + [StatusSet(ConnectionFailed(add.error))]
      else ConnectedTrace(t2, accounts, read)
  }

  /** `setAccount(accounts[0])` and `await fetchCount()`. */
  function ConnectedTrace(t: seq<Effect>, accounts: seq<string>, read: Reply<nat>): seq<Effect>
  {
    FetchTrace(t + [AccountSet(FirstAccount(accounts))], true, read)
  }

  /** `handleAccountsChanged`: an empty list disconnects; otherwise the first account is taken and the counter re-read. */
  function AccountsChangedTrace(t: seq<Effect>, accounts: seq<string>, read: Reply<nat>): seq<Effect>
  {
    if |accounts| == 0 then t + [AccountSet(None)] + [CountSet(None)]
    else FetchTrace(t + [AccountSet(Some(accounts[0]))], true, read)
  }

  /** The mount effect: ask for the accounts already connected; a non-empty answer is taken as on an account change. */
  function DetectTrace(t: seq<Effect>, hasWallet: bool, accounts: Reply<seq<string>>, read: Reply<nat>): seq<Effect>
  {
    if !hasWallet then t
    else
      var t1 := t + [Issued(ListAccounts)];
      if accounts.Value? && |accounts.value| > 0 then FetchTrace(t1 + [AccountSet(Some(accounts.value[0]))], true, read)
      else t1
  }

  // ------------------------------------------------------------- properties

  /**
   * Reading the counter makes one request and then shows the value read, or
   * the read failure in the status; it never touches the account, `loading`
   * or the amount input.
   */
  lemma FetchOutcome(s: PageState, t: seq<Effect>, hasWallet: bool, read: Reply<nat>)
    ensures Replay(s, FetchTrace(t, hasWallet, read)) ==
      if !hasWallet then Replay(s, t)
      else match read
        case Value(v) => Replay(s, t).(count := Some(DecimalString(v)))
        case Thrown(e) => Replay(s, t).(status := ReadFailed(e))
    ensures Statuses(FetchTrace(t, hasWallet, read)) == Statuses(t) + if hasWallet && read.Thrown? then [ReadFailed(read.error)] else []
    ensures Requests(FetchTrace(t, hasWallet, read)) == Requests(t) + if hasWallet then [ReadCounter] else []
    ensures ExtendsWithoutLoading(t, FetchTrace(t, hasWallet, read))
  {
    if hasWallet {
      var t1 := t + [Issued(ReadCounter)];
      Step(s, t, Issued(ReadCounter));
      var e := if read.Value? then CountSet(Some(DecimalString(read.value))) else StatusSet(ReadFailed(read.error));
      assert FetchTrace(t, hasWallet, read) == t1 + [e];
      Step(s, t1, e);
      ExtendsWithoutLoadingSnoc(t, t, Issued(ReadCounter));
      ExtendsWithoutLoadingSnoc(t, t1, e);
    }
  }

  /** A counter read that succeeds shows the value and makes one request. */
  lemma FetchRead(s: PageState, t: seq<Effect>, v: nat)
    ensures Replay(s, FetchTrace(t, true, Value(v))) == Replay(s, t).(count := Some(DecimalString(v)))
    ensures Statuses(FetchTrace(t, true, Value(v))) == Statuses(t)
    ensures Requests(FetchTrace(t, true, Value(v))) == Requests(t) + [ReadCounter]
  {
    StepIssued(s, t, ReadCounter);
    StepField(s, t + [Issued(ReadCounter)], CountSet(Some(DecimalString(v))));
  }

  /** Reading the counter makes one request, whatever its outcome. */
  lemma FetchRequests(t: seq<Effect>, read: Reply<nat>)
    ensures Requests(FetchTrace(t, true, read)) == Requests(t) + [ReadCounter]
  {
    var t1 := t + [Issued(ReadCounter)];
    StepIssued(Initial(), t, ReadCounter);
    match read
    case Value(v) => StepField(Initial(), t1, CountSet(Some(DecimalString(v))));
    case Thrown(e) => StepStatus(Initial(), t1, ReadFailed(e));
  }

  /** Everything a receipt stage does leaves `loading` alone and keeps what came before. */
  lemma ReceiptShape(t: seq<Effect>, call: Call, wait: Reply<()>, read: Reply<nat>)
    ensures ExtendsWithoutLoading(t, ReceiptTrace(t, call, wait, read))
  {
    var t0 := t + [StatusSet(Waiting)];
    var t1 := t0 + [Issued(WaitReceipt)];
    ExtendsWithoutLoadingSnoc(t, t, StatusSet(Waiting));
    ExtendsWithoutLoadingSnoc(t, t0, Issued(WaitReceipt));
    if wait.Thrown? {
      ExtendsWithoutLoadingSnoc(t, t1, StatusSet(Failed(call, wait.error)));
    } else {
      var t2 := t1 + [StatusSet(Confirmed(call))];
      ExtendsWithoutLoadingSnoc(t, t1, StatusSet(Confirmed(call)));
      FetchOutcome(Initial(), t2, true, read);
      ExtendsWithoutLoadingTrans(t, t2, FetchTrace(t2, true, read));
    }
  }

  /** The attempt never sets `loading` and keeps what came before. */
  lemma AttemptShape(t: seq<Effect>, call: Call, signer: Reply<()>, send: Reply<()>, wait: Reply<()>, read: Reply<nat>)
    ensures ExtendsWithoutLoading(t, AttemptTrace(t, call, signer, send, wait, read))
  {
    var t1 := t + [Issued(GetSigner)];
    ExtendsWithoutLoadingSnoc(t, t, Issued(GetSigner));
    if signer.Thrown? {
      ExtendsWithoutLoadingSnoc(t, t1, StatusSet(Failed(call, signer.error)));
    } else {
      var t2 := t1 + [Issued(Send(call))];
      ExtendsWithoutLoadingSnoc(t, t1, Issued(Send(call)));
      if send.Thrown? {
        ExtendsWithoutLoadingSnoc(t, t2, StatusSet(Failed(call, send.error)));
      } else {
        ReceiptShape(t2, call, wait, read);
        ExtendsWithoutLoadingTrans(t, t2, ReceiptTrace(t2, call, wait, read));
      }
    }
  }

  /**
   * `loading` is set first and cleared last, and nothing in between touches
   * it: after the effects before the submission and every proper prefix of
   * the submission's own effects it is true, and at the end it is false,
   * whatever the chain replies.
   */
  lemma SubmitBracketsLoading(s: PageState, t: seq<Effect>, call: Call, signer: Reply<()>, send: Reply<()>, wait: Reply<()>, read: Reply<nat>)
    ensures var es := SubmitTrace(t, call, signer, send, wait, read);
      && |es| >= |t| + 4 && es[..|t|] == t
      && (forall n :: |t| < n < |es| ==> Replay(s, es[..n]).loading)
      && !Replay(s, es).loading
  {
    var head := t + [LoadingSet(true)];
    var u := head + [StatusSet(Sending(call))];
    var w := AttemptTrace(u, call, signer, send, wait, read);
    AttemptShape(u, call, signer, send, wait, read);
    ExtendsWithoutLoadingSnoc(head, head, StatusSet(Sending(call)));
    ExtendsWithoutLoadingTrans(head, u, w);
    StepField(s, t, LoadingSet(true));
    LoadingOnThroughout(s, head, w);
    PrefixesOfSnoc(t, w, LoadingSet(false));
    StepField(s, w, LoadingSet(false));
  }

  /** Once `loading` is on, it stays on through every prefix of a continuation that does not touch it. */
  lemma LoadingOnThroughout(s: PageState, head: seq<Effect>, w: seq<Effect>)
    requires Replay(s, head).loading
    requires ExtendsWithoutLoading(head, w)
    ensures forall n :: |head| <= n <= |w| ==> Replay(s, w[..n]).loading
  {
    forall n | |head| <= n <= |w| ensures Replay(s, w[..n]).loading {
      var mid := w[|head|..n];
      assert w[..n] == head + mid;
      ReplayAppend(s, head, mid);
      ReplayKeepsLoading(Replay(s, head), mid);
    }
  }

  lemma PrefixesOfSnoc(t: seq<Effect>, w: seq<Effect>, e: Effect)
    requires |t| < |w| && w[..|t| + 1] == t + [w[|t|]]
    ensures (w + [e])[..|t|] == t
    ensures forall n :: 0 <= n <= |w| ==> (w + [e])[..n] == w[..n]
  {
    assert w[..|t|] == w[..|t| + 1][..|t|];
  }

  /** A receipt that arrives confirms the call and shows the counter read afterwards. */
  lemma ReceiptSuccess(s: PageState, t: seq<Effect>, call: Call, v: nat)
    ensures Replay(s, ReceiptTrace(t, call, Value(()), Value(v))) == Replay(s, t).(status := Confirmed(call), count := Some(DecimalString(v)))
    ensures Statuses(ReceiptTrace(t, call, Value(()), Value(v))) == Statuses(t) + [Waiting] + [Confirmed(call)]
    ensures Requests(ReceiptTrace(t, call, Value(()), Value(v))) == Requests(t) + [WaitReceipt] + [ReadCounter]
  {
    var t0 := t + [StatusSet(Waiting)];
    var t1 := t0 + [Issued(WaitReceipt)];
    StepStatus(s, t, Waiting);
    StepIssued(s, t0, WaitReceipt);
    StepStatus(s, t1, Confirmed(call));
    FetchRead(s, t1 + [StatusSet(Confirmed(call))], v);
  }

  /** When the signer, the send and the wait all succeed, the attempt confirms and re-reads the counter. */
  lemma AttemptSuccess(s: PageState, t: seq<Effect>, call: Call, v: nat)
    ensures Replay(s, AttemptTrace(t, call, Value(()), Value(()), Value(()), Value(v))) == Replay(s, t).(status := Confirmed(call), count := Some(DecimalString(v)))
    ensures Statuses(AttemptTrace(t, call, Value(()), Value(()), Value(()), Value(v))) == Statuses(t) + [Waiting] + [Confirmed(call)]
    ensures Requests(AttemptTrace(t, call, Value(()), Value(()), Value(()), Value(v))) == Requests(t) + [GetSigner] + [Send(call)] + [WaitReceipt] + [ReadCounter]
  {
    var t1 := t + [Issued(GetSigner)];
    StepIssued(s, t, GetSigner);
    StepIssued(s, t1, Send(call));
    ReceiptSuccess(s, t1 + [Issued(Send(call))], call, v);
  }

  /**
   * When every request succeeds, the status reads sending, waiting,
   * confirmed; the call is sent once; the count shows the value read
   * afterwards; and `loading` ends cleared.
   */
  lemma SubmitSuccess(s: PageState, t: seq<Effect>, call: Call, v: nat)
    ensures var es := SubmitTrace(t, call, Value(()), Value(()), Value(()), Value(v));
      && Statuses(es) == Statuses(t) + [Sending(call)] + [Waiting] + [Confirmed(call)]
      && Requests(es) == Requests(t) + [GetSigner] + [Send(call)] + [WaitReceipt] + [ReadCounter]
      && Replay(s, es) == Replay(s, t).(loading := false, status := Confirmed(call), count := Some(DecimalString(v)))
  {
    var t1 := t + [LoadingSet(true)];
    var u := t1 + [StatusSet(Sending(call))];
    StepField(s, t, LoadingSet(true));
    StepStatus(s, t1, Sending(call));
    AttemptSuccess(s, u, call, v);
    StepField(s, AttemptTrace(u, call, Value(()), Value(()), Value(()), Value(v)), LoadingSet(false));
  }

  /** The first error the signer, the send or the wait throws, if any. */
  function FirstError(signer: Reply<()>, send: Reply<()>, wait: Reply<()>): Option<string>
  {
    if signer.Thrown? then Some(signer.error)
    else if send.Thrown? then Some(send.error)
    else if wait.Thrown? then Some(wait.error)
    else None
  }

  /** A failed attempt ends at the failure status for the first error; the wait is reached only when the signer and the send succeed. */
  lemma AttemptFailure(s: PageState, t: seq<Effect>, call: Call, signer: Reply<()>, send: Reply<()>, wait: Reply<()>, read: Reply<nat>)
    requires FirstError(signer, send, wait).Some?
    ensures var e := FirstError(signer, send, wait).value;
      && Replay(s, AttemptTrace(t, call, signer, send, wait, read)) == Replay(s, t).(status := Failed(call, e))
      && Statuses(AttemptTrace(t, call, signer, send, wait, read)) ==
           if signer.Value? && send.Value? then Statuses(t) + [Waiting] + [Failed(call, e)] else Statuses(t) + [Failed(call, e)]
  {
    var e := FirstError(signer, send, wait).value;
    var t1 := t + [Issued(GetSigner)];
    StepIssued(s, t, GetSigner);
    if signer.Thrown? {
      StepStatus(s, t1, Failed(call, e));
    } else {
      var t2 := t1 + [Issued(Send(call))];
      StepIssued(s, t1, Send(call));
      if send.Thrown? {
        StepStatus(s, t2, Failed(call, e));
      } else {
        var t3 := t2 + [StatusSet(Waiting)];
        StepStatus(s, t2, Waiting);
        StepIssued(s, t3, WaitReceipt);
        StepStatus(s, t3 + [Issued(WaitReceipt)], Failed(call, e));
      }
    }
  }

  /**
   * When the signer, the send or the wait throws, the status ends at the
   * failure text for that error, no confirmation is shown, the count is left
   * alone and `loading` is cleared.
   */
  lemma SubmitFailure(s: PageState, t: seq<Effect>, call: Call, signer: Reply<()>, send: Reply<()>, wait: Reply<()>, read: Reply<nat>)
    requires FirstError(signer, send, wait).Some?
    ensures var es := SubmitTrace(t, call, signer, send, wait, read);
      var e := FirstError(signer, send, wait).value;
      && Replay(s, es) == Replay(s, t).(loading := false, status := Failed(call, e))
      && Statuses(es) ==
           if signer.Value? && send.Value? then Statuses(t) + [Sending(call)] + [Waiting] + [Failed(call, e)]
           else Statuses(t) + [Sending(call)] + [Failed(call, e)]
  {
    var t1 := t + [LoadingSet(true)];
    var u := t1 + [StatusSet(Sending(call))];
    StepField(s, t, LoadingSet(true));
    StepStatus(s, t1, Sending(call));
    AttemptFailure(s, u, call, signer, send, wait, read);
    var a := AttemptTrace(u, call, signer, send, wait, read);
    assert SubmitTrace(t, call, signer, send, wait, read) == a + [LoadingSet(false)];
    StepField(s, a, LoadingSet(false));
  }

  /** A refused amount only sets the status: no request is made, and `loading` is never touched. */
  lemma InvalidAmountSubmitsNothing(s: PageState, t: seq<Effect>, input: string, signer: Reply<()>, send: Reply<()>, wait: Reply<()>, read: Reply<nat>)
    requires IncByAmount(input) == None
    ensures Requests(CallIncByTrace(t, true, input, signer, send, wait, read)) == Requests(t)
    ensures Replay(s, CallIncByTrace(t, true, input, signer, send, wait, read)) == Replay(s, t).(status := InvalidAmount)
  {
    Step(s, t, StatusSet(InvalidAmount));
  }

  /** Without a wallet provider the two calls do nothing, while `connect` says so in the status. */
  lemma NoWalletCases(s: PageState, t: seq<Effect>, input: string, accounts: Reply<seq<string>>, switch: Reply<()>, add: Reply<()>,
                      signer: Reply<()>, send: Reply<()>, wait: Reply<()>, read: Reply<nat>)
    ensures CallIncTrace(t, false, signer, send, wait, read) == t
    ensures CallIncByTrace(t, false, input, signer, send, wait, read) == t
    ensures Replay(s, ConnectTrace(t, false, accounts, switch, add, read)) == Replay(s, t).(status := NoWallet)
    ensures Requests(ConnectTrace(t, false, accounts, switch, add, read)) == Requests(t)
  {
    Step(s, t, StatusSet(NoWallet));
  }

  /**
   * The requests `connect` makes: the accounts; then, once they arrive, the
   * switch to Monad Testnet; adding Monad Testnet exactly when the switch
   * throws; and the counter read exactly when the chain is in place.
   */
  lemma ConnectRequests(t: seq<Effect>, accounts: Reply<seq<string>>, switch: Reply<()>, add: Reply<()>, read: Reply<nat>)
    ensures var rs := Requests(ConnectTrace(t, true, accounts, switch, add, read));
      && (accounts.Thrown? ==> rs == Requests(t) + [RequestAccounts])
      && (accounts.Value? && switch.Value? ==>
            rs == Requests(t) + [RequestAccounts] + [SwitchChain(MONAD_TESTNET_CHAIN_ID)] + [ReadCounter])
      && (accounts.Value? && switch.Thrown? && add.Thrown? ==>
            rs == Requests(t) + [RequestAccounts] + [SwitchChain(MONAD_TESTNET_CHAIN_ID)] + [AddChain(MONAD_TESTNET)])
      && (accounts.Value? && switch.Thrown? && add.Value? ==>
            rs == Requests(t) + [RequestAccounts] + [SwitchChain(MONAD_TESTNET_CHAIN_ID)] + [AddChain(MONAD_TESTNET)] + [ReadCounter])
    ensures MONAD_TESTNET.nativeCurrency == NativeCurrency("MON", "MON", 18)
  {
    var s := Initial();
    var t1 := t + [Issued(RequestAccounts)];
    StepIssued(s, t, RequestAccounts);
    match accounts
    case Thrown(e) =>
      StepStatus(s, t1, ConnectionFailed(e));
    case Value(accs) =>
      var t2 := t1 + [Issued(SwitchChain(MONAD_TESTNET_CHAIN_ID))];
      StepIssued(s, t1, SwitchChain(MONAD_TESTNET_CHAIN_ID));
      var t3 := if switch.Thrown? then t2 + [Issued(AddChain(MONAD_TESTNET))] else t2;
      if switch.Thrown? {
        StepIssued(s, t2, AddChain(MONAD_TESTNET));
      }
      if switch.Thrown? && add.Thrown? {
        StepStatus(s, t3, ConnectionFailed(add.error));
      } else {
        StepField(s, t3, AccountSet(FirstAccount(accs)));
        FetchRequests(t3 + [AccountSet(FirstAccount(accs))], read);
      }
  }

  /** When the accounts arrive and the chain is in place, the first account is connected and the counter read. */
  lemma ConnectSuccess(s: PageState, t: seq<Effect>, accounts: seq<string>, switch: Reply<()>, add: Reply<()>, v: nat)
    requires switch.Value? || add.Value?
    ensures Replay(s, ConnectTrace(t, true, Value(accounts), switch, add, Value(v))) ==
      Replay(s, t).(account := FirstAccount(accounts), count := Some(DecimalString(v)))
  {
    var t1 := t + [Issued(RequestAccounts)];
    var t2 := t1 + [Issued(SwitchChain(MONAD_TESTNET_CHAIN_ID))];
    StepIssued(s, t, RequestAccounts);
    StepIssued(s, t1, SwitchChain(MONAD_TESTNET_CHAIN_ID));
    var t3 := if switch.Thrown? then t2 + [Issued(AddChain(MONAD_TESTNET))] else t2;
    if switch.Thrown? {
      StepIssued(s, t2, AddChain(MONAD_TESTNET));
    }
    StepField(s, t3, AccountSet(FirstAccount(accounts)));
    FetchRead(s, t3 + [AccountSet(FirstAccount(accounts))], v);
  }

  /** An empty account list disconnects (no account, no count); otherwise the first account is the connected one. */
  lemma AccountsChangedCases(s: PageState, t: seq<Effect>, accounts: seq<string>, read: Reply<nat>)
    ensures |accounts| == 0 ==> Replay(s, AccountsChangedTrace(t, accounts, read)) == Replay(s, t).(account := None, count := None)
    ensures |accounts| > 0 ==>
      && Replay(s, AccountsChangedTrace(t, accounts, read)).account == Some(accounts[0])
      && Replay(s, AccountsChangedTrace(t, accounts, read)).loading == Replay(s, t).loading
  {
    if |accounts| == 0 {
      Step(s, t, AccountSet(None));
      Step(s, t + [AccountSet(None)], CountSet(None));
    } else {
      Step(s, t, AccountSet(Some(accounts[0])));
      FetchOutcome(s, t + [AccountSet(Some(accounts[0]))], true, read);
    }
  }

  // ------------------------------------------------------------------- page

  /** The `Test` component's state, changed by the handlers one setter call at a time. */
  class Page {
    var count: Option<string>
    var account: Option<string>
    var loading: bool
    var incByValue: string
    var status: Status
    ghost var trace: seq<Effect>   // every effect since mounting, in order

    function State(): PageState
      reads this
    {
      PageState(count, account, loading, incByValue, status)
    }

    /** The fields are the initial state with the trace replayed on it. */
    ghost predicate Valid()
      reads this
    {
      State() == Replay(Initial(), trace)
    }

    constructor ()
      ensures State() == Initial() && trace == []
      ensures Valid()
    {
      count, account, loading, incByValue, status := None, None, false, "1", Blank;
      trace := [];
    }

    method SetCount(c: Option<string>)
      requires Valid()
      modifies this`count, this`trace
      ensures Valid() && trace == old(trace) + [CountSet(c)]
    {
      Step(Initial(), trace, CountSet(c));
      count := c;
      trace := trace + [CountSet(c)];
    }

    method SetAccount(a: Option<string>)
      requires Valid()
      modifies this`account, this`trace
      ensures Valid() && trace == old(trace) + [AccountSet(a)]
    {
      Step(Initial(), trace, AccountSet(a));
      account := a;
      trace := trace + [AccountSet(a)];
    }

    method SetLoading(on: bool)
      requires Valid()
      modifies this`loading, this`trace
      ensures Valid() && trace == old(trace) + [LoadingSet(on)]
    {
      Step(Initial(), trace, LoadingSet(on));
      loading := on;
      trace := trace + [LoadingSet(on)];
    }

    method SetStatus(st: Status)
      requires Valid()
      modifies this`status, this`trace
      ensures Valid() && trace == old(trace) + [StatusSet(st)]
    {
      Step(Initial(), trace, StatusSet(st));
      status := st;
      trace := trace + [StatusSet(st)];
    }

    /** The amount input's `onChange`. */
    method SetIncByValue(text: string)
      requires Valid()
      modifies this`incByValue, this`trace
      ensures Valid() && trace == old(trace) + [InputSet(text)]
    {
      Step(Initial(), trace, InputSet(text));
      incByValue := text;
      trace := trace + [InputSet(text)];
    }

    /** An awaited request: it changes no state of the page. */
    method Await(r: Request)
      requires Valid()
      modifies this`trace
      ensures Valid() && trace == old(trace) + [Issued(r)]
    {
      Step(Initial(), trace, Issued(r));
      trace := trace + [Issued(r)];
    }

    method FetchCount(hasWallet: bool, read: Reply<nat>)
      requires Valid()
      modifies this`count, this`status, this`trace
      ensures Valid() && trace == FetchTrace(old(trace), hasWallet, read)
    {
      if !hasWallet {
        return;
      }
      Await(ReadCounter);
      match read
      case Value(v) =>
        SetCount(Some(DecimalString(v)));
      case Thrown(e) =>
        SetStatus(ReadFailed(e));
    }

    /** The `try`/`finally` shared by `callInc` and `callIncBy`, once the call is known. */
    method Submit(call: Call, signer: Reply<()>, send: Reply<()>, wait: Reply<()>, read: Reply<nat>)
      requires Valid()
      modifies this`count, this`status, this`loading, this`trace
      ensures Valid() && trace == SubmitTrace(old(trace), call, signer, send, wait, read)
    {
      SetLoading(true);
      SetStatus(Sending(call));
      Attempt(call, signer, send, wait, read);
      SetLoading(false);
    }

    /** The `try` block: get the signer, send, and wait, reporting the first error in the status. */
    method Attempt(call: Call, signer: Reply<()>, send: Reply<()>, wait: Reply<()>, read: Reply<nat>)
      requires Valid()
      modifies this`count, this`status, this`trace
      ensures Valid() && trace == AttemptTrace(old(trace), call, signer, send, wait, read)
    {
      Await(GetSigner);
      if signer.Thrown? {
        SetStatus(Failed(call, signer.error));
        return;
      }
      Await(Send(call));
      if send.Thrown? {
        SetStatus(Failed(call, send.error));
        return;
      }
      SetStatus(Waiting);
      Await(WaitReceipt);
      if wait.Thrown? {
        SetStatus(Failed(call, wait.error));
        return;
      }
      SetStatus(Confirmed(call));
      FetchCount(true, read);
    }

    /** `callInc`. */
    method CallInc(hasWallet: bool, signer: Reply<()>, send: Reply<()>, wait: Reply<()>, read: Reply<nat>)
      requires Valid()
      modifies this`count, this`status, this`loading, this`trace
      ensures Valid() && trace == CallIncTrace(old(trace), hasWallet, signer, send, wait, read)
    {
      if hasWallet {
        Submit(Inc, signer, send, wait, read);
      }
    }

    /** `callIncBy`: check the typed amount, then submit `incBy` with it. */
    method CallIncBy(hasWallet: bool, signer: Reply<()>, send: Reply<()>, wait: Reply<()>, read: Reply<nat>)
      requires Valid()
      modifies this`count, this`status, this`loading, this`trace
      ensures Valid() && trace == CallIncByTrace(old(trace), hasWallet, incByValue, signer, send, wait, read)
      ensures incByValue == old(incByValue)
    {
      if hasWallet {
        var amount := IncByAmount(incByValue);
        if amount.None? {
          SetStatus(InvalidAmount);
        } else {
          Submit(IncBy(amount.value), signer, send, wait, read);
        }
      }
    }

    /** `connect`. */
    method Connect(hasWallet: bool, accounts: Reply<seq<string>>, switch: Reply<()>, add: Reply<()>, read: Reply<nat>)
      requires Valid()
      modifies this`count, this`status, this`account, this`trace
      ensures Valid() && trace == ConnectTrace(old(trace), hasWallet, accounts, switch, add, read)
    {
      if !hasWallet {
        SetStatus(NoWallet);
        return;
      }
      Await(RequestAccounts);
      if accounts.Thrown? {
        SetStatus(ConnectionFailed(accounts.error));
        return;
      }
      Await(SwitchChain(MONAD_TESTNET_CHAIN_ID));
      if switch.Thrown? {
        Await(AddChain(MONAD_TESTNET));
        if add.Thrown? {
          SetStatus(ConnectionFailed(add.error));
          return;
        }
      }
      SetAccount(FirstAccount(accounts.value));
      FetchCount(true, read);
    }

    /** The `accountsChanged` listener. */
    method AccountsChanged(accounts: seq<string>, read: Reply<nat>)
      requires Valid()
      modifies this`count, this`status, this`account, this`trace
      ensures Valid() && trace == AccountsChangedTrace(old(trace), accounts, read)
    {
      if |accounts| == 0 {
        SetAccount(None);
        SetCount(None);
      } else {
        SetAccount(Some(accounts[0]));
        FetchCount(true, read);
      }
    }

    /** The `chainChanged` listener: re-read the counter. */
    method ChainChanged(read: Reply<nat>)
      requires Valid()
      modifies this`count, this`status, this`trace
      ensures Valid() && trace == FetchTrace(old(trace), true, read)
    {
      FetchCount(true, read);
    }

    /** The mount effect's `eth_accounts` request; a rejection is only logged. */
    method DetectAccounts(hasWallet: bool, accounts: Reply<seq<string>>, read: Reply<nat>)
      requires Valid()
      modifies this`count, this`status, this`account, this`trace
      ensures Valid() && trace == DetectTrace(old(trace), hasWallet, accounts, read)
    {
      if !hasWallet {
        return;
      }
      Await(ListAccounts);
      if accounts.Value? && |accounts.value| > 0 {
        SetAccount(Some(accounts.value[0]));
        FetchCount(true, read);
      }
    }
  }
}
