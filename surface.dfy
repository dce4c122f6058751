/**
 * The typed wrapper methods of `RpcClient`: each turns its arguments into an action
 * name and a parameter object and hands both to `call`. Counts, ports, indices and
 * epochs go out as base-10 strings; a few wrappers add optional keys only when the
 * argument is truthy; wrappers that take an `options` object spread it last, so its
 * keys override the positional ones.
 */
module Surface {
  import opened Results
  import opened Json

  /** An action name and its parameters, the two arguments of `call`. */
  datatype Invocation = Invocation(action: string, params: Object)

  /** `String(n)`, as sent for counts, ports, indices and epochs. */
  function Decimal(n: int): (v: Value)
    ensures v.Str? && ParseDecimal(v.s) == Some(n)
  {
    DecimalRoundTrip(n);
    Str(IntToDecimal(n))
  }

  /** A string array argument. */
  function Strings(xs: seq<string>): Value {
    List(seq(|xs|, i requires 0 <= i < |xs| => Str(xs[i])))
  }

  /** An optional argument: an omitted one is `undefined`. */
  function OptBool(o: Option<bool>): Value {
    match o
    case Some(b) => Bool(b)
    case None => Undefined
  }

  function OptString(o: Option<string>): Value {
    match o
    case Some(s) => Str(s)
    case None => Undefined
  }

  function OptNumber(o: Option<int>): Value {
    match o
    case Some(n) => Num(n)
    case None => Undefined
  }

  /** `{...own, ...options}`: the caller's options are spread after the wrapper's own
      keys, so every key of `options` is sent with the caller's value and every other
      key keeps the wrapper's. */
  function Spread(own: Object, options: Object): (r: Object)
    ensures r.Keys == own.Keys + options.Keys
    ensures forall k :: k in options ==> r[k] == options[k]
    ensures forall k :: k in own && k !in options ==> r[k] == own[k]
  {
    own + options
  }

  /** The parameters of `delegators`: threshold, count and start only when truthy. */
  function DelegatorsParams(account: string, threshold: Option<string>, count: Option<int>,
                            start: Option<string>): (p: Object)
    ensures p.Keys <= {"account", "threshold", "count", "start"}
    ensures "account" in p && p["account"] == Str(account)
    ensures "threshold" in p <==> threshold.Some? && threshold.value != ""
    ensures "threshold" in p ==> p["threshold"] == Str(threshold.value)
    ensures "count" in p <==> count.Some? && count.value != 0
    ensures "count" in p ==> p["count"] == Decimal(count.value)
    ensures "start" in p <==> start.Some? && start.value != ""
    ensures "start" in p ==> p["start"] == Str(start.value)
  {
    var p := map["account" := Str(account)];
    var p := if Truthy(OptString(threshold)) then p["threshold" := OptString(threshold)] else p;
    var p := if Truthy(OptNumber(count)) then p["count" := Decimal(count.value)] else p;
    if Truthy(OptString(start)) then p["start" := OptString(start)] else p
  }

  /** The parameters of `epoch_upgrade`: epoch always, count and threads only when non-zero. */
  function EpochUpgradeParams(epoch: int, key: string, count: Option<int>, threads: Option<int>): (p: Object)
    ensures p.Keys <= {"epoch", "key", "count", "threads"}
    ensures "epoch" in p && p["epoch"] == Decimal(epoch)
    ensures "key" in p && p["key"] == Str(key)
    ensures "count" in p <==> count.Some? && count.value != 0
    ensures "count" in p ==> p["count"] == Decimal(count.value)
    ensures "threads" in p <==> threads.Some? && threads.value != 0
    ensures "threads" in p ==> p["threads"] == Decimal(threads.value)
  {
    var p := map["epoch" := Decimal(epoch), "key" := Str(key)];
    var p := if Truthy(OptNumber(count)) then p["count" := Decimal(count.value)] else p;
    if Truthy(OptNumber(threads)) then p["threads" := Decimal(threads.value)] else p
  }

  /** The parameters of `representatives_online`: weight only when true; accounts whenever
      given, since every array is truthy, even an empty one. */
  function RepresentativesOnlineParams(weight: Option<bool>, accounts: Option<seq<string>>): (p: Object)
    ensures p.Keys <= {"weight", "accounts"}
    ensures "weight" in p <==> weight == Some(true)
    ensures "weight" in p ==> p["weight"] == Bool(true)
    ensures "accounts" in p <==> accounts.Some?
    ensures "accounts" in p ==> p["accounts"] == Strings(accounts.value)
  {
    var accountsArg := if accounts.Some? then Strings(accounts.value) else Undefined;
    var p: Object := if Truthy(OptBool(weight)) then map["weight" := OptBool(weight)] else map[];
    if Truthy(accountsArg) then p["accounts" := accountsArg] else p
  }

  /** The parameters of `representatives`: count only when non-zero, sorting only when true. */
  function RepresentativesParams(count: Option<int>, sorting: Option<bool>): (p: Object)
    ensures p.Keys <= {"count", "sorting"}
    ensures "count" in p <==> count.Some? && count.value != 0
    ensures "count" in p ==> p["count"] == Decimal(count.value)
    ensures "sorting" in p <==> sorting == Some(true)
    ensures "sorting" in p ==> p["sorting"] == Bool(true)
  {
    var p: Object := if Truthy(OptNumber(count)) then map["count" := Decimal(count.value)] else map[];
    if Truthy(OptBool(sorting)) then p["sorting" := OptBool(sorting)] else p
  }

  /** The parameters of `unopened`: each of account, count and threshold only when truthy. */
  function UnopenedParams(account: Option<string>, count: Option<int>, threshold: Option<string>): (p: Object)
    ensures p.Keys <= {"account", "count", "threshold"}
    ensures "account" in p <==> account.Some? && account.value != ""
    ensures "account" in p ==> p["account"] == Str(account.value)
    ensures "count" in p <==> count.Some? && count.value != 0
    ensures "count" in p ==> p["count"] == Decimal(count.value)
    ensures "threshold" in p <==> threshold.Some? && threshold.value != ""
    ensures "threshold" in p ==> p["threshold"] == Str(threshold.value)
  {
    var p: Object := if Truthy(OptString(account)) then map["account" := OptString(account)] else map[];
    var p := if Truthy(OptNumber(count)) then p["count" := Decimal(count.value)] else p;
    if Truthy(OptString(threshold)) then p["threshold" := OptString(threshold)] else p
  }

  /**
   * One wrapper method and its arguments. An `options` or `params` object is the
   * caller's object (an omitted one is the empty object, which spreads to nothing);
   * `blockJson` is a block passed through as it is.
   */
  datatype RpcMethod =
    | AccountBalance(account: string, options: Object)
    | AccountBlockCount(account: string)
    | AccountGet(key: string)
    | AccountHistory(account: string, count: int, options: Object)
    | AccountInfo(account: string, options: Object)
    | AccountKey(account: string)
    | AccountRepresentative(account: string)
    | AccountWeight(account: string)
    | AccountsBalances(accounts: seq<string>, options: Object)
    | AccountsFrontiers(accounts: seq<string>)
    | AccountsReceivable(accounts: seq<string>, count: int, options: Object)
    | AccountsPending(accounts: seq<string>, count: int, options: Object)
    | AccountsRepresentatives(accounts: seq<string>)
    | AvailableSupply
    | BlockAccount(hash: string)
    | BlockConfirm(hash: string)
    | BlockCount(includeCemented: Option<bool>)
    | BlockCreate(params: Object)
    | BlockHash(blockJson: Value, jsonBlock: Option<bool>)
    | BlockInfo(hash: string, options: Object)
    | Blocks(hashes: seq<string>, options: Object)
    | BlocksInfo(hashes: seq<string>, options: Object)
    | Bootstrap(address: string, port: int, bypassFrontierConfirmation: Option<bool>, id: Option<string>)
    | BootstrapAny(force: Option<bool>, id: Option<string>, maybeAccount: Option<string>)
    | BootstrapLazy(hash: string, force: Option<bool>, id: Option<string>)
    | BootstrapStatus
    | Chain(block: string, count: int, options: Object)
    | ConfirmationActive(announcements: Option<int>)
    | ConfirmationHeightCurrentlyProcessing
    | ConfirmationHistory(maybeHash: Option<string>, options: Object)
    | ConfirmationInfo(root: string, options: Object)
    | ConfirmationQuorum(peerDetails: Option<bool>)
    | Delegators(account: string, threshold: Option<string>, maybeCount: Option<int>, start: Option<string>)
    | DelegatorsCount(account: string)
    | DeterministicKey(seed: string, index: int)
    | EpochUpgrade(epoch: int, key: string, maybeCount: Option<int>, threads: Option<int>)
    | FrontierCount
    | Frontiers(account: string, count: int)
    | Keepalive(address: string, port: int)
    | KeyCreate
    | KeyExpand(key: string)
    | Ledger(account: string, count: int, options: Object)
    | NodeId
    | NodeIdDelete
    | Peers(peerDetails: Option<bool>)
    | PopulateBacklog
    | Process(blockJson: Value, options: Object)
    | Receivable(account: string, count: int, options: Object)
    | Pending(account: string, count: int, options: Object)
    | ReceivableExists(hash: string, options: Object)
    | PendingExists(hash: string, options: Object)
    | RepresentativesOnline(weight: Option<bool>, maybeAccounts: Option<seq<string>>)
    | Representatives(maybeCount: Option<int>, sorting: Option<bool>)
    | Republish(hash: string, options: Object)
    | Sign(params: Object)
    | StatsCounters
    | StatsSamples
    | StatsObjects
    | StatsDatabase
    | StatsClear
    | Stop
    | Successors(block: string, count: int, options: Object)
    | Telemetry(options: Object)
    | ValidateAccountNumber(account: string)
    | Version
    | Unchecked(count: int, options: Object)
    | UncheckedClear
    | UncheckedGet(hash: string, options: Object)
    | UncheckedKeys(key: string, count: int, options: Object)
    | Unopened(maybeAccount: Option<string>, maybeCount: Option<int>, threshold: Option<string>)
    | Uptime
    | WorkCancel(hash: string)
    | WorkGenerate(hash: string, options: Object)
    | WorkPeerAdd(address: string, port: int)
    | WorkPeersClear
    | WorkPeers
    | WorkValidate(hash: string, work: string, options: Object)

  /** The action name each wrapper sends. */
  function ActionName(m: RpcMethod): string
  {
    match m
    case AccountBalance(_, _) => "account_balance"
    case AccountBlockCount(_) => "account_block_count"
    case AccountGet(_) => "account_get"
    case AccountHistory(_, _, _) => "account_history"
    case AccountInfo(_, _) => "account_info"
    case AccountKey(_) => "account_key"
    case AccountRepresentative(_) => "account_representative"
    case AccountWeight(_) => "account_weight"
    case AccountsBalances(_, _) => "accounts_balances"
    case AccountsFrontiers(_) => "accounts_frontiers"
    case AccountsReceivable(_, _, _) => "accounts_receivable"
    case AccountsPending(_, _, _) => "accounts_pending"
    case AccountsRepresentatives(_) => "accounts_representatives"
    case AvailableSupply => "available_supply"
    case BlockAccount(_) => "block_account"
    case BlockConfirm(_) => "block_confirm"
    case BlockCount(_) => "block_count"
    case BlockCreate(_) => "block_create"
    case BlockHash(_, _) => "block_hash"
    case BlockInfo(_, _) => "block_info"
    case Blocks(_, _) => "blocks"
    case BlocksInfo(_, _) => "blocks_info"
    case Bootstrap(_, _, _, _) => "bootstrap"
    case BootstrapAny(_, _, _) => "bootstrap_any"
    case BootstrapLazy(_, _, _) => "bootstrap_lazy"
    case BootstrapStatus => "bootstrap_status"
    case Chain(_, _, _) => "chain"
    case ConfirmationActive(_) => "confirmation_active"
    case ConfirmationHeightCurrentlyProcessing => "confirmation_height_currently_processing"
    case ConfirmationHistory(_, _) => "confirmation_history"
    case ConfirmationInfo(_, _) => "confirmation_info"
    case ConfirmationQuorum(_) => "confirmation_quorum"
    case Delegators(_, _, _, _) => "delegators"
    case DelegatorsCount(_) => "delegators_count"
    case DeterministicKey(_, _) => "deterministic_key"
    case EpochUpgrade(_, _, _, _) => "epoch_upgrade"
    case FrontierCount => "frontier_count"
    case Frontiers(_, _) => "frontiers"
    case Keepalive(_, _) => "keepalive"
    case KeyCreate => "key_create"
    case KeyExpand(_) => "key_expand"
    case Ledger(_, _, _) => "ledger"
    case NodeId => "node_id"
    case NodeIdDelete => "node_id_delete"
    case Peers(_) => "peers"
    case PopulateBacklog => "populate_backlog"
    case Process(_, _) => "process"
    case Receivable(_, _, _) => "receivable"
    case Pending(_, _, _) => "pending"
    case ReceivableExists(_, _) => "receivable_exists"
    case PendingExists(_, _) => "pending_exists"
    case RepresentativesOnline(_, _) => "representatives_online"
    case Representatives(_, _) => "representatives"
    case Republish(_, _) => "republish"
    case Sign(_) => "sign"
    case StatsCounters => "stats"
    case StatsSamples => "stats"
    case StatsObjects => "stats"
    case StatsDatabase => "stats"
    case StatsClear => "stats_clear"
    case Stop => "stop"
    case Successors(_, _, _) => "successors"
    case Telemetry(_) => "telemetry"
    case ValidateAccountNumber(_) => "validate_account_number"
    case Version => "version"
    case Unchecked(_, _) => "unchecked"
    case UncheckedClear => "unchecked_clear"
    case UncheckedGet(_, _) => "unchecked_get"
    case UncheckedKeys(_, _, _) => "unchecked_keys"
    case Unopened(_, _, _) => "unopened"
    case Uptime => "uptime"
    case WorkCancel(_) => "work_cancel"
    case WorkGenerate(_, _) => "work_generate"
    case WorkPeerAdd(_, _) => "work_peer_add"
    case WorkPeersClear => "work_peers_clear"
    case WorkPeers => "work_peers"
    case WorkValidate(_, _, _) => "work_validate"
  }

  /** The parameters a wrapper builds from its own positional arguments, before any
      caller-supplied object is spread over them. */
  function Own(m: RpcMethod): Object {
    match m
    case AccountBalance(account, _) => map["account" := Str(account)]
    case AccountBlockCount(account) => map["account" := Str(account)]
    case AccountGet(key) => map["key" := Str(key)]
    case AccountHistory(account, count, _) =>
      map["account" := Str(account), "count" := Decimal(count)]
    case AccountInfo(account, _) => map["account" := Str(account)]
    case AccountKey(account) => map["account" := Str(account)]
    case AccountRepresentative(account) => map["account" := Str(account)]
    case AccountWeight(account) => map["account" := Str(account)]
    case AccountsBalances(accounts, _) => map["accounts" := Strings(accounts)]
    case AccountsFrontiers(accounts) => map["accounts" := Strings(accounts)]
    case AccountsReceivable(accounts, count, _) =>
      map["accounts" := Strings(accounts), "count" := Decimal(count)]
    case AccountsPending(accounts, count, _) =>
      map["accounts" := Strings(accounts), "count" := Decimal(count)]
    case AccountsRepresentatives(accounts) => map["accounts" := Strings(accounts)]
    case AvailableSupply => map[]
    case BlockAccount(hash) => map["hash" := Str(hash)]
    case BlockConfirm(hash) => map["hash" := Str(hash)]
    case BlockCount(includeCemented) => map["include_cemented" := OptBool(includeCemented)]
    case BlockCreate(_) => map[]
    case BlockHash(blockJson, jsonBlock) =>
      map["block" := blockJson, "json_block" := OptBool(jsonBlock)]
    case BlockInfo(hash, _) => map["hash" := Str(hash)]
    case Blocks(hashes, _) => map["hashes" := Strings(hashes)]
    case BlocksInfo(hashes, _) => map["hashes" := Strings(hashes)]
    case Bootstrap(address, port, bypass, id) =>
      map["address" := Str(address), "port" := Decimal(port), "bypass_frontier_confirmation" := OptBool(bypass), "id" := OptString(id)]
    case BootstrapAny(force, id, account) =>
      map["force" := OptBool(force), "id" := OptString(id), "account" := OptString(account)]
    case BootstrapLazy(hash, force, id) =>
      map["hash" := Str(hash), "force" := OptBool(force), "id" := OptString(id)]
    case BootstrapStatus => map[]
    case Chain(block, count, _) => map["block" := Str(block), "count" := Decimal(count)]
    case ConfirmationActive(announcements) => map["announcements" := OptNumber(announcements)]
    case ConfirmationHeightCurrentlyProcessing => map[]
    case ConfirmationHistory(hash, _) => map["hash" := OptString(hash)]
    case ConfirmationInfo(root, _) => map["root" := Str(root)]
    case ConfirmationQuorum(peerDetails) => map["peer_details" := OptBool(peerDetails)]
    case Delegators(account, threshold, count, start) =>
      DelegatorsParams(account, threshold, count, start)
    case DelegatorsCount(account) => map["account" := Str(account)]
    case DeterministicKey(seed, index) => map["seed" := Str(seed), "index" := Decimal(index)]
    case EpochUpgrade(epoch, key, count, threads) => EpochUpgradeParams(epoch, key, count, threads)
    case FrontierCount => map[]
    case Frontiers(account, count) => map["account" := Str(account), "count" := Decimal(count)]
    case Keepalive(address, port) => map["address" := Str(address), "port" := Decimal(port)]
    case KeyCreate => map[]
    case KeyExpand(key) => map["key" := Str(key)]
    case Ledger(account, count, _) => map["account" := Str(account), "count" := Decimal(count)]
    case NodeId => map[]
    case NodeIdDelete => map[]
    case Peers(peerDetails) => map["peer_details" := OptBool(peerDetails)]
    case PopulateBacklog => map[]
    case Process(blockJson, _) => map["block" := blockJson]
    case Receivable(account, count, _) => map["account" := Str(account), "count" := Decimal(count)]
    case Pending(account, count, _) => map["account" := Str(account), "count" := Decimal(count)]
    case ReceivableExists(hash, _) => map["hash" := Str(hash)]
    case PendingExists(hash, _) => map["hash" := Str(hash)]
    case RepresentativesOnline(weight, accounts) => RepresentativesOnlineParams(weight, accounts)
    case Representatives(count, sorting) => RepresentativesParams(count, sorting)
    case Republish(hash, _) => map["hash" := Str(hash)]
    case Sign(_) => map[]
    case StatsCounters => map["type" := Str("counters")]
    case StatsSamples => map["type" := Str("samples")]
    case StatsObjects => map["type" := Str("objects")]
    case StatsDatabase => map["type" := Str("database")]
    case StatsClear => map[]
    case Stop => map[]
    case Successors(block, count, _) => map["block" := Str(block), "count" := Decimal(count)]
    case Telemetry(_) => map[]
    case ValidateAccountNumber(account) => map["account" := Str(account)]
    case Version => map[]
    case Unchecked(count, _) => map["count" := Decimal(count)]
    case UncheckedClear => map[]
    case UncheckedGet(hash, _) => map["hash" := Str(hash)]
    case UncheckedKeys(key, count, _) => map["key" := Str(key), "count" := Decimal(count)]
    case Unopened(account, count, threshold) => UnopenedParams(account, count, threshold)
    case Uptime => map[]
    case WorkCancel(hash) => map["hash" := Str(hash)]
    case WorkGenerate(hash, _) => map["hash" := Str(hash)]
    case WorkPeerAdd(address, port) => map["address" := Str(address), "port" := Decimal(port)]
    case WorkPeersClear => map[]
    case WorkPeers => map[]
    case WorkValidate(hash, work, _) => map["hash" := Str(hash), "work" := Str(work)]
  }

  /** The wrappers that take a caller-supplied `options` or `params` object. */
  predicate SpreadsCallerObject(m: RpcMethod) {
       m.AccountBalance?
    || m.AccountHistory?
    || m.AccountInfo?
    || m.AccountsBalances?
    || m.AccountsReceivable?
    || m.AccountsPending?
    || m.BlockCreate?
    || m.BlockInfo?
    || m.Blocks?
    || m.BlocksInfo?
    || m.Chain?
    || m.ConfirmationHistory?
    || m.ConfirmationInfo?
    || m.Ledger?
    || m.Process?
    || m.Receivable?
    || m.Pending?
    || m.ReceivableExists?
    || m.PendingExists?
    || m.Republish?
    || m.Sign?
    || m.Successors?
    || m.Telemetry?
    || m.Unchecked?
    || m.UncheckedGet?
    || m.UncheckedKeys?
    || m.WorkGenerate?
    || m.WorkValidate?
  }

  /**
   * The caller-supplied object a wrapper spreads into its parameters (or passes as its
   * parameters).
   */
  function CallerObject(m: RpcMethod): Object
    requires SpreadsCallerObject(m)
  {
    match m
    case AccountBalance(_, o) => o
    case AccountHistory(_, _, o) => o
    case AccountInfo(_, o) => o
    case AccountsBalances(_, o) => o
    case AccountsReceivable(_, _, o) => o
    case AccountsPending(_, _, o) => o
    case BlockCreate(o) => o
    case BlockInfo(_, o) => o
    case Blocks(_, o) => o
    case BlocksInfo(_, o) => o
    case Chain(_, _, o) => o
    case ConfirmationHistory(_, o) => o
    case ConfirmationInfo(_, o) => o
    case Ledger(_, _, o) => o
    case Process(_, o) => o
    case Receivable(_, _, o) => o
    case Pending(_, _, o) => o
    case ReceivableExists(_, o) => o
    case PendingExists(_, o) => o
    case Republish(_, o) => o
    case Sign(o) => o
    case Successors(_, _, o) => o
    case Telemetry(o) => o
    case Unchecked(_, o) => o
    case UncheckedGet(_, o) => o
    case UncheckedKeys(_, _, o) => o
    case WorkGenerate(_, o) => o
    case WorkValidate(_, _, o) => o
  }

  /**
   * The parameter object a wrapper passes to `call`: `{own..., ...options}`, so the
   * caller's object is spread last. `blockCreate`, `sign` and `telemetry` pass the
   * caller's object itself, which is the same object as `{...options}`.
   */
  function Params(m: RpcMethod): (p: Object)
    ensures SpreadsCallerObject(m) ==>
              forall k :: k in CallerObject(m) ==> k in p && p[k] == CallerObject(m)[k]
    ensures forall k :: k in Own(m) && !(SpreadsCallerObject(m) && k in CallerObject(m)) ==>
              k in p && p[k] == Own(m)[k]
    ensures forall k :: k in p ==> k in Own(m) || (SpreadsCallerObject(m) && k in CallerObject(m))
  {
    if SpreadsCallerObject(m) then Spread(Own(m), CallerObject(m)) else Own(m)
  }

  /** What each wrapper passes to `call`. */
  function Shape(m: RpcMethod): Invocation
  {
    Invocation(ActionName(m), Params(m))
  }

  /**
   * The numeric arguments a wrapper always sends as decimal strings, by parameter name:
   * every count, port, index and epoch argument. (Optional counts of the gated wrappers
   * are covered by their own builders.)
   */
  function DecimalArguments(m: RpcMethod): map<string, int> {
    match m
    case AccountHistory(_, count, _) => map["count" := count]
    case AccountsReceivable(_, count, _) => map["count" := count]
    case AccountsPending(_, count, _) => map["count" := count]
    case Bootstrap(_, port, _, _) => map["port" := port]
    case Chain(_, count, _) => map["count" := count]
    case DeterministicKey(_, index) => map["index" := index]
    case EpochUpgrade(epoch, _, _, _) => map["epoch" := epoch]
    case Frontiers(_, count) => map["count" := count]
    case Keepalive(_, port) => map["port" := port]
    case Ledger(_, count, _) => map["count" := count]
    case Receivable(_, count, _) => map["count" := count]
    case Pending(_, count, _) => map["count" := count]
    case Successors(_, count, _) => map["count" := count]
    case Unchecked(count, _) => map["count" := count]
    case UncheckedKeys(_, count, _) => map["count" := count]
    case WorkPeerAdd(_, port) => map["port" := port]
    case _ => map[]
  }

  /** Whether the caller's object supplies `key` itself. */
  predicate CallerSupplies(m: RpcMethod, key: string) {
    SpreadsCallerObject(m) && key in CallerObject(m)
  }

  /** Each count, port, index and epoch argument is among the wrapper's own parameters,
      written as the string that reads back as the same number. */
  lemma OwnSendsDecimals(m: RpcMethod, key: string)
    requires key in DecimalArguments(m)
    ensures key in Own(m) && Own(m)[key].Str?
    ensures ParseDecimal(Own(m)[key].s) == Some(DecimalArguments(m)[key])
  {
    if m.AccountHistory? || m.AccountsReceivable? || m.AccountsPending? || m.Bootstrap? || m.Chain? || m.DeterministicKey? || m.EpochUpgrade? || m.Frontiers? {
      OwnSendsDecimalsAccountHistoryToFrontiers(m, key);
    } else {
      OwnSendsDecimalsKeepaliveToWorkPeerAdd(m, key);
    }
  }

  /** `OwnSendsDecimals` for the wrappers from `accountHistory` to `frontiers`, in source
      order; the wrappers are taken in two groups so that each proof stays small. */
  lemma OwnSendsDecimalsAccountHistoryToFrontiers(m: RpcMethod, key: string)
    requires    m.AccountHistory?
          || m.AccountsReceivable?
          || m.AccountsPending?
          || m.Bootstrap?
          || m.Chain?
          || m.DeterministicKey?
          || m.EpochUpgrade?
          || m.Frontiers?
    requires key in DecimalArguments(m)
    ensures key in Own(m) && Own(m)[key].Str?
    ensures ParseDecimal(Own(m)[key].s) == Some(DecimalArguments(m)[key])
  {
    if m.AccountHistory? {}
    else if m.AccountsReceivable? {}
    else if m.AccountsPending? {}
    else if m.Bootstrap? {}
    else if m.Chain? {}
    else if m.DeterministicKey? {}
    else if m.EpochUpgrade? {}
    else if m.Frontiers? {}
  }

  /** `OwnSendsDecimals` for the wrappers from `keepalive` to `workPeerAdd`, in source order. */
  lemma OwnSendsDecimalsKeepaliveToWorkPeerAdd(m: RpcMethod, key: string)
    requires    m.Keepalive?
          || m.Ledger?
          || m.Receivable?
          || m.Pending?
          || m.Successors?
          || m.Unchecked?
          || m.UncheckedKeys?
          || m.WorkPeerAdd?
    requires key in DecimalArguments(m)
    ensures key in Own(m) && Own(m)[key].Str?
    ensures ParseDecimal(Own(m)[key].s) == Some(DecimalArguments(m)[key])
  {
    if m.Keepalive? {}
    else if m.Ledger? {}
    else if m.Receivable? {}
    else if m.Pending? {}
    else if m.Successors? {}
    else if m.Unchecked? {}
    else if m.UncheckedKeys? {}
    else if m.WorkPeerAdd? {}
  }

  /**
   * Every count, port, index and epoch argument reaches the parameters as the string
   * that reads back as the same number, unless the caller's options object supplies
   * that key itself.
   */
  lemma NumbersSentAsDecimalStrings(m: RpcMethod, key: string)
    requires key in DecimalArguments(m) && !CallerSupplies(m, key)
    ensures key in Shape(m).params && Shape(m).params[key].Str?
    ensures ParseDecimal(Shape(m).params[key].s) == Some(DecimalArguments(m)[key])
  {
    OwnSendsDecimals(m, key);
  }

  /** `confirmationActive` is the one wrapper that sends a count-like number as a JSON
      number rather than as a string. */
  lemma AnnouncementsSentAsNumber(n: int)
    ensures Shape(ConfirmationActive(Some(n))).params["announcements"] == Num(n)
  {
  }
}
