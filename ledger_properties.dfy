/** Properties of the FI-NFT contract across calls: what one write makes the
    readers see, which callers can change which table, and what any run of
    the contract from an empty namespace can reach. */
module LedgerProperties {
  import opened Results
  import opened Chaincode

  /** A state-changing contract function together with its arguments. */
  datatype Call =
    | UpdateAccountCall(account: string, balance: uint64)
    | UpdateBidCall(account: string, balance: uint64)
    | MintWithFileCall(id: uint64, file: string)
    | TransferCall(recipient: string, id: uint64)

  /** The world state after one transaction, under the platform's commit rule. */
  function Execute(s: WorldState, c: Client, call: Call, ipfs: Ipfs): WorldState
  {
    match call
    case UpdateAccountCall(account, balance) => Commit(s, UpdateAccountTx(c, account, balance))
    case UpdateBidCall(account, balance) => Commit(s, UpdateBidTx(c, account, balance))
    case MintWithFileCall(id, file) => Commit(s, MintWithFileTx(s, c, id, file, ipfs))
    case TransferCall(recipient, id) => Commit(s, TransferTx(s, c, recipient, id))
  }

  datatype Step = Step(caller: Client, call: Call)

  /** The world state after the transactions `steps`, in order. */
  function Run(s: WorldState, steps: seq<Step>, ipfs: Ipfs): WorldState
    decreases |steps|
  {
    if steps == [] then s
    else Run(Execute(s, steps[0].caller, steps[0].call, ipfs), steps[1..], ipfs)
  }

  /** The entries of one table. */
  function Table(s: WorldState, prefix: string): map<Key, Value>
  {
    map k | k in s && k.prefix == prefix :: s[k]
  }

  // ---------------------------------------------------------------------------
  // Balances

  /** After an accepted `UpdateAccount(a, b)`, `GetAccount(a)` returns `{a, b}`. */
  lemma UpdateThenGetAccount(s: WorldState, c: Client, account: string, balance: uint64)
    requires UpdateAccountTx(c, account, balance).result.Ok?
    ensures GetAccount(Commit(s, UpdateAccountTx(c, account, balance)), account) == Ok(AccountBalance(account, balance))
  {
  }

  /** Of two updates of one account the later one wins; repeating an update changes nothing. */
  lemma UpdateAccountLastWriteWins(s: WorldState, c: Client, account: string, b1: uint64, b2: uint64)
    ensures Commit(Commit(s, UpdateAccountTx(c, account, b1)), UpdateAccountTx(c, account, b2))
            == Commit(s, UpdateAccountTx(c, account, b2))
  {
  }

  /** `UpdateBid` has the effect of `UpdateAccount` and leaves the bid table alone. */
  lemma UpdateBidActsAsUpdateAccount(s: WorldState, c: Client, account: string, balance: uint64)
    ensures UpdateBidTx(c, account, balance).result.Ok? <==> UpdateAccountTx(c, account, balance).result.Ok?
    ensures UpdateBidTx(c, account, balance).writes == UpdateAccountTx(c, account, balance).writes
    ensures Commit(s, UpdateBidTx(c, account, balance)) == Commit(s, UpdateAccountTx(c, account, balance))
    ensures Table(Commit(s, UpdateBidTx(c, account, balance)), BidPrefix) == Table(s, BidPrefix)
  {
    var s' := Commit(s, UpdateBidTx(c, account, balance));
    assert forall k :: k in s' && k.prefix == BidPrefix ==> k in s && s'[k] == s[k];
  }

  // ---------------------------------------------------------------------------
  // Tokens

  /** An accepted transfer changes the owner of that one token and nothing else. */
  lemma TransferChangesOnlyOwner(s: WorldState, c: Client, recipient: string, id: uint64)
    requires TransferTx(s, c, recipient, id).result.Ok?
    ensures var s' := Commit(s, TransferTx(s, c, recipient, id));
            && Query(s', id) == Ok(NFT(Query(s, id).value.id, Query(s, id).value.cid, recipient))
            && s'.Keys == s.Keys
            && (forall other: uint64 :: other != id ==> Query(s', other) == Query(s, other))
            && (forall k :: k in s && k != NFTKey(id) ==> s'[k] == s[k])
  {
    var s' := Commit(s, TransferTx(s, c, recipient, id));
    forall other: uint64 | other != id ensures Query(s', other) == Query(s, other) {
      DecimalInjective(other, id);
      assert NFTKey(other) != NFTKey(id);
    }
  }

  /** A caller other than the owner cannot move a token; the state is unchanged. */
  lemma NonOwnerCannotTransfer(s: WorldState, c: Client, recipient: string, id: uint64)
    requires Query(s, id).Ok? && Operator(c) != Query(s, id).value.owner
    ensures TransferTx(s, c, recipient, id).result.Err?
    ensures Commit(s, TransferTx(s, c, recipient, id)) == s
  {
  }

  /** Transferring a token from A to B and back from B to A restores the state. */
  lemma TransferAndBack(s: WorldState, a: Client, b: Client, id: uint64)
    requires a.id.Some? && b.id.Some? && a.id != b.id
    requires Query(s, id).Ok? && Query(s, id).value.owner == a.id.value
    requires StdBase64Valid(a.id.value) && StdBase64Valid(b.id.value)
    ensures TransferTx(s, a, b.id.value, id).result.Ok?
    ensures var s1 := Commit(s, TransferTx(s, a, b.id.value, id));
            && TransferTx(s1, b, a.id.value, id).result.Ok?
            && Commit(s1, TransferTx(s1, b, a.id.value, id)) == s
  {
    var s1 := Commit(s, TransferTx(s, a, b.id.value, id));
    var t2 := TransferTx(s1, b, a.id.value, id);
    assert Query(s1, id).value == Query(s, id).value.(owner := b.id.value);
    assert t2.writes == map[NFTKey(id) := s[NFTKey(id)]];
  }

  /** After handing a token over, the former owner may neither move it nor read its content. */
  lemma FormerOwnerLosesAccess(s: WorldState, c: Client, recipient: string, id: uint64, to: string, ipfs: Ipfs)
    requires TransferTx(s, c, recipient, id).result.Ok?
    ensures var s' := Commit(s, TransferTx(s, c, recipient, id));
            && (to != Operator(c) ==> TransferTx(s', c, to, id).result == Err(AccessDenied))
            && Request(s', c, id, ipfs) == Err(RequestNotOwner(Operator(c), recipient))
  {
    TransferChangesOnlyOwner(s, c, recipient, id);
  }

  /** `GetBid("")` reads the slot that holds the id list, and fails on it. */
  lemma GetBidOfEmptyIdReadsIdList(s: WorldState)
    requires ListKey() in s && s[ListKey()].TokenList?
    ensures GetBid(s, "") == Err(UnmarshalFailed)
  {
  }

  // ---------------------------------------------------------------------------
  // Every transaction

  /** No transaction breaks the state's invariant. */
  lemma ExecutePreservesConsistent(s: WorldState, c: Client, call: Call, ipfs: Ipfs)
    requires Consistent(s)
    ensures Consistent(Execute(s, c, call, ipfs))
  {
  }

  /** Only an `Org1MSP` caller changes the balance table, and only by `UpdateAccount` or `UpdateBid`. */
  lemma BalancesNeedAdmin(s: WorldState, c: Client, call: Call, ipfs: Ipfs)
    requires Table(Execute(s, c, call, ipfs), BalancePrefix) != Table(s, BalancePrefix)
    ensures c.mspId == Some(AdminMSPID)
    ensures call.UpdateAccountCall? || call.UpdateBidCall?
  {
    var s' := Execute(s, c, call, ipfs);
    if !(call.UpdateAccountCall? || call.UpdateBidCall?) || c.mspId != Some(AdminMSPID) {
      assert forall k :: k in s' && k.prefix == BalancePrefix ==> k in s && s'[k] == s[k];
    }
  }

  /** No transaction changes the bid table. */
  lemma BidTableNeverChanges(s: WorldState, c: Client, call: Call, ipfs: Ipfs)
    ensures Table(Execute(s, c, call, ipfs), BidPrefix) == Table(s, BidPrefix)
  {
    var s' := Execute(s, c, call, ipfs);
    assert forall k :: k in s' && k.prefix == BidPrefix ==> k in s && s'[k] == s[k];
  }

  /** A stored token keeps its record except when its owner transfers it. */
  lemma TokenChangesOnlyByOwner(s: WorldState, c: Client, call: Call, ipfs: Ipfs, k: Key)
    requires k in s && k.prefix == NFTPrefix && s[k].NFTValue?
    requires Execute(s, c, call, ipfs)[k] != s[k]
    ensures call.TransferCall? && k == NFTKey(call.id)
    ensures Operator(c) == s[k].nft.owner
    ensures Execute(s, c, call, ipfs)[k] == NFTValue(s[k].nft.(owner := call.recipient))
  {
    match call
    case TransferCall(recipient, id) =>
      var t := TransferTx(s, c, recipient, id);
      assert t.result.Ok? && k in t.writes;
      assert k == NFTKey(id);
    case _ =>
  }

  /** No transaction adds a key to the NFT table: `MintWithFile` never commits. */
  lemma NoTokenIsCreated(s: WorldState, c: Client, call: Call, ipfs: Ipfs)
    ensures Table(Execute(s, c, call, ipfs), NFTPrefix).Keys <= Table(s, NFTPrefix).Keys
  {
  }

  /** From the empty namespace, every run keeps the invariant and holds no token. */
  lemma {:induction false} RunFromEmpty(s: WorldState, steps: seq<Step>, ipfs: Ipfs)
    requires Consistent(s) && Table(s, NFTPrefix) == map[]
    ensures Consistent(Run(s, steps, ipfs))
    ensures Table(Run(s, steps, ipfs), NFTPrefix) == map[]
    decreases |steps|
  {
    if steps != [] {
      var s1 := Execute(s, steps[0].caller, steps[0].call, ipfs);
      ExecutePreservesConsistent(s, steps[0].caller, steps[0].call, ipfs);
      NoTokenIsCreated(s, steps[0].caller, steps[0].call, ipfs);
      RunFromEmpty(s1, steps[1..], ipfs);
    }
  }

  /** Hence in any state the contract reaches from its empty namespace,
      `Query`, `Transfer` and `Request` fail for every token id. */
  lemma NoTokenEverReachable(steps: seq<Step>, ipfs: Ipfs, c: Client, recipient: string, id: uint64)
    ensures Query(Run(map[], steps, ipfs), id).Err?
    ensures TransferTx(Run(map[], steps, ipfs), c, recipient, id).result.Err?
    ensures Request(Run(map[], steps, ipfs), c, id, ipfs).Err?
  {
    RunFromEmpty(map[], steps, ipfs);
    assert NFTKey(id) !in Table(Run(map[], steps, ipfs), NFTPrefix);
  }
}
