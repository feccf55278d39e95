/** The FI-NFT chaincode: a contract over the ledger's key-value world state
    holding three tables under composite keys — NFT records, account balances
    and bid records — whose functions are run one transaction at a time.

    Two conventions come from the Fabric platform rather than from the
    contract's own code, and are made explicit here:
    - `PutState` only adds to the transaction's write set; the write set is
      committed when the contract function returns without an error and is
      discarded when it returns one (`Commit`);
    - `GetState` reads the committed state, never the transaction's own
      pending writes. */
module Chaincode {
  import opened Results

  /** Go's `uint64`. */
  type uint64 = x: int | 0 <= x < 0x1_0000_0000_0000_0000

  const AdminMSPID: string := "Org1MSP"
  const NFTPrefix: string := "tokenID~CID~Oaccount"
  const BidPrefix: string := "tokenID~maxBids"
  const BalancePrefix: string := "account~balance"
  /** Declared by the contract and used by none of its functions: the token-id
      list lives in the bid table, in the slot of the empty token id. */
  const NFTListsPrefix: string := "tokenID~tokenID~~"

  datatype NFT = NFT(id: string, cid: string, owner: string)
  datatype NFTBid = NFTBid(tokenId: string, currentPrice: uint64, killPrice: uint64)
  datatype AccountBalance = AccountBalance(account: string, balance: uint64)

  /** A composite key: its object type and its attributes. */
  datatype Key = Key(prefix: string, attrs: seq<string>)

  /** A stored record; the JSON text the contract marshals is not modelled. */
  datatype Value =
    | NFTValue(nft: NFT)
    | BidValue(bid: NFTBid)
    | BalanceValue(entry: AccountBalance)
    | TokenList(ids: seq<string>)

  type WorldState = map<Key, Value>
  type Writes = map<Key, Value>

  /** The errors the contract returns, one per distinct message. */
  datatype Error =
    | ClientIdUnavailable                    // "failed to get client id"
    | MspIdUnavailable                       // "failed to get MSPID"
    | NotAuthorized                          // "client is not authorized"
    | InvalidCompositeKey                    // "failed to create composite key"
    | AccountNotExist                        // "Account not exist"
    | UnmarshalFailed                        // "failed to unmarshal data"
    | AddFileFailed                          // "failed to add file"
    | AddNewNFTFailed(cause: Error)          // "failed to add new nft to list"
    | TransferToSelf                         // "transfer to self"
    | AccessDenied                           // "access denied, not the owner of this NFT"
    | DecodeFailed                           // "failed to decode"
    | RequestNotOwner(operator: string, owner: string)  // "failed to request data, operator is not the owner"
    | CatFailed(cid: string)                 // "failed to get data with cid ... from ipfs"

  /** The submitting identity: `GetID` and `GetMSPID`, `None` when the call fails. */
  datatype Client = Client(id: Option<string>, mspId: Option<string>)

  /** The content store: `add` returns the CID of stored content, `cat` the
      content stored under a CID; `None` when the call fails. */
  datatype Ipfs = Ipfs(add: string -> Option<string>, cat: string -> Option<string>)

  /** What a contract function returns together with the writes it issued. */
  datatype Tx<T> = Tx(result: Result<T, Error>, writes: Writes)

  /** The platform's commit rule: writes take effect only when the function succeeded. */
  function Commit<T>(s: WorldState, t: Tx<T>): (s': WorldState)
    ensures t.result.Err? ==> s' == s
    ensures t.result.Ok? ==> s'.Keys == s.Keys + t.writes.Keys
    ensures forall k :: k in t.writes && t.result.Ok? ==> s'[k] == t.writes[k]
    ensures forall k :: k in s && k !in t.writes ==> s'[k] == s[k]
  {
    if t.result.Ok? then s + t.writes else s
  }

  function GetState(s: WorldState, k: Key): Option<Value>
  {
    if k in s then Some(s[k]) else None
  }

  // ---------------------------------------------------------------------------
  // Keys

  /** A composite-key part: the shim refuses U+0000 and U+10FFFF. */
  predicate ValidKeyText(t: string)
  {
    forall i :: 0 <= i < |t| ==> t[i] != '\0' && t[i] != '\U{10FFFF}'
  }

  /** `CreateCompositeKey(prefix, attrs)`. */
  function CreateCompositeKey(prefix: string, attrs: seq<string>): Result<Key, Error>
  {
    if ValidKeyText(prefix) && forall i :: 0 <= i < |attrs| ==> ValidKeyText(attrs[i])
    then Ok(Key(prefix, attrs))
    else Err(InvalidCompositeKey)
  }

  /** A key with one attribute under one of the contract's prefixes fails
      exactly when the attribute holds a refused character. */
  lemma SingleKey(prefix: string, attr: string)
    requires prefix in {NFTPrefix, BidPrefix, BalancePrefix}
    ensures CreateCompositeKey(prefix, [attr]) ==
              if ValidKeyText(attr) then Ok(Key(prefix, [attr])) else Err(InvalidCompositeKey)
  {
    assert forall i :: 0 <= i < |prefix| ==> 'A' <= prefix[i] <= '~';
    assert ValidKeyText(prefix);
    assert (forall i :: 0 <= i < |[attr]| ==> ValidKeyText([attr][i])) <==> ValidKeyText(attr) by {
      assert [attr][0] == attr;
    }
  }

  function DigitChar(d: int): (c: char)
    requires 0 <= d < 10
    ensures '0' <= c <= '9' && c as int - '0' as int == d
  {
    ('0' as int + d) as char
  }

  /** `fmt.Sprintf("%d", n)`: the decimal digits of `n`, without leading zeros. */
  function Decimal(n: nat): (s: string)
    ensures |s| >= 1
    ensures forall i :: 0 <= i < |s| ==> '0' <= s[i] <= '9'
    ensures s[0] == '0' <==> n == 0
    ensures n < 10 ==> |s| == 1
  {
    if n < 10 then [DigitChar(n)] else Decimal(n / 10) + [DigitChar(n % 10)]
  }

  /** The number a string of decimal digits denotes. */
  function DigitsValue(s: string): nat
    requires forall i :: 0 <= i < |s| ==> '0' <= s[i] <= '9'
  {
    if s == [] then 0 else DigitsValue(s[..|s| - 1]) * 10 + (s[|s| - 1] as int - '0' as int)
  }

  /** Reading the decimal rendering back gives the number. */
  lemma {:induction false} DecimalRoundTrip(n: nat)
    ensures DigitsValue(Decimal(n)) == n
  {
    if n >= 10 {
      var s := Decimal(n);
      assert s[..|s| - 1] == Decimal(n / 10);
      DecimalRoundTrip(n / 10);
    }
  }

  /** Distinct token ids have distinct keys. */
  lemma DecimalInjective(a: nat, b: nat)
    ensures Decimal(a) == Decimal(b) ==> a == b
  {
    DecimalRoundTrip(a);
    DecimalRoundTrip(b);
  }

  function NFTKey(id: uint64): Key { Key(NFTPrefix, [Decimal(id)]) }
  function BalanceKey(account: string): Key { Key(BalancePrefix, [account]) }
  function BidKey(tokenId: string): Key { Key(BidPrefix, [tokenId]) }
  /** The slot of the empty token id in the bid table, where the id list is kept. */
  function ListKey(): Key { BidKey("") }

  /** The key of a token id never fails to be created. */
  lemma NFTKeyCreated(id: uint64)
    ensures CreateCompositeKey(NFTPrefix, [Decimal(id)]) == Ok(NFTKey(id))
  {
  }

  // ---------------------------------------------------------------------------
  // Decoding stored records (json.Unmarshal)

  /** Unmarshalling into `&NFT{}`: empty input fails, as does another kind of record. */
  function UnmarshalNFT(stored: Option<Value>): (r: Result<NFT, Error>)
    ensures r.Ok? <==> stored.Some? && stored.value.NFTValue?
    ensures r.Ok? ==> r.value == stored.value.nft
    ensures r.Err? ==> r.error == UnmarshalFailed
  {
    match stored
    case Some(NFTValue(n)) => Ok(n)
    case _ => Err(UnmarshalFailed)
  }

  function UnmarshalBid(stored: Option<Value>): (r: Result<NFTBid, Error>)
    ensures r.Ok? <==> stored.Some? && stored.value.BidValue?
    ensures r.Ok? ==> r.value == stored.value.bid
    ensures r.Err? ==> r.error == UnmarshalFailed
  {
    match stored
    case Some(BidValue(b)) => Ok(b)
    case _ => Err(UnmarshalFailed)
  }

  function UnmarshalBalance(stored: Option<Value>): (r: Result<AccountBalance, Error>)
    ensures r.Ok? <==> stored.Some? && stored.value.BalanceValue?
    ensures r.Ok? ==> r.value == stored.value.entry
    ensures r.Err? ==> r.error == UnmarshalFailed
  {
    match stored
    case Some(BalanceValue(b)) => Ok(b)
    case _ => Err(UnmarshalFailed)
  }

  /** `json.Unmarshal(jvalue, value)` with `value` a `[]string` passed by value,
      not by pointer: Go's decoder rejects empty input, and rejects any
      destination that is not a non-nil pointer, so this never succeeds. */
  function UnmarshalIdsByValue(stored: Option<Value>): (r: Result<seq<string>, Error>)
    ensures r == Err(UnmarshalFailed)
  {
    Err(UnmarshalFailed)
  }

  // ---------------------------------------------------------------------------
  // Reads: functions of the world state, which they cannot change

  /** `authorization`: only the admin organisation may write balances or mint. */
  function Authorization(c: Client): (r: Result<(), Error>)
    ensures r.Ok? <==> c.mspId == Some(AdminMSPID)
    ensures c.mspId.None? ==> r == Err(MspIdUnavailable)
    ensures c.mspId.Some? && c.mspId.value != AdminMSPID ==> r == Err(NotAuthorized)
  {
    match c.mspId
    case None => Err(MspIdUnavailable)
    case Some(msp) => if msp != AdminMSPID then Err(NotAuthorized) else Ok(())
  }

  /** `ClientAccountID`: the caller's own identity. */
  function ClientAccountID(c: Client): (r: Result<string, Error>)
    ensures r.Ok? <==> c.id.Some?
    ensures r.Ok? ==> r.value == c.id.value
    ensures r.Err? ==> r.error == ClientIdUnavailable
  {
    match c.id
    case None => Err(ClientIdUnavailable)
    case Some(id) => Ok(id)
  }

  /** `GetAccount`: the stored balance record of `account`. */
  function GetAccount(s: WorldState, account: string): (r: Result<AccountBalance, Error>)
    ensures !ValidKeyText(account) ==> r == Err(InvalidCompositeKey)
    ensures ValidKeyText(account) && BalanceKey(account) !in s ==> r == Err(AccountNotExist)
    ensures r.Ok? <==> ValidKeyText(account) && BalanceKey(account) in s && s[BalanceKey(account)].BalanceValue?
    ensures r.Ok? ==> r.value == s[BalanceKey(account)].entry
  {
    SingleKey(BalancePrefix, account);
    match CreateCompositeKey(BalancePrefix, [account])
    case Err(e) => Err(e)
    case Ok(key) =>
      var stored := GetState(s, key);
      if stored.None? then Err(AccountNotExist) else UnmarshalBalance(stored)
  }

  /** `GetBid`: the stored bid record of `tokenId`; unlike `GetAccount` a
      missing record surfaces as an unmarshal failure. */
  function GetBid(s: WorldState, tokenId: string): (r: Result<NFTBid, Error>)
    ensures !ValidKeyText(tokenId) ==> r == Err(InvalidCompositeKey)
    ensures ValidKeyText(tokenId) && BidKey(tokenId) !in s ==> r == Err(UnmarshalFailed)
    ensures r.Ok? <==> ValidKeyText(tokenId) && BidKey(tokenId) in s && s[BidKey(tokenId)].BidValue?
    ensures r.Ok? ==> r.value == s[BidKey(tokenId)].bid
  {
    SingleKey(BidPrefix, tokenId);
    match CreateCompositeKey(BidPrefix, [tokenId])
    case Err(e) => Err(e)
    case Ok(key) => UnmarshalBid(GetState(s, key))
  }

  /** `GetAllNFT`: reads the id list from the bid table's empty-id slot. */
  function GetAllNFT(s: WorldState): (r: Result<seq<string>, Error>)
    ensures r.Err?
  {
    UnmarshalIdsByValue(GetState(s, ListKey()))
  }

  /** `Query`: the stored NFT record of token `id`. */
  function Query(s: WorldState, id: uint64): (r: Result<NFT, Error>)
    ensures r.Ok? <==> NFTKey(id) in s && s[NFTKey(id)].NFTValue?
    ensures r.Ok? ==> r.value == s[NFTKey(id)].nft
    ensures r.Err? ==> r.error == UnmarshalFailed
  {
    UnmarshalNFT(GetState(s, NFTKey(id)))
  }

  /** The operator `Request` checks: `GetID`'s error is ignored there, leaving "". */
  function Operator(c: Client): string
  {
    match c.id
    case Some(id) => id
    case None => ""
  }

  /** `Request`: the content of token `id`, for its owner only. */
  function Request(s: WorldState, c: Client, id: uint64, ipfs: Ipfs): (r: Result<string, Error>)
    ensures r.Ok? <==> (NFTKey(id) in s && s[NFTKey(id)].NFTValue?
                        && s[NFTKey(id)].nft.owner == Operator(c)
                        && ipfs.cat(s[NFTKey(id)].nft.cid).Some?)
    ensures r.Ok? ==> r.value == ipfs.cat(s[NFTKey(id)].nft.cid).value
    ensures Query(s, id).Ok? && Query(s, id).value.owner != Operator(c) ==>
              r == Err(RequestNotOwner(Operator(c), Query(s, id).value.owner))
  {
    match UnmarshalNFT(GetState(s, NFTKey(id)))
    case Err(e) => Err(e)
    case Ok(nft) =>
      var operator := Operator(c);
      if operator != nft.owner then Err(RequestNotOwner(operator, nft.owner))
      else match ipfs.cat(nft.cid)
        case None => Err(CatFailed(nft.cid))
        case Some(content) => Ok(content)
  }

  // ---------------------------------------------------------------------------
  // Base64 (Go's base64.StdEncoding.DecodeString, used by Transfer only to log)

  predicate IsBase64Char(ch: char)
  {
    'A' <= ch <= 'Z' || 'a' <= ch <= 'z' || '0' <= ch <= '9' || ch == '+' || ch == '/'
  }

  predicate IsLineBreak(ch: char)
  {
    ch == '\r' || ch == '\n'
  }

  /** The decoder skips carriage returns and line feeds and keeps every other
      character, in order. */
  function WithoutLineBreaks(t: string): (u: string)
    ensures forall i :: 0 <= i < |u| ==> !IsLineBreak(u[i])
    ensures |u| <= |t|
    ensures (forall i :: 0 <= i < |t| ==> !IsLineBreak(t[i])) ==> u == t
  {
    if t == [] then []
    else if IsLineBreak(t[0]) then WithoutLineBreaks(t[1..])
    else [t[0]] + WithoutLineBreaks(t[1..])
  }

  /** Line breaks are dropped piecewise: the input may be cut anywhere. */
  lemma {:induction false} WithoutLineBreaksConcat(a: string, b: string)
    ensures WithoutLineBreaks(a + b) == WithoutLineBreaks(a) + WithoutLineBreaks(b)
  {
    if a == [] {
      assert a + b == b;
    } else {
      assert (a + b)[0] == a[0];
      assert (a + b)[1..] == a[1..] + b;
      WithoutLineBreaksConcat(a[1..], b);
    }
  }

  /** A carriage return or line feed on its own leaves nothing behind. */
  lemma LineBreakDropped(brk: char)
    requires IsLineBreak(brk)
    ensures WithoutLineBreaks([brk]) == []
  {
    assert [brk][1..] == [];
  }

  /** '=' may stand only in the last position, or in the last two. */
  predicate PaddingAt(u: string, i: int)
    requires 0 <= i < |u|
  {
    u[i] == '=' && (i == |u| - 1 || (i == |u| - 2 && u[|u| - 1] == '='))
  }

  /** The input decodes: whole quanta of four alphabet characters, the last one
      possibly padded (trailing bits are not checked). */
  predicate StdBase64Valid(t: string)
  {
    var u := WithoutLineBreaks(t);
    |u| % 4 == 0 && forall i :: 0 <= i < |u| ==> IsBase64Char(u[i]) || PaddingAt(u, i)
  }

  /** A line break anywhere in an identity does not change whether it decodes. */
  lemma Base64IgnoresLineBreaks(a: string, b: string, brk: char)
    requires IsLineBreak(brk)
    ensures StdBase64Valid(a + [brk] + b) <==> StdBase64Valid(a + b)
  {
    WithoutLineBreaksConcat(a + [brk], b);
    WithoutLineBreaksConcat(a, [brk]);
    WithoutLineBreaksConcat(a, b);
    LineBreakDropped(brk);
    assert WithoutLineBreaks(a) + [] == WithoutLineBreaks(a);
    assert WithoutLineBreaks(a + [brk] + b) == WithoutLineBreaks(a + b);
  }

  /** Whole quanta are accepted, padded or not, with line breaks anywhere. */
  lemma Base64Accepts()
    ensures StdBase64Valid("") && StdBase64Valid("AB==") && StdBase64Valid("AB=\n=")
  {
    assert WithoutLineBreaks("AB==") == "AB==";
    Base64IgnoresLineBreaks("AB=", "=", '\n');
    assert "AB=" + ['\n'] + "=" == "AB=\n=";
    assert "AB=" + "=" == "AB==";
  }

  /** A partial quantum, and padding before the end of the quantum, are refused. */
  lemma Base64RefusesShape()
    ensures !StdBase64Valid("AB") && !StdBase64Valid("A===")
  {
    assert WithoutLineBreaks("AB") == "AB";
    assert WithoutLineBreaks("A===") == "A===";
    assert !IsBase64Char("A==="[1]) && !PaddingAt("A===", 1);
  }

  /** A character outside the alphabet after padding, and a quantum of padding only, are refused. */
  lemma Base64RefusesPadding()
    ensures !StdBase64Valid("AB=x") && !StdBase64Valid("====")
  {
    assert WithoutLineBreaks("AB=x") == "AB=x";
    assert !IsBase64Char("AB=x"[2]) && !PaddingAt("AB=x", 2);
    assert WithoutLineBreaks("====") == "====";
    assert !IsBase64Char("===="[0]) && !PaddingAt("====", 0);
  }

  // ---------------------------------------------------------------------------
  // Writes: each contract function as the result and the write set it produces

  /** `UpdateAccount`: the admin stores the balance record `{account, balance}`. */
  function UpdateAccountTx(c: Client, account: string, balance: uint64): (t: Tx<AccountBalance>)
    ensures t.result.Ok? <==> c.mspId == Some(AdminMSPID) && ValidKeyText(account)
    ensures c.mspId != Some(AdminMSPID) ==> t == Tx(Err(Authorization(c).error), map[])
    ensures t.result.Err? ==> t.writes == map[]
    ensures t.result.Ok? ==> t.result.value == AccountBalance(account, balance)
                             && t.writes == map[BalanceKey(account) := BalanceValue(t.result.value)]
  {
    match Authorization(c)
    case Err(e) => Tx(Err(e), map[])
    case Ok(_) =>
      var value := AccountBalance(account, balance);
      SingleKey(BalancePrefix, account);
      match CreateCompositeKey(BalancePrefix, [account])
      case Err(e) => Tx(Err(e), map[])
      case Ok(key) => Tx(Ok(value), map[key := BalanceValue(value)])
  }

  /** `UpdateBid`: despite its name, the same write as `UpdateAccount`, with no result value. */
  function UpdateBidTx(c: Client, account: string, balance: uint64): (t: Tx<()>)
    ensures t.result.Ok? <==> c.mspId == Some(AdminMSPID) && ValidKeyText(account)
    ensures t.result.Err? ==> t.writes == map[]
    ensures t.result.Ok? ==> t.writes == map[BalanceKey(account) := BalanceValue(AccountBalance(account, balance))]
  {
    match Authorization(c)
    case Err(e) => Tx(Err(e), map[])
    case Ok(_) =>
      var value := AccountBalance(account, balance);
      SingleKey(BalancePrefix, account);
      match CreateCompositeKey(BalancePrefix, [account])
      case Err(e) => Tx(Err(e), map[])
      case Ok(key) => Tx(Ok(()), map[key := BalanceValue(value)])
  }

  /** `addNewNFT`: append `tokenId` to the stored id list. */
  function AddNewNFTTx(s: WorldState, tokenId: string): (t: Tx<()>)
    ensures t == Tx(Err(UnmarshalFailed), map[])
  {
    match UnmarshalIdsByValue(GetState(s, ListKey()))
    case Err(e) => Tx(Err(e), map[])
    case Ok(ids) => Tx(Ok(()), map[ListKey() := TokenList(ids + [tokenId])])
  }

  /** `MintWithFile`: store the file, then record token `id` as owned by the caller. */
  function MintWithFileTx(s: WorldState, c: Client, id: uint64, file: string, ipfs: Ipfs): (t: Tx<string>)
    ensures ipfs.add(file).None? ==> t == Tx(Err(AddFileFailed), map[])
    ensures ipfs.add(file).Some? && c.mspId != Some(AdminMSPID) ==> t == Tx(Err(Authorization(c).error), map[])
    ensures ipfs.add(file).Some? && c.mspId == Some(AdminMSPID) && c.id.Some? ==>
              t.writes == map[NFTKey(id) := NFTValue(NFT(Decimal(id), ipfs.add(file).value, c.id.value))]
              && t.result == Err(AddNewNFTFailed(UnmarshalFailed))
    ensures t.result.Err?
  {
    match ipfs.add(file)
    case None => Tx(Err(AddFileFailed), map[])
    case Some(cid) =>
      match Authorization(c)
      case Err(e) => Tx(Err(e), map[])
      case Ok(_) =>
        match c.id
        case None => Tx(Err(ClientIdUnavailable), map[])
        case Some(operator) =>
          var key := Decimal(id);
          var writes := map[NFTKey(id) := NFTValue(NFT(key, cid, operator))];
          var added := AddNewNFTTx(s, key);
          if added.result.Err? then Tx(Err(AddNewNFTFailed(added.result.error)), writes + added.writes)
          else Tx(Ok(cid), writes + added.writes)
  }

  /** `Transfer`: the owner hands token `id` to `recipient`. */
  function TransferTx(s: WorldState, c: Client, recipient: string, id: uint64): (t: Tx<()>)
    ensures c.id.None? ==> t == Tx(Err(ClientIdUnavailable), map[])
    ensures c.id == Some(recipient) ==> t == Tx(Err(TransferToSelf), map[])
    ensures c.id.Some? && c.id.value != recipient && Query(s, id).Err? ==> t == Tx(Err(UnmarshalFailed), map[])
    ensures c.id.Some? && c.id.value != recipient && Query(s, id).Ok? && Query(s, id).value.owner != c.id.value ==>
              t == Tx(Err(AccessDenied), map[])
    ensures t.result.Ok? <==> (c.id.Some? && c.id.value != recipient && Query(s, id).Ok?
                               && Query(s, id).value.owner == c.id.value
                               && StdBase64Valid(c.id.value) && StdBase64Valid(recipient))
    ensures t.writes != map[] ==> t.writes == map[NFTKey(id) := NFTValue(Query(s, id).value.(owner := recipient))]
    ensures t.result.Ok? ==> t.writes == map[NFTKey(id) := NFTValue(Query(s, id).value.(owner := recipient))]
  {
    match c.id
    case None => Tx(Err(ClientIdUnavailable), map[])
    case Some(sender) =>
      if sender == recipient then Tx(Err(TransferToSelf), map[])
      else
        match UnmarshalNFT(GetState(s, NFTKey(id)))
        case Err(e) => Tx(Err(e), map[])
        case Ok(v) =>
          if v.owner != sender then Tx(Err(AccessDenied), map[])
          else
            var writes := map[NFTKey(id) := NFTValue(v.(owner := recipient))];
            if !StdBase64Valid(sender) || !StdBase64Valid(recipient) then Tx(Err(DecodeFailed), writes)
            else Tx(Ok(()), writes)
  }

  // ---------------------------------------------------------------------------
  // The invariant of the world state

  /** Each record sits at the key its own fields determine. */
  predicate Fits(k: Key, v: Value)
  {
    match v
    case NFTValue(n) => k == Key(NFTPrefix, [n.id])
    case BidValue(b) => k == BidKey(b.tokenId) && b.tokenId != ""
    case BalanceValue(b) => k == BalanceKey(b.account)
    case TokenList(_) => k == ListKey()
  }

  predicate Consistent(s: WorldState)
  {
    forall k :: k in s ==> Fits(k, s[k])
  }

  /** In a consistent state every record the readers look up has the kind
      they decode, so only an absent key makes them fail to unmarshal. */
  lemma StoredRecordsDecode(s: WorldState, id: uint64, account: string, tokenId: string)
    requires Consistent(s)
    ensures NFTKey(id) in s ==> UnmarshalNFT(GetState(s, NFTKey(id))) == Ok(s[NFTKey(id)].nft)
    ensures BalanceKey(account) in s ==> UnmarshalBalance(GetState(s, BalanceKey(account))).Ok?
    ensures tokenId != "" && BidKey(tokenId) in s ==> UnmarshalBid(GetState(s, BidKey(tokenId))).Ok?
    ensures ListKey() in s ==> s[ListKey()].TokenList?
  {
    if NFTKey(id) in s {
      assert Fits(NFTKey(id), s[NFTKey(id)]);
    }
    if BalanceKey(account) in s {
      assert Fits(BalanceKey(account), s[BalanceKey(account)]);
    }
    if tokenId != "" && BidKey(tokenId) in s {
      assert Fits(BidKey(tokenId), s[BidKey(tokenId)]);
    }
    if ListKey() in s {
      assert Fits(ListKey(), s[ListKey()]);
    }
  }

  lemma CommitPreservesConsistent<T>(s: WorldState, t: Tx<T>)
    requires Consistent(s) && Consistent(t.writes)
    ensures Consistent(Commit(s, t))
  {
  }

  /** The chaincode's namespace starts empty and only this contract writes to
      it, so every state the contract can be run in is `Consistent`. */
  class Ledger {
    var state: WorldState

    ghost predicate Valid()
      reads this
    {
      Consistent(state)
    }

    constructor ()
      ensures Valid() && state == map[]
    {
      state := map[];
    }

    method UpdateAccount(c: Client, account: string, balance: uint64)
      returns (r: Result<AccountBalance, Error>, writes: Writes)
      requires Valid()
      modifies this
      ensures Valid()
      ensures Tx(r, writes) == UpdateAccountTx(c, account, balance)
      ensures state == Commit(old(state), Tx(r, writes))
    {
      writes := map[];
      var auth := Authorization(c);
      if auth.Err? {
        r := Err(auth.error);
        return;
      }
      var value := AccountBalance(account, balance);
      var key := CreateCompositeKey(BalancePrefix, [account]);
      if key.Err? {
        r := Err(key.error);
        return;
      }
      writes := writes[key.value := BalanceValue(value)];
      r := Ok(value);
      state := Commit(state, Tx(r, writes));
    }

    method UpdateBid(c: Client, account: string, balance: uint64)
      returns (r: Result<(), Error>, writes: Writes)
      requires Valid()
      modifies this
      ensures Valid()
      ensures Tx(r, writes) == UpdateBidTx(c, account, balance)
      ensures state == Commit(old(state), Tx(r, writes))
    {
      writes := map[];
      var auth := Authorization(c);
      if auth.Err? {
        r := Err(auth.error);
        return;
      }
      var value := AccountBalance(account, balance);
      var key := CreateCompositeKey(BalancePrefix, [account]);
      if key.Err? {
        r := Err(key.error);
        return;
      }
      writes := writes[key.value := BalanceValue(value)];
      r := Ok(());
      state := Commit(state, Tx(r, writes));
    }

    /** `addNewNFT`, adding its write, if any, to the pending writes of the caller. */
    method AddNewNFT(tokenId: string, pending: Writes) returns (r: Result<(), Error>, writes: Writes)
      ensures r == AddNewNFTTx(state, tokenId).result
      ensures writes == pending + AddNewNFTTx(state, tokenId).writes
    {
      var decoded := UnmarshalIdsByValue(GetState(state, ListKey()));
      match decoded {
        case Err(e) =>
          r, writes := Err(e), pending;
        case Ok(ids) =>
          r, writes := Ok(()), pending[ListKey() := TokenList(ids + [tokenId])];
      }
    }

    method MintWithFile(c: Client, id: uint64, file: string, ipfs: Ipfs)
      returns (r: Result<string, Error>, writes: Writes)
      requires Valid()
      modifies this
      ensures Valid()
      ensures Tx(r, writes) == MintWithFileTx(old(state), c, id, file, ipfs)
      ensures state == Commit(old(state), Tx(r, writes))
    {
      writes := map[];
      var added := ipfs.add(file);
      if added.None? {
        r := Err(AddFileFailed);
        return;
      }
      var cid := added.value;
      var auth := Authorization(c);
      if auth.Err? {
        r := Err(auth.error);
        return;
      }
      if c.id.None? {
        r := Err(ClientIdUnavailable);
        return;
      }
      var operator := c.id.value;
      var key := Decimal(id);
      writes := writes[NFTKey(id) := NFTValue(NFT(key, cid, operator))];
      var listed;
      listed, writes := AddNewNFT(key, writes);
      r := if listed.Err? then Err(AddNewNFTFailed(listed.error)) else Ok(cid);
      state := Commit(state, Tx(r, writes));
    }

    method Transfer(c: Client, recipient: string, id: uint64)
      returns (r: Result<(), Error>, writes: Writes)
      requires Valid()
      modifies this
      ensures Valid()
      ensures Tx(r, writes) == TransferTx(old(state), c, recipient, id)
      ensures state == Commit(old(state), Tx(r, writes))
    {
      writes := map[];
      if c.id.None? {
        r := Err(ClientIdUnavailable);
        return;
      }
      var sender := c.id.value;
      if sender == recipient {
        r := Err(TransferToSelf);
        return;
      }
      var key := NFTKey(id);
      var decoded := UnmarshalNFT(GetState(state, key));
      if decoded.Err? {
        r := Err(decoded.error);
        return;
      }
      var v := decoded.value;
      if v.owner != sender {
        r := Err(AccessDenied);
        return;
      }
      v := v.(owner := recipient);
      writes := writes[key := NFTValue(v)];
      r := if !StdBase64Valid(sender) || !StdBase64Valid(recipient) then Err(DecodeFailed) else Ok(());
      state := Commit(state, Tx(r, writes));
    }
  }
}
