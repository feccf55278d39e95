# FI-NFT chaincode and query-string parser, modelled in Dafny

This project models two parts of the NFT-Fabric-IPFS marketplace:

1. **The FI-NFT chaincode** (`FI-NFT/chaincode-go/chaincode/constract.go`). This is a Hyperledger
   Fabric contract over the ledger's key-value world state. It keeps three tables under composite
   keys:
   - NFT records `{ID, CID, Owner}` under `tokenID~CID~Oaccount`, keyed by the token id in decimal;
   - balance records `{Account, Balance}` under `account~balance`;
   - bid records `{TokenID, CurrentPrice, KillPrice}` under `tokenID~maxBids`. The slot of the
     empty token id `""` in this table is also where the list of minted ids is meant to live.

   Only callers of the `Org1MSP` organisation may write balances or mint. Only the owner of a
   token may transfer it or fetch its content from IPFS.
2. **The query-string parser `US`** (`web/Server/api.js`). Most of the web server's route
   handlers use it on the request URL. It takes the text after the first `?` and splits it on
   `&`. It keeps each segment whose first `=` is at an index greater than 0, mapping the key to the raw text after
   that `=`. A later key overwrites an earlier one.

Files:
- `results.dfy`: module `Results`, with `Option` and `Result`.
- `chaincode.dfy`: module `Chaincode`. It holds the world state as a `map<Key, Value>`, where a
  `Key` is the composite key's object type and attributes. The reads (`authorization`,
  `ClientAccountID`, `GetAccount`, `GetBid`, `GetAllNFT`, `Query`, `Request`) are functions of
  the state. Each write is specified by a function that returns the result together with the
  writes issued (`UpdateAccountTx`, `UpdateBidTx`, `AddNewNFTTx`, `MintWithFileTx`,
  `TransferTx`). The class `Ledger` holds the state and runs the writes as methods. These
  methods buffer their `PutState` calls and are proved against those functions.
- `ledger_properties.dfy`: module `LedgerProperties`. It has lemmas about sequences of calls
  and about every transaction kind (`Execute`, `Run`).
- `mint_fix.dfy`: module `MintFix`. It holds the evidently intended id-list handling (see
  Findings).
- `query_string.dfy`: module `QueryString`. It has the `US` method with its loop, JavaScript's
  `indexOf` and `split`, and the lemmas about the parse.

Two rules come from the Fabric platform, not from the Go code. The model states them
explicitly:
- A contract function's `PutState` calls only fill the transaction's write set. The peer commits
  that set when the function returns without error and discards it when the function returns
  an error (`Chaincode.Commit`). This matters for two functions:
  - `MintWithFile` writes the NFT record (constract.go:244) before it fails at
    constract.go:250-253;
  - `Transfer` writes the new owner (constract.go:290) before its base64 checks
    (constract.go:294-301).
- `GetState` reads the committed state, not the transaction's own pending writes.

The chaincode's namespace starts empty, and only this contract writes to it. So every state the
contract runs in satisfies `Consistent`: each stored record sits at the key its own fields
determine. The `Ledger` methods require and preserve this invariant.

The caller is an input: `Client(id, mspId)` carries the results of `GetID` and `GetMSPID`, with
`None` when the call fails. IPFS is an input too: `Ipfs(add, cat)` holds two functions that
return `None` when the call fails.

Two points of the contract are easy to misread:
- `MintWithFile` performs no existence check before it writes the NFT record
  (constract.go:240-247). A second mint of the same id would overwrite the first record, but
  no mint ever commits (see Findings).
- The gateway code in `web/Server/fabric.js` calls contract functions that this contract does
  not define. It submits `InitAccountBalance` (fabric.js:87) and `AddBid` (fabric.js:381) as
  transactions. It evaluates `GetAccountBalance` (fabric.js:117), `TotalBids` (fabric.js:318) and
  `GetBidByIndex` (fabric.js:350) as queries, which are never ordered or committed. The model
  covers only the functions `constract.go` defines.

## Model

| member | source | states |
|---|---|---|
| `Chaincode.Authorization` | FI-NFT/chaincode-go/chaincode/constract.go:367-378 | succeeds iff the caller's MSP id is `Org1MSP`; a failed `GetMSPID` and any other MSP id give the two distinct errors |
| `Chaincode.ClientAccountID` | FI-NFT/chaincode-go/chaincode/constract.go:43-52 | returns the caller's identity, and fails exactly when `GetID` fails |
| `Chaincode.GetAccount` | FI-NFT/chaincode-go/chaincode/constract.go:98-117 | an account key with a refused character fails; a missing record fails with "Account not exist"; otherwise the stored `{Account, Balance}` comes back unchanged |
| `Chaincode.GetBid` | FI-NFT/chaincode-go/chaincode/constract.go:148-164 | returns the stored bid record; a missing record fails as an unmarshal error, with no "not exist" check |
| `Chaincode.GetAllNFT` | FI-NFT/chaincode-go/chaincode/constract.go:54-70 | always fails: the list is decoded into a slice passed by value |
| `Chaincode.UnmarshalNFT` | FI-NFT/chaincode-go/chaincode/constract.go:277-281 | decoding an NFT succeeds exactly on a stored NFT record and yields it; an absent record fails |
| `Chaincode.UnmarshalBid` | FI-NFT/chaincode-go/chaincode/constract.go:157-162 | decoding a bid succeeds exactly on a stored bid record and yields it |
| `Chaincode.UnmarshalBalance` | FI-NFT/chaincode-go/chaincode/constract.go:111-115 | decoding a balance succeeds exactly on a stored balance record and yields it |
| `Chaincode.Query` | FI-NFT/chaincode-go/chaincode/constract.go:306-324 | returns the NFT record stored under the token's decimal key, and fails exactly when there is none |
| `Chaincode.Request` | FI-NFT/chaincode-go/chaincode/constract.go:326-362 | succeeds iff the record exists, the caller (`""` when `GetID` fails) is its owner, and IPFS returns the content; the result is that content; a non-owner gets the "not the owner" error |
| `Chaincode.Decimal` | FI-NFT/chaincode-go/chaincode/constract.go:229 | `%d` rendering: at least one digit, only digits, a leading `0` only for zero, and a single digit below ten |
| `Chaincode.DecimalRoundTrip` | FI-NFT/chaincode-go/chaincode/constract.go:268 | reading the decimal rendering back gives the token id |
| `Chaincode.DecimalInjective` | FI-NFT/chaincode-go/chaincode/constract.go:268-269 | distinct token ids have distinct NFT keys |
| `Chaincode.SingleKey` | FI-NFT/chaincode-go/chaincode/constract.go:99-102 | a one-attribute composite key under the contract's prefixes fails exactly when the attribute holds U+0000 or U+10FFFF |
| `Chaincode.NFTKeyCreated` | FI-NFT/chaincode-go/chaincode/constract.go:268-272 | the key of a token id is always created, so that error branch cannot be taken |
| `Chaincode.UpdateAccountTx` | FI-NFT/chaincode-go/chaincode/constract.go:119-145 | succeeds iff the caller is `Org1MSP` and the account key is valid; a rejected caller fails before any write; on success it returns and writes exactly `{account, balance}` at the account's key |
| `Chaincode.UpdateBidTx` | FI-NFT/chaincode-go/chaincode/constract.go:166-189 | the same authorization and the same single balance write as `UpdateAccount`, with no result value |
| `Chaincode.AddNewNFTTx` | FI-NFT/chaincode-go/chaincode/constract.go:72-94 | always fails with the unmarshal error and writes nothing |
| `Chaincode.MintWithFileTx` | FI-NFT/chaincode-go/chaincode/constract.go:192-256 | a failed IPFS add fails first, with no write; a non-`Org1MSP` caller fails next, with no write; otherwise the record `{decimal id, CID, caller}` is written without looking at the key, and the call still fails with "failed to add new nft to list"; it never succeeds |
| `Chaincode.TransferTx` | FI-NFT/chaincode-go/chaincode/constract.go:258-304 | fails on a failed `GetID`, then on transfer to self (before any lookup), then on an absent token, then with "access denied" for a non-owner; it succeeds iff the caller owns the token and both ids are valid base64; a success writes exactly the token's record with `Owner` replaced, and no other write is ever issued |
| `Chaincode.WithoutLineBreaks` | FI-NFT/chaincode-go/chaincode/constract.go:294-301 | the base64 decoder's input with carriage returns and line feeds skipped: the result holds none, is no longer than the input, and equals an input that has none |
| `Chaincode.LineBreakDropped` | FI-NFT/chaincode-go/chaincode/constract.go:294-301 | a lone carriage return or line feed is dropped entirely |
| `Chaincode.WithoutLineBreaksConcat` | FI-NFT/chaincode-go/chaincode/constract.go:294-301 | the function works piecewise over concatenation; with the identity clause and `LineBreakDropped`, every line break is dropped and every other character kept, in order |
| `Chaincode.Base64IgnoresLineBreaks` | FI-NFT/chaincode-go/chaincode/constract.go:294-301 | a carriage return or line feed anywhere in an identity does not change whether `StdBase64Valid` accepts it, as Go's `StdEncoding.DecodeString` skips them |
| `Chaincode.Base64Accepts` | FI-NFT/chaincode-go/chaincode/constract.go:294-301 | `StdBase64Valid` accepts `""`, `AB==` and `AB=` + LF + `=` |
| `Chaincode.Base64RefusesShape` | FI-NFT/chaincode-go/chaincode/constract.go:294-301 | `StdBase64Valid` refuses a partial quantum `AB` and early padding `A===` |
| `Chaincode.Base64RefusesPadding` | FI-NFT/chaincode-go/chaincode/constract.go:294-301 | `StdBase64Valid` refuses `AB=x` and a padding-only quantum `====` |
| `Chaincode.Commit` | FI-NFT/chaincode-go/chaincode/constract.go:286-301 | a failed call leaves the state as it was; a successful one adds exactly its writes and keeps every other key |
| `Chaincode.StoredRecordsDecode` | FI-NFT/chaincode-go/chaincode/constract.go:111-115 | in a consistent state a present NFT, balance or non-empty-id bid record decodes as its reader expects, and the list slot holds a list |
| `Chaincode.CommitPreservesConsistent` | FI-NFT/chaincode-go/chaincode/constract.go:135-139 | committing writes that sit at their own keys keeps every record at its own key |
| `Chaincode.Ledger.UpdateAccount` | FI-NFT/chaincode-go/chaincode/constract.go:119-145 | runs `UpdateAccount` step by step with buffered writes; its result and writes are `UpdateAccountTx`'s, and the new state is their commit |
| `Chaincode.Ledger.UpdateBid` | FI-NFT/chaincode-go/chaincode/constract.go:166-189 | runs `UpdateBid` step by step; result, writes and new state as `UpdateBidTx` and its commit |
| `Chaincode.Ledger.AddNewNFT` | FI-NFT/chaincode-go/chaincode/constract.go:72-94 | adds `addNewNFT`'s writes to the caller's pending writes and returns its result, as `AddNewNFTTx` |
| `Chaincode.Ledger.MintWithFile` | FI-NFT/chaincode-go/chaincode/constract.go:192-256 | runs `MintWithFile` step by step; result, writes and new state as `MintWithFileTx` and its commit (so the state never changes) |
| `Chaincode.Ledger.Transfer` | FI-NFT/chaincode-go/chaincode/constract.go:258-304 | runs `Transfer` step by step, mutating the record's owner; result, writes and new state as `TransferTx` and its commit |
| `LedgerProperties.UpdateThenGetAccount` | FI-NFT/chaincode-go/chaincode/constract.go:98-145 | after an accepted `UpdateAccount(a, b)`, `GetAccount(a)` returns `{a, b}` |
| `LedgerProperties.UpdateAccountLastWriteWins` | FI-NFT/chaincode-go/chaincode/constract.go:126-139 | of two updates of one account the later wins, so repeating an update is idempotent |
| `LedgerProperties.UpdateBidActsAsUpdateAccount` | FI-NFT/chaincode-go/chaincode/constract.go:166-189 | `UpdateBid` succeeds when `UpdateAccount` does, issues the same writes and reaches the same state, and the bid table is untouched |
| `LedgerProperties.TransferChangesOnlyOwner` | FI-NFT/chaincode-go/chaincode/constract.go:282-290 | after an accepted transfer the token keeps `ID` and `CID` and has the recipient as `Owner`; every other key and every other token is unchanged |
| `LedgerProperties.NonOwnerCannotTransfer` | FI-NFT/chaincode-go/chaincode/constract.go:282-284 | a caller who is not the owner fails and the state is unchanged |
| `LedgerProperties.TransferAndBack` | FI-NFT/chaincode-go/chaincode/constract.go:258-304 | transferring from A to B and back from B to A both succeed and restore the original state |
| `LedgerProperties.FormerOwnerLosesAccess` | FI-NFT/chaincode-go/chaincode/constract.go:282-285 | after handing a token over, the former owner gets "access denied" on a transfer and the not-owner error on `Request` |
| `LedgerProperties.GetBidOfEmptyIdReadsIdList` | FI-NFT/chaincode-go/chaincode/constract.go:148-164 | `GetBid("")` reads the id-list slot and fails on it |
| `LedgerProperties.ExecutePreservesConsistent` | FI-NFT/chaincode-go/chaincode/constract.go:119-304 | no transaction breaks the state invariant |
| `LedgerProperties.BalancesNeedAdmin` | FI-NFT/chaincode-go/chaincode/constract.go:367-378 | when the balance table changes, the caller was `Org1MSP` and the call was `UpdateAccount` or `UpdateBid` |
| `LedgerProperties.BidTableNeverChanges` | FI-NFT/chaincode-go/chaincode/constract.go:166-189 | no transaction changes the bid table |
| `LedgerProperties.TokenChangesOnlyByOwner` | FI-NFT/chaincode-go/chaincode/constract.go:258-290 | a stored token's record changes only through a `Transfer` of that token by its owner, and only in `Owner` |
| `LedgerProperties.NoTokenIsCreated` | FI-NFT/chaincode-go/chaincode/constract.go:244-253 | no transaction adds a key to the NFT table |
| `LedgerProperties.RunFromEmpty` | FI-NFT/chaincode-go/chaincode/constract.go:192-256 | every run from an empty, consistent state keeps the invariant and holds no token |
| `LedgerProperties.NoTokenEverReachable` | FI-NFT/chaincode-go/chaincode/constract.go:306-347 | in every state reachable from the empty namespace, `Query`, `Transfer` and `Request` fail for every id |
| `MintFix.UnmarshalIds` | FI-NFT/chaincode-go/chaincode/constract.go:81-85 | decoding through a pointer succeeds exactly on a stored id list and yields it |
| `MintFix.GetAllNFTFixed` | FI-NFT/chaincode-go/chaincode/constract.go:54-70 | an absent list reads as empty; a stored one is decoded |
| `MintFix.AddNewNFTFixed` | FI-NFT/chaincode-go/chaincode/constract.go:72-94 | appends the id to the decoded list and writes only the list slot |
| `MintFix.MintWithFileFixed` | FI-NFT/chaincode-go/chaincode/constract.go:192-256 | succeeds iff the file is stored, the caller is `Org1MSP` with an id, and the list decodes; it returns the CID |
| `MintFix.MintThenQuery` | FI-NFT/chaincode-go/chaincode/constract.go:229-253 | after an accepted fixed mint, `Query` returns `{decimal id, CID, caller}`, the id list ends with the id, and the owner's `Request` returns the file |
| `MintFix.MintFixedPreservesConsistent` | FI-NFT/chaincode-go/chaincode/constract.go:229-253 | the fixed mint keeps the state invariant |
| `QueryString.IndexOf` | web/Server/api.js:17 | `indexOf`: -1 exactly when the character is absent, otherwise the index of its first occurrence |
| `QueryString.Split` | web/Server/api.js:19 | `split('&')` yields at least one piece, the empty text included |
| `QueryString.SplitSeparated` | web/Server/api.js:19 | no piece of a split holds the separator |
| `QueryString.SplitAt` | web/Server/api.js:19 | the first piece ends at the first separator and the rest is the split of what follows it |
| `QueryString.BeforeFirst` | web/Server/api.js:17 | the text before the first occurrence holds no occurrence |
| `QueryString.JoinSplit` | web/Server/api.js:19 | joining the pieces of a split gives back the text |
| `QueryString.SplitJoin` | web/Server/api.js:19 | splitting separator-free pieces that were joined gives back the pieces |
| `QueryString.IndexOfAfter` | web/Server/api.js:17 | the first occurrence in `a + [c] + b` is at `\|a\|` when `a` lacks `c` |
| `QueryString.Pair` | web/Server/api.js:21-23 | a segment is kept iff it holds an `=` and does not start with one; the key is non-empty, holds no `=`, and key `=` value is the segment |
| `QueryString.PairOfEncoded` | web/Server/api.js:21-23 | `key=value` with a non-empty `=`-free key parses back to exactly that key and value |
| `QueryString.US` | web/Server/api.js:15-27 | the loop builds exactly the map that storing the segments in order builds |
| `QueryString.CollectSnoc` | web/Server/api.js:20-25 | one loop round stores segment `i` into the map of the segments before it |
| `QueryString.StoreKeys` | web/Server/api.js:21-24 | storing a segment adds exactly the key it carries and keeps the others |
| `QueryString.CollectKeys` | web/Server/api.js:20-24 | a key is in the map iff some segment carries it |
| `QueryString.CollectLastWins` | web/Server/api.js:20-23 | a key maps to the value of the last segment that carries it |
| `QueryString.LastWithKey` | web/Server/api.js:20-23 | finds the last segment at or after a given one that carries a key |
| `QueryString.QueryWellFormed` | web/Server/api.js:21-24 | every result key is non-empty and holds no `=` and no `&`; no value holds `&` |
| `QueryString.IgnoresTextBeforeQuestion` | web/Server/api.js:17-18 | only the text after the first `?` is parsed |
| `QueryString.WholeStringWithoutQuestion` | web/Server/api.js:17-18 | without a `?` the whole string is parsed |
| `QueryString.Segments` | web/Server/api.js:20-23 | each pair is rendered as the segment `key=value` |
| `QueryString.SegmentsParse` | web/Server/api.js:21-23 | each rendered segment parses back to its pair |
| `QueryString.SegmentsSeparated` | web/Server/api.js:19 | no rendered segment of carriable pairs holds `&` |
| `QueryString.SegmentsSplit` | web/Server/api.js:19 | splitting the `&`-joined segments of carriable pairs gives back the segments |
| `QueryString.AfterQuestionOfEncode` | web/Server/api.js:17-18 | the text after the leading `?` of an encoded query is its joined segments |
| `QueryString.EmptyQuery` | web/Server/api.js:19-25 | an empty query splits into one empty segment, which is not a pair, so the map is empty |
| `QueryString.EncodedSegments` | web/Server/api.js:15-27 | parsing `?` followed by the `&`-joined segments stores those segments in order |
| `QueryString.KeysOfSegments` | web/Server/api.js:20-24 | a key is stored from the segments of carriable pairs iff some pair has it |
| `QueryString.LastOfSegments` | web/Server/api.js:20-23 | the last pair with a key gives the value stored for it |
| `QueryString.QueryRoundTrip` | web/Server/api.js:15-27 | for pairs with non-empty keys free of `=` and `&` and values free of `&`, parsing their query string yields exactly their keys, each mapped to the value of its last occurrence |

## Left out

- `web/Server/fabric.js` is not part of this model. It is gateway plumbing: connections, wallets,
  enrolment, and routing between the two organisations' profiles.
- The Express route handlers in `web/Server/api.js` are not part of this model: routing, uploads,
  file renaming and status codes.
- `FI-NFT/chaincode-go/fi-nft.go` is not part of this model. It only starts the chaincode.
- JSON marshalling is not modelled; records are stored as values. Two unmarshal failures are
  kept:
  - an absent record fails;
  - a slice passed by value fails.
  A stored record of another kind also reads as an unmarshal failure. Go's decoder would
  instead zero-fill the missing fields of a JSON object. The contract never stores such a record
  (`Consistent`), so this only concerns states the contract cannot produce:
  `Chaincode.StoredRecordsDecode` proves that in a consistent state every present record decodes
  as the kind its reader expects.
- Chaincode.UnmarshalIdsByValue: `json.Unmarshal` into a by-value slice (constract.go:64 and
  constract.go:82) is modelled as always failing. This follows Go's documented decoder, which
  rejects empty input and any destination that is not a non-nil pointer; it is assumed here, not
  proved.
- `json.Marshal` of these structs cannot fail, so its error branches are not modelled.
- Peer failures of `GetState` and `PutState` are not modelled. The shim's `PutState` refuses an
  empty key, which a composite key never is, and otherwise forwards the write to the peer and
  returns any error the peer reports. The model takes every such call to succeed.
- The composite-key encoding is modelled as the pair (object type, attributes). The shim's
  refusal of U+0000 and U+10FFFF is modelled. Its refusal of invalid UTF-8 is not: strings here
  are sequences of characters.
- IPFS `Add` and `Cat` are the two functions of `Ipfs`, and a network failure is `None`. Reading
  the `Cat` stream is taken to return the whole content; its read error is ignored in the source.
- `Add` stores the file in IPFS before the authorization check (constract.go:213-223) and
  outside the transaction, so the file stays stored after a rejected or failed `MintWithFile`.
  `Ipfs` has no state and does not capture this.
- Base64 decoding in `Transfer` is modelled only as the validity of the input
  (`StdBase64Valid`). The decoded text is only logged.
- `fmt.Printf` logging, Fabric's MVCC validation, and concurrency between transactions are left
  out.
- JavaScript strings are UTF-16 code units, while the parser here works on characters. This
  makes no difference for the separators `?`, `&` and `=`.

## Findings

| source | as written | input that shows it | evidently intended | confidence | as-written member | corrected member |
|---|---|---|---|---|---|---|
| FI-NFT/chaincode-go/chaincode/constract.go:81-85 | `addNewNFT` decodes the id list with `json.Unmarshal(jvalue, value)`, where `value` is a `[]string` passed by value. Go rejects such a destination, and also rejects the empty input of a list never stored. So `addNewNFT` always fails, and `MintWithFile` always returns "failed to add new nft to list", which discards its NFT write | `MintWithFile(1, "x")` by an `Org1MSP` caller with an id, the file stored by IPFS | decode into `&value`, read an absent list as empty, append the id, and commit the mint | high (Go's `json.Unmarshal` documents the pointer requirement); not executed | `Chaincode.MintWithFileTx` | `MintFix.MintThenQuery` |
| FI-NFT/chaincode-go/chaincode/constract.go:63-67 | `GetAllNFT` decodes the same way and so always fails | `GetAllNFT` on any state | return the stored list, or an empty one when none is stored | high; not executed | `Chaincode.GetAllNFT` | `MintFix.GetAllNFTFixed` |

The contract model in `Chaincode` keeps the code as written, because that is what the peer runs.
Its consequence is proved in `LedgerProperties.NoTokenEverReachable`: starting from the empty
namespace, no token is ever stored, so `Query`, `Transfer` and `Request` always fail. The
corrected id-list handling lives in `MintFix`, together with its proved properties.
