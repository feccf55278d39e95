/** `addNewNFT`, `GetAllNFT` and `MintWithFile` as their code evidently
    intends them: the id list is decoded through a pointer, and an id list
    that was never stored reads as the empty list. The contract model in
    `Chaincode` keeps the code as written, under which no mint succeeds. */
module MintFix {
  import opened Results
  import opened Chaincode

  /** `json.Unmarshal(jvalue, &value)` into a `[]string`. */
  function UnmarshalIds(stored: Option<Value>): (r: Result<seq<string>, Error>)
    ensures r.Ok? <==> stored.Some? && stored.value.TokenList?
    ensures r.Ok? ==> r.value == stored.value.ids
  {
    match stored
    case Some(TokenList(ids)) => Ok(ids)
    case _ => Err(UnmarshalFailed)
  }

  /** The id list as the fixed code reads it: absent means empty. */
  function GetAllNFTFixed(s: WorldState): (r: Result<seq<string>, Error>)
    ensures ListKey() !in s ==> r == Ok([])
    ensures ListKey() in s ==> r == UnmarshalIds(Some(s[ListKey()]))
  {
    if ListKey() !in s then Ok([]) else UnmarshalIds(GetState(s, ListKey()))
  }

  /** `addNewNFT` fixed: append the id to the list, or start the list. */
  function AddNewNFTFixed(s: WorldState, tokenId: string): (t: Tx<()>)
    ensures t.result.Ok? <==> GetAllNFTFixed(s).Ok?
    ensures t.result.Ok? ==> t.writes == map[ListKey() := TokenList(GetAllNFTFixed(s).value + [tokenId])]
    ensures t.result.Err? ==> t.writes == map[]
  {
    match GetAllNFTFixed(s)
    case Err(e) => Tx(Err(e), map[])
    case Ok(ids) => Tx(Ok(()), map[ListKey() := TokenList(ids + [tokenId])])
  }

  /** `MintWithFile` over the fixed `addNewNFT`; every other step as written. */
  function MintWithFileFixed(s: WorldState, c: Client, id: uint64, file: string, ipfs: Ipfs): (t: Tx<string>)
    ensures t.result.Ok? <==> (ipfs.add(file).Some? && c.mspId == Some(AdminMSPID) && c.id.Some?
                               && GetAllNFTFixed(s).Ok?)
    ensures t.result.Ok? ==> t.result.value == ipfs.add(file).value
  {
    match ipfs.add(file)
    case None => Tx(Err(AddFileFailed), map[])
    case Some(cid) =>
      match Authorization(c)
      case Err(e) => Tx(Err(e), map[])
      case Ok(_) =>
        match c.id
        case None => Tx(Err(ClientIdUnavailable), map[])
        case Some(operator) =>
          var key := Decimal(id);
          var writes := map[NFTKey(id) := NFTValue(NFT(key, cid, operator))];
          var added := AddNewNFTFixed(s, key);
          if added.result.Err? then Tx(Err(AddNewNFTFailed(added.result.error)), writes + added.writes)
          else Tx(Ok(cid), writes + added.writes)
  }

  /** After an accepted fixed mint the token is recorded with the caller as
      owner, its id ends the id list, and the owner reads back the file
      from a content store that returns what was added. */
  lemma MintThenQuery(s: WorldState, c: Client, id: uint64, file: string, ipfs: Ipfs)
    requires MintWithFileFixed(s, c, id, file, ipfs).result.Ok?
    ensures var s' := Commit(s, MintWithFileFixed(s, c, id, file, ipfs));
            var cid := ipfs.add(file).value;
            && Query(s', id) == Ok(NFT(Decimal(id), cid, c.id.value))
            && GetAllNFTFixed(s') == Ok(GetAllNFTFixed(s).value + [Decimal(id)])
            && (ipfs.cat(cid) == Some(file) ==> Request(s', c, id, ipfs) == Ok(file))
  {
    assert NFTKey(id) != ListKey();
  }

  /** The fixed mint keeps the state's invariant. */
  lemma MintFixedPreservesConsistent(s: WorldState, c: Client, id: uint64, file: string, ipfs: Ipfs)
    requires Consistent(s)
    ensures Consistent(Commit(s, MintWithFileFixed(s, c, id, file, ipfs)))
  {
  }
}
