/**
 * An abstract view of the deployed song-marketplace contract and of the
 * wallet, as the pages observe them through read calls. Every read can fail
 * (an RPC error, a revert, an argument the ABI encoder refuses); a failed read
 * is an absent value here, so the pages' error paths can be stated.
 */
module Ledger {
  import opened Wrappers

  /** An account address as the wallet hands it out. JavaScript's `null` and
      `undefined` (no account) are modelled as the empty address. */
  type Address = string

  /** A price in the ledger's smallest unit (wei). */
  type Wei = nat

  /** The tuple `getSongDetails(id)` returns: fields 0 to 5 in order. */
  datatype SongDetails = SongDetails(
    title: string,
    price: Wei,
    ipfsHash: string,
    artist: Address,
    contributors: seq<Address>,
    splits: seq<nat>)

  /**
   * What the contract answers to each read. `nextSongId` is None when that call
   * fails; an id missing from `details` is a `getSongDetails` call that fails;
   * a pair missing from `purchases` is a `verifyPurchase` call that fails.
   */
  datatype Ledger = Ledger(
    nextSongId: Option<nat>,
    details: map<nat, SongDetails>,
    purchases: map<(nat, Address), bool>)

  function NextSongId(l: Ledger): (r: Option<nat>)
    ensures r.None? <==> l.nextSongId.None?
    ensures r.Some? ==> r.value == l.nextSongId.value
  {
    l.nextSongId
  }

  function GetSongDetails(l: Ledger, id: nat): (r: Option<SongDetails>)
    ensures r.Some? <==> id in l.details
    ensures r.Some? ==> r.value == l.details[id]
  {
    if id in l.details then Some(l.details[id]) else None
  }

  /** A missing account cannot be ABI-encoded, so that call always fails. */
  function VerifyPurchase(l: Ledger, id: nat, who: Address): (r: Option<bool>)
    ensures r.Some? <==> who != "" && (id, who) in l.purchases
    ensures r.Some? ==> r.value == l.purchases[(id, who)]
  {
    if who != "" && (id, who) in l.purchases then Some(l.purchases[(id, who)]) else None
  }

  /** `accounts[0]`, which is `undefined` for an empty account list. */
  function FirstAccount(accounts: seq<Address>): (a: Address)
    ensures |accounts| > 0 ==> a == accounts[0]
    ensures |accounts| == 0 ==> a == ""
  {
    if |accounts| == 0 then "" else accounts[0]
  }

  /** Number of ids `1 .. next - 1` that the enumeration loops visit. */
  function IdCount(next: nat): nat
  {
    if next <= 1 then 0 else next - 1
  }
}
