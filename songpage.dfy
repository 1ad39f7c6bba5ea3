/**
 * The song details page for one song id: it loads the song record and the
 * account's purchase flag, offers Buy until the song is bought and the
 * buyer dashboard afterwards, and sets the flag only once the purchase
 * transaction has gone through.
 */
module SongPage {
  import opened Wrappers
  import opened Ledger
  import Text
  import Download

  /** The record the page shows; the two lists are rendered as text. */
  datatype SongRecord = SongRecord(
    id: nat,
    title: string,
    price: Wei,
    ipfsHash: string,
    artist: Address,
    contributors: string,
    splits: string)

  /** The record built for song `id` from its details tuple. */
  function RecordOf(id: nat, d: SongDetails): (r: SongRecord)
    ensures r.id == id && r.title == d.title && r.price == d.price
    ensures r.ipfsHash == d.ipfsHash && r.artist == d.artist
  {
    SongRecord(id, d.title, d.price, d.ipfsHash, d.artist,
      Text.Join(d.contributors, Text.Separator),
      Text.Join(Text.Decimals(d.splits), Text.Separator))
  }

  /**
   * The record shows fields 0 to 3 of the details and both lists joined
   * with ", " in order, so that a non-empty list of comma-free addresses and
   * a non-empty split list can be read back from it.
   */
  lemma RecordOfShowsDetails(id: nat, d: SongDetails)
    ensures RecordOf(id, d).id == id && RecordOf(id, d).title == d.title
    ensures RecordOf(id, d).price == d.price && RecordOf(id, d).ipfsHash == d.ipfsHash
    ensures RecordOf(id, d).artist == d.artist
    ensures |d.contributors| > 0 && Text.FreeOf(d.contributors, ',') ==>
      Text.Split(RecordOf(id, d).contributors, Text.Separator) == d.contributors
    ensures |d.splits| > 0 ==>
      Text.Values(Text.Split(RecordOf(id, d).splits, Text.Separator)) == d.splits
  {
    if |d.contributors| > 0 && Text.FreeOf(d.contributors, ',') {
      Text.JoinedListRecoverable(d.contributors);
    }
    if |d.splits| > 0 {
      Text.JoinedNumbersRecoverable(d.splits);
    }
  }

  const LoadError: string := "Failed to load song data."

  /** The transaction `purchaseSong(id).send({from: account, ...})` asks for. */
  datatype PurchaseRequest = PurchaseRequest(songId: nat, from: Address)

  /** How `handleDownload` ends: thrown out of the handler, or returned with
      the link it would create (none when the hash is missing). */
  datatype DownloadOutcome = Threw | Done(link: Option<Download.Link>)

  /** The button under the song card. */
  datatype Action = BuyNow | OpenBuyerDashboard

  /**
   * What the page shows: a spinner while loading, then the error if there is
   * one, then the song card. `Crashed` is the render reading `song.title`
   * while no record is loaded: a TypeError that unmounts the app (there is no error boundary).
   */
  datatype Screen = Spinner | ErrorAlert(message: string) | Crashed | Card(song: SongRecord, action: Action)

  class SongDetailsPage {
    const id: nat
    var account: Address
    var song: Option<SongRecord>
    var loading: bool
    var error: string
    var purchased: bool

    constructor (id: nat)
      ensures this.id == id
      ensures account == "" && song == None && loading && error == "" && !purchased
    {
      this.id := id;
      account, song, loading, error, purchased := "", None, true, "", false;
    }

    /** Buy until the song is bought, then the way to the buyer dashboard. */
    function CurrentAction(): (a: Action)
      reads this
      ensures a == OpenBuyerDashboard <==> purchased
    {
      if purchased then OpenBuyerDashboard else BuyNow
    }

    function View(): (s: Screen)
      reads this
      ensures s == Spinner <==> loading
      ensures s.ErrorAlert? <==> !loading && error != ""
      ensures s.ErrorAlert? ==> s.message == error
      ensures s == Crashed <==> !loading && error == "" && song.None?
      ensures s.Card? ==> song == Some(s.song) && s.action == CurrentAction()
    {
      if loading then Spinner
      else if error != "" then ErrorAlert(error)
      else if song.None? then Crashed
      else Card(song.value, CurrentAction())
    }

    /**
     * `init`. Without provider or contract nothing is read. Otherwise the
     * account becomes `accounts[0]`; when both the details read and the
     * purchase check succeed the record and the flag are set from them,
     * and when either fails the error message is set and both are kept.
     * Loading ends on every path.
     */
    method Init(hasWeb3: bool, hasContract: bool, accounts: Option<seq<Address>>, l: Ledger)
      modifies this`account, this`song, this`loading, this`error, this`purchased
      ensures !loading
      ensures !(hasWeb3 && hasContract) ==>
        account == old(account) && song == old(song) && purchased == old(purchased) && error == old(error)
      ensures hasWeb3 && hasContract && accounts.None? ==>
        account == old(account) && song == old(song) && purchased == old(purchased) && error == LoadError
      ensures hasWeb3 && hasContract && accounts.Some? ==> account == FirstAccount(accounts.value)
      ensures (hasWeb3 && hasContract && accounts.Some? &&
               (id !in l.details || VerifyPurchase(l, id, account).None?)) ==>
        song == old(song) && purchased == old(purchased) && error == LoadError
      ensures (hasWeb3 && hasContract && accounts.Some? &&
               id in l.details && VerifyPurchase(l, id, account).Some?) ==>
        && song == Some(RecordOf(id, l.details[id]))
        && purchased == VerifyPurchase(l, id, account).value
        && error == old(error)
    {
      if hasWeb3 && hasContract {
        if accounts.None? {
          error := LoadError;
        } else {
          account := FirstAccount(accounts.value);
          var details := GetSongDetails(l, id);
          if details.None? {
            error := LoadError;
          } else {
            var hasPurchased := VerifyPurchase(l, id, account);
            if hasPurchased.None? {
              error := LoadError;
            } else {
              song := Some(RecordOf(id, details.value));
              purchased := hasPurchased.value;
            }
          }
        }
      }
      loading := false;
    }

    /**
     * `handleBuy`. Without a loaded record no transaction is sent. Otherwise
     * the purchase of this song from the page's account is sent, and the
     * flag becomes true only if `sendSucceeds` (the transaction resolved);
     * a failed send leaves it as it was.
     */
    method HandleBuy(sendSucceeds: bool) returns (request: Option<PurchaseRequest>)
      modifies this`purchased
      ensures request.Some? <==> song.Some?
      ensures request.Some? ==> request.value == PurchaseRequest(id, account)
      ensures purchased == (old(purchased) || (song.Some? && sendSucceeds))
      ensures song.Some? && sendSucceeds ==> CurrentAction() == OpenBuyerDashboard
    {
      if song.None? {
        return None;
      }
      request := Some(PurchaseRequest(id, account));
      if sendSucceeds {
        purchased := true;
      }
    }

    /**
     * `handleDownload`. With no record loaded, reading `song.ipfsHash`
     * throws a TypeError that nothing catches; otherwise the download link
     * of the record, or none when it has no hash.
     */
    method HandleDownload() returns (outcome: DownloadOutcome)
      ensures outcome == Threw <==> song.None?
      ensures outcome.Done? ==> (outcome.link.None? <==> song.value.ipfsHash == "")
      ensures outcome.Done? && outcome.link.Some? ==>
        Download.HashOfUrl(outcome.link.value.url) == Some(song.value.ipfsHash)
      ensures outcome.Done? && outcome.link.Some? ==>
        Download.TitleOfFilename(outcome.link.value.filename) == Some(song.value.title)
    {
      if song.None? {
        return Threw;
      }
      outcome := Done(Download.DownloadLink(song.value.ipfsHash, song.value.title));
    }
  }
}
