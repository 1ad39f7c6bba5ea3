/**
 * The buyer dashboard: it walks every song id `1 .. nextSongId - 1` in
 * ascending order, keeps the ids the account has bought (as `verifyPurchase`
 * reports) and reads the details of each kept id. `init` shows a spinner
 * until that finishes, and an error message instead of the list if a read
 * fails.
 */
module BuyerDashboard {
  import opened Wrappers
  import opened Ledger
  import Download

  /** One row of the purchased-songs table. */
  datatype PurchasedRow = PurchasedRow(
    id: nat,
    title: string,
    price: Wei,
    ipfsHash: string,
    artist: Address)

  /** The row built for song `id` from fields 0 to 3 of its details. */
  function PurchasedRowOf(id: nat, d: SongDetails): (r: PurchasedRow)
    ensures r.id == id && r.title == d.title && r.price == d.price
    ensures r.ipfsHash == d.ipfsHash && r.artist == d.artist
  {
    PurchasedRow(id, d.title, d.price, d.ipfsHash, d.artist)
  }

  const LoadError: string := "Failed to load purchased songs."

  /** The ledger reports that `who` bought song `id`. */
  ghost predicate Bought(l: Ledger, who: Address, id: nat)
  {
    VerifyPurchase(l, id, who) == Some(true)
  }

  /** Every read `fetchPurchasedSongs` issues succeeds: the purchase check of
      each id in range, and the details of each id that was bought. */
  ghost predicate PurchasesReadable(l: Ledger, who: Address)
  {
    && l.nextSongId.Some?
    && forall i :: 1 <= i < l.nextSongId.value ==>
         VerifyPurchase(l, i, who).Some? && (Bought(l, who, i) ==> i in l.details)
  }

  /** The ids of `rows`, in order. */
  function Ids(rows: seq<PurchasedRow>): (r: seq<nat>)
    ensures |r| == |rows|
    ensures forall k :: 0 <= k < |rows| ==> r[k] == rows[k].id
  {
    seq(|rows|, k requires 0 <= k < |rows| => rows[k].id)
  }

  ghost predicate StrictlyAscending(ids: seq<nat>)
  {
    forall j, k :: 0 <= j < k < |ids| ==> ids[j] < ids[k]
  }

  /**
   * `rows` lists exactly the songs `who` bought, in ascending id order, each
   * with its own details: every id is in range and was bought (soundness),
   * every bought id in range is listed (completeness).
   */
  ghost predicate IsPurchasesOf(l: Ledger, who: Address, rows: seq<PurchasedRow>)
    requires PurchasesReadable(l, who)
  {
    && StrictlyAscending(Ids(rows))
    && (forall k :: 0 <= k < |rows| ==>
          && 1 <= rows[k].id < l.nextSongId.value
          && Bought(l, who, rows[k].id)
          && rows[k] == PurchasedRowOf(rows[k].id, l.details[rows[k].id]))
    && (forall i :: 1 <= i < l.nextSongId.value && Bought(l, who, i) ==> i in Ids(rows))
  }

  /** The loop of `fetchPurchasedSongs`: fails as soon as one read fails. */
  method CollectPurchasedSongs(l: Ledger, who: Address) returns (r: Option<seq<PurchasedRow>>)
    ensures r.Some? <==> PurchasesReadable(l, who)
    ensures r.Some? ==> IsPurchasesOf(l, who, r.value)
  {
    var latest := NextSongId(l);
    if latest.None? {
      return None;
    }
    var songs: seq<PurchasedRow> := [];
    var i: nat := 1;
    while i < latest.value
      invariant 1 <= i && (i <= latest.value || i == 1)
      invariant forall j :: 1 <= j < i ==>
        VerifyPurchase(l, j, who).Some? && (Bought(l, who, j) ==> j in l.details)
      invariant StrictlyAscending(Ids(songs))
      invariant forall k :: 0 <= k < |songs| ==>
        && 1 <= songs[k].id < i
        && Bought(l, who, songs[k].id)
        && songs[k] == PurchasedRowOf(songs[k].id, l.details[songs[k].id])
      invariant forall j :: 1 <= j < i && Bought(l, who, j) ==> j in Ids(songs)
    {
      var purchased := VerifyPurchase(l, i, who);
      if purchased.None? {
        return None;
      }
      if purchased.value {
        var songDetails := GetSongDetails(l, i);
        if songDetails.None? {
          return None;
        }
        ghost var before := songs;
        songs := songs + [PurchasedRowOf(i, songDetails.value)];
        assert Ids(songs) == Ids(before) + [i];
      }
      i := i + 1;
    }
    return Some(songs);
  }

  /** Only puts the term `s[0]` in front of the solver, for the impossible
      branch of AscendingSameMembers. */
  lemma HeadIsMember(s: seq<nat>)
    ensures |s| > 0 ==> s[0] in s
  {
  }

  /** Two strictly ascending id lists with the same members are equal. */
  lemma {:induction false} AscendingSameMembers(a: seq<nat>, b: seq<nat>)
    requires StrictlyAscending(a) && StrictlyAscending(b)
    requires forall x :: x in a <==> x in b
    ensures a == b
    decreases |a|
  {
    if |a| == 0 || |b| == 0 {
      if |a| != |b| {
        HeadIsMember(a);
        HeadIsMember(b);
        assert false;
      }
    } else {
      assert a[0] in b;
      assert b[0] in a;
      var a', b' := a[1..], b[1..];
      forall x ensures x in a' <==> x in b' {
        if x in a' {
          assert x in b && x != b[0];
        }
        if x in b' {
          assert x in a && x != a[0];
        }
      }
      AscendingSameMembers(a', b');
      assert a == [a[0]] + a' && b == [b[0]] + b';
    }
  }

  /** The purchase list is determined by the ledger: any two agree. */
  lemma PurchasesUnique(l: Ledger, who: Address, a: seq<PurchasedRow>, b: seq<PurchasedRow>)
    requires PurchasesReadable(l, who)
    requires IsPurchasesOf(l, who, a) && IsPurchasesOf(l, who, b)
    ensures a == b
  {
    AscendingSameMembers(Ids(a), Ids(b));
  }

  /**
   * Two songs on the ledger, the account bought only the first: the list the
   * dashboard shows is exactly that one song.
   */
  lemma OnlyBoughtSongListed(who: Address, d1: SongDetails, d2: SongDetails)
    requires who != ""
    ensures var l := Ledger(Some(3), map[1 := d1, 2 := d2], map[(1, who) := true, (2, who) := false]);
      PurchasesReadable(l, who) && IsPurchasesOf(l, who, [PurchasedRowOf(1, d1)])
  {
    var l := Ledger(Some(3), map[1 := d1, 2 := d2], map[(1, who) := true, (2, who) := false]);
    assert !Bought(l, who, 2);
    assert Ids([PurchasedRowOf(1, d1)]) == [1];
  }

  /** What the page shows: a spinner while loading, then the error if there is one. */
  datatype Screen = Spinner | ErrorAlert(message: string) | Table(rows: seq<PurchasedRow>)

  class BuyerDashboardPage {
    var account: Address
    var purchasedSongs: seq<PurchasedRow>
    var loading: bool
    var error: string

    constructor ()
      ensures account == "" && purchasedSongs == [] && loading && error == ""
    {
      account, purchasedSongs, loading, error := "", [], true, "";
    }

    function View(): (s: Screen)
      reads this
      ensures s == Spinner <==> loading
      ensures s.ErrorAlert? <==> !loading && error != ""
      ensures s.ErrorAlert? ==> s.message == error
      ensures s.Table? ==> s.rows == purchasedSongs
    {
      if loading then Spinner
      else if error != "" then ErrorAlert(error)
      else Table(purchasedSongs)
    }

    /**
     * `init`. Without provider or contract nothing is read. A failed
     * `getAccounts` or a failed read sets the error message and keeps the
     * list; success replaces the list with the account's purchases. Loading
     * ends on every path.
     */
    method Init(hasWeb3: bool, hasContract: bool, accounts: Option<seq<Address>>, l: Ledger)
      modifies this
      ensures !loading
      ensures !(hasWeb3 && hasContract) ==>
        account == old(account) && purchasedSongs == old(purchasedSongs) && error == old(error)
      ensures hasWeb3 && hasContract && accounts.None? ==>
        account == old(account) && purchasedSongs == old(purchasedSongs) && error == LoadError
      ensures hasWeb3 && hasContract && accounts.Some? ==>
        account == FirstAccount(accounts.value)
      ensures hasWeb3 && hasContract && accounts.Some? && !PurchasesReadable(l, account) ==>
        purchasedSongs == old(purchasedSongs) && error == LoadError
      ensures hasWeb3 && hasContract && accounts.Some? && PurchasesReadable(l, account) ==>
        IsPurchasesOf(l, account, purchasedSongs) && error == old(error)
    {
      if hasWeb3 && hasContract {
        if accounts.None? {
          error := LoadError;
        } else {
          account := FirstAccount(accounts.value);
          var allSongs := CollectPurchasedSongs(l, account);
          if allSongs.None? {
            error := LoadError;
          } else {
            purchasedSongs := allSongs.value;
          }
        }
      }
      loading := false;
    }

    /** `handleDownload(ipfsHash, title)` for a row of the table. */
    method HandleDownload(row: PurchasedRow) returns (link: Option<Download.Link>)
      ensures link.None? <==> row.ipfsHash == ""
      ensures link.Some? ==> Download.HashOfUrl(link.value.url) == Some(row.ipfsHash)
      ensures link.Some? ==> Download.TitleOfFilename(link.value.filename) == Some(row.title)
    {
      link := Download.DownloadLink(row.ipfsHash, row.title);
    }
  }
}
