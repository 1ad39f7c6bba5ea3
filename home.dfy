/**
 * The home page: when contract, provider and account are all present it
 * enumerates every song id `1 .. nextSongId - 1` in ascending order, reads
 * each song's details and shows one row per song. The song list is replaced
 * only when every read succeeded.
 */
module Home {
  import opened Wrappers
  import opened Ledger
  import Text

  /** One row of the catalog table; the two lists are rendered as text. */
  datatype CatalogRow = CatalogRow(
    id: nat,
    title: string,
    price: Wei,
    artist: Address,
    contributors: string,
    splits: string)

  /** The row built for song `id` from its details tuple. */
  function RowOf(id: nat, d: SongDetails): (r: CatalogRow)
    ensures r.id == id && r.title == d.title && r.price == d.price && r.artist == d.artist
  {
    CatalogRow(id, d.title, d.price, d.artist,
      Text.Join(d.contributors, Text.Separator),
      Text.Join(Text.Decimals(d.splits), Text.Separator))
  }

  /**
   * A row shows fields 0, 1 and 3 of the details and both lists: joined with
   * ", " in order, so that a non-empty list of comma-free addresses and a
   * non-empty split list can be read back from the row.
   */
  lemma RowOfShowsDetails(id: nat, d: SongDetails)
    ensures RowOf(id, d).id == id && RowOf(id, d).title == d.title
    ensures RowOf(id, d).price == d.price && RowOf(id, d).artist == d.artist
    ensures |d.contributors| > 0 && Text.FreeOf(d.contributors, ',') ==>
      Text.Split(RowOf(id, d).contributors, Text.Separator) == d.contributors
    ensures |d.splits| > 0 ==>
      Text.Values(Text.Split(RowOf(id, d).splits, Text.Separator)) == d.splits
  {
    if |d.contributors| > 0 && Text.FreeOf(d.contributors, ',') {
      Text.JoinedListRecoverable(d.contributors);
    }
    if |d.splits| > 0 {
      Text.JoinedNumbersRecoverable(d.splits);
    }
  }

  /** Every read `fetchAllSongs` issues succeeds. */
  ghost predicate CatalogReadable(l: Ledger)
  {
    l.nextSongId.Some? && forall i :: 1 <= i < l.nextSongId.value ==> i in l.details
  }

  /** `rows` is the complete catalog: row k is the row of song k + 1. */
  ghost predicate IsCatalogOf(l: Ledger, rows: seq<CatalogRow>)
    requires CatalogReadable(l)
  {
    && |rows| == IdCount(l.nextSongId.value)
    && forall k :: 0 <= k < |rows| ==> rows[k] == RowOf(k + 1, l.details[k + 1])
  }

  /** The catalog's ids are 1, 2, ... in order: dense, ascending, from 1. */
  lemma CatalogIdsDense(l: Ledger, rows: seq<CatalogRow>)
    requires CatalogReadable(l) && IsCatalogOf(l, rows)
    ensures forall k :: 0 <= k < |rows| ==> rows[k].id == k + 1
    ensures forall j, k :: 0 <= j < k < |rows| ==> rows[j].id < rows[k].id
  {
  }

  /** The loop of `fetchAllSongs`: fails as soon as one read fails. */
  method CollectAllSongs(l: Ledger) returns (r: Option<seq<CatalogRow>>)
    ensures r.Some? <==> CatalogReadable(l)
    ensures r.Some? ==> IsCatalogOf(l, r.value)
  {
    var latest := NextSongId(l);
    if latest.None? {
      return None;
    }
    var allSongs: seq<CatalogRow> := [];
    var i: nat := 1;
    while i < latest.value
      invariant 1 <= i && (i <= latest.value || i == 1)
      invariant |allSongs| == i - 1
      invariant forall j :: 1 <= j < i ==> j in l.details
      invariant forall k :: 0 <= k < |allSongs| ==> allSongs[k] == RowOf(k + 1, l.details[k + 1])
    {
      var song := GetSongDetails(l, i);
      if song.None? {
        return None;
      }
      allSongs := allSongs + [RowOf(i, song.value)];
      i := i + 1;
    }
    return Some(allSongs);
  }

  /** The fetch effect runs only when contract, provider and account are all present. */
  predicate ShouldFetch(hasContract: bool, hasWeb3: bool, account: Address): (r: bool)
    ensures r ==> account != ""
    ensures r <==> hasContract && hasWeb3 && account != ""
  {
    hasContract && hasWeb3 && account != ""
  }

  class HomePage {
    var account: Address
    var songs: seq<CatalogRow>

    constructor ()
      ensures account == "" && songs == []
    {
      account := "";
      songs := [];
    }

    /** The first effect: with a provider, the account becomes `accounts[0]`;
        a failed `getAccounts` leaves it as it was. */
    method LoadAccount(hasWeb3: bool, accounts: Option<seq<Address>>)
      modifies this`account
      ensures account == if hasWeb3 && accounts.Some? then FirstAccount(accounts.value) else old(account)
    {
      if hasWeb3 && accounts.Some? {
        account := FirstAccount(accounts.value);
      }
    }

    /** `fetchAllSongs`: the song list becomes the whole catalog, or stays as
        it was when any read fails. */
    method FetchAllSongs(l: Ledger)
      modifies this`songs
      ensures CatalogReadable(l) ==> IsCatalogOf(l, songs)
      ensures !CatalogReadable(l) ==> songs == old(songs)
    {
      var r := CollectAllSongs(l);
      if r.Some? {
        songs := r.value;
      }
    }

    /** The second effect, run when contract, provider or account change. */
    method OnDependenciesChanged(hasContract: bool, hasWeb3: bool, l: Ledger)
      modifies this`songs
      ensures ShouldFetch(hasContract, hasWeb3, account) && CatalogReadable(l) ==> IsCatalogOf(l, songs)
      ensures !(ShouldFetch(hasContract, hasWeb3, account) && CatalogReadable(l)) ==> songs == old(songs)
    {
      if ShouldFetch(hasContract, hasWeb3, account) {
        FetchAllSongs(l);
      }
    }
  }
}
