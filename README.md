# MyTunes marketplace client: catalog, purchases and contributor editing in Dafny

MyTunes is a React client for a song marketplace contract on an Ethereum
ledger. This project models the parts of its pages that follow sequential
rules once the network is replaced by a value:

- the home page's catalog enumeration (`fetchAllSongs`) and the effect that triggers it;
- the buyer dashboard's filter over purchased songs (`fetchPurchasedSongs`), its
  `init` loading / error handling, and its download guard;
- the artist dashboard's contributor list editor (guarded append, removal via
  `splice`, projection into two parallel arrays for `uploadSong`);
- the song details page: the details-to-record mapping, `init`, the
  `purchased` flag set by `handleBuy`, the Buy / dashboard choice and the download guard;
- the navigation bar's `Connected: 0x1234...abcd` label.

The contract is a `Ledger.Ledger` value: the answer to `nextSongId()` (absent
when the call fails), a map from song id to the details tuple of
`getSongDetails` (an id missing from the map is a failing call), and a map
from (id, account) to the answer of `verifyPurchase` (a missing pair is a
failing call). Every read the pages issue can therefore fail, and the
"state unchanged on error" paths are stated. The wallet's `getAccounts` is
an `Option<seq<Address>>` parameter and the outcome of a purchase
transaction is a `bool` parameter. JavaScript's `null` / `undefined` account
is the empty address `""`.

Each page that keeps React state is a class whose fields are that state; its
methods are the page's handlers and effects and state the whole new state.
The loops are methods without side effects (`Home.CollectAllSongs`,
`BuyerDashboard.CollectPurchasedSongs`) proved against predicates that say
what the list is: complete, in ascending id order, each row built from its
own id's details. The lists rendered with `join(', ')` are proved
recoverable (`Text.SplitJoin`, `Text.DecimalRoundTrip`), and the purchase
list is proved to be determined by the ledger (`BuyerDashboard.PurchasesUnique`).

The code does not exclude songs with an empty IPFS hash from the catalog,
does not check that splits sum to at most 100, does not compare the offered
value with the price before sending, does not refuse a second purchase while
one is in flight, and reads songs one at a time without retry, concurrency
bound or request coalescing; the model has none of these either.

A consequence of the code that the model makes visible: neither `init`
clears `error` on success, so a page whose first load failed keeps showing
the error even after a later successful load (`BuyerDashboardPage.Init` and
`SongDetailsPage.Init` state `error == old(error)` on success).

## Model

| member | source | states |
|---|---|---|
| Home.CollectAllSongs | src/pages/HomePage.jsx:31-45 | succeeds exactly when `nextSongId` and every `getSongDetails(i)` for `1 <= i < nextSongId` succeed; then it holds `nextSongId - 1` rows (none when `nextSongId <= 1`) and row k is the row of song k + 1 |
| Home.CatalogIdsDense | src/pages/HomePage.jsx:34-37 | in a complete catalog row k has id k + 1, so ids start at 1, are dense and strictly ascending |
| Home.RowOf | src/pages/HomePage.jsx:36-43 | a catalog row carries the song's id and details fields 0 (title), 1 (price) and 3 (artist); it has no IPFS hash |
| Home.ShouldFetch | src/pages/HomePage.jsx:24 | true exactly when contract and provider are present and the account is non-empty (truthy) |
| Home.RowOfShowsDetails | src/pages/HomePage.jsx:36-43 | a row carries its id and details fields 0, 1 and 3; contributors and splits are the details lists joined with ", " in order, and a non-empty comma-free address list and a non-empty split list are recovered from the row |
| Home.HomePage.constructor | src/pages/HomePage.jsx:9-10 | the page starts with no account and no songs |
| Home.HomePage.LoadAccount | src/pages/HomePage.jsx:13-21 | with a provider and a successful `getAccounts`, the account becomes `accounts[0]`; otherwise it is unchanged |
| Home.HomePage.FetchAllSongs | src/pages/HomePage.jsx:29-50 | when every read succeeds the song list becomes the complete catalog; when any read fails the song list is unchanged |
| Home.HomePage.OnDependenciesChanged | src/pages/HomePage.jsx:23-27 | a fetch happens only when contract, provider and a non-empty account are all present; otherwise the song list is unchanged |
| BuyerDashboard.CollectPurchasedSongs | src/pages/BuyerDashboardPage.jsx:42-61 | succeeds exactly when `nextSongId`, every `verifyPurchase(i, account)` in range and the details of every bought id succeed; then every listed id is in `[1, nextSongId)` and bought (sound), every bought id in range is listed (complete), ids strictly ascend, and each row is fields 0, 1, 2, 3 of its id's details |
| BuyerDashboard.PurchasedRowOf | src/pages/BuyerDashboardPage.jsx:50-56 | a purchased row carries the song's id and details fields 0 (title), 1 (price), 2 (IPFS hash) and 3 (artist) |
| BuyerDashboard.PurchasesUnique | src/pages/BuyerDashboardPage.jsx:46-57 | two lists that are both sound, complete and ascending for the same ledger and account are equal, so the list is determined by the ledger |
| BuyerDashboard.OnlyBoughtSongListed | src/pages/BuyerDashboardPage.jsx:46-57 | with two songs of which the account bought only the first, the purchase list is that one song |
| BuyerDashboard.BuyerDashboardPage.constructor | src/pages/BuyerDashboardPage.jsx:10-13 | the page starts loading, with no account, no songs and no error |
| BuyerDashboard.BuyerDashboardPage.View | src/pages/BuyerDashboardPage.jsx:78-79 | a spinner exactly while loading, then an alert carrying exactly the `error` text when one is set, otherwise the table of the purchased songs |
| BuyerDashboard.BuyerDashboardPage.Init | src/pages/BuyerDashboardPage.jsx:17-39 | loading is false on every path; without provider or contract nothing else changes; a failed `getAccounts` or read sets `Failed to load purchased songs.` and keeps the list; success sets the account to `accounts[0]` and the list to that account's purchases |
| BuyerDashboard.BuyerDashboardPage.HandleDownload | src/pages/BuyerDashboardPage.jsx:63-76 | no link for a row with an empty hash; otherwise a gateway URL naming the row's hash and a file name carrying its title |
| Download.DownloadLink | src/pages/BuyerDashboardPage.jsx:64-72 | no link exactly when the hash is empty; otherwise the URL is `http://127.0.0.1:8080/ipfs/` followed by exactly the hash and the file name is exactly the title followed by `.mp3` |
| Download.DownloadLinkInjective | src/pages/SongDetailsPage.jsx:68-72 | two songs with hashes get the same link only if hash and title agree |
| ArtistDashboard.SpliceOne | src/pages/ArtistDashboardPage.jsx:19-22 | removing a valid index shortens the list by one, keeps the entries before it and shifts those after it down by one; an index at or past the end removes nothing |
| ArtistDashboard.SpliceOneReversible | src/pages/ArtistDashboardPage.jsx:21 | reinserting the removed entry at its index restores the list, and the removal takes exactly that entry out of the multiset |
| ArtistDashboard.Addresses | src/pages/ArtistDashboardPage.jsx:27 | one address per contributor, entry k from contributor k |
| ArtistDashboard.Splits | src/pages/ArtistDashboardPage.jsx:28 | one split per contributor, entry k from contributor k |
| ArtistDashboard.ProjectionZipsBack | src/pages/ArtistDashboardPage.jsx:27-28 | pairing the two upload arrays element by element gives back the contributor list |
| ArtistDashboard.ArtistDashboardPage.constructor | src/pages/ArtistDashboardPage.jsx:5-9 | all inputs empty and no contributors |
| ArtistDashboard.ArtistDashboardPage.SetContributor | src/pages/ArtistDashboardPage.jsx:75 | the contributor input takes the typed value |
| ArtistDashboard.ArtistDashboardPage.SetSplit | src/pages/ArtistDashboardPage.jsx:83 | the split input takes the typed value |
| ArtistDashboard.ArtistDashboardPage.AddContributor | src/pages/ArtistDashboardPage.jsx:11-17 | with an empty contributor or split field nothing changes; otherwise exactly one entry is appended at the end, earlier entries are unchanged, and both fields are reset; every listed contributor keeps a non-empty address |
| ArtistDashboard.ArtistDashboardPage.RemoveContributor | src/pages/ArtistDashboardPage.jsx:19-23 | the list becomes the copy with `splice(index, 1)` applied, and every listed contributor keeps a non-empty address |
| ArtistDashboard.ArtistDashboardPage.HandleUpload | src/pages/ArtistDashboardPage.jsx:25-34 | address and split arrays whose lengths both equal the contributor count, entry k of each from contributor k |
| SongPage.RecordOf | src/pages/SongDetailsPage.jsx:28-36 | the song record carries the song's id and details fields 0 (title), 1 (price), 2 (IPFS hash) and 3 (artist) |
| SongPage.RecordOfShowsDetails | src/pages/SongDetailsPage.jsx:28-35 | the record carries its id and details fields 0 to 3; contributors and splits are the details lists joined with ", " in order and are recovered when non-empty (and comma-free, for addresses) |
| SongPage.SongDetailsPage.constructor | src/pages/SongDetailsPage.jsx:11-15 | the page starts loading, with no song, no error and `purchased` false |
| SongPage.SongDetailsPage.CurrentAction | src/pages/SongDetailsPage.jsx:90-98 | the buyer dashboard is offered exactly when the song is purchased, Buy otherwise |
| SongPage.SongDetailsPage.View | src/pages/SongDetailsPage.jsx:79-84 | a spinner exactly while loading, then an alert carrying exactly the `error` text when one is set; with no record loaded the render of `song.title` crashes (`Crashed`); otherwise the card of the loaded record with the current action |
| SongPage.SongDetailsPage.Init | src/pages/SongDetailsPage.jsx:17-48 | loading is false on every path; without provider or contract nothing else changes; if `getAccounts`, the details read or `verifyPurchase` fails the error `Failed to load song data.` is set and song and flag are kept; otherwise the record is built from the details and `purchased` is the `verifyPurchase(id, accounts[0])` answer |
| SongPage.SongDetailsPage.HandleBuy | src/pages/SongDetailsPage.jsx:50-65 | without a loaded record nothing is sent; otherwise the purchase of this song from the page's account is sent, and `purchased` becomes true only if the send resolved, else it is unchanged |
| SongPage.SongDetailsPage.HandleDownload | src/pages/SongDetailsPage.jsx:67-77 | throws exactly when no record is loaded (reading `song.ipfsHash` of `null`); otherwise no link exactly when the record's hash is empty, and else a link naming that hash and title |
| NavBar.Label | src/components/NavigationBar.jsx:21 | exactly `Not Connected` when there is no account, and only then; otherwise `Connected: `, the first six characters, `...` and the last four (all of a shorter account) |
| NavBar.Head | src/components/NavigationBar.jsx:21 | `slice(0, n)`: the first n characters, or the whole string when it is shorter |
| NavBar.Tail | src/components/NavigationBar.jsx:21 | `slice(-n)`: the last n characters, or the whole string when it is shorter |
| NavBar.LabelLengthOfAddress | src/components/NavigationBar.jsx:21 | a 42-character address gives a 24-character label |
| NavBar.LabelShowsEnds | src/components/NavigationBar.jsx:21 | two accounts of six or more characters with the same label agree on their first six and last four characters |
| Text.JoinShape | src/pages/HomePage.jsx:41-42 | `Array.prototype.join` (modelled by `Text.Join`): an empty list gives the empty string; otherwise the result starts with the first element, ends with the last, and is as long as all elements plus one separator between each two |
| Text.SplitJoin | src/pages/HomePage.jsx:41-42 | splitting a joined non-empty list whose elements avoid the separator's first character gives back the list, in order |
| Text.JoinEmptyAmbiguous | src/pages/HomePage.jsx:41-42 | an empty list and a list of one empty string are both rendered as the empty string |
| Text.NatToDecimal | src/pages/HomePage.jsx:42 | a split number is rendered as a non-empty string of decimal digits without a leading zero |
| Text.DecimalRoundTrip | src/pages/HomePage.jsx:42 | reading a rendered number back gives the number |
| Text.JoinedListRecoverable | src/pages/HomePage.jsx:41 | a non-empty comma-free address list joined with ", " is recovered by splitting |
| Ledger.NextSongId | src/pages/HomePage.jsx:31 | `nextSongId()` answers the ledger's next id, or fails |
| Ledger.GetSongDetails | src/pages/HomePage.jsx:35 | `getSongDetails(id)` answers that id's details tuple when the ledger has one, and fails otherwise |
| Ledger.VerifyPurchase | src/pages/BuyerDashboardPage.jsx:47 | `verifyPurchase(id, account)` always fails for a missing account (the ABI encoder cannot encode `undefined` as an address), so both `init` handlers reach their error path when the wallet returns no accounts and a purchase check is issued; for a present account it answers the ledger's flag or fails |
| Ledger.FirstAccount | src/pages/BuyerDashboardPage.jsx:24 | `accounts[0]`: the first account, or the missing account for an empty list |
| Text.JoinedNumbersRecoverable | src/pages/HomePage.jsx:42 | a non-empty split list rendered and joined with ", " is recovered by splitting and reading each number |

## Left out

- The three Web3 provider set-ups (src/components/Web3Context.js, components/Web3Context.jsx, src/Web3Context.js): provider and contract construction are wallet and RPC plumbing; the pages receive only whether a provider and a contract are present.
- `eth_requestAccounts`, `getAccounts` and the `accountsChanged` subscription: foreign wallet calls; the account list is a parameter.
- `web3.utils.fromWei` / `toWei`: decimal ether conversion in a library that is not part of this model; rows keep the price as the ledger's integer in wei, and the purchase request carries no value, so no wei round trip is claimed.
- `parseInt` on the split input: the split field is modelled as an already parsed integer (`None` for the empty field); a negative `splice` index is outside the model (indices are `nat`).
- The title and price inputs of the artist dashboard: their change handlers only store text, and `handleUpload` only logs them.
- The route parameter `id` of the song page is a string that the ABI encoder converts; it is modelled as a number.
- DOM link creation and clicking, `alert` and `console` output: browser side effects; the download guard returns the link it would create.
- React rendering beyond the screen choice (`View`, `CurrentAction`), routing (src/App.js), src/pages/WelcomePage.jsx, src/components/Equalizer.jsx and src/pages/TestPage.jsx (a hard-coded `uploadSong` send, a network write).
- Interleaving of asynchronous calls: each effect and handler runs to completion against one ledger value; a stale response arriving after a newer one, and contract writes between two reads of one loop, are not modelled.
- The song page defines `handleDownload` (src/pages/SongDetailsPage.jsx:67-77) but its render attaches it to no element, so the page never calls it; SongPage.SongDetailsPage.HandleDownload models the handler as written.
- The effect of `purchaseSong` on the ledger: the send's outcome is a parameter and the page does not re-read the ledger afterwards.
- Home.RowOfShowsDetails: recovers the lists only when they are non-empty and the addresses are comma-free, because `join(', ')` renders `[]` and `[""]` alike and cannot separate an element that contains the separator (Text.JoinEmptyAmbiguous).
- SongPage.RecordOfShowsDetails: same limitation of `join(', ')` as Home.RowOfShowsDetails.
