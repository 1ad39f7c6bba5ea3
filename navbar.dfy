/**
 * The navigation bar's account label: `Connected: ` followed by the first
 * six characters of the account, `...` and its last four characters, or
 * `Not Connected` when there is no account.
 */
module NavBar {
  import opened Ledger

  const NotConnected: string := "Not Connected"
  const ConnectedPrefix: string := "Connected: "
  const Ellipsis: string := "..."

  /** `s.slice(0, n)` for n >= 0. */
  function Head(s: string, n: nat): (r: string)
    ensures |r| == if n <= |s| then n else |s|
    ensures r == s[..|r|]
  {
    if n <= |s| then s[..n] else s
  }

  /** `s.slice(-n)` for n > 0: the last n characters, or all of a shorter s. */
  function Tail(s: string, n: nat): (r: string)
    ensures |r| == if n <= |s| then n else |s|
    ensures r == s[|s| - |r|..]
  {
    if n <= |s| then s[|s| - n..] else s
  }

  /**
   * The label for `account` (the empty address stands for `null`). The label
   * is `Not Connected` exactly when there is no account; otherwise it starts
   * with `Connected: ` and the account's first characters and ends with `...`
   * and the account's last characters.
   */
  function Label(account: Address): (r: string)
    ensures r == NotConnected <==> account == ""
    ensures account != "" ==> |r| >= |ConnectedPrefix| && r[..|ConnectedPrefix|] == ConnectedPrefix
    ensures account != "" ==> r[|ConnectedPrefix|..] == Head(account, 6) + Ellipsis + Tail(account, 4)
  {
    if account == "" then NotConnected
    else
      var r := ConnectedPrefix + Head(account, 6) + Ellipsis + Tail(account, 4);
      assert r[0] == 'C' && NotConnected[0] == 'N';
      r
  }

  /** A full 42-character address gives a 24-character label (11 + 6 + 3 + 4). */
  lemma LabelLengthOfAddress(account: Address)
    requires |account| == 42
    ensures |Label(account)| == 24
  {
  }

  /**
   * The label shows the ends of the account: two accounts of at least six
   * characters with the same label agree on their first six and last four.
   */
  lemma LabelShowsEnds(a: Address, b: Address)
    requires |a| >= 6 && |b| >= 6
    requires Label(a) == Label(b)
    ensures a[..6] == b[..6] && a[|a| - 4..] == b[|b| - 4..]
  {
    var ra, rb := Label(a)[|ConnectedPrefix|..], Label(b)[|ConnectedPrefix|..];
    assert ra == a[..6] + Ellipsis + a[|a| - 4..];
    assert rb == b[..6] + Ellipsis + b[|b| - 4..];
    assert ra[..6] == a[..6] && rb[..6] == b[..6];
    assert ra[9..] == a[|a| - 4..] && rb[9..] == b[|b| - 4..];
  }
}
