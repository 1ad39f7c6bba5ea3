/**
 * The download guard both the buyer dashboard and the song page use: a song
 * with an IPFS hash is fetched from the local IPFS gateway and saved as
 * `<title>.mp3`; a song without one gets no link (the page shows an alert).
 */
module Download {
  import opened Wrappers

  /** The gateway prefix the URL is built on. */
  const Gateway: string := "http://127.0.0.1:8080/ipfs/"

  /** The file extension of the saved file. */
  const Extension: string := ".mp3"

  datatype Link = Link(url: string, filename: string)

  /** The hash a gateway URL names, if the URL is one. */
  function HashOfUrl(url: string): Option<string>
  {
    if |Gateway| <= |url| && url[..|Gateway|] == Gateway then Some(url[|Gateway|..]) else None
  }

  /** The title a saved file name carries, if it ends in the extension. */
  function TitleOfFilename(name: string): Option<string>
  {
    if |Extension| <= |name| && name[|name| - |Extension|..] == Extension
    then Some(name[..|name| - |Extension|])
    else None
  }

  /**
   * `handleDownload(ipfsHash, title)`: no link for a missing hash; otherwise a
   * gateway URL naming exactly that hash and a file name carrying exactly
   * that title.
   */
  function DownloadLink(ipfsHash: string, title: string): (r: Option<Link>)
    ensures r.None? <==> ipfsHash == ""
    ensures r.Some? ==> HashOfUrl(r.value.url) == Some(ipfsHash)
    ensures r.Some? ==> TitleOfFilename(r.value.filename) == Some(title)
    ensures r.Some? ==> |r.value.url| > |Gateway|
  {
    if ipfsHash == "" then None
    else
      var url := Gateway + ipfsHash;
      var name := title + Extension;
      assert url[..|Gateway|] == Gateway;
      assert name[|name| - |Extension|..] == Extension;
      Some(Link(url, name))
  }

  /** Two songs get the same link only if they have the same hash and title. */
  lemma DownloadLinkInjective(h1: string, t1: string, h2: string, t2: string)
    requires h1 != "" && h2 != ""
    requires DownloadLink(h1, t1) == DownloadLink(h2, t2)
    ensures h1 == h2 && t1 == t2
  {
  }
}
