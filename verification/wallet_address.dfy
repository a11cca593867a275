/** The wallet-address chip: the address cut to a maximum length, a copy
    button and a link to a block explorer. */
module WalletAddress {
  import opened Common
  import opened Text

  /** The `maxLength` used when the caller gives none. */
  const DefaultMaxLength: nat := 15

  /** The explorer used when the caller gives no URL. */
  const EtherscanPrefix: string := "https://etherscan.io/address/"

  /** `displayAddress`: the first `maxLength` characters and "..." when the
      address is longer, the address itself otherwise. */
  function DisplayAddress(address: string, maxLength: Option<nat>): (shown: string)
    ensures var n := if maxLength.Some? then maxLength.value else DefaultMaxLength;
      (|address| <= n ==> shown == address)
      && (|address| > n ==> |shown| == n + 3 && shown == address[..n] + "...")
  {
    var n := if maxLength.Some? then maxLength.value else DefaultMaxLength;
    var r := Truncate(address, n);
    assert |address| > n ==> r == r[..n] + r[n..];
    r
  }

  /** An illustration of `DisplayAddress`'s contract: a 42-character
      Ethereum address is shown as its first 15 characters and an ellipsis
      by default. */
  lemma DefaultCutsEthereumAddress(address: string)
    requires |address| == 42
    ensures |DisplayAddress(address, None)| == 18
    ensures DisplayAddress(address, None)[..15] == address[..15]
  {
  }

  /** `handleViewExplorer`'s URL: the given URL when it is non-empty,
      otherwise the Etherscan page of the address. */
  function ExplorerUrl(address: string, explorerUrl: Option<string>): (url: string)
    ensures Truthy(explorerUrl) ==> url == explorerUrl.value
    ensures !Truthy(explorerUrl) ==> url == EtherscanPrefix + address && url[|EtherscanPrefix|..] == address
  {
    if Truthy(explorerUrl) then explorerUrl.value else EtherscanPrefix + address
  }

  class WalletAddressView {
    var copied: bool

    constructor()
      ensures !copied
    {
      copied := false;
    }

    /** `handleCopy`: whether the clipboard call succeeds or the textarea
        fallback runs, the chip shows "copied"; the text copied is the full
        address, never the shortened one. */
    method HandleCopy(address: string, clipboardWorks: bool) returns (copiedText: string)
      modifies this
      ensures copied && copiedText == address
    {
      if clipboardWorks {
        copiedText := address;
        copied := true;
      } else {
        copiedText := address;
        copied := true;
      }
    }

    /** The timer set by either copy path: two seconds later the chip goes
        back to its normal look. */
    method CopiedTimeout()
      modifies this
      ensures !copied
    {
      copied := false;
    }
  }
}
