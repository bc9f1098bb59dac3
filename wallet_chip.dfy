/** The wallet chip: the connected address, shortened, or `...` while there is none. */
module WalletChip {
  import opened JsText
  import Leaderboard

  /** `address ? `${address.slice(0, 6)}...${address.slice(-4)}` : '...'`; the empty string is falsy. */
  function ChipText(address: string): (r: string)
  {
    if address == "" then "..." else Slice(address, 0, 6) + "..." + SliceFrom(address, -4)
  }

  /** No address shows only the three dots. */
  lemma ChipTextEmpty()
    ensures ChipText("") == "..."
  {
  }

  /** A non-empty address is shortened exactly as a leaderboard row shortens it. */
  lemma ChipMatchesLeaderboard(address: string)
    requires address != ""
    ensures ChipText(address) == Leaderboard.ShortAddress(address)
  {
  }

  /** A full address shows as 13 characters: its first six, `...`, its last four. */
  lemma ChipTextShape(address: string)
    requires |address| >= 10
    ensures |ChipText(address)| == 13
    ensures ChipText(address)[..6] == address[..6]
    ensures ChipText(address)[6..9] == "..."
    ensures ChipText(address)[9..] == address[|address| - 4..]
  {
    ChipMatchesLeaderboard(address);
    Leaderboard.ShortAddressShape(address);
  }

  /** Only the empty address shows as bare dots; any other address keeps at least one of its characters around the dots. */
  lemma ChipTextDotsOnlyWhenEmpty(address: string)
    ensures ChipText(address) == "..." <==> address == ""
  {
    if address != "" {
      assert |ChipText(address)| > 3;
    }
  }
}
