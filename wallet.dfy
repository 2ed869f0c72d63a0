/**
 * The wallet button of src/components/ConnectWallet.tsx: the shortened address and
 * the choice between the connect button and the account menu, both pure functions
 * of the authentication context's `user` and `isConnecting`.
 */
module Wallet {
  import opened Maybe
  import opened Arith
  import opened Auth

  /** How `String.prototype.slice` resolves a relative index: negatives count from the end, then clamp to [0, n]. */
  function Resolve(k: int, n: nat): (r: nat)
    ensures r <= n
    ensures 0 <= k <= n ==> r == k
    ensures k < 0 && -k <= n ==> r == n + k
    ensures k > n ==> r == n
    ensures k + n < 0 ==> r == 0
  {
    if k < 0 then (if n + k < 0 then 0 else n + k) else if k > n then n else k
  }

  /** `s.slice(start, end)`: the characters from the resolved start up to the resolved end, or nothing if they cross. */
  function Slice(s: string, start: int, end: int): (r: string)
    ensures var a, b := Resolve(start, |s|), Resolve(end, |s|);
            |r| == (if a < b then b - a else 0) && (a < b ==> r == s[a..b])
  {
    var a, b := Resolve(start, |s|), Resolve(end, |s|);
    if a < b then s[a..b] else []
  }

  /**
   * `formatAddress`: `addr.slice(0, 6) + "..." + addr.slice(-4)`. The result is the
   * first `min(6, n)` characters, then "...", then the last `min(4, n)` characters.
   */
  function FormatAddress(addr: string): (r: string)
    ensures var n := |addr|;
            |r| == Min(6, n) + 3 + Min(4, n)
            && r[..Min(6, n)] == addr[..Min(6, n)]
            && r[Min(6, n)..Min(6, n) + 3] == "..."
            && r[Min(6, n) + 3..] == addr[n - Min(4, n)..]
  {
    var prefix := Slice(addr, 0, 6);
    var suffix := Slice(addr, -4, |addr|);
    assert prefix == addr[..Min(6, |addr|)] by {
      if |addr| > 0 { assert prefix == addr[0..Min(6, |addr|)]; }
    }
    assert suffix == addr[|addr| - Min(4, |addr|)..];
    prefix + "..." + suffix
  }

  /** Any address of ten or more characters, such as a 42-character hexadecimal account, shortens to 13 characters. */
  lemma FormatAddressLength(addr: string)
    requires |addr| >= 10
    ensures |FormatAddress(addr)| == 13
    ensures FormatAddress(addr) == addr[..6] + "..." + addr[|addr| - 4..]
  {
    var r := FormatAddress(addr);
    assert r == r[..6] + r[6..9] + r[9..];
  }

  /** An address shorter than four characters appears whole on both sides of the ellipsis. */
  lemma FormatShortAddress(addr: string)
    requires |addr| < 4
    ensures FormatAddress(addr) == addr + "..." + addr
  {
    var r := FormatAddress(addr);
    var n := |addr|;
    assert r == r[..n] + r[n..n + 3] + r[n + 3..];
    assert addr[..n] == addr && addr[0..] == addr;
  }

  /** What the component renders. */
  datatype WalletView =
    | ConnectButton(disabled: bool, caption: string)
    | AccountMenu(shortAddress: string, vaultBadge: bool)

  /**
   * Without a user: the connect button, disabled and captioned "Connecting..."
   * exactly while a connection is in progress. With a user: the account menu with
   * the shortened address and the "Vault Connected" line exactly when the user's
   * vault flag is set.
   */
  function View(user: Option<User>, isConnecting: bool): (v: WalletView)
    ensures v.ConnectButton? <==> user.None?
    ensures v.ConnectButton? ==> (v.disabled <==> isConnecting)
    ensures v.ConnectButton? ==> v.caption == (if isConnecting then "Connecting..." else "Connect Wallet")
    ensures v.AccountMenu? ==> v.shortAddress == FormatAddress(user.value.address)
    ensures v.AccountMenu? ==> (v.vaultBadge <==> user.value.isConnectedToVault)
  {
    match user
    case None => ConnectButton(isConnecting, if isConnecting then "Connecting..." else "Connect Wallet")
    case Some(u) => AccountMenu(FormatAddress(u.address), u.isConnectedToVault)
  }

  /** After a disconnect the connect button is back; after a granted connect the menu shows the first account. */
  lemma ViewFollowsSession(s: Session, accounts: seq<string>, vaultFlag: bool)
    requires s.sdkReady && |accounts| > 0
    ensures View(Disconnect(s).user, Disconnect(s).isConnecting).ConnectButton?
    ensures var c := Connect(s, Listed(accounts), vaultFlag);
            View(c.user, c.isConnecting) == AccountMenu(FormatAddress(accounts[0]), vaultFlag)
  {
  }
}
