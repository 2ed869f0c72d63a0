/**
 * The wallet session of the authentication context (src/contexts/AuthContext.tsx).
 *
 * The context holds the connected user, an `isConnecting` flag and the SDK handle,
 * and persists the address as one local-storage entry under the key 'wallet_address'.
 * Its handlers are modelled as atomic steps on a `Session` value; the wallet SDK,
 * the provider's answers and the random vault check (`Math.random() > 0.5`) are the
 * parameters of those steps. `AuthProvider` is the stateful object whose methods
 * perform the steps on its fields.
 */
module Auth {
  import opened Maybe

  /** The connected wallet as the context exposes it. */
  datatype User = User(address: string, isConnectedToVault: bool)

  /** How a provider request for the account list settled. */
  datatype AccountsReply =
    | Listed(accounts: seq<string>)   // resolved with an array of addresses
    | Missing                         // resolved with null or undefined
    | Rejected                        // the promise rejected or the call threw

  /**
   * Everything the context keeps: `user`, `isConnecting`, whether the SDK handle
   * has been created, and the local-storage entry 'wallet_address'.
   */
  datatype Session = Session(user: Option<User>, isConnecting: bool, sdkReady: bool, saved: Option<string>)

  /** JavaScript truthiness of a possibly missing string: `null` and `""` are falsy. */
  predicate Truthy(s: Option<string>) {
    s.Some? && s.value != ""
  }

  /** The reply passes the test `accounts && accounts.length > 0`. */
  predicate Granted(reply: AccountsReply) {
    reply.Listed? && |reply.accounts| > 0
  }

  /** The local-storage entry always holds the address of the connected user. */
  predicate Mirrored(s: Session) {
    s.user.Some? ==> s.saved == Some(s.user.value.address)
  }

  /** The state on page load: no user, not connecting, no SDK yet; storage keeps what an earlier visit left. */
  function Initial(stored: Option<string>): (s: Session)
    ensures s.user.None? && !s.isConnecting && !s.sdkReady
    ensures s.saved == stored
  {
    Session(None, false, false, stored)
  }

  /** The SDK handle is created by the first effect; nothing else changes. */
  function WithSdk(s: Session): (r: Session)
    ensures r.sdkReady
    ensures r.user == s.user && r.isConnecting == s.isConnecting && r.saved == s.saved
  {
    s.(sdkReady := true)
  }

  /**
   * `connectWallet`: without an SDK it returns at once. Otherwise it raises
   * `isConnecting`, asks the SDK for accounts and, when the list is non-empty,
   * sets the user to the first account with the vault answer and stores that
   * address. A missing or empty list and a thrown error change neither the user
   * nor the storage. `isConnecting` is lowered whatever the outcome.
   */
  function Connect(s: Session, reply: AccountsReply, vaultFlag: bool): (r: Session)
    ensures !s.sdkReady ==> r == s
    ensures r.sdkReady == s.sdkReady
    ensures s.sdkReady ==> !r.isConnecting
    ensures s.sdkReady && Granted(reply) ==>
              r.user == Some(User(reply.accounts[0], vaultFlag)) && r.saved == Some(reply.accounts[0])
    ensures !Granted(reply) ==> r.user == s.user && r.saved == s.saved
  {
    if !s.sdkReady then s
    else if Granted(reply) then
      var address := reply.accounts[0];
      s.(user := Some(User(address, vaultFlag)), saved := Some(address), isConnecting := false)
    else
      s.(isConnecting := false)
  }

  /** `disconnectWallet`: no user and no stored address, whatever came before. */
  function Disconnect(s: Session): (r: Session)
    ensures r.user.None? && r.saved.None?
    ensures r.isConnecting == s.isConnecting && r.sdkReady == s.sdkReady
  {
    s.(user := None, saved := None)
  }

  /**
   * The test `user?.address`: the user's address when there is a user and its
   * address is a non-empty string. `checkVaultConnection` queries this address, and
   * "Copy Address" writes it to the clipboard.
   */
  function PresentAddress(user: Option<User>): (r: Option<string>)
    ensures r.Some? <==> user.Some? && user.value.address != ""
    ensures r.Some? ==> r.value == user.value.address
  {
    if user.Some? && user.value.address != "" then Some(user.value.address) else None
  }

  /**
   * The state updater applied when the vault answer arrives: a present user keeps
   * its address and takes the new flag; a user that became null meanwhile stays null.
   */
  function SetVaultFlag(prev: Option<User>, flag: bool): (r: Option<User>)
    ensures r.None? <==> prev.None?
    ensures r.Some? ==> r.value.address == prev.value.address && r.value.isConnectedToVault == flag
  {
    match prev
    case None => None
    case Some(u) => Some(u.(isConnectedToVault := flag))
  }

  /**
   * `checkVaultConnection`: a no-op without a user (or with an empty address) and
   * when the vault request fails (`answer` is None); otherwise only the user's
   * vault flag changes.
   */
  function CheckVault(s: Session, answer: Option<bool>): (r: Session)
    ensures PresentAddress(s.user).None? || answer.None? ==> r == s
    ensures r.isConnecting == s.isConnecting && r.sdkReady == s.sdkReady && r.saved == s.saved
    ensures r.user.None? <==> s.user.None?
    ensures r.user.Some? ==> r.user.value.address == s.user.value.address
    ensures PresentAddress(s.user).Some? && answer.Some? ==> r.user.value.isConnectedToVault == answer.value
  {
    if PresentAddress(s.user).None? || answer.None? then s
    else s.(user := SetVaultFlag(s.user, answer.value))
  }

  /** The restore effect accepts a reply exactly when its FIRST account equals the saved address. */
  predicate RestoreAccepts(reply: AccountsReply, savedAddress: string) {
    Granted(reply) && reply.accounts[0] == savedAddress
  }

  /**
   * The restore effect, run whenever the SDK handle changes. With a truthy saved
   * address, an SDK and a provider (`provider` is None when `getProvider()` gives
   * nothing, which short-circuits the whole call chain), it asks for `eth_accounts`:
   * when the first account is the saved address the user is restored with the vault
   * answer; on any other reply, or a rejection, the stored address is removed.
   */
  function Restore(s: Session, provider: Option<AccountsReply>, vaultFlag: bool): (r: Session)
    ensures !Truthy(s.saved) || !s.sdkReady || provider.None? ==> r == s
    ensures r.isConnecting == s.isConnecting && r.sdkReady == s.sdkReady
    ensures Truthy(s.saved) && s.sdkReady && provider.Some? && RestoreAccepts(provider.value, s.saved.value) ==>
              r.user == Some(User(s.saved.value, vaultFlag)) && r.saved == s.saved
    ensures Truthy(s.saved) && s.sdkReady && provider.Some? && !RestoreAccepts(provider.value, s.saved.value) ==>
              r.user == s.user && r.saved.None?
  {
    if !Truthy(s.saved) || !s.sdkReady || provider.None? then s
    else if RestoreAccepts(provider.value, s.saved.value) then s.(user := Some(User(s.saved.value, vaultFlag)))
    else s.(saved := None)
  }

  // ---------------------------------------------------------------------------
  // Properties relating the steps

  /** Disconnecting twice leaves the same state as disconnecting once. */
  lemma DisconnectIdempotent(s: Session)
    ensures Disconnect(Disconnect(s)) == Disconnect(s)
  {
  }

  /** Storage mirrors the user address from page load on, through every handler. */
  lemma MirroredPreserved(s: Session, reply: AccountsReply, vaultFlag: bool, answer: Option<bool>)
    requires Mirrored(s)
    ensures Mirrored(WithSdk(s))
    ensures Mirrored(Connect(s, reply, vaultFlag))
    ensures Mirrored(Disconnect(s))
    ensures Mirrored(CheckVault(s, answer))
  {
  }

  /** The restore effect keeps storage mirrored when it runs before any user is set, as it does on mount. */
  lemma RestoreMirrored(s: Session, provider: Option<AccountsReply>, vaultFlag: bool)
    requires Mirrored(s) && s.user.None?
    ensures Mirrored(Restore(s, provider, vaultFlag))
  {
  }

  /** The restore check compares the first account only: a saved address later in the list is not accepted. */
  lemma RestoreIgnoresLaterAccounts(saved: string, other: string, vaultFlag: bool)
    requires saved != "" && other != saved
    ensures Restore(WithSdk(Initial(Some(saved))), Some(Listed([other, saved])), vaultFlag)
            == WithSdk(Initial(None))
  {
  }

  /** A stored empty string is falsy: the restore effect leaves it in place and restores nobody. */
  lemma RestoreSkipsEmptyAddress(reply: AccountsReply, vaultFlag: bool)
    ensures Restore(WithSdk(Initial(Some(""))), Some(reply), vaultFlag) == WithSdk(Initial(Some("")))
  {
  }

  /**
   * Round trip over a reload: an address stored by a successful connect is restored
   * on the next page load when the provider still lists it first.
   */
  lemma ConnectThenReloadRestores(s: Session, accounts: seq<string>, vaultFlag: bool, laterFlag: bool)
    requires s.sdkReady && |accounts| > 0 && accounts[0] != ""
    ensures var reloaded := WithSdk(Initial(Connect(s, Listed(accounts), vaultFlag).saved));
            Restore(reloaded, Some(Listed(accounts)), laterFlag).user == Some(User(accounts[0], laterFlag))
  {
  }

  // ---------------------------------------------------------------------------
  // The context object

  /** The provider component's state, updated in place by its handlers. */
  class AuthProvider {
    var user: Option<User>
    var isConnecting: bool
    var sdkReady: bool
    /** The local-storage entry 'wallet_address'. */
    var saved: Option<string>

    function State(): Session
      reads this
    {
      Session(user, isConnecting, sdkReady, saved)
    }

    /** Mounting the provider: `stored` is what local storage already holds. */
    constructor (stored: Option<string>)
      ensures State() == Initial(stored)
    {
      user := None;
      isConnecting := false;
      sdkReady := false;
      saved := stored;
    }

    /** The first effect creates the SDK handle. */
    method InitSdk()
      modifies this
      ensures State() == WithSdk(old(State()))
    {
      sdkReady := true;
    }

    /** The synchronous part of `connectWallet`, up to the first await. */
    method StartConnect() returns (started: bool)
      modifies this
      ensures started == old(sdkReady)
      ensures State() == if started then old(State()).(isConnecting := true) else old(State())
    {
      if !sdkReady {
        return false;
      }
      isConnecting := true;
      started := true;
    }

    /** The rest of `connectWallet`, once the SDK and the vault check have answered. */
    method CompleteConnect(reply: AccountsReply, vaultFlag: bool)
      requires sdkReady && isConnecting
      modifies this
      ensures State() == Connect(old(State()), reply, vaultFlag)
      ensures Mirrored(old(State())) ==> Mirrored(State())
    {
      match reply {
        case Listed(accounts) =>
          if |accounts| > 0 {
            var address := accounts[0];
            user := Some(User(address, vaultFlag));
            saved := Some(address);
          }
        case Missing =>
        case Rejected =>
      }
      isConnecting := false;
    }

    /** `connectWallet` as one step. */
    method ConnectWallet(reply: AccountsReply, vaultFlag: bool)
      modifies this
      ensures State() == Connect(old(State()), reply, vaultFlag)
    {
      var started := StartConnect();
      if started {
        CompleteConnect(reply, vaultFlag);
      }
    }

    method DisconnectWallet()
      modifies this
      ensures State() == Disconnect(old(State()))
    {
      user := None;
      saved := None;
    }

    /** `checkVaultConnection`; `answer` is None when the vault request throws. */
    method CheckVaultConnection(answer: Option<bool>)
      modifies this
      ensures State() == CheckVault(old(State()), answer)
    {
      if user.None? || user.value.address == "" {
        return;
      }
      if answer.Some? {
        user := SetVaultFlag(user, answer.value);
      }
    }

    /** The restore effect; `provider` is None when the SDK gives no provider. */
    method RestoreSession(provider: Option<AccountsReply>, vaultFlag: bool)
      modifies this
      ensures State() == Restore(old(State()), provider, vaultFlag)
    {
      if saved.None? || saved.value == "" || !sdkReady || provider.None? {
        return;
      }
      var savedAddress := saved.value;
      var reply := provider.value;
      if reply.Listed? && |reply.accounts| > 0 && reply.accounts[0] == savedAddress {
        user := Some(User(savedAddress, vaultFlag));
      } else {
        saved := None;
      }
    }
  }
}
