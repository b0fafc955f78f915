/**
 * The wallet store: a record of six fields that the setters overwrite one or
 * two at a time, a `reset` back to the fixed initial record, and the
 * projection of the fields that are persisted.
 */
module WalletStore {
  import opened Wrappers

  datatype Network = TESTNET | PUBLIC | FUTURENET

  const TestnetPassphrase: string := "Test SDF Network ; September 2015"
  const PublicPassphrase: string := "Public Global Stellar Network ; September 2015"
  const FuturenetPassphrase: string := "Test SDF Future Network ; October 2022"

  /** The fixed passphrase of each network. */
  function Passphrase(network: Network): (r: string)
    ensures network == TESTNET ==> r == TestnetPassphrase
    ensures network == PUBLIC ==> r == PublicPassphrase
    ensures network == FUTURENET ==> r == FuturenetPassphrase
  {
    match network
    case TESTNET => TestnetPassphrase
    case PUBLIC => PublicPassphrase
    case FUTURENET => FuturenetPassphrase
  }

  /** Reading the table backwards: the network a passphrase belongs to, if any. */
  function NetworkOf(passphrase: string): Option<Network>
  {
    if passphrase == TestnetPassphrase then Some(TESTNET)
    else if passphrase == PublicPassphrase then Some(PUBLIC)
    else if passphrase == FuturenetPassphrase then Some(FUTURENET)
    else None
  }

  /** The three passphrases are pairwise different. */
  lemma PassphrasesDistinct(a: Network, b: Network)
    ensures Passphrase(a) == Passphrase(b) <==> a == b
  {
    assert |TestnetPassphrase| == 33;
    assert |PublicPassphrase| == 46;
    assert |FuturenetPassphrase| == 38;
  }

  /** Every passphrase in the table leads back to its network, and only those do. */
  lemma NetworkOfPassphrase(network: Network, passphrase: string)
    ensures NetworkOf(passphrase) == Some(network) <==> passphrase == Passphrase(network)
  {
    assert |TestnetPassphrase| == 33;
    assert |PublicPassphrase| == 46;
    assert |FuturenetPassphrase| == 38;
  }

  /** The store's fields as one value; `None` stands for `null`. */
  datatype WalletState = WalletState(
    publicKey: Option<string>,
    isConnected: bool,
    network: Network,
    networkPassphrase: Option<string>,
    isLoading: bool,
    error: Option<string>)

  /** The record a new or reset store holds. */
  function InitialState(): (s: WalletState)
    ensures s.publicKey.None? && !s.isConnected && s.network == TESTNET
    ensures s.networkPassphrase == Some(Passphrase(TESTNET))
    ensures !s.isLoading && s.error.None?
  {
    WalletState(None, false, TESTNET, Some(Passphrase(TESTNET)), false, None)
  }

  /** What `partialize` hands to storage. */
  datatype PersistedWallet = PersistedWallet(
    publicKey: Option<string>,
    isConnected: bool,
    network: Network,
    networkPassphrase: Option<string>)

  function Partialize(s: WalletState): (p: PersistedWallet)
    ensures p.publicKey == s.publicKey && p.isConnected == s.isConnected
    ensures p.network == s.network && p.networkPassphrase == s.networkPassphrase
  {
    PersistedWallet(s.publicKey, s.isConnected, s.network, s.networkPassphrase)
  }

  /** Loading and error are transient: two states that differ only there persist alike. */
  lemma PersistedIgnoresTransientFields(s: WalletState, loading: bool, error: Option<string>)
    ensures Partialize(s.(isLoading := loading, error := error)) == Partialize(s)
  {
  }

  /** Two states persist alike exactly when their four persisted fields agree. */
  lemma PersistedFieldsDetermineProjection(s: WalletState, t: WalletState)
    ensures Partialize(s) == Partialize(t) <==>
            (s.publicKey == t.publicKey && s.isConnected == t.isConnected &&
             s.network == t.network && s.networkPassphrase == t.networkPassphrase)
  {
  }

  class WalletStore {
    var publicKey: Option<string>
    var isConnected: bool
    var network: Network
    var networkPassphrase: Option<string>
    var isLoading: bool
    var error: Option<string>

    function State(): WalletState
      reads this
    {
      WalletState(publicKey, isConnected, network, networkPassphrase, isLoading, error)
    }

    constructor ()
      ensures State() == InitialState()
    {
      publicKey := None;
      isConnected := false;
      network := TESTNET;
      networkPassphrase := Some(Passphrase(TESTNET));
      isLoading := false;
      error := None;
    }

    method SetPublicKey(key: Option<string>)
      modifies this
      ensures State() == old(State()).(publicKey := key)
    {
      publicKey := key;
    }

    method SetConnected(connected: bool)
      modifies this
      ensures State() == old(State()).(isConnected := connected)
    {
      isConnected := connected;
    }

    /** The passphrase is stored as given; it is not looked up in the table. */
    method SetNetwork(network': Network, passphrase: string)
      modifies this
      ensures State() == old(State()).(network := network', networkPassphrase := Some(passphrase))
    {
      network := network';
      networkPassphrase := Some(passphrase);
    }

    method SetLoading(loading: bool)
      modifies this
      ensures State() == old(State()).(isLoading := loading)
    {
      isLoading := loading;
    }

    method SetError(error': Option<string>)
      modifies this
      ensures State() == old(State()).(error := error')
    {
      error := error';
    }

    method Reset()
      modifies this
      ensures State() == InitialState()
    {
      publicKey := None;
      isConnected := false;
      network := TESTNET;
      networkPassphrase := Some(Passphrase(TESTNET));
      isLoading := false;
      error := None;
    }

    /** `partialize` applied to the current state. */
    function Persisted(): (p: PersistedWallet)
      reads this
      ensures p == Partialize(State())
    {
      PersistedWallet(publicKey, isConnected, network, networkPassphrase)
    }
  }

  /** A mismatched pair is stored as is: the table does not constrain `setNetwork`. */
  method MismatchedNetworkIsKept() returns (store: WalletStore)
    ensures store.network == PUBLIC && store.networkPassphrase == Some(TestnetPassphrase)
    ensures NetworkOf(store.networkPassphrase.value) != Some(store.network)
  {
    store := new WalletStore();
    store.SetNetwork(PUBLIC, TestnetPassphrase);
    NetworkOfPassphrase(PUBLIC, TestnetPassphrase);
    PassphrasesDistinct(PUBLIC, TESTNET);
  }
}
