/** Device configuration: a persistent string store for the Wi-Fi
    credentials and the short-range radio service through which an operator
    writes them. Two process-wide flags make starting storage, starting the
    radio service and stopping it safe to repeat. */
module ConfigurationManager {

  /** Namespace the persistent store is opened under. */
  const NAMESPACE: string := "wms-dev"
  const SSID_KEY: string := "wifi-ssid"
  const PASS_KEY: string := "wifi-pass"

  /** Calls into the persistent-store and radio libraries. */
  datatype PlatformCall =
    | StoreBegin(namespace: string)   // preferences.begin(namespace, read-write)
    | RadioSetup                      // radio init, server, service, two attributes, advertising
    | RadioDeinit                     // radio deinit

  /** Reading a key: its stored string, or "" when it was never written. */
  function Lookup(store: map<string, string>, key: string): string
  {
    if key in store then store[key] else ""
  }

  /** Reading a key through the store library: an opened store gives what
      `Lookup` gives; a store that was never opened gives the default "". */
  function ReadKey(isOpen: bool, store: map<string, string>, key: string): string
  {
    if isOpen then Lookup(store, key) else ""
  }

  /** Writing a key through the store library: an opened store takes the new
      value; a store that was never opened drops the write. */
  function WriteKey(isOpen: bool, store: map<string, string>, key: string, value: string): map<string, string>
  {
    if isOpen then store[key := value] else store
  }

  /** On an opened store, writing one key and reading it back gives what was
      written, and leaves every other key reading as before. */
  lemma WriteThenRead(store: map<string, string>, key: string, value: string, other: string)
    requires other != key
    ensures ReadKey(true, WriteKey(true, store, key, value), key) == value
    ensures ReadKey(true, WriteKey(true, store, key, value), other) == ReadKey(true, store, other)
  {
  }

  /** On a store that was never opened, a write changes nothing and every
      read gives "", whatever was written. */
  lemma UnopenedStoreLosesWrites(store: map<string, string>, key: string, value: string, other: string)
    ensures WriteKey(false, store, key, value) == store
    ensures ReadKey(false, WriteKey(false, store, key, value), other) == ""
  {
  }

  /** Credentials that were never written read as empty, opened or not. */
  lemma NeverWrittenReadsEmpty(isOpen: bool, store: map<string, string>)
    requires SSID_KEY !in store && PASS_KEY !in store
    ensures ReadKey(isOpen, store, SSID_KEY) == "" && ReadKey(isOpen, store, PASS_KEY) == ""
  {
  }

  class ConfigManager {
    var isStorageInitialized: bool
    var isBleActive: bool
    /** Contents of the persistent key-value store. */
    var preferences: map<string, string>
    /** Calls made into the store and radio libraries, oldest first. */
    var calls: seq<PlatformCall>

    /** Both flags start false; `stored` is what persistent storage already holds. */
    constructor (stored: map<string, string>)
      ensures !isStorageInitialized && !isBleActive
      ensures preferences == stored && calls == []
    {
      isStorageInitialized := false;
      isBleActive := false;
      preferences := stored;
      calls := [];
    }

    /** Opens the store the first time; every later call changes nothing. */
    method InitStorage()
      modifies this`isStorageInitialized, this`calls
      ensures isStorageInitialized
      ensures old(isStorageInitialized) ==> calls == old(calls)
      ensures !old(isStorageInitialized) ==> calls == old(calls) + [StoreBegin(NAMESPACE)]
    {
      if isStorageInitialized {
        return;
      }
      calls := calls + [StoreBegin(NAMESPACE)];
      isStorageInitialized := true;
    }

    /** Starts the radio service unless it is already active. `radioUp` is
        what the radio library reports after setting up. The result is false
        with no change when already active; otherwise it is `radioUp`, and
        the active flag becomes true only when `radioUp` holds. */
    method StartConfigMode(radioUp: bool) returns (ok: bool)
      modifies this`isBleActive, this`calls
      ensures old(isBleActive) ==> !ok && unchanged(this)
      ensures !old(isBleActive) ==> ok == radioUp && isBleActive == radioUp
      ensures !old(isBleActive) ==> calls == old(calls) + [RadioSetup]
    {
      if isBleActive {
        return false;
      }
      calls := calls + [RadioSetup];
      ok := radioUp;
      if ok {
        isBleActive := true;
      }
    }

    /** Stops the radio service if it is active. `deinitOk` is what the radio
        library reports. The result is false with no change when inactive;
        otherwise it is `deinitOk`, and the flag clears only on success. */
    method StopConfigMode(deinitOk: bool) returns (ok: bool)
      modifies this`isBleActive, this`calls
      ensures !old(isBleActive) ==> !ok && unchanged(this)
      ensures old(isBleActive) ==> ok == deinitOk && isBleActive == !deinitOk
      ensures old(isBleActive) ==> calls == old(calls) + [RadioDeinit]
    {
      if !isBleActive {
        return false;
      }
      calls := calls + [RadioDeinit];
      ok := deinitOk;
      if ok {
        isBleActive := false;
      }
    }

    /** The stored network name; "" if none was ever written or the store
        was never opened. */
    method GetWifiSsid() returns (ssid: string)
      ensures ssid == ReadKey(isStorageInitialized, preferences, SSID_KEY)
    {
      ssid := "";
      if isStorageInitialized && SSID_KEY in preferences {
        ssid := preferences[SSID_KEY];
      }
    }

    /** The stored password; "" if none was ever written or the store was
        never opened. */
    method GetWifiPass() returns (pass: string)
      ensures pass == ReadKey(isStorageInitialized, preferences, PASS_KEY)
    {
      pass := "";
      if isStorageInitialized && PASS_KEY in preferences {
        pass := preferences[PASS_KEY];
      }
    }

    /** Stores a new network name whole, if the store is open; the radio
        write callback calls this. */
    method SetWifiSsid(newSsid: string)
      modifies this`preferences
      ensures preferences == WriteKey(isStorageInitialized, old(preferences), SSID_KEY, newSsid)
      ensures ReadKey(isStorageInitialized, preferences, SSID_KEY) == (if isStorageInitialized then newSsid else "")
      ensures ReadKey(isStorageInitialized, preferences, PASS_KEY) == ReadKey(isStorageInitialized, old(preferences), PASS_KEY)
    {
      if isStorageInitialized {
        preferences := preferences[SSID_KEY := newSsid];
      }
    }

    /** Stores a new password whole, if the store is open; the radio write
        callback calls this. */
    method SetWifiPass(newPass: string)
      modifies this`preferences
      ensures preferences == WriteKey(isStorageInitialized, old(preferences), PASS_KEY, newPass)
      ensures ReadKey(isStorageInitialized, preferences, PASS_KEY) == (if isStorageInitialized then newPass else "")
      ensures ReadKey(isStorageInitialized, preferences, SSID_KEY) == ReadKey(isStorageInitialized, old(preferences), SSID_KEY)
    {
      if isStorageInitialized {
        preferences := preferences[PASS_KEY := newPass];
      }
    }
  }

  /** Starting configuration mode twice on a fresh manager whose radio comes
      up: the first call succeeds, the second is refused by the active flag,
      and the radio is set up only once. */
  method StartTwice(stored: map<string, string>) returns (first: bool, second: bool, setups: seq<PlatformCall>)
    ensures first && !second
    ensures setups == [RadioSetup]
  {
    var manager := new ConfigManager(stored);
    first := manager.StartConfigMode(true);
    second := manager.StartConfigMode(true);
    setups := manager.calls;
  }

  /** Opening the store, then writing both credentials through a fresh
      manager and reading them back, gives exactly what was written, whatever
      the store held before. */
  method CredentialsRoundTrip(stored: map<string, string>, ssid: string, pass: string)
    returns (readSsid: string, readPass: string)
    ensures readSsid == ssid && readPass == pass
  {
    var manager := new ConfigManager(stored);
    manager.InitStorage();
    manager.SetWifiSsid(ssid);
    manager.SetWifiPass(pass);
    readSsid := manager.GetWifiSsid();
    readPass := manager.GetWifiPass();
  }

  /** The same writes and reads without opening the store first: both writes
      are lost, both reads give "", and the store keeps what it held. */
  method CredentialsWithoutStorage(stored: map<string, string>, ssid: string, pass: string)
    returns (readSsid: string, readPass: string, kept: map<string, string>)
    ensures readSsid == "" && readPass == ""
    ensures kept == stored
  {
    var manager := new ConfigManager(stored);
    manager.SetWifiSsid(ssid);
    manager.SetWifiPass(pass);
    readSsid := manager.GetWifiSsid();
    readPass := manager.GetWifiPass();
    kept := manager.preferences;
  }
}
