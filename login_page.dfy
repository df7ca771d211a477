/**
 * The state the login page object changes: the three form fields, the
 * page's localStorage, and the buttons clicked so far. Locators, waits and
 * navigation are not modelled; a field is the text it holds.
 */
module LoginPage {
  import opened Text

  /** The two submit buttons of the login form. */
  datatype Button = ManagementButton | PosButton

  /** The credentials a login is given. */
  datatype Credentials = Credentials(retailer: string, username: string, password: string)

  /** The localStorage keys `clearForm` removes by name. */
  const RetailerKey := "retailer"
  const SessionKey := "kvSession"
  const RetailerIdKey := "retailerId"
  const SessionKeys: set<string> := {RetailerKey, SessionKey, RetailerIdKey}

  /** The prefix of the localStorage keys `clearForm` removes. */
  const OfflinePrefix := "offline_ss_"

  /** `key.startsWith('offline_ss_')`. */
  predicate IsOfflineKey(key: string) {
    StartsWith(key, OfflinePrefix)
  }

  /** Whether `clearForm` removes `key`. */
  predicate ClearedKey(key: string) {
    key in SessionKeys || IsOfflineKey(key)
  }

  /** The storage `clearForm` leaves: every entry except the removed keys. */
  function ClearedStorage(storage: map<string, string>): map<string, string> {
    map key | key in storage && !ClearedKey(key) :: storage[key]
  }

  /**
   * The storage while the offline keys are being removed: the keys still
   * to be visited are all there, the visited ones only without the prefix.
   */
  function PartlyCleared(snapshot: map<string, string>, remaining: set<string>): map<string, string> {
    map key | key in snapshot && (key in remaining || !IsOfflineKey(key)) :: snapshot[key]
  }

  /** Visiting one more key removes it exactly when it has the prefix. */
  lemma PartlyClearedStep(snapshot: map<string, string>, remaining: set<string>, key: string)
    requires key in remaining
    ensures IsOfflineKey(key) ==>
      PartlyCleared(snapshot, remaining - {key}) == PartlyCleared(snapshot, remaining) - {key}
    ensures !IsOfflineKey(key) ==>
      PartlyCleared(snapshot, remaining - {key}) == PartlyCleared(snapshot, remaining)
  {
  }

  /** Before any key is visited, nothing is removed. */
  lemma PartlyClearedStart(snapshot: map<string, string>)
    ensures PartlyCleared(snapshot, snapshot.Keys) == snapshot
  {
  }

  /** Removing the session keys and then visiting every key leaves the cleared storage. */
  lemma PartlyClearedEnd(storage: map<string, string>)
    ensures PartlyCleared(storage - SessionKeys, {}) == ClearedStorage(storage)
  {
  }

  /** `if (value) { clear(); fill(value) }`: the field's content afterwards. */
  function Filled(field: string, value: string): string {
    if value != "" then value else field
  }

  /**
   * What `clearForm` promises about storage: the three session keys and
   * every key with the offline prefix are gone, every other key keeps its
   * value, and no key is added.
   */
  lemma ClearedStorageKeys(storage: map<string, string>, key: string)
    ensures key in SessionKeys ==> key !in ClearedStorage(storage)
    ensures IsOfflineKey(key) ==> key !in ClearedStorage(storage)
    ensures key in storage && !ClearedKey(key) ==>
      key in ClearedStorage(storage) && ClearedStorage(storage)[key] == storage[key]
    ensures key !in storage ==> key !in ClearedStorage(storage)
  {
  }

  /** Clearing a cleared storage changes nothing. */
  lemma ClearedStorageIdempotent(storage: map<string, string>)
    ensures ClearedStorage(ClearedStorage(storage)) == ClearedStorage(storage)
  {
  }

  /**
   * A field filled with a non-empty value holds that value, an empty value
   * leaves the field as it was, and filling twice with the same value is
   * filling once.
   */
  lemma FilledSpec(field: string, value: string)
    ensures value != "" ==> Filled(field, value) == value
    ensures value == "" ==> Filled(field, value) == field
    ensures Filled(Filled(field, value), value) == Filled(field, value)
  {
  }

  class LoginForm {
    var retailerField: string
    var usernameField: string
    var passwordField: string
    var storage: map<string, string>
    /** The buttons clicked so far, in order. */
    var clicked: seq<Button>

    /** The page as it was opened: whatever it pre-filled and stored. */
    constructor (retailer: string, username: string, password: string, stored: map<string, string>)
      ensures retailerField == retailer && usernameField == username && passwordField == password
      ensures storage == stored && clicked == []
    {
      retailerField := retailer;
      usernameField := username;
      passwordField := password;
      storage := stored;
      clicked := [];
    }

    /** `fillCredentials`: each field is cleared and filled only when its value is non-empty. */
    method FillCredentials(credentials: Credentials)
      modifies this
      ensures retailerField == Filled(old(retailerField), credentials.retailer)
      ensures usernameField == Filled(old(usernameField), credentials.username)
      ensures passwordField == Filled(old(passwordField), credentials.password)
      ensures storage == old(storage) && clicked == old(clicked)
    {
      if credentials.retailer != "" {
        retailerField := "";
        retailerField := credentials.retailer;
      }
      if credentials.username != "" {
        usernameField := "";
        usernameField := credentials.username;
      }
      if credentials.password != "" {
        passwordField := "";
        passwordField := credentials.password;
      }
    }

    /**
     * The shape `loginMan` and `loginPos` share: fill the credentials, click
     * the button. A timed-out wait for navigation is swallowed, so a login
     * has no failure outcome.
     */
    method Login(credentials: Credentials, button: Button)
      modifies this
      ensures retailerField == Filled(old(retailerField), credentials.retailer)
      ensures usernameField == Filled(old(usernameField), credentials.username)
      ensures passwordField == Filled(old(passwordField), credentials.password)
      ensures storage == old(storage) && clicked == old(clicked) + [button]
    {
      FillCredentials(credentials);
      clicked := clicked + [button];
    }

    /** `loginMan`: the shared login with the management button. */
    method LoginMan(retailer: string, username: string, password: string)
      modifies this
      ensures retailerField == Filled(old(retailerField), retailer)
      ensures usernameField == Filled(old(usernameField), username)
      ensures passwordField == Filled(old(passwordField), password)
      ensures storage == old(storage) && clicked == old(clicked) + [ManagementButton]
    {
      Login(Credentials(retailer, username, password), ManagementButton);
    }

    /** `loginPos`: the shared login with the point-of-sale button. */
    method LoginPos(retailer: string, username: string, password: string)
      modifies this
      ensures retailerField == Filled(old(retailerField), retailer)
      ensures usernameField == Filled(old(usernameField), username)
      ensures passwordField == Filled(old(passwordField), password)
      ensures storage == old(storage) && clicked == old(clicked) + [PosButton]
    {
      Login(Credentials(retailer, username, password), PosButton);
    }

    /** The three `localStorage.removeItem` calls by name. */
    method RemoveSessionKeys()
      modifies this
      ensures storage == old(storage) - SessionKeys
      ensures retailerField == old(retailerField) && usernameField == old(usernameField)
      ensures passwordField == old(passwordField) && clicked == old(clicked)
    {
      storage := storage - {RetailerKey};
      storage := storage - {SessionKey};
      storage := storage - {RetailerIdKey};
    }

    /**
     * The loop over a snapshot of the storage keys: every key with the
     * offline prefix is removed, every other entry stays.
     */
    method RemoveOfflineKeys()
      modifies this
      ensures storage == PartlyCleared(old(storage), {})
      ensures retailerField == old(retailerField) && usernameField == old(usernameField)
      ensures passwordField == old(passwordField) && clicked == old(clicked)
    {
      var snapshot := storage;
      var remaining := snapshot.Keys;
      PartlyClearedStart(snapshot);
      while remaining != {}
        invariant storage == PartlyCleared(snapshot, remaining)
        invariant retailerField == old(retailerField) && usernameField == old(usernameField)
        invariant passwordField == old(passwordField) && clicked == old(clicked)
        decreases |remaining|
      {
        var key :| key in remaining;
        PartlyClearedStep(snapshot, remaining, key);
        if IsOfflineKey(key) {
          storage := storage - {key};
        }
        remaining := remaining - {key};
      }
    }

    /**
     * `clearForm`: remove the three session keys, then every key with the
     * offline prefix; then clear the three fields.
     */
    method ClearForm()
      modifies this
      ensures storage == ClearedStorage(old(storage))
      ensures retailerField == "" && usernameField == "" && passwordField == ""
      ensures clicked == old(clicked)
    {
      RemoveSessionKeys();
      RemoveOfflineKeys();
      PartlyClearedEnd(old(storage));
      retailerField := "";
      usernameField := "";
      passwordField := "";
    }
  }
}
