/** The login screen's remember-me protocol: the credentials it saves in the
    shared device store on every login attempt, and the fields it restores
    from that store when it opens. */
module LoginForm {
  import opened Wrappers
  import opened Storage
  import ApiClient

  const EmailKey := "user_email"
  const PasswordKey := "user_password"
  const RememberKey := "remember_me"
  const FillAllFields := "Please fill in all fields"
  const GenericFailure := "An error occurred"
  const LoginFailed := "Login Failed"

  /** The store after a login attempt that passed validation. */
  function RememberWrites(items: map<string, string>, email: string, password: string, remember: bool)
      : (r: map<string, string>)
    ensures remember ==> r == items[EmailKey := email][PasswordKey := password][RememberKey := "true"]
    ensures !remember ==> r == (items - {EmailKey, PasswordKey})[RememberKey := "false"]
    ensures forall k :: k in items && k !in {EmailKey, PasswordKey, RememberKey} ==> k in r && r[k] == items[k]
  {
    if remember then items[EmailKey := email][PasswordKey := password][RememberKey := "true"]
    else (items - {EmailKey, PasswordKey})[RememberKey := "false"]
  }

  /** The form fields after `loadStoredCredentials`: only a stored `remember_me`
      of exactly `"true"` changes anything, and then only truthy saved values
      replace the fields. */
  function Restored(items: map<string, string>, fields: (string, string, bool)): (r: (string, string, bool))
    ensures RememberKey !in items || items[RememberKey] != "true" ==> r == fields
    ensures RememberKey in items && items[RememberKey] == "true" ==> r.2
    ensures r.0 != fields.0 ==> EmailKey in items && r.0 == items[EmailKey] != ""
    ensures r.1 != fields.1 ==> PasswordKey in items && r.1 == items[PasswordKey] != ""
  {
    if RememberKey in items && items[RememberKey] == "true" then
      var email := if EmailKey in items && items[EmailKey] != "" then items[EmailKey] else fields.0;
      var password := if PasswordKey in items && items[PasswordKey] != "" then items[PasswordKey] else fields.1;
      (email, password, true)
    else fields
  }

  /** A remembered login, then a restart of the screen from any field values,
      brings back the same credentials with remember-me on. */
  lemma RememberedLoginRestores(items: map<string, string>, email: string, password: string, fields: (string, string, bool))
    requires email != "" && password != ""
    ensures Restored(RememberWrites(items, email, password, true), fields) == (email, password, true)
  {
  }

  /** After a login without remember-me, a restart restores nothing: the saved
      credentials are gone and the flag reads `"false"`. */
  lemma ForgottenLoginRestoresNothing(items: map<string, string>, email: string, password: string, fields: (string, string, bool))
    ensures var after := RememberWrites(items, email, password, false);
      EmailKey !in after && PasswordKey !in after && Restored(after, fields) == fields
  {
  }

  class LoginScreen {
    var email: string
    var password: string
    var showPassword: bool
    var rememberMe: bool
    /** Alerts shown, as (title, message). */
    var alerts: seq<(string, string)>
    /** Login requests issued, as (email, password). */
    var requests: seq<(string, string)>
    const storage: KeyValueStore

    constructor (storage: KeyValueStore)
      ensures email == "" && password == "" && !showPassword && !rememberMe
      ensures alerts == [] && requests == []
      ensures this.storage == storage
    {
      email, password := "", "";
      showPassword, rememberMe := false, false;
      alerts, requests := [], [];
      this.storage := storage;
    }

    method SetEmail(text: string)
      modifies this
      ensures email == text
      ensures password == old(password) && rememberMe == old(rememberMe) && showPassword == old(showPassword)
      ensures alerts == old(alerts) && requests == old(requests)
    {
      email := text;
    }

    method SetPassword(text: string)
      modifies this
      ensures password == text
      ensures email == old(email) && rememberMe == old(rememberMe) && showPassword == old(showPassword)
      ensures alerts == old(alerts) && requests == old(requests)
    {
      password := text;
    }

    /** The remember-me checkbox. */
    method ToggleRemember()
      modifies this
      ensures rememberMe == !old(rememberMe)
      ensures email == old(email) && password == old(password) && showPassword == old(showPassword)
      ensures alerts == old(alerts) && requests == old(requests)
    {
      rememberMe := !rememberMe;
    }

    /** The eye icon. */
    method ToggleShowPassword()
      modifies this
      ensures showPassword == !old(showPassword)
      ensures email == old(email) && password == old(password) && rememberMe == old(rememberMe)
      ensures alerts == old(alerts) && requests == old(requests)
    {
      showPassword := !showPassword;
    }

    /** `loadStoredCredentials`, run once when the screen mounts. */
    method LoadStoredCredentials()
      modifies this
      ensures (email, password, rememberMe) == Restored(storage.items, old((email, password, rememberMe)))
      ensures showPassword == old(showPassword) && alerts == old(alerts) && requests == old(requests)
    {
      var savedEmail := storage.GetItem(EmailKey);
      var savedPassword := storage.GetItem(PasswordKey);
      var savedRemember := storage.GetItem(RememberKey);
      if savedRemember == Some("true") {
        if ApiClient.Truthy(savedEmail) {
          email := savedEmail.value;
        }
        if ApiClient.Truthy(savedPassword) {
          password := savedPassword.value;
        }
        rememberMe := true;
      }
    }

    /** `handleLogin`: an empty field alerts and stops before any storage call;
        otherwise the remember-me writes finish and then the request is sent. */
    method HandleLogin()
      modifies this, storage
      ensures email == old(email) && password == old(password) && rememberMe == old(rememberMe)
      ensures showPassword == old(showPassword)
      ensures old(email) == "" || old(password) == "" ==>
        storage.items == old(storage.items) && requests == old(requests)
        && alerts == old(alerts) + [("Error", FillAllFields)]
      ensures old(email) != "" && old(password) != "" ==>
        storage.items == RememberWrites(old(storage.items), email, password, rememberMe)
        && requests == old(requests) + [(email, password)] && alerts == old(alerts)
    {
      if email == "" || password == "" {
        alerts := alerts + [("Error", FillAllFields)];
        return;
      }
      if rememberMe {
        storage.SetItem(EmailKey, email);
        storage.SetItem(PasswordKey, password);
        storage.SetItem(RememberKey, "true");
      } else {
        storage.RemoveItem(EmailKey);
        storage.RemoveItem(PasswordKey);
        storage.SetItem(RememberKey, "false");
      }
      requests := requests + [(email, password)];
    }

    /** The login request's `onError`. */
    method LoginRejected(detail: Option<string>)
      modifies this
      ensures alerts == old(alerts) + [(LoginFailed, ApiClient.ErrorDetail(detail, GenericFailure))]
      ensures email == old(email) && password == old(password) && rememberMe == old(rememberMe)
      ensures showPassword == old(showPassword) && requests == old(requests)
    {
      alerts := alerts + [(LoginFailed, ApiClient.ErrorDetail(detail, GenericFailure))];
    }
  }

  /** The round trip through the screen: a remembered login, then a fresh
      screen over the same store, shows the same credentials. */
  method RememberedLoginScenario(storage: KeyValueStore, email: string, password: string)
      returns (second: LoginScreen)
    requires email != "" && password != ""
    modifies storage
    ensures second.email == email && second.password == password && second.rememberMe
  {
    var first := new LoginScreen(storage);
    first.SetEmail(email);
    first.SetPassword(password);
    first.ToggleRemember();
    first.HandleLogin();
    second := new LoginScreen(storage);
    second.LoadStoredCredentials();
    RememberedLoginRestores(old(storage.items), email, password, ("", "", false));
  }
}
