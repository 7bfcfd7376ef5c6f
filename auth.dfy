/**
 * Credential storage and the setup steps that fill it. Storage is a
 * key-value map of JSON values. The source reads and writes browser
 * local storage with `getItem`/`setItem`, or the extension's storage area
 * in an extension; both behave as the same map here (see README).
 */
module Auth {
  import opened Wrappers
  import opened Json
  import opened Errors

  const SalesforceToken := "salesforceToken"
  const SalesforceInstanceUrl := "salesforceInstanceUrl"
  const OpenAIKey := "openAIKey"
  const ClientId := "clientId"

  const MockSalesforceToken := "mock_salesforce_token"
  const MockSalesforceInstanceUrl := "https://mock.salesforce.com"
  const MockOpenAIKey := "mock_openai_key"

  /**
   * The browser's key-value store. Each stored text is the JSON serialisation
   * of a value, which the model keeps as the value itself: a serialisation is
   * never the empty text, so every stored key is also a truthy text.
   */
  class LocalStorage {
    var items: map<string, Value>

    constructor (initial: map<string, Value>)
      ensures items == initial
    {
      items := initial;
    }

    /** `localStorage.getItem(key)` followed by `JSON.parse`. */
    method GetItem(key: string) returns (v: Option<Value>)
      ensures v == if key in items then Some(items[key]) else None
    {
      v := if key in items then Some(items[key]) else None;
    }

    /** `localStorage.setItem(key, JSON.stringify(value))`. */
    method SetItem(key: string, value: Value)
      modifies this
      ensures items == old(items)[key := value]
    {
      items := items[key := value];
    }
  }

  /** The entries of `items` whose keys are among `keys`. */
  function Lookup(items: map<string, Value>, keys: seq<string>): map<string, Value> {
    map k | k in items && k in keys :: items[k]
  }

  /**
   * `getFromStorage(keys)`: the stored value of every requested key that is
   * present; absent keys are left out of the result.
   */
  method GetFromStorage(storage: LocalStorage, keys: seq<string>) returns (result: map<string, Value>)
    ensures forall k :: k in result <==> k in keys && k in storage.items
    ensures forall k :: k in result ==> result[k] == storage.items[k]
    ensures result == Lookup(storage.items, keys)
  {
    result := map[];
    for i := 0 to |keys|
      invariant forall k :: k in result <==> k in keys[..i] && k in storage.items
      invariant forall k :: k in result ==> result[k] == storage.items[k]
    {
      var value := storage.GetItem(keys[i]);
      if value.Some? {
        result := result[keys[i] := value.value];
      }
    }
    assert keys[..|keys|] == keys;
  }

  /** `setInStorage(data)`: writes every entry of `data`; other keys keep their values. */
  method SetInStorage(storage: LocalStorage, data: map<string, Value>)
    modifies storage
    ensures storage.items == old(storage.items) + data
  {
    var pending := data.Keys;
    while pending != {}
      invariant pending <= data.Keys
      invariant storage.items == old(storage.items) + map k | k in data.Keys - pending :: data[k]
      decreases pending
    {
      var k :| k in pending;
      storage.SetItem(k, data[k]);
      pending := pending - {k};
    }
    assert data == map k | k in data.Keys - pending :: data[k];
  }

  /** Reading back keys that were just written yields the written values. */
  lemma SetThenGet(items: map<string, Value>, data: map<string, Value>, keys: seq<string>)
    requires forall k :: k in keys ==> k in data
    ensures Lookup(items + data, keys) == Lookup(data, keys)
    ensures forall k :: k in keys ==> Lookup(items + data, keys)[k] == data[k]
  {
  }

  /** Requesting a key gives the stored value exactly when it is stored, so its truthiness too. */
  lemma LookupTruthyAt(items: map<string, Value>, keys: seq<string>, key: string)
    requires key in keys
    ensures TruthyAt(Lookup(items, keys), key) == TruthyAt(items, key)
  {
  }

  /** `checkAuthentication`: both a CRM token and a model API key are stored and truthy. */
  method CheckAuthentication(storage: LocalStorage) returns (ok: bool)
    ensures ok <==> TruthyAt(storage.items, SalesforceToken) && TruthyAt(storage.items, OpenAIKey)
  {
    var got := GetFromStorage(storage, [SalesforceToken, OpenAIKey]);
    ok := TruthyAt(got, SalesforceToken) && TruthyAt(got, OpenAIKey);
  }

  /** `getClientId`: the stored consumer key, or an error when it is absent or falsy. */
  method GetClientId(storage: LocalStorage) returns (r: Result<Value, Error>)
    ensures r.Success? <==> TruthyAt(storage.items, ClientId)
    ensures r.Success? ==> r.value == storage.items[ClientId]
    ensures r.Failure? ==> r.error == ClientIdMissing
  {
    var got := GetFromStorage(storage, [ClientId]);
    if !TruthyAt(got, ClientId) {
      return Failure(ClientIdMissing);
    }
    return Success(got[ClientId]);
  }

  /**
   * `setupOpenAIAPI`: nothing to do when a key is stored; otherwise the key the
   * user types into the prompt (extension) or the mock key (elsewhere) is stored.
   * `promptAnswer` is what `prompt()` returned: `None` when it was dismissed.
   */
  method SetupOpenAIAPI(storage: LocalStorage, inExtension: bool, promptAnswer: Option<string>)
    returns (r: Outcome<Error>)
    modifies storage
    ensures TruthyAt(old(storage.items), OpenAIKey) ==>
              r == Pass && storage.items == old(storage.items)
    ensures !TruthyAt(old(storage.items), OpenAIKey) && !inExtension ==>
              r == Pass && storage.items == old(storage.items)[OpenAIKey := Str(MockOpenAIKey)]
    ensures !TruthyAt(old(storage.items), OpenAIKey) && inExtension ==>
              if promptAnswer.Some? && promptAnswer.value != "" then
                r == Pass && storage.items == old(storage.items)[OpenAIKey := Str(promptAnswer.value)]
              else
                r == Fail(ApiKeyRequired) && storage.items == old(storage.items)
  {
    var result := GetFromStorage(storage, [OpenAIKey]);
    if TruthyAt(result, OpenAIKey) {
      return Pass;
    }
    if inExtension {
      if promptAnswer.Some? && promptAnswer.value != "" {
        SetInStorage(storage, map[OpenAIKey := Str(promptAnswer.value)]);
        return Pass;
      }
      return Fail(ApiKeyRequired);
    }
    SetInStorage(storage, map[OpenAIKey := Str(MockOpenAIKey)]);
    return Pass;
  }

  /** How the interactive authorisation flow ended, as its callback sees it. */
  datatype AuthFlow =
    | LastError                  // `chrome.runtime.lastError` was set
    | NoRedirect                 // the callback received no redirect URL
    | MalformedRedirect(message: string) // `new URL(redirectUrl)` threw
    | Redirected(accessToken: Option<string>, instanceUrl: Option<string>) // the fragment's two parameters

  /**
   * The callback's decision: the credentials to store, or the rejection. Token and
   * instance URL are stored only when both are present and non-empty.
   */
  function CallbackCredentials(flow: AuthFlow): (r: Result<map<string, Value>, Error>)
    ensures r.Success? <==>
              flow.Redirected? && flow.accessToken.Some? && flow.accessToken.value != ""
              && flow.instanceUrl.Some? && flow.instanceUrl.value != ""
    ensures r.Success? ==>
              r.value == map[SalesforceToken := Str(flow.accessToken.value),
                             SalesforceInstanceUrl := Str(flow.instanceUrl.value)]
    ensures flow.Redirected? && r.Failure? ==> r.error == CredentialsNotObtained
    ensures flow.LastError? ==> r == Failure(AuthFlowFailed)
    ensures flow.NoRedirect? ==> r == Failure(NoRedirectUrl)
    ensures flow.MalformedRedirect? ==> r == Failure(Thrown(flow.message))
  {
    match flow
    case LastError => Failure(AuthFlowFailed)
    case NoRedirect => Failure(NoRedirectUrl)
    case MalformedRedirect(message) => Failure(Thrown(message))
    case Redirected(accessToken, instanceUrl) =>
      if accessToken.Some? && accessToken.value != "" && instanceUrl.Some? && instanceUrl.value != "" then
        Success(map[SalesforceToken := Str(accessToken.value), SalesforceInstanceUrl := Str(instanceUrl.value)])
      else
        Failure(CredentialsNotObtained)
  }

  /** The mock credentials stored outside an extension. */
  const MockSalesforceCredentials: map<string, Value> :=
    map[SalesforceToken := Str(MockSalesforceToken), SalesforceInstanceUrl := Str(MockSalesforceInstanceUrl)]

  /**
   * `setupSalesforceOAuth`. In an extension it needs the stored client id, runs
   * the authorisation flow (whose outcome for a given client id is `flow`) and
   * stores what the callback decides; elsewhere it stores the mock credentials.
   */
  method SetupSalesforceOAuth(storage: LocalStorage, inExtension: bool, flow: Value -> AuthFlow)
    returns (r: Outcome<Error>)
    modifies storage
    ensures !inExtension ==> r == Pass && storage.items == old(storage.items) + MockSalesforceCredentials
    ensures inExtension && !TruthyAt(old(storage.items), ClientId) ==>
              r == Fail(ClientIdMissing) && storage.items == old(storage.items)
    ensures inExtension && TruthyAt(old(storage.items), ClientId) ==>
              var decision := CallbackCredentials(flow(old(storage.items)[ClientId]));
              if decision.Success? then
                r == Pass && storage.items == old(storage.items) + decision.value
              else
                r == Fail(decision.error) && storage.items == old(storage.items)
  {
    if !inExtension {
      SetInStorage(storage, MockSalesforceCredentials);
      return Pass;
    }
    var clientId := GetClientId(storage);
    if clientId.Failure? {
      return Fail(clientId.error);
    }
    var decision := CallbackCredentials(flow(clientId.value));
    if decision.Failure? {
      return Fail(decision.error);
    }
    SetInStorage(storage, decision.value);
    return Pass;
  }
}
