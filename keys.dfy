/** What a key provider returns (IApiKey) and the provider itself
    (IApiKeyProvider), which is user code and so a parameter of the model. */
module Keys {
  import opened Common
  import opened Claims

  /** IApiKey: the key as the provider knows it, its owner and its claims;
      every member may be null. */
  datatype ApiKey = ApiKey(key: NString, ownerName: NString, claims: Option<seq<Claim>>)

  /** IApiKeyProvider.ProvideAsync: given the parsed key it returns a key
      record, null (`None`) for an unknown key, or throws. */
  type Provider = string -> Outcome<Option<ApiKey>>

  /** The registered ApiKeyProviderType. Creating it through the service
      provider yields an IApiKeyProvider, or (`instance == None`) an object
      that is not one. */
  datatype ProviderType = ProviderType(name: string, instance: Option<Provider>)
}
