/** Client construction: ClientConfig, its defaults and how NewClientWithConfig normalises them. */
module Config {
  import opened Wrappers
  import opened Text

  const DefaultBaseURL := "https://api.xiangxinai.cn/v1"
  const DefaultModel := "Xiangxin-Guardrails-Text"
  const DefaultTimeout := 30
  const DefaultMaxRetries := 3
  const UserAgent := "xiangxinai-go/2.6.2"

  datatype ClientConfig = ClientConfig(apiKey: string, baseURL: string, timeout: int, maxRetries: int)

  /**
   * What a Client keeps: the settings of its HTTP client (base URL, timeout
   * in seconds, default headers) and the retry budget.
   */
  datatype Client = Client(baseURL: string, timeout: int, headers: map<string, string>, maxRetries: int)

  /**
   * NewClientWithConfig. The panic on an empty API key is the Failure
   * carrying the panic's message.
   */
  method NewClientWithConfig(config: ClientConfig) returns (r: Result<Client, string>)
    ensures r.Failure? <==> config.apiKey == ""
    ensures r.Failure? ==> r.error == "API key cannot be empty"
    ensures r.Success? ==> config.baseURL == "" ==> r.value.baseURL == DefaultBaseURL
    ensures r.Success? ==> config.baseURL != "" ==>
      if HasSuffix(config.baseURL, "/") then r.value.baseURL + "/" == config.baseURL
      else r.value.baseURL == config.baseURL
    ensures r.Success? ==> r.value.timeout > 0
    ensures r.Success? ==> r.value.timeout == if config.timeout <= 0 then DefaultTimeout else config.timeout
    ensures r.Success? ==> r.value.maxRetries >= 0
    ensures r.Success? ==> r.value.maxRetries == if config.maxRetries < 0 then DefaultMaxRetries else config.maxRetries
    ensures r.Success? ==> r.value.headers == map[
      "Authorization" := "Bearer " + config.apiKey,
      "Content-Type" := "application/json",
      "User-Agent" := UserAgent]
  {
    if config.apiKey == "" {
      return Failure("API key cannot be empty");
    }

    var baseURL := config.baseURL;
    if baseURL == "" {
      baseURL := DefaultBaseURL;
    }
    assert !HasSuffix(DefaultBaseURL, "/") by {
      assert DefaultBaseURL[|DefaultBaseURL| - 1] == '1';
    }
    baseURL := TrimSuffix(baseURL, "/");

    var timeout := config.timeout;
    if timeout <= 0 {
      timeout := DefaultTimeout;
    }

    var maxRetries := config.maxRetries;
    if maxRetries < 0 {
      maxRetries := DefaultMaxRetries;
    }

    var headers := map[];
    headers := headers["Authorization" := "Bearer " + config.apiKey];
    headers := headers["Content-Type" := "application/json"];
    headers := headers["User-Agent" := UserAgent];

    return Success(Client(baseURL, timeout, headers, maxRetries));
  }

  /** NewClient: the default URL, a 30-second timeout and three retries. */
  method NewClient(apiKey: string) returns (r: Result<Client, string>)
    ensures r.Failure? <==> apiKey == ""
    ensures r.Success? ==> r.value.baseURL == DefaultBaseURL
    ensures r.Success? ==> r.value.timeout == DefaultTimeout && r.value.maxRetries == DefaultMaxRetries
  {
    r := NewClientWithConfig(ClientConfig(apiKey, DefaultBaseURL, DefaultTimeout, DefaultMaxRetries));
  }
}
