/**
 * The two mutable objects the download back-end fills in: the transfer
 * settings (TransferSettings) and the argument list handed to an external
 * program (ExternalProgram::Arguments). Their accessors are plain fields.
 */
module Transfer {

  /** The value held by a TransferSettings object at one moment. */
  datatype Settings = Settings(
    userAgent: string,
    headers: seq<string>,
    username: string,
    password: string,
    proxyEnabled: bool,
    proxy: string,
    proxyUsername: string,
    proxyPassword: string,
    timeout: int,
    connectTimeout: int)

  /** TransferSettings: one field per setting, changed only through its setter. */
  class TransferSettings {
    var userAgent: string
    var headers: seq<string>
    var username: string
    var password: string
    var proxyEnabled: bool
    var proxy: string
    var proxyUsername: string
    var proxyPassword: string
    var timeout: int
    var connectTimeout: int

    /** The settings as a value. */
    function Value(): Settings
      reads this
    {
      Settings(userAgent, headers, username, password, proxyEnabled, proxy,
               proxyUsername, proxyPassword, timeout, connectTimeout)
    }

    method SetUserAgentString(agent: string)
      modifies this
      ensures Value() == old(Value()).(userAgent := agent)
    {
      userAgent := agent;
    }

    /** addHeader appends; headers keep the order in which they were added. */
    method AddHeader(header: string)
      modifies this
      ensures Value() == old(Value()).(headers := old(headers) + [header])
    {
      headers := headers + [header];
    }

    method SetUsername(name: string)
      modifies this
      ensures Value() == old(Value()).(username := name)
    {
      username := name;
    }

    method SetPassword(secret: string)
      modifies this
      ensures Value() == old(Value()).(password := secret)
    {
      password := secret;
    }

    method SetProxyEnabled(enabled: bool)
      modifies this
      ensures Value() == old(Value()).(proxyEnabled := enabled)
    {
      proxyEnabled := enabled;
    }

    method SetProxy(address: string)
      modifies this
      ensures Value() == old(Value()).(proxy := address)
    {
      proxy := address;
    }

    method SetTimeout(seconds: int)
      modifies this
      ensures Value() == old(Value()).(timeout := seconds)
    {
      timeout := seconds;
    }

    method SetConnectTimeout(seconds: int)
      modifies this
      ensures Value() == old(Value()).(connectTimeout := seconds)
    {
      connectTimeout := seconds;
    }
  }

  /** ExternalProgram::Arguments: a list of strings callers only append to. */
  class ArgList {
    var items: seq<string>

    constructor ()
      ensures items == []
    {
      items := [];
    }

    method PushBack(arg: string)
      modifies this
      ensures items == old(items) + [arg]
    {
      items := items + [arg];
    }
  }
}
