/** The SMB connection helpers (SMBUtil): the protocol-marker check, the port
    sanitiser, the credentials found in a client configuration, and the
    composition of the connection URI from its components. The URI is kept
    as the record of components handed to `java.net.URI`; whether that
    constructor accepts them is a parameter of the model. */
module SmbUtil {
  import opened Wrappers
  import opened JavaText

  const ProtocolMarker := "smb"
  const MaxPort := 65535
  /** The port sanitiser's answer for an out-of-range port. */
  const InvalidPort: Int32 := -1
  /** `Integer.MAX_VALUE`. */
  const IntegerMaxValue: Int32 := Int32Max

  const UsernameKey := "username"
  const PasswordKey := "password"

  /** `notValidProtocol`: true when the target does not start with the exact,
      case-sensitive marker "smb". Anything after the marker is accepted. */
  function NotValidProtocol(url: string): (r: bool)
    ensures !r <==> 3 <= |url| && url[0] == 's' && url[1] == 'm' && url[2] == 'b'
  {
    !StartsWith(url, ProtocolMarker)
  }

  lemma ProtocolExamples()
    ensures !NotValidProtocol("smb://host/path")
    ensures !NotValidProtocol("smbx")
    ensures NotValidProtocol("ftp://host/path")
    ensures NotValidProtocol("SMB://host")
    ensures NotValidProtocol("sm")
  {
  }

  // ---------------------------------------------------------------------
  // Port sanitising

  /** `Math.toIntExact`: narrows a `long` to an `int`, or fails with an
      `ArithmeticException` when the value does not fit. */
  datatype ArithmeticException = IntegerOverflow

  function ToIntExact(v: Int64): (r: Result<Int32, ArithmeticException>)
    ensures r.Success? <==> Int32Min <= v <= Int32Max
    ensures r.Success? ==> r.value == v
  {
    if Int32Min <= v <= Int32Max then Success(v) else Failure(IntegerOverflow)
  }

  /** `extractPortValue`: a port outside 1..65535 becomes -1; a port inside is
      narrowed with `Math.toIntExact`, clamping to `Integer.MAX_VALUE` should
      that fail. The log lines of both failure paths are not modelled. */
  function ExtractPortValue(v: Int64): (r: Int32)
    ensures v <= 0 || v > MaxPort ==> r == InvalidPort
    ensures 1 <= v <= MaxPort ==> r == v
    ensures r == InvalidPort || 1 <= r <= MaxPort
  {
    if v <= 0 || v > MaxPort then InvalidPort
    else
      match ToIntExact(v)
      case Success(port) => port
      case Failure(_) => IntegerMaxValue
  }

  /** The clamp to `Integer.MAX_VALUE` is dead code: every value that passes
      the range check fits in an `int`. */
  lemma ClampUnreachable(v: Int64)
    requires !(v <= 0 || v > MaxPort)
    ensures ToIntExact(v).Success?
    ensures ExtractPortValue(v) != IntegerMaxValue
  {
  }

  lemma PortExamples()
    ensures ExtractPortValue(0) == -1
    ensures ExtractPortValue(-445) == -1
    ensures ExtractPortValue(1) == 1
    ensures ExtractPortValue(445) == 445
    ensures ExtractPortValue(65535) == 65535
    ensures ExtractPortValue(65536) == -1
    ensures ExtractPortValue(Int64Max) == -1
  {
  }

  // ---------------------------------------------------------------------
  // Configuration and credentials

  /** The `basicAuth` block; either entry may be missing, reading as null. */
  datatype BasicAuth = BasicAuth(username: JString, password: JString)

  /** The `secureSocket` block; only its `basicAuth` entry is read here. */
  datatype SecureSocket = SecureSocket(basicAuth: Option<BasicAuth>)

  /** A client configuration as `createUrl(MapValue)` and `getAuthMap` read it. */
  datatype ClientConfig = ClientConfig(
    protocol: JString,
    host: JString,
    port: Int64,
    path: JString,
    secureSocket: Option<SecureSocket>)

  /** The connection fields a client connector keeps as native data. */
  datatype ConnectorData = ConnectorData(
    protocol: JString,
    host: JString,
    port: Int32,
    username: JString,
    password: JString)

  datatype Credentials = Credentials(username: JString, password: JString)

  predicate HasBasicAuth(config: ClientConfig) {
    config.secureSocket.Some? && config.secureSocket.value.basicAuth.Some?
  }

  /** The credential lookup shared by `createUrl(MapValue)` and `getAuthMap`:
      a missing `secureSocket` or `basicAuth` block leaves both null. */
  function ConfigCredentials(config: ClientConfig): (c: Credentials)
    ensures !HasBasicAuth(config) ==> c.username.None? && c.password.None?
    ensures HasBasicAuth(config) ==>
              var auth := config.secureSocket.value.basicAuth.value;
              c.username == auth.username && c.password == auth.password
  {
    match config.secureSocket
    case None => Credentials(None, None)
    case Some(secureSocket) =>
      match secureSocket.basicAuth
      case None => Credentials(None, None)
      case Some(auth) => Credentials(auth.username, auth.password)
  }

  /** `getAuthMap`: exactly the keys "username" and "password", each bound to
      the credential found in the configuration, null included. */
  function GetAuthMap(config: ClientConfig): (m: map<string, JString>)
    ensures m.Keys == {UsernameKey, PasswordKey}
    ensures m[UsernameKey] == (if HasBasicAuth(config)
                               then config.secureSocket.value.basicAuth.value.username else None)
    ensures m[PasswordKey] == (if HasBasicAuth(config)
                               then config.secureSocket.value.basicAuth.value.password else None)
  {
    var c := ConfigCredentials(config);
    map[UsernameKey := c.username, PasswordKey := c.password]
  }

  // ---------------------------------------------------------------------
  // URI composition

  /** The arguments of `new URI(scheme, userInfo, host, port, path, null, null)`. */
  datatype UriComponents = UriComponents(
    scheme: JString,
    userInfo: string,
    host: JString,
    port: Int32,
    path: JString)

  /** How `java.net.URI` judges a set of components: `None` when it builds the
      URI, `Some(reason)` when it throws `URISyntaxException` with that message. */
  type UriSyntaxCheck = UriComponents -> Option<string>

  /** The leading part of the failure message; the password is not in it. */
  function ConstructionFailurePrefix(host: JString, port: Int32, username: JString, path: JString): (m: string)
    ensures "Error occurred while constructing a URI from host: " + Render(host) + ", port: " + IntToDecimal(port)
            <= m
    ensures var tail := ", username: " + Render(username) + " and basePath: " + Render(path);
            |tail| <= |m| && m[|m| - |tail|..] == tail
  {
    var lead := "Error occurred while constructing a URI from host: " + Render(host) + ", port: " + IntToDecimal(port);
    var tail := ", username: " + Render(username) + " and basePath: " + Render(path);
    EndsOfConcat(lead, tail);
    lead + tail
  }

  lemma EndsOfConcat(a: string, b: string)
    ensures a <= a + b
    ensures (a + b)[|a + b| - |b|..] == b
  {
    assert (a + b)[..|a|] == a;
  }

  /** The private `createUrl`: joins the credentials into the user information
      and hands the components to the URI constructor; a rejection becomes a
      failure whose message names host, port, user name and path, followed
      by the constructor's own reason. */
  function ComposeUri(protocol: JString, host: JString, port: Int32, username: JString,
                      password: JString, path: JString, syntax: UriSyntaxCheck)
    : (r: Result<UriComponents, string>)
    ensures r.Success? ==>
              && r.value.scheme == protocol && r.value.host == host
              && r.value.port == port && r.value.path == path
                 // the user information is the two rendered credentials around a
                 // colon, and reads back as them unless the user name holds a colon
              && ':' in r.value.userInfo
              && |r.value.userInfo| == |Render(username)| + 1 + |Render(password)|
              && (':' !in Render(username) ==>
                    SplitUserInfo(r.value.userInfo) == (Render(username), Render(password)))
    ensures r.Failure? <==> syntax(UriComponents(protocol, JoinUserInfo(username, password), host, port, path)).Some?
    ensures r.Failure? ==>
              var reason := syntax(UriComponents(protocol, JoinUserInfo(username, password), host, port, path)).value;
              r.error == ConstructionFailurePrefix(host, port, username, path) + reason
  {
    var components := UriComponents(protocol, JoinUserInfo(username, password), host, port, path);
    UserInfoRoundTrip(username, password);
    match syntax(components)
    case None => Success(components)
    case Some(reason) =>
      Failure(ConstructionFailurePrefix(host, port, username, path) + reason)
  }

  /** `createUrl(ObjectValue, String)`: the connector's stored fields, with
      the port passed on exactly as stored, whatever its value. */
  function CreateUrlFromConnector(connector: ConnectorData, filePath: JString, syntax: UriSyntaxCheck)
    : (r: Result<UriComponents, string>)
    ensures r.Success? ==>
              && r.value.port == connector.port
              && r.value.host == connector.host
              && r.value.scheme == connector.protocol
              && r.value.path == filePath
    ensures r.Success? ==>
              && ':' in r.value.userInfo
              && |r.value.userInfo| == |Render(connector.username)| + 1 + |Render(connector.password)|
    ensures r.Success? && ':' !in Render(connector.username) ==>
              SplitUserInfo(r.value.userInfo) == (Render(connector.username), Render(connector.password))
    // it fails exactly when the URI constructor rejects the stored fields
    ensures var components := UriComponents(connector.protocol,
                                            JoinUserInfo(connector.username, connector.password),
                                            connector.host, connector.port, filePath);
            && (r.Failure? <==> syntax(components).Some?)
            && (r.Failure? ==>
                  r.error == ConstructionFailurePrefix(connector.host, connector.port, connector.username, filePath)
                             + syntax(components).value)
  {
    ComposeUri(connector.protocol, connector.host, connector.port,
               connector.username, connector.password, filePath, syntax)
  }

  /** `createUrl(MapValue)`: the configuration's fields, with the port run
      through the sanitiser and the credentials taken from `basicAuth`
      inside `secureSocket` when both blocks are present. */
  function CreateUrlFromConfig(config: ClientConfig, syntax: UriSyntaxCheck)
    : (r: Result<UriComponents, string>)
    ensures r.Success? ==>
              && r.value.port == ExtractPortValue(config.port)
              && (r.value.port == InvalidPort || 1 <= r.value.port <= MaxPort)
              && r.value.host == config.host
              && r.value.scheme == config.protocol
              && r.value.path == config.path
    ensures r.Success? ==>
              var c := ConfigCredentials(config);
              && ':' in r.value.userInfo
              && |r.value.userInfo| == |Render(c.username)| + 1 + |Render(c.password)|
    ensures r.Success? && !HasBasicAuth(config) ==> r.value.userInfo == "null:null"
    ensures r.Success? && HasBasicAuth(config) ==>
              var auth := config.secureSocket.value.basicAuth.value;
              ':' !in Render(auth.username) ==>
                SplitUserInfo(r.value.userInfo) == (Render(auth.username), Render(auth.password))
    // it fails exactly when the URI constructor rejects the resolved fields
    ensures var c := ConfigCredentials(config);
            var port := ExtractPortValue(config.port);
            var components := UriComponents(config.protocol, JoinUserInfo(c.username, c.password),
                                            config.host, port, config.path);
            && (r.Failure? <==> syntax(components).Some?)
            && (r.Failure? ==>
                  r.error == ConstructionFailurePrefix(config.host, port, c.username, config.path)
                             + syntax(components).value)
  {
    var credentials := ConfigCredentials(config);
    ComposeUri(config.protocol, config.host, ExtractPortValue(config.port),
               credentials.username, credentials.password, config.path, syntax)
  }

  /** `getAuthMap` and `createUrl(MapValue)` read the same credentials: a URI
      built from a configuration carries exactly the pair the map holds. */
  lemma AuthMapMatchesUrlCredentials(config: ClientConfig, syntax: UriSyntaxCheck)
    ensures var r := CreateUrlFromConfig(config, syntax);
            var m := GetAuthMap(config);
            r.Success? ==> r.value.userInfo == JoinUserInfo(m[UsernameKey], m[PasswordKey])
  {
  }

  /** Both entry points meet in the same composer: a connector holding the
      fields a configuration resolves to yields the same outcome. */
  lemma EntryPointsAgree(config: ClientConfig, syntax: UriSyntaxCheck)
    ensures var c := ConfigCredentials(config);
            var connector := ConnectorData(config.protocol, config.host, ExtractPortValue(config.port),
                                           c.username, c.password);
            CreateUrlFromConnector(connector, config.path, syntax) == CreateUrlFromConfig(config, syntax)
  {
  }

  /** The text before the constructor's reason does not mention the password:
      two attempts that differ only in the password, rejected for the same
      reason, report the same message. */
  lemma FailureMessageOmitsPassword(protocol: JString, host: JString, port: Int32, username: JString,
                                    password1: JString, password2: JString, path: JString,
                                    syntax: UriSyntaxCheck)
    requires var r1 := ComposeUri(protocol, host, port, username, password1, path, syntax);
             var r2 := ComposeUri(protocol, host, port, username, password2, path, syntax);
             r1.Failure? && r2.Failure?
    requires syntax(UriComponents(protocol, JoinUserInfo(username, password1), host, port, path))
             == syntax(UriComponents(protocol, JoinUserInfo(username, password2), host, port, path))
    ensures ComposeUri(protocol, host, port, username, password1, path, syntax)
            == ComposeUri(protocol, host, port, username, password2, path, syntax)
  {
  }

  lemma MiddleOfConcat(a: string, b: string, c: string)
    ensures a <= a + b + c
    ensures (a + b + c)[|a|..|a| + |b|] == b
  {
    assert (a + b + c)[..|a|] == a;
  }

  /** The port in the failure message is the port itself, in Java's decimal
      form: the text after "port: " reads back as the same number. */
  lemma FailureMessageNamesPort(host: JString, port: Int32, username: JString, path: JString)
    ensures var prefix := "Error occurred while constructing a URI from host: " + Render(host) + ", port: ";
            var message := ConstructionFailurePrefix(host, port, username, path);
            && prefix <= message
            && ParseDecimal(message[|prefix|..|prefix| + |IntToDecimal(port)|]) == Some(port)
  {
    var prefix := "Error occurred while constructing a URI from host: " + Render(host) + ", port: ";
    var message := ConstructionFailurePrefix(host, port, username, path);
    var digits := IntToDecimal(port);
    var rest := ", username: " + Render(username) + " and basePath: " + Render(path);
    assert message == prefix + digits + rest by {
      assert prefix + digits == "Error occurred while constructing a URI from host: " + Render(host)
                                + ", port: " + IntToDecimal(port);
    }
    MiddleOfConcat(prefix, digits, rest);
    DecimalRoundTrip(port);
  }

  /** A configuration with credentials `alice`/`secret` on `myhost:445`,
      when the URI constructor accepts it. */
  lemma CredentialedExample(syntax: UriSyntaxCheck)
    requires syntax(UriComponents(Some("smb"), "alice:secret", Some("myhost"), 445, Some("/share/dir"))).None?
    ensures var config := ClientConfig(Some("smb"), Some("myhost"), 445, Some("/share/dir"),
                                       Some(SecureSocket(Some(BasicAuth(Some("alice"), Some("secret"))))));
            CreateUrlFromConfig(config, syntax)
            == Success(UriComponents(Some("smb"), "alice:secret", Some("myhost"), 445, Some("/share/dir")))
  {
    assert JoinUserInfo(Some("alice"), Some("secret")) == "alice:secret";
    assert ExtractPortValue(445) == 445;
  }

  /** Without credentials the user information is the text "null:null", not
      an empty pair and not absent. */
  lemma NoCredentialsExample(syntax: UriSyntaxCheck)
    requires syntax(UriComponents(Some("smb"), "null:null", Some("myhost"), 445, Some("/share"))).None?
    ensures var config := ClientConfig(Some("smb"), Some("myhost"), 445, Some("/share"), Some(SecureSocket(None)));
            var r := CreateUrlFromConfig(config, syntax);
            && r.Success?
            && r.value.userInfo == "null:null"
            && SplitUserInfo(r.value.userInfo) == ("null", "null")
  {
    assert JoinUserInfo(None, None) == "null:null";
    assert ExtractPortValue(445) == 445;
    UserInfoRoundTrip(None, None);
  }
}
