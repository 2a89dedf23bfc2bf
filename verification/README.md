# SMB connector helpers — a Dafny model

This project models the two pieces of decision logic in the Ballerina SMB
connector:

- the **listener-service shape rule** of the compiler plugin
  (`ServiceCompilerPlugin.process`): a service bound to the SMB listener must
  declare exactly one resource, whose signature is a single parameter of type
  `smb:WatchEvent`; violations are logged as ERROR diagnostics;
- the **connection helpers** of `SMBUtil`: the `smb` protocol-marker check,
  the port sanitiser `extractPortValue`, the credential lookup in the nested
  `secureSocket`/`basicAuth` configuration shared by `createUrl(MapValue)` and
  `getAuthMap`, and the composition of the connection URI from
  (scheme, user information, host, port, path).

Files:

- `wrappers.dfy` — `Option` (a Java reference that may be null) and `Result`
  (a call that may throw).
- `java_text.dfy` (module `JavaText`) — the Java value semantics the helpers
  rely on: `int`/`long` ranges, how string concatenation renders `null` and
  integers, `String.startsWith`, and reading `user:password` back at its first
  colon (the inverse of the user-information composition).
- `service_plugin.dfy` (module `ServicePlugin`) — the shape rule, as written
  and as evidently intended.
- `smb_util.dfy` (module `SmbUtil`) — the connection helpers.

The compiler tree is reduced to a service (name, position, resources), each
resource to a position and its parameters, each parameter to a position and a
type (an object type with package and type name, or another kind). The
diagnostic log becomes the returned sequence of diagnostics; a run that throws
is the `Aborted` outcome carrying what was logged before the exception. The
service is an immutable value, so the rule cannot change it.

`java.net.URI` is not modelled: the URI is the record of components passed to
its constructor, and whether the constructor accepts them is a parameter
(`UriSyntaxCheck`: `None` when it builds the URI, `Some(reason)` when it throws
`URISyntaxException` with that message).

Behaviour of the code worth knowing, which the model keeps:

- ServiceCompilerPlugin.java:72-77 has no return after the parameter-count
  error: with two or more parameters the first one is still type-checked, and
  with no parameter `parameters.get(0)` throws.
- With no credentials, `username + ":" + password` (SMBUtil.java:87) is
  `null:null`, because Java renders a null reference as `null`.
- A port of -1 from the sanitiser still reaches the URI constructor; for port
  -1 `java.net.URI` writes no port. The model leaves that judgement to the
  constructor parameter.

## Model

| member | source | states |
|---|---|---|
| ServicePlugin.Process | smb-compiler-plugin/src/main/java/org/wso2/ei/b7a/smb/plugin/ServiceCompilerPlugin.java:59-87 | no resources: exactly one ERROR at the service naming it; two or more resources: exactly one ERROR at the service and no further check; the run aborts exactly when the single resource has no parameter, after logging the signature error; one parameter: no diagnostic when its type is accepted, else one ERROR at the parameter; two or more parameters: the signature ERROR at the resource, then a second ERROR, the type ERROR at the first parameter, exactly when that parameter's type is rejected; never more than two diagnostics (all ERROR, the only severity the rule uses) |
| ServicePlugin.TypeDiagnostics | smb-compiler-plugin/src/main/java/org/wso2/ei/b7a/smb/plugin/ServiceCompilerPlugin.java:77-85 | no diagnostic exactly when the type is not an object type or is the object type `WatchEvent` of package `smb`; otherwise the one "Parameter should be of type - smb:WatchEvent" ERROR at the parameter |
| ServicePlugin.ProcessAcceptsExactlyWellShaped | smb-compiler-plugin/src/main/java/org/wso2/ei/b7a/smb/plugin/ServiceCompilerPlugin.java:59-87 | the rule completes with no diagnostic if and only if the service has one resource with one parameter of an accepted type |
| ServicePlugin.OtherTypeNeverFlagged | smb-compiler-plugin/src/main/java/org/wso2/ei/b7a/smb/plugin/ServiceCompilerPlugin.java:78 | a non-object first parameter never draws the type ERROR, whatever the parameter count |
| ServicePlugin.ProcessIntended | smb-compiler-plugin/src/main/java/org/wso2/ei/b7a/smb/plugin/ServiceCompilerPlugin.java:69-85 | with the return after the signature error: at most one diagnostic, none exactly for well-shaped services, and a wrong parameter count yields only the signature ERROR |
| ServicePlugin.IntendedAgreesOffSignatureFault | smb-compiler-plugin/src/main/java/org/wso2/ei/b7a/smb/plugin/ServiceCompilerPlugin.java:59-87 | unless the single resource has a parameter count other than one, the plugin as written and the intended rule log the same diagnostics |
| ServicePlugin.ZeroParametersAbort | smb-compiler-plugin/src/main/java/org/wso2/ei/b7a/smb/plugin/ServiceCompilerPlugin.java:72-77 | a resource without parameters: the plugin logs the signature ERROR and then throws; the intended rule logs only that ERROR |
| ServicePlugin.TwoParametersTwoErrors | smb-compiler-plugin/src/main/java/org/wso2/ei/b7a/smb/plugin/ServiceCompilerPlugin.java:72-85 | two `foo:OtherEvent` parameters: the plugin logs the signature ERROR and a type ERROR, the intended rule one ERROR |
| SmbUtil.NotValidProtocol | smb-utils/src/main/java/org/wso2/ei/b7a/smb/util/SMBUtil.java:48-51 | false exactly when the target's first three characters are `s`, `m`, `b` (case-sensitive, nothing checked after them) |
| SmbUtil.ProtocolExamples | smb-utils/src/main/java/org/wso2/ei/b7a/smb/util/SMBUtil.java:48-51 | `smb://host/path` and `smbx` are valid; `ftp://host/path`, `SMB://host` and `sm` are not |
| JavaText.StartsWith | smb-utils/src/main/java/org/wso2/ei/b7a/smb/util/SMBUtil.java:50 | true exactly when the prefix is no longer than the string and equals its leading part |
| SmbUtil.ToIntExact | smb-utils/src/main/java/org/wso2/ei/b7a/smb/util/SMBUtil.java:141 | narrowing a `long` succeeds exactly when it lies in the `int` range, and then keeps the value |
| SmbUtil.ExtractPortValue | smb-utils/src/main/java/org/wso2/ei/b7a/smb/util/SMBUtil.java:134-147 | -1 for a port at most 0 or above 65535; the port itself for 1..65535; so the result is always -1 or in 1..65535 |
| SmbUtil.ClampUnreachable | smb-utils/src/main/java/org/wso2/ei/b7a/smb/util/SMBUtil.java:140-146 | every port past the range check narrows without overflow, so the `Integer.MAX_VALUE` clamp is never returned |
| SmbUtil.PortExamples | smb-utils/src/main/java/org/wso2/ei/b7a/smb/util/SMBUtil.java:134-147 | 0, -445, 65536 and the largest `long` give -1; 1, 445 and 65535 come back unchanged |
| SmbUtil.ConfigCredentials | smb-utils/src/main/java/org/wso2/ei/b7a/smb/util/SMBUtil.java:71-80 | both credentials are null unless `secureSocket` is present and holds `basicAuth`; then both come from `basicAuth` |
| SmbUtil.GetAuthMap | smb-utils/src/main/java/org/wso2/ei/b7a/smb/util/SMBUtil.java:98-114 | exactly the keys `username` and `password`, bound to the `basicAuth` entries when both blocks are present and to null otherwise |
| SmbUtil.ComposeUri | smb-utils/src/main/java/org/wso2/ei/b7a/smb/util/SMBUtil.java:84-96 | on success the URI keeps scheme, host, port and path, its user information is the rendered user name and password around a colon and reads back as the rendered user name and password (when the name has no colon); it fails exactly when the URI constructor rejects the components, with a message of host, port, user name and path followed by the constructor's reason |
| SmbUtil.CreateUrlFromConnector | smb-utils/src/main/java/org/wso2/ei/b7a/smb/util/SMBUtil.java:53-62 | the stored port reaches the URI unchanged, with the stored host and protocol and the given path; the user information is the two rendered credentials around a colon; it fails exactly when the URI constructor rejects those fields, with the message of host, port, user name and path followed by the constructor's reason |
| SmbUtil.CreateUrlFromConfig | smb-utils/src/main/java/org/wso2/ei/b7a/smb/util/SMBUtil.java:64-82 | the port reaching the URI is the sanitised one (so -1 or 1..65535); the user information is the rendered credentials around a colon; without a `basicAuth` block the user information is `null:null`; with one it reads back as that block's user name and password; it fails exactly when the URI constructor rejects the resolved fields, with the message of host, sanitised port, user name and path followed by the constructor's reason |
| SmbUtil.AuthMapMatchesUrlCredentials | smb-utils/src/main/java/org/wso2/ei/b7a/smb/util/SMBUtil.java:71-113 | the user information of a URI built from a configuration is exactly the pair `getAuthMap` returns for it, joined with a colon |
| SmbUtil.EntryPointsAgree | smb-utils/src/main/java/org/wso2/ei/b7a/smb/util/SMBUtil.java:53-82 | both `createUrl` entry points meet in the same composer: a connector holding the resolved configuration fields gives the same outcome |
| SmbUtil.FailureMessageOmitsPassword | smb-utils/src/main/java/org/wso2/ei/b7a/smb/util/SMBUtil.java:91-93 | attempts differing only in the password and rejected for the same reason fail with the same message: the text before the constructor's reason does not mention the password |
| SmbUtil.FailureMessageNamesPort | smb-utils/src/main/java/org/wso2/ei/b7a/smb/util/SMBUtil.java:92-93 | the text after "port: " in the failure message reads back as the port |
| SmbUtil.CredentialedExample | smb-utils/src/main/java/org/wso2/ei/b7a/smb/util/SMBUtil.java:64-96 | `smb`, `myhost`, 445, `/share/dir` with `alice`/`secret` compose to user information `alice:secret` and keep the other components |
| SmbUtil.NoCredentialsExample | smb-utils/src/main/java/org/wso2/ei/b7a/smb/util/SMBUtil.java:72-87 | a `secureSocket` without `basicAuth` gives user information `null:null`, which reads back as (`null`, `null`) |
| JavaText.JoinUserInfo | smb-utils/src/main/java/org/wso2/ei/b7a/smb/util/SMBUtil.java:87 | the user information is the rendered user name, a colon at the position just after it, then the rendered password, with nothing else; UserInfoRoundTrip states its inverse |
| SmbUtil.ConstructionFailurePrefix | smb-utils/src/main/java/org/wso2/ei/b7a/smb/util/SMBUtil.java:92-93 | the message opens with the lead-in, the rendered host and the decimal port, and closes with the rendered user name and base path; it takes no password; FailureMessageNamesPort shows the port reads back |
| JavaText.RenderConflatesNull | smb-utils/src/main/java/org/wso2/ei/b7a/smb/util/SMBUtil.java:87 | a null credential and the string "null" render identically in the user information |
| JavaText.UserInfoRoundTrip | smb-utils/src/main/java/org/wso2/ei/b7a/smb/util/SMBUtil.java:87 | `username + ":" + password` splits back at its first colon into the two rendered credentials whenever the rendered user name holds no colon |
| JavaText.UserInfoColonInUserName | smb-utils/src/main/java/org/wso2/ei/b7a/smb/util/SMBUtil.java:87 | a colon in the user name moves the split: (`a:b`, `pw`) reads back as (`a`, `b:pw`) |
| JavaText.SplitUserInfo | smb-utils/src/main/java/org/wso2/ei/b7a/smb/util/SMBUtil.java:87 | the split parts rejoin with a colon to the whole user information and the user part holds no colon |
| JavaText.IndexOf | smb-utils/src/main/java/org/wso2/ei/b7a/smb/util/SMBUtil.java:87 | the position found holds the character and none comes before it; none is found exactly when the character is absent |
| JavaText.NatToDecimal | smb-utils/src/main/java/org/wso2/ei/b7a/smb/util/SMBUtil.java:92-93 | a non-empty digit string with no leading zero unless the number is 0 |
| JavaText.IntToDecimal | smb-utils/src/main/java/org/wso2/ei/b7a/smb/util/SMBUtil.java:92-93 | a leading minus exactly for negative numbers, digits after it |
| JavaText.DecimalRoundTrip | smb-utils/src/main/java/org/wso2/ei/b7a/smb/util/SMBUtil.java:92-93 | the decimal text Java appends for an integer reads back as the same integer |
| JavaText.NatDecimalRoundTrip | smb-utils/src/main/java/org/wso2/ei/b7a/smb/util/SMBUtil.java:92-93 | the digits of a natural number read back as that number |

## Left out

- `java.net.URI`: construction, percent-encoding and `toString()` belong to the Java library. The URI is the record of constructor arguments; acceptance is the `UriSyntaxCheck` parameter; query and fragment are always null and are not fields of the record.
- `createError`: a wrapper over the runtime's error factory.
- `getFileInfoType`: depends on the Ballerina runtime type system.
- The log lines written by `extractPortValue` are side effects with no effect on its result.
- `init` and `DiagnosticLog`: plumbing; diagnostics are the returned sequence.
- The `@SupportedResourceParamTypes` annotation and the `AbstractTransportCompilerPlugin` base class: host compiler API.
- `MapValue`, native-data accessors and `SmbConstants`: replaced by plain datatypes with optional fields. The needed constants (`smb`, `WatchEvent`, `username`, `password`) are inlined.
- A null `url` passed to `notValidProtocol`, a missing `port` entry, or a null service name: each would throw a `NullPointerException`. The model's types make them non-null.
- `secureSocket` entries other than `basicAuth` (such as `privateKey`) are not read by the modelled code.
- SmbUtil.FailureMessageOmitsPassword: the reason a `UriSyntaxCheck` returns is unconstrained, although Java's `URISyntaxException` message quotes the whole URI, user information and password included; only the text before that reason is shown to leave the password out.
- A null host: `java.net.URI` then writes no authority, so the user information and the port never appear in the URI string; the component record still carries both, and what the contracts say of the port holds of the record.
- SmbUtil.ComposeUri: when the user name contains a colon the user information is stated only by its colon and its length, not split back into the credentials; `AuthMapMatchesUrlCredentials` covers that case for configurations.
- SmbUtil.CreateUrlFromConnector: same limitation as `ComposeUri` for user names that contain a colon.
- SmbUtil.CreateUrlFromConfig: same limitation as `ComposeUri`: when the `basicAuth` user name contains a colon the user information is stated only by its colon and its length.

## Findings

| source | as written | input that shows it | evidently intended | confidence | as-written member | corrected member |
|---|---|---|---|---|---|---|
| smb-compiler-plugin/src/main/java/org/wso2/ei/b7a/smb/plugin/ServiceCompilerPlugin.java:72-77 | no return after the parameter-count error, so `parameters.get(0)` runs on an empty list | one resource with no parameters | log the signature error and stop | high (not executed) | ServicePlugin.ZeroParametersAbort | ServicePlugin.ProcessIntended |
| smb-compiler-plugin/src/main/java/org/wso2/ei/b7a/smb/plugin/ServiceCompilerPlugin.java:72-85 | the first parameter is type-checked even after the parameter-count error | one resource with two `foo:OtherEvent` parameters gives two errors | one error for a wrong signature | medium (not executed) | ServicePlugin.TwoParametersTwoErrors | ServicePlugin.ProcessIntended |
