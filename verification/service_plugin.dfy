/** The compile-time shape rule for SMB listener services
    (ServiceCompilerPlugin.process): a service must declare exactly one
    resource, whose signature is a single `smb:WatchEvent` parameter.
    The compiler's tree is reduced to the few facts the rule reads, and the
    diagnostic log to the sequence of diagnostics logged, in order. */
module ServicePlugin {

  /** A source location; the rule only copies it into diagnostics. */
  datatype Position = Position(line: nat, column: nat)

  /** The declared type of a parameter: an object type, known by its package
      and type name, or any other kind of type. */
  datatype ParamType = ObjectType(packageName: string, typeName: string) | OtherType

  datatype Parameter = Parameter(pos: Position, paramType: ParamType)

  /** A resource function of the service. */
  datatype Resource = Resource(pos: Position, params: seq<Parameter>)

  datatype Service = Service(name: string, pos: Position, resources: seq<Resource>)

  /** The rule only logs errors. */
  datatype Severity = Error

  datatype Diagnostic = Diagnostic(severity: Severity, pos: Position, message: string)

  /** What one run of the rule amounts to: it finishes with the diagnostics
      it logged, or it is aborted by an exception after logging some. */
  datatype Outcome =
    | Completed(diagnostics: seq<Diagnostic>)
    | Aborted(logged: seq<Diagnostic>)
  {
    /** Every diagnostic logged, whether or not the run finished. */
    function Logged(): seq<Diagnostic> {
      match this
      case Completed(ds) => ds
      case Aborted(ds) => ds
    }
  }

  const EventPackage := "smb"
  const EventTypeName := "WatchEvent"

  function NoResourcesMessage(service: string): string {
    "No resources defined for the service: " + service
  }

  function TooManyResourcesMessage(service: string): string {
    "Only one resource is allowed for the service: " + service
  }

  const SignatureMessage := "Invalid resource signature. A single " + EventTypeName
                            + " parameter is allowed in the resource signature."

  const ParamTypeMessage := "Parameter should be of type - " + EventPackage + ":" + EventTypeName

  /** The type check passes a parameter type unless it is an object type
      other than `smb:WatchEvent`; a non-object type is never examined. */
  predicate AcceptedType(t: ParamType) {
    t.ObjectType? ==> t.packageName == EventPackage && t.typeName == EventTypeName
  }

  /** A service the rule accepts without complaint. */
  predicate WellShaped(s: Service) {
    && |s.resources| == 1
    && |s.resources[0].params| == 1
    && AcceptedType(s.resources[0].params[0].paramType)
  }

  /** The diagnostics of the resource-count check, anchored at the service. */
  function ResourceCountDiagnostics(s: Service): seq<Diagnostic> {
    if |s.resources| == 0 then [Diagnostic(Error, s.pos, NoResourcesMessage(s.name))]
    else if |s.resources| >= 2 then [Diagnostic(Error, s.pos, TooManyResourcesMessage(s.name))]
    else []
  }

  /** The diagnostics of the parameter-count check, anchored at the resource. */
  function SignatureDiagnostics(r: Resource): seq<Diagnostic> {
    if |r.params| != 1 then [Diagnostic(Error, r.pos, SignatureMessage)] else []
  }

  /** The diagnostics of the type check, anchored at the parameter. */
  function TypeDiagnostics(p: Parameter): (ds: seq<Diagnostic>)
    ensures ds == [] <==> AcceptedType(p.paramType)
    ensures ds != [] ==> ds == [Diagnostic(Error, p.pos, ParamTypeMessage)]
  {
    match p.paramType
    case ObjectType(pkg, name) =>
      if pkg != EventPackage || name != EventTypeName
      then [Diagnostic(Error, p.pos, ParamTypeMessage)]
      else []
    case OtherType => []
  }

  /** The rule as the plugin runs it. The resource-count check and the
      single-resource branch are separate `if`s, and nothing returns after
      the parameter-count error: the type check still looks at the first
      parameter, and with no parameter at all that lookup throws. */
  function Process(s: Service): (o: Outcome)
    // no resources: one error at the service, naming it, and nothing else
    ensures |s.resources| == 0 ==>
              o == Completed([Diagnostic(Error, s.pos, NoResourcesMessage(s.name))])
    // several resources: one error at the service, and no resource is inspected
    ensures |s.resources| >= 2 ==>
              o == Completed([Diagnostic(Error, s.pos, TooManyResourcesMessage(s.name))])
    // the only way the run is cut short
    ensures o.Aborted? <==> |s.resources| == 1 && |s.resources[0].params| == 0
    ensures o.Aborted? ==> o.logged == [Diagnostic(Error, s.resources[0].pos, SignatureMessage)]
    // one resource with one parameter: at most the type error, at the parameter
    ensures |s.resources| == 1 && |s.resources[0].params| == 1 ==>
              var p := s.resources[0].params[0];
              o == Completed(if AcceptedType(p.paramType) then []
                             else [Diagnostic(Error, p.pos, ParamTypeMessage)])
    // one resource with several parameters: the signature error at the
    // resource, then the type check of the first parameter
    ensures |s.resources| == 1 && |s.resources[0].params| >= 2 ==>
              var r := s.resources[0];
              && o.Completed?
              && 1 <= |o.diagnostics| <= 2
              && o.diagnostics[0] == Diagnostic(Error, r.pos, SignatureMessage)
              && (|o.diagnostics| == 2 <==> !AcceptedType(r.params[0].paramType))
              && (|o.diagnostics| == 2 ==>
                    o.diagnostics[1] == Diagnostic(Error, r.params[0].pos, ParamTypeMessage))
    ensures |o.Logged()| <= 2
  {
    var counted := ResourceCountDiagnostics(s);
    if |s.resources| == 1 then
      var r := s.resources[0];
      var signature := SignatureDiagnostics(r);
      if |r.params| == 0 then Aborted(counted + signature)
      else Completed(counted + signature + TypeDiagnostics(r.params[0]))
    else Completed(counted)
  }

  /** The rule finishes silently exactly on well-shaped services. */
  lemma ProcessAcceptsExactlyWellShaped(s: Service)
    ensures Process(s) == Completed([]) <==> WellShaped(s)
  {
  }

  /** A non-object parameter type never draws a type error, whatever the
      shape around it. */
  lemma OtherTypeNeverFlagged(s: Service)
    requires |s.resources| == 1 && 1 <= |s.resources[0].params|
    requires s.resources[0].params[0].paramType == OtherType
    ensures forall i :: 0 <= i < |Process(s).Logged()| ==>
              Process(s).Logged()[i].message != ParamTypeMessage
  {
  }

  // ---------------------------------------------------------------------
  // The rule as evidently intended

  /** The rule with the evidently intended return after the parameter-count
      error: a resource whose signature is wrong gets that one error and its
      parameters are not type-checked. */
  function ProcessIntended(s: Service): (ds: seq<Diagnostic>)
    ensures |ds| <= 1
    ensures ds == [] <==> WellShaped(s)
    ensures |s.resources| == 1 && |s.resources[0].params| != 1 ==>
              ds == [Diagnostic(Error, s.resources[0].pos, SignatureMessage)]
  {
    if |s.resources| != 1 then ResourceCountDiagnostics(s)
    else
      var r := s.resources[0];
      if |r.params| != 1 then SignatureDiagnostics(r)
      else TypeDiagnostics(r.params[0])
  }

  /** Away from a wrong parameter count, the plugin and the intended rule
      log the same diagnostics. */
  lemma IntendedAgreesOffSignatureFault(s: Service)
    requires !(|s.resources| == 1 && |s.resources[0].params| != 1)
    ensures Process(s) == Completed(ProcessIntended(s))
  {
  }

  /** With no parameter the plugin logs the signature error and then throws
      on the lookup of the first parameter. */
  lemma ZeroParametersAbort()
    ensures var s := Service("watcher", Position(1, 1), [Resource(Position(2, 5), [])]);
            && Process(s) == Aborted([Diagnostic(Error, Position(2, 5), SignatureMessage)])
            && ProcessIntended(s) == [Diagnostic(Error, Position(2, 5), SignatureMessage)]
  {
  }

  /** With two mistyped parameters the plugin logs the signature error and a
      type error for the first parameter, where one error was meant. */
  lemma TwoParametersTwoErrors()
    ensures var p := Parameter(Position(2, 20), ObjectType("foo", "OtherEvent"));
            var s := Service("watcher", Position(1, 1), [Resource(Position(2, 5), [p, p])]);
            && Process(s) == Completed([Diagnostic(Error, Position(2, 5), SignatureMessage),
                                        Diagnostic(Error, Position(2, 20), ParamTypeMessage)])
            && |ProcessIntended(s)| == 1
  {
  }
}
