/** The validator of an FTP service's `onFileChange` handler: given the handler's
    declaration (or its absence) and the semantic model's answers about it, it reports
    ERROR diagnostics to the analysis context.

    The semantic-model and syntax-tree queries of the host compiler are replaced by
    the data they would answer with; `PluginUtils.validateModuleId` is a predicate on
    module identities that the analysis context supplies, the same one at every call. */
module FtpFunctionValidator {

  import opened Wrappers
  import opened PluginConstants

  /** Severity of a diagnostic; the validator only ever reports errors. */
  datatype DiagnosticSeverity = Error

  /** Where a diagnostic is anchored: the service declaration, the handler's function
      signature, its single parameter, or the whole function definition. */
  datatype Location = ServiceLocation | SignatureLocation | ParameterLocation | FunctionLocation

  datatype Diagnostic = Diagnostic(error: CompilationError, severity: DiagnosticSeverity, location: Location)

  /** The ERROR diagnostic for `e` at `loc`. */
  function ErrorAt(e: CompilationError, loc: Location): Diagnostic
  {
    Diagnostic(e, Error, loc)
  }

  /** Identity of a module (organisation, package name); only `validateModuleId` looks into it. */
  datatype ModuleId = ModuleId(org: string, packageName: string)

  /** The answer of `PluginUtils.validateModuleId`. */
  type ModuleCheck = ModuleId -> bool

  /** Syntax kind of a parameter's type name; every kind other than a qualified name
      reference (`ftp:WatchEvent`) is treated alike. */
  datatype SyntaxKind = QualifiedNameReference | OtherTypeSyntax

  datatype ParameterKind = RequiredParameter | DefaultableParameter | RestParameter

  /** A resolved symbol: its declaring module and its name, each possibly absent. */
  datatype Symbol = Symbol(moduleId: Option<ModuleId>, name: Option<string>)

  /** A parameter of the handler: its syntactic kind, the syntax kind of its type name
      and the symbol the semantic model resolves that type name to, if any. */
  datatype Parameter = Parameter(kind: ParameterKind, typeName: SyntaxKind, typeSymbol: Option<Symbol>)

  /** A type descriptor as the semantic model exposes it, by type kind. A type
      reference always carries the module that declares it. */
  datatype TypeSymbol =
    | NilType
    | ErrorType
    | UnionType(members: seq<TypeSymbol>)
    | TypeReference(signature: string, moduleId: ModuleId)
    | OtherType(signature: string)

  /** The handler's method symbol: its return type descriptor, if the model gives one. */
  datatype MethodSymbol = MethodSymbol(returnType: Option<TypeSymbol>)

  /** The handler's function definition: its parameters and the method symbol the
      semantic model resolves it to (absent when `getMethodSymbol` yields null). */
  datatype FunctionDefinition = FunctionDefinition(parameters: seq<Parameter>, methodSymbol: Option<MethodSymbol>)

  // ---------------------------------------------------------------------------
  // What the validator demands of its input (where the source casts or unwraps)

  /** A lone parameter is a required parameter (it is cast to one). */
  predicate SingleParameterIsRequired(ps: seq<Parameter>)
  {
    |ps| == 1 ==> ps[0].kind == RequiredParameter
  }

  predicate WellFormedHandler(f: FunctionDefinition)
  {
    SingleParameterIsRequired(f.parameters)
  }

  // ---------------------------------------------------------------------------
  // What the validator accepts, stated directly

  /** The type symbol resolves, has a module that `check` accepts, and is named "WatchEvent". */
  predicate IsWatchEventSymbol(s: Option<Symbol>, check: ModuleCheck)
  {
    s.Some? && s.value.moduleId.Some? && check(s.value.moduleId.value) && s.value.name == Some(WatchEvent)
  }

  /** Exactly one parameter, whose type is written as a qualified name and is `ftp:WatchEvent`. */
  predicate AcceptedParameters(ps: seq<Parameter>, check: ModuleCheck)
  {
    |ps| == 1 && ps[0].typeName == QualifiedNameReference && IsWatchEventSymbol(ps[0].typeSymbol, check)
  }

  /** A union member is nil, of error kind, or a type reference that is "error" or
      comes from a module `check` accepts. */
  predicate AcceptedMember(m: TypeSymbol, check: ModuleCheck)
  {
    m.NilType? || m.ErrorType? || (m.TypeReference? && (m.signature == ErrorSignature || check(m.moduleId)))
  }

  /** Nothing is known of the return type, or it is nil, or a union of accepted members. */
  predicate AcceptedReturnType(sym: Option<MethodSymbol>, check: ModuleCheck)
  {
    match sym
    case None => true
    case Some(MethodSymbol(None)) => true
    case Some(MethodSymbol(Some(t))) =>
      t.NilType? || (t.UnionType? && forall i :: 0 <= i < |t.members| ==> AcceptedMember(t.members[i], check))
  }

  // ---------------------------------------------------------------------------
  // The diagnostics each check reports, following the branches of the source

  /** The marker-type check of a parameter whose type is a qualified name. */
  function WatchEventParamDiagnostics(p: Parameter, check: ModuleCheck, errorToThrow: CompilationError): (ds: seq<Diagnostic>)
    requires p.kind == RequiredParameter
    ensures ds == [] <==> IsWatchEventSymbol(p.typeSymbol, check)
    ensures ds != [] ==> ds == [ErrorAt(errorToThrow, ParameterLocation)]
  {
    match p.typeSymbol
    case None => [ErrorAt(errorToThrow, ParameterLocation)]
    case Some(sym) =>
      match sym.moduleId
      case None => [ErrorAt(errorToThrow, ParameterLocation)]
      case Some(m) =>
        var paramName := if sym.name.Some? then sym.name.value else "";
        if !check(m) || paramName != WatchEvent then [ErrorAt(errorToThrow, ParameterLocation)] else []
  }

  /** The parameter check: at most one diagnostic, none exactly when the parameters are accepted. */
  function ParameterDiagnostics(ps: seq<Parameter>, check: ModuleCheck): (ds: seq<Diagnostic>)
    requires SingleParameterIsRequired(ps)
    ensures |ds| <= 1
    ensures ds == [] <==> AcceptedParameters(ps, check)
    ensures ds != [] ==> ds[0].error == (if |ps| > 1 then OnlyParamsAllowed else MustHaveWatchEvent)
  {
    if |ps| == 1 then
      if ps[0].typeName == QualifiedNameReference then
        WatchEventParamDiagnostics(ps[0], check, MustHaveWatchEvent)
      else
        [ErrorAt(MustHaveWatchEvent, ParameterLocation)]
    else if |ps| > 1 then
      [ErrorAt(OnlyParamsAllowed, SignatureLocation)]
    else
      [ErrorAt(MustHaveWatchEvent, SignatureLocation)]
  }

  /** The diagnostic a rejected return type is reported with. */
  function InvalidReturn(): Diagnostic
  {
    ErrorAt(InvalidReturnTypeErrorOrNil, FunctionLocation)
  }

  /** The check of one union member. */
  function MemberDiagnostics(m: TypeSymbol, check: ModuleCheck): (ds: seq<Diagnostic>)
    ensures ds == [] <==> AcceptedMember(m, check)
    ensures ds != [] ==> ds == [InvalidReturn()]
  {
    if m.NilType? then []
    else if m.TypeReference? then
      if m.signature != ErrorSignature && !check(m.moduleId) then [InvalidReturn()] else []
    else if !m.ErrorType? then [InvalidReturn()]
    else []
  }

  /** The checks of the union members, in member order. */
  function UnionDiagnostics(ms: seq<TypeSymbol>, check: ModuleCheck): (ds: seq<Diagnostic>)
    ensures |ds| <= |ms|
  {
    if ms == [] then []
    else MemberDiagnostics(ms[0], check) + UnionDiagnostics(ms[1..], check)
  }

  /** The union check is done member by member: the diagnostics of a concatenation are
      those of its parts, in order. */
  lemma {:induction false} UnionDiagnosticsAppend(a: seq<TypeSymbol>, b: seq<TypeSymbol>, check: ModuleCheck)
    ensures UnionDiagnostics(a + b, check) == UnionDiagnostics(a, check) + UnionDiagnostics(b, check)
  {
    if a == [] {
      assert a + b == b;
    } else {
      var first := MemberDiagnostics(a[0], check);
      UnionDiagnosticsAppend(a[1..], b, check);
      assert (a + b)[1..] == a[1..] + b;
      assert (a + b)[0] == a[0];
      calc {
        UnionDiagnostics(a + b, check);
        first + UnionDiagnostics(a[1..] + b, check);
        first + (UnionDiagnostics(a[1..], check) + UnionDiagnostics(b, check));
        (first + UnionDiagnostics(a[1..], check)) + UnionDiagnostics(b, check);
        UnionDiagnostics(a, check) + UnionDiagnostics(b, check);
      }
    }
  }

  /** A one-member union reports what that member's check reports. */
  lemma SingleMemberUnion(m: TypeSymbol, check: ModuleCheck)
    ensures UnionDiagnostics([m], check) == MemberDiagnostics(m, check)
  {
  }

  /** Extending a prefix of the union by one member extends its diagnostics by that
      member's. */
  lemma UnionDiagnosticsStep(ms: seq<TypeSymbol>, n: nat, check: ModuleCheck)
    requires n < |ms|
    ensures UnionDiagnostics(ms[..n + 1], check) == UnionDiagnostics(ms[..n], check) + MemberDiagnostics(ms[n], check)
  {
    assert ms[..n + 1] == ms[..n] + [ms[n]];
    UnionDiagnosticsAppend(ms[..n], [ms[n]], check);
    SingleMemberUnion(ms[n], check);
  }

  /** The union check reports nothing exactly when every member is accepted. */
  lemma {:induction false} UnionDiagnosticsEmpty(ms: seq<TypeSymbol>, check: ModuleCheck)
    ensures UnionDiagnostics(ms, check) == [] <==> forall i :: 0 <= i < |ms| ==> AcceptedMember(ms[i], check)
  {
    if ms != [] {
      var rest := ms[1..];
      UnionDiagnosticsEmpty(rest, check);
      assert forall i :: 0 <= i < |rest| ==> rest[i] == ms[i + 1];
    }
  }

  /** Every diagnostic of the union check is INVALID_RETURN_TYPE_ERROR_OR_NIL at the function. */
  lemma {:induction false} UnionDiagnosticsAreInvalidReturn(ms: seq<TypeSymbol>, check: ModuleCheck)
    ensures forall k :: 0 <= k < |UnionDiagnostics(ms, check)| ==> UnionDiagnostics(ms, check)[k] == InvalidReturn()
  {
    if ms != [] {
      UnionDiagnosticsAreInvalidReturn(ms[1..], check);
    }
  }

  /** Indices of the union members that are not accepted. */
  function RejectedMembers(ms: seq<TypeSymbol>, check: ModuleCheck): set<nat>
  {
    set i: nat | i < |ms| && !AcceptedMember(ms[i], check)
  }

  /** The rejected members of a union extended by one member are those of the prefix,
      and the new member's index if it is rejected. */
  lemma RejectedMembersStep(ms: seq<TypeSymbol>, n: nat, check: ModuleCheck)
    requires n == |ms| - 1
    ensures RejectedMembers(ms, check)
         == RejectedMembers(ms[..n], check) + (if AcceptedMember(ms[n], check) then {} else {n})
    ensures n !in RejectedMembers(ms[..n], check)
  {
  }

  /** A union reports one INVALID_RETURN_TYPE_ERROR_OR_NIL per rejected member. */
  lemma {:induction false} UnionDiagnosticsCount(ms: seq<TypeSymbol>, check: ModuleCheck)
    ensures |UnionDiagnostics(ms, check)| == |RejectedMembers(ms, check)|
    decreases |ms|
  {
    if ms != [] {
      var n := |ms| - 1;
      UnionDiagnosticsCount(ms[..n], check);
      UnionDiagnosticsStep(ms, n, check);
      assert ms[..n + 1] == ms;
      RejectedMembersStep(ms, n, check);
    }
  }

  /** The return-type check: at most one diagnostic per union member, and at most one
      for any other return type. */
  function ReturnTypeDiagnostics(sym: Option<MethodSymbol>, check: ModuleCheck): (ds: seq<Diagnostic>)
    ensures |ds| <= if sym.Some? && sym.value.returnType.Some? && sym.value.returnType.value.UnionType?
                    then |sym.value.returnType.value.members| else 1
  {
    match sym
    case None => []
    case Some(msym) =>
      match msym.returnType
      case None => []
      case Some(t) =>
        if t.UnionType? then UnionDiagnostics(t.members, check)
        else if !t.NilType? then [InvalidReturn()]
        else []
  }

  /** The return-type check reports only INVALID_RETURN_TYPE_ERROR_OR_NIL, at the
      function, and reports nothing exactly when the return type is accepted. */
  lemma ReturnTypeCheck(sym: Option<MethodSymbol>, check: ModuleCheck)
    ensures forall k :: 0 <= k < |ReturnTypeDiagnostics(sym, check)| ==> ReturnTypeDiagnostics(sym, check)[k] == InvalidReturn()
    ensures ReturnTypeDiagnostics(sym, check) == [] <==> AcceptedReturnType(sym, check)
  {
    if sym.Some? && sym.value.returnType.Some? && sym.value.returnType.value.UnionType? {
      var members := sym.value.returnType.value.members;
      UnionDiagnosticsAreInvalidReturn(members, check);
      UnionDiagnosticsEmpty(members, check);
    }
  }

  /** Everything one validation reports. */
  function ValidationDiagnostics(onFileChange: Option<FunctionDefinition>, check: ModuleCheck): seq<Diagnostic>
    requires onFileChange.Some? ==> WellFormedHandler(onFileChange.value)
  {
    match onFileChange
    case None => [ErrorAt(NoOnFileChange, ServiceLocation)]
    case Some(f) => ParameterDiagnostics(f.parameters, check) + ReturnTypeDiagnostics(f.methodSymbol, check)
  }

  /** A validation reports nothing exactly when the handler exists and both its
      parameters and its return type are accepted; NO_ON_FILE_CHANGE is reported
      exactly when the handler is missing, and then alone. */
  lemma ValidationOutcome(onFileChange: Option<FunctionDefinition>, check: ModuleCheck)
    requires onFileChange.Some? ==> WellFormedHandler(onFileChange.value)
    ensures ValidationDiagnostics(onFileChange, check) == [] <==>
      onFileChange.Some? && AcceptedParameters(onFileChange.value.parameters, check)
      && AcceptedReturnType(onFileChange.value.methodSymbol, check)
    ensures onFileChange.None? ==> |ValidationDiagnostics(onFileChange, check)| == 1
    ensures (exists k :: 0 <= k < |ValidationDiagnostics(onFileChange, check)|
                         && ValidationDiagnostics(onFileChange, check)[k].error == NoOnFileChange)
        <==> onFileChange.None?
  {
    var ds := ValidationDiagnostics(onFileChange, check);
    if onFileChange.None? {
      assert ds[0].error == NoOnFileChange;
    } else {
      var f := onFileChange.value;
      ReturnTypeCheck(f.methodSymbol, check);
      var pd := ParameterDiagnostics(f.parameters, check);
      forall k | 0 <= k < |ds| ensures ds[k].error != NoOnFileChange {
        if k >= |pd| { assert ds[k] == ReturnTypeDiagnostics(f.methodSymbol, check)[k - |pd|]; }
      }
    }
  }

  // ---------------------------------------------------------------------------
  // Properties of the validation

  /** Without a handler, exactly one NO_ON_FILE_CHANGE at the service; nothing else is checked. */
  lemma AbsentHandler(check: ModuleCheck)
    ensures ValidationDiagnostics(None, check) == [ErrorAt(NoOnFileChange, ServiceLocation)]
  {
  }

  /** With a handler, the parameter diagnostics come first, then the return-type
      diagnostics; a failure of either check still shows in the output. */
  lemma {:induction false} ChecksAreIndependent(f: FunctionDefinition, check: ModuleCheck)
    requires WellFormedHandler(f)
    ensures ValidationDiagnostics(Some(f), check)
         == ParameterDiagnostics(f.parameters, check) + ReturnTypeDiagnostics(f.methodSymbol, check)
    ensures !AcceptedParameters(f.parameters, check) ==>
      ValidationDiagnostics(Some(f), check)[0].error in {MustHaveWatchEvent, OnlyParamsAllowed}
    ensures !AcceptedReturnType(f.methodSymbol, check) ==>
      var ds := ValidationDiagnostics(Some(f), check);
      |ds| >= 1 && ds[|ds| - 1] == InvalidReturn()
  {
    var pd := ParameterDiagnostics(f.parameters, check);
    var rd := ReturnTypeDiagnostics(f.methodSymbol, check);
    ReturnTypeCheck(f.methodSymbol, check);
    if !AcceptedReturnType(f.methodSymbol, check) {
      assert rd != [];
      assert (pd + rd)[|pd + rd| - 1] == rd[|rd| - 1];
    }
  }

  /** No parameter: exactly one MUST_HAVE_WATCHEVENT, at the function signature. */
  lemma ZeroParameters(check: ModuleCheck)
    ensures ParameterDiagnostics([], check) == [ErrorAt(MustHaveWatchEvent, SignatureLocation)]
  {
  }

  /** Two or more parameters: exactly one ONLY_PARAMS_ALLOWED, at the function signature. */
  lemma SeveralParameters(ps: seq<Parameter>, check: ModuleCheck)
    requires |ps| >= 2
    ensures ParameterDiagnostics(ps, check) == [ErrorAt(OnlyParamsAllowed, SignatureLocation)]
  {
  }

  /** One parameter whose type is not written as a qualified name: MUST_HAVE_WATCHEVENT at
      the parameter, whatever it resolves to. */
  lemma UnqualifiedParameter(p: Parameter, check: ModuleCheck)
    requires p.kind == RequiredParameter && p.typeName != QualifiedNameReference
    ensures ParameterDiagnostics([p], check) == [ErrorAt(MustHaveWatchEvent, ParameterLocation)]
  {
  }

  /** One qualified-name parameter: no diagnostic exactly when it is `ftp:WatchEvent`,
      otherwise one MUST_HAVE_WATCHEVENT at the parameter. */
  lemma QualifiedParameter(p: Parameter, check: ModuleCheck)
    requires p.kind == RequiredParameter && p.typeName == QualifiedNameReference
    ensures ParameterDiagnostics([p], check)
         == if IsWatchEventSymbol(p.typeSymbol, check) then [] else [ErrorAt(MustHaveWatchEvent, ParameterLocation)]
  {
  }

  /** Without a method symbol or a return type descriptor nothing is reported. */
  lemma ReturnTypeUnknown(sym: Option<MethodSymbol>, check: ModuleCheck)
    requires sym.None? || sym.value.returnType.None?
    ensures ReturnTypeDiagnostics(sym, check) == []
  {
  }

  /** A return type that is not a union: accepted when nil, otherwise exactly one
      INVALID_RETURN_TYPE_ERROR_OR_NIL at the function; a bare error type included. */
  lemma NonUnionReturnType(t: TypeSymbol, check: ModuleCheck)
    requires !t.UnionType?
    ensures ReturnTypeDiagnostics(Some(MethodSymbol(Some(t))), check)
         == if t.NilType? then [] else [InvalidReturn()]
    ensures t.ErrorType? ==> ReturnTypeDiagnostics(Some(MethodSymbol(Some(t))), check) == [InvalidReturn()]
  {
  }

  /** `onFileChange(ftp:WatchEvent event) returns error?`, with the marker type's module
      accepted: nothing is reported. */
  lemma CanonicalHandlerAccepted(m: ModuleId, check: ModuleCheck)
    requires check(m)
    ensures ValidationDiagnostics(Some(FunctionDefinition(
              [Parameter(RequiredParameter, QualifiedNameReference, Some(Symbol(Some(m), Some(WatchEvent))))],
              Some(MethodSymbol(Some(UnionType([ErrorType, NilType])))))), check) == []
  {
  }

  /** `returns string|error`: one INVALID_RETURN_TYPE_ERROR_OR_NIL, for the `string` member. */
  lemma NonErrorUnionMemberRejected(check: ModuleCheck)
    ensures ReturnTypeDiagnostics(Some(MethodSymbol(Some(UnionType([OtherType("string"), ErrorType])))), check)
         == [InvalidReturn()]
  {
  }

  // ---------------------------------------------------------------------------
  // The validator object

  /** One validation of a service's handler. `diags` is what has been reported to
      the analysis context so far, oldest first. */
  class Validator {
    const checkModule: ModuleCheck
    const onFileChange: Option<FunctionDefinition>
    var diags: seq<Diagnostic>

    constructor (checkModule: ModuleCheck, onFileChange: Option<FunctionDefinition>)
      ensures this.checkModule == checkModule && this.onFileChange == onFileChange
      ensures diags == []
    {
      this.checkModule := checkModule;
      this.onFileChange := onFileChange;
      diags := [];
    }

    /** Appends one ERROR diagnostic to the analysis context. */
    method ReportDiagnostic(e: CompilationError, loc: Location)
      modifies this
      ensures diags == old(diags) + [ErrorAt(e, loc)]
    {
      diags := diags + [ErrorAt(e, loc)];
    }

    /** Reports NO_ON_FILE_CHANGE when there is no handler, otherwise runs the parameter
        check and then the return-type check. */
    method Validate()
      requires onFileChange.Some? ==> WellFormedHandler(onFileChange.value)
      modifies this
      ensures diags == old(diags) + ValidationDiagnostics(onFileChange, checkModule)
    {
      if onFileChange.None? {
        ReportDiagnostic(NoOnFileChange, ServiceLocation);
      } else {
        var f := onFileChange.value;
        ValidateFunctionParameters(f.parameters);
        ValidateReturnTypeErrorOrNil(f);
      }
    }

    method ValidateFunctionParameters(parameters: seq<Parameter>)
      requires SingleParameterIsRequired(parameters)
      modifies this
      ensures diags == old(diags) + ParameterDiagnostics(parameters, checkModule)
    {
      if |parameters| == 1 {
        var paramNode := parameters[0];
        if paramNode.typeName == QualifiedNameReference {
          ValidateWatchEventParam(paramNode, MustHaveWatchEvent);
        } else {
          ReportDiagnostic(MustHaveWatchEvent, ParameterLocation);
        }
      } else if |parameters| > 1 {
        ReportDiagnostic(OnlyParamsAllowed, SignatureLocation);
      } else {
        ReportDiagnostic(MustHaveWatchEvent, SignatureLocation);
      }
    }

    method ValidateWatchEventParam(parameter: Parameter, errorToThrow: CompilationError)
      requires parameter.kind == RequiredParameter
      modifies this
      ensures diags == old(diags) + WatchEventParamDiagnostics(parameter, checkModule, errorToThrow)
    {
      if parameter.typeSymbol.Some? {
        var moduleSymbol := parameter.typeSymbol.value.moduleId;
        if moduleSymbol.Some? {
          var name := parameter.typeSymbol.value.name;
          var paramName := if name.Some? then name.value else "";
          if !checkModule(moduleSymbol.value) || paramName != WatchEvent {
            ReportDiagnostic(errorToThrow, ParameterLocation);
          }
        } else {
          ReportDiagnostic(errorToThrow, ParameterLocation);
        }
      } else {
        ReportDiagnostic(errorToThrow, ParameterLocation);
      }
    }

    method ValidateReturnTypeErrorOrNil(f: FunctionDefinition)
      modifies this
      ensures diags == old(diags) + ReturnTypeDiagnostics(f.methodSymbol, checkModule)
    {
      if f.methodSymbol.Some? {
        var returnTypeDesc := f.methodSymbol.value.returnType;
        if returnTypeDesc.Some? {
          var t := returnTypeDesc.value;
          if t.UnionType? {
            var members := t.members;
            var i := 0;
            while i < |members|
              invariant 0 <= i <= |members|
              invariant diags == old(diags) + UnionDiagnostics(members[..i], checkModule)
            {
              var returnType := members[i];
              if !returnType.NilType? {
                if returnType.TypeReference? {
                  if returnType.signature != ErrorSignature && !checkModule(returnType.moduleId) {
                    ReportDiagnostic(InvalidReturnTypeErrorOrNil, FunctionLocation);
                  }
                } else if !returnType.ErrorType? {
                  ReportDiagnostic(InvalidReturnTypeErrorOrNil, FunctionLocation);
                }
              }
              UnionDiagnosticsStep(members, i, checkModule);
              i := i + 1;
            }
            assert members[..|members|] == members;
          } else if !t.NilType? {
            ReportDiagnostic(InvalidReturnTypeErrorOrNil, FunctionLocation);
          }
        }
      }
    }
  }

  /** Two validations of the same handler, each on a fresh analysis context, report the
      same diagnostics. */
  method ValidateTwice(checkModule: ModuleCheck, onFileChange: Option<FunctionDefinition>)
    returns (first: seq<Diagnostic>, second: seq<Diagnostic>)
    requires onFileChange.Some? ==> WellFormedHandler(onFileChange.value)
    ensures first == second
    ensures first == ValidationDiagnostics(onFileChange, checkModule)
  {
    var v1 := new Validator(checkModule, onFileChange);
    v1.Validate();
    first := v1.diags;
    var v2 := new Validator(checkModule, onFileChange);
    v2.Validate();
    second := v2.diags;
  }
}
