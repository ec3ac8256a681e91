# FTP service handler validation, modelled in Dafny

This project models the part of the Ballerina FTP compiler plugin that checks the
`onFileChange` remote method of an FTP service (`FTPFunctionValidator`), together with
the plugin's constants and its catalog of compilation errors (`PluginConstants`).

- `wrappers.dfy`: `Option`, for the host compiler's `Optional` results and nullable references.
- `plugin_constants.dfy`:
  - module `PluginConstants`: the literal constants (`ftp`, `onFileChange`, `ballerina`,
    `WatchEvent`, `error`) and the enum `CompilationError`, in declaration order;
  - module `CompilationErrors`: the table of each entry's message and code, in declaration
    order, and the two getters.
- `ftp_function_validator.dfy` (module `FtpFunctionValidator`):
  - the inputs the validator reads from the syntax tree and the semantic model, as datatypes:
    parameters, symbols, type descriptors, the method symbol;
  - one specification function per check (`WatchEventParamDiagnostics`, `ParameterDiagnostics`,
    `MemberDiagnostics`, `UnionDiagnostics`, `ReturnTypeDiagnostics`, `ValidationDiagnostics`);
  - the lemmas about them;
  - class `Validator`, whose `diags` field is the sequence of diagnostics reported to the
    analysis context. Its methods follow the source's branches and its loop over the union
    members, and each method is proved to append exactly what its specification function gives.

A handler is accepted when all of the following hold:
- it has exactly one parameter;
- that parameter's type is written as a qualified name;
- the type resolves to a symbol named `WatchEvent`, from a module that `validateModuleId` accepts;
- the return type is unknown, nil, or a union whose members are each nil, an error, `error`,
  or a type reference from an accepted module.

## Model

| member | source | states |
|---|---|---|
| FtpFunctionValidator.Validator.constructor | compiler-plugin/src/main/java/io/ballerina/stdlib/ftp/plugin/FTPFunctionValidator.java:57-61 | a new validator keeps the handler (or its absence) and the module check, and has reported nothing |
| FtpFunctionValidator.Validator.ReportDiagnostic | compiler-plugin/src/main/java/io/ballerina/stdlib/ftp/plugin/FTPFunctionValidator.java:65-66 | reporting appends exactly one ERROR diagnostic with the given error and location, and keeps everything reported before it |
| FtpFunctionValidator.Validator.Validate | compiler-plugin/src/main/java/io/ballerina/stdlib/ftp/plugin/FTPFunctionValidator.java:63-72 | the diagnostics reported are the earlier ones followed by `ValidationDiagnostics`: NO_ON_FILE_CHANGE without a handler, otherwise the parameter check's and then the return check's |
| FtpFunctionValidator.Validator.ValidateFunctionParameters | compiler-plugin/src/main/java/io/ballerina/stdlib/ftp/plugin/FTPFunctionValidator.java:74-93 | appends exactly the parameter check's diagnostics |
| FtpFunctionValidator.Validator.ValidateWatchEventParam | compiler-plugin/src/main/java/io/ballerina/stdlib/ftp/plugin/FTPFunctionValidator.java:95-121 | appends exactly the marker-type check's diagnostics for the parameter |
| FtpFunctionValidator.Validator.ValidateReturnTypeErrorOrNil | compiler-plugin/src/main/java/io/ballerina/stdlib/ftp/plugin/FTPFunctionValidator.java:123-154 | appends exactly the return check's diagnostics. The loop invariant says that after i members, the diagnostics of the first i members have been appended in order |
| FtpFunctionValidator.ValidateTwice | compiler-plugin/src/main/java/io/ballerina/stdlib/ftp/plugin/FTPFunctionValidator.java:63-72 | validating the same handler twice, each on a fresh context, reports the same diagnostics, namely `ValidationDiagnostics` |
| FtpFunctionValidator.WatchEventParamDiagnostics | compiler-plugin/src/main/java/io/ballerina/stdlib/ftp/plugin/FTPFunctionValidator.java:95-121 | nothing is reported exactly when the symbol resolves, has a module, the module is accepted and the name is "WatchEvent" (a missing name counts as ""); otherwise exactly one `errorToThrow` at the parameter |
| FtpFunctionValidator.ParameterDiagnostics | compiler-plugin/src/main/java/io/ballerina/stdlib/ftp/plugin/FTPFunctionValidator.java:74-93 | at most one diagnostic; none exactly when the parameters are accepted; the error is ONLY_PARAMS_ALLOWED for two or more parameters, otherwise MUST_HAVE_WATCHEVENT |
| FtpFunctionValidator.MemberDiagnostics | compiler-plugin/src/main/java/io/ballerina/stdlib/ftp/plugin/FTPFunctionValidator.java:131-145 | a union member reports nothing exactly when it is nil, an error, or a type reference that is `error` or comes from an accepted module; otherwise exactly one INVALID_RETURN_TYPE_ERROR_OR_NIL at the function |
| FtpFunctionValidator.UnionDiagnostics | compiler-plugin/src/main/java/io/ballerina/stdlib/ftp/plugin/FTPFunctionValidator.java:128-146 | a union reports at most one diagnostic per member |
| FtpFunctionValidator.ReturnTypeDiagnostics | compiler-plugin/src/main/java/io/ballerina/stdlib/ftp/plugin/FTPFunctionValidator.java:123-154 | at most one diagnostic per union member, at most one for any other return type; what the diagnostics are and when there are none is stated by `ReturnTypeCheck` and `UnionDiagnosticsCount` |
| FtpFunctionValidator.ValidationDiagnostics | compiler-plugin/src/main/java/io/ballerina/stdlib/ftp/plugin/FTPFunctionValidator.java:63-72 | everything one validation reports; its contract is stated by `ValidationOutcome`, `AbsentHandler` and `ChecksAreIndependent` |
| FtpFunctionValidator.UnionDiagnosticsAppend | compiler-plugin/src/main/java/io/ballerina/stdlib/ftp/plugin/FTPFunctionValidator.java:131-146 | the members are checked one by one: the diagnostics of a concatenation of members are those of each part, in order |
| FtpFunctionValidator.SingleMemberUnion | compiler-plugin/src/main/java/io/ballerina/stdlib/ftp/plugin/FTPFunctionValidator.java:131-146 | a one-member union reports what that member's check reports |
| FtpFunctionValidator.UnionDiagnosticsStep | compiler-plugin/src/main/java/io/ballerina/stdlib/ftp/plugin/FTPFunctionValidator.java:131-146 | one more loop iteration appends the next member's diagnostics |
| FtpFunctionValidator.UnionDiagnosticsEmpty | compiler-plugin/src/main/java/io/ballerina/stdlib/ftp/plugin/FTPFunctionValidator.java:128-146 | a union reports nothing exactly when every member is accepted |
| FtpFunctionValidator.UnionDiagnosticsAreInvalidReturn | compiler-plugin/src/main/java/io/ballerina/stdlib/ftp/plugin/FTPFunctionValidator.java:136-143 | every diagnostic a union reports is INVALID_RETURN_TYPE_ERROR_OR_NIL at the function |
| FtpFunctionValidator.RejectedMembersStep | compiler-plugin/src/main/java/io/ballerina/stdlib/ftp/plugin/FTPFunctionValidator.java:131-145 | the rejected member indices of a union are those of all but its last member, plus the last member's index when that member is rejected |
| FtpFunctionValidator.UnionDiagnosticsCount | compiler-plugin/src/main/java/io/ballerina/stdlib/ftp/plugin/FTPFunctionValidator.java:131-146 | a union reports exactly one diagnostic per rejected member |
| FtpFunctionValidator.ReturnTypeCheck | compiler-plugin/src/main/java/io/ballerina/stdlib/ftp/plugin/FTPFunctionValidator.java:123-154 | the return check reports only INVALID_RETURN_TYPE_ERROR_OR_NIL at the function, and reports nothing exactly when the return type is accepted |
| FtpFunctionValidator.ReturnTypeUnknown | compiler-plugin/src/main/java/io/ballerina/stdlib/ftp/plugin/FTPFunctionValidator.java:124-127 | with no method symbol, or no return type descriptor, nothing is reported |
| FtpFunctionValidator.NonUnionReturnType | compiler-plugin/src/main/java/io/ballerina/stdlib/ftp/plugin/FTPFunctionValidator.java:147-151 | a return type that is not a union is accepted only when nil; any other, a bare error type included, gives exactly one INVALID_RETURN_TYPE_ERROR_OR_NIL |
| FtpFunctionValidator.NonErrorUnionMemberRejected | compiler-plugin/src/main/java/io/ballerina/stdlib/ftp/plugin/FTPFunctionValidator.java:131-145 | a union of `string` and `error` gives exactly one INVALID_RETURN_TYPE_ERROR_OR_NIL |
| FtpFunctionValidator.ValidationOutcome | compiler-plugin/src/main/java/io/ballerina/stdlib/ftp/plugin/FTPFunctionValidator.java:63-72 | a validation reports nothing exactly when the handler exists and its parameters and return type are accepted. NO_ON_FILE_CHANGE appears exactly when the handler is missing, and then it is the only diagnostic |
| FtpFunctionValidator.AbsentHandler | compiler-plugin/src/main/java/io/ballerina/stdlib/ftp/plugin/FTPFunctionValidator.java:64-66 | without a handler, exactly one NO_ON_FILE_CHANGE at the service declaration |
| FtpFunctionValidator.ChecksAreIndependent | compiler-plugin/src/main/java/io/ballerina/stdlib/ftp/plugin/FTPFunctionValidator.java:67-71 | with a handler, the parameter diagnostics come first, then the return diagnostics. A rejected parameter list shows as the first diagnostic, a rejected return type as the last |
| FtpFunctionValidator.ZeroParameters | compiler-plugin/src/main/java/io/ballerina/stdlib/ftp/plugin/FTPFunctionValidator.java:89-91 | no parameter gives exactly one MUST_HAVE_WATCHEVENT at the function signature |
| FtpFunctionValidator.SeveralParameters | compiler-plugin/src/main/java/io/ballerina/stdlib/ftp/plugin/FTPFunctionValidator.java:86-88 | two or more parameters give exactly one ONLY_PARAMS_ALLOWED at the function signature |
| FtpFunctionValidator.UnqualifiedParameter | compiler-plugin/src/main/java/io/ballerina/stdlib/ftp/plugin/FTPFunctionValidator.java:76-85 | a single parameter whose type is not a qualified name gives exactly one MUST_HAVE_WATCHEVENT at the parameter |
| FtpFunctionValidator.QualifiedParameter | compiler-plugin/src/main/java/io/ballerina/stdlib/ftp/plugin/FTPFunctionValidator.java:79-80 | a single qualified-name parameter gives nothing exactly when it is the `WatchEvent` symbol of an accepted module, otherwise one MUST_HAVE_WATCHEVENT at the parameter |
| FtpFunctionValidator.CanonicalHandlerAccepted | compiler-plugin/src/main/java/io/ballerina/stdlib/ftp/plugin/FTPFunctionValidator.java:67-71 | `onFileChange(ftp:WatchEvent event) returns error?`, with an accepted module, reports nothing |
| PluginConstants.CompilationError.Ordinal | compiler-plugin/src/main/java/io/ballerina/stdlib/ftp/plugin/PluginConstants.java:37-46 | the eight entries take positions 0 to 7, in declaration order |
| CompilationErrors.GetError | compiler-plugin/src/main/java/io/ballerina/stdlib/ftp/plugin/PluginConstants.java:37-57 | `getError` returns the message that the entry's declaration passes, read from the table of constructor arguments in declaration order |
| CompilationErrors.GetErrorCode | compiler-plugin/src/main/java/io/ballerina/stdlib/ftp/plugin/PluginConstants.java:37-61 | `getErrorCode` returns the code that the entry's declaration passes, read from the table of constructor arguments in declaration order |
| CompilationErrors.CodeNumbering | compiler-plugin/src/main/java/io/ballerina/stdlib/ftp/plugin/PluginConstants.java:38-46 | the codes run from 101 to 108 in declaration order, after "FTP_"; the last entry is the exception and takes "KAFKA_" |
| CompilationErrors.CodesDistinct | compiler-plugin/src/main/java/io/ballerina/stdlib/ftp/plugin/PluginConstants.java:38-46 | the codes are pairwise distinct: an entry is determined by its code |
| CompilationErrors.HandlerValidatorCodes | compiler-plugin/src/main/java/io/ballerina/stdlib/ftp/plugin/PluginConstants.java:43-46 | the four errors the handler validator reports carry FTP_105, FTP_106, FTP_107 and KAFKA_108 |

## Left out

- Syntax-tree and semantic-model queries are not modelled as queries. The model takes their
  answers as input data: the parameter list, the symbol a type name resolves to, the method
  symbol and its return type descriptor. `getMethodSymbol` is not part of this model; its
  null result is `methodSymbol == None`.
- `PluginUtils.validateModuleId` is not part of this model. It is a parameter, `checkModule`,
  a predicate on module identities. The same predicate is used at both call sites.
- `PluginUtils.getDiagnostic` and diagnostic rendering are left out. A diagnostic keeps the
  catalog entry, the severity and an abstract location (service, signature, parameter,
  function). It does not keep the message text or source positions.
- The service-level analysis that finds the handler and creates the validator is left out,
  together with the other checks the plugin registers. FTP_101 to FTP_104 are modelled only
  as catalog entries.
- Runtime exceptions are excluded by preconditions and by the shape of the data:
  - a lone parameter that is not a required parameter would fail the cast, so a lone
    parameter is required to be a required parameter;
  - `getModule().get()` on a union member that is a type reference cannot fail, because a
    `TypeReference` always carries its module. This also leaves out a type reference whose
    signature is `error` and which has no module. The source accepts such a member without
    asking for its module, because the `&&` at FTPFunctionValidator.java:134-135 stops
    after the signature test. The model accepts every type reference whose signature is
    `error`, whatever its module.
- Type-name syntax kinds other than a qualified name reference are merged into one
  (`OtherTypeSyntax`). Type kinds other than nil, error, union and type reference are merged
  into `OtherType`.
- A union member that is a type reference is checked with `validateModuleId`
  (FTPFunctionValidator.java:135), the same predicate the parameter check uses (:105).
  With zero parameters the diagnostic is anchored at the function signature (:90-91).
- `KAFKA_108` is kept as written: it is the code the catalog declares.
