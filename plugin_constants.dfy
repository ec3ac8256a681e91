/** The fixed constants of the FTP compiler plugin: the literal names that the
    handler checks compare against, and the entries of the compilation error catalog. */
module PluginConstants {

  /** Package name of the module that declares the marker types. */
  const PackagePrefix: string := "ftp"
  /** Name of the handler method every FTP service must declare. */
  const OnFileChangeFunc: string := "onFileChange"
  /** Organisation of the module that declares the marker types. */
  const PackageOrg: string := "ballerina"
  /** Name of the marker type the handler's single parameter must have. */
  const WatchEvent: string := "WatchEvent"
  /** Signature of the built-in error type, accepted as a union member of the return type. */
  const ErrorSignature: string := "error"

  /** The compilation errors, in declaration order. What each entry carries is in
      module CompilationErrors. */
  datatype CompilationError =
    | InvalidMultipleListeners
    | InvalidAnnotationNumber
    | TemplateCodeGenerationHint
    | InvalidFunction
    | NoOnFileChange
    | MustHaveWatchEvent
    | OnlyParamsAllowed
    | InvalidReturnTypeErrorOrNil
  {
    /** Position of the entry in the declaration, from 0. */
    function Ordinal(): (n: nat)
      ensures n < 8
    {
      match this
      case InvalidMultipleListeners => 0
      case InvalidAnnotationNumber => 1
      case TemplateCodeGenerationHint => 2
      case InvalidFunction => 3
      case NoOnFileChange => 4
      case MustHaveWatchEvent => 5
      case OnlyParamsAllowed => 6
      case InvalidReturnTypeErrorOrNil => 7
    }
  }
}

/** The message and the code each compilation error is constructed with, and the two
    getters that return them. */
module CompilationErrors {

  import opened PluginConstants

  /** The two values an enum entry is constructed with: its message, then its code. */
  datatype EntryArguments = EntryArguments(error: string, errorCode: string)

  /** The constructor arguments of the entries, in declaration order. */
  const Declared: seq<EntryArguments> := [
    EntryArguments("Multiple listener attachments. Only one ftp:Listener is allowed.", "FTP_101"),
    EntryArguments("No annotations are allowed for ftp services.", "FTP_102"),
    EntryArguments("Template generation for empty service", "FTP_103"),
    EntryArguments("Invalid remote method.", "FTP_104"),
    EntryArguments("onFileChange method not found.", "FTP_105"),
    EntryArguments("Must have the required parameter ftp:WatchEvent.", "FTP_106"),
    EntryArguments("Invalid method parameter count. Only ftp:WatchEvent is allowed.", "FTP_107"),
    EntryArguments("Invalid return type. Only error? or ftp:Error? is allowed.", "KAFKA_108")
  ]

  /** The message field of an entry: the first argument its declaration passes. */
  function GetError(e: CompilationError): (message: string)
    ensures message == Declared[e.Ordinal()].error
  {
    match e
    case InvalidMultipleListeners => "Multiple listener attachments. Only one ftp:Listener is allowed."
    case InvalidAnnotationNumber => "No annotations are allowed for ftp services."
    case TemplateCodeGenerationHint => "Template generation for empty service"
    case InvalidFunction => "Invalid remote method."
    case NoOnFileChange => "onFileChange method not found."
    case MustHaveWatchEvent => "Must have the required parameter ftp:WatchEvent."
    case OnlyParamsAllowed => "Invalid method parameter count. Only ftp:WatchEvent is allowed."
    case InvalidReturnTypeErrorOrNil => "Invalid return type. Only error? or ftp:Error? is allowed."
  }

  /** The code field of an entry: the second argument its declaration passes. */
  function GetErrorCode(e: CompilationError): (code: string)
    ensures code == Declared[e.Ordinal()].errorCode
  {
    match e
    case InvalidMultipleListeners => "FTP_101"
    case InvalidAnnotationNumber => "FTP_102"
    case TemplateCodeGenerationHint => "FTP_103"
    case InvalidFunction => "FTP_104"
    case NoOnFileChange => "FTP_105"
    case MustHaveWatchEvent => "FTP_106"
    case OnlyParamsAllowed => "FTP_107"
    case InvalidReturnTypeErrorOrNil => "KAFKA_108"
  }

  /** The prefix of a code: "KAFKA" for the entry declared with it, "FTP" for all others. */
  function CodePrefix(kafka: bool): string
  {
    if kafka then "KAFKA" else "FTP"
  }

  /** The decimal digit d, as a character. */
  function Digit(d: nat): (c: char)
    requires d < 10
    ensures '0' <= c <= '9' && c as int - '0' as int == d
  {
    ('0' as int + d) as char
  }

  /** Codes are numbered 101 to 108 in declaration order, after an underscore; every
      prefix is "FTP" except that of the last entry, which the catalog declares with
      "KAFKA". */
  lemma CodeNumbering(e: CompilationError)
    ensures GetErrorCode(e) == CodePrefix(e == InvalidReturnTypeErrorOrNil) + "_10" + [Digit(1 + e.Ordinal())]
  {
  }

  /** All eight error codes are pairwise distinct: an entry is determined by its code. */
  lemma CodesDistinct(a: CompilationError, b: CompilationError)
    requires GetErrorCode(a) == GetErrorCode(b)
    ensures a == b
  {
  }

  /** The codes of the four entries the handler validator reports. */
  lemma HandlerValidatorCodes()
    ensures GetErrorCode(NoOnFileChange) == "FTP_105"
    ensures GetErrorCode(MustHaveWatchEvent) == "FTP_106"
    ensures GetErrorCode(OnlyParamsAllowed) == "FTP_107"
    ensures GetErrorCode(InvalidReturnTypeErrorOrNil) == "KAFKA_108"
  {
  }
}
