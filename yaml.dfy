/**
 * The generic document a YAML load produces, and the outcome of
 * "read the file, then YAML-load its text" as the importers see it.
 * Reading and parsing themselves are not modelled: only their result is.
 */
module Yaml {
  /** A loaded YAML value. Mapping keys are strings; a float keeps its
      runtime type apart from an int or a string that reads the same. */
  datatype Value =
    | Null
    | Bool(b: bool)
    | Int(i: int)
    | Float(x: real)
    | Str(s: string)
    | List(items: seq<Value>)
    | Mapping(entries: map<string, Value>)

  /** What opening, reading and YAML-loading a path gives. */
  datatype LoadOutcome =
    | ReadFailed             // open() or read() raised OSError
    | ScanFailed             // yaml.load raised (ScannerError, ParserError, ...)
    | Loaded(doc: Value)     // the document that yaml.load returned
}
