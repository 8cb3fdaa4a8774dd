/**
 * The default importer: it recognises passpie's own YAML export (a mapping
 * tagged `handler: passpie` with a float `version`) and hands back the
 * mapping stored under `credentials`.
 *
 * Both operations are functions of the outcome of loading the path, so the
 * file system and the YAML parser stay outside the model.
 */
module DefaultImporter {
  import opened Wrappers
  import opened Yaml

  /** The handler identifier that marks a file exported by passpie itself. */
  const HandlerTag: string := "passpie"

  const HandlerKey: string := "handler"
  const VersionKey: string := "version"
  const CredentialsKey: string := "credentials"

  /** Why `handle` raised instead of returning. */
  datatype HandleError =
    | ReadError    // reading the file raised
    | ParseError   // yaml.load raised
    | NotAMapping  // the document has no `get`: it is not a mapping

  /**
   * match(path), given what loading `path` produced: true exactly when the
   * load succeeded, the document is a mapping, its `handler` is the string
   * "passpie" and its `version` is a float. Every failure is a `false`,
   * never an error.
   */
  function Match(outcome: LoadOutcome): (matched: bool)
    ensures matched ==> Handle(outcome).Ok?
  {
    match outcome
    case Loaded(Mapping(m)) =>
      HandlerKey in m && m[HandlerKey] == Str(HandlerTag) &&
      VersionKey in m && m[VersionKey].Float?
    case _ => false
  }

  /**
   * handle(path), given what loading `path` produced: the value stored under
   * `credentials`, untouched; `None` when the key is absent. Python's
   * `dict.get` returns None both for an absent key and for a key holding
   * `null`: `Ok(None)` and `Ok(Some(Null))` both stand for that None.
   * Read and parse failures propagate as errors.
   */
  function Handle(outcome: LoadOutcome): (r: Result<Option<Value>, HandleError>)
    ensures r.Ok? <==> outcome.Loaded? && outcome.doc.Mapping?
  {
    match outcome
    case ReadFailed => Err(ReadError)
    case ScanFailed => Err(ParseError)
    case Loaded(Mapping(m)) =>
      Ok(if CredentialsKey in m then Some(m[CredentialsKey]) else None)
    case Loaded(_) => Err(NotAMapping)
  }

  /** `extra` with passpie's marker written over it: the handler tag and a
      float version. Every other entry of `extra` is kept. */
  function Tagged(version: real, extra: map<string, Value>): (m: map<string, Value>)
  {
    extra[HandlerKey := Str(HandlerTag)][VersionKey := Float(version)]
  }

  /** The document passpie writes when it exports `credentials`. */
  function Exported(version: real, credentials: Value): (m: map<string, Value>)
  {
    Tagged(version, map[CredentialsKey := credentials])
  }

  /** The documents `match` accepts are exactly the tagged mappings: any
      mapping whatsoever, with the marker written over it. */
  lemma MatchIffTagged(outcome: LoadOutcome)
    ensures Match(outcome) <==>
      exists version: real, extra: map<string, Value> ::
        outcome == Loaded(Mapping(Tagged(version, extra)))
  {
    if Match(outcome) {
      var m := outcome.doc.entries;
      assert m == Tagged(m[VersionKey].x, m);
    }
  }

  /** A failed read or a failed YAML scan makes `match` false. */
  lemma MatchFalseOnLoadFailure()
    ensures !Match(ReadFailed)
    ensures !Match(ScanFailed)
  {
  }

  /** Without a `version` key there is no match, whatever else is present. */
  lemma MatchNeedsVersion(m: map<string, Value>)
    requires VersionKey !in m
    ensures !Match(Loaded(Mapping(m)))
  {
  }

  /** Without a `handler` key equal to "passpie" there is no match. */
  lemma MatchNeedsHandler(m: map<string, Value>)
    requires HandlerKey !in m || m[HandlerKey] != Str(HandlerTag)
    ensures !Match(Loaded(Mapping(m)))
  {
  }

  /** A `version` that is not a float (the string "1.0", the int 1) is
      rejected even when the handler tag is right. */
  lemma MatchNeedsFloatVersion(m: map<string, Value>)
    requires VersionKey in m && !m[VersionKey].Float?
    ensures !Match(Loaded(Mapping(m)))
  {
  }

  /** A document that is not a mapping never matches. */
  lemma MatchNeedsMapping(doc: Value)
    requires !doc.Mapping?
    ensures !Match(Loaded(doc))
  {
  }

  /** The documents and load failures the importer's tests feed to `match`
      and `handle`, with the answers the tests expect. */
  lemma TestDocuments()
    ensures Match(Loaded(Mapping(map["handler" := Str("passpie"), "version" := Float(1.0)])))
    ensures !Match(ReadFailed)
    ensures !Match(Loaded(Mapping(map["handler" := Str("passpie")])))
    ensures !Match(Loaded(Mapping(map["version" := Float(1.0)])))
    ensures !Match(Loaded(Mapping(map["version" := Str("1.0")])))
    ensures !Match(Loaded(Mapping(map["handler" := Str("passpie"), "version" := Str("1.0")])))
    ensures !Match(ScanFailed)
    // a mapping display with `name` twice keeps the last entry only
    ensures Handle(Loaded(Mapping(map["credentials" :=
              Mapping(map["name" := Str("foo"), "name" := Str("bar")])])))
            == Ok(Some(Mapping(map["name" := Str("bar")])))
  {
    assert map["name" := Str("foo"), "name" := Str("bar")] == map["name" := Str("bar")];
  }

  /** `handle` returns some value exactly when the loaded mapping stores it
      under `credentials`, and then returns that value itself. */
  lemma HandleReturnsStored(outcome: LoadOutcome, credentials: Value)
    ensures Handle(outcome) == Ok(Some(credentials)) <==>
      outcome.Loaded? && outcome.doc.Mapping? &&
      CredentialsKey in outcome.doc.entries &&
      outcome.doc.entries[CredentialsKey] == credentials
  {
  }

  /** What `handle` returns does not depend on any entry but `credentials`:
      in particular not on the handler tag or the version. */
  lemma HandleIgnoresOtherKeys(m: map<string, Value>, key: string, v: Value)
    requires key != CredentialsKey
    ensures Handle(Loaded(Mapping(m[key := v]))) == Handle(Loaded(Mapping(m)))
  {
  }

  /** Once `match` has accepted a load outcome, `handle` on the same outcome
      does not raise. */
  lemma HandleAfterMatch(outcome: LoadOutcome)
    requires Match(outcome)
    ensures Handle(outcome).Ok?
    ensures Handle(outcome).value.Some? <==> CredentialsKey in outcome.doc.entries
  {
  }

  /** Round trip: a document passpie exported is matched, and `handle` gives
      back exactly the credentials that went into it. */
  lemma ExportRoundTrip(version: real, credentials: Value)
    ensures Match(Loaded(Mapping(Exported(version, credentials))))
    ensures Handle(Loaded(Mapping(Exported(version, credentials)))) == Ok(Some(credentials))
  {
  }
}
