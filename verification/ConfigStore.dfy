/**
 The Manager Agent's model settings (internal/manageragent/config.go): a configuration file and the
 API key in the operating system's secret store, changed together with a compensating write.
 */
module ConfigStore {
  import opened Wrappers
  import opened Text

  const SCHEMA := "longhub/manager-agent-config/v1"
  const MAX_BASE_URL := 2048
  const MAX_MODEL := 200
  const MAX_KEY := 2048
  const MAX_FILE := 32 * 1024

  datatype Config = Config(schema: string, baseURL: string, model: string, protocol: string)

  /** URL parsing and JSON are not looked into: `parse` gives the printed form of an acceptable
      address; `decode` is strict about unknown fields. */
  datatype Codec = Codec(
    parse: string -> Option<string>, encode: Config -> Bytes, decode: Bytes -> Option<Config>, fails: nat -> bool)

  /** JSON keeps the four strings. */
  ghost predicate Faithful(codec: Codec) {
    forall c :: codec.decode(codec.encode(c)) == Some(c)
  }

  datatype ConfigError =
    | ModelInvalid | AddressInvalid | ProtocolInvalid | KeyInvalid | KeyRequired | NotConfigured
    | FileInvalid | StoreFailed | RollbackFailed

  function TrimSlashes(s: string): string
  {
    if s != "" && s[|s| - 1] == '/' then TrimSlashes(s[..|s| - 1]) else s
  }

  /** An address as it is measured and parsed. */
  function Trimmed(address: string): string {
    TrimSlashes(TrimSpace(address))
  }

  predicate ValidApiKey(key: string) {
    key != "" && Utf8Length(key) <= MAX_KEY && key == TrimSpace(key) && !ContainsAny(key, {'\r', '\n', '\0'})
  }

  function ValidateProtocol(protocol: string): Result<string, ConfigError> {
    var p := TrimSpace(protocol);
    if p == "" then Ok("auto")
    else if p in {"auto", "responses", "chat_completions"} then Ok(p)
    else Err(ProtocolInvalid)
  }

  /** The address and the model as they are stored. */
  function ValidateConfig(codec: Codec, baseURL: string, model: string): Result<(string, string), ConfigError> {
    var base := Trimmed(baseURL);
    var name := TrimSpace(model);
    if || Utf8Length(base) > MAX_BASE_URL || name == "" || Utf8Length(name) > MAX_MODEL
       || ContainsAny(name, {'\r', '\n', '\0'})
    then Err(ModelInvalid)
    else
      match codec.parse(base)
      case None => Err(AddressInvalid)
      case Some(printed) => Ok((printed, name))
  }

  // ---- Reading ---------------------------------------------------------------------------

  function ReadConfig(codec: Codec, file: Option<Bytes>): Result<Config, ConfigError> {
    match file
    case None => Ok(Config(SCHEMA, "", "", ""))
    case Some(data) =>
      if |data| > MAX_FILE then Err(FileInvalid)
      else
        match codec.decode(data)
        case None => Err(FileInvalid)
        case Some(c) =>
          if c.schema != SCHEMA then Err(FileInvalid)
          else
            var checked := ValidateConfig(codec, c.baseURL, c.model);
            var protocol := ValidateProtocol(c.protocol);
            if checked.Err? then Err(checked.error)
            else if protocol.Err? then Err(protocol.error)
            else Ok(Config(SCHEMA, checked.value.0, checked.value.1, protocol.value))
  }

  function ReadCredentials(codec: Codec, file: Option<Bytes>, secret: string): Result<(Config, string), ConfigError> {
    var config := ReadConfig(codec, file);
    if config.Err? then Err(config.error)
    else if !ValidApiKey(secret) || config.value.baseURL == "" || config.value.model == "" then Err(NotConfigured)
    else Ok((config.value, secret))
  }

  // ---- Saving ----------------------------------------------------------------------------

  /** What the caller may ask for: the checks made before either store is touched. */
  function Wanted(codec: Codec, baseURL: string, model: string, protocol: string, apiKey: string)
    : Result<Config, ConfigError>
  {
    var checked := ValidateConfig(codec, baseURL, model);
    var proto := ValidateProtocol(protocol);
    if checked.Err? then Err(checked.error)
    else if proto.Err? then Err(proto.error)
    else if apiKey != "" && !ValidApiKey(apiKey) then Err(KeyInvalid)
    else Ok(Config(SCHEMA, checked.value.0, checked.value.1, proto.value))
  }

  lemma {:induction false} SlashesTrimmed(s: string)
    ensures TrimSlashes(s) <= s && (TrimSlashes(s) == "" || TrimSlashes(s)[|TrimSlashes(s)| - 1] != '/')
    ensures forall i :: |TrimSlashes(s)| <= i < |s| ==> s[i] == '/'
  {
    if s != "" && s[|s| - 1] == '/' {
      SlashesTrimmed(s[..|s| - 1]);
    }
  }

  /** What may be saved at all. */
  predicate Savable(codec: Codec, baseURL: string, model: string, protocol: string, apiKey: string) {
    && Utf8Length(Trimmed(baseURL)) <= 2048 && codec.parse(Trimmed(baseURL)).Some?
    && 1 <= Utf8Length(TrimSpace(model)) <= 200 && !ContainsAny(TrimSpace(model), {'\r', '\n', '\0'})
    && TrimSpace(protocol) in {"", "auto", "responses", "chat_completions"}
    && (apiKey != "" ==>
          Utf8Length(apiKey) <= 2048 && apiKey == TrimSpace(apiKey) && !ContainsAny(apiKey, {'\r', '\n', '\0'}))
  }

  /** A request is taken exactly when it may be saved; then the address is the printed one, the model is
      trimmed, and the protocol is the one that was named, or "auto" when none was. */
  lemma WantedExactly(codec: Codec, baseURL: string, model: string, protocol: string, apiKey: string)
    ensures var r := Wanted(codec, baseURL, model, protocol, apiKey);
      if Savable(codec, baseURL, model, protocol, apiKey) then
        r == Ok(Config(SCHEMA, codec.parse(Trimmed(baseURL)).value, TrimSpace(model),
                       if TrimSpace(protocol) == "" then "auto" else TrimSpace(protocol)))
      else r.Err?
  {
    assert Utf8Length(TrimSpace(model)) == 0 <==> TrimSpace(model) == "";
  }

  class Store {
    const codec: Codec
    var file: Option<Bytes>
    var secret: string
    var step: nat

    constructor (codec: Codec, file: Option<Bytes>, secret: string)
      ensures this.codec == codec && this.file == file && this.secret == secret && step == 0
    {
      this.codec, this.file, this.secret, step := codec, file, secret, 0;
    }

    ghost predicate NoFaults()
      reads this
    {
      forall k :: k >= step ==> !codec.fails(k)
    }

    /** At most one of the coming operations fails. */
    ghost predicate OneFault()
      reads this
    {
      forall j, k :: j >= step && k >= step && codec.fails(j) && codec.fails(k) ==> j == k
    }

    /** One file or secret-store operation; one that fails changes nothing. */
    method Try() returns (ok: bool)
      modifies this`step
      ensures step == old(step) + 1 && ok == !codec.fails(old(step))
    {
      ok := !codec.fails(step);
      step := step + 1;
    }

    /** A temporary file renamed into place. */
    method WriteAtomic(data: Bytes) returns (ok: bool)
      modifies this`step, this`file
      ensures step == old(step) + 1 && ok == !codec.fails(old(step))
      ensures file == if ok then Some(data) else old(file)
    {
      ok := Try();
      if ok {
        file := Some(data);
      }
    }

    method RestoreOptionalFile(previous: Option<Bytes>) returns (ok: bool)
      modifies this`step, this`file
      ensures step == old(step) + 1 && ok == !codec.fails(old(step))
      ensures file == if ok then previous else old(file)
    {
      if previous.Some? {
        ok := WriteAtomic(previous.value);
        return;
      }
      ok := Try();
      if ok {
        file := None;
      }
    }

    method SaveWithProtocol(baseURL: string, model: string, protocol: string, apiKey: string)
      returns (r: Result<Config, ConfigError>)
      modifies this
      ensures r.Ok? ==>
        && r == Wanted(codec, baseURL, model, protocol, apiKey) && file == Some(codec.encode(r.value))
        && secret == (if apiKey == "" then old(secret) else apiKey) && ValidApiKey(secret)
      ensures r.Err? && r.error != RollbackFailed ==> file == old(file) && secret == old(secret)
      ensures r == Err(RollbackFailed) ==>
        && secret == old(secret) && apiKey != ""
        && Wanted(codec, baseURL, model, protocol, apiKey).Ok?
        && file == Some(codec.encode(Wanted(codec, baseURL, model, protocol, apiKey).value))
      ensures old(OneFault()) ==> r != Err(RollbackFailed)
      ensures old(NoFaults()) ==>
        (r.Ok? <==> Wanted(codec, baseURL, model, protocol, apiKey).Ok? && (apiKey != "" || ValidApiKey(old(secret))))
    {
      var wanted := Wanted(codec, baseURL, model, protocol, apiKey);
      if wanted.Err? {
        return wanted;
      }
      var config := wanted.value;
      var ok := Try();
      if !ok {
        return Err(StoreFailed);
      }
      if apiKey == "" && !ValidApiKey(secret) {
        return Err(KeyRequired);
      }
      ok := Try();
      if !ok {
        return Err(StoreFailed);
      }
      var previous := file;
      ok := WriteAtomic(codec.encode(config));
      if !ok {
        return Err(StoreFailed);
      }
      if apiKey != "" {
        ok := Try();
        if !ok {
          var restored := RestoreOptionalFile(previous);
          return Err(if restored then StoreFailed else RollbackFailed);
        }
        secret := apiKey;
      }
      return Ok(config);
    }

    method Delete() returns (error: Option<ConfigError>)
      modifies this
      ensures error.None? ==> file == None && secret == ""
      ensures error.Some? && error.value != RollbackFailed ==> file == old(file) && secret == old(secret)
      ensures error == Some(RollbackFailed) ==> file == None && secret == old(secret)
      ensures old(OneFault()) ==> error != Some(RollbackFailed)
      ensures old(NoFaults()) ==> error.None?
    {
      var ok := Try();
      if !ok {
        return Some(StoreFailed);
      }
      var previous := file;
      ok := Try();
      if !ok {
        return Some(StoreFailed);
      }
      file := None;
      ok := Try();
      if !ok {
        var restored := RestoreOptionalFile(previous);
        return Some(if restored then StoreFailed else RollbackFailed);
      }
      secret := "";
      return None;
    }

    method Credentials() returns (r: Result<(Config, string), ConfigError>)
      modifies this`step
      ensures r.Ok? ==> r == ReadCredentials(codec, file, secret)
      ensures old(NoFaults()) ==> r == ReadCredentials(codec, file, secret)
    {
      var ok := Try();
      if !ok {
        return Err(StoreFailed);
      }
      var config := ReadConfig(codec, file);
      if config.Err? {
        return Err(config.error);
      }
      ok := Try();
      if !ok {
        return Err(StoreFailed);
      }
      if !ValidApiKey(secret) || config.value.baseURL == "" || config.value.model == "" {
        return Err(NotConfigured);
      }
      return Ok((config.value, secret));
    }
  }

  /** What the two stores must hold for the credentials to be given out, and what is given out then. */
  predicate Usable(codec: Codec, file: Option<Bytes>, secret: string, r: (Config, string)) {
    && file.Some? && |file.value| <= 32 * 1024 && codec.decode(file.value).Some?
    && var c := codec.decode(file.value).value;
    && c.schema == SCHEMA && Savable(codec, c.baseURL, c.model, c.protocol, secret) && secret != ""
    && codec.parse(Trimmed(c.baseURL)).value != ""
    && r == (Config(SCHEMA, codec.parse(Trimmed(c.baseURL)).value, TrimSpace(c.model),
                    if TrimSpace(c.protocol) == "" then "auto" else TrimSpace(c.protocol)), secret)
  }

  lemma CredentialsExactly(codec: Codec, file: Option<Bytes>, secret: string, r: (Config, string))
    ensures ReadCredentials(codec, file, secret) == Ok(r) <==> Usable(codec, file, secret, r)
  {
    if file.Some? && codec.decode(file.value).Some? {
      var c := codec.decode(file.value).value;
      WantedExactly(codec, c.baseURL, c.model, c.protocol, "");
    }
  }

  // ---- What was saved is what is read ----------------------------------------------------

  /** Reading a saved configuration trims, measures and parses its address again. */
  predicate ReadsBack(codec: Codec, c: Config) {
    var address := Trimmed(c.baseURL);
    && |codec.encode(c)| <= MAX_FILE
    && Utf8Length(address) <= MAX_BASE_URL
    && codec.parse(address) == Some(c.baseURL)
  }

  lemma ProtocolStable(protocol: string)
    requires ValidateProtocol(protocol).Ok?
    ensures ValidateProtocol(ValidateProtocol(protocol).value) == ValidateProtocol(protocol)
  {
    TrimSpaceTwice(protocol);
    assert TrimSpace("auto") == "auto";
  }

  /** After a successful save the credentials are the saved address, model and protocol with the new
      or kept key, exactly when the saved address reads back as itself. */
  lemma SavedIsRead(codec: Codec, baseURL: string, model: string, protocol: string, apiKey: string, secret: string)
    requires Faithful(codec) && ValidApiKey(secret)
    requires Wanted(codec, baseURL, model, protocol, apiKey).Ok?
    ensures var c := Wanted(codec, baseURL, model, protocol, apiKey).value;
      ReadCredentials(codec, Some(codec.encode(c)), secret) == Ok((c, secret)) <==> c.baseURL != "" && ReadsBack(codec, c)
  {
    var c := Wanted(codec, baseURL, model, protocol, apiKey).value;
    assert codec.decode(codec.encode(c)) == Some(c);
    TrimSpaceTwice(model);
    ProtocolStable(protocol);
  }

  /** Address normalisation settles at once: what it prints is not empty and, trimmed, is printed as it
      stands. That the printed form is trimmed already, or within the length limit, is not part of this. */
  ghost predicate Settles(codec: Codec) {
    forall a :: codec.parse(a).Some? ==>
      var u := codec.parse(a).value;
      u != "" && codec.parse(Trimmed(u)) == Some(Trimmed(u))
  }

  /** JSON writes at most six bytes for each byte of a string, and little else. */
  ghost predicate Compact(codec: Codec) {
    forall c: Config :: c.schema == SCHEMA && c.protocol in {"auto", "responses", "chat_completions"} ==>
      |codec.encode(c)| <= 6 * (Utf8Length(c.baseURL) + Utf8Length(c.model)) + 1024
  }

  /** What the credentials are after a successful save, in every case: a file too long to be read, an
      address that printing has made too long, or the saved configuration with its address trimmed. */
  lemma SavedIsReadAs(codec: Codec, baseURL: string, model: string, protocol: string, apiKey: string, secret: string)
    requires Faithful(codec) && Settles(codec) && ValidApiKey(secret)
    requires Wanted(codec, baseURL, model, protocol, apiKey).Ok?
    ensures var c := Wanted(codec, baseURL, model, protocol, apiKey).value;
      ReadCredentials(codec, Some(codec.encode(c)), secret) ==
        if |codec.encode(c)| > MAX_FILE then Err(FileInvalid)
        else if Utf8Length(Trimmed(c.baseURL)) > MAX_BASE_URL then Err(ModelInvalid)
        else Ok((c.(baseURL := Trimmed(c.baseURL)), secret))
  {
    var c := Wanted(codec, baseURL, model, protocol, apiKey).value;
    assert codec.parse(Trimmed(baseURL)) == Some(c.baseURL);
    assert codec.decode(codec.encode(c)) == Some(c);
    assert codec.parse("") != Some("");
    TrimSpaceTwice(model);
    ProtocolStable(protocol);
  }

  /** A saved configuration is read as it was saved exactly when its printed address ends in no slash
      or space and is within the limit that was checked before printing. */
  lemma SavedIsReadExactlyWhen(
      codec: Codec, baseURL: string, model: string, protocol: string, apiKey: string, secret: string)
    requires Faithful(codec) && Settles(codec) && Compact(codec) && ValidApiKey(secret)
    requires Wanted(codec, baseURL, model, protocol, apiKey).Ok?
    ensures var c := Wanted(codec, baseURL, model, protocol, apiKey).value;
      ReadCredentials(codec, Some(codec.encode(c)), secret) == Ok((c, secret)) <==>
        Trimmed(c.baseURL) == c.baseURL && Utf8Length(c.baseURL) <= MAX_BASE_URL
  {
    var c := Wanted(codec, baseURL, model, protocol, apiKey).value;
    SavedIsReadAs(codec, baseURL, model, protocol, apiKey, secret);
    assert |codec.encode(c)| <= 6 * (Utf8Length(c.baseURL) + Utf8Length(c.model)) + 1024;
  }

  /** After a successful delete there is nothing to use. */
  lemma DeletedIsNotConfigured(codec: Codec)
    ensures ReadCredentials(codec, None, "") == Err(NotConfigured)
  {
  }
}
