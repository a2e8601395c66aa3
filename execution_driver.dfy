/**
 * The decisions the launcher's `main` takes on the resolved options: the
 * execution wrapper (through `sql.begin` or a direct call) and the path the
 * user script is imported from, with the missing-script error.
 */
module ExecutionDriver {
  import opened JsValues
  import opened Strings
  import opened OptionResolver

  /** The wrapper the script body runs in: `f => f()` or `sql.begin`. */
  datatype Mode = Direct | Transactional

  /** `options.pg && options.begin ? sql.begin : f => f()` */
  function ModeOf(options: map<string, Value>): (m: Mode)
    ensures Get(options, "pg") == Null || !Truthy(Get(options, "begin")) ==> m == Direct
    ensures Get(options, "pg").Arr? && Truthy(Get(options, "begin")) ==> m == Transactional
    ensures m == Transactional <==> Truthy(Get(options, "pg")) && Truthy(Get(options, "begin"))
    ensures m == Transactional ==> Get(options, "pg") != Null && Get(options, "pg") != Undefined
  {
    if Truthy(Get(options, "pg")) && Truthy(Get(options, "begin")) then Transactional else Direct
  }

  /** No locator satisfies two of the four prefixes, so the order of the prefix tests does not matter. */
  lemma LocatorPrefixesExclusive(s: string)
    ensures StartsWith(s, "http://") ==> !StartsWith(s, "https://") && !StartsWith(s, "/") && !StartsWith(s, "file:///")
    ensures StartsWith(s, "https://") ==> !StartsWith(s, "/") && !StartsWith(s, "file:///")
    ensures StartsWith(s, "/") ==> !StartsWith(s, "file:///")
  {
    if StartsWith(s, "http://") {
      assert s[0] == s[..7][0] == 'h' && s[4] == s[..7][4] == ':';
    }
    if StartsWith(s, "https://") {
      assert s[0] == s[..8][0] == 'h';
    }
    if StartsWith(s, "file:///") {
      assert s[0] == s[..8][0] == 'f';
    }
  }

  /**
   * The `let scriptPath` assignments of `main` and the test after them:
   * remote URLs and absolute paths are used as given, a `file:///` URL goes
   * through `fileURLToPath` (which may throw, `None` here), anything else
   * is joined to the working directory `cwd`; a falsy script or path is the
   * missing-script error.
   */
  method ResolveScriptPath(options: map<string, Value>, cwd: string,
                           fileUrlToPath: string -> Option<string>, join: (string, string) -> string)
    returns (r: Result<string>)
    ensures !Truthy(Get(options, "script")) ==> r == Err(RequiredScriptMissing)
    ensures Truthy(Get(options, "script")) && !Get(options, "script").Str? ==> r == Err(ScriptNotText)
    ensures r.Ok? ==> r.value != "" && Get(options, "script").Str? && Get(options, "script").s != ""
    ensures r.Err? ==> r.error in {RequiredScriptMissing, ScriptNotText, InvalidFileUrl}
    ensures r == Err(InvalidFileUrl) <==>
              Get(options, "script").Str? && StartsWith(Get(options, "script").s, "file:///") &&
              fileUrlToPath(Get(options, "script").s).None?
    ensures Get(options, "script").Str? ==>
              var s := Get(options, "script").s;
              && (StartsWith(s, "http://") || StartsWith(s, "https://") || StartsWith(s, "/") ==> r == Ok(s))
              && (StartsWith(s, "file:///") ==>
                    r == match fileUrlToPath(s)
                         case None => Err(InvalidFileUrl)
                         case Some(path) => if path == "" then Err(RequiredScriptMissing) else Ok(path))
              && (s != "" && !StartsWith(s, "http://") && !StartsWith(s, "https://") &&
                  !StartsWith(s, "/") && !StartsWith(s, "file:///") ==>
                    r == if join(cwd, s) == "" then Err(RequiredScriptMissing) else Ok(join(cwd, s)))
  {
    var script := Get(options, "script");
    var scriptPath := Undefined;
    if Truthy(script) {
      if !script.Str? {
        return Err(ScriptNotText);
      }
      var s := script.s;
      LocatorPrefixesExclusive(s);
      if StartsWith(s, "http://") || StartsWith(s, "https://") {
        scriptPath := Str(s);
      } else {
        if StartsWith(s, "/") {
          scriptPath := Str(s);
        } else if StartsWith(s, "file:///") {
          match fileUrlToPath(s) {
            case None => return Err(InvalidFileUrl);
            case Some(path) => scriptPath := Str(path);
          }
        } else {
          scriptPath := Str(join(cwd, s));
        }
      }
    }
    if Truthy(scriptPath) {
      r := Ok(scriptPath.s);
    } else {
      r := Err(RequiredScriptMissing);
    }
  }

  /**
   * When `args` has no `pg` entry of its own, the run is transactional
   * exactly when it connects and `--begin` is truthy; `-X` without an
   * explicit `connect` therefore always runs the script directly.
   */
  lemma ModeFromArguments(args: map<string, Value>, pghost: Option<string>, parse: string -> Option<Value>)
    requires Tokenized(args)
    requires Options(args, pghost, parse).Ok?
    requires "pg" !in args
    ensures var o := Options(args, pghost, parse).value;
            (ModeOf(o) == Transactional <==> Truthy(ConnectFlag(args)) && Truthy(Get(args, "begin")))
    ensures Get(args, "connect") == Undefined && Truthy(Get(args, "X")) ==>
              ModeOf(Options(args, pghost, parse).value) == Direct
  {
    var (connectionString, script) := SplitPositional(args["_"].elems);
    var list := Get(args, "sql-var");
    var sqlOptions := SqlOptions(args, Connection(Texts(list.elems), parse));
    var token := ResolveToken(Get(args, "ssl"), pghost, connectionString).value;
    var pg := PgArgs(ConnectFlag(args), connectionString, SslOption(token), sqlOptions);
    SqlOptionsKeys(args, Connection(Texts(list.elems), parse));
    PgArgsShape(ConnectFlag(args), connectionString, SslOption(token), sqlOptions);
    MergeArgumentsWin(pg, BeginFlag(args), connectionString, script, args);
    ConnectDefault(args);
  }

  /** Without a `script` entry of its own, the script resolved from `args` is the positional one. */
  lemma ScriptFromPositional(args: map<string, Value>, pghost: Option<string>, parse: string -> Option<Value>)
    requires Tokenized(args)
    requires Options(args, pghost, parse).Ok?
    requires "script" !in args && "connectionString" !in args
    ensures Get(Options(args, pghost, parse).value, "script") == SplitPositional(args["_"].elems).1
    ensures Get(Options(args, pghost, parse).value, "connectionString") == SplitPositional(args["_"].elems).0
  {
    var (connectionString, script) := SplitPositional(args["_"].elems);
    var list := Get(args, "sql-var");
    var sqlOptions := SqlOptions(args, Connection(Texts(list.elems), parse));
    var token := ResolveToken(Get(args, "ssl"), pghost, connectionString).value;
    var pg := PgArgs(ConnectFlag(args), connectionString, SslOption(token), sqlOptions);
    MergeArgumentsWin(pg, BeginFlag(args), connectionString, script, args);
  }
}
