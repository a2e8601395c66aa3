/**
 * Option resolution of the launcher (`parseOptions`): from the tokenized
 * argument map and the `PGHOST` environment variable to the resolved
 * options record, with the positional split, the `connect` default, the
 * pool options, the TLS token and the argument tuple for the database
 * driver. The pure steps are functions; the steps the code performs by
 * updating variables, a fold and a loop are methods proved equal to them.
 */
module OptionResolver {
  import opened JsValues
  import opened Strings

  /* ---------------- Positional split ---------------- */

  /**
   * `let [connectionString, script] = args._` followed by the swap when
   * `script` is falsy. Returns the pair (connectionString, script).
   */
  function SplitPositional(positional: seq<Value>): (r: (Value, Value))
    ensures r.0 == Null || Truthy(r.1)
    ensures r.0 != Null ==> |positional| >= 2 && r == (positional[0], positional[1])
    ensures r.1 in positional || (r.1 == Undefined && |positional| <= 1)
  {
    var first := if |positional| > 0 then positional[0] else Undefined;
    var second := if |positional| > 1 then positional[1] else Undefined;
    if Truthy(second) then (first, second) else (Null, first)
  }

  /** One positional value (or a falsy second one) is the script; two are connection string and script. */
  lemma PositionalSplitCases(positional: seq<Value>)
    ensures |positional| >= 2 && Truthy(positional[1]) ==>
              SplitPositional(positional) == (positional[0], positional[1])
    ensures |positional| == 1 || (|positional| >= 2 && !Truthy(positional[1])) ==>
              SplitPositional(positional) == (Null, positional[0])
    ensures |positional| == 0 ==> SplitPositional(positional) == (Null, Undefined)
    ensures SplitPositional(positional).0 == Null || Truthy(SplitPositional(positional).1)
  {
  }

  /* ---------------- Flags with destructuring defaults ---------------- */

  /** `X = false, connect = !X` */
  function ConnectFlag(args: map<string, Value>): Value
  {
    Default(Get(args, "connect"), Bool(!Truthy(Default(Get(args, "X"), Bool(false)))))
  }

  /** `begin = false` */
  function BeginFlag(args: map<string, Value>): Value
  {
    Default(Get(args, "begin"), Bool(false))
  }

  /** `no_prepare = !prepare`, where `prepare` is the `sql-prepare` flag */
  function NoPrepare(args: map<string, Value>): Value
  {
    Default(Get(args, "no_prepare"), Bool(!Truthy(Get(args, "sql-prepare"))))
  }

  /** Without an explicit `connect`, the run connects exactly when `X` is not set. */
  lemma ConnectDefault(args: map<string, Value>)
    ensures Get(args, "connect") == Undefined ==>
              ConnectFlag(args) == Bool(!Truthy(Get(args, "X")))
    ensures Get(args, "connect") != Undefined ==> ConnectFlag(args) == args["connect"]
    ensures Truthy(BeginFlag(args)) <==> Truthy(Get(args, "begin"))
    ensures Get(args, "begin") != Undefined ==> BeginFlag(args) == args["begin"]
    ensures Get(args, "no_prepare") == Undefined ==> NoPrepare(args) == Bool(!Truthy(Get(args, "sql-prepare")))
    ensures Get(args, "no_prepare") != Undefined ==> NoPrepare(args) == args["no_prepare"]
  {
  }

  /* ---------------- The `sql-var` fold ---------------- */

  /** The key of a `k=v` entry: the first piece of splitting it on `=`. */
  function EntryKey(entry: string): string
  {
    Split(entry, '=')[0]
  }

  /**
   * The value of a `k=v` entry: the JSON parse of the second piece, or the
   * piece itself when the parse fails; with no second piece the parse of
   * `undefined` always fails, so the value is `undefined`.
   */
  function EntryValue(entry: string, parse: string -> Option<Value>): Value
  {
    var parts := Split(entry, '=');
    if |parts| < 2 then Undefined
    else match parse(parts[1])
      case Some(v) => v
      case None => Str(parts[1])
  }

  /** The object `vars.reduce` builds: entries applied first to last. */
  function Connection(vars: seq<string>, parse: string -> Option<Value>): (connection: map<string, Value>)
    ensures |connection| <= |vars|
    ensures vars != [] ==> EntryKey(vars[|vars| - 1]) in connection
    decreases |vars|
  {
    if vars == [] then map[]
    else
      var last := vars[|vars| - 1];
      Connection(vars[..|vars| - 1], parse)[EntryKey(last) := EntryValue(last, parse)]
  }

  /** The key and value of an entry are the text before the first `=` and the text up to the next one. */
  lemma EntrySplitsOnFirstEquals(k: string, v: string, more: string, parse: string -> Option<Value>)
    requires '=' !in k && '=' !in v
    requires more == [] || more[0] == '='
    ensures EntryKey(k + "=" + v + more) == k
    ensures EntryValue(k + "=" + v + more, parse) ==
              match parse(v) case Some(x) => x case None => Str(v)
  {
    assert k + "=" + v + more == k + ['='] + (v + more);
    SplitAtFirst(k, '=', v + more);
    SplitFirstPrefix(v, more, '=');
    if more != [] {
      FirstPieceStart(more, '=');
    }
    assert Split(more, '=')[0] == [];
    var parts := Split(k + "=" + v + more, '=');
    assert parts == [k] + Split(v + more, '=');
    assert parts[1] == v + [] == v;
  }

  /** An entry without `=` sets its whole text as key to `undefined`. */
  lemma EntryWithoutEquals(entry: string, parse: string -> Option<Value>)
    requires '=' !in entry
    ensures EntryKey(entry) == entry && EntryValue(entry, parse) == Undefined
  {
    SplitWithoutSep(entry, '=');
  }

  /** The keys of the fold are exactly the keys of the entries. */
  lemma {:induction false} ConnectionKeys(vars: seq<string>, parse: string -> Option<Value>)
    ensures forall k :: k in Connection(vars, parse) <==>
              exists i :: 0 <= i < |vars| && EntryKey(vars[i]) == k
    decreases |vars|
  {
    if vars != [] {
      var init := vars[..|vars| - 1];
      ConnectionKeys(init, parse);
      forall k | k in Connection(vars, parse)
        ensures exists i :: 0 <= i < |vars| && EntryKey(vars[i]) == k
      {
        if k != EntryKey(vars[|vars| - 1]) {
          assert k in Connection(init, parse);
          var i :| 0 <= i < |init| && EntryKey(init[i]) == k;
          assert vars[i] == init[i];
        }
      }
      forall k | exists i :: 0 <= i < |vars| && EntryKey(vars[i]) == k
        ensures k in Connection(vars, parse)
      {
        var i :| 0 <= i < |vars| && EntryKey(vars[i]) == k;
        if i < |vars| - 1 {
          assert init[i] == vars[i];
        }
      }
    }
  }

  /** The last entry with a given key decides that key's value. */
  lemma {:induction false} ConnectionLastWins(vars: seq<string>, parse: string -> Option<Value>, j: nat)
    requires j < |vars|
    requires forall i :: j < i < |vars| ==> EntryKey(vars[i]) != EntryKey(vars[j])
    ensures EntryKey(vars[j]) in Connection(vars, parse)
    ensures Connection(vars, parse)[EntryKey(vars[j])] == EntryValue(vars[j], parse)
    decreases |vars|
  {
    if j < |vars| - 1 {
      var init := vars[..|vars| - 1];
      assert init[j] == vars[j];
      forall i | j < i < |init| ensures EntryKey(init[i]) != EntryKey(init[j]) {
        assert init[i] == vars[i];
      }
      ConnectionLastWins(init, parse, j);
    }
  }

  /** The entries of a `sql-var` flag given at least twice: all must be strings. */
  predicate AllText(vars: seq<Value>)
  {
    forall i :: 0 <= i < |vars| ==> vars[i].Str?
  }

  function Texts(vars: seq<Value>): (texts: seq<string>)
    requires AllText(vars)
    ensures |texts| == |vars|
    ensures forall i :: 0 <= i < |vars| ==> Str(texts[i]) == vars[i]
  {
    seq(|vars|, i requires 0 <= i < |vars| => vars[i].s)
  }

  /** One more string entry adds its text to the end of the texts. */
  lemma TextsStep(vars: seq<Value>, i: nat)
    requires i < |vars| && AllText(vars[..i]) && vars[i].Str?
    ensures AllText(vars[..i + 1]) && Texts(vars[..i + 1]) == Texts(vars[..i]) + [vars[i].s]
  {
    assert forall j :: 0 <= j < i ==> vars[..i][j] == vars[..i + 1][j];
  }

  /** One more entry is one more step of the fold. */
  lemma ConnectionStep(texts: seq<string>, entry: string, parse: string -> Option<Value>)
    ensures Connection(texts + [entry], parse) == Connection(texts, parse)[EntryKey(entry) := EntryValue(entry, parse)]
  {
    assert (texts + [entry])[..|texts|] == texts;
  }

  /**
   * The body of the `reduce` callback for one string entry `n`: the key and
   * value it stores, with a failed `JSON.parse` falling back to the raw text.
   */
  method ReduceEntry(n: string, parse: string -> Option<Value>) returns (k: string, v: Value)
    ensures k == EntryKey(n) && v == EntryValue(n, parse)
    ensures '=' !in k
  {
    var parts := Split(n, '=');
    k := parts[0];
    if |parts| >= 2 {
      match parse(parts[1]) {
        case Some(parsed) => v := parsed;
        case None => v := Str(parts[1]);
      }
    } else {
      v := Undefined;
    }
  }

  /**
   * `vars.reduce((p, n) => {...}, {})`, step by step: the accumulator is
   * updated in place per entry, and `n.split` throws on an entry that is
   * not a string.
   */
  method BuildConnection(vars: seq<Value>, parse: string -> Option<Value>)
    returns (r: Result<map<string, Value>>)
    ensures AllText(vars) ==> r == Ok(Connection(Texts(vars), parse))
    ensures !AllText(vars) ==> r == Err(SqlVarEntryNotText)
  {
    var p: map<string, Value> := map[];
    var i := 0;
    while i < |vars|
      invariant 0 <= i <= |vars|
      invariant AllText(vars[..i])
      invariant p == Connection(Texts(vars[..i]), parse)
    {
      if !vars[i].Str? {
        return Err(SqlVarEntryNotText);
      }
      var k, v := ReduceEntry(vars[i].s, parse);
      p := p[k := v];
      TextsStep(vars, i);
      ConnectionStep(Texts(vars[..i]), vars[i].s, parse);
      i := i + 1;
    }
    assert vars[..i] == vars;
    r := Ok(p);
  }

  /* ---------------- Pool options ---------------- */

  /** `Object.entries(o)` of an object literal, keeping only defined values. */
  function DefinedEntries(entries: seq<(string, Value)>): map<string, Value>
    decreases |entries|
  {
    if entries == [] then map[]
    else
      var m := DefinedEntries(entries[..|entries| - 1]);
      var e := entries[|entries| - 1];
      if e.1 != Undefined then m[e.0 := e.1] else m
  }

  predicate DistinctKeys(entries: seq<(string, Value)>)
  {
    forall i, j :: 0 <= i < j < |entries| ==> entries[i].0 != entries[j].0
  }

  /** For an object's entries (distinct keys): a key is kept exactly when its value is defined, with that value. */
  lemma {:induction false} DefinedEntriesKeep(entries: seq<(string, Value)>)
    requires DistinctKeys(entries)
    ensures forall i :: 0 <= i < |entries| ==>
              (entries[i].0 in DefinedEntries(entries) <==> entries[i].1 != Undefined)
    ensures forall i :: 0 <= i < |entries| && entries[i].1 != Undefined ==>
              DefinedEntries(entries)[entries[i].0] == entries[i].1
    ensures forall k :: k in DefinedEntries(entries) ==>
              exists i :: 0 <= i < |entries| && entries[i].0 == k
    decreases |entries|
  {
    if entries != [] {
      var init := entries[..|entries| - 1];
      assert DistinctKeys(init) by {
        forall i, j | 0 <= i < j < |init| ensures init[i].0 != init[j].0 {
          assert init[i] == entries[i] && init[j] == entries[j];
        }
      }
      DefinedEntriesKeep(init);
      forall i | 0 <= i < |entries| - 1
        ensures entries[i] == init[i] && entries[i].0 != entries[|entries| - 1].0
      {
      }
      forall k | k in DefinedEntries(entries)
        ensures exists i :: 0 <= i < |entries| && entries[i].0 == k
      {
        if k != entries[|entries| - 1].0 {
          var i :| 0 <= i < |init| && init[i].0 == k;
          assert entries[i] == init[i];
        }
      }
    }
  }

  /** The `for (let [k, v] of Object.entries({...}))` loop inserting defined entries into `sqlOptions`. */
  method PutDefined(entries: seq<(string, Value)>) returns (sqlOptions: map<string, Value>)
    ensures sqlOptions == DefinedEntries(entries)
  {
    sqlOptions := map[];
    for i := 0 to |entries|
      invariant sqlOptions == DefinedEntries(entries[..i])
    {
      var (k, v) := entries[i];
      if v != Undefined {
        sqlOptions := sqlOptions[k := v];
      }
      assert entries[..i + 1][..i] == entries[..i];
    }
    assert entries[..|entries|] == entries;
  }

  /** The object literal `{ max, idle_timeout, connect_timeout, no_prepare, connection }`. */
  function PoolEntries(args: map<string, Value>, connection: map<string, Value>): seq<(string, Value)>
  {
    [ ("max", Get(args, "sql-max")),
      ("idle_timeout", Get(args, "sql-idle-timeout")),
      ("connect_timeout", Get(args, "sql-connect-timeout")),
      ("no_prepare", NoPrepare(args)),
      ("connection", Obj(connection)) ]
  }

  function SqlOptions(args: map<string, Value>, connection: map<string, Value>): map<string, Value>
  {
    DefinedEntries(PoolEntries(args, connection))
  }

  const PoolKeys: set<string> := {"max", "idle_timeout", "connect_timeout", "no_prepare", "connection"}

  /**
   * The pool options hold only the five known keys; the three numeric ones
   * appear exactly when their flag was given, while `no_prepare` and
   * `connection` are always present.
   */
  lemma SqlOptionsKeys(args: map<string, Value>, connection: map<string, Value>)
    ensures SqlOptions(args, connection).Keys <= PoolKeys
    ensures "max" in SqlOptions(args, connection) <==> Get(args, "sql-max") != Undefined
    ensures "idle_timeout" in SqlOptions(args, connection) <==> Get(args, "sql-idle-timeout") != Undefined
    ensures "connect_timeout" in SqlOptions(args, connection) <==> Get(args, "sql-connect-timeout") != Undefined
    ensures "max" in SqlOptions(args, connection) ==> SqlOptions(args, connection)["max"] == args["sql-max"]
    ensures "no_prepare" in SqlOptions(args, connection)
    ensures SqlOptions(args, connection)["no_prepare"] == NoPrepare(args)
    ensures "connection" in SqlOptions(args, connection)
    ensures SqlOptions(args, connection)["connection"] == Obj(connection)
  {
    var entries := PoolEntries(args, connection);
    DefinedEntriesKeep(entries);
    assert entries[0].0 == "max" && entries[3].0 == "no_prepare" && entries[4].0 == "connection";
    assert entries[1].0 == "idle_timeout" && entries[2].0 == "connect_timeout";
    forall k | k in SqlOptions(args, connection) ensures k in PoolKeys {
      var i :| 0 <= i < |entries| && entries[i].0 == k;
    }
  }

  /* ---------------- TLS resolution ---------------- */

  /** `x => x.split(':')[0]` over a host list */
  function StripPorts(hosts: seq<string>): seq<string>
  {
    seq(|hosts|, i requires 0 <= i < |hosts| => Split(hosts[i], ':')[0])
  }

  /**
   * The host list of the `heroku` heuristic: `PGHOST` split on `,` when set,
   * else the connection string's `@`…`/` segment split on `,` without ports,
   * else no host at all.
   */
  function HerokuHosts(pghost: Option<string>, connectionString: Value): (r: Result<seq<string>>)
    ensures (pghost.Some? && pghost.value != "") ==> r.Ok? && |r.value| >= 1
    ensures r.Err? ==> Truthy(connectionString)
    ensures r.Ok? && r.value == [] <==>
              (pghost.None? || pghost.value == "") && !Truthy(connectionString)
  {
    if pghost.Some? && pghost.value != "" then Ok(Split(pghost.value, ','))
    else if Truthy(connectionString) then
      if !connectionString.Str? then Err(ConnectionStringNotText)
      else
        var at := Split(connectionString.s, '@');
        if |at| < 2 then Err(NoHostSegment)
        else Ok(StripPorts(Split(Split(at[1], '/')[0], ',')))
    else Ok([])
  }

  /** The `heroku` token: `'no-reject'` when every host ends with `.com`, else `false`. */
  function HerokuToken(hosts: seq<string>): Value
  {
    if forall i | 0 <= i < |hosts| :: EndsWith(hosts[i], ".com") then Str("no-reject") else Bool(false)
  }

  /** The `ssl` flag after the `heroku` step. */
  function ResolveToken(theirSsl: Value, pghost: Option<string>, connectionString: Value): (r: Result<Value>)
    ensures !LooseEqualsText(theirSsl, "heroku") ==> r == Ok(theirSsl)
    ensures LooseEqualsText(theirSsl, "heroku") && r.Ok? ==>
              r.value == Str("no-reject") || r.value == Bool(false)
    ensures r.Err? ==> LooseEqualsText(theirSsl, "heroku") && Truthy(connectionString)
  {
    if LooseEqualsText(theirSsl, "heroku") then
      var hosts :- HerokuHosts(pghost, connectionString);
      Ok(HerokuToken(hosts))
    else Ok(theirSsl)
  }

  /** The `ssl` driver option: the ternary chain ending in `t !== 'disabled' && t !== false && t`. */
  function SslOption(token: Value): (ssl: Value)
    ensures ssl != Str("disabled")
    ensures ssl == token || ssl == Bool(false) ||
            ssl == Obj(map["rejectUnauthorized" := Bool(false)]) ||
            ssl == Obj(map["rejectUnauthorized" := Bool(true)])
    ensures !Truthy(token) ==> !Truthy(ssl)
  {
    if LooseEqualsText(token, "no-reject") then Obj(map["rejectUnauthorized" := Bool(false)])
    else if LooseEqualsText(token, "reject") then Obj(map["rejectUnauthorized" := Bool(true)])
    else if token != Str("disabled") && token != Bool(false) then token
    else Bool(false)
  }

  /**
   * The `if (theirSSL == 'heroku')` block as the code runs it: `hosts` and
   * `theirSSL` are `let` variables reassigned through its branches.
   */
  method ResolveTls(theirSsl: Value, pghost: Option<string>, connectionString: Value)
    returns (r: Result<Value>)
    ensures r == ResolveToken(theirSsl, pghost, connectionString)
  {
    var token := theirSsl;
    if LooseEqualsText(token, "heroku") {
      var hosts: seq<string> := [];
      if pghost.Some? && pghost.value != "" {
        hosts := Split(pghost.value, ',');
      } else if Truthy(connectionString) {
        if !connectionString.Str? {
          return Err(ConnectionStringNotText);
        }
        var at := Split(connectionString.s, '@');
        if |at| < 2 {
          return Err(NoHostSegment);
        }
        hosts := StripPorts(Split(Split(at[1], '/')[0], ','));
      }
      token := HerokuToken(hosts);
    }
    r := Ok(token);
  }

  /** A set, non-empty `PGHOST` decides the host list whatever the connection string is. */
  lemma HerokuEnvironmentWins(h: string, connectionString: Value)
    requires h != ""
    ensures HerokuHosts(Some(h), connectionString) == Ok(Split(h, ','))
    ensures |Split(h, ',')| >= 1
  {
  }

  /**
   * Without `PGHOST`, a connection string `user@hosts/...` yields the
   * comma-separated hosts between the first `@` and the next `/`, each
   * without its `:port`.
   */
  lemma HerokuHostsFromConnectionString(pghost: Option<string>, user: string, hosts: string, tail: string)
    requires pghost.None? || pghost.value == ""
    requires '@' !in user && '@' !in hosts && '/' !in hosts
    requires tail == [] || tail[0] == '/'
    ensures HerokuHosts(pghost, Str(user + "@" + hosts + tail)) == Ok(StripPorts(Split(hosts, ',')))
  {
    var s := user + "@" + hosts + tail;
    assert s == user + ['@'] + (hosts + tail);
    SplitAtFirst(user, '@', hosts + tail);
    var at := Split(s, '@');
    assert at[1] == Split(hosts + tail, '@')[0];
    SplitFirstPrefix(hosts, tail, '@');
    var t1 := Split(tail, '@')[0];
    assert at[1] == hosts + t1;
    assert t1 == [] || t1[0] == '/' by {
      if tail != [] {
        FirstPieceStart(tail, '@');
      }
    }
    SplitFirstPrefix(hosts, t1, '/');
    if t1 != [] {
      assert Split(t1, '/')[0] == [];
    }
    assert Split(at[1], '/')[0] == hosts;
  }

  /** Without `PGHOST`, a non-empty connection string fails the heuristic exactly when it has no `@`. */
  lemma HerokuHostsNeedAt(pghost: Option<string>, s: string)
    requires pghost.None? || pghost.value == ""
    requires s != ""
    ensures HerokuHosts(pghost, Str(s)).Err? <==> '@' !in s
    ensures '@' !in s ==> HerokuHosts(pghost, Str(s)) == Err(NoHostSegment)
  {
    SplitHasSep(s, '@');
  }

  /**
   * The token is `'no-reject'` exactly when every host ends with `.com`,
   * which includes the empty host list, and `false` otherwise.
   */
  lemma HerokuTokenCases(hosts: seq<string>)
    ensures HerokuToken(hosts) == Str("no-reject") <==>
              forall i :: 0 <= i < |hosts| ==> EndsWith(hosts[i], ".com")
    ensures HerokuToken(hosts) != Str("no-reject") ==> HerokuToken(hosts) == Bool(false)
    ensures HerokuToken([]) == Str("no-reject")
  {
  }

  /** With no `PGHOST` and no connection string, `heroku` allows unauthorized certificates. */
  lemma HerokuWithoutHosts(pghost: Option<string>, connectionString: Value)
    requires pghost.None? || pghost.value == ""
    requires !Truthy(connectionString)
    ensures ResolveToken(Str("heroku"), pghost, connectionString) == Ok(Str("no-reject"))
    ensures SslOption(Str("no-reject")) == Obj(map["rejectUnauthorized" := Bool(false)])
  {
  }

  /** The mapping from token to driver option. */
  lemma TlsMapping(token: Value)
    ensures LooseEqualsText(token, "no-reject") ==>
              SslOption(token) == Obj(map["rejectUnauthorized" := Bool(false)])
    ensures LooseEqualsText(token, "reject") ==>
              SslOption(token) == Obj(map["rejectUnauthorized" := Bool(true)])
    ensures token == Str("disabled") || token == Bool(false) ==> SslOption(token) == Bool(false)
    ensures (!LooseEqualsText(token, "no-reject") && !LooseEqualsText(token, "reject") &&
             token != Str("disabled") && token != Bool(false)) ==> SslOption(token) == token
  {
    LooseEqualsOneText(token, "reject", "no-reject");
  }

  /** `reject` and `no-reject` resolve the same way whatever the environment and connection string. */
  lemma TlsExplicitTokens(pghost: Option<string>, connectionString: Value)
    ensures ResolveToken(Str("reject"), pghost, connectionString) == Ok(Str("reject"))
    ensures ResolveToken(Str("no-reject"), pghost, connectionString) == Ok(Str("no-reject"))
    ensures SslOption(Str("reject")) == Obj(map["rejectUnauthorized" := Bool(true)])
  {
  }

  /* ---------------- Driver arguments and the result record ---------------- */

  /** `connect ? [connectionString, { ssl, ...sqlOptions }].filter(Boolean) : null` */
  function PgArgs(connect: Value, connectionString: Value, ssl: Value, sqlOptions: map<string, Value>): (pg: Value)
    ensures pg == Null || pg.Arr?
    ensures pg.Arr? ==> 1 <= |pg.elems| <= 2 && forall i :: 0 <= i < |pg.elems| ==> Truthy(pg.elems[i])
  {
    if Truthy(connect) then Arr(FilterTruthy([connectionString, Obj(map["ssl" := ssl] + sqlOptions)]))
    else Null
  }

  /** `pg` is null exactly when not connecting; otherwise one or two arguments ending in the options object. */
  lemma PgArgsShape(connect: Value, connectionString: Value, ssl: Value, sqlOptions: map<string, Value>)
    requires "ssl" !in sqlOptions
    ensures PgArgs(connect, connectionString, ssl, sqlOptions) == Null <==> !Truthy(connect)
    ensures Truthy(connect) ==>
              var pg := PgArgs(connect, connectionString, ssl, sqlOptions);
              && pg.Arr?
              && |pg.elems| == (if Truthy(connectionString) then 2 else 1)
              && (Truthy(connectionString) ==> pg.elems[0] == connectionString)
              && pg.elems[|pg.elems| - 1].Obj?
              && pg.elems[|pg.elems| - 1].fields.Keys == {"ssl"} + sqlOptions.Keys
              && pg.elems[|pg.elems| - 1].fields["ssl"] == ssl
              && forall k :: k in sqlOptions ==> pg.elems[|pg.elems| - 1].fields[k] == sqlOptions[k]
  {
  }

  /** The flags `parseOptions` takes out of `args` before collecting `rest`. */
  const Recognized: set<string> :=
    {"X", "connect", "ssl", "begin",
     "sql-max", "sql-idle-timeout", "sql-connect-timeout", "sql-prepare", "no_prepare", "sql-var"}

  /** `{ pg, begin, connectionString, script, ...args, ...rest }` */
  function Merge(pg: Value, begin: Value, connectionString: Value, script: Value, args: map<string, Value>)
    : (o: map<string, Value>)
    ensures o.Keys == {"pg", "begin", "connectionString", "script"} + args.Keys
    ensures forall k :: k in args ==> o[k] == args[k]
  {
    map["pg" := pg, "begin" := begin, "connectionString" := connectionString, "script" := script]
      + args + (args - Recognized)
  }

  /**
   * Later spreads win: every argument, recognized or not, appears unchanged
   * in the record, and a computed field appears only when `args` lacks it;
   * spreading `rest` after `args` changes nothing.
   */
  lemma MergeArgumentsWin(pg: Value, begin: Value, connectionString: Value, script: Value, args: map<string, Value>)
    ensures var o := Merge(pg, begin, connectionString, script, args);
            && o == map["pg" := pg, "begin" := begin, "connectionString" := connectionString, "script" := script] + args
            && o.Keys == {"pg", "begin", "connectionString", "script"} + args.Keys
            && (forall k :: k in args ==> o[k] == args[k])
            && ("pg" !in args ==> o["pg"] == pg)
            && ("begin" !in args ==> o["begin"] == begin)
            && ("connectionString" !in args ==> o["connectionString"] == connectionString)
            && ("script" !in args ==> o["script"] == script)
  {
    var base := map["pg" := pg, "begin" := begin, "connectionString" := connectionString, "script" := script];
    assert base + args + (args - Recognized) == base + args;
  }

  /* ---------------- parseOptions ---------------- */

  /** What the tokenizer always delivers: the positional values as the array `_`. */
  predicate Tokenized(args: map<string, Value>)
  {
    "_" in args && args["_"].Arr?
  }

  /** `parseOptions(args)` with `process.env.PGHOST` as `pghost` and `JSON.parse` as `parse`. */
  function Options(args: map<string, Value>, pghost: Option<string>, parse: string -> Option<Value>)
    : (r: Result<map<string, Value>>)
    requires Tokenized(args)
    ensures !Get(args, "sql-var").Arr? ==> r == Err(SqlVarNotAList)
    ensures Get(args, "sql-var").Arr? && !AllText(Get(args, "sql-var").elems) ==> r == Err(SqlVarEntryNotText)
    ensures r.Err? && !LooseEqualsText(Get(args, "ssl"), "heroku") ==>
              r == Err(SqlVarNotAList) || r == Err(SqlVarEntryNotText)
    ensures r.Ok? <==>
              && Get(args, "sql-var").Arr? && AllText(Get(args, "sql-var").elems)
              && ResolveToken(Get(args, "ssl"), pghost, SplitPositional(args["_"].elems).0).Ok?
    ensures r.Ok? ==> forall k :: k in args ==> k in r.value && r.value[k] == args[k]
  {
    var (connectionString, script) := SplitPositional(args["_"].elems);
    var list := Get(args, "sql-var");
    if !list.Arr? then Err(SqlVarNotAList)
    else if !AllText(list.elems) then Err(SqlVarEntryNotText)
    else
      var sqlOptions := SqlOptions(args, Connection(Texts(list.elems), parse));
      var token :- ResolveToken(Get(args, "ssl"), pghost, connectionString);
      var pg := PgArgs(ConnectFlag(args), connectionString, SslOption(token), sqlOptions);
      Ok(Merge(pg, BeginFlag(args), connectionString, script, args))
  }

  /** A list of string `sql-var` entries and a token other than `heroku` always give a record. */
  lemma AcceptedWithoutHeroku(args: map<string, Value>, pghost: Option<string>, parse: string -> Option<Value>)
    requires Tokenized(args)
    requires Get(args, "sql-var").Arr? && AllText(Get(args, "sql-var").elems)
    requires !LooseEqualsText(Get(args, "ssl"), "heroku")
    ensures Options(args, pghost, parse).Ok?
    ensures Get(Options(args, pghost, parse).value, "ssl") == Get(args, "ssl")
  {
  }

  /**
   * `parseOptions` as the code runs it: `let` variables reassigned through
   * the positional swap and the `heroku` branch, the fold and the loop.
   */
  method ParseOptions(args: map<string, Value>, pghost: Option<string>, parse: string -> Option<Value>)
    returns (r: Result<map<string, Value>>)
    requires Tokenized(args)
    ensures r == Options(args, pghost, parse)
  {
    var positional := args["_"].elems;
    var connectionString := if |positional| > 0 then positional[0] else Undefined;
    var script := if |positional| > 1 then positional[1] else Undefined;
    if !Truthy(script) {
      script := connectionString;
      connectionString := Null;
    }

    var x := Default(Get(args, "X"), Bool(false));
    var connect := Default(Get(args, "connect"), Bool(!Truthy(x)));
    var theirSsl := Get(args, "ssl");
    var begin := Default(Get(args, "begin"), Bool(false));
    var rest := args - {"X", "connect", "ssl", "begin"};

    var max := Get(rest, "sql-max");
    var idleTimeout := Get(rest, "sql-idle-timeout");
    var connectTimeout := Get(rest, "sql-connect-timeout");
    var prepare := Get(rest, "sql-prepare");
    var noPrepare := Default(Get(rest, "no_prepare"), Bool(!Truthy(prepare)));
    var vars := Get(rest, "sql-var");
    rest := rest - {"sql-max", "sql-idle-timeout", "sql-connect-timeout", "sql-prepare", "no_prepare", "sql-var"};
    assert (connectionString, script) == SplitPositional(positional);
    assert connect == ConnectFlag(args) && begin == BeginFlag(args) && noPrepare == NoPrepare(args);
    assert max == Get(args, "sql-max") && vars == Get(args, "sql-var");
    assert idleTimeout == Get(args, "sql-idle-timeout") && connectTimeout == Get(args, "sql-connect-timeout");
    assert rest == args - Recognized;

    if !vars.Arr? {
      return Err(SqlVarNotAList);
    }
    var folded := BuildConnection(vars.elems, parse);
    if folded.Err? {
      return Err(folded.error);
    }
    var connection := folded.value;
    var sqlOptions := PutDefined(
      [("max", max), ("idle_timeout", idleTimeout), ("connect_timeout", connectTimeout),
       ("no_prepare", noPrepare), ("connection", Obj(connection))]);
    assert sqlOptions == SqlOptions(args, connection);

    var resolved := ResolveTls(theirSsl, pghost, connectionString);
    if resolved.Err? {
      return Err(resolved.error);
    }
    var ssl := SslOption(resolved.value);
    var pg := PgArgs(connect, connectionString, ssl, sqlOptions);
    r := Ok(map["pg" := pg, "begin" := begin, "connectionString" := connectionString, "script" := script]
              + args + rest);
  }

  /* ---------------- Properties of the whole resolution ---------------- */

  /** The driver arguments built from the flags, for any connection string and `ssl` option. */
  lemma DriverArguments(args: map<string, Value>, connection: map<string, Value>, connectionString: Value, ssl: Value)
    ensures var pg := PgArgs(ConnectFlag(args), connectionString, ssl, SqlOptions(args, connection));
            && (pg == Null <==> !Truthy(ConnectFlag(args)))
            && (Truthy(ConnectFlag(args)) ==>
                  && pg.Arr?
                  && |pg.elems| == (if Truthy(connectionString) then 2 else 1)
                  && (Truthy(connectionString) ==> pg.elems[0] == connectionString)
                  && var last := pg.elems[|pg.elems| - 1];
                     && last.Obj?
                     && last.fields.Keys <= {"ssl"} + PoolKeys
                     && "ssl" in last.fields && last.fields["ssl"] == ssl
                     && "no_prepare" in last.fields && last.fields["no_prepare"] == NoPrepare(args)
                     && "connection" in last.fields && last.fields["connection"] == Obj(connection)
                     && ("max" in last.fields <==> Get(args, "sql-max") != Undefined))
  {
    SqlOptionsKeys(args, connection);
    PgArgsShape(ConnectFlag(args), connectionString, ssl, SqlOptions(args, connection));
  }

  /**
   * When `args` has no `pg` entry of its own: `pg` is null exactly when the
   * run does not connect; otherwise it holds the connection string when that
   * is truthy and always ends in the options object, whose `ssl` is the
   * resolved TLS option and whose pool keys are those of the pool options.
   */
  lemma OptionsDriverArguments(args: map<string, Value>, pghost: Option<string>, parse: string -> Option<Value>)
    requires Tokenized(args)
    requires Options(args, pghost, parse).Ok?
    requires "pg" !in args
    ensures var o := Options(args, pghost, parse).value;
            var connectionString := SplitPositional(args["_"].elems).0;
            && "pg" in o
            && (o["pg"] == Null <==> !Truthy(ConnectFlag(args)))
            && (Truthy(ConnectFlag(args)) ==>
                  && o["pg"].Arr?
                  && |o["pg"].elems| == (if Truthy(connectionString) then 2 else 1)
                  && (Truthy(connectionString) ==> o["pg"].elems[0] == connectionString)
                  && var last := o["pg"].elems[|o["pg"].elems| - 1];
                     && last.Obj?
                     && last.fields.Keys <= {"ssl"} + PoolKeys
                     && "ssl" in last.fields
                     && last.fields["ssl"] == SslOption(ResolveToken(Get(args, "ssl"), pghost, connectionString).value)
                     && "no_prepare" in last.fields && last.fields["no_prepare"] == NoPrepare(args)
                     && "connection" in last.fields && last.fields["connection"].Obj?
                     && ("max" in last.fields <==> Get(args, "sql-max") != Undefined))
  {
    var (connectionString, script) := SplitPositional(args["_"].elems);
    var connection := Connection(Texts(Get(args, "sql-var").elems), parse);
    var sqlOptions := SqlOptions(args, connection);
    var token := ResolveToken(Get(args, "ssl"), pghost, connectionString).value;
    var pg := PgArgs(ConnectFlag(args), connectionString, SslOption(token), sqlOptions);
    assert Options(args, pghost, parse).value == Merge(pg, BeginFlag(args), connectionString, script, args);
    MergeArgumentsWin(pg, BeginFlag(args), connectionString, script, args);
    assert Options(args, pghost, parse).value["pg"] == pg;
    DriverArguments(args, connection, connectionString, SslOption(token));
  }

  /** Every `ssl` value other than the five handled ones reaches the driver unchanged. */
  lemma TlsPassThrough(theirSsl: Value, pghost: Option<string>, connectionString: Value)
    requires !LooseEqualsText(theirSsl, "heroku")
    requires !LooseEqualsText(theirSsl, "no-reject") && !LooseEqualsText(theirSsl, "reject")
    requires theirSsl != Str("disabled") && theirSsl != Bool(false)
    ensures ResolveToken(theirSsl, pghost, connectionString) == Ok(theirSsl)
    ensures SslOption(theirSsl) == theirSsl
  {
  }

  /** `--sql-var a=2 --sql-var b=hello` gives `{ a: 2, b: "hello" }`. */
  lemma SqlVarExample(first: string, second: string, parse: string -> Option<Value>)
    requires first == "a=2" && second == "b=hello"
    requires parse("2") == Some(Num(2.0)) && parse("hello") == None
    ensures Connection([first, second], parse) == map["a" := Num(2.0), "b" := Str("hello")]
  {
    assert first == "a" + "=" + "2" + "";
    assert second == "b" + "=" + "hello" + "";
    EntrySplitsOnFirstEquals("a", "2", "", parse);
    EntrySplitsOnFirstEquals("b", "hello", "", parse);
    ConnectionStep([], first, parse);
    ConnectionStep([first], second, parse);
    assert [] + [first] == [first] && [first] + [second] == [first, second];
  }


  /** The host list of `PGHOST=a,b` for hosts without commas. */
  lemma TwoHosts(a: string, b: string, connectionString: Value)
    requires ',' !in a && ',' !in b
    ensures HerokuHosts(Some(a + "," + b), connectionString) == Ok([a, b])
  {
    assert a + "," + b == a + [','] + b;
    SplitAtFirst(a, ',', b);
    SplitWithoutSep(b, ',');
    assert Split(a + "," + b, ',') == [a] + [b] == [a, b];
  }

  /** `heroku` with `PGHOST=foo.com,bar.com` allows unauthorized certificates. */
  lemma HerokuAllDotCom(pghost: string, connectionString: Value)
    requires pghost == "foo.com,bar.com"
    ensures ResolveToken(Str("heroku"), Some(pghost), connectionString) == Ok(Str("no-reject"))
  {
    assert pghost == "foo.com" + "," + "bar.com";
    TwoHosts("foo.com", "bar.com", connectionString);
    assert EndsWith("foo.com", ".com") && EndsWith("bar.com", ".com");
  }

  /** `heroku` with `PGHOST=foo.com,bar.io` turns TLS off. */
  lemma HerokuNotAllDotCom(pghost: string, connectionString: Value)
    requires pghost == "foo.com,bar.io"
    ensures ResolveToken(Str("heroku"), Some(pghost), connectionString) == Ok(Bool(false))
  {
    assert pghost == "foo.com" + "," + "bar.io";
    TwoHosts("foo.com", "bar.io", connectionString);
    assert "bar.io"[2..][0] == 'r';
    var hosts := ["foo.com", "bar.io"];
    assert !EndsWith(hosts[1], ".com");
    assert HerokuToken(hosts) == Bool(false);
  }
}
