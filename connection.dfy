/**
 * One database connection: its configuration (required keys, defaults,
 * the DSN handed to the driver), its cache of prepared statements keyed by
 * the raw query text, and the column helper that stops at the first falsy
 * value.
 */
module Connections {
  import opened Wrappers
  import opened PhpValues
  import Pdo

  /** A configuration array: keys such as "user", "host" or "port" to PHP values. */
  type Config = map<string, Value>

  /**
   * The two configuration failures the layer raises. Both are a plain
   * exception in the source, told apart only by their message.
   */
  datatype ConfigError =
    | MissingProperty(property: string)  // a required key is absent or empty
    | NoConfiguration(name: string)      // the factory knows no configuration under this name

  /** The keys every configuration must carry, in the order they are checked. */
  const RequiredKeys: seq<string> := ["user", "password", "dbname"]

  /** Settings the constructor fills in when the caller leaves them out. */
  const Defaults: Config :=
    map["driver" := Str("mysql"), "host" := Str("localhost"), "port" := Int(3306), "prefix" := Str("")]

  // ---------------------------------------------------------------------
  // Validation

  /** The first key of `keys` that is missing from `config` in the sense of `empty()`. */
  function FirstMissing(config: Config, keys: seq<string>): Option<string>
    decreases |keys|
  {
    if keys == [] then None
    else if EmptyAt(config, keys[0]) then Some(keys[0])
    else FirstMissing(config, keys[1..])
  }

  /**
   * FirstMissing fails exactly when some key is empty, and then it reports
   * the earliest such key: every key before it is present and non-empty.
   */
  lemma {:induction false} FirstMissingIsFirstEmpty(config: Config, keys: seq<string>)
    ensures FirstMissing(config, keys).None? <==> forall i :: 0 <= i < |keys| ==> !EmptyAt(config, keys[i])
    ensures FirstMissing(config, keys).Some? ==>
      exists i :: 0 <= i < |keys| && keys[i] == FirstMissing(config, keys).value && EmptyAt(config, keys[i])
        && forall j :: 0 <= j < i ==> !EmptyAt(config, keys[j])
    decreases |keys|
  {
    if keys != [] && !EmptyAt(config, keys[0]) {
      FirstMissingIsFirstEmpty(config, keys[1..]);
      if FirstMissing(config, keys[1..]).Some? {
        var i :| 0 <= i < |keys[1..]| && keys[1..][i] == FirstMissing(config, keys[1..]).value
          && EmptyAt(config, keys[1..][i]) && forall j :: 0 <= j < i ==> !EmptyAt(config, keys[1..][j]);
        assert keys[i + 1] == keys[1..][i];
        assert forall j :: 0 <= j < i + 1 ==> !EmptyAt(config, keys[j]) by {
          forall j | 0 <= j < i + 1 ensures !EmptyAt(config, keys[j]) {
            if j > 0 { assert keys[j] == keys[1..][j - 1]; }
          }
        }
      } else {
        forall i | 0 <= i < |keys| ensures !EmptyAt(config, keys[i]) {
          if i > 0 { assert keys[i] == keys[1..][i - 1]; }
        }
      }
    }
  }

  // ---------------------------------------------------------------------
  // Defaults

  /**
   * `$config += Defaults`: a key the caller supplies keeps the caller's
   * value (even a null one), a default fills only an absent key, and no
   * other key is added or changed.
   */
  function MergeDefaults(config: Config): (merged: Config)
    ensures merged.Keys == config.Keys + Defaults.Keys
    ensures forall k :: k in config ==> merged[k] == config[k]
    ensures forall k :: k in Defaults && k !in config ==> merged[k] == Defaults[k]
  {
    Defaults + config
  }

  /**
   * No required key has a default, so merging the defaults can neither
   * satisfy nor spoil a requirement: validating before the merge, as the
   * constructor does, gives the same verdict as validating after it.
   */
  lemma {:induction false} MergeKeepsValidation(config: Config, keys: seq<string>)
    requires forall i :: 0 <= i < |keys| ==> keys[i] !in Defaults
    ensures FirstMissing(MergeDefaults(config), keys) == FirstMissing(config, keys)
    decreases |keys|
  {
    if keys != [] {
      assert EmptyAt(MergeDefaults(config), keys[0]) == EmptyAt(config, keys[0]);
      MergeKeepsValidation(config, keys[1..]);
    }
  }

  // ---------------------------------------------------------------------
  // DSN

  /** The four settings a DSN carries, each already converted to text. */
  datatype DsnFields = DsnFields(driver: string, host: string, port: string, dbname: string)

  /** The settings of a (merged) configuration as they are interpolated into the DSN. */
  function FieldsOf(config: Config): DsnFields {
    DsnFields(
      Interpolate(Lookup(config, "driver")),
      Interpolate(Lookup(config, "host")),
      Interpolate(Lookup(config, "port")),
      Interpolate(Lookup(config, "dbname")))
  }

  function DsnText(f: DsnFields): string {
    f.driver + ":host=" + f.host + ";port=" + f.port + ";dbname=" + f.dbname
  }

  /** The data source name built from a configuration: `driver:host=H;port=P;dbname=D`. */
  function Dsn(config: Config): string {
    DsnText(FieldsOf(config))
  }

  /** Splits `s` at the first occurrence of `c`, dropping that occurrence. */
  function SplitAtFirst(s: string, c: char): Option<(string, string)>
  {
    if s == [] then None
    else if s[0] == c then Some(([], s[1..]))
    else match SplitAtFirst(s[1..], c)
      case None => None
      case Some(parts) => Some(([s[0]] + parts.0, parts.1))
  }

  /** `s` without the leading `prefix`, if it starts with it. */
  function After(prefix: string, s: string): Option<string> {
    if prefix <= s then Some(s[|prefix|..]) else None
  }

  /**
   * One unambiguous reading of a DSN: the driver up to the first ':', then
   * host and port each up to the next ';', and the whole remainder as dbname.
   */
  function ParseDsn(dsn: string): Option<DsnFields> {
    var driverRest :- SplitAtFirst(dsn, ':');
    var hostPart :- After("host=", driverRest.1);
    var hostRest :- SplitAtFirst(hostPart, ';');
    var portPart :- After("port=", hostRest.1);
    var portRest :- SplitAtFirst(portPart, ';');
    var dbname :- After("dbname=", portRest.1);
    Some(DsnFields(driverRest.0, hostRest.0, portRest.0, dbname))
  }

  lemma {:induction false} SplitAtFirstOf(a: string, c: char, b: string)
    requires c !in a
    ensures SplitAtFirst(a + [c] + b, c) == Some((a, b))
    decreases |a|
  {
    if a == [] {
      assert a + [c] + b == [c] + b;
    } else {
      assert (a + [c] + b)[1..] == a[1..] + [c] + b;
      SplitAtFirstOf(a[1..], c, b);
      assert [a[0]] + a[1..] == a;
    }
  }

  /**
   * The DSN is unambiguous: as long as the driver name holds no ':' and the
   * host and port hold no ';', a driver reading it back recovers exactly the
   * four settings it was built from.
   */
  lemma DsnRoundTrip(f: DsnFields)
    requires ':' !in f.driver && ';' !in f.host && ';' !in f.port
    ensures ParseDsn(DsnText(f)) == Some(f)
  {
    var tail3 := "dbname=" + f.dbname;
    var rest2 := f.port + [';'] + tail3;
    var tail2 := "port=" + rest2;
    var rest1 := f.host + [';'] + tail2;
    var tail1 := "host=" + rest1;
    assert DsnText(f) == f.driver + [':'] + tail1;
    SplitAtFirstOf(f.driver, ':', tail1);
    assert "host=" <= tail1 && tail1[|"host="|..] == rest1;
    SplitAtFirstOf(f.host, ';', tail2);
    assert "port=" <= tail2 && tail2[|"port="|..] == rest2;
    SplitAtFirstOf(f.port, ';', tail3);
    assert "dbname=" <= tail3 && tail3[|"dbname="|..] == f.dbname;
  }

  /** An integer port never holds a ';', so it cannot break the DSN apart. */
  lemma IntPortFitsDsn(port: int)
    ensures ';' !in IntToString(port) && ':' !in IntToString(port)
  {
    var s := IntToString(port);
    forall k | 0 <= k < |s| ensures s[k] != ';' && s[k] != ':' {
      assert IsDigit(s[k]) || s[k] == '-';
    }
  }

  lemma DefaultPortText()
    ensures IntToString(3306) == "3306"
  {
    assert NatToString(3306) == NatToString(330) + ['6'];
    assert NatToString(330) == NatToString(33) + ['0'];
    assert NatToString(33) == NatToString(3) + ['3'];
  }

  /** A configuration that leaves driver, host and port unset connects to MySQL on localhost:3306. */
  lemma DefaultDsn(config: Config)
    requires "driver" !in config && "host" !in config && "port" !in config
    ensures FieldsOf(MergeDefaults(config)) == DsnFields("mysql", "localhost", "3306", Interpolate(Lookup(config, "dbname")))
  {
    var merged := MergeDefaults(config);
    assert Lookup(merged, "driver") == Str("mysql");
    assert Lookup(merged, "host") == Str("localhost");
    assert Lookup(merged, "port") == Int(3306);
    assert Lookup(merged, "dbname") == Lookup(config, "dbname");
    DefaultPortText();
  }

  // ---------------------------------------------------------------------
  // Column truncation

  /** The longest prefix of `values` whose elements are all truthy. */
  function TruthyPrefix(values: seq<Value>): seq<Value> {
    if values == [] || !Truthy(values[0]) then [] else [values[0]] + TruthyPrefix(values[1..])
  }

  /**
   * TruthyPrefix is a prefix of its input, holds only truthy values, and
   * ends either at the end of the input or just before its first falsy value.
   */
  lemma {:induction false} TruthyPrefixIsLongest(values: seq<Value>)
    ensures var p := TruthyPrefix(values);
      |p| <= |values| && p == values[..|p|]
      && (forall i :: 0 <= i < |p| ==> Truthy(p[i]))
      && (|p| == |values| || !Truthy(values[|p|]))
  {
    if values != [] && Truthy(values[0]) {
      TruthyPrefixIsLongest(values[1..]);
    }
  }

  /** Conversely, any prefix with those three properties is TruthyPrefix. */
  lemma {:induction false} TruthyPrefixUnique(values: seq<Value>, p: seq<Value>)
    requires |p| <= |values| && p == values[..|p|]
    requires forall i :: 0 <= i < |p| ==> Truthy(p[i])
    requires |p| == |values| || !Truthy(values[|p|])
    ensures p == TruthyPrefix(values)
  {
    if p != [] {
      assert Truthy(values[0]) by { assert values[0] == p[0]; }
      TruthyPrefixUnique(values[1..], p[1..]);
    }
  }

  // ---------------------------------------------------------------------
  // The connection object

  /** No text occurs twice. */
  ghost predicate Distinct(s: seq<string>) {
    forall i, j :: 0 <= i < j < |s| ==> s[i] != s[j]
  }

  function ElementSet(s: seq<string>): set<string> {
    set x | x in s
  }

  lemma {:induction false} DistinctCardinality(s: seq<string>)
    requires Distinct(s)
    ensures |ElementSet(s)| == |s|
  {
    if s != [] {
      var init := s[..|s| - 1];
      assert Distinct(init);
      DistinctCardinality(init);
      assert ElementSet(s) == ElementSet(init) + {s[|s| - 1]};
      assert s[|s| - 1] !in ElementSet(init);
    }
  }

  class Connection {
    /** The driver handle, opened by the constructor. */
    var pdo: Pdo.Driver
    /** The table prefix from the configuration; stored, never read by any operation. */
    var prefix: Value
    /** Prepared statements keyed by the exact query text they were prepared from. */
    var stmts: map<string, Pdo.Statement>
    ghost var Repr: set<object>

    /**
     * Every cached statement was prepared from its own key, and the driver
     * was asked to prepare each cached text exactly once and nothing else.
     */
    ghost predicate Valid()
      reads this, Repr
    {
      && Repr == {this, pdo}
      && (forall q :: q in stmts ==> stmts[q].query == q && stmts[q].driver == pdo)
      && Distinct(pdo.prepared)
      && (forall q :: q in stmts <==> q in pdo.prepared)
    }

    /** The part of construction after validation: merge defaults, open the driver, keep the prefix. */
    constructor (config: Config)
      requires FirstMissing(config, RequiredKeys) == None
      ensures Valid() && fresh(Repr)
      ensures stmts == map[] && pdo.prepared == []
      ensures prefix == Lookup(MergeDefaults(config), "prefix")
      ensures pdo.dsn == Dsn(MergeDefaults(config))
      ensures pdo.user == Lookup(config, "user") && pdo.password == Lookup(config, "password")
      ensures pdo.raisesErrors && pdo.fetchesAssociative
    {
      var merged := MergeDefaults(config);
      pdo := new Pdo.Driver(Dsn(merged), Lookup(merged, "user"), Lookup(merged, "password"), true, true);
      prefix := Lookup(merged, "prefix");
      stmts := map[];
      Repr := {this, pdo};
    }

    /** Checks the required keys in order and reports the first one that is missing or empty. */
    static method VerifyConfig(config: Config) returns (err: Option<ConfigError>)
      ensures err.None? <==> FirstMissing(config, RequiredKeys).None?
      ensures err.Some? ==> err.value == MissingProperty(FirstMissing(config, RequiredKeys).value)
    {
      for i := 0 to |RequiredKeys|
        invariant FirstMissing(config, RequiredKeys) == FirstMissing(config, RequiredKeys[i..])
      {
        var property := RequiredKeys[i];
        if EmptyAt(config, property) {
          return Some(MissingProperty(property));
        }
        assert RequiredKeys[i..][1..] == RequiredKeys[i + 1..];
      }
      return None;
    }

    /** `new Connection($config)`: validation first, then construction; a failed validation builds nothing. */
    static method New(config: Config) returns (r: Result<Connection, ConfigError>)
      ensures r.Err? <==> FirstMissing(config, RequiredKeys).Some?
      ensures r.Err? ==> r.error == MissingProperty(FirstMissing(config, RequiredKeys).value)
      ensures r.Ok? ==> && fresh(r.value.Repr) && r.value.Valid()
                        && r.value.stmts == map[] && r.value.pdo.prepared == []
                        && r.value.prefix == Lookup(MergeDefaults(config), "prefix")
                        && r.value.pdo.dsn == Dsn(MergeDefaults(config))
                        && r.value.pdo.user == Lookup(config, "user")
                        && r.value.pdo.password == Lookup(config, "password")
                        && r.value.pdo.raisesErrors && r.value.pdo.fetchesAssociative
    {
      var err := VerifyConfig(config);
      if err.Some? {
        return Err(err.value);
      }
      var c := new Connection(config);
      return Ok(c);
    }

    /**
     * Returns the cached statement for `query`, asking the driver to
     * prepare it only when the exact text is not cached yet. The cache only
     * grows: an existing entry is never replaced.
     */
    method Prepare(query: string) returns (s: Pdo.Statement)
      requires Valid()
      modifies this, pdo
      ensures Valid() && Repr == old(Repr)
      ensures pdo == old(pdo) && prefix == old(prefix)
      ensures query in stmts && s == stmts[query] && s.query == query
      ensures old(query in stmts) ==>
        s == old(stmts[query]) && stmts == old(stmts) && pdo.prepared == old(pdo.prepared)
      ensures old(query !in stmts) ==>
        && fresh(s) && s.executions == [] && s.pending == []
        && stmts == old(stmts)[query := s] && pdo.prepared == old(pdo.prepared) + [query]
    {
      if query !in stmts {
        var prepared := pdo.Prepare(query);
        stmts := stmts[query := prepared];
      }
      s := stmts[query];
    }

    /** Prepares (or reuses) the statement for `query` and runs it with `params`. */
    method Execute(query: string, params: seq<Value>, rows: seq<Value>) returns (s: Pdo.Statement)
      requires Valid()
      modifies this, pdo, stmts.Values
      ensures Valid() && Repr == old(Repr)
      ensures pdo == old(pdo) && prefix == old(prefix)
      ensures query in stmts && s == stmts[query] && s.query == query
      ensures old(query in stmts) ==>
        && s == old(stmts[query]) && stmts == old(stmts) && pdo.prepared == old(pdo.prepared)
        && s.executions == old(stmts[query].executions) + [params]
      ensures old(query !in stmts) ==>
        && fresh(s) && s.executions == [params]
        && stmts == old(stmts)[query := s] && pdo.prepared == old(pdo.prepared) + [query]
      ensures s.pending == rows
      ensures forall q :: q in old(stmts) && q != query ==> stmts[q] == old(stmts[q]) && unchanged(stmts[q])
    {
      s := Prepare(query);
      s.Execute(params, rows);
    }

    /**
     * Runs `query` and collects the first column of each row until a fetched
     * value is falsy; the rows after that value stay unfetched.
     */
    method GetCol(query: string, params: seq<Value>, rows: seq<Value>) returns (col: seq<Value>)
      requires Valid()
      modifies this, pdo, stmts.Values
      ensures Valid() && Repr == old(Repr)
      ensures pdo == old(pdo) && prefix == old(prefix)
      ensures col == TruthyPrefix(rows)
      ensures query in stmts && stmts[query].query == query
      ensures old(query in stmts) ==>
        && stmts == old(stmts) && pdo.prepared == old(pdo.prepared)
        && stmts[query].executions == old(stmts[query].executions) + [params]
      ensures old(query !in stmts) ==>
        && fresh(stmts[query]) && stmts == old(stmts)[query := stmts[query]]
        && pdo.prepared == old(pdo.prepared) + [query]
        && stmts[query].executions == [params]
      ensures forall q :: q in old(stmts) && q != query ==> stmts[q] == old(stmts[q]) && unchanged(stmts[q])
      ensures |col| < |rows| ==> stmts[query].pending == rows[|col| + 1..]
      ensures |col| == |rows| ==> stmts[query].pending == []
    {
      var s: Pdo.Statement := Execute(query, params, rows);
      col := [];
      var v := s.FetchColumn();
      while Truthy(v)
        invariant |col| <= |rows| && col == rows[..|col|]
        invariant forall i :: 0 <= i < |col| ==> Truthy(col[i])
        invariant |col| < |rows| ==> v == rows[|col|] && s.pending == rows[|col| + 1..]
        invariant |col| == |rows| ==> v == Bool(false) && s.pending == []
        modifies s`pending
        decreases |rows| - |col|
      {
        col := col + [v];
        v := s.FetchColumn();
      }
      TruthyPrefixUnique(rows, col);
    }
  }

  /** Each driver prepare call corresponds to one cached text, so the call count equals the cache size. */
  lemma PrepareCallsMatchCache(c: Connection)
    requires c.Valid()
    ensures |c.pdo.prepared| == |c.stmts|
  {
    DistinctCardinality(c.pdo.prepared);
    assert c.stmts.Keys == ElementSet(c.pdo.prepared);
  }

  /**
   * Two executions of the same text share one statement object and cost at
   * most one driver prepare call between them.
   */
  method ExecuteTwice(c: Connection, query: string, p1: seq<Value>, r1: seq<Value>, p2: seq<Value>, r2: seq<Value>)
    returns (first: Pdo.Statement, second: Pdo.Statement)
    requires c.Valid()
    modifies c, c.pdo, c.stmts.Values
    ensures c.Valid()
    ensures first == second && |second.executions| >= 2
    ensures second.executions[|second.executions| - 2..] == [p1, p2]
    ensures |c.pdo.prepared| <= |old(c.pdo.prepared)| + 1
  {
    first := c.Execute(query, p1, r1);
    second := c.Execute(query, p2, r2);
  }

  /** A column [1, 0, 3] comes back as [1]: the falsy 0 ends the collection although a row remains. */
  method LegacyTruncation() returns (col: seq<Value>)
    ensures col == [Int(1)]
  {
    var config := map["user" := Str("app"), "password" := Str("secret"), "dbname" := Str("shop")];
    var r := Connection.New(config);
    assert FirstMissing(config, RequiredKeys) == None;
    var c := r.value;
    col := c.GetCol("SELECT id FROM users", [], [Int(1), Int(0), Int(3)]);
  }
}
