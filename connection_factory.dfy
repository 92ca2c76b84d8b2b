/**
 * A registry of named connections: a configuration per name, and a
 * connection per name that is built on first request and reused after.
 */
module Factories {
  import opened Wrappers
  import opened PhpValues
  import opened Connections

  class ConnectionFactory {
    /** Configuration arrays by connection name. */
    var config: map<string, Config>
    /** Connections built so far, by name. */
    var connections: map<string, Connection>
    ghost var Repr: set<object>

    /**
     * Every stored connection is valid and owned by this factory, and two
     * different connections share no object. Since a cached statement belongs
     * to its connection's driver, no statement sits in two caches either
     * (`CachesApart`), so a query run on one connection leaves the factory and
     * the other connections intact.
     */
    ghost predicate Valid()
      reads this, Repr
    {
      && this in Repr
      && (forall n :: n in connections ==>
           && connections[n] in Repr
           && connections[n].Repr <= Repr
           && this !in connections[n].Repr
           && connections[n].Valid())
      && (forall n, m :: n in connections && m in connections && connections[n] != connections[m] ==>
           connections[n].Repr !! connections[m].Repr)
    }

    /** Stores the name-to-configuration map as given; no connection exists yet. */
    constructor (config: map<string, Config>)
      ensures Valid() && fresh(Repr)
      ensures this.config == config && connections == map[]
    {
      this.config := config;
      connections := map[];
      Repr := {this};
    }

    /** The configuration stored under `name`, or an error naming it when there is none. */
    method GetConfig(name: string) returns (r: Result<Config, ConfigError>)
      ensures r.Ok? <==> name in config
      ensures r.Ok? ==> r.value == config[name]
      ensures r.Err? ==> r.error == NoConfiguration(name)
    {
      if name !in config {
        return Err(NoConfiguration(name));
      }
      return Ok(config[name]);
    }

    /**
     * Replaces the configuration under `name` and returns the factory for
     * chaining. Connections already built are left as they are.
     */
    method SetConfig(name: string, c: Config) returns (self: ConnectionFactory)
      requires Valid()
      modifies this`config
      ensures Valid()
      ensures self == this
      ensures config == old(config)[name := c]
      ensures connections == old(connections)
    {
      config := config[name := c];
      return this;
    }

    /** Records a newly built connection under a name that has none yet. */
    method Store(name: string, c: Connection)
      requires Valid() && name !in connections
      requires c.Valid() && c.Repr !! Repr
      modifies this
      ensures Valid()
      ensures config == old(config) && connections == old(connections)[name := c]
      ensures Repr == old(Repr) + c.Repr
    {
      connections := connections[name := c];
      Repr := Repr + c.Repr;
      forall n | n in connections && n != name
        ensures connections[n] == old(connections[n]) && connections[n].Repr <= old(Repr)
      {
      }
    }

    /**
     * The connection under `name`, built from its configuration on the first
     * request and returned unchanged on every later one. A missing or invalid
     * configuration builds and stores nothing.
     */
    method GetConnection(name: string) returns (r: Result<Connection, ConfigError>)
      requires Valid()
      modifies this
      ensures Valid() && fresh(Repr - old(Repr))
      ensures config == old(config)
      ensures forall n :: n in old(connections) ==> n in connections && connections[n] == old(connections[n])
      ensures r.Ok? ==> name in connections && connections[name] == r.value && r.value.Valid()
      ensures name in old(connections) ==>
        r == Ok(old(connections[name])) && connections == old(connections) && Repr == old(Repr)
      ensures name !in old(connections) && name !in config ==>
        r == Err(NoConfiguration(name)) && connections == old(connections) && Repr == old(Repr)
      ensures name !in old(connections) && name in config && FirstMissing(config[name], RequiredKeys).Some? ==>
        && r == Err(MissingProperty(FirstMissing(config[name], RequiredKeys).value))
        && connections == old(connections) && Repr == old(Repr)
      ensures name !in old(connections) && name in config && FirstMissing(config[name], RequiredKeys).None? ==>
        && r.Ok? && fresh(r.value) && connections == old(connections)[name := r.value]
        && r.value.stmts == map[] && r.value.pdo.prepared == [] && r.value.pdo.dsn == Dsn(MergeDefaults(config[name]))
        && r.value.prefix == Lookup(MergeDefaults(config[name]), "prefix")
        && r.value.pdo.user == Lookup(config[name], "user")
        && r.value.pdo.password == Lookup(config[name], "password")
        && r.value.pdo.raisesErrors && r.value.pdo.fetchesAssociative
    {
      if name !in connections {
        var found := GetConfig(name);
        if found.Err? {
          return Err(found.error);
        }
        var built := Connection.New(found.value);
        if built.Err? {
          return Err(built.error);
        }
        Store(name, built.value);
      }
      r := Ok(connections[name]);
    }
  }

  /**
   * Changing the configuration of a name that is already connected does not
   * change the connection the factory hands out for it.
   */
  method SetConfigAfterConnect(f: ConnectionFactory, name: string, c: Config)
    returns (before: Result<Connection, ConfigError>, after: Result<Connection, ConfigError>)
    requires f.Valid()
    modifies f
    ensures f.Valid()
    ensures before.Ok? ==> after == before
  {
    before := f.GetConnection(name);
    var _ := f.SetConfig(name, c);
    after := f.GetConnection(name);
  }

  /** Two different connections of a valid factory never share a cached statement. */
  lemma CachesApart(f: ConnectionFactory)
    requires f.Valid()
    ensures forall n, m, q, r ::
      n in f.connections && m in f.connections && f.connections[n] != f.connections[m]
      && q in f.connections[n].stmts && r in f.connections[m].stmts ==>
      f.connections[n].stmts[q] != f.connections[m].stmts[r]
  {
    forall n, m, q, r | n in f.connections && m in f.connections && f.connections[n] != f.connections[m]
      && q in f.connections[n].stmts && r in f.connections[m].stmts
      ensures f.connections[n].stmts[q] != f.connections[m].stmts[r]
    {
      var d, e := f.connections[n], f.connections[m];
      assert d.stmts[q].driver == d.pdo && e.stmts[r].driver == e.pdo;
      assert d.pdo in d.Repr && e.pdo in e.Repr;
    }
  }

  /**
   * Running a query on one stored connection keeps the factory valid: the
   * other connections share no object with it.
   */
  method QueryStored(f: ConnectionFactory, name: string, query: string, params: seq<Value>, rows: seq<Value>)
    requires f.Valid() && name in f.connections
    modifies f.connections[name].Repr, f.connections[name].stmts.Values
    ensures f.Valid()
    ensures f.connections == old(f.connections) && f.config == old(f.config) && f.Repr == old(f.Repr)
  {
    var c := f.connections[name];
    var _ := c.Execute(query, params, rows);
    forall n | n in f.connections
      ensures f.connections[n].Valid()
    {
      var d := f.connections[n];
      if d != c {
        assert d.Repr == {d, d.pdo};
      }
    }
  }

  /**
   * A query on one stored connection changes no other stored connection,
   * neither its driver nor any statement in its cache.
   */
  method QueryLeavesOthersAlone(f: ConnectionFactory, name: string, query: string, params: seq<Value>, rows: seq<Value>)
    requires f.Valid() && name in f.connections
    modifies f.connections[name].Repr, f.connections[name].stmts.Values
    ensures f.Valid()
    ensures forall n :: n in f.connections && f.connections[n] != f.connections[name] ==>
      unchanged(f.connections[n].Repr)
    ensures forall n, q :: n in f.connections && f.connections[n] != f.connections[name] && q in f.connections[n].stmts ==>
      unchanged(f.connections[n].stmts[q])
  {
    CachesApart(f);
    QueryStored(f, name, query, params, rows);
  }

  /**
   * Running a query on a connection the factory handed out and asking again
   * for the same name returns the same instance.
   */
  method ReuseAfterQuery(f: ConnectionFactory, name: string, query: string, params: seq<Value>, rows: seq<Value>)
    returns (before: Result<Connection, ConfigError>, after: Result<Connection, ConfigError>)
    requires f.Valid()
    modifies f, f.Repr, if name in f.connections then f.connections[name].stmts.Values else {}
    ensures f.Valid()
    ensures before.Ok? ==> after == before
  {
    before := f.GetConnection(name);
    if before.Ok? {
      QueryStored(f, name, query, params, rows);
    }
    after := f.GetConnection(name);
  }

  /**
   * An unknown name fails; once a valid configuration is set for it, the
   * first request builds a connection and the next returns the same one.
   */
  method ConfigureOnDemand() returns (failedFirst: bool, sameInstance: bool)
    ensures failedFirst && sameInstance
  {
    var f := new ConnectionFactory(map[]);
    var missing := f.GetConnection("missing");
    failedFirst := missing == Err(NoConfiguration("missing"));
    var valid := map["user" := Str("app"), "password" := Str("secret"), "dbname" := Str("shop")];
    assert FirstMissing(valid, RequiredKeys) == None;
    var _ := f.SetConfig("missing", valid);
    var first := f.GetConnection("missing");
    var second := f.GetConnection("missing");
    sameInstance := first.Ok? && second == first;
  }
}
