/** db/config.go: the database configuration, built once and then pointed
    at the host and port a container maps. */
module DbConfig {

  class DbConf {
    var username: string
    var password: string
    var database: string
    var host: string
    var port: int

    /** `NewDbConf`: its parameters come in the order username, password,
        host, port, database, unlike the fields. */
    constructor (username: string, password: string, host: string, port: int, database: string)
      ensures this.username == username && this.password == password && this.database == database
      ensures this.host == host && this.port == port
    {
      this.username := username;
      this.password := password;
      this.host := host;
      this.port := port;
      this.database := database;
    }

    /** `UpdateHostAndPort`: the mapped host and port replace the old
        ones, the credentials and the database stay, and the receiver
        itself is returned for chaining. */
    method UpdateHostAndPort(mappedHost: string, mappedPort: int) returns (c: DbConf)
      modifies this
      ensures c == this
      ensures host == mappedHost && port == mappedPort
      ensures username == old(username) && password == old(password) && database == old(database)
    {
      host := mappedHost;
      port := mappedPort;
      c := this;
    }
  }

  /** Mapping twice keeps only the second host and port: a configuration
      built and mapped twice equals one built with the second mapping. */
  method MapTwice(username: string, password: string, host: string, port: int, database: string,
                  host1: string, port1: int, host2: string, port2: int) returns (c: DbConf)
    ensures fresh(c)
    ensures c.username == username && c.password == password && c.database == database
    ensures c.host == host2 && c.port == port2
  {
    c := new DbConf(username, password, host, port, database);
    var d := c.UpdateHostAndPort(host1, port1);
    d := d.UpdateHostAndPort(host2, port2);
  }
}
