/**
 * Connection settings (src-tauri/src/models/connection.rs): the database kind
 * with its default port, the SSH and SSL options, and the serde JSON shape of
 * a connection, which leaves the password out.
 */
module Connection {
  import opened Wrappers
  import opened Ints
  import opened Json

  datatype DbType = MySQL | PostgreSQL | MariaDB

  /** MariaDB speaks the MySQL protocol and shares its port. */
  function DefaultPort(t: DbType): (p: u16)
    ensures p == 3306 <==> t == MySQL || t == MariaDB
    ensures p == 5432 <==> t == PostgreSQL
  {
    match t
    case MySQL => 3306
    case MariaDB => 3306
    case PostgreSQL => 5432
  }

  /** The serialised name: `rename_all = "lowercase"` applied to the variant name. */
  function DbTypeName(t: DbType): (r: string)
    ensures DbTypeFromName(r) == Some(t)
  {
    match t
    case MySQL => "mysql"
    case PostgreSQL => "postgresql"
    case MariaDB => "mariadb"
  }

  /** Strict serde decoding: an unknown name is an error. */
  function DbTypeFromName(s: string): Option<DbType>
  {
    match s
    case "mysql" => Some(MySQL)
    case "postgresql" => Some(PostgreSQL)
    case "mariadb" => Some(MariaDB)
    case _ => None
  }

  /** Decoding accepts exactly the three names and inverts `DbTypeName`. */
  lemma DbTypeNameRoundTrip(t: DbType, s: string)
    ensures DbTypeFromName(DbTypeName(t)) == Some(t)
    ensures DbTypeFromName(s) == Some(t) <==> s == DbTypeName(t)
  {
  }

  datatype SshAuthMethod =
    | Password(password: string)
    | PrivateKey(private_key_path: string, passphrase: Option<string>)

  /** The serde tag of a variant, which the connection store also writes. */
  function AuthTag(m: SshAuthMethod): (tag: string)
    ensures tag == "password" <==> m.Password?
    ensures tag == "privatekey" <==> m.PrivateKey?
  {
    match m
    case Password(_) => "password"
    case PrivateKey(_, _) => "privatekey"
  }

  datatype SshConfig = SshConfig(enabled: bool, host: string, port: u16, username: string, auth_method: SshAuthMethod)

  datatype SslConfig = SslConfig(
    enabled: bool,
    ca_cert_path: Option<string>,
    client_cert_path: Option<string>,
    client_key_path: Option<string>,
    verify_server: bool)

  datatype Connection = Connection(
    id: string,
    name: string,
    db_type: DbType,
    host: string,
    port: u16,
    username: string,
    password: string,
    database: string,
    ssh_config: Option<SshConfig>,
    ssl_config: Option<SslConfig>,
    created_at: string,
    updated_at: string)

  // ---------------------------------------------------------------------------
  // serde JSON shape
  // ---------------------------------------------------------------------------

  function ReadU16(j: Option<Json>): Option<u16>
  {
    if j.Some? && j.value.JNum? && 0 <= j.value.n < 0x1_0000 then Some(j.value.n) else None
  }

  /** An externally tagged enum: one member named by the variant tag. */
  function AuthToJson(m: SshAuthMethod): Json
  {
    match m
    case Password(p) => JObj([("password", JObj([("password", JStr(p))]))])
    case PrivateKey(path, phrase) =>
      JObj([("privatekey", JObj([("private_key_path", JStr(path)), ("passphrase", OptStr(phrase))]))])
  }

  function AuthFromJson(j: Json): Option<SshAuthMethod>
  {
    if !j.JObj? || |j.fields| != 1 then None
    else
      var (tag, body) := j.fields[0];
      if tag == "password" then
        var p :- ReadString(Field(body, "password"));
        Some(Password(p))
      else if tag == "privatekey" then
        var path :- ReadString(Field(body, "private_key_path"));
        var phrase :- ReadOptString(Field(body, "passphrase"));
        Some(PrivateKey(path, phrase))
      else None
  }

  lemma AuthRoundTrip(m: SshAuthMethod)
    ensures AuthFromJson(AuthToJson(m)) == Some(m)
  {
    if m.PrivateKey? {
      var body := JObj([("private_key_path", JStr(m.private_key_path)), ("passphrase", OptStr(m.passphrase))]);
      LookupDistinct(body.fields, 1);
      ReadOptStringOptStr(m.passphrase);
    }
  }

  function SshToJson(s: SshConfig): Json
  {
    JObj([
      ("enabled", JBool(s.enabled)),
      ("host", JStr(s.host)),
      ("port", JNum(s.port)),
      ("username", JStr(s.username)),
      ("auth_method", AuthToJson(s.auth_method))])
  }

  function SshFromJson(j: Json): Option<SshConfig>
  {
    var enabled :- ReadBool(Field(j, "enabled"));
    var host :- ReadString(Field(j, "host"));
    var port :- ReadU16(Field(j, "port"));
    var username :- ReadString(Field(j, "username"));
    var auth :- Field(j, "auth_method");
    var authMethod :- AuthFromJson(auth);
    Some(SshConfig(enabled, host, port, username, authMethod))
  }

  lemma SshRoundTrip(s: SshConfig)
    ensures SshFromJson(SshToJson(s)) == Some(s)
  {
    var j := SshToJson(s);
    LookupDistinct(j.fields, 0);
    LookupDistinct(j.fields, 1);
    LookupDistinct(j.fields, 2);
    LookupDistinct(j.fields, 3);
    LookupDistinct(j.fields, 4);
    AuthRoundTrip(s.auth_method);
  }

  function SslToJson(s: SslConfig): Json
  {
    JObj([
      ("enabled", JBool(s.enabled)),
      ("ca_cert_path", OptStr(s.ca_cert_path)),
      ("client_cert_path", OptStr(s.client_cert_path)),
      ("client_key_path", OptStr(s.client_key_path)),
      ("verify_server", JBool(s.verify_server))])
  }

  function SslFromJson(j: Json): Option<SslConfig>
  {
    var enabled :- ReadBool(Field(j, "enabled"));
    var ca :- ReadOptString(Field(j, "ca_cert_path"));
    var cert :- ReadOptString(Field(j, "client_cert_path"));
    var key :- ReadOptString(Field(j, "client_key_path"));
    var verify :- ReadBool(Field(j, "verify_server"));
    Some(SslConfig(enabled, ca, cert, key, verify))
  }

  lemma SslRoundTrip(s: SslConfig)
    ensures SslFromJson(SslToJson(s)) == Some(s)
  {
    var j := SslToJson(s);
    LookupDistinct(j.fields, 0);
    LookupDistinct(j.fields, 1);
    LookupDistinct(j.fields, 2);
    LookupDistinct(j.fields, 3);
    LookupDistinct(j.fields, 4);
    ReadOptStringOptStr(s.ca_cert_path);
    ReadOptStringOptStr(s.client_cert_path);
    ReadOptStringOptStr(s.client_key_path);
  }

  function OptSshToJson(o: Option<SshConfig>): Json
  {
    match o
    case None => JNull
    case Some(s) => SshToJson(s)
  }

  function OptSslToJson(o: Option<SslConfig>): Json
  {
    match o
    case None => JNull
    case Some(s) => SslToJson(s)
  }

  /** An `Option` field: a missing member or `null` is `None`. */
  function ReadOptSsh(j: Option<Json>): Option<Option<SshConfig>>
  {
    match j
    case None => Some(None)
    case Some(JNull) => Some(None)
    case Some(v) => var s :- SshFromJson(v); Some(Some(s))
  }

  function ReadOptSsl(j: Option<Json>): Option<Option<SslConfig>>
  {
    match j
    case None => Some(None)
    case Some(JNull) => Some(None)
    case Some(v) => var s :- SslFromJson(v); Some(Some(s))
  }

  /** The serialised connection: every field except the password (`skip_serializing`). */
  function ConnectionToJson(c: Connection): (j: Json)
    ensures j.JObj? && "password" !in Keys(j)
  {
    var j := JObj([
      ("id", JStr(c.id)),
      ("name", JStr(c.name)),
      ("db_type", JStr(DbTypeName(c.db_type))),
      ("host", JStr(c.host)),
      ("port", JNum(c.port)),
      ("username", JStr(c.username)),
      ("database", JStr(c.database)),
      ("ssh_config", OptSshToJson(c.ssh_config)),
      ("ssl_config", OptSslToJson(c.ssl_config)),
      ("created_at", JStr(c.created_at)),
      ("updated_at", JStr(c.updated_at))]);
    assert forall i :: 0 <= i < |j.fields| ==> j.fields[i].0 != "password";
    j
  }

  /** Deserialisation still demands a password member: it is skipped only when serialising. */
  function ConnectionFromJson(j: Json): Option<Connection>
  {
    var id :- ReadString(Field(j, "id"));
    var name :- ReadString(Field(j, "name"));
    var kindName :- ReadString(Field(j, "db_type"));
    var kind :- DbTypeFromName(kindName);
    var host :- ReadString(Field(j, "host"));
    var port :- ReadU16(Field(j, "port"));
    var username :- ReadString(Field(j, "username"));
    var password :- ReadString(Field(j, "password"));
    var database :- ReadString(Field(j, "database"));
    var ssh :- ReadOptSsh(Field(j, "ssh_config"));
    var ssl :- ReadOptSsl(Field(j, "ssl_config"));
    var created :- ReadString(Field(j, "created_at"));
    var updated :- ReadString(Field(j, "updated_at"));
    Some(Connection(id, name, kind, host, port, username, password, database, ssh, ssl, created, updated))
  }

  /** The serialised form does not depend on the password. */
  lemma PasswordNeverSerialised(c: Connection, other: string)
    ensures ConnectionToJson(c) == ConnectionToJson(c.(password := other))
    ensures "password" !in Keys(ConnectionToJson(c))
  {
  }

  /** Because the password is skipped, a serialised connection cannot be read back as it is. */
  lemma SerialisedConnectionLacksPassword(c: Connection)
    ensures ConnectionFromJson(ConnectionToJson(c)) == None
  {
    var j := ConnectionToJson(c);
    LookupAbsent(j.fields, "password");
    SerialisedNamesDistinct(c);
    assert j.fields[..11] == j.fields;
    ConnectionFieldsRead(c, j.fields);
  }

  /** With the password member added back, everything else reads back unchanged. */
  lemma ConnectionRoundTripWithPassword(c: Connection)
    ensures ConnectionFromJson(JObj(ConnectionToJson(c).fields + [("password", JStr(c.password))])) == Some(c)
  {
    var fields := ConnectionToJson(c).fields + [("password", JStr(c.password))];
    SerialisedNamesDistinct(c);
    DistinctSnoc(ConnectionToJson(c).fields, ("password", JStr(c.password)));
    LookupDistinct(fields, 11);
    ConnectionFieldsRead(c, fields);
  }

  /** The members of a serialised connection have distinct names. */
  lemma SerialisedNamesDistinct(c: Connection)
    ensures forall i, k :: 0 <= i < k < |ConnectionToJson(c).fields| ==> ConnectionToJson(c).fields[i].0 != ConnectionToJson(c).fields[k].0
  {
  }

  /** Appending a member whose name is new keeps the names distinct. */
  lemma DistinctSnoc(fields: seq<(string, Json)>, extra: (string, Json))
    requires forall i, k :: 0 <= i < k < |fields| ==> fields[i].0 != fields[k].0
    requires forall i :: 0 <= i < |fields| ==> fields[i].0 != extra.0
    ensures forall i, k :: 0 <= i < k < |fields + [extra]| ==> (fields + [extra])[i].0 != (fields + [extra])[k].0
  {
  }

  /** The members other than the password read back from any object that starts with the serialised members. */
  lemma ConnectionFieldsRead(c: Connection, fields: seq<(string, Json)>)
    requires |fields| >= 11 && fields[..11] == ConnectionToJson(c).fields
    requires forall i, k :: 0 <= i < k < |fields| ==> fields[i].0 != fields[k].0
    ensures var j := JObj(fields);
      && ReadString(Field(j, "id")) == Some(c.id)
      && ReadString(Field(j, "name")) == Some(c.name)
      && ReadString(Field(j, "db_type")) == Some(DbTypeName(c.db_type))
      && ReadString(Field(j, "host")) == Some(c.host)
      && ReadU16(Field(j, "port")) == Some(c.port)
      && ReadString(Field(j, "username")) == Some(c.username)
      && ReadString(Field(j, "database")) == Some(c.database)
      && ReadOptSsh(Field(j, "ssh_config")) == Some(c.ssh_config)
      && ReadOptSsl(Field(j, "ssl_config")) == Some(c.ssl_config)
      && ReadString(Field(j, "created_at")) == Some(c.created_at)
      && ReadString(Field(j, "updated_at")) == Some(c.updated_at)
  {
    ConnectionScalarsRead(c, fields);
    ConnectionOptionsRead(c, fields);
  }

  lemma ConnectionScalarsRead(c: Connection, fields: seq<(string, Json)>)
    requires |fields| >= 11 && fields[..11] == ConnectionToJson(c).fields
    requires forall i, k :: 0 <= i < k < |fields| ==> fields[i].0 != fields[k].0
    ensures var j := JObj(fields);
      && Field(j, "id") == Some(JStr(c.id))
      && Field(j, "name") == Some(JStr(c.name))
      && Field(j, "db_type") == Some(JStr(DbTypeName(c.db_type)))
      && Field(j, "host") == Some(JStr(c.host))
      && Field(j, "port") == Some(JNum(c.port))
      && Field(j, "username") == Some(JStr(c.username))
      && Field(j, "database") == Some(JStr(c.database))
      && Field(j, "created_at") == Some(JStr(c.created_at))
      && Field(j, "updated_at") == Some(JStr(c.updated_at))
  {
    ConnectionHeadRead(c, fields);
    ConnectionTailRead(c, fields);
  }

  lemma ConnectionHeadRead(c: Connection, fields: seq<(string, Json)>)
    requires |fields| >= 11 && fields[..11] == ConnectionToJson(c).fields
    requires forall i, k :: 0 <= i < k < |fields| ==> fields[i].0 != fields[k].0
    ensures Field(JObj(fields), "id") == Some(JStr(c.id))
    ensures Field(JObj(fields), "name") == Some(JStr(c.name))
    ensures Field(JObj(fields), "db_type") == Some(JStr(DbTypeName(c.db_type)))
    ensures Field(JObj(fields), "host") == Some(JStr(c.host))
    ensures Field(JObj(fields), "port") == Some(JNum(c.port))
  {
    assert fields[0] == ("id", JStr(c.id));
    FieldAt(fields, 0, "id", JStr(c.id));
    assert fields[1] == ("name", JStr(c.name));
    FieldAt(fields, 1, "name", JStr(c.name));
    assert fields[2] == ("db_type", JStr(DbTypeName(c.db_type)));
    FieldAt(fields, 2, "db_type", JStr(DbTypeName(c.db_type)));
    assert fields[3] == ("host", JStr(c.host));
    FieldAt(fields, 3, "host", JStr(c.host));
    assert fields[4] == ("port", JNum(c.port));
    FieldAt(fields, 4, "port", JNum(c.port));
  }

  lemma ConnectionTailRead(c: Connection, fields: seq<(string, Json)>)
    requires |fields| >= 11 && fields[..11] == ConnectionToJson(c).fields
    requires forall i, k :: 0 <= i < k < |fields| ==> fields[i].0 != fields[k].0
    ensures Field(JObj(fields), "username") == Some(JStr(c.username))
    ensures Field(JObj(fields), "database") == Some(JStr(c.database))
    ensures Field(JObj(fields), "created_at") == Some(JStr(c.created_at))
    ensures Field(JObj(fields), "updated_at") == Some(JStr(c.updated_at))
  {
    assert fields[5] == ("username", JStr(c.username));
    FieldAt(fields, 5, "username", JStr(c.username));
    assert fields[6] == ("database", JStr(c.database));
    FieldAt(fields, 6, "database", JStr(c.database));
    assert fields[9] == ("created_at", JStr(c.created_at));
    FieldAt(fields, 9, "created_at", JStr(c.created_at));
    assert fields[10] == ("updated_at", JStr(c.updated_at));
    FieldAt(fields, 10, "updated_at", JStr(c.updated_at));
  }

  lemma ConnectionOptionsRead(c: Connection, fields: seq<(string, Json)>)
    requires |fields| >= 11 && fields[..11] == ConnectionToJson(c).fields
    requires forall i, k :: 0 <= i < k < |fields| ==> fields[i].0 != fields[k].0
    ensures ReadOptSsh(Field(JObj(fields), "ssh_config")) == Some(c.ssh_config)
    ensures ReadOptSsl(Field(JObj(fields), "ssl_config")) == Some(c.ssl_config)
  {
    assert fields[7] == ("ssh_config", OptSshToJson(c.ssh_config));
    FieldAt(fields, 7, "ssh_config", OptSshToJson(c.ssh_config));
    assert fields[8] == ("ssl_config", OptSslToJson(c.ssl_config));
    FieldAt(fields, 8, "ssl_config", OptSslToJson(c.ssl_config));
    if c.ssh_config.Some? {
      SshRoundTrip(c.ssh_config.value);
    }
    if c.ssl_config.Some? {
      SslRoundTrip(c.ssl_config.value);
    }
  }

  lemma FieldAt(fields: seq<(string, Json)>, k: nat, key: string, v: Json)
    requires k < |fields| && fields[k] == (key, v)
    requires forall i, m :: 0 <= i < m < |fields| ==> fields[i].0 != fields[m].0
    ensures Field(JObj(fields), key) == Some(v)
  {
    LookupDistinct(fields, k);
  }
}
