/**
 * The pure parts of the connection store (src-tauri/src/storage/config.rs):
 * how `save_connection` encodes a connection into one row of the
 * `connections` table plus keyring entries, and how `into_connection`
 * decodes a row back. The SQLite queries are not modelled; the keyring is a
 * map from entry name to secret, and reading an absent entry fails.
 */
module ConfigStore {
  import opened Wrappers
  import opened Ints
  import opened Connection

  /** What the user submits: a connection without id or timestamps. */
  datatype ConnectionInput = ConnectionInput(
    name: string,
    db_type: DbType,
    host: string,
    port: u16,
    username: string,
    password: string,
    database: string,
    ssh_config: Option<SshConfig>,
    ssl_config: Option<SslConfig>)

  /** One row of the `connections` table, with SQLite integers read as `i32`. */
  datatype ConnectionRow = ConnectionRow(
    id: string,
    name: string,
    db_type: string,
    host: string,
    port: i32,
    username: string,
    database_name: string,
    ssh: SshColumns,
    ssl: SslColumns,
    created_at: string,
    updated_at: string)

  /** The six SSH columns: enabled flag, host, port, username, auth tag and key path. */
  datatype SshColumns = SshColumns(
    enabled: i32,
    host: Option<string>,
    port: Option<i32>,
    username: Option<string>,
    authMethod: Option<string>,
    privateKeyPath: Option<string>)

  /** The five SSL columns: enabled flag, three paths and the verify flag. */
  datatype SslColumns = SslColumns(
    enabled: i32,
    caCertPath: Option<string>,
    clientCertPath: Option<string>,
    clientKeyPath: Option<string>,
    verifyServer: i32)

  // ---------------------------------------------------------------------------
  // Encoding (save_connection)
  // ---------------------------------------------------------------------------

  /** The stored database kind: the same names serde uses. */
  function StoredDbType(t: DbType): (s: string)
    ensures s == DbTypeName(t)
  {
    match t
    case MySQL => "mysql"
    case PostgreSQL => "postgresql"
    case MariaDB => "mariadb"
  }

  const DisabledSsh: SshColumns := SshColumns(0, None, None, None, None, None)
  const DisabledSsl: SslColumns := SslColumns(0, None, None, None, 1)

  /**
   * An absent or disabled SSH configuration is stored as all-empty columns;
   * an enabled one stores its host, port, username and auth tag, plus the key
   * path for key authentication. Secrets never go into the row.
   */
  function StoredSsh(o: Option<SshConfig>): (c: SshColumns)
    ensures c.enabled == 1 <==> o.Some? && o.value.enabled
    ensures c.enabled != 1 ==> c == DisabledSsh
    ensures c.enabled == 1 ==> c.host == Some(o.value.host) && c.port == Some(o.value.port) &&
                               c.username == Some(o.value.username) &&
                               c.authMethod == Some(AuthTag(o.value.auth_method))
    ensures c.enabled == 1 ==> (c.privateKeyPath.Some? <==> o.value.auth_method.PrivateKey?)
  {
    if o.Some? && o.value.enabled then
      var ssh := o.value;
      var (authMethod, keyPath) := match ssh.auth_method
        case Password(_) => ("password", None)
        case PrivateKey(path, _) => ("privatekey", Some(path));
      SshColumns(1, Some(ssh.host), Some(U16AsI32(ssh.port)), Some(ssh.username), Some(authMethod), keyPath)
    else DisabledSsh
  }

  /** An absent or disabled SSL configuration is stored as disabled with verification on. */
  function StoredSsl(o: Option<SslConfig>): (c: SslColumns)
    ensures c.enabled == 1 <==> o.Some? && o.value.enabled
    ensures c.enabled != 1 ==> c == DisabledSsl
    ensures c.enabled == 1 ==> c.caCertPath == o.value.ca_cert_path && c.clientCertPath == o.value.client_cert_path &&
                               c.clientKeyPath == o.value.client_key_path
    ensures c.enabled == 1 ==> (c.verifyServer == 1 <==> o.value.verify_server)
  {
    if o.Some? && o.value.enabled then
      var ssl := o.value;
      SslColumns(1, ssl.ca_cert_path, ssl.client_cert_path, ssl.client_key_path, if ssl.verify_server then 1 else 0)
    else DisabledSsl
  }

  /** The row `save_connection` inserts for a fresh id and timestamp. */
  function SavedRow(input: ConnectionInput, id: string, now: string): ConnectionRow
  {
    ConnectionRow(id, input.name, StoredDbType(input.db_type), input.host, U16AsI32(input.port), input.username,
                  input.database, StoredSsh(input.ssh_config), StoredSsl(input.ssl_config), now, now)
  }

  /** The connection `save_connection` returns: the input as given, whatever is stored. */
  function SavedConnection(input: ConnectionInput, id: string, now: string): Connection
  {
    Connection(id, input.name, input.db_type, input.host, input.port, input.username, input.password,
               input.database, input.ssh_config, input.ssl_config, now, now)
  }

  // ---------------------------------------------------------------------------
  // The keyring
  // ---------------------------------------------------------------------------

  type Keyring = map<string, string>

  function SshPasswordEntry(id: string): string { id + "_ssh" }
  function SshPassphraseEntry(id: string): string { id + "_ssh_passphrase" }

  /**
   * The secrets `save_connection` writes: the database password under the id,
   * an SSH password or a key passphrase (when given) under their own entries,
   * and only for an enabled SSH configuration.
   */
  function SavedSecrets(input: ConnectionInput, id: string): (k: Keyring)
    ensures id in k && k[id] == input.password
    ensures SshPasswordEntry(id) in k <==>
              input.ssh_config.Some? && input.ssh_config.value.enabled && input.ssh_config.value.auth_method.Password?
    ensures SshPassphraseEntry(id) in k <==>
              input.ssh_config.Some? && input.ssh_config.value.enabled &&
              input.ssh_config.value.auth_method.PrivateKey? && input.ssh_config.value.auth_method.passphrase.Some?
  {
    var base := map[id := input.password];
    if input.ssh_config.Some? && input.ssh_config.value.enabled then
      match input.ssh_config.value.auth_method
      case Password(p) => base[SshPasswordEntry(id) := p]
      case PrivateKey(_, Some(pp)) => base[SshPassphraseEntry(id) := pp]
      case PrivateKey(_, None) => base
    else base
  }

  function Read(keyring: Keyring, entry: string): Option<string>
  {
    if entry in keyring then Some(keyring[entry]) else None
  }

  /**
   * The secrets read for a row: the password (empty when missing), the SSH
   * password only for an enabled row with "password" auth, and the passphrase
   * only for an enabled row with "privatekey" auth.
   */
  function FetchSecrets(row: ConnectionRow, keyring: Keyring): (s: (string, Option<string>, Option<string>))
    ensures s.0 == if row.id in keyring then keyring[row.id] else ""
    ensures s.1.Some? <==> row.ssh.enabled == 1 && row.ssh.authMethod == Some("password") && SshPasswordEntry(row.id) in keyring
    ensures s.2.Some? <==> row.ssh.enabled == 1 && row.ssh.authMethod == Some("privatekey") && SshPassphraseEntry(row.id) in keyring
  {
    var password := Read(keyring, row.id).GetOr("");
    var sshPassword := if row.ssh.enabled == 1 && row.ssh.authMethod == Some("password")
                       then Read(keyring, SshPasswordEntry(row.id)) else None;
    var passphrase := if row.ssh.enabled == 1 && row.ssh.authMethod == Some("privatekey")
                      then Read(keyring, SshPassphraseEntry(row.id)) else None;
    (password, sshPassword, passphrase)
  }

  // ---------------------------------------------------------------------------
  // Decoding (into_connection)
  // ---------------------------------------------------------------------------

  /** Lenient decoding of the stored kind: an unknown name reads as MySQL. */
  function LoadedDbType(s: string): (t: DbType)
    ensures DbTypeFromName(s).Some? ==> t == DbTypeFromName(s).value
    ensures DbTypeFromName(s).None? ==> t == MySQL
  {
    match s
    case "mysql" => MySQL
    case "postgresql" => PostgreSQL
    case "mariadb" => MariaDB
    case _ => MySQL
  }

  /**
   * The auth method of an enabled SSH row: "password" takes the fetched
   * password (empty when missing), "privatekey" the stored path (empty when
   * missing) and the fetched passphrase, and any other tag an empty password.
   */
  function LoadedAuth(c: SshColumns, sshPassword: Option<string>, passphrase: Option<string>): (m: SshAuthMethod)
    ensures m.PrivateKey? <==> c.authMethod == Some("privatekey")
    ensures m.PrivateKey? ==> m.private_key_path == c.privateKeyPath.GetOr("") && m.passphrase == passphrase
    ensures m.Password? && c.authMethod == Some("password") ==> m.password == sshPassword.GetOr("")
    ensures m.Password? && c.authMethod != Some("password") ==> m.password == ""
  {
    match c.authMethod
    case Some("password") => Password(sshPassword.GetOr(""))
    case Some("privatekey") => PrivateKey(c.privateKeyPath.GetOr(""), passphrase)
    case _ => Password("")
  }

  /** The SSH configuration of a row: present exactly when the flag is 1, port 22 when missing. */
  function LoadedSsh(c: SshColumns, sshPassword: Option<string>, passphrase: Option<string>): (o: Option<SshConfig>)
    ensures o.Some? <==> c.enabled == 1
    ensures o.Some? ==> o.value.enabled && o.value.host == c.host.GetOr("") && o.value.username == c.username.GetOr("")
    ensures o.Some? ==> o.value.port == if c.port.None? then 22 else I32AsU16(c.port.value)
    ensures o.Some? ==> o.value.auth_method == LoadedAuth(c, sshPassword, passphrase)
  {
    if c.enabled == 1 then
      Some(SshConfig(true, c.host.GetOr(""), I32AsU16(c.port.GetOr(22)), c.username.GetOr(""),
                     LoadedAuth(c, sshPassword, passphrase)))
    else None
  }

  /** The SSL configuration of a row: present exactly when the flag is 1, verifying exactly when that flag is 1. */
  function LoadedSsl(c: SslColumns): (o: Option<SslConfig>)
    ensures o.Some? <==> c.enabled == 1
    ensures o.Some? ==> o.value.enabled && (o.value.verify_server <==> c.verifyServer == 1)
    ensures o.Some? ==> o.value.ca_cert_path == c.caCertPath && o.value.client_cert_path == c.clientCertPath &&
                        o.value.client_key_path == c.clientKeyPath
  {
    if c.enabled == 1 then Some(SslConfig(true, c.caCertPath, c.clientCertPath, c.clientKeyPath, c.verifyServer == 1))
    else None
  }

  /** `ConnectionRow::into_connection`: the row with its secrets, ports cast back with `as u16`. */
  function IntoConnection(row: ConnectionRow, password: string, sshPassword: Option<string>, passphrase: Option<string>): (c: Connection)
    ensures c.id == row.id && c.name == row.name && c.host == row.host && c.username == row.username
    ensures c.database == row.database_name && c.created_at == row.created_at && c.updated_at == row.updated_at
    ensures c.db_type == LoadedDbType(row.db_type) && c.password == password
    ensures 0 <= row.port ==> c.port == row.port % 0x1_0000
    ensures c.ssh_config == LoadedSsh(row.ssh, sshPassword, passphrase) && c.ssl_config == LoadedSsl(row.ssl)
  {
    Connection(row.id, row.name, LoadedDbType(row.db_type), row.host, I32AsU16(row.port), row.username, password,
               row.database_name, LoadedSsh(row.ssh, sshPassword, passphrase), LoadedSsl(row.ssl),
               row.created_at, row.updated_at)
  }

  /** Loading a stored row: fetch its secrets from the keyring, then decode. */
  function Load(row: ConnectionRow, keyring: Keyring): Connection
  {
    var (password, sshPassword, passphrase) := FetchSecrets(row, keyring);
    IntoConnection(row, password, sshPassword, passphrase)
  }

  // ---------------------------------------------------------------------------
  // Round trips
  // ---------------------------------------------------------------------------

  /** Storing a kind and loading it back gives the kind. */
  lemma DbTypeStoredRoundTrip(t: DbType)
    ensures LoadedDbType(StoredDbType(t)) == t
  {
    DbTypeNameRoundTrip(t, StoredDbType(t));
  }

  /** What a stored option becomes: a disabled configuration is not stored, so it reads back absent. */
  function EnabledSsh(o: Option<SshConfig>): Option<SshConfig>
  {
    if o.Some? && o.value.enabled then o else None
  }

  function EnabledSsl(o: Option<SslConfig>): Option<SslConfig>
  {
    if o.Some? && o.value.enabled then o else None
  }

  /**
   * Saving a connection under an id the keyring does not yet know and loading
   * it back gives what the save returned, except that a disabled SSH or SSL
   * configuration reads back as absent.
   */
  lemma SaveThenLoad(input: ConnectionInput, id: string, now: string, keyring: Keyring)
    requires id !in keyring && SshPasswordEntry(id) !in keyring && SshPassphraseEntry(id) !in keyring
    ensures Load(SavedRow(input, id, now), keyring + SavedSecrets(input, id)) ==
            SavedConnection(input, id, now).(ssh_config := EnabledSsh(input.ssh_config),
                                             ssl_config := EnabledSsl(input.ssl_config))
  {
    var row := SavedRow(input, id, now);
    var k := keyring + SavedSecrets(input, id);
    assert |id| < |SshPasswordEntry(id)| < |SshPassphraseEntry(id)|;
    DbTypeStoredRoundTrip(input.db_type);
    var c := Load(row, k);
    if input.ssh_config.Some? && input.ssh_config.value.enabled {
      var ssh := input.ssh_config.value;
      match ssh.auth_method
      case Password(p) =>
        assert c.ssh_config.value.auth_method == Password(p);
      case PrivateKey(path, pp) =>
        assert c.ssh_config.value.auth_method == PrivateKey(path, pp);
    }
  }

  /** The loaded connection equals the saved one exactly when neither configuration is present but disabled. */
  lemma SaveThenLoadExact(input: ConnectionInput, id: string, now: string, keyring: Keyring)
    requires id !in keyring && SshPasswordEntry(id) !in keyring && SshPassphraseEntry(id) !in keyring
    ensures Load(SavedRow(input, id, now), keyring + SavedSecrets(input, id)) == SavedConnection(input, id, now) <==>
            (input.ssh_config.Some? ==> input.ssh_config.value.enabled) &&
            (input.ssl_config.Some? ==> input.ssl_config.value.enabled)
  {
    SaveThenLoad(input, id, now, keyring);
  }

  /**
   * A stale passphrase entry left in the keyring under the new id would be
   * read back for a key without passphrase: the round trip relies on the id
   * being fresh.
   */
  lemma StalePassphraseIsRead(input: ConnectionInput, id: string, now: string, stale: string)
    requires input.ssh_config.Some? && input.ssh_config.value.enabled
    requires input.ssh_config.value.auth_method.PrivateKey? && input.ssh_config.value.auth_method.passphrase.None?
    ensures Load(SavedRow(input, id, now), map[SshPassphraseEntry(id) := stale] + SavedSecrets(input, id)).ssh_config.value.auth_method.passphrase
            == Some(stale)
  {
    assert |id| < |SshPassphraseEntry(id)|;
  }
}
