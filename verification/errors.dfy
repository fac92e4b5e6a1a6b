/**
 * The application error type (src-tauri/src/error.rs): eight variants each
 * carrying a message, displayed as a fixed prefix plus the message,
 * serialised as `{"type": <variant>, "message": <message>}`, and the
 * conversions from foreign errors, whose text is taken as a plain string.
 */
module Errors {
  import opened Wrappers
  import opened Text
  import opened Json

  datatype ErrorKind = Connection | Database | Storage | SshTunnel | SslConfig | NotFound | Validation | Internal

  datatype AppError = AppError(kind: ErrorKind, message: string)

  /** The `#[error("...: {0}")]` prefix of each variant. */
  function Prefix(k: ErrorKind): string
  {
    match k
    case Connection => "Connection failed: "
    case Database => "Database error: "
    case Storage => "Storage error: "
    case SshTunnel => "SSH tunnel error: "
    case SslConfig => "SSL configuration error: "
    case NotFound => "Not found: "
    case Validation => "Validation error: "
    case Internal => "Internal error: "
  }

  /** The variant name serde writes as the tag. */
  function KindName(k: ErrorKind): string
  {
    match k
    case Connection => "Connection"
    case Database => "Database"
    case Storage => "Storage"
    case SshTunnel => "SshTunnel"
    case SslConfig => "SslConfig"
    case NotFound => "NotFound"
    case Validation => "Validation"
    case Internal => "Internal"
  }

  /** The displayed text: the variant's prefix, then the message unchanged. */
  function Display(e: AppError): (s: string)
    ensures |s| == |Prefix(e.kind)| + |e.message|
    ensures s[..|Prefix(e.kind)|] == Prefix(e.kind) && s[|Prefix(e.kind)|..] == e.message
  {
    Prefix(e.kind) + e.message
  }

  const AllKinds: seq<ErrorKind> := [Connection, Database, Storage, SshTunnel, SslConfig, NotFound, Validation, Internal]

  /** No prefix is a prefix of another, so the displayed text fixes the variant. */
  lemma PrefixesDistinct(a: ErrorKind, b: ErrorKind)
    requires StartsWith(Prefix(a), Prefix(b))
    ensures a == b
  {
    assert Prefix(a)[..3] == Prefix(b)[..3];
    assert Prefix(a)[0] == Prefix(b)[0] && Prefix(a)[2] == Prefix(b)[2];
  }

  /** Reading a displayed error back: the unique variant whose prefix it starts with, and the rest. */
  function ParseDisplay(s: string): (r: Option<AppError>)
    ensures r.Some? ==> Display(r.value) == s
  {
    ParseWith(s, AllKinds)
  }

  function ParseWith(s: string, kinds: seq<ErrorKind>): (r: Option<AppError>)
    ensures r.Some? ==> Display(r.value) == s && r.value.kind in kinds
  {
    if |kinds| == 0 then None
    else if StartsWith(s, Prefix(kinds[0])) then
      assert s == Prefix(kinds[0]) + s[|Prefix(kinds[0])|..];
      Some(AppError(kinds[0], s[|Prefix(kinds[0])|..]))
    else ParseWith(s, kinds[1..])
  }

  /** The displayed text determines the error: parsing it back gives the error. */
  lemma DisplayRoundTrip(e: AppError)
    ensures ParseDisplay(Display(e)) == Some(e)
  {
    ParseWithFinds(Display(e), AllKinds, e);
  }

  lemma {:induction false} ParseWithFinds(s: string, kinds: seq<ErrorKind>, e: AppError)
    requires s == Display(e) && e.kind in kinds
    ensures ParseWith(s, kinds) == Some(e)
    decreases |kinds|
  {
    assert s[..|Prefix(e.kind)|] == Prefix(e.kind);
    if StartsWith(s, Prefix(kinds[0])) {
      PrefixOfDisplay(e, kinds[0]);
    } else {
      ParseWithFinds(s, kinds[1..], e);
    }
  }

  /** Only an error's own prefix opens its displayed text. */
  lemma PrefixOfDisplay(e: AppError, k: ErrorKind)
    requires StartsWith(Display(e), Prefix(k))
    ensures k == e.kind
  {
    var s := Display(e);
    var p, q := Prefix(k), Prefix(e.kind);
    if |p| <= |q| {
      assert q[..|p|] == s[..|p|];
      PrefixesDistinct(e.kind, k);
    } else {
      assert p[..|q|] == s[..|q|];
      PrefixesDistinct(k, e.kind);
    }
  }

  /** `#[serde(tag = "type", content = "message")]`. */
  function ToJson(e: AppError): (j: Json)
    ensures Field(j, "type") == Some(JStr(KindName(e.kind)))
    ensures Field(j, "message") == Some(JStr(e.message))
  {
    var j := JObj([("type", JStr(KindName(e.kind))), ("message", JStr(e.message))]);
    LookupDistinct(j.fields, 1);
    j
  }

  function KindFromName(s: string): Option<ErrorKind>
  {
    match s
    case "Connection" => Some(Connection)
    case "Database" => Some(Database)
    case "Storage" => Some(Storage)
    case "SshTunnel" => Some(SshTunnel)
    case "SslConfig" => Some(SslConfig)
    case "NotFound" => Some(NotFound)
    case "Validation" => Some(Validation)
    case "Internal" => Some(Internal)
    case _ => None
  }

  /** The adjacently tagged object read back: the tag names the variant and the content is the message. */
  function FromJson(j: Json): Option<AppError>
  {
    var tag :- ReadString(Field(j, "type"));
    var kind :- KindFromName(tag);
    var message :- ReadString(Field(j, "message"));
    Some(AppError(kind, message))
  }

  lemma JsonRoundTrip(e: AppError)
    ensures FromJson(ToJson(e)) == Some(e)
  {
  }

  /** The foreign error sources the application converts from, each known only by its text. */
  datatype Foreign = Anyhow(text: string) | Sqlx(text: string) | Io(text: string)

  /**
   * The `From` conversions: a database driver error becomes `Database`,
   * anything else becomes `Internal`; the text is kept unchanged.
   */
  function FromForeign(f: Foreign): (e: AppError)
    ensures e.message == f.text
    ensures e.kind == Database <==> f.Sqlx?
    ensures e.kind == Internal <==> !f.Sqlx?
  {
    match f
    case Anyhow(t) => AppError(Internal, t)
    case Sqlx(t) => AppError(Database, t)
    case Io(t) => AppError(Internal, t)
  }

  /** A converted error displays as its variant's prefix followed by the foreign text. */
  lemma ForeignDisplay(f: Foreign)
    ensures Display(FromForeign(f)) == (if f.Sqlx? then "Database error: " else "Internal error: ") + f.text
  {
  }
}
