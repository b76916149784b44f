/**
 The DSN of the Postgres plugin: the printer, and the parser the controller uses
 on an override DSN. The text is the authority part of a URI (section 3.2 of
 RFC 3986) without any escaping, so '@', ':' and '/' in a field are not protected.
 */
module Dsn {
  import opened Resources
  import opened Text

  const SCHEME := "postgres://"
  const OPTIONS := "?sslmode=disable"

  /** What the printer writes before the '@' that ends the credentials. */
  function Credentials(user: string, password: string): string {
    SCHEME + user + ":" + password
  }

  function HostName(key: Key): string {
    key.name + "." + key.namespace
  }

  function AfterCredentials(host: string, port: int, database: string): string {
    host + ":" + PrintInt(port) + "/" + database + OPTIONS
  }

  function UserOrDefault(user: string, s: DatabaseServer): string {
    if user == "" then s.spec.superUser else user
  }

  function PasswordOrDefault(password: string, s: DatabaseServer): string {
    if password == "" then s.spec.superUserPassword else password
  }

  /** The DSN text for a user of a server; without a database it names the maintenance database. */
  function PostgresDsn(user: string, password: string, db: Option<string>, s: DatabaseServer): string {
    Credentials(UserOrDefault(user, s), PasswordOrDefault(password, s)) + "@" +
    AfterCredentials(HostName(s.meta.key), s.spec.servicePort, if db.Some? then db.value else "postgres")
  }

  lemma FrameIsInjective(front: string, a: string, b: string, back: string)
    ensures front + a + back == front + b + back <==> a == b
  {
    var left, right := front + a + back, front + b + back;
    assert left[|front|..|left| - |back|] == a && right[|front|..|right| - |back|] == b;
  }

  /** The text that the plugin prints, written out. */
  lemma PrintedText(user: string, password: string, db: Option<string>, s: DatabaseServer)
    ensures var name := if user == "" then s.spec.superUser else user;
            var secret := if password == "" then s.spec.superUserPassword else password;
            var database := if db.Some? then db.value else "postgres";
            PostgresDsn(user, password, db, s) ==
            "postgres://" + name + ":" + secret + "@" + s.meta.key.name + "." + s.meta.key.namespace + ":" +
            PrintInt(s.spec.servicePort) + "/" + database + "?sslmode=disable"
  {
    var name, secret := UserOrDefault(user, s), PasswordOrDefault(password, s);
    var database := if db.Some? then db.value else "postgres";
    var front := "postgres://" + name + ":" + secret + "@";
    var host, port := s.meta.key.name, PrintInt(s.spec.servicePort);
    assert front + AfterCredentials(HostName(s.meta.key), s.spec.servicePort, database) ==
           front + host + "." + s.meta.key.namespace + ":" + port + "/" + database + "?sslmode=disable";
  }

  lemma EndsIn(front: string, ending: string, text: string)
    requires text == front + ending
    ensures |text| >= |ending| && text[|text| - |ending|..] == ending
  {}

  /** The text ends in the database. */
  lemma TextEndsInDatabase(user: string, password: string, db: string, s: DatabaseServer)
    ensures var text, ending := PostgresDsn(user, password, Some(db), s), "/" + db + "?sslmode=disable";
            |text| >= |ending| && text[|text| - |ending|..] == ending
  {
    PrintedText(user, password, Some(db), s);
    var front := "postgres://" + UserOrDefault(user, s) + ":" + PasswordOrDefault(password, s) + "@" +
                 s.meta.key.name + "." + s.meta.key.namespace + ":" + PrintInt(s.spec.servicePort);
    var text, ending := PostgresDsn(user, password, Some(db), s), "/" + db + "?sslmode=disable";
    assert text == front + ending;
    EndsIn(front, ending, text);
  }

  /** Texts printed alike but for the database are the same only for the same database. */
  lemma TextNamesDatabase(user: string, password: string, db: string, s: DatabaseServer, other: Option<string>)
    ensures PostgresDsn(user, password, other, s) == PostgresDsn(user, password, Some(db), s) <==>
              db == if other.Some? then other.value else "postgres"
  {
    PrintedText(user, password, Some(db), s);
    PrintedText(user, password, other, s);
    var front := "postgres://" + UserOrDefault(user, s) + ":" + PasswordOrDefault(password, s) + "@" +
                 s.meta.key.name + "." + s.meta.key.namespace + ":" + PrintInt(s.spec.servicePort) + "/";
    FrameIsInjective(front, db, if other.Some? then other.value else "postgres", "?sslmode=disable");
  }

  datatype HostPort = HostPort(host: string, port: int)

  /** Host and port of a DSN; None where the controller indexes past the end of a split and panics. */
  function GetHostAndPort(dsn: string): Option<HostPort> {
    var pieces := Split(dsn, '@');
    if |pieces| < 2 then None
    else
      var fields := Split(Split(pieces[1], '/')[0], ':');
      if |fields| < 2 then None
      else Some(HostPort(fields[0], ToInt32(Atoi(fields[1]))))
  }

  /** The server object the controller makes up when a Database names no server. */
  function ServerlessServer(at: HostPort): DatabaseServer {
    Resource(
      Meta(Key("", ""), "", 0, None),
      DatabaseServerSpec(NoneSet, "", None, "", None, at.host, at.port),
      Status(Unset, NoMessage))
  }

  predicate HostSafe(s: string) { '@' !in s && '/' !in s && ':' !in s }

  lemma ParseAuthority(credentials: string, host: string, port: int, database: string)
    requires '@' !in credentials && HostSafe(host) && IsInt32(port)
    ensures GetHostAndPort(credentials + "@" + AfterCredentials(host, port, database)) == Some(HostPort(host, port))
  {
    var tail := AfterCredentials(host, port, database);
    SplitAtFirst(credentials, tail, '@');
    var digits := PrintInt(port);
    PrintedCharacters(port, '@');
    PrintedCharacters(port, '/');
    PrintedCharacters(port, ':');
    var authority := host + ":" + digits;
    var path := "/" + database + OPTIONS;
    assert tail == authority + path;
    SplitPrefix(authority, path, '@');
    SplitPrefix("/", database + OPTIONS, '@');
    assert path == "/" + (database + OPTIONS);
    var beforeAt := Split(database + OPTIONS, '@')[0];
    assert Split(tail, '@')[0] == authority + "/" + beforeAt;
    SplitAtFirst(authority, beforeAt, '/');
    SplitAtFirst(host, digits, ':');
    SplitNone(digits, ':');
    PrintThenParse(port);
  }

  /** Parsing a printed DSN gives back the host and the port, whatever the database name. */
  lemma RoundTrip(user: string, password: string, db: Option<string>, s: DatabaseServer)
    requires '@' !in UserOrDefault(user, s) && '@' !in PasswordOrDefault(password, s)
    requires HostSafe(s.meta.key.name) && HostSafe(s.meta.key.namespace)
    requires IsInt32(s.spec.servicePort)
    ensures GetHostAndPort(PostgresDsn(user, password, db, s)) ==
            Some(HostPort(HostName(s.meta.key), s.spec.servicePort))
  {
    var u, p := UserOrDefault(user, s), PasswordOrDefault(password, s);
    ParseAuthority(Credentials(u, p), HostName(s.meta.key), s.spec.servicePort,
                   if db.Some? then db.value else "postgres");
  }

  /** The credentials of the printed text. */
  function PrintedCredentials(user: string, password: string, s: DatabaseServer): string {
    Credentials(UserOrDefault(user, s), PasswordOrDefault(password, s))
  }

  /**
   The printer protects nothing: when the credentials hold an '@', the parser reads host and
   port from the credentials, as if nothing followed them.
   */
  lemma ParsesCredentialsInstead(user: string, password: string, db: Option<string>, s: DatabaseServer)
    requires '@' in PrintedCredentials(user, password, s)
    ensures GetHostAndPort(PostgresDsn(user, password, db, s)) == GetHostAndPort(PrintedCredentials(user, password, s))
  {
    var credentials := PrintedCredentials(user, password, s);
    var tail := AfterCredentials(HostName(s.meta.key), s.spec.servicePort, if db.Some? then db.value else "postgres");
    SeveralPiecesIff(credentials, '@');
    SplitAcross(credentials, tail, '@');
    assert Split(credentials + "@" + tail, '@')[1] == Split(credentials, '@')[1];
  }

  /**
   For all credentials, parsing a printed DSN gives the server's host and port exactly when the
   credentials have no '@', or happen to name the same host and port behind their first '@'.
   */
  lemma RightIff(user: string, password: string, db: Option<string>, s: DatabaseServer)
    requires HostSafe(s.meta.key.name) && HostSafe(s.meta.key.namespace) && IsInt32(s.spec.servicePort)
    ensures var credentials, at := PrintedCredentials(user, password, s), HostPort(HostName(s.meta.key), s.spec.servicePort);
            GetHostAndPort(PostgresDsn(user, password, db, s)) == Some(at) <==>
              '@' !in credentials || GetHostAndPort(credentials) == Some(at)
  {
    var credentials := PrintedCredentials(user, password, s);
    if '@' in credentials {
      ParsesCredentialsInstead(user, password, db, s);
    } else {
      ParseAuthority(credentials, HostName(s.meta.key), s.spec.servicePort, if db.Some? then db.value else "postgres");
    }
  }

  /** The text between the first '@' and the next one, or the end. */
  function BehindAt(s: string): string {
    var pieces := Split(s, '@');
    if |pieces| < 2 then "" else pieces[1]
  }

  /**
   The parser fails exactly when the credentials hold an '@' and the text from the first '@'
   to the next '@' or '/' has no ':'.
   */
  lemma UnparsableIff(user: string, password: string, db: Option<string>, s: DatabaseServer)
    requires HostSafe(s.meta.key.name) && HostSafe(s.meta.key.namespace) && IsInt32(s.spec.servicePort)
    ensures var credentials := PrintedCredentials(user, password, s);
            GetHostAndPort(PostgresDsn(user, password, db, s)) == None <==>
              '@' in credentials && ':' !in Split(BehindAt(credentials), '/')[0]
  {
    var credentials := PrintedCredentials(user, password, s);
    SeveralPiecesIff(credentials, '@');
    SeveralPiecesIff(Split(BehindAt(credentials), '/')[0], ':');
    if '@' in credentials {
      ParsesCredentialsInstead(user, password, db, s);
    } else {
      RightIff(user, password, db, s);
    }
  }

  const EXAMPLE_PASSWORD := "infoblox" + "@" + "123"

  /** The password that the README uses as its example is such a case: a DSN made with it cannot be parsed. */
  lemma ExamplePasswordIsUnparsable(user: string, db: Option<string>, s: DatabaseServer)
    requires user != "" && '@' !in user
    requires HostSafe(s.meta.key.name) && HostSafe(s.meta.key.namespace) && IsInt32(s.spec.servicePort)
    ensures GetHostAndPort(PostgresDsn(user, EXAMPLE_PASSWORD, db, s)) == None
  {
    var before := SCHEME + user + ":" + "infoblox";
    assert PrintedCredentials(user, EXAMPLE_PASSWORD, s) == before + "@" + "123";
    SplitAtFirst(before, "123", '@');
    SplitNone("123", '@');
    SplitNone("123", '/');
    UnparsableIff(user, EXAMPLE_PASSWORD, db, s);
  }

  /**
   Deriving the admin DSN from an override DSN keeps the 32-bit port, but not the host: for all
   credentials, the printer builds the host from the made-up server's empty name and namespace.
   */
  lemma ServerlessKeepsPortLosesHost(override: string, user: string, password: string, db: string)
    requires GetHostAndPort(override).Some?
    ensures var at := GetHostAndPort(override).value;
            && PostgresDsn(user, password, Some(db), ServerlessServer(at)) ==
               Credentials(user, password) + "@" + AfterCredentials(".", at.port, db)
            && ('@' !in Credentials(user, password) ==>
                  GetHostAndPort(PostgresDsn(user, password, Some(db), ServerlessServer(at))) == Some(HostPort(".", at.port)))
  {
    var at := GetHostAndPort(override).value;
    assert HostName(ServerlessServer(at).meta.key) == ".";
    RightIff(user, password, Some(db), ServerlessServer(at));
  }

  /** The DSN text of the MySQL plugin, which takes user and password as they are. */
  function MySqlDsn(user: string, password: string, s: DatabaseServer): string {
    user + ":" + password + "@tcp(" + HostName(s.meta.key) + ":" + PrintInt(s.spec.servicePort) +
    ")/mysql?charset=utf8&parseTime=True"
  }
}
