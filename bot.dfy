/**
 * The bot's state and commands: the credential file, the per-guild
 * registries `server_clients` and `server_servers`, the setup-channel
 * commands and the `!start`, `!stop` and `!status` commands.
 */
module Bot {

  import opened Wrappers
  import opened Credentials
  import opened Aternos
  import opened Lifecycle

  /** The only channel the setup commands answer in. */
  const SetupChannel := "server-setup"

  /** The replies of the setup-channel commands. */
  datatype SetupReply =
    | WrongChannel          // the command was used outside `server-setup`
    | UsernameSaved
    | PasswordSaved
    | MissingCredentials    // `!setup-test` before both fields are set
    | CredentialsValid(address: string)
    | ValidButNoServer      // "Credentials valid but no servers found."
    | CredentialsInvalid

  /** A command that needs the guild's server: refused when the guild is not connected. */
  datatype Configured<T> = NotConfigured | Ran(result: T)

  class Bot {
    /** The contents of `server_credentials.json`. */
    var credentials: CredentialFile
    /** `server_clients`: `str(guild_id)` to the logged-in client. */
    var clients: map<string, Session>
    /** `server_servers`: `str(guild_id)` to the guild's Aternos server. */
    var servers: map<string, Server>
    /** Number of `Client().login(...)` attempts made. */
    var loginAttempts: nat

    /** The two registries are only ever written together. */
    ghost predicate Valid()
      reads this
    {
      clients.Keys == servers.Keys
    }

    /** The bot as it starts: whatever credentials are on file, no guild connected yet. */
    constructor (stored: CredentialFile)
      ensures Valid()
      ensures credentials == stored && clients == map[] && servers == map[] && loginAttempts == 0
    {
      credentials := stored;
      clients := map[];
      servers := map[];
      loginAttempts := 0;
    }

    /** `set_server_credentials`: load the file, store `{username, password}` under the guild's key, save. */
    method SetServerCredentials(g: GuildId, username: string, password: string)
      modifies this
      ensures credentials == Credentials.SetServerCredentials(old(credentials), g, username, password)
      ensures clients == old(clients) && servers == old(servers) && loginAttempts == old(loginAttempts)
    {
      credentials := credentials[Key(g) := Creds(username, password)];
    }

    /** `!username`: in the setup channel, replace the username and keep the stored password. */
    method SetUsername(channel: string, g: GuildId, username: string) returns (reply: SetupReply)
      modifies this
      ensures reply == if channel == SetupChannel then UsernameSaved else WrongChannel
      ensures credentials == if channel == SetupChannel then Credentials.SetUsername(old(credentials), g, username)
                             else old(credentials)
      ensures clients == old(clients) && servers == old(servers) && loginAttempts == old(loginAttempts)
    {
      if channel != SetupChannel {
        return WrongChannel;
      }
      var stored := GetServerCredentials(credentials, g);
      SetServerCredentials(g, username, if stored.Some? then stored.value.password else "");
      reply := UsernameSaved;
    }

    /** `!password`: in the setup channel, replace the password and keep the stored username. */
    method SetPassword(channel: string, g: GuildId, password: string) returns (reply: SetupReply)
      modifies this
      ensures reply == if channel == SetupChannel then PasswordSaved else WrongChannel
      ensures credentials == if channel == SetupChannel then Credentials.SetPassword(old(credentials), g, password)
                             else old(credentials)
      ensures clients == old(clients) && servers == old(servers) && loginAttempts == old(loginAttempts)
    {
      if channel != SetupChannel {
        return WrongChannel;
      }
      var stored := GetServerCredentials(credentials, g);
      SetServerCredentials(g, if stored.Some? then stored.value.username else "", password);
      reply := PasswordSaved;
    }

    /**
     * `connect_to_aternos`: refuse without both credentials; otherwise log
     * in, take the account's first server and fetch it, and only then record
     * the client and the server for the guild. Any failure returns false and
     * leaves both registries as they were.
     */
    method ConnectToAternos(g: GuildId, login: Login) returns (ok: bool)
      requires Valid()
      modifies this, if login.Account? && |login.servers| > 0 then {login.servers[0]} else {}
      ensures Valid()
      ensures credentials == old(credentials)
      ensures !Ready(GetServerCredentials(credentials, g)) ==>
        !ok && loginAttempts == old(loginAttempts)
      ensures !Ready(GetServerCredentials(credentials, g)) && login.Account? && |login.servers| > 0 ==>
        unchanged(login.servers[0])
      ensures Ready(GetServerCredentials(credentials, g)) ==> loginAttempts == old(loginAttempts) + 1
      ensures login.Account? && |login.servers| > 0 ==>
        var server := login.servers[0];
        server.fetches == old(server.fetches) + (if Ready(GetServerCredentials(credentials, g)) then 1 else 0)
        && server.starts == old(server.starts) && server.stops == old(server.stops)
      ensures ok <==>
        Ready(GetServerCredentials(credentials, g)) && login.Account? && |login.servers| > 0
        && ObsAt(login.servers[0].script, old(login.servers[0].fetches)).Fetched?
      ensures ok ==>
        servers == old(servers)[Key(g) := login.servers[0]]
        && clients == old(clients)[Key(g) := Session(GetServerCredentials(credentials, g).value.username)]
      ensures !ok ==> servers == old(servers) && clients == old(clients)
    {
      var creds := GetServerCredentials(credentials, g);
      if !Ready(creds) {
        return false;
      }
      loginAttempts := loginAttempts + 1;
      match login
      case Refused =>
        ok := false;
      case Account(accountServers) =>
        if |accountServers| == 0 {
          return false;
        }
        var server := accountServers[0];
        var fetched := server.Fetch();
        if !fetched {
          return false;
        }
        clients := clients[Key(g) := Session(creds.value.username)];
        servers := servers[Key(g) := server];
        ok := true;
    }

    /**
     * `!setup-test`: in the setup channel, refuse without both credentials
     * (no login is tried), otherwise connect and report. The "no servers
     * found" reply cannot occur: a successful connection always records the
     * guild's server.
     */
    method TestSetup(channel: string, g: GuildId, login: Login) returns (reply: SetupReply)
      requires Valid()
      modifies this, if login.Account? && |login.servers| > 0 then {login.servers[0]} else {}
      ensures Valid()
      ensures credentials == old(credentials)
      ensures reply != ValidButNoServer
      ensures channel != SetupChannel ==> reply == WrongChannel && unchanged(this)
      ensures channel == SetupChannel && !Ready(GetServerCredentials(credentials, g)) ==>
        reply == MissingCredentials && unchanged(this)
      ensures (channel != SetupChannel || !Ready(GetServerCredentials(credentials, g)))
               && login.Account? && |login.servers| > 0 ==>
        unchanged(login.servers[0])
      ensures channel == SetupChannel && Ready(GetServerCredentials(credentials, g)) ==>
        loginAttempts == old(loginAttempts) + 1
        && (reply.CredentialsValid? || reply == CredentialsInvalid)
      ensures login.Account? && |login.servers| > 0 ==>
        var server := login.servers[0];
        server.fetches == old(server.fetches)
          + (if channel == SetupChannel && Ready(GetServerCredentials(credentials, g)) then 1 else 0)
        && server.starts == old(server.starts) && server.stops == old(server.stops)
      ensures (channel == SetupChannel && Ready(GetServerCredentials(credentials, g))
               && !(login.Account? && |login.servers| > 0)) ==>
        reply == CredentialsInvalid
      ensures reply.CredentialsValid? <==>
        channel == SetupChannel && Ready(GetServerCredentials(credentials, g))
        && login.Account? && |login.servers| > 0
        && ObsAt(login.servers[0].script, old(login.servers[0].fetches)).Fetched?
      ensures reply.CredentialsValid? ==>
        servers == old(servers)[Key(g) := login.servers[0]]
        && clients == old(clients)[Key(g) := Session(GetServerCredentials(credentials, g).value.username)]
        && reply.address == if login.servers[0].address.Some? then login.servers[0].address.value else "Server"
      ensures !reply.CredentialsValid? ==> servers == old(servers) && clients == old(clients)
    {
      if channel != SetupChannel {
        return WrongChannel;
      }
      var creds := GetServerCredentials(credentials, g);
      if !Ready(creds) {
        return MissingCredentials;
      }
      var connected := ConnectToAternos(g, login);
      if connected {
        if Key(g) in servers {
          reply := CredentialsValid(servers[Key(g)].address.GetOr("Server"));
        } else {
          reply := ValidButNoServer;
        }
      } else {
        reply := CredentialsInvalid;
      }
    }

    /** `!start`: refused when the guild has no server; otherwise `RunStart` on it. */
    method Start(g: GuildId) returns (result: Configured<StartOutcome>, shown: seq<string>)
      requires Valid()
      modifies if Key(g) in servers then {servers[Key(g)]} else {}
      ensures result.NotConfigured? <==> Key(g) !in clients
      ensures Key(g) !in servers ==> result == NotConfigured && shown == []
      ensures Key(g) in servers ==>
        var server := servers[Key(g)];
        var r := StartRun(server.script, old(server.fetches), RaisesAt(server.startRaises, old(server.starts)));
        result == Ran(r.outcome) && shown == r.shown
        && server.fetches == old(server.fetches) + r.fetches && server.starts == old(server.starts) + r.starts
        && server.stops == old(server.stops)
    {
      if Key(g) !in servers {
        return NotConfigured, [];
      }
      var outcome;
      outcome, shown := RunStart(servers[Key(g)]);
      result := Ran(outcome);
    }

    /** `!stop`: refused when the guild has no server; otherwise `RunStop` on it. */
    method Stop(g: GuildId) returns (result: Configured<StopOutcome>)
      requires Valid()
      modifies if Key(g) in servers then {servers[Key(g)]} else {}
      ensures result.NotConfigured? <==> Key(g) !in clients
      ensures Key(g) !in servers ==> result == NotConfigured
      ensures Key(g) in servers ==>
        var server := servers[Key(g)];
        var r := StopRun(server.script, old(server.fetches), RaisesAt(server.stopRaises, old(server.stops)));
        result == Ran(r.outcome)
        && server.fetches == old(server.fetches) + r.fetches && server.stops == old(server.stops) + r.stops
        && server.starts == old(server.starts)
    {
      if Key(g) !in servers {
        return NotConfigured;
      }
      var outcome := RunStop(servers[Key(g)]);
      result := Ran(outcome);
    }

    /** `!status`: refused when the guild has no server; otherwise `RunStatus` on it. */
    method Status(g: GuildId) returns (result: Configured<StatusOutcome>)
      requires Valid()
      modifies if Key(g) in servers then {servers[Key(g)]} else {}
      ensures result.NotConfigured? <==> Key(g) !in clients
      ensures Key(g) !in servers ==> result == NotConfigured
      ensures Key(g) in servers ==>
        var server := servers[Key(g)];
        result == Ran(StatusRun(ObsAt(server.script, old(server.fetches))))
        && server.fetches == old(server.fetches) + 1
        && server.starts == old(server.starts) && server.stops == old(server.stops)
    {
      if Key(g) !in servers {
        return NotConfigured;
      }
      var outcome := RunStatus(servers[Key(g)]);
      result := Ran(outcome);
    }
  }
}
