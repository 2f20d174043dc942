/**
 * The per-guild credential store: the contents of `server_credentials.json`,
 * a dictionary from `str(guild_id)` to a `{username, password}` record.
 * Loading and saving the file is not modelled; every read-modify-write of
 * the file is one update of this map.
 */
module Credentials {

  import opened Wrappers
  import opened Text

  /** A Discord guild (server) identifier. */
  type GuildId = nat

  datatype Creds = Creds(username: string, password: string)

  /** The credential file: `str(guild_id)` to the stored record. */
  type CredentialFile = map<string, Creds>

  /** The dictionary key of a guild, `str(guild_id)`; it reads back as the guild, so distinct guilds never share a key. */
  function Key(g: GuildId): (k: string)
    ensures ParseNat(k) == Some(g)
  {
    NatTextRoundTrip(g);
    Digits(g)
  }

  /**
   * `get_server_credentials`: the stored record, or `None` standing for the
   * empty dictionary `{}` returned for a guild with no entry.
   */
  function GetServerCredentials(file: CredentialFile, g: GuildId): (r: Option<Creds>)
    ensures r.None? <==> Key(g) !in file
    ensures r.Some? ==> r.value == file[Key(g)]
  {
    if Key(g) in file then Some(file[Key(g)]) else None
  }

  /** `set_server_credentials`: store exactly `{username, password}` under `str(guild_id)`. */
  function SetServerCredentials(file: CredentialFile, g: GuildId, username: string, password: string): (r: CredentialFile)
    ensures r.Keys == file.Keys + {Key(g)}
  {
    file[Key(g) := Creds(username, password)]
  }

  /**
   * The file after `!username u`: the new username with the stored password,
   * `''` when the guild has no entry (`.get('password', '')`); no other
   * entry changes.
   */
  function SetUsername(file: CredentialFile, g: GuildId, username: string): (r: CredentialFile)
    ensures r.Keys == file.Keys + {Key(g)}
    ensures r[Key(g)] == Creds(username, if Key(g) in file then file[Key(g)].password else "")
    ensures forall k | k in file && k != Key(g) :: r[k] == file[k]
  {
    var stored := GetServerCredentials(file, g);
    SetServerCredentials(file, g, username, if stored.Some? then stored.value.password else "")
  }

  /**
   * The file after `!password p`: the stored username, `''` when the guild
   * has no entry (`.get('username', '')`), with the new password; no other
   * entry changes.
   */
  function SetPassword(file: CredentialFile, g: GuildId, password: string): (r: CredentialFile)
    ensures r.Keys == file.Keys + {Key(g)}
    ensures r[Key(g)] == Creds(if Key(g) in file then file[Key(g)].username else "", password)
    ensures forall k | k in file && k != Key(g) :: r[k] == file[k]
  {
    var stored := GetServerCredentials(file, g);
    SetServerCredentials(file, g, if stored.Some? then stored.value.username else "", password)
  }

  /**
   * The guard of `connect_to_aternos` and `!setup-test`: both `username` and
   * `password` are present and non-empty (`not creds.get(...)` is false).
   */
  predicate Ready(c: Option<Creds>) {
    c.Some? && c.value.username != "" && c.value.password != ""
  }

  /**
   * The guard over the file: it passes exactly when the guild has an entry
   * whose username and password are both non-empty, so a missing entry or
   * an empty field refuses.
   */
  lemma GuardPassesExactlyWhenBothStored(file: CredentialFile, g: GuildId)
    ensures Ready(GetServerCredentials(file, g)) <==>
      Key(g) in file && file[Key(g)].username != "" && file[Key(g)].password != ""
  {
  }

  /**
   * Reading back after a store: the guild written gets exactly the new
   * record, and every other guild reads what it read before.
   */
  lemma GetAfterSet(file: CredentialFile, g: GuildId, h: GuildId, username: string, password: string)
    ensures GetServerCredentials(SetServerCredentials(file, g, username, password), h)
         == if h == g then Some(Creds(username, password)) else GetServerCredentials(file, h)
  {
    if h != g {
      assert Key(h) != Key(g);
    }
  }

  /**
   * `!username` replaces only the username: the stored password is kept (or
   * becomes `''` when nothing was stored) and every other guild is untouched.
   */
  lemma SetUsernameKeepsPassword(file: CredentialFile, g: GuildId, h: GuildId, username: string)
    ensures GetServerCredentials(SetUsername(file, g, username), g)
         == Some(Creds(username, if Key(g) in file then file[Key(g)].password else ""))
    ensures h != g ==> GetServerCredentials(SetUsername(file, g, username), h) == GetServerCredentials(file, h)
  {
    if h != g {
      assert Key(h) != Key(g);
    }
  }

  /**
   * `!password` replaces only the password: the stored username is kept (or
   * becomes `''` when nothing was stored) and every other guild is untouched.
   */
  lemma SetPasswordKeepsUsername(file: CredentialFile, g: GuildId, h: GuildId, password: string)
    ensures GetServerCredentials(SetPassword(file, g, password), g)
         == Some(Creds(if Key(g) in file then file[Key(g)].username else "", password))
    ensures h != g ==> GetServerCredentials(SetPassword(file, g, password), h) == GetServerCredentials(file, h)
  {
    if h != g {
      assert Key(h) != Key(g);
    }
  }

  /**
   * The setup sequence: `!username u` then `!password p` stores exactly
   * `{u, p}` whatever was there before, and with both non-empty the guard
   * lets the connection proceed.
   */
  lemma SetupSequenceReady(file: CredentialFile, g: GuildId, username: string, password: string)
    ensures GetServerCredentials(SetPassword(SetUsername(file, g, username), g, password), g)
         == Some(Creds(username, password))
    ensures Ready(GetServerCredentials(SetPassword(SetUsername(file, g, username), g, password), g))
        <==> username != "" && password != ""
  {
    var afterUser := SetUsername(file, g, username);
    SetUsernameKeepsPassword(file, g, g, username);
    SetPasswordKeepsUsername(afterUser, g, g, password);
  }
}
