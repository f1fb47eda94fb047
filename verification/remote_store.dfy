/** The credential file shared by all administrator processes, and how a command
    line selects one session in it (cmd/warmblyctl/remote_store.go and the
    selection rules of cmd/warmblyctl/remote_client.go). */
module RemoteStore {
  import opened Wrappers

  /** A backend origin in normal form; the normaliser never yields the empty string. */
  type Origin = s: string | s != "" witness "https://localhost"

  /** Instants and expiry times are seconds on one clock. */
  datatype Token = Token(access: string, accessExpires: int, refresh: string, refreshExpires: int)

  const NO_TOKEN := Token("", 0, "", 0)

  datatype Credential = Credential(url: Origin, userId: string, token: Token)

  /** The source hashes origin, NUL and profile; the hash is taken to be injective. */
  datatype Key = Key(origin: Origin, profile: string)

  datatype State = State(servers: map<string, Origin>, credentials: map<Key, Credential>)

  /** How an attempt to replace the file ended: replaced; replaced, but the
      directory could not be synced, so an error is reported; not replaced. */
  datatype SaveOutcome = Replaced | ReplacedUnsynced | NotReplaced

  /** `url` is absent, or what the normaliser made of the flag; "" is no server. */
  datatype Selection = Selection(url: Option<Option<Origin>>, server: string)

  datatype SelectionError = ServerRequired | InvalidProfile | UnknownServer | InvalidUrl | ServerMismatch

  predicate SingleLine(s: string) {
    '\r' !in s && '\n' !in s
  }

  predicate Usable(t: Token, now: int) {
    && t.access != ""
    && t.refresh != ""
    && SingleLine(t.access + t.refresh)
    && t.accessExpires > now
    && t.refreshExpires > now
  }

  predicate Alphanumeric(c: char) {
    'a' <= c <= 'z' || 'A' <= c <= 'Z' || '0' <= c <= '9'
  }

  predicate ProfileName(s: string) {
    && 1 <= |s| <= 64
    && Alphanumeric(s[0])
    && forall i | 1 <= i < |s| :: Alphanumeric(s[i]) || s[i] == '_' || s[i] == '-'
  }

  function Registered(st: State, profile: string): Option<Origin> {
    if profile in st.servers then Some(st.servers[profile]) else None
  }

  function Profile(sel: Selection): string {
    if sel.server == "" then "default" else sel.server
  }

  function Resolve(sel: Selection, st: State): Result<Origin, SelectionError> {
    if sel.url.None? && sel.server == "" then
      Err(ServerRequired)
    else if !ProfileName(Profile(sel)) then
      Err(InvalidProfile)
    else if sel.url.None? && Registered(st, Profile(sel)).None? then
      Err(UnknownServer)
    else if sel.url.Some? && sel.url.value.None? then
      Err(InvalidUrl)
    else
      var base := if sel.url.None? then Registered(st, Profile(sel)).value else sel.url.value.value;
      if sel.server != "" && Registered(st, sel.server) !in {None, Some(base)} then
        Err(ServerMismatch)
      else
        Ok(base)
  }

  /** The profile keeps every binding it has; at most its own is added. */
  function Bind(st: State, sel: Selection, base: Origin): State {
    if sel.server != "" then st.(servers := st.servers[Profile(sel) := base]) else st
  }

  /** A registered profile, named alone, selects its own origin; with another one it is refused. */
  lemma RegisteredProfile(st: State, profile: string, other: Origin)
    requires ProfileName(profile) && profile in st.servers
    ensures Resolve(Selection(None, profile), st) == Ok(st.servers[profile])
    ensures Resolve(Selection(Some(Some(other)), profile), st) ==
            if other == st.servers[profile] then Ok(other) else Err(ServerMismatch)
  {
    assert |profile| >= 1;
  }

  /** A profile nobody registered needs a URL; a URL alone is the profile "default". */
  lemma UnregisteredProfile(st: State, profile: string, origin: Origin)
    requires ProfileName(profile) && profile !in st.servers
    ensures Resolve(Selection(None, profile), st) == Err(UnknownServer)
    ensures Resolve(Selection(Some(Some(origin)), profile), st) == Ok(origin)
    ensures Resolve(Selection(Some(Some(origin)), ""), st) == Ok(origin)
    ensures Resolve(Selection(None, ""), st) == Err(ServerRequired)
  {
    assert ProfileName("default");
  }

  /** Other profile names are refused: empty ones cannot be given, and these are too long or
      hold something else than letters, digits, underscores and hyphens. */
  lemma ProfileNamesAreSpelled(st: State, url: Option<Option<Origin>>, profile: string)
    requires profile != ""
    ensures Resolve(Selection(url, profile), st) == Err(InvalidProfile) <==>
            || |profile| > 64
            || profile[0] in "_-"
            || exists i :: 0 <= i < |profile| && Foreign(profile[i])
  {
  }

  /** Not a letter, a digit, an underscore or a hyphen. */
  predicate Foreign(c: char) {
    && (c < 'a' || 'z' < c) && (c < 'A' || 'Z' < c) && (c < '0' || '9' < c)
    && c != '_' && c != '-'
  }
}
