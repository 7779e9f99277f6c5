/** The SCC credentials in memory, the secret that holds them, and the write-through adapter between the two. */
module Credentials {
  import opened Wrappers
  import opened Finalizers
  import opened Ownership

  const USERNAME_KEY := "systemLogin"
  const PASSWORD_KEY := "password"
  const TOKEN_KEY := "systemToken"

  datatype CredentialType = Unconfigured | TokenOnly | LoginOnly | Both

  datatype Creds = Creds(token: string, login: string, password: string) {
    function Type(): CredentialType {
      if token != "" && login != "" && password != "" then Both
      else if token != "" then TokenOnly
      else if login != "" && password != "" then LoginOnly
      else Unconfigured
    }

    function Login(): Option<(string, string)> {
      if Type().Unconfigured? || Type().TokenOnly? then None else Some((login, password))
    }
  }

  predicate Complete(pair: (string, string)) {
    pair.0 != "" && pair.1 != ""
  }

  /** A login is handed out exactly when both halves of it are there, with or without a token. */
  lemma LoginIsForCompletePairs(c: Creds)
    ensures c.Login() == if Complete((c.login, c.password)) then Some((c.login, c.password)) else None
  {
  }

  // ----- the secret and its server

  datatype Secret = Secret(data: map<string, string>, finalizers: seq<string>, labels: Labels, owner: Option<string>)

  predicate Ours(key: string) {
    key == USERNAME_KEY || key == PASSWORD_KEY || key == TOKEN_KEY
  }

  datatype Fate = Answered | Refused | AnswerLost

  /** Other writers may put other keys into the secret before a call arrives. */
  datatype Beat = Beat(foreign: map<string, string>, fate: Fate)

  datatype World = World(secret: Option<Secret>, version: nat, script: seq<Beat>)

  datatype Read = Read(world: World, error: bool)

  function Arrival(w: World): World
    requires w.script != []
  {
    var foreign := map k | k in w.script[0].foreign && !Ours(k) :: w.script[0].foreign[k];
    if w.secret.None? || foreign == map[] then w.(script := w.script[1..])
    else World(Some(w.secret.value.(data := w.secret.value.data + foreign)), w.version + 1, w.script[1..])
  }

  /** No error with no secret stands for NotFound. */
  function Get(w: World): Read {
    if w.script == [] then Read(w, true) else Read(Arrival(w), !w.script[0].fate.Answered?)
  }

  /** Create if `version` is None, else Update of that version. */
  function Put(w: World, s: Secret, version: Option<nat>): Read {
    if w.script == [] then Read(w, true)
    else
      var v, fate := Arrival(w), w.script[0].fate;
      if fate.Refused? || v.secret.None? != version.None? || (version.Some? && version.value != v.version) then Read(v, true)
      else Read(World(Some(s), v.version + 1, v.script), fate.AnswerLost?)
  }

  // ----- the adapter as a function

  /** What the adapter stamps on the secret. */
  datatype Stamp = Stamp(labels: Labels, owner: Option<string>)

  function Filled(s: Secret, c: Creds, stamp: Stamp): Secret {
    var login := c.Login();
    var data := if login.Some? then s.data[USERNAME_KEY := login.value.0][PASSWORD_KEY := login.value.1] else s.data;
    Secret(data[TOKEN_KEY := c.token], Added(s.finalizers, CREDENTIALS_FINALIZER), s.labels + stamp.labels,
           if stamp.owner.Some? then stamp.owner else s.owner)
  }

  function Save(w: World, c: Creds, stamp: Stamp): Read {
    var got := Get(w);
    if got.error then got
    else
      var base := if got.world.secret.Some? then got.world.secret.value else Secret(map[], [], map[], None);
      Put(got.world, Filled(base, c, stamp), if got.world.secret.Some? then Some(got.world.version) else None)
  }

  function Load(s: Option<Secret>): Option<Creds> {
    if s.None? || s.value.data == map[] then None
    else Some(Creds(Value(s.value.data, TOKEN_KEY), Value(s.value.data, USERNAME_KEY), Value(s.value.data, PASSWORD_KEY)))
  }

  datatype Op = UpdateToken(token: string) | SetLogin(login: string, password: string)

  datatype State = State(world: World, creds: Creds, ok: bool)

  /** `ok` tells whether all operations so far succeeded. */
  function Perform(s: State, op: Op, stamp: Stamp): State {
    match op
    case UpdateToken(token) =>
      if token == "" && s.creds.token == "" then s
      else
        var c := s.creds.(token := token);
        var saved := Save(s.world, c, stamp);
        State(saved.world, c, s.ok && !saved.error)
    case SetLogin(login, password) =>
      var c := s.creds.(login := login, password := password);
      var saved := Save(s.world, c, stamp);
      State(saved.world, c, s.ok && !saved.error)
  }

  function PerformAll(s: State, ops: seq<Op>, stamp: Stamp): State {
    if ops == [] then s else Perform(PerformAll(s, ops[..|ops| - 1], stamp), ops[|ops| - 1], stamp)
  }

  // ----- write-through

  function StoredPair(w: World): (string, string) {
    if w.secret.None? then ("", "") else (Value(w.secret.value.data, USERNAME_KEY), Value(w.secret.value.data, PASSWORD_KEY))
  }

  function StoredToken(w: World): string {
    if w.secret.None? then "" else Value(w.secret.value.data, TOKEN_KEY)
  }

  /** The last complete pair that was set, or else the given one. */
  function LastComplete(ops: seq<Op>, loaded: (string, string)): (string, string) {
    if ops == [] then loaded
    else
      var op := ops[|ops| - 1];
      if op.SetLogin? && Complete((op.login, op.password)) then (op.login, op.password)
      else LastComplete(ops[..|ops| - 1], loaded)
  }

  lemma ArrivalKeepsOurKeys(w: World)
    requires w.script != []
    ensures var v := Arrival(w);
            StoredPair(v) == StoredPair(w) && StoredToken(v) == StoredToken(w) && (v.secret.None? <==> w.secret.None?)
  {
  }

  /** A save stores all or nothing of token and complete login; it never touches the login otherwise. */
  lemma SaveStoresTheCredentials(w: World, c: Creds, stamp: Stamp)
    ensures var saved := Save(w, c, stamp);
            var pair := if Complete((c.login, c.password)) then (c.login, c.password) else StoredPair(w);
            && (!saved.error ==> StoredToken(saved.world) == c.token && StoredPair(saved.world) == pair && saved.world.secret.Some?)
            && ((StoredToken(saved.world) == StoredToken(w) && StoredPair(saved.world) == StoredPair(w)) ||
                (StoredToken(saved.world) == c.token && StoredPair(saved.world) == pair))
  {
    if w.script != [] {
      ArrivalKeepsOurKeys(w);
      var v := Arrival(w);
      if v.script != [] {
        ArrivalKeepsOurKeys(v);
      }
    }
  }

  /** What a save that succeeded leaves of the secret it read: the finalizer is on it, every other finalizer, key and label
      is as it was, and the stamp is set. */
  lemma ASaveKeepsTheRest(w: World, c: Creds, stamp: Stamp)
    requires !Save(w, c, stamp).error
    ensures w.script != [] && Save(w, c, stamp).world.secret.Some?
    ensures var read, saved := Arrival(w).secret, Save(w, c, stamp).world.secret.value;
            && CREDENTIALS_FINALIZER in saved.finalizers
            && Others(saved.finalizers, CREDENTIALS_FINALIZER) ==
                 (if read.Some? then Others(read.value.finalizers, CREDENTIALS_FINALIZER) else [])
            && (forall k :: !Ours(k) ==>
                  (k in saved.data <==> read.Some? && k in read.value.data) && (k in saved.data ==> saved.data[k] == read.value.data[k]))
            && (forall k :: k in stamp.labels ==> k in saved.labels && saved.labels[k] == stamp.labels[k])
            && (forall k :: k !in stamp.labels ==>
                  (k in saved.labels <==> read.Some? && k in read.value.labels) &&
                  (k in saved.labels ==> saved.labels[k] == read.value.labels[k]))
            && (stamp.owner.Some? ==> saved.owner == stamp.owner)
  {
    var read := Arrival(w).secret;
    if read.Some? {
      ForeignFinalizersStay(read.value.finalizers, CREDENTIALS_FINALIZER);
    }
  }

  /** A save whose read fails writes nothing. */
  lemma AFailedReadStoresNothing(w: World, c: Creds, stamp: Stamp)
    requires Get(w).error
    ensures Save(w, c, stamp).error
    ensures Save(w, c, stamp).world.secret == if w.script == [] then w.secret else Arrival(w).secret
  {
  }

  /** Memory is loaded from every secret that holds anything, and with what it holds: a key that is missing reads as empty. */
  lemma LoadedExactly(s: Option<Secret>)
    ensures Load(s).Some? <==> s.Some? && s.value.data != map[]
    ensures Load(s).Some? ==>
              (Load(s).value.token != "" ==> s.value.data.Items >= {(TOKEN_KEY, Load(s).value.token)}) &&
              (Load(s).value.login != "" ==> s.value.data.Items >= {(USERNAME_KEY, Load(s).value.login)}) &&
              (Load(s).value.password != "" ==> s.value.data.Items >= {(PASSWORD_KEY, Load(s).value.password)})
  {
  }

  /** The last token that was set, or else the given one. */
  function LastToken(ops: seq<Op>, loaded: string): string {
    if ops == [] then loaded
    else if ops[|ops| - 1].UpdateToken? then ops[|ops| - 1].token
    else LastToken(ops[..|ops| - 1], loaded)
  }

  /** The token in memory is the last one that was set, whatever fails: an empty one blanks it. */
  lemma {:induction false} MemoryHasTheLastToken(s: State, ops: seq<Op>, stamp: Stamp)
    ensures PerformAll(s, ops, stamp).creds.token == LastToken(ops, s.creds.token)
  {
    if ops != [] {
      MemoryHasTheLastToken(s, ops[..|ops| - 1], stamp);
    }
  }

  /** Write-through: while all saves succeed, the stored token is the one in memory and the stored login is the last
      complete pair, or the loaded one: an incomplete SetLogin does not destroy it. */
  lemma {:induction false} WriteThrough(s: State, ops: seq<Op>, stamp: Stamp)
    requires Load(s.world.secret) == Some(s.creds)
    requires PerformAll(s, ops, stamp).ok
    ensures var t := PerformAll(s, ops, stamp);
            && StoredToken(t.world) == t.creds.token == LastToken(ops, s.creds.token)
            && StoredPair(t.world) == LastComplete(ops, StoredPair(s.world))
  {
    MemoryHasTheLastToken(s, ops, stamp);
    if ops != [] {
      WriteThrough(s, ops[..|ops| - 1], stamp);
      var t := PerformAll(s, ops[..|ops| - 1], stamp);
      match ops[|ops| - 1] {
        case UpdateToken(token) =>
          SaveStoresTheCredentials(t.world, t.creds.(token := token), stamp);
          InMemoryPairIsTheLastSet(s, ops[..|ops| - 1], stamp);
        case SetLogin(login, password) =>
          SaveStoresTheCredentials(t.world, t.creds.(login := login, password := password), stamp);
      }
    }
  }

  /** The pair in memory, when complete, is the last complete pair. */
  lemma {:induction false} InMemoryPairIsTheLastSet(s: State, ops: seq<Op>, stamp: Stamp)
    requires Load(s.world.secret) == Some(s.creds)
    ensures var c := PerformAll(s, ops, stamp).creds;
            Complete((c.login, c.password)) ==> (c.login, c.password) == LastComplete(ops, StoredPair(s.world))
  {
    if ops != [] {
      InMemoryPairIsTheLastSet(s, ops[..|ops| - 1], stamp);
    }
  }

  predicate WasSet(ops: seq<Op>, pair: (string, string)) {
    exists i :: 0 <= i < |ops| && ops[i] == SetLogin(pair.0, pair.1)
  }

  /** Whatever fails: the stored login is the loaded pair or a complete pair that was set, never a mixture of two. */
  lemma {:induction false} StoredLoginIsNeverTorn(s: State, ops: seq<Op>, stamp: Stamp)
    requires Load(s.world.secret) == Some(s.creds)
    ensures var t := PerformAll(s, ops, stamp);
            var pair := StoredPair(t.world);
            (pair == StoredPair(s.world) || (Complete(pair) && WasSet(ops, pair))) &&
            ((t.creds.login, t.creds.password) == StoredPair(s.world) || WasSet(ops, (t.creds.login, t.creds.password)))
  {
    if ops != [] {
      var prior := ops[..|ops| - 1];
      StoredLoginIsNeverTorn(s, prior, stamp);
      var t := PerformAll(s, prior, stamp);
      var u := PerformAll(s, ops, stamp);
      forall pair | WasSet(prior, pair) ensures WasSet(ops, pair) {
        var i :| 0 <= i < |prior| && prior[i] == SetLogin(pair.0, pair.1);
        assert ops[i] == prior[i];
      }
      SaveStoresTheCredentials(t.world, u.creds, stamp);
      if ops[|ops| - 1].SetLogin? {
        assert WasSet(ops, (u.creds.login, u.creds.password));
      }
    }
  }

  /** A complete stored login outlives every run, and a refresh brings it back into memory together with the token. */
  lemma {:induction false} RefreshRecoversTheLogin(s: State, ops: seq<Op>, stamp: Stamp)
    requires Load(s.world.secret) == Some(s.creds) && Complete(StoredPair(s.world))
    ensures var t := PerformAll(s, ops, stamp);
            var again := Load(t.world.secret);
            && again.Some? && again.value.Login() == Some(StoredPair(t.world))
            && (t.ok ==> again.value == Creds(t.creds.token, LastComplete(ops, StoredPair(s.world)).0,
                                              LastComplete(ops, StoredPair(s.world)).1))
  {
    StoredLoginIsNeverTorn(s, ops, stamp);
    if PerformAll(s, ops, stamp).ok {
      WriteThrough(s, ops, stamp);
    }
  }

  // ----- in place

  class SccCredentials {
    var systemToken: string
    var systemLogin: string
    var password: string

    constructor ()
      ensures View() == Creds("", "", "")
    {
      systemToken, systemLogin, password := "", "", "";
    }

    function View(): Creds
      reads this
    {
      Creds(systemToken, systemLogin, password)
    }

    method UpdateToken(newToken: string)
      modifies this
      ensures View() == old(View()).(token := newToken)
    {
      systemToken := newToken;
    }

    method SetLogin(newLogin: string, newPassword: string)
      modifies this
      ensures View() == old(View()).(login := newLogin, password := newPassword)
    {
      systemLogin := newLogin;
      password := newPassword;
    }

    method Login() returns (pair: Option<(string, string)>)
      ensures pair == View().Login()
    {
      var configured := View().Type();
      if configured == Unconfigured || configured == TokenOnly {
        return None;
      }
      pair := Some((systemLogin, password));
    }
  }

  class Server {
    var world: World

    constructor (w: World)
      ensures world == w
    {
      world := w;
    }
  }

  class SecretsAdapter {
    const server: Server
    const stamp: Stamp
    const credentials: SccCredentials

    constructor (s: Server, st: Stamp)
      ensures server == s && stamp == st && fresh(credentials) && credentials.View() == Creds("", "", "")
    {
      server, stamp := s, st;
      credentials := new SccCredentials();
    }

    /** From the informer cache; what it holds is up to the informer. */
    method LoadCredentials(cached: Option<Secret>) returns (ok: bool)
      modifies credentials
      ensures ok <==> Load(cached).Some?
      ensures credentials.View() == if ok then Load(cached).value else old(credentials.View())
    {
      if cached.None? || |cached.value.data| == 0 {
        return false;
      }
      assert cached.value.data != map[];
      credentials.SetLogin(Value(cached.value.data, USERNAME_KEY), Value(cached.value.data, PASSWORD_KEY));
      credentials.UpdateToken(Value(cached.value.data, TOKEN_KEY));
      ok := true;
    }

    method SaveCredentials() returns (ok: bool)
      modifies server
      ensures Read(server.world, !ok) == Save(old(server.world), credentials.View(), stamp)
    {
      var got := Get(server.world);
      server.world := got.world;
      if got.error {
        return false;
      }
      var create := got.world.secret.None?;
      var secret := if create then Secret(map[], [], map[], None) else got.world.secret.value;
      var login := credentials.Login();
      if login.Some? {
        secret := secret.(data := secret.data[USERNAME_KEY := login.value.0]);
        secret := secret.(data := secret.data[PASSWORD_KEY := login.value.1]);
      }
      secret := secret.(data := secret.data[TOKEN_KEY := credentials.systemToken]);
      secret := secret.(finalizers := Added(secret.finalizers, CREDENTIALS_FINALIZER), labels := secret.labels + stamp.labels);
      if stamp.owner.Some? {
        secret := secret.(owner := stamp.owner);
      }
      var put := Put(server.world, secret, if create then None else Some(got.world.version));
      server.world, ok := put.world, !put.error;
    }

    method UpdateToken(newToken: string) returns (ok: bool)
      modifies server, credentials
      ensures var was := State(old(server.world), old(credentials.View()), true);
              State(server.world, credentials.View(), ok) == Perform(was, Op.UpdateToken(newToken), stamp)
    {
      if newToken == "" && credentials.systemToken == "" {
        return true;
      }
      credentials.UpdateToken(newToken);
      ok := SaveCredentials();
    }

    method SetLogin(newUser: string, newPass: string) returns (ok: bool)
      modifies server, credentials
      ensures var was := State(old(server.world), old(credentials.View()), true);
              State(server.world, credentials.View(), ok) == Perform(was, Op.SetLogin(newUser, newPass), stamp)
    {
      credentials.SetLogin(newUser, newPass);
      ok := SaveCredentials();
    }

    method HasAuthentication(cached: Option<Secret>) returns (yes: bool)
      modifies credentials
      ensures yes <==> Load(cached).Some? && Load(cached).value.token != "" &&
                       Complete((Load(cached).value.login, Load(cached).value.password))
    {
      var ok := LoadCredentials(cached);
      yes := ok && credentials.View().Type().Both?;
    }
  }
}
