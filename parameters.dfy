/** The parameter cache of test/TestEnv.py: the `PARAMETERS` dictionary, which
    `GetValue` and its wrappers fill on first use from the cache, the
    `CX_ORACLE_TEST_<name>` environment variable or a terminal prompt, and
    which `GetClientVersion` and `GetServerVersion` use to keep the version
    tuples. The process-wide dictionary is an object passed explicitly; the
    environment is a map and the terminal a function from the prompt shown to
    the line the user types. */
module Parameters {
  import opened Wrappers
  import opened PyStr
  import opened Versions

  const DefaultMainUser := "pythontest"
  const DefaultProxyUser := "pythontestproxy"
  const DefaultConnectString := "localhost/orclpdb1"
  const DefaultAdminUser := "admin"

  /** Prefix of the environment variable consulted for a parameter. */
  const EnvPrefix := "CX_ORACLE_TEST_"

  const MainUserKey := "MAIN_USER"
  const MainPasswordKey := "MAIN_PASSWORD"
  const ProxyUserKey := "PROXY_USER"
  const ProxyPasswordKey := "PROXY_PASSWORD"
  const ConnectStringKey := "CONNECT_STRING"
  const AdminUserKey := "ADMIN_USER"
  const AdminPasswordKey := "ADMIN_PASSWORD"
  const ClientVersionKey := "CLIENT_VERSION"
  const ServerVersionKey := "SERVER_VERSION"

  /** A value of `PARAMETERS`: a string setting, or a version tuple. */
  datatype Setting = Text(text: string) | Version(parts: seq<int>)

  /** A prompt shown on the terminal: its text and whether the typed input
      is echoed (`input`) or masked (`getpass`). */
  datatype Prompt = Prompt(text: string, echo: bool)

  type Environment = map<string, string>

  /** What the user types in answer to a prompt with the given text. */
  type Terminal = string -> string

  predicate IsVersionKey(name: string) {
    name == ClientVersionKey || name == ServerVersionKey
  }

  /** The version tuples live under the two version names and nowhere else. */
  predicate WellTyped(parameters: map<string, Setting>) {
    forall name :: name in parameters ==> (parameters[name].Version? <==> IsVersionKey(name))
  }

  /** Every name a prompt was shown for is cached, and none was asked twice. */
  predicate AskedOnce(asked: seq<string>, parameters: map<string, Setting>) {
    && (forall i, j :: 0 <= i < j < |asked| ==> asked[i] != asked[j])
    && (forall i :: 0 <= i < |asked| ==> asked[i] in parameters)
  }

  /** A cached value is never replaced or removed. */
  predicate Extends(before: map<string, Setting>, after: map<string, Setting>) {
    forall name :: name in before ==> name in after && after[name] == before[name]
  }

  /** Storing a name that was not cached keeps every prompted name cached,
      and recording it as prompted keeps the record free of repeats. */
  lemma AskedOnceAfterStore(asked: seq<string>, parameters: map<string, Setting>,
                            name: string, value: Setting, prompted: bool)
    requires AskedOnce(asked, parameters) && name !in parameters
    ensures AskedOnce(asked + (if prompted then [name] else []), parameters[name := value])
  {
    var asked' := asked + (if prompted then [name] else []);
    forall i | 0 <= i < |asked'|
      ensures asked'[i] in parameters[name := value]
    {
      if i < |asked| {
        assert asked'[i] == asked[i];
      }
    }
  }

  lemma ExtendsTransitive(a: map<string, Setting>, b: map<string, Setting>, c: map<string, Setting>)
    requires Extends(a, b) && Extends(b, c)
    ensures Extends(a, c)
  {
  }

  /** The prompt `GetValue` shows after the label: the default in brackets when there is one,
      then ": "; input is echoed exactly when there is a default. */
  function PromptFor(caption: string, defaultValue: string): Prompt {
    if defaultValue != "" then Prompt(caption + " [" + defaultValue + "]: ", true)
    else Prompt(caption + ": ", false)
  }

  /** The value a reply gives: echoed input is stripped, masked input is
      taken as typed, and an empty answer falls back to the default. */
  function Answer(typed: string, prompt: Prompt, defaultValue: string): string {
    var value := if prompt.echo then Strip(typed) else typed;
    if value == "" then defaultValue else value
  }

  /** Where `GetValue` takes a parameter from, in priority order: the cache,
      then the environment variable, then the terminal. The second component
      is the prompt shown, if any. */
  function Resolve(parameters: map<string, Setting>, name: string, caption: string,
                   defaultValue: string, env: Environment, reply: Terminal): (Setting, Option<Prompt>)
  {
    if name in parameters then (parameters[name], None)
    else if EnvPrefix + name in env then (Text(env[EnvPrefix + name]), None)
    else
      var prompt := PromptFor(caption, defaultValue);
      (Text(Answer(reply(prompt.text), prompt, defaultValue)), Some(prompt))
  }

  /** The cache after `GetValue(name, ...)`: the old cache with exactly one
      more name, when it was missing, and nothing replaced. */
  function Resolved(parameters: map<string, Setting>, name: string, caption: string,
                    defaultValue: string, env: Environment, reply: Terminal): (r: map<string, Setting>)
    ensures r.Keys == parameters.Keys + {name}
    ensures Extends(parameters, r)
    ensures name in parameters ==> r == parameters
  {
    parameters[name := Resolve(parameters, name, caption, defaultValue, env, reply).0]
  }

  /** Once a name is cached, resolving it again returns the same value and
      shows no prompt, whatever the caption, default, environment and terminal. */
  lemma ResolveIsMemoised(parameters: map<string, Setting>, name: string, caption: string,
                          defaultValue: string, env: Environment, reply: Terminal,
                          caption': string, defaultValue': string, env': Environment, reply': Terminal)
    ensures var after := Resolved(parameters, name, caption, defaultValue, env, reply);
            && Extends(parameters, after)
            && Resolve(after, name, caption', defaultValue', env', reply')
               == (Resolve(parameters, name, caption, defaultValue, env, reply).0, None)
  {
  }

  /** A prompt is shown exactly when the name is neither cached nor set in
      the environment; an environment value is taken as it is, even when
      empty. */
  lemma ResolvePromptsOnlyAsLastResort(parameters: map<string, Setting>, name: string, caption: string,
                                       defaultValue: string, env: Environment, reply: Terminal)
    ensures var (value, prompt) := Resolve(parameters, name, caption, defaultValue, env, reply);
            && (prompt.Some? <==> name !in parameters && EnvPrefix + name !in env)
            && (name !in parameters && EnvPrefix + name in env ==> value == Text(env[EnvPrefix + name]))
  {
  }

  /** On the prompt path the default is shown in brackets and the input echoed
      exactly when the default is non-empty; the label is followed by ": ". */
  lemma PromptShowsDefault(parameters: map<string, Setting>, name: string, caption: string,
                           defaultValue: string, env: Environment, reply: Terminal)
    requires name !in parameters && EnvPrefix + name !in env
    ensures var prompt := Resolve(parameters, name, caption, defaultValue, env, reply).1.value;
            && (prompt.echo <==> defaultValue != "")
            && (defaultValue != "" ==> prompt.text == caption + " [" + defaultValue + "]: ")
            && (defaultValue == "" ==> prompt.text == caption + ": ")
  {
  }

  /** With a default, a blank reply gives the default and any other reply
      gives its stripped text, so the answer is never empty; without a
      default, the masked answer is kept exactly as typed, spaces and all. */
  lemma PromptAnswerShape(parameters: map<string, Setting>, name: string, caption: string,
                          defaultValue: string, env: Environment, reply: Terminal)
    requires name !in parameters && EnvPrefix + name !in env
    ensures var (value, prompt) := Resolve(parameters, name, caption, defaultValue, env, reply);
            && value.Text?
            && (defaultValue != "" ==>
                  value.text != "" && (value.text == defaultValue || Strip(value.text) == value.text))
            && (defaultValue != "" && AllSpace(reply(prompt.value.text)) ==> value == Text(defaultValue))
            && (defaultValue != "" && !AllSpace(reply(prompt.value.text)) ==>
                  value == Text(Strip(reply(prompt.value.text))))
            && (defaultValue == "" ==> value.text == reply(prompt.value.text))
  {
    var prompt := PromptFor(caption, defaultValue);
    StripIdempotent(reply(prompt.text));
    StripEmptyIffAllSpace(reply(prompt.text));
  }

  /** A name other than the two version names always resolves to a string
      in a well-typed cache, and the cache stays well-typed. */
  lemma ResolveKeepsTypes(parameters: map<string, Setting>, name: string, caption: string,
                          defaultValue: string, env: Environment, reply: Terminal)
    requires WellTyped(parameters) && !IsVersionKey(name)
    ensures Resolve(parameters, name, caption, defaultValue, env, reply).0.Text?
    ensures WellTyped(Resolved(parameters, name, caption, defaultValue, env, reply))
  {
  }

  /** What a lookup of `name` adds to the record of prompted names: the
      name itself when it is neither cached nor set in the environment. */
  function Asks(parameters: map<string, Setting>, env: Environment, name: string): seq<string> {
    if name !in parameters && EnvPrefix + name !in env then [name] else []
  }

  /** The cache once `GetConnection()` has resolved its arguments: the main
      user, then the main password captioned with that user, then the
      connect string. */
  function Connected(parameters: map<string, Setting>, env: Environment, reply: Terminal): (r: map<string, Setting>)
    requires WellTyped(parameters)
    ensures WellTyped(r) && Extends(parameters, r)
    ensures r.Keys == parameters.Keys + {MainUserKey, MainPasswordKey, ConnectStringKey}
  {
    var withUser := Resolved(parameters, MainUserKey, "Main User Name", DefaultMainUser, env, reply);
    ResolveKeepsTypes(parameters, MainUserKey, "Main User Name", DefaultMainUser, env, reply);
    var caption := "Password for " + withUser[MainUserKey].text;
    var withPassword := Resolved(withUser, MainPasswordKey, caption, "", env, reply);
    ResolveKeepsTypes(withUser, MainPasswordKey, caption, "", env, reply);
    ResolveKeepsTypes(withPassword, ConnectStringKey, "Connect String", DefaultConnectString, env, reply);
    var r := Resolved(withPassword, ConnectStringKey, "Connect String", DefaultConnectString, env, reply);
    ExtendsTransitive(parameters, withUser, withPassword);
    ExtendsTransitive(parameters, withPassword, r);
    r
  }

  class ParameterCache {
    /** `PARAMETERS`. */
    var parameters: map<string, Setting>
    /** The names a prompt has been shown for, oldest first. */
    ghost var asked: seq<string>

    ghost predicate Valid()
      reads this
    {
      WellTyped(parameters) && AskedOnce(asked, parameters)
    }

    constructor()
      ensures Valid() && parameters == map[] && asked == []
    {
      parameters := map[];
      asked := [];
    }

    /** `GetValue(name, label, defaultValue)`. */
    method GetValue(name: string, caption: string, defaultValue: string,
                    env: Environment, reply: Terminal) returns (value: Setting, prompt: Option<Prompt>)
      modifies this
      ensures (value, prompt) == Resolve(old(parameters), name, caption, defaultValue, env, reply)
      ensures parameters == old(parameters)[name := value]
      ensures Extends(old(parameters), parameters)
      ensures asked == old(asked) + Asks(old(parameters), env, name)
      ensures AskedOnce(old(asked), old(parameters)) ==> AskedOnce(asked, parameters)
      ensures old(Valid()) && !IsVersionKey(name) ==> Valid() && value.Text?
    {
      if name in parameters {
        value, prompt := parameters[name], None;
        assert parameters[name := value] == parameters;
        return;
      }
      var envName := EnvPrefix + name;
      var text: string;
      prompt := None;
      if envName in env {
        text := env[envName];
      } else {
        var shown := caption;
        if defaultValue != "" {
          shown := shown + " [" + defaultValue + "]";
        }
        shown := shown + ": ";
        assert shown == PromptFor(caption, defaultValue).text by {
          if defaultValue != "" {
            assert caption + " [" + defaultValue + "]" + ": " == caption + " [" + defaultValue + "]: ";
          }
        }
        if defaultValue != "" {
          text := Strip(reply(shown));
          prompt := Some(Prompt(shown, true));
        } else {
          text := reply(shown);
          prompt := Some(Prompt(shown, false));
        }
        if text == "" {
          text := defaultValue;
        }
        assert prompt == Some(PromptFor(caption, defaultValue));
      }
      value := Text(text);
      assert (value, prompt) == Resolve(parameters, name, caption, defaultValue, env, reply);
      parameters := parameters[name := value];
      if prompt.Some? {
        asked := asked + [name];
      }
      if AskedOnce(old(asked), old(parameters)) {
        AskedOnceAfterStore(old(asked), old(parameters), name, value, prompt.Some?);
      }
      if old(WellTyped(parameters)) && !IsVersionKey(name) {
        ResolveKeepsTypes(old(parameters), name, caption, defaultValue, env, reply);
      }
    }

    /** `GetMainUser()`. */
    method GetMainUser(env: Environment, reply: Terminal) returns (user: string)
      requires Valid()
      modifies this
      ensures Valid()
      ensures parameters == Resolved(old(parameters), MainUserKey, "Main User Name", DefaultMainUser, env, reply)
      ensures parameters[MainUserKey] == Text(user)
      ensures asked == old(asked) + Asks(old(parameters), env, MainUserKey)
    {
      var value, _ := GetValue(MainUserKey, "Main User Name", DefaultMainUser, env, reply);
      user := value.text;
    }

    /** `GetMainPassword()`: resolves the main user first, whose name goes
        into the password prompt. */
    method GetMainPassword(env: Environment, reply: Terminal) returns (password: string)
      requires Valid()
      modifies this
      ensures Valid()
      ensures MainUserKey in parameters && parameters[MainUserKey].Text?
      ensures parameters == Resolved(
                Resolved(old(parameters), MainUserKey, "Main User Name", DefaultMainUser, env, reply),
                MainPasswordKey, "Password for " + parameters[MainUserKey].text, "", env, reply)
      ensures parameters[MainPasswordKey] == Text(password)
      ensures asked == old(asked) + Asks(old(parameters), env, MainUserKey) + Asks(old(parameters), env, MainPasswordKey)
    {
      var user := GetMainUser(env, reply);
      var value, _ := GetValue(MainPasswordKey, "Password for " + user, "", env, reply);
      password := value.text;
    }

    /** `GetProxyUser()`. */
    method GetProxyUser(env: Environment, reply: Terminal) returns (user: string)
      requires Valid()
      modifies this
      ensures Valid()
      ensures parameters == Resolved(old(parameters), ProxyUserKey, "Proxy User Name", DefaultProxyUser, env, reply)
      ensures parameters[ProxyUserKey] == Text(user)
      ensures asked == old(asked) + Asks(old(parameters), env, ProxyUserKey)
    {
      var value, _ := GetValue(ProxyUserKey, "Proxy User Name", DefaultProxyUser, env, reply);
      user := value.text;
    }

    /** `GetProxyPassword()`: resolves the proxy user first, whose name goes
        into the password prompt. */
    method GetProxyPassword(env: Environment, reply: Terminal) returns (password: string)
      requires Valid()
      modifies this
      ensures Valid()
      ensures ProxyUserKey in parameters && parameters[ProxyUserKey].Text?
      ensures parameters == Resolved(
                Resolved(old(parameters), ProxyUserKey, "Proxy User Name", DefaultProxyUser, env, reply),
                ProxyPasswordKey, "Password for " + parameters[ProxyUserKey].text, "", env, reply)
      ensures parameters[ProxyPasswordKey] == Text(password)
      ensures asked == old(asked) + Asks(old(parameters), env, ProxyUserKey) + Asks(old(parameters), env, ProxyPasswordKey)
    {
      var user := GetProxyUser(env, reply);
      var value, _ := GetValue(ProxyPasswordKey, "Password for " + user, "", env, reply);
      password := value.text;
    }

    /** `GetConnectString()`. */
    method GetConnectString(env: Environment, reply: Terminal) returns (connectString: string)
      requires Valid()
      modifies this
      ensures Valid()
      ensures parameters == Resolved(old(parameters), ConnectStringKey, "Connect String", DefaultConnectString, env, reply)
      ensures parameters[ConnectStringKey] == Text(connectString)
      ensures asked == old(asked) + Asks(old(parameters), env, ConnectStringKey)
    {
      var value, _ := GetValue(ConnectStringKey, "Connect String", DefaultConnectString, env, reply);
      connectString := value.text;
    }

    /** `GetAdminConnectString()`: "user/password@connect-string" for the
        administrative user. */
    method GetAdminConnectString(env: Environment, reply: Terminal) returns (connectString: string)
      requires Valid()
      modifies this
      ensures Valid()
      ensures AdminUserKey in parameters && parameters[AdminUserKey].Text?
      ensures AdminPasswordKey in parameters && parameters[AdminPasswordKey].Text?
      ensures parameters == Resolved(Resolved(
                Resolved(old(parameters), AdminUserKey, "Administrative user", DefaultAdminUser, env, reply),
                AdminPasswordKey, "Password for " + parameters[AdminUserKey].text, "", env, reply),
                ConnectStringKey, "Connect String", DefaultConnectString, env, reply)
      ensures connectString == parameters[AdminUserKey].text + "/" + parameters[AdminPasswordKey].text
                               + "@" + parameters[ConnectStringKey].text
      ensures asked == old(asked) + Asks(old(parameters), env, AdminUserKey) + Asks(old(parameters), env, AdminPasswordKey)
                       + Asks(old(parameters), env, ConnectStringKey)
    {
      var adminUser, _ := GetValue(AdminUserKey, "Administrative user", DefaultAdminUser, env, reply);
      var adminPassword, _ := GetValue(AdminPasswordKey, "Password for " + adminUser.text, "", env, reply);
      var target := GetConnectString(env, reply);
      connectString := adminUser.text + "/" + adminPassword.text + "@" + target;
    }

    /** The arguments `GetConnection()` passes to `cx_Oracle.connect`: the
        main user, the main password and the connect string, resolved in that
        order. Opening the connection is not part of this model. */
    method GetConnectionArguments(env: Environment, reply: Terminal)
      returns (user: string, password: string, connectString: string)
      requires Valid()
      modifies this
      ensures Valid()
      ensures MainUserKey in parameters && parameters[MainUserKey] == Text(user)
      ensures parameters == Resolved(Resolved(
                Resolved(old(parameters), MainUserKey, "Main User Name", DefaultMainUser, env, reply),
                MainPasswordKey, "Password for " + user, "", env, reply),
                ConnectStringKey, "Connect String", DefaultConnectString, env, reply)
      ensures parameters[MainPasswordKey] == Text(password)
      ensures parameters[ConnectStringKey] == Text(connectString)
      ensures Extends(old(parameters), parameters)
      ensures parameters.Keys == old(parameters).Keys + {MainUserKey, MainPasswordKey, ConnectStringKey}
      ensures parameters == Connected(old(parameters), env, reply)
      ensures asked == old(asked) + Asks(old(parameters), env, MainUserKey) + Asks(old(parameters), env, MainPasswordKey)
                       + Asks(old(parameters), env, ConnectStringKey)
    {
      ghost var p0 := parameters;
      user := GetMainUser(env, reply);
      ghost var p1 := parameters;
      password := GetMainPassword(env, reply);
      ghost var p2 := parameters;
      assert p2 == Resolved(p1, MainPasswordKey, "Password for " + user, "", env, reply);
      connectString := GetConnectString(env, reply);
      ExtendsTransitive(p0, p1, p2);
      ExtendsTransitive(p0, p2, parameters);
    }

    /** `GetClientVersion()`: `clientversion()[:2]`, looked up only when not
        cached yet. */
    method GetClientVersion(clientVersion: seq<int>) returns (version: seq<int>)
      requires Valid()
      modifies this
      ensures Valid() && asked == old(asked)
      ensures ClientVersionKey in old(parameters) ==>
                version == old(parameters)[ClientVersionKey].parts && parameters == old(parameters)
      ensures ClientVersionKey !in old(parameters) ==>
                version == Take2(clientVersion) && parameters == old(parameters)[ClientVersionKey := Version(version)]
    {
      if ClientVersionKey in parameters {
        version := parameters[ClientVersionKey].parts;
        return;
      }
      version := Take2(clientVersion);
      parameters := parameters[ClientVersionKey := Version(version)];
    }

    /** `GetServerVersion()`: when not cached, opens a connection (which
        resolves and caches its arguments) and parses the first two
        components of its version string; a string that does not parse
        raises after the connection's arguments were cached, and no version
        is cached. */
    method GetServerVersion(env: Environment, reply: Terminal, serverVersion: string)
      returns (version: Option<seq<int>>)
      requires Valid()
      modifies this
      ensures Valid() && Extends(old(parameters), parameters)
      ensures parameters.Keys <= old(parameters).Keys + {MainUserKey, MainPasswordKey, ConnectStringKey, ServerVersionKey}
      ensures ServerVersionKey in old(parameters) ==>
                version == Some(old(parameters)[ServerVersionKey].parts)
                && parameters == old(parameters) && asked == old(asked)
      ensures ServerVersionKey !in old(parameters) ==> version == ParseVersion(serverVersion)
      ensures ServerVersionKey in parameters <==> version.Some?
      ensures version.Some? ==> parameters[ServerVersionKey] == Version(version.value)
      ensures ServerVersionKey !in old(parameters) ==>
                asked == old(asked) + Asks(old(parameters), env, MainUserKey) + Asks(old(parameters), env, MainPasswordKey)
                       + Asks(old(parameters), env, ConnectStringKey)
      ensures ServerVersionKey !in old(parameters) ==>
                var connected := Connected(old(parameters), env, reply);
                parameters == if version.Some? then connected[ServerVersionKey := Version(version.value)] else connected
    {
      if ServerVersionKey in parameters {
        version := Some(parameters[ServerVersionKey].parts);
        return;
      }
      var _, _, _ := GetConnectionArguments(env, reply);
      ghost var connected := parameters;
      assert ServerVersionKey !in connected;
      version := ParseVersion(serverVersion);
      if version.Some? {
        parameters := parameters[ServerVersionKey := Version(version.value)];
        assert Extends(connected, parameters);
      }
    }

    /** `SkipSodaTests()`: the client version decides first; the server
        version is only obtained when the client passes its minimum. `None`
        stands for the `ValueError` of an unparsable server version. */
    method SkipSodaTests(clientVersion: seq<int>, env: Environment, reply: Terminal, serverVersion: string)
      returns (skip: Option<bool>)
      requires Valid()
      modifies this
      ensures Valid() && Extends(old(parameters), parameters)
      ensures ClientVersionKey in parameters
      ensures ClientVersionKey !in old(parameters) ==> parameters[ClientVersionKey] == Version(Take2(clientVersion))
      ensures var client := parameters[ClientVersionKey].parts;
              && (Less(client, SodaMinClient) ==>
                    skip == Some(true) && asked == old(asked)
                    && parameters == old(parameters)[ClientVersionKey := Version(client)])
              && (!Less(client, SodaMinClient) ==>
                    var withClient := old(parameters)[ClientVersionKey := Version(client)];
                    && (ServerVersionKey in old(parameters) ==>
                          && skip == Some(SodaTestsSkipped(client, old(parameters)[ServerVersionKey].parts))
                          && parameters == withClient && asked == old(asked))
                    && (ServerVersionKey !in old(parameters) ==>
                          asked == old(asked) + Asks(old(parameters), env, MainUserKey)
                                   + Asks(old(parameters), env, MainPasswordKey) + Asks(old(parameters), env, ConnectStringKey))
                    && (ServerVersionKey !in old(parameters) ==>
                          var connected := Connected(withClient, env, reply);
                          match ParseVersion(serverVersion)
                          case None => skip == None && parameters == connected
                          case Some(server) =>
                            && skip == Some(SodaTestsSkipped(client, server))
                            && parameters == connected[ServerVersionKey := Version(server)]))
    {
      ghost var before := parameters;
      var client := GetClientVersion(clientVersion);
      assert parameters == before[ClientVersionKey := Version(client)];
      if Less(client, SodaMinClient) {
        return Some(true);
      }
      var server := GetServerVersion(env, reply, serverVersion);
      assert parameters[ClientVersionKey] == Version(client);
      if server.None? {
        skip := None;
      } else if Less(server.value, SodaMinServer) {
        skip := Some(true);
      } else if Less(SodaCutoff, server.value) && Less(client, SodaCutoff) {
        skip := Some(true);
      } else {
        skip := Some(false);
      }
      assert skip == if server.None? then None else Some(SodaTestsSkipped(client, server.value));
    }
  }

  /** The first documented example of `SkipSodaTests`, from an empty cache:
      client (19, 0) with a server string that parses to (20, 2) is skipped. */
  method SkipSodaTestsExample(env: Environment, reply: Terminal, serverVersion: string)
    returns (skip: Option<bool>)
    requires ParseVersion(serverVersion) == Some([20, 2])
    ensures skip == Some(true)
  {
    var cache := new ParameterCache();
    skip := cache.SkipSodaTests([19, 0], env, reply, serverVersion);
    SodaTestsExamples();
  }
}
