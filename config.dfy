/** Reading the bot's settings from the environment (config/__init__.py).
    The environment is a map from variable names to their text. */
module Config {
  import opened Wrappers
  import opened Text

  datatype ConfigError =
    | MissingVariable(name: string)   // absent or empty
    | BadFormat(name: string)         // int() raised
    | EmptyList(name: string)         // a required list parsed to []

  datatype EnvValue =
    | IntValue(i: int)
    | ListValue(items: seq<string>)
    | IntListValue(ints: seq<int>)
    | RawValue(raw: string)

  /** An item of a parsed list: non-empty, no surrounding whitespace. */
  predicate Clean(x: string) {
    x != [] && !IsSpace(x[0]) && !IsSpace(x[|x| - 1])
  }

  /** `[p.strip() for p in pieces if p.strip()]`. */
  function CleanItems(pieces: seq<string>): (r: seq<string>)
    ensures |r| <= |pieces|
    ensures forall i :: 0 <= i < |r| ==> Clean(r[i])
  {
    if pieces == [] then []
    else
      var t := Strip(pieces[0]);
      StripEnds(pieces[0]);
      if t == [] then CleanItems(pieces[1..]) else [t] + CleanItems(pieces[1..])
  }

  /** The items of a comma-separated value, in order. */
  function ListItems(value: string): (r: seq<string>)
    ensures |r| <= |Split(value, ',')|
    ensures forall i :: 0 <= i < |r| ==> Clean(r[i])
  {
    CleanItems(Split(value, ','))
  }

  /** `[int(x) for x in items]`: None as soon as one item is not an integer. */
  function ParseAll(items: seq<string>): (r: Option<seq<int>>)
    ensures r.Some? <==> forall i :: 0 <= i < |items| ==> PyInt(items[i]).Some?
    ensures r.Some? ==> |r.value| == |items|
                        && forall i :: 0 <= i < |items| ==> PyInt(items[i]) == Some(r.value[i])
  {
    if items == [] then Some([])
    else
      match PyInt(items[0])
      case None => None
      case Some(n) =>
        match ParseAll(items[1..])
        case None => None
        case Some(ns) => Some([n] + ns)
  }

  function Lookup(env: map<string, string>, name: string): Option<string> {
    if name in env then Some(env[name]) else None
  }

  /** `get_env_var`: a missing or empty variable is an error before any
      conversion; then the first flag set among isInt, isList, isIntList
      decides the conversion, and with none set the text is returned. */
  function GetEnvVar(env: map<string, string>, name: string, isInt: bool, isList: bool, isIntList: bool)
    : (r: Result<EnvValue, ConfigError>)
    ensures r == Failure(MissingVariable(name)) <==> Lookup(env, name).GetOr("") == ""
    ensures r.Failure? ==> r.error == MissingVariable(name) || r.error == BadFormat(name)
    ensures r.Success? ==> (isInt ==> r.value.IntValue?)
                           && (!isInt && isList ==> r.value.ListValue?)
                           && (!isInt && !isList && isIntList ==> r.value.IntListValue?)
                           && (!isInt && !isList && !isIntList ==> r.value == RawValue(env[name]))
    ensures isInt && Lookup(env, name).GetOr("") != "" ==>
              r == if PyInt(env[name]).Some? then Success(IntValue(PyInt(env[name]).value))
                   else Failure(BadFormat(name))
  {
    var value := Lookup(env, name).GetOr("");
    if value == "" then Failure(MissingVariable(name))
    else if isInt then
      match PyInt(value)
      case Some(n) => Success(IntValue(n))
      case None => Failure(BadFormat(name))
    else if isList then Success(ListValue(ListItems(value)))
    else if isIntList then
      match ParseAll(ListItems(value))
      case Some(ns) => Success(IntListValue(ns))
      case None => Failure(BadFormat(name))
    else Success(RawValue(value))
  }

  /** The list flag yields exactly the clean items; the int-list flag the
      same items converted, or a format error when one does not convert. */
  lemma ListFlags(env: map<string, string>, name: string)
    requires name in env && env[name] != ""
    ensures GetEnvVar(env, name, false, true, false) == Success(ListValue(ListItems(env[name])))
    ensures var items := ListItems(env[name]);
            GetEnvVar(env, name, false, false, true)
              == if ParseAll(items).Some? then Success(IntListValue(ParseAll(items).value))
                 else Failure(BadFormat(name))
  {
  }

  /** Clean items without commas survive being joined with ',' and parsed. */
  lemma {:induction false} ListItemsRoundTrip(xs: seq<string>)
    requires forall i :: 0 <= i < |xs| ==> Clean(xs[i]) && ',' !in xs[i]
    ensures ListItems(Join(xs, ',')) == xs
  {
    if xs != [] {
      SplitJoin(xs, ',');
      CleanItemsOfClean(xs);
    }
  }

  lemma {:induction false} CleanItemsOfClean(xs: seq<string>)
    requires forall i :: 0 <= i < |xs| ==> Clean(xs[i])
    ensures CleanItems(xs) == xs
  {
    if xs != [] {
      StripClean(xs[0]);
      CleanItemsOfClean(xs[1..]);
      assert xs == [xs[0]] + xs[1..];
    }
  }

  function IntTexts(ns: seq<int>): (r: seq<string>)
    ensures |r| == |ns| && forall i :: 0 <= i < |ns| ==> r[i] == IntToString(ns[i])
  {
    if ns == [] then [] else [IntToString(ns[0])] + IntTexts(ns[1..])
  }

  /** A comma-separated list of integers parses back to those integers;
      an empty list is text "" and so reads as a missing variable. */
  lemma IntListRoundTrip(env: map<string, string>, name: string, ns: seq<int>)
    requires name in env && env[name] == Join(IntTexts(ns), ',')
    ensures ns != [] ==> GetEnvVar(env, name, false, false, true) == Success(IntListValue(ns))
    ensures ns == [] ==> GetEnvVar(env, name, false, false, true) == Failure(MissingVariable(name))
  {
    var xs := IntTexts(ns);
    forall i | 0 <= i < |xs| ensures Clean(xs[i]) && ',' !in xs[i] {
      IntToStringHasNo(ns[i], ',');
      IntToStringHasNo(ns[i], ' ');
    }
    ListItemsRoundTrip(xs);
    if ns != [] {
      assert env[name] != "" by {
        assert |Join(xs, ',')| >= |xs[0]|;
      }
      forall i | 0 <= i < |xs| ensures PyInt(xs[i]) == Some(ns[i]) {
        IntRoundTrip(ns[i]);
      }
      var r := ParseAll(xs);
      assert r.Some?;
      assert r.value == ns;
    }
  }

  /** The value ",," holds no items. */
  lemma CommasOnly()
    ensures ListItems(",,") == []
  {
    assert Split(",,", ',') == [[], [], []];
  }

  /** The settings the bot reads at startup. */
  datatype Settings = Settings(
    apiId: int,
    apiHash: string,
    phoneNumber: Option<string>,
    password: Option<string>,
    controlGroup: int,
    adminUsers: seq<int>,
    targetChannels: seq<string>)

  /** The module body of config/__init__.py: the required variables in
      order, then the two non-empty checks. */
  function LoadSettings(env: map<string, string>): (r: Result<Settings, ConfigError>)
    ensures r.Success? ==> r.value.adminUsers != [] && r.value.targetChannels != []
    ensures r.Success? ==> forall i :: 0 <= i < |r.value.targetChannels| ==> Clean(r.value.targetChannels[i])
    ensures r.Success? ==> forall name :: name in RequiredNames ==> Lookup(env, name).GetOr("") != ""
    ensures r.Success? ==> r.value.phoneNumber == Lookup(env, "PHONE_NUMBER")
                           && r.value.password == Lookup(env, "PASSWORD")
    ensures r.Success? ==> RequiredNames <= env.Keys
                           && PyInt(env["API_ID"]) == Some(r.value.apiId)
                           && r.value.apiHash == env["API_HASH"]
                           && PyInt(env["CONTROL_GROUP"]) == Some(r.value.controlGroup)
                           && ParseAll(ListItems(env["ADMIN_USERS"])) == Some(r.value.adminUsers)
                           && r.value.targetChannels == ListItems(env["TARGET_CHANNELS"])
  {
    var apiId :- GetEnvVar(env, "API_ID", true, false, false);
    var apiHash :- GetEnvVar(env, "API_HASH", false, false, false);
    var controlGroup :- GetEnvVar(env, "CONTROL_GROUP", true, false, false);
    var admins :- GetEnvVar(env, "ADMIN_USERS", false, false, true);
    var targets :- GetEnvVar(env, "TARGET_CHANNELS", false, true, false);
    if admins.ints == [] then Failure(EmptyList("ADMIN_USERS"))
    else if targets.items == [] then Failure(EmptyList("TARGET_CHANNELS"))
    else
      assert targets.items == ListItems(env["TARGET_CHANNELS"]);
      Success(Settings(apiId.i, apiHash.raw, Lookup(env, "PHONE_NUMBER"), Lookup(env, "PASSWORD"),
                       controlGroup.i, admins.ints, targets.items))
  }

  /** COMMAND_PREFIX: the character that marks a text message as a
      command. */
  const CommandPrefix: string := "."

  const RequiredNames: set<string> := {"API_ID", "API_HASH", "CONTROL_GROUP", "ADMIN_USERS", "TARGET_CHANNELS"}

  /** ADMIN_USERS=",," passes get_env_var and is then rejected as empty. */
  lemma EmptyAdminListRejected(env: map<string, string>)
    requires GetEnvVar(env, "API_ID", true, false, false).Success?
    requires GetEnvVar(env, "API_HASH", false, false, false).Success?
    requires GetEnvVar(env, "CONTROL_GROUP", true, false, false).Success?
    requires GetEnvVar(env, "TARGET_CHANNELS", false, true, false).Success?
    requires "ADMIN_USERS" in env && env["ADMIN_USERS"] == ",,"
    ensures LoadSettings(env) == Failure(EmptyList("ADMIN_USERS"))
  {
    CommasOnly();
  }

  /** Once the five variables convert, the two non-empty checks alone
      decide: an empty ADMIN_USERS list is reported first, then an empty
      TARGET_CHANNELS list, and otherwise the settings load. */
  lemma EmptyListsRejected(env: map<string, string>)
    requires GetEnvVar(env, "API_ID", true, false, false).Success?
    requires GetEnvVar(env, "API_HASH", false, false, false).Success?
    requires GetEnvVar(env, "CONTROL_GROUP", true, false, false).Success?
    requires GetEnvVar(env, "ADMIN_USERS", false, false, true).Success?
    requires GetEnvVar(env, "TARGET_CHANNELS", false, true, false).Success?
    ensures ParseAll(ListItems(env["ADMIN_USERS"])) == Some([]) ==>
              LoadSettings(env) == Failure(EmptyList("ADMIN_USERS"))
    ensures ParseAll(ListItems(env["ADMIN_USERS"])) != Some([]) && ListItems(env["TARGET_CHANNELS"]) == [] ==>
              LoadSettings(env) == Failure(EmptyList("TARGET_CHANNELS"))
    ensures LoadSettings(env).Success? <==>
              ParseAll(ListItems(env["ADMIN_USERS"])) != Some([]) && ListItems(env["TARGET_CHANNELS"]) != []
  {
    ListFlags(env, "ADMIN_USERS");
    ListFlags(env, "TARGET_CHANNELS");
  }
}
