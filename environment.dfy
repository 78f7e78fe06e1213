/** The environment name, its classification, and the two severity tables
    that winston is configured with (logger.service.ts, lines 5 and 48-111). */
module Environment {
  import opened Wrappers
  import opened Text

  /** The four variables that may name the environment, as `process.env` holds them. */
  datatype EnvVars = EnvVars(
    nodeEnv: Option<string>,     // NODE_ENV
    appEnv: Option<string>,      // APP_ENV
    environment: Option<string>, // ENVIRONMENT
    stage: Option<string>)       // STAGE

  /** JavaScript truthiness of a variable: present and not the empty string. */
  predicate IsSet(v: Option<string>)
  {
    v.Some? && v.value != ""
  }

  const Unset := "unset"

  /** Reference definition: the first set value of a list, else `default`. */
  function FirstSet(vs: seq<Option<string>>, default: string): string
  {
    if vs == [] then default
    else if IsSet(vs[0]) then vs[0].value
    else FirstSet(vs[1..], default)
  }

  /** `FirstSet` gives the value at the first set position, and the default
      when no position is set. */
  lemma {:induction false} FirstSetIsFirst(vs: seq<Option<string>>, default: string)
    ensures (forall k | 0 <= k < |vs| :: !IsSet(vs[k])) ==> FirstSet(vs, default) == default
    ensures forall k | 0 <= k < |vs| && IsSet(vs[k]) && (forall j | 0 <= j < k :: !IsSet(vs[j])) ::
      FirstSet(vs, default) == vs[k].value
  {
    if vs != [] && !IsSet(vs[0]) {
      var rest := vs[1..];
      FirstSetIsFirst(rest, default);
      assert forall k | 1 <= k < |vs| :: vs[k] == rest[k - 1];
      if forall k | 0 <= k < |vs| :: !IsSet(vs[k]) {
        assert forall k | 0 <= k < |rest| :: !IsSet(rest[k]);
      }
      forall k | 0 <= k < |vs| && IsSet(vs[k]) && (forall j | 0 <= j < k :: !IsSet(vs[j]))
        ensures FirstSet(vs, default) == vs[k].value
      {
        assert k > 0;
        assert forall j | 0 <= j < k - 1 :: !IsSet(rest[j]);
      }
    }
  }

  /** `NODE_ENV || APP_ENV || ENVIRONMENT || STAGE || 'unset'`. */
  function EnvironmentName(vars: EnvVars): (r: string)
    ensures r != ""
  {
    if IsSet(vars.nodeEnv) then vars.nodeEnv.value
    else if IsSet(vars.appEnv) then vars.appEnv.value
    else if IsSet(vars.environment) then vars.environment.value
    else if IsSet(vars.stage) then vars.stage.value
    else Unset
  }

  /** The environment name is the first set variable in priority order, else "unset". */
  lemma EnvironmentNameIsFirstSet(vars: EnvVars)
    ensures EnvironmentName(vars)
      == FirstSet([vars.nodeEnv, vars.appEnv, vars.environment, vars.stage], Unset)
  {
    var vs := [vars.nodeEnv, vars.appEnv, vars.environment, vars.stage];
    assert vs[1..] == [vars.appEnv, vars.environment, vars.stage];
    assert vs[1..][1..] == [vars.environment, vars.stage];
    assert vs[1..][1..][1..] == [vars.stage];
    assert vs[1..][1..][1..][1..] == [];
    var tail3 := FirstSet([vars.stage], Unset);
    assert [vars.stage][1..] == [];
    assert FirstSet([], Unset) == Unset;
    var tail2 := FirstSet([vars.environment, vars.stage], Unset);
    var tail1 := FirstSet([vars.appEnv, vars.environment, vars.stage], Unset);
    assert tail3 == if IsSet(vars.stage) then vars.stage.value else Unset;
    assert tail2 == if IsSet(vars.environment) then vars.environment.value else tail3;
    assert tail1 == if IsSet(vars.appEnv) then vars.appEnv.value else tail2;
  }

  /** `_isProduction`: the lower-cased name is one of the production aliases. */
  predicate IsProduction(env: string)
  {
    ToLower(env) in ["production", "prod"]
  }

  /** Classification ignores the case of the name. */
  lemma IsProductionIgnoresCase(env: string)
    ensures IsProduction(ToUpper(env)) == IsProduction(env)
    ensures IsProduction(ToLower(env)) == IsProduction(env)
  {
    assert ToLower(ToUpper(env)) == ToLower(env);
    assert ToLower(ToLower(env)) == ToLower(env);
  }

  /** The start-up banner of `_envInfo` is printed exactly for the name "unset"
      (in any case); it claims debug and verbose are disabled, but the name
      selects the development table, where both are enabled. */
  predicate ShowsBanner(env: string)
  {
    ToLower(env) == Unset
  }

  lemma BannerMeansDevelopment(env: string)
    requires ShowsBanner(env)
    ensures !IsProduction(env)
    ensures Debug in EnabledLevels(IsProduction(env)) && Verbose in EnabledLevels(IsProduction(env))
  {
  }

  /** The winston levels, i.e. the logger's channels. */
  datatype Level = Error | Warn | Success | Info | Client | Api | Db | Verbose | Debug

  /** The level names the source passes to winston. */
  function Name(l: Level): string
  {
    match l
    case Error => "error"
    case Warn => "warn"
    case Success => "success"
    case Info => "info"
    case Client => "client"
    case Api => "api"
    case Db => "db"
    case Verbose => "verbose"
    case Debug => "debug"
  }

  lemma NameInjective(l1: Level, l2: Level)
    requires Name(l1) == Name(l2)
    ensures l1 == l2
  {
  }

  /** `_getDebugLevel`: the logger's own threshold level. */
  function DebugLevel(production: bool): Level
  {
    if production then Db else Debug
  }

  /** `_getEnabledLevels`: the rank table (0 = most severe). */
  function EnabledLevels(production: bool): map<Level, nat>
  {
    if DebugLevel(production) == Db then
      map[Error := 0, Warn := 1, Success := 2, Info := 3, Client := 4, Api := 5, Db := 6]
    else
      map[Error := 0, Warn := 1, Success := 2, Info := 3, Client := 4, Api := 5, Db := 6,
          Verbose := 7, Debug := 8]
  }

  /** The level order of a table, most severe first. */
  function LevelOrder(production: bool): (order: seq<Level>)
    ensures forall i, j | 0 <= i < j < |order| :: order[i] != order[j]
  {
    var shared := [Error, Warn, Success, Info, Client, Api, Db];
    if production then shared else shared + [Verbose, Debug]
  }

  /** Each table ranks exactly the levels of its order, and a level's rank is
      its position there: with the order's levels distinct, the ranks are
      0, 1, ..., n - 1 with no gap and no repetition. */
  lemma RanksAreContiguous(production: bool)
    ensures var t, order := EnabledLevels(production), LevelOrder(production);
      && (forall l :: l in t <==> l in order)
      && (forall l | l in t :: t[l] < |order| && order[t[l]] == l)
  {
    var t, order := EnabledLevels(production), LevelOrder(production);
    forall l ensures (l in t <==> l in order) && (l in t ==> t[l] < |order| && order[t[l]] == l) {
      match l
      case Error => assert order[0] == l;
      case Warn => assert order[1] == l;
      case Success => assert order[2] == l;
      case Info => assert order[3] == l;
      case Client => assert order[4] == l;
      case Api => assert order[5] == l;
      case Db => assert order[6] == l;
      case Verbose => if !production { assert order[7] == l; }
      case Debug => if !production { assert order[8] == l; }
    }
  }

  /** The development table is the production table plus verbose = 7 and debug = 8. */
  lemma DevelopmentExtendsProduction()
    ensures var p, d := EnabledLevels(true), EnabledLevels(false);
      && (forall l | l in p :: l in d && d[l] == p[l])
      && d.Keys == p.Keys + {Verbose, Debug}
      && Verbose !in p && Debug !in p
      && d[Verbose] == 7 && d[Debug] == 8
  {
  }

  /** winston's gate for a sink whose threshold is `sink`: the level is
      configured and ranks no higher than the threshold. An unknown level or
      threshold writes nothing. */
  predicate Passes(table: map<Level, nat>, sink: Level, l: Level)
  {
    l in table && sink in table && table[l] <= table[sink]
  }

  /** The file transport's fixed threshold. */
  const FileSinkLevel := Db

  /** The logger threshold is the highest rank of the active table, so every
      level in the table passes the console gate, and no other level does. */
  lemma LoggerThresholdAdmitsTable(production: bool, l: Level)
    ensures var t := EnabledLevels(production);
      && DebugLevel(production) in t
      && (l in t ==> t[l] <= t[DebugLevel(production)])
      && (Passes(t, DebugLevel(production), l) <==> l in t)
  {
  }

  /** The file sink admits exactly the seven shared levels, in either table;
      verbose and debug never reach it. */
  lemma FileSinkAdmits(production: bool, l: Level)
    ensures Passes(EnabledLevels(production), FileSinkLevel, l) <==> l !in {Verbose, Debug}
  {
  }

  /** In production, debug and verbose pass no gate at all. */
  lemma ProductionSilencesDebug(sink: Level)
    ensures !Passes(EnabledLevels(true), sink, Debug)
    ensures !Passes(EnabledLevels(true), sink, Verbose)
  {
  }

  /** Any other name, "unset" included, enables debug and verbose on the console. */
  lemma DevelopmentEnablesDebug(env: string)
    requires !IsProduction(env)
    ensures Passes(EnabledLevels(IsProduction(env)), DebugLevel(IsProduction(env)), Debug)
    ensures Passes(EnabledLevels(IsProduction(env)), DebugLevel(IsProduction(env)), Verbose)
  {
  }

  /** The production aliases are recognised in any case. */
  lemma ProductionAliases()
    ensures IsProduction("production") && IsProduction("PROD") && IsProduction("Prod")
    ensures !IsProduction(Unset) && !IsProduction("staging") && !IsProduction("")
  {
    assert ToLower("PROD") == "prod";
    assert ToLower("Prod") == "prod";
    assert ToLower("production") == "production";
  }
}
