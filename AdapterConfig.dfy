/**
 * Discovery and registration of custom adapters from configuration
 * (ConfigureCustomAdapters and newCustomAdapter in transfer/custom.go).
 * The configuration is a map from keys to values; the registry records each
 * registration in order.
 */
module AdapterConfig {
  import opened Wrappers
  import opened Protocol
  import CustomTransfer

  const KeyPrefix: string := "lfs.customtransfer."
  const PathSuffix: string := ".path"

  /** What a registration's factory captures (custom.go:303-311, 319-321). */
  datatype AdapterDefinition = AdapterDefinition(path: string, args: string, concurrent: bool)

  /** One call of RegisterNewTransferAdapterFunc. */
  datatype Registration = Registration(name: string, dir: Direction, def: AdapterDefinition)

  /** A name the key pattern captures: one or more characters, none of them a dot. */
  predicate IsAdapterName(name: string)
  {
    |name| > 0 && '.' !in name
  }

  /**
   * The adapter name in a key of the exact shape lfs.customtransfer.<name>.path.
   * The source's pattern (custom.go:300) is unanchored and its dots match any
   * character, so it also matches keys this function rejects; the model
   * covers only the exact shape.
   */
  function AdapterName(key: string): (r: Option<string>)
    ensures r.Some? ==> IsAdapterName(r.value) && key == KeyPrefix + r.value + PathSuffix
  {
    if |key| > |KeyPrefix| + |PathSuffix| && key[..|KeyPrefix|] == KeyPrefix
       && key[|key| - |PathSuffix|..] == PathSuffix && '.' !in key[|KeyPrefix|..|key| - |PathSuffix|]
    then
      var name := key[|KeyPrefix|..|key| - |PathSuffix|];
      assert key == key[..|KeyPrefix|] + name + key[|key| - |PathSuffix|..];
      Some(name)
    else None
  }

  /** Every adapter name is recovered from its own path key. */
  lemma AdapterNameOfKey(name: string)
    requires IsAdapterName(name)
    ensures AdapterName(KeyPrefix + name + PathSuffix) == Some(name)
  {
  }

  /** The key of one of an adapter's settings, lfs.customtransfer.<name>.<setting>. */
  function SettingKey(name: string, setting: string): (key: string)
    ensures |key| == |KeyPrefix| + |name| + 1 + |setting|
    ensures key[..|KeyPrefix|] == KeyPrefix && key[|KeyPrefix|..|KeyPrefix| + |name|] == name
    ensures key[|KeyPrefix| + |name|] == '.' && key[|KeyPrefix| + |name| + 1..] == setting
  {
    KeyPrefix + name + "." + setting
  }

  /**
   * Of an adapter's setting keys only the path key names an adapter: the
   * args, concurrent and direction keys are never taken for path keys.
   */
  lemma OnlyPathSettingNamesAdapter(name: string, setting: string)
    requires IsAdapterName(name)
    ensures AdapterName(SettingKey(name, setting)).Some? <==> setting == "path"
    ensures setting == "path" ==> AdapterName(SettingKey(name, setting)) == Some(name)
  {
  }

  /** A string setting, empty when absent (config.GitConfig, whose error is ignored). */
  function GitConfig(cfg: map<string, string>, key: string): (v: string)
    ensures key in cfg ==> v == cfg[key]
    ensures key !in cfg ==> v == ""
  {
    if key in cfg then cfg[key] else ""
  }

  /**
   * A boolean setting (config.GitConfigBool, which is not part of this
   * model): absent or empty gives the default, any other value is read by
   * the given parser.
   */
  function GitConfigBool(cfg: map<string, string>, key: string, default: bool, parseBool: string -> bool): (b: bool)
    ensures key !in cfg || cfg[key] == "" ==> b == default
    ensures key in cfg && cfg[key] != "" ==> b == parseBool(cfg[key])
  {
    if key in cfg && cfg[key] != "" then parseBool(cfg[key]) else default
  }

  /** Lower-casing of one character, for ASCII letters (strings.ToLower). */
  function LowerChar(c: char): (l: char)
    ensures 'A' <= c <= 'Z' ==> l as int == c as int + 32
    ensures !('A' <= c <= 'Z') ==> l == c
  {
    if 'A' <= c <= 'Z' then (c as int + 32) as char else c
  }

  function ToLower(s: string): (r: string)
    ensures |r| == |s| && forall i :: 0 <= i < |s| ==> r[i] == LowerChar(s[i])
  {
    seq(|s|, i requires 0 <= i < |s| => LowerChar(s[i]))
  }

  /** The configured direction: "both" when empty, otherwise lower-cased (custom.go:312-316). */
  function NormalizeDirection(raw: string): (d: string)
    ensures raw == "" ==> d == "both"
    ensures raw != "" ==> d == ToLower(raw)
  {
    if |raw| == 0 then "both" else ToLower(raw)
  }

  /**
   * The directions a normalised direction string registers (custom.go:323-328):
   * download for "download" or "both", upload for "upload" or "both", and
   * nothing for any other string.
   */
  function DirectionsFor(direction: string): (dirs: set<Direction>)
    ensures Download in dirs <==> direction == "download" || direction == "both"
    ensures Upload in dirs <==> direction == "upload" || direction == "both"
    ensures dirs == {} <==> direction != "download" && direction != "upload" && direction != "both"
  {
    (if direction == "download" || direction == "both" then {Download} else {})
    + (if direction == "upload" || direction == "both" then {Upload} else {})
  }

  /** An unset direction registers both directions. */
  lemma EmptyDirectionMeansBoth()
    ensures DirectionsFor(NormalizeDirection("")) == {Download, Upload}
  {
  }

  /** The direction setting is case-insensitive: only its lower-cased form matters. */
  lemma DirectionCaseInsensitive(raw: string)
    ensures DirectionsFor(NormalizeDirection(raw)) == DirectionsFor(NormalizeDirection(ToLower(raw)))
  {
  }

  /** Configuring an adapter's direction as the operation it sends registers exactly that direction. */
  lemma OperationNameRegistersItsDirection(dir: Direction)
    ensures DirectionsFor(NormalizeDirection(CustomTransfer.OperationName(dir))) == {dir}
  {
  }

  /** The normalised direction configured for an adapter name. */
  function ConfiguredDirection(cfg: map<string, string>, name: string): string
  {
    NormalizeDirection(GitConfig(cfg, SettingKey(name, "direction")))
  }

  /** The definition the factory for a path key captures. */
  function DefinitionFor(cfg: map<string, string>, parseBool: string -> bool, name: string, path: string): AdapterDefinition
  {
    AdapterDefinition(path, GitConfig(cfg, SettingKey(name, "args")),
                      GitConfigBool(cfg, SettingKey(name, "concurrent"), true, parseBool))
  }

  /** The registrations one configuration entry gives rise to: none unless it is a path key. */
  function KeyRegistrations(cfg: map<string, string>, parseBool: string -> bool, key: string): (regs: set<Registration>)
    requires key in cfg
    ensures forall r :: r in regs ==> AdapterName(key) == Some(r.name)
    ensures forall r :: r in regs ==> r.def.path == cfg[key] && r.dir in DirectionsFor(ConfiguredDirection(cfg, r.name))
  {
    match AdapterName(key)
    case None => {}
    case Some(name) =>
      set d | d in DirectionsFor(ConfiguredDirection(cfg, name)) :: Registration(name, d, DefinitionFor(cfg, parseBool, name, cfg[key]))
  }

  /** The registrations of a path key, member by member: its name, its definition, each configured direction. */
  lemma KeyRegistrationsOfPathKey(cfg: map<string, string>, parseBool: string -> bool, key: string, name: string)
    requires key in cfg && AdapterName(key) == Some(name)
    ensures forall r :: r in KeyRegistrations(cfg, parseBool, key) <==>
      r.name == name && r.def == DefinitionFor(cfg, parseBool, name, cfg[key])
      && r.dir in DirectionsFor(ConfiguredDirection(cfg, name))
  {
  }

  /** The factory of a registration (custom.go:319-321): a new adapter built from what it captured. */
  method NewAdapter(reg: Registration, encode: Request -> Option<string>) returns (a: CustomTransfer.CustomAdapter)
    ensures fresh(a)
    ensures a.name == reg.name && a.direction == reg.dir && a.path == reg.def.path && a.args == reg.def.args
    ensures a.concurrent == reg.def.concurrent && a.originalConcurrency == 3
  {
    a := new CustomTransfer.CustomAdapter(reg.name, reg.dir, reg.def.path, reg.def.args, reg.def.concurrent, encode);
  }

  /** The registry of adapter factories, as the sequence of registrations made. */
  class Registry {
    var registered: seq<Registration>

    constructor ()
      ensures registered == []
    {
      registered := [];
    }

    /** RegisterNewTransferAdapterFunc, whose internals are not part of this model: the call is recorded. */
    method Register(name: string, dir: Direction, def: AdapterDefinition)
      modifies this
      ensures registered == old(registered) + [Registration(name, dir, def)]
    {
      registered := registered + [Registration(name, dir, def)];
    }

    /**
     * One turn of ConfigureCustomAdapters' loop (custom.go:302-330): a path
     * key registers its adapter for each configured direction; any other key
     * registers nothing.
     */
    method ConfigureKey(cfg: map<string, string>, parseBool: string -> bool, key: string)
      requires key in cfg
      modifies this
      ensures |registered| >= |old(registered)| && registered[..|old(registered)|] == old(registered)
      ensures forall r :: r in registered[|old(registered)|..] <==> r in KeyRegistrations(cfg, parseBool, key)
    {
      var captured := AdapterName(key);
      if captured.None? {
        return;
      }
      var name := captured.value;
      var path := cfg[key];
      var args := GitConfig(cfg, SettingKey(name, "args"));
      var concurrent := GitConfigBool(cfg, SettingKey(name, "concurrent"), true, parseBool);
      var direction := GitConfig(cfg, SettingKey(name, "direction"));
      if |direction| == 0 {
        direction := "both";
      } else {
        direction := ToLower(direction);
      }
      var def := AdapterDefinition(path, args, concurrent);
      if direction == "download" || direction == "both" {
        Register(name, Download, def);
      }
      if direction == "upload" || direction == "both" {
        Register(name, Upload, def);
      }
      assert direction == ConfiguredDirection(cfg, name);
      assert def == DefinitionFor(cfg, parseBool, name, path);
      KeyRegistrationsOfPathKey(cfg, parseBool, key, name);
      ghost var down := if Download in DirectionsFor(direction) then [Registration(name, Download, def)] else [];
      ghost var up := if Upload in DirectionsFor(direction) then [Registration(name, Upload, def)] else [];
      assert registered == old(registered) + down + up;
      assert registered[|old(registered)|..] == down + up;
    }

    /**
     * ConfigureCustomAdapters (custom.go:299-333): visits the configuration
     * entries in an unspecified order and adds exactly the registrations each
     * path key calls for, keeping those made before.
     */
    method ConfigureCustomAdapters(cfg: map<string, string>, parseBool: string -> bool)
      modifies this
      ensures |registered| >= |old(registered)| && registered[..|old(registered)|] == old(registered)
      ensures forall r :: r in registered[|old(registered)|..] <==>
                exists key :: key in cfg && r in KeyRegistrations(cfg, parseBool, key)
    {
      ghost var start := |registered|;
      var keys := cfg.Keys;
      ghost var visited: set<string> := {};
      while keys != {}
        invariant keys + visited == cfg.Keys && keys !! visited
        invariant |registered| >= start && registered[..start] == old(registered)
        invariant forall r :: r in registered[start..] <==>
                    exists key :: key in visited && r in KeyRegistrations(cfg, parseBool, key)
        decreases keys
      {
        var key :| key in keys;
        ghost var before := registered;
        ConfigureKey(cfg, parseBool, key);
        assert registered[..|before|] == before;
        assert registered[start..] == before[start..] + registered[|before|..];
        keys := keys - {key};
        visited := visited + {key};
      }
    }
  }
}
