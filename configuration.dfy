/**
 * The `configuration` crate: how the agent's settings are merged from the
 * command line, the environment and the configuration file, and the
 * `Concern` value (contract address, user address) the rest of the agent
 * keys its work on.
 */
module Configuration {
  import opened Wrappers
  import opened Errors
  import opened EthTypes

  const DEFAULT_CONFIG_PATH: string := "config.yaml"
  const DEFAULT_MAX_DELAY: U64 := 500
  const DEFAULT_WARN_DELAY: U64 := 100

  const NEED_URL: string := "Need to provide url (config file, command line or env)"
  const NEED_WORKING_PATH: string := "Need to provide working path (config file, command line or env)"
  const NEED_MAIN_CONCERN: string := "Need to provide main concern (config file, command line or env)"
  const MISSING_CONTRACT: string := "Concern's contract should be specified"
  const MISSING_USER: string := "Concern's user should be specified"
  const MISSING_ABI: string := "Concern's abi should be specified"
  const BAD_CONTRACT: string := "failed to parse contract address"
  const BAD_USER: string := "failed to parse user address"
  const BAD_DELAYS: string := "max_delay should be larger than warn delay"

  /** A PathBuf, kept as its text: parsing a PathBuf from a string cannot fail. */
  type Path = string

  /** The address parser of `ethereum_types` (hex text to 20 bytes); it may fail. */
  type AddressParser = string -> Result<Address, Error>

  /** The contract address and the user address that an instance is evaluated under. */
  datatype Concern = Concern(contractAddress: Address, userAddress: Address) {

    /** The 40-byte key: the contract address in bytes 0-19, the user address in bytes 20-39. */
    method ToBytes() returns (bytes: seq<Byte>)
      ensures |bytes| == 40
      ensures bytes[..20] == contractAddress
      ensures bytes[20..] == userAddress
    {
      var result := new Byte[40];
      CopyTo(contractAddress, result, 0);
      CopyTo(userAddress, result, 20);
      bytes := result[..];
      assert bytes[..20] == result[0..20];
      assert bytes[20..] == result[20..40];
    }
  }

  /** `copy_to`: writes the 20 bytes of an address into `dst[offset..offset + 20]`. */
  method CopyTo(src: Address, dst: array<Byte>, offset: nat)
    requires offset + 20 <= dst.Length
    modifies dst
    ensures dst[offset..offset + 20] == src
    ensures forall i :: 0 <= i < dst.Length && !(offset <= i < offset + 20) ==> dst[i] == old(dst[i])
  {
    forall i | 0 <= i < 20 {
      dst[offset + i] := src[i];
    }
  }

  datatype ConcernAbi = ConcernAbi(abi: Path)

  /** A concern as written in the configuration, with the path of its contract's ABI. */
  datatype FullConcern = FullConcern(contractAddress: Address, userAddress: Address, abi: Path)

  /** From<FullConcern> for Concern: keeps both addresses and drops the ABI. */
  function ToConcern(full: FullConcern): (c: Concern)
    ensures c.contractAddress == full.contractAddress
    ensures c.userAddress == full.userAddress
  {
    Concern(full.contractAddress, full.userAddress)
  }

  lemma ToConcernIgnoresAbi(f: FullConcern, g: FullConcern)
    ensures ToConcern(f) == ToConcern(g) <==>
      f.contractAddress == g.contractAddress && f.userAddress == g.userAddress
  {
  }

  /** Settings as read from the command line or, alike, from the CARTESI_-prefixed environment. */
  datatype EnvCliConfiguration = EnvCliConfiguration(
    configPath: Option<string>,
    url: Option<string>,
    testing: Option<bool>,
    maxDelay: Option<U64>,
    warnDelay: Option<U64>,
    mainConcernContract: Option<string>,
    mainConcernUser: Option<string>,
    mainConcernAbi: Option<Path>,
    workingPath: Option<string>)

  /** Settings as decoded from the YAML configuration file. */
  datatype FileConfiguration = FileConfiguration(
    url: Option<string>,
    testing: Option<bool>,
    maxDelay: Option<U64>,
    warnDelay: Option<U64>,
    mainConcern: Option<FullConcern>,
    concerns: seq<FullConcern>,
    workingPath: Option<string>)

  /** The merged configuration. Delays are their numbers of seconds. */
  datatype Configuration = Configuration(
    url: string,
    testing: bool,
    maxDelay: U64,
    warnDelay: U64,
    mainConcern: Concern,
    concerns: seq<Concern>,
    workingPath: Path,
    abis: map<Concern, ConcernAbi>)

  /** The precedence rule of every setting: the command line, else the environment, else the file. */
  function FirstPresent<T>(cli: Option<T>, env: Option<T>, file: Option<T>): (r: Option<T>)
    ensures r.None? <==> cli.None? && env.None? && file.None?
    ensures cli.Some? ==> r == cli
    ensures cli.None? && env.Some? ==> r == env
    ensures cli.None? && env.None? ==> r == file
  {
    cli.Or(env).Or(file)
  }

  /** The path of the configuration file: command line, else environment, else "config.yaml". */
  function ConfigPath(cli: EnvCliConfiguration, env: EnvCliConfiguration): (path: string)
    ensures cli.configPath.Some? ==> path == cli.configPath.value
    ensures cli.configPath.None? && env.configPath.Some? ==> path == env.configPath.value
    ensures cli.configPath.None? && env.configPath.None? ==> path == DEFAULT_CONFIG_PATH
  {
    cli.configPath.Or(env.configPath).UnwrapOr(DEFAULT_CONFIG_PATH)
  }

  predicate StartsWithHexPrefix(s: string) {
    |s| >= 2 && s[0] == '0' && s[1] == 'x'
  }

  /** True of a string made only of repetitions of "0x". */
  predicate OnlyHexPrefixes(s: string)
    decreases |s|
  {
    s == [] || (StartsWithHexPrefix(s) && OnlyHexPrefixes(s[2..]))
  }

  /** `trim_start_matches("0x")`: strips every leading "0x", however many there are. */
  function TrimHexPrefix(s: string): (r: string)
    decreases |s|
    ensures |r| <= |s| && s[|s| - |r|..] == r
    ensures OnlyHexPrefixes(s[..|s| - |r|])
    ensures !StartsWithHexPrefix(r)
  {
    if StartsWithHexPrefix(s) then
      var r := TrimHexPrefix(s[2..]);
      assert s[..|s| - |r|][2..] == s[2..][..|s[2..]| - |r|];
      r
    else
      s
  }

  /**
   * validate_concern: a concern given as three optional strings must have all
   * three or none. The fields are checked in the order contract, user, abi,
   * and each address is parsed before the next field is looked at.
   */
  function ValidateConcern(contract: Option<string>, user: Option<string>, abi: Option<Path>,
                           parse: AddressParser): (r: Result<Option<FullConcern>, Error>)
    ensures r == Ok(None) <==> contract.None? && user.None? && abi.None?
    ensures r.Ok? <==>
      || (contract.None? && user.None? && abi.None?)
      || (&& contract.Some? && user.Some? && abi.Some?
          && parse(TrimHexPrefix(contract.value)).Ok?
          && parse(TrimHexPrefix(user.value)).Ok?)
    ensures r.Ok? && r.value.Some? ==>
      && r.value.value.contractAddress == parse(TrimHexPrefix(contract.value)).value
      && r.value.value.userAddress == parse(TrimHexPrefix(user.value)).value
      && r.value.value.abi == abi.value
    ensures contract.None? && (user.Some? || abi.Some?) ==> r == Err(InvalidConfig(MISSING_CONTRACT))
    ensures contract.Some? && parse(TrimHexPrefix(contract.value)).Err? ==>
      r == Err(Chained(BAD_CONTRACT, parse(TrimHexPrefix(contract.value)).error))
    ensures contract.Some? && parse(TrimHexPrefix(contract.value)).Ok? && user.None? ==>
      r == Err(InvalidConfig(MISSING_USER))
    ensures (&& contract.Some? && parse(TrimHexPrefix(contract.value)).Ok?
             && user.Some? && parse(TrimHexPrefix(user.value)).Err?) ==>
      r == Err(Chained(BAD_USER, parse(TrimHexPrefix(user.value)).error))
    ensures (&& contract.Some? && parse(TrimHexPrefix(contract.value)).Ok?
             && user.Some? && parse(TrimHexPrefix(user.value)).Ok? && abi.None?) ==>
      r == Err(InvalidConfig(MISSING_ABI))
  {
    if contract.Some? || user.Some? || abi.Some? then
      match contract.OkOr(InvalidConfig(MISSING_CONTRACT))
      case Err(e) => Err(e)
      case Ok(contractText) =>
        match parse(TrimHexPrefix(contractText))
        case Err(e) => Err(Chained(BAD_CONTRACT, e))
        case Ok(contractAddress) =>
          match user.OkOr(InvalidConfig(MISSING_USER))
          case Err(e) => Err(e)
          case Ok(userText) =>
            match parse(TrimHexPrefix(userText))
            case Err(e) => Err(Chained(BAD_USER, e))
            case Ok(userAddress) =>
              match abi.OkOr(InvalidConfig(MISSING_ABI))
              case Err(e) => Err(e)
              case Ok(abiPath) => Ok(Some(FullConcern(contractAddress, userAddress, abiPath)))
    else
      Ok(None)
  }

  /** validate_concern applied to the main-concern settings of the command line or the environment. */
  function ConcernSettings(config: EnvCliConfiguration, parse: AddressParser): Result<Option<FullConcern>, Error> {
    ValidateConcern(config.mainConcernContract, config.mainConcernUser, config.mainConcernAbi, parse)
  }

  /**
   * The main concern of combine_config: the command line's and then the
   * environment's concern settings are validated (both, in that order,
   * even when the first is complete), then the first present of
   * command line, environment and file is taken.
   */
  function ResolveMainConcern(cli: EnvCliConfiguration, env: EnvCliConfiguration, file: FileConfiguration,
                              parse: AddressParser): (r: Result<FullConcern, Error>)
    ensures ConcernSettings(cli, parse).Err? ==> r == Err(ConcernSettings(cli, parse).error)
    ensures ConcernSettings(cli, parse).Ok? && ConcernSettings(env, parse).Err? ==>
      r == Err(ConcernSettings(env, parse).error)
    ensures (&& ConcernSettings(cli, parse) == Ok(None) && ConcernSettings(env, parse) == Ok(None)
             && file.mainConcern.None?) ==> r == Err(InvalidConfig(NEED_MAIN_CONCERN))
    ensures r.Ok? <==>
      && ConcernSettings(cli, parse).Ok? && ConcernSettings(env, parse).Ok?
      && (ConcernSettings(cli, parse).value.Some? || ConcernSettings(env, parse).value.Some?
          || file.mainConcern.Some?)
    ensures r.Ok? && ConcernSettings(cli, parse).value.Some? ==>
      r.value == ConcernSettings(cli, parse).value.value
    ensures r.Ok? && ConcernSettings(cli, parse).value.None? && ConcernSettings(env, parse).value.Some? ==>
      r.value == ConcernSettings(env, parse).value.value
    ensures r.Ok? && ConcernSettings(cli, parse).value.None? && ConcernSettings(env, parse).value.None? ==>
      r.value == file.mainConcern.value
  {
    match ConcernSettings(cli, parse)
    case Err(e) => Err(e)
    case Ok(cliMain) =>
      match ConcernSettings(env, parse)
      case Err(e) => Err(e)
      case Ok(envMain) =>
        FirstPresent(cliMain, envMain, file.mainConcern).OkOr(InvalidConfig(NEED_MAIN_CONCERN))
  }

  /** The concern list built from a list of full concerns, in order. */
  function ConcernsOf(fulls: seq<FullConcern>): (cs: seq<Concern>)
    ensures |cs| == |fulls|
    ensures forall i :: 0 <= i < |fulls| ==> cs[i] == ToConcern(fulls[i])
  {
    seq(|fulls|, i requires 0 <= i < |fulls| => ToConcern(fulls[i]))
  }

  /** The ABI table after inserting every full concern of `fulls`, in order, into an empty map. */
  function AbisOf(fulls: seq<FullConcern>): map<Concern, ConcernAbi>
    decreases |fulls|
  {
    if fulls == [] then map[]
    else
      var last := fulls[|fulls| - 1];
      AbisOf(fulls[..|fulls| - 1])[ToConcern(last) := ConcernAbi(last.abi)]
  }

  /** No full concern after position i has the same concern as position i. */
  predicate IsLastOccurrence(fulls: seq<FullConcern>, i: int)
    requires 0 <= i < |fulls|
  {
    forall j :: i < j < |fulls| ==> ToConcern(fulls[j]) != ToConcern(fulls[i])
  }

  /** The table has a key for exactly the concerns of the list. */
  lemma {:induction false} AbisOfKeys(fulls: seq<FullConcern>)
    ensures forall c :: c in AbisOf(fulls) <==> c in ConcernsOf(fulls)
    decreases |fulls|
  {
    if fulls != [] {
      var prefix := fulls[..|fulls| - 1];
      AbisOfKeys(prefix);
      assert ConcernsOf(fulls) == ConcernsOf(prefix) + [ToConcern(fulls[|fulls| - 1])];
    }
  }

  /** A concern's entry holds the ABI of its last occurrence in the list: later insertions win. */
  lemma {:induction false} AbisOfLastWins(fulls: seq<FullConcern>, i: int)
    requires 0 <= i < |fulls|
    requires IsLastOccurrence(fulls, i)
    ensures ToConcern(fulls[i]) in AbisOf(fulls)
    ensures AbisOf(fulls)[ToConcern(fulls[i])] == ConcernAbi(fulls[i].abi)
    decreases |fulls|
  {
    if i < |fulls| - 1 {
      var prefix := fulls[..|fulls| - 1];
      assert prefix[i] == fulls[i];
      assert IsLastOccurrence(prefix, i) by {
        forall j | i < j < |prefix| ensures ToConcern(prefix[j]) != ToConcern(prefix[i]) {
          assert prefix[j] == fulls[j];
        }
      }
      AbisOfLastWins(prefix, i);
      assert ToConcern(fulls[|fulls| - 1]) != ToConcern(fulls[i]);
    }
  }

  /** Every concern of the list has a last occurrence. */
  lemma {:induction false} LastOccurrenceExists(fulls: seq<FullConcern>, c: Concern)
    requires c in ConcernsOf(fulls)
    ensures exists i :: 0 <= i < |fulls| && ToConcern(fulls[i]) == c && IsLastOccurrence(fulls, i)
    decreases |fulls|
  {
    var last := |fulls| - 1;
    if ToConcern(fulls[last]) == c {
      assert IsLastOccurrence(fulls, last);
    } else {
      var prefix := fulls[..last];
      assert ConcernsOf(fulls) == ConcernsOf(prefix) + [ToConcern(fulls[last])];
      LastOccurrenceExists(prefix, c);
      var i :| 0 <= i < |prefix| && ToConcern(prefix[i]) == c && IsLastOccurrence(prefix, i);
      assert fulls[i] == prefix[i];
      assert IsLastOccurrence(fulls, i) by {
        forall j | i < j < |fulls| ensures ToConcern(fulls[j]) != ToConcern(fulls[i]) {
          if j < last {
            assert fulls[j] == prefix[j];
          }
        }
      }
    }
  }

  /**
   * combine_config: merge the command line, the environment and the file,
   * each setting by FirstPresent. The concern list is the file's concerns in
   * order followed by the main concern; the ABI table maps each of them to
   * its ABI, later entries overwriting earlier ones.
   */
  function Combined(cli: EnvCliConfiguration, env: EnvCliConfiguration, file: FileConfiguration,
                    parse: AddressParser): (r: Result<Configuration, Error>)
    // errors, in the order the code checks them
    ensures FirstPresent(cli.url, env.url, file.url).None? ==> r == Err(InvalidConfig(NEED_URL))
    ensures (&& FirstPresent(cli.url, env.url, file.url).Some?
             && FirstPresent(cli.workingPath, env.workingPath, file.workingPath).None?) ==>
      r == Err(InvalidConfig(NEED_WORKING_PATH))
    ensures (&& FirstPresent(cli.url, env.url, file.url).Some?
             && FirstPresent(cli.workingPath, env.workingPath, file.workingPath).Some?
             && ResolveMainConcern(cli, env, file, parse).Err?) ==>
      r == Err(ResolveMainConcern(cli, env, file, parse).error)
    ensures r.Ok? <==>
      && FirstPresent(cli.url, env.url, file.url).Some?
      && FirstPresent(cli.workingPath, env.workingPath, file.workingPath).Some?
      && ResolveMainConcern(cli, env, file, parse).Ok?
    // scalar settings
    ensures r.Ok? ==> r.value.url == FirstPresent(cli.url, env.url, file.url).value
    ensures r.Ok? ==>
      r.value.workingPath == FirstPresent(cli.workingPath, env.workingPath, file.workingPath).value
    ensures r.Ok? && cli.testing.None? && env.testing.None? && file.testing.None? ==> !r.value.testing
    ensures r.Ok? && FirstPresent(cli.testing, env.testing, file.testing).Some? ==>
      r.value.testing == FirstPresent(cli.testing, env.testing, file.testing).value
    ensures r.Ok? && cli.maxDelay.None? && env.maxDelay.None? && file.maxDelay.None? ==>
      r.value.maxDelay == DEFAULT_MAX_DELAY
    ensures r.Ok? && FirstPresent(cli.maxDelay, env.maxDelay, file.maxDelay).Some? ==>
      r.value.maxDelay == FirstPresent(cli.maxDelay, env.maxDelay, file.maxDelay).value
    ensures r.Ok? && cli.warnDelay.None? && env.warnDelay.None? && file.warnDelay.None? ==>
      r.value.warnDelay == DEFAULT_WARN_DELAY
    ensures r.Ok? && FirstPresent(cli.warnDelay, env.warnDelay, file.warnDelay).Some? ==>
      r.value.warnDelay == FirstPresent(cli.warnDelay, env.warnDelay, file.warnDelay).value
    // concerns and ABIs
    ensures r.Ok? ==>
      var main := ResolveMainConcern(cli, env, file, parse).value;
      var all := file.concerns + [main];
      && r.value.mainConcern == ToConcern(main)
      && |r.value.concerns| == |file.concerns| + 1
      && (forall i :: 0 <= i < |file.concerns| ==> r.value.concerns[i] == ToConcern(file.concerns[i]))
      && r.value.concerns[|file.concerns|] == r.value.mainConcern
      && (forall c :: c in r.value.abis <==> c in r.value.concerns)
      && r.value.abis[r.value.mainConcern] == ConcernAbi(main.abi)
      && (forall i :: 0 <= i < |all| && IsLastOccurrence(all, i) ==>
            r.value.abis[ToConcern(all[i])] == ConcernAbi(all[i].abi))
  {
    var url := FirstPresent(cli.url, env.url, file.url);
    var testing := FirstPresent(cli.testing, env.testing, file.testing).UnwrapOr(false);
    var maxDelay := FirstPresent(cli.maxDelay, env.maxDelay, file.maxDelay).UnwrapOr(DEFAULT_MAX_DELAY);
    var warnDelay := FirstPresent(cli.warnDelay, env.warnDelay, file.warnDelay).UnwrapOr(DEFAULT_WARN_DELAY);
    var workingPath := FirstPresent(cli.workingPath, env.workingPath, file.workingPath);
    if url.None? then Err(InvalidConfig(NEED_URL))
    else if workingPath.None? then Err(InvalidConfig(NEED_WORKING_PATH))
    else
      match ResolveMainConcern(cli, env, file, parse)
      case Err(e) => Err(e)
      case Ok(main) =>
        var all := file.concerns + [main];
        AbisOfKeys(all);
        assert IsLastOccurrence(all, |all| - 1);
        forall i | 0 <= i < |all| && IsLastOccurrence(all, i)
          ensures AbisOf(all)[ToConcern(all[i])] == ConcernAbi(all[i].abi)
        {
          AbisOfLastWins(all, i);
        }
        Ok(Configuration(url.value, testing, maxDelay, warnDelay, ToConcern(main),
                         ConcernsOf(all), workingPath.value, AbisOf(all)))
  }

  /** The loop of combine_config that fills the concern list and the ABI table. */
  method CollectConcerns(fulls: seq<FullConcern>, main: FullConcern)
    returns (concerns: seq<Concern>, abis: map<Concern, ConcernAbi>)
    ensures concerns == ConcernsOf(fulls + [main])
    ensures abis == AbisOf(fulls + [main])
  {
    abis := map[];
    concerns := [];
    for i := 0 to |fulls|
      invariant concerns == ConcernsOf(fulls[..i])
      invariant abis == AbisOf(fulls[..i])
    {
      var full := fulls[i];
      assert fulls[..i + 1][..i] == fulls[..i];
      abis := abis[ToConcern(full) := ConcernAbi(full.abi)];
      concerns := concerns + [ToConcern(full)];
    }
    assert fulls == fulls[..|fulls|];
    var all := fulls + [main];
    assert all[..|all| - 1] == fulls;
    abis := abis[ToConcern(main) := ConcernAbi(main.abi)];
    concerns := concerns + [ToConcern(main)];
  }

  /** combine_config, in the source's own steps: the precedence chains, then the loop. */
  method CombineConfig(cli: EnvCliConfiguration, env: EnvCliConfiguration, file: FileConfiguration,
                       parse: AddressParser) returns (r: Result<Configuration, Error>)
    ensures r == Combined(cli, env, file, parse)
  {
    var url :- FirstPresent(cli.url, env.url, file.url).OkOr(InvalidConfig(NEED_URL));
    var testing := FirstPresent(cli.testing, env.testing, file.testing).UnwrapOr(false);
    var maxDelay := FirstPresent(cli.maxDelay, env.maxDelay, file.maxDelay).UnwrapOr(DEFAULT_MAX_DELAY);
    var warnDelay := FirstPresent(cli.warnDelay, env.warnDelay, file.warnDelay).UnwrapOr(DEFAULT_WARN_DELAY);
    var workingPath :- FirstPresent(cli.workingPath, env.workingPath, file.workingPath)
      .OkOr(InvalidConfig(NEED_WORKING_PATH));
    var main :- ResolveMainConcern(cli, env, file, parse);
    var concerns, abis := CollectConcerns(file.concerns, main);
    r := Ok(Configuration(url, testing, maxDelay, warnDelay, ToConcern(main), concerns, workingPath, abis));
  }

  /** The check of Configuration::new that the warning delay does not exceed the maximal delay. */
  function CheckDelays(config: Configuration): (r: Result<Configuration, Error>)
    ensures r.Err? <==> config.maxDelay < config.warnDelay
    ensures r.Err? ==> r.error == InvalidConfig(BAD_DELAYS)
    ensures r.Ok? ==> r.value == config && config.warnDelay <= config.maxDelay
  {
    if config.maxDelay < config.warnDelay then Err(InvalidConfig(BAD_DELAYS)) else Ok(config)
  }

  /**
   * Configuration::new once the three sources are read: merge them, then
   * check the delays. A merged configuration is returned only when its
   * warning delay is at most its maximal delay.
   */
  method New(cli: EnvCliConfiguration, env: EnvCliConfiguration, file: FileConfiguration,
             parse: AddressParser) returns (r: Result<Configuration, Error>)
    ensures Combined(cli, env, file, parse).Err? ==> r == Combined(cli, env, file, parse)
    ensures Combined(cli, env, file, parse).Ok? ==> r == CheckDelays(Combined(cli, env, file, parse).value)
    ensures r.Ok? ==> r.value.warnDelay <= r.value.maxDelay
  {
    var config :- CombineConfig(cli, env, file, parse);
    r := CheckDelays(config);
  }
}
