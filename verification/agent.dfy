/** `MemeCoinAgent` (src/MemeCoinAgent.js): the orchestrator that names a
    coin, draws its tokenomics, deploys it, and keeps an append-only history
    of the coins it created. The generator is held as its two steps; the
    compiler, the filesystem, the chain and the clock are parameters. */
module Agent {
  import opened Wrappers
  import opened JsNumber
  import opened ContractTemplate
  import opened Compiler
  import opened Generator
  import opened Deployer

  /** One entry of the history (lines 40-45). */
  datatype DeploymentRecord = DeploymentRecord(
    timestamp: string,
    deploymentDetails: DeploymentResult,
    tokenDetails: JsonObject,
    tokenomics: Tokenomics)

  const CreateErrorPrefix: string := "Error creating meme coin: "

  /** The name of a valid identity, which holds no `$`. */
  function CoinName(details: JsonObject): (name: string)
    requires ValidIdentity(details)
    ensures '$' !in name && name == details["name"].s
  {
    ValidIdentityPlain(details);
    details["name"].s
  }

  /** The symbol of a valid identity, which holds no `$`. */
  function CoinSymbol(details: JsonObject): (symbol: string)
    requires ValidIdentity(details)
    ensures '$' !in symbol && symbol == details["symbol"].s
  {
    ValidIdentityPlain(details);
    details["symbol"].s
  }

  /** Lines 19-53 as a value: name the coin, draw its tokenomics for that
      name, deploy it with the name, the symbol and the total supply, and
      record the three results with the timestamp. A failure of any step
      stops the sequence and is re-raised with the `Error creating meme
      coin: ` prefix. */
  function CreateOutcome(template: string, steps: Steps, theme: Option<string>,
                         solc: Solc, files: map<string, string>, network: Network, timestamp: string)
    : (r: Result<DeploymentRecord>)
    requires SoundSteps(steps)
    ensures r.Err? ==> CreateErrorPrefix <= r.message
    ensures r.Ok? ==> r.value.timestamp == timestamp && ValidIdentity(r.value.tokenDetails)
    ensures r.Ok? ==> CheckRanges(r.value.tokenomics).Ok?
  {
    match steps.coinName(theme)
    case Err(m) => Err(CreateErrorPrefix + m)
    case Ok(details) =>
      match steps.tokenomics(CoinName(details))
      case Err(m) => Err(CreateErrorPrefix + m)
      case Ok(tokenomics) =>
        match DeployResult(template, CoinName(details), CoinSymbol(details), tokenomics.totalSupply,
                           solc, files, network)
        case Err(m) => Err(CreateErrorPrefix + m)
        case Ok(deployed) => Ok(DeploymentRecord(timestamp, deployed, details, tokenomics))
  }

  /** The deploy transactions `createMemeCoin` sends: none unless both
      generation steps succeed, then those of the deployment. */
  function CreateTransactions(template: string, steps: Steps, theme: Option<string>,
                              solc: Solc, files: map<string, string>): seq<DeployTransaction>
    requires SoundSteps(steps)
  {
    match steps.coinName(theme)
    case Err(_) => []
    case Ok(details) =>
      match steps.tokenomics(CoinName(details))
      case Err(_) => []
      case Ok(tokenomics) =>
        DeployTransactions(template, CoinName(details), CoinSymbol(details), tokenomics.totalSupply, solc, files)
  }

  /** A coin is created exactly when the three steps succeed in turn, and its
      record holds exactly their results: the identity, the tokenomics drawn
      for that identity's name, and the deployment of that name, symbol and
      total supply. */
  lemma CreateSucceedsIffStepsSucceed(template: string, steps: Steps, theme: Option<string>,
                                      solc: Solc, files: map<string, string>, network: Network, timestamp: string)
    requires SoundSteps(steps)
    ensures var r := CreateOutcome(template, steps, theme, solc, files, network, timestamp);
      var named := steps.coinName(theme);
      r.Ok? <==>
        && named.Ok?
        && steps.tokenomics(CoinName(named.value)).Ok?
        && DeployResult(template, CoinName(named.value), CoinSymbol(named.value),
                        steps.tokenomics(CoinName(named.value)).value.totalSupply, solc, files, network).Ok?
    ensures var r := CreateOutcome(template, steps, theme, solc, files, network, timestamp);
      r.Ok? ==>
        && steps.coinName(theme) == Ok(r.value.tokenDetails)
        && steps.tokenomics(CoinName(r.value.tokenDetails)) == Ok(r.value.tokenomics)
        && DeployResult(template, CoinName(r.value.tokenDetails), CoinSymbol(r.value.tokenDetails),
                        r.value.tokenomics.totalSupply, solc, files, network) == Ok(r.value.deploymentDetails)
  {
  }

  /** A failed creation carries the failing step's own message under the
      agent's prefix: the naming failure, the tokenomics failure or the
      deployment failure, each recognisable by its own prefix. */
  lemma CreateFailureNamesStep(template: string, steps: Steps, theme: Option<string>,
                               solc: Solc, files: map<string, string>, network: Network, timestamp: string)
    requires SoundSteps(steps)
    ensures var r := CreateOutcome(template, steps, theme, solc, files, network, timestamp);
      r.Err? ==>
        || CreateErrorPrefix + CoinNamePrefix <= r.message
        || CreateErrorPrefix + (TokenomicsPrefix + ParseFailurePrefix) <= r.message
        || CreateErrorPrefix + DeploymentErrorPrefix <= r.message
  {
    var r := CreateOutcome(template, steps, theme, solc, files, network, timestamp);
    var named := steps.coinName(theme);
    if r.Err? {
      if named.Err? {
        PrefixedPrefix(CreateErrorPrefix, CoinNamePrefix, named.message);
      } else {
        var name := CoinName(named.value);
        var planned := steps.tokenomics(name);
        if planned.Err? {
          PrefixedPrefix(CreateErrorPrefix, TokenomicsPrefix + ParseFailurePrefix, planned.message);
        } else {
          var deployed := DeployResult(template, name, CoinSymbol(named.value), planned.value.totalSupply,
                                       solc, files, network);
          PrefixedPrefix(CreateErrorPrefix, DeploymentErrorPrefix, deployed.message);
        }
      }
    }
  }

  /** A prefix of the message stays a prefix once the message is prefixed. */
  lemma PrefixedPrefix(outer: string, inner: string, m: string)
    requires inner <= m
    ensures outer + inner <= outer + m
  {
    assert (outer + m)[..|outer + inner|] == outer + m[..|inner|];
  }

  /** No transaction is sent unless both generation steps succeed, and at
      most one is sent in all. */
  lemma CreateSendsAtMostOne(template: string, steps: Steps, theme: Option<string>,
                             solc: Solc, files: map<string, string>)
    requires SoundSteps(steps)
    ensures |CreateTransactions(template, steps, theme, solc, files)| <= 1
    ensures steps.coinName(theme).Err? ==> CreateTransactions(template, steps, theme, solc, files) == []
    ensures steps.coinName(theme).Ok? && steps.tokenomics(CoinName(steps.coinName(theme).value)).Err? ==>
      CreateTransactions(template, steps, theme, solc, files) == []
  {
  }

  /** With the generator's own steps, creating a coin fails whenever its
      naming step fails, and then sends nothing. */
  lemma GeneratorNamingFailureStops(template: string, complete: Completion, parse: JsonParser, theme: Option<string>,
                                    solc: Solc, files: map<string, string>, network: Network, timestamp: string)
    requires GenerateCoinName(theme, complete, parse).Err?
    ensures var steps := GeneratorSteps(complete, parse);
      && CreateOutcome(template, steps, theme, solc, files, network, timestamp)
         == Err(CreateErrorPrefix + GenerateCoinName(theme, complete, parse).message)
      && CreateTransactions(template, steps, theme, solc, files) == []
  {
    GeneratorStepsSound(complete, parse);
    var steps := GeneratorSteps(complete, parse);
    assert steps.coinName(theme) == GenerateCoinName(theme, complete, parse);
  }

  const SavedPrefix: string := "Deployment details saved to "
  const SaveErrorPrefix: string := "Error saving deployment details: "
  const DefaultDetailsFile: string := "deployment_details.json"

  /** A line written to the console or to its error stream. */
  datatype LogLine = Info(text: string) | ErrorLog(text: string)

  /** The agent: its generator, its deployer and the coins created so far,
      oldest first. */
  class MemeCoinAgent {
    const generator: Steps
    const deployer: MemeDeployer
    var deploymentHistory: seq<DeploymentRecord>

    /** A new agent: the given generator, a fresh deployer for the given
        template text on Base Sepolia, and an empty history (lines 7-12). */
    constructor (templateText: string, steps: Steps)
      ensures generator == steps
      ensures fresh(deployer)
      ensures deployer.chainId == BaseSepoliaChainId && deployer.template == templateText
      ensures deployer.sentTransactions == []
      ensures deploymentHistory == []
    {
      generator := steps;
      deployer := new MemeDeployer(templateText);
      deploymentHistory := [];
    }

    /** `initialize()`: the deployer's network check first, over the
        provider's answer `connected`; the outcome of the generator's
        connection check, `connectionError`, matters only once the network
        check has passed. */
    method Initialize(connected: Result<nat>, connectionError: Option<string>) returns (r: Result<nat>)
      ensures r.Ok? <==> connected == Ok(deployer.chainId) && connectionError.None?
      ensures connected.Err? ==> r == Err(InitializationErrorPrefix + connected.message)
      ensures connected.Ok? && connected.value != deployer.chainId ==>
        r == Err(InitializationErrorPrefix + WrongNetworkMessage(connected.value))
      ensures connected == Ok(deployer.chainId) && connectionError.Some? ==> r == Err(connectionError.value)
    {
      r := deployer.Initialize(connected);
      if r.Err? {
        return r;
      }
      if connectionError.Some? {
        return Err(connectionError.value);
      }
    }

    /** `createMemeCoin(theme)`: the record is appended to the history only
        when every step succeeds; on any failure the history is unchanged. */
    method CreateMemeCoin(theme: Option<string>, solc: Solc, files: map<string, string>,
                          network: Network, timestamp: string)
      returns (r: Result<DeploymentRecord>)
      requires SoundSteps(generator)
      modifies this, deployer
      ensures r == CreateOutcome(deployer.template, generator, theme, solc, files, network, timestamp)
      ensures r.Ok? ==> deploymentHistory == old(deploymentHistory) + [r.value]
      ensures r.Err? ==> deploymentHistory == old(deploymentHistory)
      ensures deployer.sentTransactions
           == old(deployer.sentTransactions) + CreateTransactions(deployer.template, generator, theme, solc, files)
    {
      var named := generator.coinName(theme);
      if named.Err? {
        return Err(CreateErrorPrefix + named.message);
      }
      var details := named.value;
      var planned := generator.tokenomics(CoinName(details));
      if planned.Err? {
        return Err(CreateErrorPrefix + planned.message);
      }
      var tokenomics := planned.value;
      var deployed := deployer.DeployContract(CoinName(details), CoinSymbol(details), tokenomics.totalSupply,
                                              solc, files, network);
      if deployed.Err? {
        return Err(CreateErrorPrefix + deployed.message);
      }
      var record := DeploymentRecord(timestamp, deployed.value, details, tokenomics);
      deploymentHistory := deploymentHistory + [record];
      r := Ok(record);
    }

    /** `getDeploymentHistory()`: the records, oldest first. */
    method GetDeploymentHistory() returns (h: seq<DeploymentRecord>)
      ensures h == deploymentHistory
    {
      h := deploymentHistory;
    }

    /** `saveDeploymentDetails(result, filename)`: never fails. `writeError`
        is the failure of the file write, if any; the outcome is only the
        line logged, and the agent's state is untouched. */
    method SaveDeploymentDetails(details: DeploymentRecord, writeError: Option<string>,
                                 filename: string := DefaultDetailsFile)
      returns (logged: LogLine)
      ensures writeError.None? ==> logged == Info(SavedPrefix + filename)
      ensures writeError.Some? ==> logged == ErrorLog(SaveErrorPrefix + writeError.value)
    {
      if writeError.Some? {
        return ErrorLog(SaveErrorPrefix + writeError.value);
      }
      return Info(SavedPrefix + filename);
    }
  }

  /** The agent the application builds: the generator's steps over the
      completion service and the JSON parser, and a deployer that renders the
      meme-coin template. */
  method NewMemeCoinAgent(complete: Completion, parse: JsonParser) returns (agent: MemeCoinAgent)
    ensures fresh(agent) && fresh(agent.deployer)
    ensures agent.generator == GeneratorSteps(complete, parse)
    ensures agent.deployer.template == MemeCoinContract() && agent.deployer.chainId == BaseSepoliaChainId
    ensures agent.deployer.sentTransactions == [] && agent.deploymentHistory == []
  {
    agent := new MemeCoinAgent(MemeCoinContract(), GeneratorSteps(complete, parse));
  }
}
