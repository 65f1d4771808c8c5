/** `MemeDeployer` (src/MemeDeployer.js): the rendering of the template with
    the coin's name, symbol and supply, the chain-id guard of `initialize`,
    and the compile-then-deploy sequence of `deployContract`. The chain is the
    parameter `network`: it receives the deploy transaction and answers with
    the contract address and the receipt, or with a failure. */
module Deployer {
  import opened Wrappers
  import opened JsText
  import opened JsNumber
  import opened TemplateText
  import opened ContractTemplate
  import opened Compiler

  // ---------------------------------------------------------------------------
  // Rendering the template

  /** Lines 32-35: three global replacements of the literal placeholders in
      the template text, in the order name, symbol, supply. The name and the
      symbol hold no `$`, so `replace` inserts them as they are. */
  function RenderContract(template: string, name: string, symbol: string, totalSupply: Number): string
    requires '$' !in name && '$' !in symbol
  {
    ReplacePlaceholders(template, name, symbol, ToString(totalSupply))
  }

  /** The three global replacements over any text. */
  function ReplacePlaceholders(text: string, name: string, symbol: string, supply: string): string {
    var withName := ReplaceAll(text, Pattern(TokenName), name);
    var withSymbol := ReplaceAll(withName, Pattern(TokenSymbol), symbol);
    ReplaceAll(withSymbol, Pattern(TotalSupply), supply)
  }

  /** Over the text of any pieces, with brace-free values, each global
      replacement turns exactly the pieces of its placeholder into text. */
  lemma ReplacePlaceholdersSubstitutes(ps: seq<Piece>, name: Literal, symbol: Literal, supply: Literal)
    ensures ReplacePlaceholders(Flat(ps), name, symbol, supply) == Flat(SubstituteAll(ps, name, symbol, supply))
  {
    ReplaceAllFlat(ps, TokenName, name);
    var t1 := Substitute(ps, TokenName, name);
    ReplaceAllFlat(t1, TokenSymbol, symbol);
    var t2 := Substitute(t1, TokenSymbol, symbol);
    ReplaceAllFlat(t2, TotalSupply, supply);
  }

  /** Rendering text held as pieces replaces every placeholder, wherever it
      stands, by its value, and keeps every other character. */
  lemma RenderFills(ps: seq<Piece>, name: Literal, symbol: Literal, totalSupply: Number)
    requires '$' !in name && '$' !in symbol
    ensures RenderContract(Flat(ps), name, symbol, totalSupply) == Fill(ps, name, symbol, ToString(totalSupply))
  {
    var supply: Literal := ToString(totalSupply);
    ReplacePlaceholdersSubstitutes(ps, name, symbol, supply);
    SubstituteAllFills(ps, name, symbol, supply);
  }

  /** No placeholder is left in the render when the name and the symbol hold
      no brace. */
  lemma RenderLeavesNoPlaceholder(ps: seq<Piece>, name: Literal, symbol: Literal, totalSupply: Number,
                                  h: Placeholder)
    requires '$' !in name && '$' !in symbol
    ensures !Contains(RenderContract(Flat(ps), name, symbol, totalSupply), Pattern(h))
  {
    var supply: Literal := ToString(totalSupply);
    var filled := SubstituteAll(ps, name, symbol, supply);
    ReplacePlaceholdersSubstitutes(ps, name, symbol, supply);
    OccurrencesFlat(filled, h);
    SubstituteAllNoHoles(ps, name, symbol, supply, h);
    OccurrencesZeroIffAbsent(Flat(filled), Pattern(h));
  }

  /** Line 8 as rendered: the contract is named after the token with `Token`
      appended. */
  function ContractDeclaration(name: string): string {
    "contract " + name + "Token is ERC20, Ownable {\n"
  }

  /** Line 9 as rendered: the supply in whole tokens, scaled by 10^18. */
  function SupplyDeclaration(supply: string): string {
    "    uint256 public constant TOTAL_SUPPLY = " + supply + " * 10**18;\n"
  }

  /** Line 15 as rendered: the ERC20 token name and symbol. */
  function ConstructorDeclaration(name: string, symbol: string): string {
    "    constructor() ERC20(\"" + name + "\", \"" + symbol + "\") {\n"
  }

  /** The rendered template line by line: the template's own text, with the
      three lines that held placeholders now carrying the name, the supply
      and the symbol. */
  lemma RenderText(name: Literal, symbol: Literal, totalSupply: Number)
    requires '$' !in name && '$' !in symbol
    ensures RenderContract(MemeCoinContract(), name, symbol, totalSupply)
         == Flat(Preamble()) + ContractDeclaration(name) + SupplyDeclaration(ToString(totalSupply))
            + Flat(LimitDeclarations()) + ConstructorDeclaration(name, symbol) + Flat(ConstructorBody())
            + Flat(TransferHook()) + Flat(LimitAdmin())
  {
    RenderTemplateFills(name, symbol, totalSupply);
    TemplateLines(name, symbol, ToString(totalSupply));
  }

  /** The render of the meme-coin template is the template filled. */
  lemma RenderTemplateFills(name: Literal, symbol: Literal, totalSupply: Number)
    requires '$' !in name && '$' !in symbol
    ensures RenderContract(MemeCoinContract(), name, symbol, totalSupply)
         == Fill(TemplatePieces(), name, symbol, ToString(totalSupply))
  {
    RenderFills(TemplatePieces(), name, symbol, totalSupply);
  }

  /** The filled meme-coin template line by line. */
  lemma TemplateLines(name: string, symbol: string, supply: string)
    ensures Fill(TemplatePieces(), name, symbol, supply)
         == Flat(Preamble()) + ContractDeclaration(name) + SupplyDeclaration(supply)
            + Flat(LimitDeclarations()) + ConstructorDeclaration(name, symbol) + Flat(ConstructorBody())
            + Flat(TransferHook()) + Flat(LimitAdmin())
  {
    FillLayout(Template(), name, symbol, supply);
    ContractLine(name);
    SupplyLine(supply);
    ConstructorLine(name, symbol);
  }

  /** The fixed text around the placeholder of line 8. */
  lemma ContractLine(name: string)
    ensures Flat(Line8Head()) + name + Flat(Line8Tail()) == ContractDeclaration(name)
  {
  }

  /** The fixed text around the placeholder of line 9. */
  lemma SupplyLine(supply: string)
    ensures Flat(Line9Head()) + supply + Flat(Line9Tail()) == SupplyDeclaration(supply)
  {
    assert Flat(Line9Head()) == "    uint256 public constant TOTAL_SUPPLY = ";
    assert Flat(Line9Tail()) == " * 10**18;\n";
  }

  /** The fixed text around the placeholders of line 15. */
  lemma ConstructorLine(name: string, symbol: string)
    ensures Flat(Line15Head()) + name + Flat(Line15Middle()) + symbol + Flat(Line15Tail())
         == ConstructorDeclaration(name, symbol)
  {
  }

  /** The rendered template declares the contract `<name>Token`. */
  lemma RenderDeclaresContract(name: Literal, symbol: Literal, totalSupply: Number)
    requires '$' !in name && '$' !in symbol
    ensures Contains(RenderContract(MemeCoinContract(), name, symbol, totalSupply), ContractDeclaration(name))
  {
    RenderText(name, symbol, totalSupply);
    LinesContained(Flat(Preamble()), ContractDeclaration(name), SupplyDeclaration(ToString(totalSupply)),
                   Flat(LimitDeclarations()), ConstructorDeclaration(name, symbol), Flat(ConstructorBody()),
                   Flat(TransferHook()), Flat(LimitAdmin()));
  }

  /** The rendered template declares the supply constant from the decimal
      form of the supply. */
  lemma RenderDeclaresSupply(name: Literal, symbol: Literal, totalSupply: Number)
    requires '$' !in name && '$' !in symbol
    ensures Contains(RenderContract(MemeCoinContract(), name, symbol, totalSupply),
                     SupplyDeclaration(ToString(totalSupply)))
  {
    RenderText(name, symbol, totalSupply);
    LinesContained(Flat(Preamble()), ContractDeclaration(name), SupplyDeclaration(ToString(totalSupply)),
                   Flat(LimitDeclarations()), ConstructorDeclaration(name, symbol), Flat(ConstructorBody()),
                   Flat(TransferHook()), Flat(LimitAdmin()));
  }

  /** The rendered template passes the name and the symbol to ERC20. */
  lemma RenderDeclaresToken(name: Literal, symbol: Literal, totalSupply: Number)
    requires '$' !in name && '$' !in symbol
    ensures Contains(RenderContract(MemeCoinContract(), name, symbol, totalSupply),
                     ConstructorDeclaration(name, symbol))
  {
    RenderText(name, symbol, totalSupply);
    LinesContained(Flat(Preamble()), ContractDeclaration(name), SupplyDeclaration(ToString(totalSupply)),
                   Flat(LimitDeclarations()), ConstructorDeclaration(name, symbol), Flat(ConstructorBody()),
                   Flat(TransferHook()), Flat(LimitAdmin()));
  }

  /** Each of the lines in the second, third and fifth place occurs in the
      text. */
  lemma LinesContained(p: string, a: string, b: string, l: string, c: string, x: string, y: string, z: string)
    ensures Contains(p + a + b + l + c + x + y + z, a)
    ensures Contains(p + a + b + l + c + x + y + z, b)
    ensures Contains(p + a + b + l + c + x + y + z, c)
  {
    var r := p + a + b + l + c + x + y + z;
    assert r == p + a + (b + l + c + x + y + z);
    ContainsMiddle(p, a, b + l + c + x + y + z);
    assert r == (p + a) + b + (l + c + x + y + z);
    ContainsMiddle(p + a, b, l + c + x + y + z);
    assert r == (p + a + b + l) + c + (x + y + z);
    ContainsMiddle(p + a + b + l, c, x + y + z);
  }

  lemma ContainsMiddle(x: string, m: string, y: string)
    ensures Contains(x + m + y, m)
  {
    assert (x + m + y)[|x|..|x| + |m|] == m;
    assert OccursAt(x + m + y, m, |x|);
  }

  // ---------------------------------------------------------------------------
  // The network guard

  /** Base Sepolia. */
  const BaseSepoliaChainId: nat := 84532

  const InitializationErrorPrefix: string := "Initialization error: "

  /** The message for a connection to another chain, with its id in decimal. */
  function WrongNetworkMessage(networkChainId: nat): string {
    "Wrong network. Expected Base Sepolia (84532), got " + DecimalString(networkChainId)
  }

  // ---------------------------------------------------------------------------
  // Deploying

  /** What the chain reports once the deploy transaction is mined. */
  datatype Receipt = Receipt(hash: string, gasUsed: nat, blockNumber: nat)

  /** The deployed contract's address and the receipt of its deployment. */
  datatype Deployment = Deployment(contractAddress: string, receipt: Receipt)

  /** The deploy transaction sent for a compiled contract. */
  datatype DeployTransaction = DeployTransaction(abi: seq<string>, bytecode: string, gasLimit: nat)

  /** The chain: sends the transaction, waits for it and answers. */
  type Network = DeployTransaction -> Result<Deployment>

  /** The record `deployContract` returns (lines 51-57). */
  datatype DeploymentResult = DeploymentResult(
    contractAddress: string,
    transactionHash: string,
    abi: seq<string>,
    gasUsed: string,
    blockNumber: nat)

  const DeployGasLimit: nat := 5000000
  const DeploymentErrorPrefix: string := "Deployment error: "

  /** The deploy transaction for a compiled contract, with the raised gas
      limit. */
  function DeployTransactionOf(artifact: Artifact): (tx: DeployTransaction)
    ensures tx.abi == artifact.abi && tx.bytecode == artifact.bytecode && tx.gasLimit == 5000000
  {
    DeployTransaction(artifact.abi, artifact.bytecode, DeployGasLimit)
  }

  /** Lines 49-61 after the transaction is sent: the result record on
      success, the chain's failure with the `Deployment error: ` prefix
      otherwise. */
  function DeployOutcome(artifact: Artifact, deployed: Result<Deployment>): (r: Result<DeploymentResult>)
    ensures r.Ok? <==> deployed.Ok?
    ensures r.Ok? ==> r.value.abi == artifact.abi
    ensures r.Ok? ==> r.value.contractAddress == deployed.value.contractAddress
    ensures r.Ok? ==> r.value.transactionHash == deployed.value.receipt.hash
    ensures r.Ok? ==> r.value.blockNumber == deployed.value.receipt.blockNumber
    ensures r.Ok? ==> r.value.gasUsed == DecimalString(deployed.value.receipt.gasUsed)
    ensures r.Ok? ==> ParseInt(r.value.gasUsed) == Num(deployed.value.receipt.gasUsed)
    ensures r.Err? ==> r.message == DeploymentErrorPrefix + deployed.message
  {
    match deployed
    case Err(m) => Err(DeploymentErrorPrefix + m)
    case Ok(d) =>
      ParseIntOfDecimalString(d.receipt.gasUsed);
      Ok(DeploymentResult(d.contractAddress, d.receipt.hash, artifact.abi,
                          DecimalString(d.receipt.gasUsed), d.receipt.blockNumber))
  }

  /** The deploy transactions `deployContract` sends: one when the rendered
      source compiles, none when compilation fails. */
  function DeployTransactions(template: string, name: string, symbol: string, totalSupply: Number,
                              solc: Solc, files: map<string, string>): seq<DeployTransaction>
    requires '$' !in name && '$' !in symbol
  {
    var compiled := CompileContract(RenderContract(template, name, symbol, totalSupply), solc, files);
    if compiled.Err? then [] else [DeployTransactionOf(compiled.value)]
  }

  /** What `deployContract` returns or throws: the compilation failure or the
      chain's answer, each failure with the `Deployment error: ` prefix. */
  function DeployResult(template: string, name: string, symbol: string, totalSupply: Number,
                        solc: Solc, files: map<string, string>, network: Network): (r: Result<DeploymentResult>)
    requires '$' !in name && '$' !in symbol
    ensures r.Err? ==> DeploymentErrorPrefix <= r.message
  {
    var compiled := CompileContract(RenderContract(template, name, symbol, totalSupply), solc, files);
    if compiled.Err? then Err(DeploymentErrorPrefix + compiled.message)
    else DeployOutcome(compiled.value, network(DeployTransactionOf(compiled.value)))
  }

  /** Compilation comes before the deploy call: a source that does not
      compile sends no transaction and fails with the compiler's message
      under both prefixes; one that compiles sends exactly one transaction,
      carrying the compiled ABI and bytecode with the raised gas limit. */
  lemma CompileGatesDeployment(template: string, name: string, symbol: string, totalSupply: Number,
                               solc: Solc, files: map<string, string>, network: Network)
    requires '$' !in name && '$' !in symbol
    ensures var compiled := CompileContract(RenderContract(template, name, symbol, totalSupply), solc, files);
      var sent := DeployTransactions(template, name, symbol, totalSupply, solc, files);
      var r := DeployResult(template, name, symbol, totalSupply, solc, files, network);
      && (sent == [] <==> compiled.Err?)
      && (compiled.Err? ==> r.Err? && DeploymentErrorPrefix + CompilationErrorPrefix <= r.message)
      && (compiled.Ok? ==> sent == [DeployTransaction(compiled.value.abi, compiled.value.bytecode, 5000000)])
  {
    var compiled := CompileContract(RenderContract(template, name, symbol, totalSupply), solc, files);
    if compiled.Err? {
      var m := DeployResult(template, name, symbol, totalSupply, solc, files, network).message;
      assert m == DeploymentErrorPrefix + compiled.message;
      assert (DeploymentErrorPrefix + compiled.message)[..|DeploymentErrorPrefix + CompilationErrorPrefix|]
          == DeploymentErrorPrefix + compiled.message[..|CompilationErrorPrefix|];
    }
  }

  /** A successful deployment: the source compiled, the chain accepted the
      transaction, and the record carries the compiled ABI, the address, the
      receipt's hash and block, and the gas used in decimal. */
  lemma DeployResultOk(template: string, name: string, symbol: string, totalSupply: Number,
                       solc: Solc, files: map<string, string>, network: Network)
    requires '$' !in name && '$' !in symbol
    ensures var compiled := CompileContract(RenderContract(template, name, symbol, totalSupply), solc, files);
      var r := DeployResult(template, name, symbol, totalSupply, solc, files, network);
      && (r.Ok? <==> compiled.Ok? && network(DeployTransactionOf(compiled.value)).Ok?)
      && (r.Ok? ==>
            var d := network(DeployTransactionOf(compiled.value)).value;
            && r.value.abi == compiled.value.abi
            && r.value.contractAddress == d.contractAddress
            && r.value.transactionHash == d.receipt.hash
            && r.value.blockNumber == d.receipt.blockNumber
            && r.value.gasUsed == DecimalString(d.receipt.gasUsed)
            && ParseInt(r.value.gasUsed) == Num(d.receipt.gasUsed))
  {
  }

  /** The deployer: the chain it expects, the template text it renders, and
      the deploy transactions it has sent so far. */
  class MemeDeployer {
    const chainId: nat
    const template: string
    var sentTransactions: seq<DeployTransaction>

    /** A deployer for the given template text; the agent builds it with the
        meme-coin template. */
    constructor (templateText: string)
      ensures chainId == BaseSepoliaChainId && template == templateText && sentTransactions == []
    {
      chainId := BaseSepoliaChainId;
      template := templateText;
      sentTransactions := [];
    }

    /** `initialize()`: `connected` is what the provider answers when asked
        for its network, the chain id or a failure. Accepted only on the
        expected chain; the provider's failure and the wrong-network message
        are both raised with the `Initialization error: ` prefix. */
    method Initialize(connected: Result<nat>) returns (r: Result<nat>)
      ensures r.Ok? <==> connected == Ok(chainId)
      ensures r.Ok? ==> r.value == chainId
      ensures connected.Err? ==> r == Err(InitializationErrorPrefix + connected.message)
      ensures connected.Ok? && connected.value != chainId ==>
        r == Err(InitializationErrorPrefix + WrongNetworkMessage(connected.value))
    {
      if connected.Err? {
        return Err(InitializationErrorPrefix + connected.message);
      }
      if connected.value != chainId {
        return Err(InitializationErrorPrefix + WrongNetworkMessage(connected.value));
      }
      return Ok(connected.value);
    }

    /** `deployContract(name, symbol, totalSupply)`: render, compile, and only
        when compilation succeeds send one deploy transaction. */
    method DeployContract(name: string, symbol: string, totalSupply: Number,
                          solc: Solc, files: map<string, string>, network: Network)
      returns (r: Result<DeploymentResult>)
      requires '$' !in name && '$' !in symbol
      modifies this
      ensures r == DeployResult(template, name, symbol, totalSupply, solc, files, network)
      ensures sentTransactions == old(sentTransactions) + DeployTransactions(template, name, symbol, totalSupply, solc, files)
    {
      var source := RenderContract(template, name, symbol, totalSupply);
      var compiled := CompileContract(source, solc, files);
      if compiled.Err? {
        return Err(DeploymentErrorPrefix + compiled.message);
      }
      var tx := DeployTransactionOf(compiled.value);
      sentTransactions := sentTransactions + [tx];
      r := DeployOutcome(compiled.value, network(tx));
    }
  }
}
