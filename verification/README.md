# Meme-coin generator: a Dafny model of its core

The meme-coin generator asks a language model for a coin name and for
tokenomics, fills a Solidity ERC20 template with the result, compiles it with
`solc`, and deploys it to Base Sepolia. `MemeCoinAgent` drives these steps
and keeps a history of the coins it has created.

This project models the parts of that pipeline which the repository's own
code decides, and proves what they promise:

- **Reply cleanup and validation** (`Generator`): the `generateCoinName` and
  `generateTokenomics` steps from the moment a reply arrives. This covers
  fence stripping, brace extraction, the identity checks (name, symbol,
  description), the `parseInt` reading of the tokenomics with NaN handled the
  way JavaScript handles it, and the inclusive range checks.
- **JavaScript built-ins** (`JsText`, `JsNumber`): `trim`, `includes`,
  `split`, `replace` with a string pattern and with a global literal regular
  expression, `join`, `parseInt`, and integer `toString`. They are written
  out so that the rules above mean what they mean in JavaScript.
- **The template** (`TemplateText`, `ContractTemplate`): `MEME_COIN_CONTRACT`
  held as pieces of literal text and placeholders, with the facts rendering
  relies on.
- **The deployer** (`Deployer`): rendering as three global replacements, the
  chain-id guard, and the compile-then-deploy sequence. A `MemeDeployer`
  object records every deploy transaction it sends.
- **The compiler gate** (`Compiler`): the standard-JSON input, the import
  callback, the severity filter over the diagnostics, and the choice of the
  first contract under `Token.sol`.
- **The on-chain rule** (`TokenLimits`): the transfer limits that the
  template spells out in Solidity, plus a `MemeToken` object holding the
  exclusion map that the owner toggles.
- **The agent** (`Agent`): `MemeCoinAgent`, with its append-only deployment
  history.

Everything outside the repository is a parameter:

- the completion service (`Completion`);
- `JSON.parse` (`JsonParser`);
- the generator's two steps as the agent sees them (`Steps`);
- `solc` (`Solc`);
- the filesystem behind the import callback (a map from paths to contents);
- the chain (`Network`, and the chain id the provider reports);
- the outcome of the language-model connection check;
- the outcome of the file write;
- the clock (the timestamp).

Rendering is a function, so it is deterministic by construction: equal
inputs give equal source text.

## Model

| member | source | states |
|---|---|---|
| Wrappers.Wrap | src/MemeCoinGenerator.js:83-85 | A failing step is re-raised as the prefix followed by its message; a success passes through unchanged. |
| JsText.Trim | src/MemeCoinGenerator.js:59 | `trim` returns a slice of the text with only whitespace cut from either end, and the result neither starts nor ends with whitespace. |
| JsText.TrimIdempotent | src/MemeCoinGenerator.js:63 | Trimming an already trimmed text changes nothing. |
| JsText.Find | src/MemeCoinGenerator.js:62-63 | The index found is an occurrence and no earlier index is one; nothing is found exactly when the text does not `include` the pattern. |
| JsText.ReplaceFirst | src/MemeCoinGenerator.js:73 | `replace` with a string pattern leaves the text unchanged when the pattern is absent; otherwise it replaces only the first occurrence, wherever it is. |
| JsText.OccurrencesZeroIffAbsent | src/MemeDeployer.js:33-35 | A global replace matches nothing exactly when the pattern occurs nowhere in the text. |
| JsText.ReplaceAllAbsent | src/MemeCoinGenerator.js:140 | A global replace of a pattern that is never matched returns the text unchanged. |
| JsText.ReplaceAll | src/MemeCoinGenerator.js:140 | A global replace lengthens the text by the replacement's excess over the pattern once for every match the scan makes. |
| JsText.Without | src/MemeCoinGenerator.js:140 | Removing a character leaves a text without it and no longer than before. |
| JsText.WithoutKeepsOthers | src/MemeCoinGenerator.js:140 | Only that character is removed: every other character occurs as often as before. |
| JsText.WithoutAppend | src/MemeCoinGenerator.js:140 | Removal works piecewise over concatenation, so the kept characters stay in their order. |
| JsText.ReplaceAllCharByNothing | src/MemeCoinGenerator.js:140 | Replacing a one-character pattern globally by nothing removes exactly that character's occurrences and keeps every other character in order. |
| JsText.Join | src/ContractCompiler.js:60 | Joining no parts gives the empty text and one part gives that part. Otherwise the result starts with the first part and ends with the last. |
| JsText.JoinLength | src/ContractCompiler.js:60 | The joined text is as long as all the parts plus one separator between each two neighbours. |
| JsNumber.DecimalString | src/MemeDeployer.js:55 | `String(n)` of an integer is non-empty and made of decimal digits, with an optional leading `-`. |
| JsNumber.ToString | src/MemeDeployer.js:35 | The supply's `toString()` holds no `{`, no `$` and no comma. |
| JsNumber.ParseIntOfDigits | src/MemeCoinGenerator.js:140-143 | `parseInt` of a run of decimal digits, with or without a leading `-`, is the value of those digits. |
| JsNumber.ParseIntOfDecimalString | src/MemeCoinGenerator.js:140-143 | `parseInt(String(n)) === n` for every integer `n`. |
| JsNumber.ParseIntOfNonDigit | src/MemeCoinGenerator.js:140 | Text that starts with a character other than whitespace, a sign or a digit reads as NaN. |
| JsNumber.WithoutCommasOfDecimal | src/MemeCoinGenerator.js:140 | Removing commas leaves the decimal form of an integer unchanged. |
| JsNumber.WithoutCommas | src/MemeCoinGenerator.js:140 | `replace(/,/g, '')` removes exactly the commas and keeps every other character in order. |
| JsNumber.SupplyWithSeparators | src/MemeCoinGenerator.js:140 | A supply written "500,000,000" reads as 500000000. |
| Generator.ThemeContext | src/MemeCoinGenerator.js:35 | The theme clause is empty exactly when no theme or an empty theme is given; otherwise it ends with the theme. |
| Generator.BeforeLacksPattern | src/MemeCoinGenerator.js:63 | `split(pat)[0]` never contains `pat`. |
| Generator.Before | src/MemeCoinGenerator.js:63 | `split(pat)[0]` is the longest prefix before any occurrence of `pat`: it is the whole text when `pat` does not occur, and otherwise ends right where the first occurrence starts. |
| Generator.SecondPiece | src/MemeCoinGenerator.js:63 | `split(pat)[1]` is empty without an occurrence; otherwise it is the text after the first occurrence, up to the next one. |
| Generator.StripJsonFenceSpec | src/MemeCoinGenerator.js:59-64 | The kept naming reply is trimmed. It is the trimmed reply when that reply holds no ```` ```json ````. When it does, it is the trimmed text that follows the first ```` ```json ````, cut before the next ```` ```json ```` and then before the first ```` ``` ````, so it holds no ```` ``` ````. |
| Generator.StripJsonFenceIdempotent | src/MemeCoinGenerator.js:59-64 | Cleaning an already cleaned naming reply changes nothing. |
| Generator.CheckCoinIdentity | src/MemeCoinGenerator.js:69-81 | An accepted identity is returned as the parsed object itself, extra keys included. |
| Generator.NameFormatSound | src/MemeCoinGenerator.js:73-75 | A name that passes the check is an ASCII alphanumeric word other than `Token`. |
| Generator.NameFormatComplete | src/MemeCoinGenerator.js:73-75 | Every ASCII alphanumeric word other than `Token` passes the check, although only the first `Token` is deleted before the test. |
| Generator.NameFormatIff | src/MemeCoinGenerator.js:73-75 | Deleting the first `Token` and then requiring `/^[a-zA-Z0-9]+$/` accepts exactly the alphanumeric words other than `Token`. |
| Generator.CheckCoinIdentityIff | src/MemeCoinGenerator.js:69-79 | The identity checks accept exactly the valid identities: name, symbol and description present and truthy, a valid name, and 3 or 4 capital letters as symbol. A missing or empty field is reported as "Missing required fields in response" before any format check. |
| Generator.GenerateCoinName | src/MemeCoinGenerator.js:33-86 | The step succeeds exactly when the cleaned reply parses to a valid identity, and then returns that parsed object. A syntax error or a failed check is re-thrown as "Error generating coin name: " followed by its own message. |
| Generator.ValidIdentityPlain | src/MemeCoinGenerator.js:73-79 | A validated name or symbol holds no `$` and no `{`, so rendering inserts it as it is. |
| Generator.FindFirst | src/MemeCoinGenerator.js:119 | The index returned holds the character and no earlier index does. |
| Generator.FindLast | src/MemeCoinGenerator.js:119 | The index returned holds the character and no later index does. |
| Generator.ExtractBracesSpec | src/MemeCoinGenerator.js:119 | When some `{` has a `}` after it, the result runs from the first `{` to the last `}` inclusive; otherwise the text is unchanged. |
| Generator.ExtractBracesIdempotent | src/MemeCoinGenerator.js:119 | Extracting the braces a second time changes nothing. |
| Generator.StripLeadingFence | src/MemeCoinGenerator.js:115-116 | `replace(/^<fence>\s*/, '')` keeps the text when it does not start with the fence, and otherwise keeps a suffix that excludes the fence. |
| Generator.StripLeadingFenceSpec | src/MemeCoinGenerator.js:115-116 | What is cut along with the fence is whitespace only, and the kept text does not start with whitespace. |
| Generator.StripTrailingFence | src/MemeCoinGenerator.js:115-116 | `replace(/```$/, '')` removes a fence that ends the text, and changes nothing otherwise. |
| Generator.CleanTokenomicsReplyBraces | src/MemeCoinGenerator.js:111-119 | When the trimmed reply holds a `{` with a `}` after it, the whole cleanup gives exactly the text from its first `{` to its last `}`. The fence removals never cut a brace. |
| Generator.TwoRoundsKeepBraces | src/MemeCoinGenerator.js:115-119 | Two fence-removal rounds with brace-free fences leave the brace extraction's result unchanged. |
| Generator.CheckRanges | src/MemeCoinGenerator.js:146-154 | Tokenomics that pass the range checks are returned unchanged. |
| Generator.CheckRangesIff | src/MemeCoinGenerator.js:146-152 | The checks pass exactly when a readable supply lies in [100000000, 1000000000] and a readable liquidity percent lies in [50, 90]. Both bounds are inclusive, and NaN passes both checks. |
| Generator.CheckTokenomics | src/MemeCoinGenerator.js:127-154 | A record is accepted exactly when all four keys are present and the values read from them pass the range checks, whatever JSON type they have. The accepted tokenomics are exactly those four values. |
| Generator.CommaSupplyAccepted | src/MemeCoinGenerator.js:139-154 | A supply written "500,000,000" with an in-range liquidity percent is accepted as the number 500000000. |
| Generator.MissingTokenomicsKey | src/MemeCoinGenerator.js:134-136 | A record lacking any of the four keys is rejected with "Missing required fields in tokenomics". |
| Generator.ReadIntegerValue | src/MemeCoinGenerator.js:140-143 | An integer JSON value is read back as itself, with or without the comma removal. |
| Generator.IntegerTokenomics | src/MemeCoinGenerator.js:139-154 | With four integer values, the record is accepted exactly when the supply and the liquidity percent are in range. The result holds the four integers; the other two percents are never range-checked. |
| Generator.UnreadableSupplyPasses | src/MemeCoinGenerator.js:140-148 | A supply of "unknown" reads as NaN and is not rejected by the range checks. |
| Generator.UnknownReadsAsNaN | src/MemeCoinGenerator.js:140 | `parseInt` of "unknown" with commas removed is NaN. |
| Generator.GenerateTokenomics | src/MemeCoinGenerator.js:111-161 | The step succeeds exactly when the cleaned reply parses and the parsed record passes the checks; it then returns what the checks return, which passes the range checks. Every failure begins with "Error generating tokenomics: Failed to parse JSON response: ". |
| Generator.ParseFailureMessage | src/MemeCoinGenerator.js:155-160 | The re-thrown parse failure begins with both prefixes. |
| Generator.GeneratorStepsSound | src/MemeCoinGenerator.js:33-162 | The generator's two steps satisfy what the agent relies on: every identity they produce is valid, every tokenomics record they accept passes the range checks, and every failure carries its step's prefix. |
| ContractTemplate.ReplaceAllFlat | src/MemeDeployer.js:33-35 | A global replace of one placeholder over the template text turns exactly the pieces that are that placeholder into the value, and keeps every other character. |
| ContractTemplate.OccurrencesFlat | src/MemeDeployer.js:33-35 | The global scan matches a placeholder exactly as often as it stands in the template. |
| ContractTemplate.SubstituteAllFills | src/MemeDeployer.js:32-35 | Substituting name, symbol and supply, in that order, gives the template with every placeholder filled by its value. |
| ContractTemplate.SubstituteAllNoHoles | src/MemeDeployer.js:32-35 | After the three substitutions no placeholder is left. |
| ContractTemplate.LayoutHoleCount | src/contractTemplate.js:8-15 | In any template laid out like this one, `{TOKEN_NAME}` stands twice, and `{TOKEN_SYMBOL}` and `{TOTAL_SUPPLY}` once each. |
| ContractTemplate.TemplateHoleCounts | src/contractTemplate.js:8-15 | The meme-coin template holds `{TOKEN_NAME}` twice, and `{TOKEN_SYMBOL}` and `{TOTAL_SUPPLY}` once each. |
| ContractTemplate.TemplatePlaceholders | src/contractTemplate.js:8-15 | A global replace finds `{TOKEN_NAME}` twice in `MEME_COIN_CONTRACT`, and `{TOKEN_SYMBOL}` and `{TOTAL_SUPPLY}` once each. |
| ContractTemplate.FillLayout | src/contractTemplate.js:1-62 | Filling the template keeps the text of every part. It puts the name on line 8, the supply on line 9, and the name and symbol on line 15. |
| Deployer.ReplacePlaceholdersSubstitutes | src/MemeDeployer.js:32-35 | The three global replacements over the template text equal the three substitutions over its pieces. |
| Deployer.RenderFills | src/MemeDeployer.js:32-35 | Rendering replaces every occurrence of each placeholder by its value (name, symbol, decimal supply) and leaves every other character untouched. |
| Deployer.RenderLeavesNoPlaceholder | src/MemeDeployer.js:33-35 | The rendered source contains none of the three placeholders. |
| Deployer.RenderTemplateFills | src/MemeDeployer.js:32-35 | Rendering `MEME_COIN_CONTRACT` gives the template filled with the name, the symbol and the decimal supply. |
| Deployer.TemplateLines | src/contractTemplate.js:1-62 | The filled template is the template's own text, with lines 8, 9 and 15 carrying the name, the supply and the symbol. |
| Deployer.ContractLine | src/contractTemplate.js:8 | Line 8 filled is `contract <name>Token is ERC20, Ownable {`. |
| Deployer.SupplyLine | src/contractTemplate.js:9 | Line 9 filled declares `TOTAL_SUPPLY = <supply> * 10**18`. |
| Deployer.ConstructorLine | src/contractTemplate.js:15 | Line 15 filled passes the name and the symbol to `ERC20`. |
| Deployer.RenderText | src/MemeDeployer.js:32-35 | The rendered source, line by line, is the template with lines 8, 9 and 15 carrying the name, the decimal supply and the symbol. |
| Deployer.RenderDeclaresContract | src/MemeDeployer.js:33 | The rendered source declares the contract `<name>Token`. |
| Deployer.RenderDeclaresSupply | src/MemeDeployer.js:35 | The rendered source declares the supply constant from the decimal form of the supply. |
| Deployer.RenderDeclaresToken | src/MemeDeployer.js:33-34 | The rendered source passes the name and the symbol to the ERC20 constructor. |
| Deployer.DeployTransactionOf | src/MemeDeployer.js:41-46 | The deploy transaction carries the compiled ABI and bytecode and a gas limit of 5000000. |
| Deployer.DeployOutcome | src/MemeDeployer.js:49-61 | Once the transaction is sent, success comes exactly when the chain answers. The record then holds the compiled ABI, the address, the receipt's hash and block, and `gas_used` as `String` of the gas used, which reads back as that number. A chain failure carries "Deployment error: ". |
| Deployer.DeployResult | src/MemeDeployer.js:29-62 | Every failure of `deployContract` begins with "Deployment error: ". |
| Deployer.CompileGatesDeployment | src/MemeDeployer.js:38-46 | A source that fails to compile sends no transaction and fails with "Deployment error: Compilation error: ". One that compiles sends exactly one transaction with the compiled ABI and bytecode and gas limit 5000000. |
| Deployer.DeployResultOk | src/MemeDeployer.js:51-57 | Deployment succeeds exactly when compilation and the chain both succeed. The record then holds the compiled ABI, the address, the hash and block from the receipt, and the decimal gas used. |
| Deployer.MemeDeployer.constructor | src/MemeDeployer.js:6-10 | A new deployer expects chain 84532 and has sent nothing. |
| Deployer.MemeDeployer.Initialize | src/MemeDeployer.js:12-27 | Initialisation succeeds exactly when the provider reports chain 84532. A provider failure and the "Wrong network. Expected Base Sepolia (84532), got <id>" message are both raised under "Initialization error: ". |
| Deployer.MemeDeployer.DeployContract | src/MemeDeployer.js:29-62 | Returns the render-compile-deploy outcome. A deploy transaction is appended to the sent log only when compilation succeeds, and never more than one. |
| Compiler.CreateSources | src/ContractCompiler.js:9-15 | The sources hold one entry, `Token.sol`, whose content is the source unchanged. |
| Compiler.CreateInput | src/ContractCompiler.js:17-33 | The input passes the sources through, with language Solidity, the optimizer on with 200 runs, and every output requested for every contract. |
| Compiler.InputCarriesSource | src/ContractCompiler.js:49-50 | The compiler input holds the source under `Token.sol` and nowhere else. |
| Compiler.FindImports | src/ContractCompiler.js:35-45 | The import callback never throws. It returns the contents of a readable path, and "File not found" exactly when the path cannot be read. |
| Compiler.ErrorDiagnostics | src/ContractCompiler.js:57 | The filter keeps exactly the diagnostics of severity `error`, each drawn from the list. |
| Compiler.ErrorDiagnosticsAppend | src/ContractCompiler.js:57 | The filter keeps the order of the list. |
| Compiler.ErrorDiagnosticsEmptyIff | src/ContractCompiler.js:56-58 | Nothing is kept exactly when no diagnostic has severity `error`. |
| Compiler.FormattedMessages | src/ContractCompiler.js:60 | One message per diagnostic, in order. |
| Compiler.ErrorsFailure | src/ContractCompiler.js:59-61 | The errors report begins with "Compilation error: Compilation errors:\n". |
| Compiler.CompileOutput | src/ContractCompiler.js:56-74 | Every failure of the gate begins with "Compilation error: ". |
| Compiler.CompileFailsIffErrorSeverity | src/ContractCompiler.js:56-63 | Compilation reports errors exactly when some diagnostic has severity `error`. The report lists only those diagnostics' messages, in order, joined by newlines. |
| Compiler.HeaderNotInOtherFailure | src/ContractCompiler.js:65-73 | A missing contract is never reported as compilation errors. |
| Compiler.CompileTakesFirstContract | src/ContractCompiler.js:65-71 | Without error diagnostics, the artifact is the ABI and bytecode of the first contract listed under `Token.sol`. |
| Compiler.CompileContract | src/ContractCompiler.js:47-75 | Every failure of `compileContract` begins with "Compilation error: ". |
| TokenLimits.CapsAreExact | src/contractTemplate.js:9-11 | The caps divide the supply in token units exactly: 1% per transaction and 2% per wallet, so the wallet cap is twice the transaction cap. |
| TokenLimits.TransferCheck | src/contractTemplate.js:24-53 | A reverting transfer names one of the two reasons. A passing non-mint transfer between non-excluded accounts respects the transaction cap, and one to a non-excluded, non-zero recipient respects the wallet cap. |
| TokenLimits.MintAlwaysAllowed | src/contractTemplate.js:30-33 | A transfer from the zero address passes whatever its size. |
| TokenLimits.TransactionCapRule | src/contractTemplate.js:36-41 | Above the transaction cap, a non-mint transfer reverts with "Transfer amount exceeds maximum" exactly when neither side is excluded. |
| TokenLimits.SenderExclusionKeepsWalletCap | src/contractTemplate.js:43-50 | An excluded sender does not waive the wallet cap of a non-excluded recipient. |
| TokenLimits.BurnSkipsWalletCap | src/contractTemplate.js:43-50 | A transfer to the zero address is held only to the transaction cap. |
| TokenLimits.SmallerAmountAllowed | src/contractTemplate.js:36-50 | If a transfer passes, a smaller one between the same accounts passes too. |
| TokenLimits.MoreExclusionsAllowed | src/contractTemplate.js:36-50 | Excluding more accounts never makes a passing transfer revert. |
| TokenLimits.ExcludedRecipientNoWalletRevert | src/contractTemplate.js:43-50 | A transfer to an excluded recipient never reverts for the wallet cap. |
| TokenLimits.WithinCapsAllowed | src/contractTemplate.js:30-53 | A transfer within the transaction cap and, for a non-zero recipient, within the wallet cap passes, whoever is excluded, as long as the wallet cap is below 2^256. |
| TokenLimits.MemeToken.constructor | src/contractTemplate.js:15-22 | The deployer owns the token, the deployer and the contract are excluded, and the whole supply is minted to the deployer. |
| TokenLimits.MemeToken.ExcludeFromLimits | src/contractTemplate.js:55-57 | Owner-only: the owner's call returns normally and sets the account's flag and leaves every other flag and every balance unchanged; any other caller reverts with "Ownable: caller is not the owner" and changes nothing. |
| TokenLimits.MemeToken.IncludeInLimits | src/contractTemplate.js:59-61 | Owner-only: the owner's call returns normally and clears the account's flag and leaves every other flag and every balance unchanged; any other caller reverts with "Ownable: caller is not the owner" and changes nothing. |
| Agent.CoinName | src/MemeCoinAgent.js:26 | The name passed on is the identity's name and holds no `$`. |
| Agent.CoinSymbol | src/MemeCoinAgent.js:32 | The symbol passed on is the identity's symbol and holds no `$`. |
| Agent.CreateOutcome | src/MemeCoinAgent.js:19-53 | Every failure of `createMemeCoin` begins with "Error creating meme coin: ". A created record carries the timestamp, a valid identity, and tokenomics that pass the range checks. |
| Agent.CreateSucceedsIffStepsSucceed | src/MemeCoinAgent.js:22-45 | A coin is created exactly when naming, tokenomics for that name, and deployment of that name, symbol and supply all succeed in turn. The record holds exactly the three step results. |
| Agent.CreateFailureNamesStep | src/MemeCoinAgent.js:50-52 | A failed creation carries the failing step's own prefix (naming, tokenomics or deployment) after "Error creating meme coin: ". |
| Agent.CreateSendsAtMostOne | src/MemeCoinAgent.js:22-34 | At most one deploy transaction is sent, and none when either generation step fails. |
| Agent.GeneratorNamingFailureStops | src/MemeCoinAgent.js:22-52 | With the generator's own steps, a naming failure ends creation with the prefixed naming message and sends nothing. |
| Agent.MemeCoinAgent.constructor | src/MemeCoinAgent.js:7-12 | A new agent holds its generator and a fresh deployer for chain 84532 that has sent nothing; its history is empty. |
| Agent.NewMemeCoinAgent | src/MemeCoinAgent.js:7-12 | The application's agent uses the generator's own steps and a deployer of `MEME_COIN_CONTRACT`, and starts with an empty history. |
| Agent.MemeCoinAgent.Initialize | src/MemeCoinAgent.js:14-17 | The deployer's network check runs first, and its failure is the outcome. The connection check's failure matters only once the network check has passed. Initialisation succeeds exactly when both pass. |
| Agent.MemeCoinAgent.CreateMemeCoin | src/MemeCoinAgent.js:19-53 | Returns the creation outcome. On success the history grows by exactly that record, appended after the earlier ones; on any failure the history is unchanged. The deployer's sent log grows only by the deployment's transaction. |
| Agent.MemeCoinAgent.GetDeploymentHistory | src/MemeCoinAgent.js:55-57 | The records in insertion order. |
| Agent.MemeCoinAgent.SaveDeploymentDetails | src/MemeCoinAgent.js:59-66 | Never fails. Logs "Deployment details saved to <file>" (default `deployment_details.json`) or, on a write failure, "Error saving deployment details: <message>". |

## Left out

- The language-model traffic is not modelled: the OpenAI client, the prompts' wording, `temperature`, `max_tokens` and `verifyConnection`. The reply text is the parameter `complete`, and the connection check's failure is a parameter of `initialize`.
- `JSON.parse` is the parameter `parse`, and parsed values are limited to integers and strings. Other JSON values (booleans, arrays, nested objects, fractions) are not modelled.
- `solc.compile` is the parameter `solc`, and its output is given already parsed. The `node_modules` path resolution behind `findImports` is a map from paths to file contents.
- ethers (`JsonRpcProvider`, `Wallet`, `ContractFactory`, `deploy`, `wait`, `getAddress`) is the parameter `network`. It receives the deploy transaction and answers with the address and the receipt; the provider's network answer is a parameter of `initialize`. The deployer's wallet and private key are not modelled.
- The `!this.provider` check of `initialize` (src/MemeDeployer.js:17) is dead code and is not modelled.
- The falsy-result check of `createMemeCoin` (src/MemeCoinAgent.js:36-38) is not modelled, because a deployment that returns always returns a record.
- `fs.writeFile`, `new Date().toISOString()`, `console.log`/`console.error` and `async`/`await` are not modelled. The write's failure and the timestamp are parameters, and every step runs in sequence.
- src/index.js (environment loading, process exit) is not part of this model.
- The ERC20 and Ownable bookkeeping of OpenZeppelin is not part of this model, nor which OpenZeppelin release the template compiles against: balances are given, and the owner is a field.
- Deployer.RenderContract: JavaScript's `$` replacement patterns are not modelled. Rendering requires a name and a symbol without `$`, which a validated identity satisfies.
- Deployer.RenderLeavesNoPlaceholder: requires a name and symbol without `{` rather than merely without placeholder text.
- Agent.MemeCoinAgent.CreateMemeCoin: the generator is held as its two steps (`Steps`), and creation requires them to be sound. `Generator.GeneratorStepsSound` proves that the generator's own steps are.
- The template text is passed to the constructors of `MemeDeployer` and `MemeCoinAgent`. `NewMemeCoinAgent` builds the application's agent with `MEME_COIN_CONTRACT`.
- The engine's `TypeError` texts (a non-string name or symbol, a missing `Token.sol`) are approximated by fixed messages.
- The ABI is kept as opaque JSON text per entry.
- JavaScript numbers are unbounded integers or NaN here. Double-precision rounding of very long digit runs is not modelled.
- JsNumber.DecimalString: `String(n)` switches to exponent form from 10^21 ("1e+21"), and `parseInt` of that text stops at the `e`. The model always writes plain digits, so `JsNumber.ParseIntOfDecimalString` holds for every integer here, while in JavaScript a value such as a `transaction_limit_percent` of 10^21 would be read back as 1.
- Agent.MemeCoinAgent.GetDeploymentHistory: returns the records as a value. The source returns the live array, so a caller that mutates it changes the agent's history; that aliasing is not modelled.
- A reply that `JSON.parse` turns into `null` or into a top-level non-object (such as `5`) cannot be represented, because a parse result here is either an object or a syntax error. In the source `null` raises a `TypeError` at src/MemeCoinGenerator.js:69, a number or a string there fails as "Missing required fields in response", and either raises a `TypeError` from the `in` test at src/MemeCoinGenerator.js:134. Each is caught and re-thrown with the step's prefix.
- `trim` and `\s` use the fixed ECMAScript whitespace set written out in `JsText.IsWhitespace`.
