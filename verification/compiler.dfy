/** `ContractCompiler`: the standard-JSON input handed to the Solidity
    compiler, the import resolver it is given, and the gate over the
    compiler's output (src/ContractCompiler.js). The compiler itself is the
    parameter `solc`, and the filesystem behind the import resolver is a map
    from paths to file contents. */
module Compiler {
  import opened Wrappers
  import opened JsText

  const SourceFileName: string := "Token.sol"

  /** The `sources` object: file names and their contents. */
  type Sources = map<string, string>

  datatype Optimizer = Optimizer(enabled: bool, runs: nat)

  /** The standard-JSON compiler input. `outputSelection` maps a file pattern
      to a contract pattern to the outputs requested. */
  datatype CompilerInput = CompilerInput(
    language: string,
    sources: Sources,
    optimizer: Optimizer,
    outputSelection: map<string, map<string, seq<string>>>)

  /** `createSources(contractSource)`: one file, `Token.sol`, holding the
      source unchanged. */
  function CreateSources(contractSource: string): (r: Sources)
    ensures r.Keys == {SourceFileName}
    ensures r[SourceFileName] == contractSource
  {
    map[SourceFileName := contractSource]
  }

  /** `createInput(sources)`: Solidity, optimizer on with 200 runs, every
      output of every contract in every file requested. */
  function CreateInput(sources: Sources): (r: CompilerInput)
    ensures r.sources == sources
    ensures r.language == "Solidity" && r.optimizer.enabled && r.optimizer.runs == 200
    ensures r.outputSelection.Keys == {"*"} && r.outputSelection["*"] == map["*" := ["*"]]
  {
    CompilerInput("Solidity", sources, Optimizer(true, 200), map["*" := map["*" := ["*"]]])
  }

  /** The compiler reads back exactly the source it was given, under
      `Token.sol` and nowhere else. */
  lemma InputCarriesSource(contractSource: string)
    ensures CreateInput(CreateSources(contractSource)).sources.Keys == {SourceFileName}
    ensures CreateInput(CreateSources(contractSource)).sources[SourceFileName] == contractSource
  {
  }

  /** What the import callback hands back to the compiler. */
  datatype ImportResult = Contents(contents: string) | ImportError(error: string)

  const FileNotFound: string := "File not found"

  /** `findImports(path)` over a filesystem given as a map: never throws; the
      file's text when it can be read, `File not found` otherwise. */
  function FindImports(path: string, files: map<string, string>): (r: ImportResult)
    ensures r.Contents? <==> path in files
    ensures r.Contents? ==> r.contents == files[path]
    ensures r.ImportError? ==> r.error == FileNotFound
  {
    if path in files then Contents(files[path]) else ImportError(FileNotFound)
  }

  /** One entry of the output's `errors` list. */
  datatype Diagnostic = Diagnostic(severity: string, formattedMessage: string)

  /** One compiled contract under a file: its name, its ABI (each entry as
      JSON text) and `evm.bytecode.object`. */
  datatype CompiledContract = CompiledContract(name: string, abi: seq<string>, bytecode: string)

  /** The parsed compiler output: the optional `errors` list and the optional
      `contracts` object, whose contracts per file are listed in key order. */
  datatype CompilerOutput = CompilerOutput(
    errors: Option<seq<Diagnostic>>,
    contracts: Option<map<string, seq<CompiledContract>>>)

  /** The compiler, given the input and the import callback. */
  type Solc = (CompilerInput, string -> ImportResult) -> CompilerOutput

  /** What `compileContract` returns. */
  datatype Artifact = Artifact(abi: seq<string>, bytecode: string)

  /** `errors.filter(error => error.severity === 'error')`. */
  function ErrorDiagnostics(ds: seq<Diagnostic>): (r: seq<Diagnostic>)
    ensures |r| <= |ds|
    ensures forall i | 0 <= i < |r| :: r[i].severity == "error" && r[i] in ds
    ensures forall i | 0 <= i < |ds| && ds[i].severity == "error" :: ds[i] in r
  {
    if ds == [] then []
    else (if ds[0].severity == "error" then [ds[0]] else []) + ErrorDiagnostics(ds[1..])
  }

  /** The filter keeps the order of the list: filtering a concatenation is
      concatenating the filtered parts. */
  lemma {:induction false} ErrorDiagnosticsAppend(a: seq<Diagnostic>, b: seq<Diagnostic>)
    ensures ErrorDiagnostics(a + b) == ErrorDiagnostics(a) + ErrorDiagnostics(b)
  {
    if a != [] {
      assert (a + b)[1..] == a[1..] + b;
      ErrorDiagnosticsAppend(a[1..], b);
      var head := if a[0].severity == "error" then [a[0]] else [];
      assert ErrorDiagnostics(a + b) == head + ErrorDiagnostics(a[1..] + b);
    } else {
      assert a + b == b;
    }
  }

  /** Nothing is kept exactly when no diagnostic has severity `error`. */
  lemma ErrorDiagnosticsEmptyIff(ds: seq<Diagnostic>)
    ensures ErrorDiagnostics(ds) == [] <==> forall i | 0 <= i < |ds| :: ds[i].severity != "error"
  {
    if ErrorDiagnostics(ds) != [] {
      var r := ErrorDiagnostics(ds);
      assert r[0] in ds;
    }
  }

  /** `errors.map(e => e.formattedMessage)`. */
  function FormattedMessages(ds: seq<Diagnostic>): (r: seq<string>)
    ensures |r| == |ds|
    ensures forall i | 0 <= i < |ds| :: r[i] == ds[i].formattedMessage
  {
    if ds == [] then [] else [ds[0].formattedMessage] + FormattedMessages(ds[1..])
  }

  const CompilationErrorPrefix: string := "Compilation error: "
  const CompilationErrorsHeader: string := "Compilation errors:\n"

  /** The JavaScript engine's messages for the property reads that fail when
      `Token.sol` or its first contract is missing from the output. */
  const NoContractsMessage: string := Cannot + "read properties of undefined (reading 'Token.sol')"
  const NoTokenFileMessage: string := Cannot + "convert undefined or null to object"
  const NoFirstContractMessage: string := Cannot + "read properties of undefined (reading 'abi')"
  /** The opening the three messages share; naming it lets a proof read
      their second character without spelling out the whole text. */
  const Cannot: string := "Cannot "

  /** The failure that lists the error diagnostics. */
  function ErrorsFailure(errors: seq<Diagnostic>): (m: string)
    ensures CompilationErrorPrefix + CompilationErrorsHeader <= m
  {
    var head := CompilationErrorPrefix + CompilationErrorsHeader;
    var m := head + Join(FormattedMessages(errors), "\n");
    assert m[..|head|] == head;
    m
  }

  /** Lines 56-71 over a parsed output: an error-severity diagnostic fails
      the compilation; otherwise the first contract listed under `Token.sol`
      is the artifact. Every failure carries the prefix `Compilation error: `. */
  function CompileOutput(output: CompilerOutput): (r: Result<Artifact>)
    ensures r.Err? ==> CompilationErrorPrefix <= r.message
  {
    var errors := if output.errors.Some? then ErrorDiagnostics(output.errors.value) else [];
    if errors != [] then Err(ErrorsFailure(errors))
    else if output.contracts.None? then Err(CompilationErrorPrefix + NoContractsMessage)
    else if SourceFileName !in output.contracts.value then Err(CompilationErrorPrefix + NoTokenFileMessage)
    else
      var listed := output.contracts.value[SourceFileName];
      if listed == [] then Err(CompilationErrorPrefix + NoFirstContractMessage)
      else Ok(Artifact(listed[0].abi, listed[0].bytecode))
  }

  /** An output holding at least one diagnostic of severity exactly `error`. */
  predicate HasErrorSeverity(output: CompilerOutput) {
    output.errors.Some? && exists i | 0 <= i < |output.errors.value| :: output.errors.value[i].severity == "error"
  }

  /** The compilation reports compilation errors exactly when some diagnostic
      has severity `error`, and the report lists those diagnostics only, in
      order. Warnings, informational diagnostics and an absent list never
      fail it. */
  lemma CompileFailsIffErrorSeverity(output: CompilerOutput)
    ensures HasErrorSeverity(output) <==>
      CompileOutput(output).Err? && CompilationErrorPrefix + CompilationErrorsHeader <= CompileOutput(output).message
    ensures HasErrorSeverity(output) ==>
      CompileOutput(output) == Err(CompilationErrorPrefix + CompilationErrorsHeader
                                   + Join(FormattedMessages(ErrorDiagnostics(output.errors.value)), "\n"))
  {
    if output.errors.Some? {
      ErrorDiagnosticsEmptyIff(output.errors.value);
    }
    HeaderNotInOtherFailure(NoContractsMessage);
    HeaderNotInOtherFailure(NoTokenFileMessage);
    HeaderNotInOtherFailure(NoFirstContractMessage);
  }

  /** None of the other failures begins with the errors header. */
  lemma HeaderNotInOtherFailure(x: string)
    requires x == NoContractsMessage || x == NoTokenFileMessage || x == NoFirstContractMessage
    ensures !(CompilationErrorPrefix + CompilationErrorsHeader <= CompilationErrorPrefix + x)
  {
    var k := |CompilationErrorPrefix|;
    assert x[1] == Cannot[1] == 'a';
    assert (CompilationErrorPrefix + x)[k + 1] == x[1];
    assert (CompilationErrorPrefix + CompilationErrorsHeader)[k + 1] == 'o';
  }

  /** An output free of error diagnostics that lists a contract under
      `Token.sol` yields the ABI and bytecode of the first contract listed. */
  lemma CompileTakesFirstContract(output: CompilerOutput)
    requires !HasErrorSeverity(output)
    requires output.contracts.Some? && SourceFileName in output.contracts.value
    requires output.contracts.value[SourceFileName] != []
    ensures CompileOutput(output)
         == Ok(Artifact(output.contracts.value[SourceFileName][0].abi,
                        output.contracts.value[SourceFileName][0].bytecode))
  {
    if output.errors.Some? {
      ErrorDiagnosticsEmptyIff(output.errors.value);
    }
  }

  /** `compileContract(contractSource)`: build the input, run the compiler
      with the import callback over `files`, and gate its output. */
  function CompileContract(contractSource: string, solc: Solc, files: map<string, string>): (r: Result<Artifact>)
    ensures r.Err? ==> CompilationErrorPrefix <= r.message
  {
    CompileOutput(solc(CreateInput(CreateSources(contractSource)), path => FindImports(path, files)))
  }
}
