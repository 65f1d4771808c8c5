/** The text of the Solidity template `MEME_COIN_CONTRACT`
    (src/contractTemplate.js:1-62), held as pieces: literal text that holds no
    `{`, the two characters `{` and newline (the only way a `{` appears in the
    template's own text), and the three placeholders. Each function covers the
    template lines its name gives, numbered as the lines of that file; a long
    line is cut into parts `a`, `b`, `c` (each piece is checked to hold no
    `{` character by character, so pieces are kept short), and the three
    lines that hold placeholders are cut at them into a head, a tail and, on
    line 15, a middle. */
module TemplateText {
  /** Template text that cannot start a placeholder. */
  type Literal = s: string | forall i | 0 <= i < |s| :: s[i] != '{'

  datatype Placeholder = TokenName | TokenSymbol | TotalSupply

  datatype Piece = Text(s: Literal) | OpenBrace | Hole(h: Placeholder)

  /** Pieces without a placeholder. */
  type Fixed = ps: seq<Piece> | forall i | 0 <= i < |ps| :: !ps[i].Hole?

  function Lines1To2(): Fixed {
    [Text("\n"),
     Text("// SPDX-License-"),
     Text("Identifier: MIT\n")]
  }

  function Lines3To4(): Fixed {
    [Text("pragma solidity ^0.8.20;\n"),
     Text("\n")]
  }

  function Line5a(): Fixed {
    [Text("import \"@openzeppelin/contracts/")]
  }

  function Line5b(): Fixed {
    [Text("token/ERC20/ERC20.sol\";\n")]
  }

  function Line6a(): Fixed {
    [Text("import \"@openzeppelin/contracts/")]
  }

  function Line6b(): Fixed {
    [Text("access/Ownable.sol\";\n")]
  }

  function Line7(): Fixed {
    [Text("\n")]
  }

  function Line8Head(): Fixed {
    [Text("contract ")]
  }

  function Line8Tail(): Fixed {
    [Text("Token is ERC20, Ownable "),
     OpenBrace]
  }

  function Line9Head(): Fixed {
    [Text("    uint256 public constant "),
     Text("TOTAL_SUPPLY = ")]
  }

  function Line9Tail(): Fixed {
    [Text(" * 10**18;\n")]
  }

  function Line10a(): Fixed {
    [Text("    uint256 public constant ")]
  }

  function Line10b(): Fixed {
    [Text("MAX_TRANSACTION_AMOUNT = ")]
  }

  function Line10c(): Fixed {
    [Text("TOTAL_SUPPLY / 100;\n")]
  }

  function Line11a(): Fixed {
    [Text("    uint256 public constant ")]
  }

  function Line11b(): Fixed {
    [Text("MAX_WALLET_AMOUNT = TOTAL_SUPPLY /")]
  }

  function Line11c(): Fixed {
    [Text(" 50;\n")]
  }

  function Line12(): Fixed {
    [Text("    \n")]
  }

  function Line13a(): Fixed {
    [Text("    mapping(address => bool) ")]
  }

  function Line13b(): Fixed {
    [Text("public isExcludedFromLimits;\n")]
  }

  function Line14(): Fixed {
    [Text("    \n")]
  }

  function Line15Head(): Fixed {
    [Text("    constructor() ERC20(\"")]
  }

  function Line15Middle(): Fixed {
    [Text("\", \"")]
  }

  function Line15Tail(): Fixed {
    [Text("\") "),
     OpenBrace]
  }

  function Line16a(): Fixed {
    [Text("        // First exclude deployer ")]
  }

  function Line16b(): Fixed {
    [Text("from limits, then mint\n")]
  }

  function Line17a(): Fixed {
    [Text("        ")]
  }

  function Line17b(): Fixed {
    [Text("isExcludedFromLimits[msg.sender] ")]
  }

  function Line17c(): Fixed {
    [Text("= true;\n")]
  }

  function Line18a(): Fixed {
    [Text("        ")]
  }

  function Line18b(): Fixed {
    [Text("isExcludedFromLimits[address(this)")]
  }

  function Line18c(): Fixed {
    [Text("] = true;\n")]
  }

  function Line19(): Fixed {
    [Text("        \n")]
  }

  function Line20(): Fixed {
    [Text("        // Now mint full supply\n")]
  }

  function Line21a(): Fixed {
    [Text("        _mint(msg.sender, ")]
  }

  function Line21b(): Fixed {
    [Text("TOTAL_SUPPLY);\n")]
  }

  function Lines22To23(): Fixed {
    [Text("    }\n"),
     Text("    \n")]
  }

  function Line24a(): Fixed {
    [Text("    function ")]
  }

  function Line24b(): Fixed {
    [Text("_beforeTokenTransfer(\n")]
  }

  function Line25(): Fixed {
    [Text("        address from,\n")]
  }

  function Line26(): Fixed {
    [Text("        address to,\n")]
  }

  function Line27(): Fixed {
    [Text("        uint256 amount\n")]
  }

  function Line28(): Fixed {
    [Text("    ) internal virtual override "),
     OpenBrace]
  }

  function Line29a(): Fixed {
    [Text("        // Skip checks during ")]
  }

  function Line29b(): Fixed {
    [Text("initial mint\n")]
  }

  function Line30(): Fixed {
    [Text("        if (from == address(0)) "),
     OpenBrace]
  }

  function Line31a(): Fixed {
    [Text("            ")]
  }

  function Line31b(): Fixed {
    [Text("super._beforeTokenTransfer(from, ")]
  }

  function Line31c(): Fixed {
    [Text("to, amount);\n")]
  }

  function Lines32To33(): Fixed {
    [Text("            return;\n"),
     Text("        }\n")]
  }

  function Line34(): Fixed {
    [Text("        \n")]
  }

  function Line35(): Fixed {
    [Text("        // Normal transfer checks\n")]
  }

  function Line36(): Fixed {
    [Text("        require(\n")]
  }

  function Line37a(): Fixed {
    [Text("            amount <= ")]
  }

  function Line37b(): Fixed {
    [Text("MAX_TRANSACTION_AMOUNT || \n")]
  }

  function Line38a(): Fixed {
    [Text("            ")]
  }

  function Line38b(): Fixed {
    [Text("isExcludedFromLimits[from] || \n")]
  }

  function Line39a(): Fixed {
    [Text("            ")]
  }

  function Line39b(): Fixed {
    [Text("isExcludedFromLimits[to],\n")]
  }

  function Line40a(): Fixed {
    [Text("            \"Transfer amount ")]
  }

  function Line40b(): Fixed {
    [Text("exceeds maximum\"\n")]
  }

  function Lines41To42(): Fixed {
    [Text("        );\n"),
     Text("        \n")]
  }

  function Line43(): Fixed {
    [Text("        if (to != address(0)) "),
     OpenBrace]
  }

  function Line44a(): Fixed {
    [Text("            uint256 ")]
  }

  function Line44b(): Fixed {
    [Text("recipientBalance = balanceOf(to);\n")]
  }

  function Line45(): Fixed {
    [Text("            require(\n")]
  }

  function Line46a(): Fixed {
    [Text("                recipientBalance ")]
  }

  function Line46b(): Fixed {
    [Text("+ amount <= MAX_WALLET_AMOUNT || \n")]
  }

  function Line47a(): Fixed {
    [Text("                ")]
  }

  function Line47b(): Fixed {
    [Text("isExcludedFromLimits[to],\n")]
  }

  function Line48a(): Fixed {
    [Text("                \"Recipient wallet ")]
  }

  function Line48b(): Fixed {
    [Text("amount exceeds maximum\"\n")]
  }

  function Lines49To51(): Fixed {
    [Text("            );\n"),
     Text("        }\n"),
     Text("        \n")]
  }

  function Line52a(): Fixed {
    [Text("        ")]
  }

  function Line52b(): Fixed {
    [Text("super._beforeTokenTransfer(from, ")]
  }

  function Line52c(): Fixed {
    [Text("to, amount);\n")]
  }

  function Lines53To54(): Fixed {
    [Text("    }\n"),
     Text("    \n")]
  }

  function Line55a(): Fixed {
    [Text("    function ")]
  }

  function Line55b(): Fixed {
    [Text("excludeFromLimits(address ")]
  }

  function Line55c(): Fixed {
    [Text("account) external onlyOwner "),
     OpenBrace]
  }

  function Line56a(): Fixed {
    [Text("        ")]
  }

  function Line56b(): Fixed {
    [Text("isExcludedFromLimits[account] = ")]
  }

  function Line56c(): Fixed {
    [Text("true;\n")]
  }

  function Lines57To58(): Fixed {
    [Text("    }\n"),
     Text("    \n")]
  }

  function Line59a(): Fixed {
    [Text("    function ")]
  }

  function Line59b(): Fixed {
    [Text("includeInLimits(address account) ")]
  }

  function Line59c(): Fixed {
    [Text("external onlyOwner "),
     OpenBrace]
  }

  function Line60a(): Fixed {
    [Text("        ")]
  }

  function Line60b(): Fixed {
    [Text("isExcludedFromLimits[account] = ")]
  }

  function Line60c(): Fixed {
    [Text("false;\n")]
  }

  function Lines61To62(): Fixed {
    [Text("    }\n"),
     Text("}")]
  }

  /** The licence line, the pragma and the two imports (lines 1-7). */
  function Preamble(): Fixed {
    Lines1To2() + Lines3To4() + Line5a() + Line5b() + Line6a() + Line6b() + Line7()
  }

  /** The two caps and the exclusion mapping (lines 10-14). */
  function LimitDeclarations(): Fixed {
    Line10a() + Line10b() + Line10c() + Line11a() + Line11b() + Line11c() + Line12()
    + Line13a() + Line13b() + Line14()
  }

  /** The constructor's two exclusions and the mint (lines 16-23). */
  function ConstructorBody(): Fixed {
    Line16a() + Line16b() + Line17a() + Line17b() + Line17c() + Line18a() + Line18b()
    + Line18c() + Line19() + Line20() + Line21a() + Line21b() + Lines22To23()
  }

  /** The signature of `_beforeTokenTransfer` (lines 24-28). */
  function HookSignature(): Fixed {
    Line24a() + Line24b() + Line25() + Line26() + Line27() + Line28()
  }

  /** Minting, a transfer from the zero address, skips every check (lines 29-34). */
  function MintBypass(): Fixed {
    Line29a() + Line29b() + Line30() + Line31a() + Line31b() + Line31c() + Lines32To33()
    + Line34()
  }

  /** The per-transaction cap (lines 35-42). */
  function TransactionCap(): Fixed {
    Line35() + Line36() + Line37a() + Line37b() + Line38a() + Line38b() + Line39a()
    + Line39b() + Line40a() + Line40b() + Lines41To42()
  }

  /** The per-wallet cap, skipped for burns (lines 43-52). */
  function WalletCap(): Fixed {
    Line43() + Line44a() + Line44b() + Line45() + Line46a() + Line46b() + Line47a()
    + Line47b() + Line48a() + Line48b() + Lines49To51() + Line52a() + Line52b() + Line52c()
  }

  /** Both caps and the end of the hook (lines 35-54). */
  function HookChecks(): Fixed {
    TransactionCap() + WalletCap() + Lines53To54()
  }

  /** The transfer hook with the mint bypass and both caps (lines 24-54). */
  function TransferHook(): Fixed {
    HookSignature() + MintBypass() + HookChecks()
  }

  /** The two owner-only functions and the closing brace (lines 55-62). */
  function LimitAdmin(): Fixed {
    Line55a() + Line55b() + Line55c() + Line56a() + Line56b() + Line56c() + Lines57To58()
    + Line59a() + Line59b() + Line59c() + Line60a() + Line60b() + Line60c()
    + Lines61To62()
  }

  /** The template's shape: twelve hole-free parts, with the contract name
      on line 8, the supply on line 9, and the ERC20 name and symbol on
      line 15 between them. */
  datatype TemplateParts = TemplateParts(
    preamble: Fixed,
    contractHead: Fixed, contractTail: Fixed,
    supplyHead: Fixed, supplyTail: Fixed,
    limits: Fixed,
    constructorHead: Fixed, separator: Fixed, constructorTail: Fixed,
    constructorBody: Fixed, hook: Fixed, admin: Fixed)

  /** The parts in order, with the placeholders where they stand. */
  function Layout(t: TemplateParts): seq<Piece> {
    t.preamble
    + (t.contractHead + [Hole(TokenName)] + t.contractTail)
    + (t.supplyHead + [Hole(TotalSupply)] + t.supplyTail)
    + t.limits
    + (t.constructorHead + [Hole(TokenName)] + t.separator + [Hole(TokenSymbol)] + t.constructorTail)
    + t.constructorBody + t.hook + t.admin
  }

  /** The parts of the template, line by line. */
  function Template(): TemplateParts {
    TemplateParts(
      Preamble(),
      Line8Head(), Line8Tail(),
      Line9Head(), Line9Tail(),
      LimitDeclarations(),
      Line15Head(), Line15Middle(), Line15Tail(),
      ConstructorBody(), TransferHook(), LimitAdmin())
  }

  /** The whole template. */
  function TemplatePieces(): seq<Piece> {
    Layout(Template())
  }
}
