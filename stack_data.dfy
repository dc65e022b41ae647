/**
 * The questionnaire answer, the two static reference tables and the id
 * lookups over them, as declared in src/lib/stackData.ts.
 */
module StackData {
  import opened Wrappers

  // ---------------------------------------------------------------------
  // Questionnaire answers
  // ---------------------------------------------------------------------

  datatype ProjectType = Nft | Defi | Dao | Gaming | AiWeb3 | Social | Identity | OtherProject
  datatype ExperienceLevel = Beginner | Intermediate | Advanced
  datatype Blockchain = Ethereum | Arweave | Solana | Polygon | Avalanche | Cosmos | Near | OtherChain
  datatype UseCase = Storage | SmartContracts | Payments | IdentityUse | Compute | Governance | OtherUse
  datatype Preference = Privacy | Decentralization | GasFees | Scalability | DeveloperExperience | OtherPreference

  /** A completed questionnaire; the two multiple-choice answers are arrays in the source. */
  datatype FormData = FormData(
    projectType: ProjectType,
    experienceLevel: ExperienceLevel,
    blockchain: Blockchain,
    useCase: seq<UseCase>,
    preferences: seq<Preference>)

  /** The string literal each project type stands for. */
  function ProjectTypeText(p: ProjectType): string
  {
    match p
    case Nft => "nft"
    case Defi => "defi"
    case Dao => "dao"
    case Gaming => "gaming"
    case AiWeb3 => "ai-web3"
    case Social => "social"
    case Identity => "identity"
    case OtherProject => "other"
  }

  /** The string literal each experience level stands for. */
  function ExperienceLevelText(l: ExperienceLevel): string
  {
    match l
    case Beginner => "beginner"
    case Intermediate => "intermediate"
    case Advanced => "advanced"
  }

  /** The string literal each blockchain answer stands for; it is also the id the resolver looks up. */
  function BlockchainText(b: Blockchain): string
  {
    match b
    case Ethereum => "ethereum"
    case Arweave => "arweave"
    case Solana => "solana"
    case Polygon => "polygon"
    case Avalanche => "avalanche"
    case Cosmos => "cosmos"
    case Near => "near"
    case OtherChain => "other"
  }

  // ---------------------------------------------------------------------
  // Reference rows and the recommendation bundle
  // ---------------------------------------------------------------------

  datatype ResourceType = Documentation | Tutorial | Video | Article | Github

  /** A technology row; `difficulty` takes the same three literals as an experience level. */
  datatype Technology = Technology(
    id: string,
    name: string,
    description: string,
    category: string,
    url: string,
    logo: Option<string>,
    difficulty: ExperienceLevel)

  /** A learning resource row; `kind` is the source's `type` field. */
  datatype Resource = Resource(
    id: string,
    title: string,
    description: string,
    url: string,
    kind: ResourceType,
    technologies: seq<string>)

  datatype StackRecommendation = StackRecommendation(
    id: string,
    title: string,
    description: string,
    technologies: seq<Technology>,
    resources: seq<Resource>)

  // ---------------------------------------------------------------------
  // The two static tables
  // ---------------------------------------------------------------------

  const Technologies: seq<Technology> := [
    // Blockchain networks
    Technology("ethereum", "Ethereum", "Smart contract platform with the largest developer ecosystem.",
      "blockchain", "https://ethereum.org", None, Intermediate),
    Technology("arweave", "Arweave", "Permanent storage network focused on data permanence.",
      "blockchain", "https://arweave.org", None, Intermediate),
    Technology("solana", "Solana", "High-throughput blockchain with fast transactions and low fees.",
      "blockchain", "https://solana.com", None, Advanced),
    Technology("polygon", "Polygon", "Ethereum scaling solution with lower gas fees.",
      "blockchain", "https://polygon.technology", None, Intermediate),
    // Smart contract languages
    Technology("solidity", "Solidity", "Object-oriented programming language for Ethereum smart contracts.",
      "language", "https://soliditylang.org", None, Intermediate),
    Technology("rust", "Rust", "Systems programming language for Solana and Arweave development.",
      "language", "https://www.rust-lang.org", None, Advanced),
    Technology("move", "Move", "Safe and flexible language for smart contracts on multiple chains.",
      "language", "https://github.com/move-language/move", None, Advanced),
    // Development frameworks
    Technology("hardhat", "Hardhat", "Development environment for Ethereum software.",
      "framework", "https://hardhat.org", None, Intermediate),
    Technology("foundry", "Foundry", "Blazing fast toolkit for Ethereum application development.",
      "framework", "https://getfoundry.sh", None, Intermediate),
    Technology("anchor", "Anchor", "Framework for Solana smart contract development.",
      "framework", "https://www.anchor-lang.com", None, Advanced),
    // Storage solutions
    Technology("ipfs", "IPFS", "Peer-to-peer hypermedia protocol for content-addressed storage.",
      "storage", "https://ipfs.tech", None, Intermediate),
    Technology("arweave-storage", "Arweave", "Permanent, decentralized file storage network.",
      "storage", "https://arweave.org", None, Intermediate),
    Technology("filecoin", "Filecoin", "Open-source, public cryptocurrency and digital payment system.",
      "storage", "https://filecoin.io", None, Advanced),
    // Wallets and authentication
    Technology("metamask", "MetaMask", "Crypto wallet & gateway to blockchain apps.",
      "wallet", "https://metamask.io", None, Beginner),
    Technology("phantom", "Phantom", "Friendly Solana wallet built for DeFi & NFTs.",
      "wallet", "https://phantom.app", None, Beginner),
    Technology("arconnect", "ArConnect", "Browser extension wallet for Arweave.",
      "wallet", "https://arconnect.io", None, Beginner),
    Technology("wander", "Wander", "Universal Web3 credential manager.",
      "wallet", "https://wander.app", None, Beginner),
    // Compute and oracles
    Technology("ao", "AO", "Computation primitive for the permaweb.",
      "compute", "https://ao.arweave.dev", None, Advanced),
    Technology("chainlink", "Chainlink", "Decentralized oracle network for smart contracts.",
      "compute", "https://chain.link", None, Intermediate),
    Technology("gelato", "Gelato", "Automated smart contract execution network.",
      "compute", "https://gelato.network", None, Intermediate),
    // Frontend libraries
    Technology("ethers", "ethers.js", "Complete Ethereum library and wallet implementation.",
      "frontend", "https://docs.ethers.org", None, Intermediate),
    Technology("wagmi", "wagmi", "React Hooks for Ethereum.",
      "frontend", "https://wagmi.sh", None, Intermediate),
    Technology("viem", "viem", "TypeScript Interface for Ethereum.",
      "frontend", "https://viem.sh", None, Intermediate),
    Technology("web3js", "web3.js", "Ethereum JavaScript API.",
      "frontend", "https://web3js.readthedocs.io", None, Intermediate)
  ]

  const Resources: seq<Resource> := [
    Resource("ethereum-docs", "Ethereum Documentation", "Official Ethereum documentation for developers.",
      "https://ethereum.org/developers", Documentation, ["ethereum", "solidity"]),
    Resource("solidity-tutorial", "CryptoZombies", "Learn Solidity by building your own crypto-collectibles game.",
      "https://cryptozombies.io", Tutorial, ["ethereum", "solidity"]),
    Resource("arweave-docs", "Arweave Documentation", "Official Arweave development documentation.",
      "https://docs.arweave.org", Documentation, ["arweave"]),
    Resource("solana-docs", "Solana Documentation", "Official Solana developer documentation.",
      "https://docs.solana.com", Documentation, ["solana", "rust"]),
    Resource("anchor-tutorial", "Anchor Program Development", "Guide to building Solana programs with Anchor.",
      "https://www.anchor-lang.com/docs/intro-to-solana", Tutorial, ["solana", "anchor", "rust"]),
    Resource("ipfs-docs", "IPFS Documentation", "Learn how to use IPFS for decentralized storage.",
      "https://docs.ipfs.tech", Documentation, ["ipfs"]),
    Resource("hardhat-tutorial", "Hardhat Tutorial", "Learn to use Hardhat for Ethereum development.",
      "https://hardhat.org/tutorial", Tutorial, ["hardhat", "ethereum", "solidity"]),
    Resource("ao-tutorial", "AO Getting Started", "Learn how to build with AO on the permaweb.",
      "https://ao.arweave.dev", Tutorial, ["arweave", "ao"]),
    Resource("wagmi-docs", "wagmi Documentation", "React hooks for Ethereum applications.",
      "https://wagmi.sh", Documentation, ["wagmi", "ethereum"])
  ]

  // ---------------------------------------------------------------------
  // Lookups by id
  // ---------------------------------------------------------------------

  /**
   * `Array.prototype.findIndex` with the predicate `t => t.id === id`:
   * the index of the first row carrying `id`, or -1 when there is none.
   */
  function FindIndex(table: seq<Technology>, id: string): (k: int)
    ensures -1 <= k < |table|
    ensures k == -1 <==> forall j :: 0 <= j < |table| ==> table[j].id != id
    ensures 0 <= k ==> table[k].id == id && forall j :: 0 <= j < k ==> table[j].id != id
  {
    if |table| == 0 then -1
    else if table[0].id == id then 0
    else
      var k := FindIndex(table[1..], id);
      if k == -1 then -1 else k + 1
  }

  /**
   * `Array.prototype.find` with the predicate `t => t.id === id`: the first
   * row carrying `id`, or `None` (the source's `undefined`) when there is none.
   */
  function Find(table: seq<Technology>, id: string): (r: Option<Technology>)
    ensures r.None? <==> forall j :: 0 <= j < |table| ==> table[j].id != id
    ensures r.Some? ==> r.value.id == id && r.value == table[FindIndex(table, id)]
  {
    var k := FindIndex(table, id);
    if k == -1 then None else Some(table[k])
  }
}
