/**
 * What the resolver promises, stated over the model in `Recommendation`:
 * which technologies each answer selects, the bounds and order of the
 * resources, the title templates, the generated id, and which answers the
 * bundle depends on.
 */
module RecommendationProperties {
  import opened Wrappers
  import opened StackData
  import opened Recommendation

  predicate EndsWith(s: string, suffix: string)
  {
    |suffix| <= |s| && s[|s| - |suffix|..] == suffix
  }

  predicate Distinct(s: seq<string>)
  {
    forall a, b :: 0 <= a < b < |s| ==> s[a] != s[b]
  }

  // ---------------------------------------------------------------------
  // The id column of the technology table
  // ---------------------------------------------------------------------

  const TechnologyIds: seq<string> := [
    "ethereum", "arweave", "solana", "polygon",
    "solidity", "rust", "move",
    "hardhat", "foundry", "anchor",
    "ipfs", "arweave-storage", "filecoin",
    "metamask", "phantom", "arconnect", "wander",
    "ao", "chainlink", "gelato",
    "ethers", "wagmi", "viem", "web3js"]

  lemma IdColumn()
    ensures Ids(Technologies) == TechnologyIds
  {
  }

  /** The chains the table has a row for. */
  predicate IsListedChain(b: Blockchain)
  {
    b == Ethereum || b == Arweave || b == Solana || b == Polygon
  }

  // The four chain answers without a row in the table, one lemma each.
  lemma AvalancheUnlisted() ensures "avalanche" !in TechnologyIds {}
  lemma CosmosUnlisted() ensures "cosmos" !in TechnologyIds {}
  lemma NearUnlisted() ensures "near" !in TechnologyIds {}
  lemma OtherUnlisted() ensures "other" !in TechnologyIds {}

  /** Only ethereum, arweave, solana and polygon have a row; the other four answers have none. */
  lemma ChainRowListed(b: Blockchain)
    ensures BlockchainText(b) in TechnologyIds <==> IsListedChain(b)
  {
    match b {
      case Avalanche => AvalancheUnlisted();
      case Cosmos => CosmosUnlisted();
      case Near => NearUnlisted();
      case OtherChain => OtherUnlisted();
      case _ =>
    }
  }

  /** Every id a rule pushes has a row: the defensive `filter(Boolean)` never drops anything but the chain. */
  lemma RuleIdsListed(f: FormData)
    ensures forall id :: id in LanguageIds(f) ==> id in TechnologyIds
    ensures forall id :: id in FrameworkIds(f) ==> id in TechnologyIds
    ensures forall id :: id in WalletIds(f) ==> id in TechnologyIds
    ensures forall id :: id in StorageIds(f) ==> id in TechnologyIds
    ensures forall id :: id in ComputeIds(f) ==> id in TechnologyIds
    ensures forall id :: id in FrontendIds(f) ==> id in TechnologyIds
  {
  }

  // ---------------------------------------------------------------------
  // Lookups and clean-up over any table
  // ---------------------------------------------------------------------

  /** `find` succeeds exactly for the ids the table lists. */
  lemma FindListed(table: seq<Technology>, id: string)
    ensures Find(table, id).Some? <==> id in Ids(table)
  {
    if id in Ids(table) {
      var j :| 0 <= j < |table| && Ids(table)[j] == id;
      assert table[j].id == id;
    }
    if Find(table, id).Some? {
      assert Ids(table)[FindIndex(table, id)] == id;
    }
  }

  lemma {:induction false} CompactAppend(a: seq<Option<Technology>>, b: seq<Option<Technology>>)
    ensures Compact(a + b) == Compact(a) + Compact(b)
  {
    if |a| > 0 {
      CompactAppend(a[1..], b);
      assert (a + b)[1..] == a[1..] + b;
    } else {
      assert a + b == b;
    }
  }

  lemma IdsAppend(a: seq<Technology>, b: seq<Technology>)
    ensures Ids(a + b) == Ids(a) + Ids(b)
  {
  }

  /** Looking up ids that are all listed and dropping misses gives rows with exactly those ids. */
  lemma LookupsListed(table: seq<Technology>, ids: seq<string>)
    requires forall id :: id in ids ==> id in Ids(table)
    ensures Ids(Compact(LookupAll(table, ids))) == ids
  {
    var l := LookupAll(table, ids);
    forall i | 0 <= i < |ids| ensures l[i].Some? && l[i].value.id == ids[i] {
      FindListed(table, ids[i]);
    }
  }

  /** The ids rule 1 contributes: the chain's own, when the table lists it. */
  function ChainIds(table: seq<Technology>, b: Blockchain): seq<string>
  {
    if BlockchainText(b) in Ids(table) then [BlockchainText(b)] else []
  }

  lemma ChainEntryIds(table: seq<Technology>, f: FormData)
    ensures Ids(Compact(ChainEntry(table, f))) == ChainIds(table, f.blockchain)
  {
    FindListed(table, BlockchainText(f.blockchain));
  }

  /** When every rule id is listed, the cleaned list carries the chain id (if listed) and then the rule ids in rule order. */
  lemma CollectedIds(table: seq<Technology>, f: FormData)
    requires forall id :: id in RuleIds(f) ==> id in Ids(table)
    ensures Ids(Compact(Collected(table, f))) ==
              ChainIds(table, f.blockchain) + LanguageIds(f) + FrameworkIds(f) + WalletIds(f)
                + StorageIds(f) + ComputeIds(f) + FrontendIds(f)
  {
    var c0 := ChainEntry(table, f);
    var c1 := c0 + LookupAll(table, LanguageIds(f));
    var c2 := c1 + LookupAll(table, FrameworkIds(f));
    var c3 := c2 + LookupAll(table, WalletIds(f));
    var c4 := c3 + LookupAll(table, StorageIds(f));
    var c5 := c4 + LookupAll(table, ComputeIds(f));
    var c6 := c5 + LookupAll(table, FrontendIds(f));
    assert c6 == Collected(table, f);
    ChainEntryIds(table, f);
    LookupsListed(table, LanguageIds(f));
    CompactAppend(c0, LookupAll(table, LanguageIds(f)));
    IdsAppend(Compact(c0), Compact(LookupAll(table, LanguageIds(f))));
    LookupsListed(table, FrameworkIds(f));
    CompactAppend(c1, LookupAll(table, FrameworkIds(f)));
    IdsAppend(Compact(c1), Compact(LookupAll(table, FrameworkIds(f))));
    LookupsListed(table, WalletIds(f));
    CompactAppend(c2, LookupAll(table, WalletIds(f)));
    IdsAppend(Compact(c2), Compact(LookupAll(table, WalletIds(f))));
    LookupsListed(table, StorageIds(f));
    CompactAppend(c3, LookupAll(table, StorageIds(f)));
    IdsAppend(Compact(c3), Compact(LookupAll(table, StorageIds(f))));
    LookupsListed(table, ComputeIds(f));
    CompactAppend(c4, LookupAll(table, ComputeIds(f)));
    IdsAppend(Compact(c4), Compact(LookupAll(table, ComputeIds(f))));
    LookupsListed(table, FrontendIds(f));
    CompactAppend(c5, LookupAll(table, FrontendIds(f)));
    IdsAppend(Compact(c5), Compact(LookupAll(table, FrontendIds(f))));
  }

  /** A list whose ids are pairwise different has no duplicate ids, so de-duplication leaves it alone. */
  lemma DistinctIdsNoDuplicates(s: seq<Technology>)
    requires Distinct(Ids(s))
    ensures NoDuplicateIds(s) && Dedupe(s) == s
  {
    assert forall a, b :: 0 <= a < b < |s| ==> Ids(s)[a] != Ids(s)[b];
  }

  // ---------------------------------------------------------------------
  // Which technologies each answer selects
  // ---------------------------------------------------------------------

  /** The technology ids the resolver selects, written out chain by chain. */
  function ExpectedIds(f: FormData): seq<string>
  {
    var storage := Storage in f.useCase;
    var compute := Compute in f.useCase;
    match f.blockchain
    case Ethereum | Polygon =>
      [BlockchainText(f.blockchain), "solidity", if f.experienceLevel == Advanced then "foundry" else "hardhat", "metamask"]
        + (if storage then ["ipfs"] else [])
        + (if compute then ["chainlink"] else [])
        + (if f.experienceLevel == Beginner then ["web3js"] else ["wagmi", "viem"])
    case Solana =>
      ["solana", "rust", "anchor", "phantom"] + (if storage then ["ipfs"] else [])
    case Arweave =>
      ["arweave", "rust", "arconnect"]
        + (if storage then ["arweave-storage"] else [])
        + (if compute then ["ao"] else [])
    case _ =>
      if storage then ["ipfs"] else []
  }

  /** The rules, run in order against a table listing exactly the chains ethereum, arweave, solana and polygon, give the list above. */
  lemma RulesGiveExpectedIds(f: FormData)
    ensures (if IsListedChain(f.blockchain) then [BlockchainText(f.blockchain)] else [])
              + LanguageIds(f) + FrameworkIds(f) + WalletIds(f)
              + StorageIds(f) + ComputeIds(f) + FrontendIds(f)
            == ExpectedIds(f)
  {
  }

  lemma EvmIdsDistinct(f: FormData)
    requires IsEthereumOrPolygon(f.blockchain)
    ensures Distinct(ExpectedIds(f))
  {
  }

  lemma SolanaIdsDistinct(f: FormData)
    requires f.blockchain == Solana
    ensures Distinct(ExpectedIds(f))
  {
  }

  lemma ArweaveIdsDistinct(f: FormData)
    requires f.blockchain == Arweave
    ensures Distinct(ExpectedIds(f))
  {
  }

  /** No chain's list names a technology twice. */
  lemma ExpectedIdsDistinct(f: FormData)
    ensures Distinct(ExpectedIds(f))
  {
    match f.blockchain {
      case Ethereum => EvmIdsDistinct(f);
      case Polygon => EvmIdsDistinct(f);
      case Solana => SolanaIdsDistinct(f);
      case Arweave => ArweaveIdsDistinct(f);
      case _ =>
    }
  }

  /** The technology list over any table whose id column is the one above. */
  lemma SelectedIds(table: seq<Technology>, f: FormData)
    requires Ids(table) == TechnologyIds
    ensures Ids(SelectedTechnologies(table, f)) == ExpectedIds(f)
  {
    RuleIdsListed(f);
    ChainRowListed(f.blockchain);
    CollectedIds(table, f);
    RulesGiveExpectedIds(f);
    ExpectedIdsDistinct(f);
    DistinctIdsNoDuplicates(Compact(Collected(table, f)));
  }

  /**
   * The technology list chain by chain: for ethereum and polygon the chain,
   * solidity, foundry (advanced) or hardhat, metamask, then ipfs and chainlink
   * when asked for, then web3js (beginner) or wagmi and viem; for solana the
   * chain, rust, anchor, phantom and ipfs when asked for; for arweave the
   * chain, rust, arconnect, then arweave-storage and ao when asked for; for
   * any other chain only ipfs, and only when storage is asked for.
   */
  lemma TechnologyIdsByChain(f: FormData, now: nat)
    ensures Ids(Resolve(Technologies, Resources, f, now).technologies) == ExpectedIds(f)
  {
    IdColumn();
    SelectedIds(Technologies, f);
  }

  /** The same list, for any pair of tables whose technology id column is the one above. */
  lemma BundleIds(technologies: seq<Technology>, resources: seq<Resource>, f: FormData, now: nat)
    requires Ids(technologies) == TechnologyIds
    ensures Ids(Resolve(technologies, resources, f, now).technologies) == ExpectedIds(f)
  {
    SelectedIds(technologies, f);
  }

  // ---------------------------------------------------------------------
  // The chain's display name and the templates
  // ---------------------------------------------------------------------

  /** What `blockchainTech?.name` prints for each answer. */
  function DisplayName(b: Blockchain): string
  {
    match b
    case Ethereum => "Ethereum"
    case Arweave => "Arweave"
    case Solana => "Solana"
    case Polygon => "Polygon"
    case _ => "undefined"
  }

  /** The first row with a given id is the one `FindIndex` reports. */
  lemma FindIndexAt(table: seq<Technology>, id: string, i: nat)
    requires i < |table| && table[i].id == id
    requires forall j :: 0 <= j < i ==> table[j].id != id
    ensures FindIndex(table, id) == i
  {
  }

  /** A chain without a row prints as `undefined`. */
  lemma UnlistedChainName(table: seq<Technology>, b: Blockchain)
    requires Ids(table) == TechnologyIds && !IsListedChain(b)
    ensures ChainName(table, b) == "undefined"
  {
    ChainRowListed(b);
    FindListed(table, BlockchainText(b));
  }

  /** The first four rows of a table with this id column are the four chains. */
  lemma ChainRows(table: seq<Technology>, b: Blockchain)
    requires Ids(table) == TechnologyIds
    ensures ChainName(table, b) ==
              match b
              case Ethereum => table[0].name
              case Arweave => table[1].name
              case Solana => table[2].name
              case Polygon => table[3].name
              case _ => "undefined"
  {
    assert Ids(table)[..4] == ["ethereum", "arweave", "solana", "polygon"];
    match b {
      case Ethereum => FindIndexAt(table, "ethereum", 0);
      case Arweave => FindIndexAt(table, "arweave", 1);
      case Solana => FindIndexAt(table, "solana", 2);
      case Polygon => FindIndexAt(table, "polygon", 3);
      case _ => UnlistedChainName(table, b);
    }
  }

  /** The display names in the first four rows of the table. */
  lemma ChainRowNames()
    ensures Technologies[0].name == "Ethereum" && Technologies[1].name == "Arweave"
    ensures Technologies[2].name == "Solana" && Technologies[3].name == "Polygon"
  {
  }

  /** The name the title and description interpolate for each chain answer. */
  lemma ChainNameByChain(b: Blockchain)
    ensures ChainName(Technologies, b) == DisplayName(b)
  {
    IdColumn();
    ChainRows(Technologies, b);
    ChainRowNames();
  }

  /** The phrase each title template puts before " Stack on ". */
  function TitlePhrase(p: ProjectType): string
  {
    match p
    case Nft => "NFT Development"
    case Defi => "DeFi Application"
    case Dao => "DAO Development"
    case Gaming => "Web3 Gaming"
    case AiWeb3 => "AI & Web3 Integration"
    case _ => "Web3 Development"
  }

  /** The project types without a template of their own. */
  predicate IsFallbackType(p: ProjectType)
  {
    p == Social || p == Identity || p == OtherProject
  }

  lemma SplitTemplate(template: string, phrase: string, chainName: string)
    requires template == phrase + " Stack on "
    ensures template + chainName == phrase + (" Stack on " + chainName)
  {
  }

  lemma TitleShape(p: ProjectType, chainName: string)
    ensures Title(p, chainName) == TitlePhrase(p) + (" Stack on " + chainName)
  {
    match p {
      case Nft => SplitTemplate("NFT Development Stack on ", "NFT Development", chainName);
      case Defi => SplitTemplate("DeFi Application Stack on ", "DeFi Application", chainName);
      case Dao => SplitTemplate("DAO Development Stack on ", "DAO Development", chainName);
      case Gaming => SplitTemplate("Web3 Gaming Stack on ", "Web3 Gaming", chainName);
      case AiWeb3 => SplitTemplate("AI & Web3 Integration Stack on ", "AI & Web3 Integration", chainName);
      case _ => SplitTemplate("Web3 Development Stack on ", "Web3 Development", chainName);
    }
  }

  lemma EndsWithAppend(a: string, b: string)
    ensures EndsWith(a + b, b)
  {
    assert (a + b)[|a|..] == b;
  }

  /** Every title ends with " Stack on " and the chain's name. */
  lemma TitleNamesChain(p: ProjectType, chainName: string)
    ensures EndsWith(Title(p, chainName), " Stack on " + chainName)
  {
    TitleShape(p, chainName);
    EndsWithAppend(TitlePhrase(p), " Stack on " + chainName);
  }

  lemma AppendCancel(a: string, b: string, suffix: string)
    requires a + suffix == b + suffix
    ensures a == b
  {
    assert |a| == |b|;
    assert forall i :: 0 <= i < |a| ==> a[i] == (a + suffix)[i] == (b + suffix)[i] == b[i];
  }

  lemma TitlePhrasesDiffer(p: ProjectType, q: ProjectType)
    requires TitlePhrase(p) == TitlePhrase(q)
    ensures p == q || (IsFallbackType(p) && IsFallbackType(q))
  {
  }

  /**
   * Two project types get the same title on a chain exactly when they are the
   * same type or both fall back to the generic template (social, identity,
   * other).
   */
  lemma TitleByProjectType(p: ProjectType, q: ProjectType, chainName: string)
    ensures Title(p, chainName) == Title(q, chainName) <==> p == q || (IsFallbackType(p) && IsFallbackType(q))
  {
    TitleShape(p, chainName);
    TitleShape(q, chainName);
    if Title(p, chainName) == Title(q, chainName) {
      AppendCancel(TitlePhrase(p), TitlePhrase(q), " Stack on " + chainName);
      TitlePhrasesDiffer(p, q);
    }
  }

  // ---------------------------------------------------------------------
  // Properties of the bundle
  // ---------------------------------------------------------------------

  /**
   * A chain without a row (avalanche, cosmos, near, other) gets no chain,
   * language, framework, wallet, compute or frontend entry: only ipfs, when
   * storage is asked for.
   */
  lemma UnlistedChainIds(technologies: seq<Technology>, resources: seq<Resource>, f: FormData, now: nat)
    requires Ids(technologies) == TechnologyIds
    requires !IsListedChain(f.blockchain)
    ensures Ids(Resolve(technologies, resources, f, now).technologies) == (if Storage in f.useCase then ["ipfs"] else [])
  {
    BundleIds(technologies, resources, f, now);
  }

  /** The description closes with " project on ", the chain's name and a full stop. */
  lemma DescriptionNamesChain(f: FormData, chainName: string)
    ensures EndsWith(Description(f, chainName), " project on " + chainName + ".")
  {
    var d := "Customized stack recommendation for " + ExperienceLevelText(f.experienceLevel)
      + " developers building a " + ProjectTypeText(f.projectType);
    assert Description(f, chainName) == d + (" project on " + chainName + ".");
    EndsWithAppend(d, " project on " + chainName + ".");
  }

  /** For a chain without a row, the title and the description print `undefined` for its name. */
  lemma UnlistedChainText(technologies: seq<Technology>, resources: seq<Resource>, f: FormData, now: nat)
    requires Ids(technologies) == TechnologyIds
    requires !IsListedChain(f.blockchain)
    ensures var r := Resolve(technologies, resources, f, now);
      EndsWith(r.title, " Stack on undefined") && EndsWith(r.description, " project on undefined.")
  {
    UnlistedChainName(technologies, f.blockchain);
    TitleNamesChain(f.projectType, "undefined");
    assert " Stack on " + "undefined" == " Stack on undefined";
    DescriptionNamesChain(f, "undefined");
    assert " project on " + "undefined" + "." == " project on undefined.";
  }

  /**
   * On ethereum and polygon the framework is foundry exactly for advanced
   * developers (hardhat otherwise).
   */
  lemma EvmFramework(f: FormData)
    requires IsEthereumOrPolygon(f.blockchain)
    ensures var ids := ExpectedIds(f);
      && |ids| >= 5
      && ids[..4] == [BlockchainText(f.blockchain), "solidity",
                      if f.experienceLevel == Advanced then "foundry" else "hardhat", "metamask"]
      && ("foundry" in ids <==> f.experienceLevel == Advanced)
      && ("hardhat" in ids <==> f.experienceLevel != Advanced)
  {
  }

  /**
   * On ethereum and polygon the frontend library closes the list: web3js
   * exactly for beginners, wagmi followed by viem otherwise.
   */
  lemma EvmFrontend(f: FormData)
    requires IsEthereumOrPolygon(f.blockchain)
    ensures var ids := ExpectedIds(f);
      && ("web3js" in ids <==> f.experienceLevel == Beginner)
      && ("wagmi" in ids <==> f.experienceLevel != Beginner)
      && ("viem" in ids <==> f.experienceLevel != Beginner)
      && (if f.experienceLevel == Beginner then |ids| >= 1 && ids[|ids| - 1..] == ["web3js"]
          else |ids| >= 2 && ids[|ids| - 2..] == ["wagmi", "viem"])
  {
  }

  /**
   * The two choices above, read off the bundle: foundry exactly for advanced
   * developers, web3js exactly for beginners.
   */
  lemma EvmChoices(technologies: seq<Technology>, resources: seq<Resource>, f: FormData, now: nat)
    requires Ids(technologies) == TechnologyIds
    requires IsEthereumOrPolygon(f.blockchain)
    ensures var ids := Ids(Resolve(technologies, resources, f, now).technologies);
      && ("foundry" in ids <==> f.experienceLevel == Advanced)
      && ("hardhat" in ids <==> f.experienceLevel != Advanced)
      && ("web3js" in ids <==> f.experienceLevel == Beginner)
      && ("wagmi" in ids <==> f.experienceLevel != Beginner)
      && ("viem" in ids <==> f.experienceLevel != Beginner)
  {
    BundleIds(technologies, resources, f, now);
    EvmFramework(f);
    EvmFrontend(f);
  }

  /** The bundle does not depend on the preferences answer. */
  lemma IndependentOfPreferences(
    technologies: seq<Technology>, resources: seq<Resource>, f: FormData, prefs: seq<Preference>, now: nat)
    ensures Resolve(technologies, resources, f.(preferences := prefs), now) == Resolve(technologies, resources, f, now)
  {
    DeterminedByAnswers(technologies, resources, f.(preferences := prefs), f, now, now);
  }

  /** Answers that agree on the chain, the level and storage and compute make the rules push the same lookups. */
  lemma SameSelection(technologies: seq<Technology>, f: FormData, g: FormData)
    requires f.experienceLevel == g.experienceLevel && f.blockchain == g.blockchain
    requires (Storage in f.useCase <==> Storage in g.useCase) && (Compute in f.useCase <==> Compute in g.useCase)
    ensures SelectedTechnologies(technologies, f) == SelectedTechnologies(technologies, g)
  {
    assert LanguageIds(f) == LanguageIds(g) && FrameworkIds(f) == FrameworkIds(g) && WalletIds(f) == WalletIds(g);
    assert StorageIds(f) == StorageIds(g) && ComputeIds(f) == ComputeIds(g) && FrontendIds(f) == FrontendIds(g);
    assert Collected(technologies, f) == Collected(technologies, g);
  }

  /**
   * Apart from its id, the bundle is determined by the project type, the
   * experience level, the chain and whether the use cases include storage
   * and compute.
   */
  lemma DeterminedByAnswers(
    technologies: seq<Technology>, resources: seq<Resource>, f: FormData, g: FormData, now1: nat, now2: nat)
    requires f.projectType == g.projectType && f.experienceLevel == g.experienceLevel
    requires f.blockchain == g.blockchain
    requires (Storage in f.useCase <==> Storage in g.useCase) && (Compute in f.useCase <==> Compute in g.useCase)
    ensures var r1, r2 := Resolve(technologies, resources, f, now1), Resolve(technologies, resources, g, now2);
      r1.title == r2.title && r1.description == r2.description
      && r1.technologies == r2.technologies && r1.resources == r2.resources
  {
    SameSelection(technologies, f, g);
  }

  /**
   * The id is `stack-` followed by the clock reading in decimal, so two
   * bundles share an id exactly when they were made at the same millisecond.
   */
  lemma IdTracksClock(
    technologies: seq<Technology>, resources: seq<Resource>, f: FormData, g: FormData, now1: nat, now2: nat)
    ensures var id1, id2 := Resolve(technologies, resources, f, now1).id, Resolve(technologies, resources, g, now2).id;
      id1[..6] == "stack-" && (id1 == id2 <==> now1 == now2)
  {
    var id1, id2 := Resolve(technologies, resources, f, now1).id, Resolve(technologies, resources, g, now2).id;
    if id1 == id2 {
      assert DecimalText(now1) == id1[6..] == id2[6..] == DecimalText(now2);
      DecimalRoundTrip(now1);
      DecimalRoundTrip(now2);
    }
  }

  // ---------------------------------------------------------------------
  // Worked scenarios
  // ---------------------------------------------------------------------

  lemma NftOnEthereumIds(f: FormData)
    requires f.experienceLevel == Intermediate && f.blockchain == Ethereum && f.useCase == [SmartContracts]
    ensures ExpectedIds(f) == ["ethereum", "solidity", "hardhat", "metamask", "wagmi", "viem"]
  {
    assert Storage !in f.useCase && Compute !in f.useCase;
    assert ExpectedIds(f) == ["ethereum", "solidity", "hardhat", "metamask"] + ["wagmi", "viem"];
  }

  /**
   * An intermediate NFT project on ethereum that only asks for smart
   * contracts, over any table with the id column above (the real table's
   * first row is named "Ethereum", see ChainRowNames).
   */
  lemma NftOnEthereumScenario(technologies: seq<Technology>, resources: seq<Resource>, f: FormData, now: nat)
    requires Ids(technologies) == TechnologyIds
    requires f.projectType == Nft && f.experienceLevel == Intermediate && f.blockchain == Ethereum
    requires f.useCase == [SmartContracts]
    ensures var r := Resolve(technologies, resources, f, now);
      && Ids(r.technologies) == ["ethereum", "solidity", "hardhat", "metamask", "wagmi", "viem"]
      && r.title == "NFT Development Stack on " + technologies[0].name
  {
    NftOnEthereumIds(f);
    BundleIds(technologies, resources, f, now);
    ChainRows(technologies, f.blockchain);
  }

  lemma DefiOnSolanaIds(f: FormData)
    requires f.blockchain == Solana && f.useCase == [Storage, Compute]
    ensures ExpectedIds(f) == ["solana", "rust", "anchor", "phantom", "ipfs"]
  {
    assert Storage in f.useCase;
  }

  /**
   * An advanced DeFi project on solana asking for storage and compute:
   * storage falls back to ipfs, compute adds nothing.
   */
  lemma DefiOnSolanaScenario(technologies: seq<Technology>, resources: seq<Resource>, f: FormData, now: nat)
    requires Ids(technologies) == TechnologyIds
    requires f.projectType == Defi && f.experienceLevel == Advanced && f.blockchain == Solana
    requires f.useCase == [Storage, Compute]
    ensures var r := Resolve(technologies, resources, f, now);
      && Ids(r.technologies) == ["solana", "rust", "anchor", "phantom", "ipfs"]
      && r.title == "DeFi Application Stack on " + technologies[2].name
  {
    DefiOnSolanaIds(f);
    BundleIds(technologies, resources, f, now);
    ChainRows(technologies, f.blockchain);
  }
}
