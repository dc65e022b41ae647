/**
 * The recommendation resolver `generateStackRecommendation`: an ordered chain
 * of rules that append looked-up technologies, the clean-up of that list, the
 * choice of resources, and the generated id, title and description.
 *
 * The resolver is specified by pure functions (one per rule, `Resolve` for
 * the whole bundle) and implemented by the method `GenerateStackRecommendation`,
 * which builds its list step by step as the source does.
 */
module Recommendation {
  import opened Wrappers
  import opened StackData

  // ---------------------------------------------------------------------
  // Sequence vocabulary
  // ---------------------------------------------------------------------

  /** `technologies.map(tech => tech.id)` */
  function Ids(s: seq<Technology>): (r: seq<string>)
    ensures |r| == |s| && forall i :: 0 <= i < |s| ==> r[i] == s[i].id
  {
    seq(|s|, i requires 0 <= i < |s| => s[i].id)
  }

  /** No two entries carry the same id. */
  predicate NoDuplicateIds(s: seq<Technology>)
  {
    forall a, b :: 0 <= a < b < |s| ==> s[a].id != s[b].id
  }

  /** `a` is `b` with some elements left out, the rest in their original order. */
  predicate IsSubsequence<T(==)>(a: seq<T>, b: seq<T>)
    decreases |b|
  {
    if |b| == 0 then |a| == 0
    else (|a| > 0 && a[0] == b[0] && IsSubsequence(a[1..], b[1..])) || IsSubsequence(a, b[1..])
  }

  // ---------------------------------------------------------------------
  // Clean-up of the collected list
  // ---------------------------------------------------------------------

  /** `filter(Boolean)`: drops the lookups that came back `undefined`. */
  function Compact(s: seq<Option<Technology>>): (r: seq<Technology>)
    ensures |r| <= |s|
    ensures forall t :: t in r <==> Some(t) in s
    ensures (forall i :: 0 <= i < |s| ==> s[i].Some?) ==>
              |r| == |s| && forall i :: 0 <= i < |s| ==> r[i] == s[i].value
  {
    if |s| == 0 then []
    else
      var head := if s[0].Some? then [s[0].value] else [];
      assert s == [s[0]] + s[1..];
      head + Compact(s[1..])
  }

  /**
   * The elements `s[k]`, `k >= i`, that `filter((tech, index, self) =>
   * index === self.findIndex(t => t.id === tech.id))` keeps: those at the
   * first index carrying their id.
   */
  function KeepFirst(s: seq<Technology>, i: nat): seq<Technology>
    requires i <= |s|
    decreases |s| - i
  {
    if i == |s| then []
    else
      var rest := KeepFirst(s, i + 1);
      if FindIndex(s, s[i].id) == i then [s[i]] + rest else rest
  }

  /** Every kept element sits at the first index of its id, at or after `i`. */
  lemma {:induction false} KeepFirstAtFirstIndex(s: seq<Technology>, i: nat)
    requires i <= |s|
    ensures forall a :: 0 <= a < |KeepFirst(s, i)| ==>
              i <= FindIndex(s, KeepFirst(s, i)[a].id) && s[FindIndex(s, KeepFirst(s, i)[a].id)] == KeepFirst(s, i)[a]
    decreases |s| - i
  {
    if i < |s| {
      KeepFirstAtFirstIndex(s, i + 1);
    }
  }

  /** The kept elements appear in the order of their first indices. */
  lemma {:induction false} KeepFirstOrdered(s: seq<Technology>, i: nat)
    requires i <= |s|
    ensures forall a, b :: 0 <= a < b < |KeepFirst(s, i)| ==>
              FindIndex(s, KeepFirst(s, i)[a].id) < FindIndex(s, KeepFirst(s, i)[b].id)
    decreases |s| - i
  {
    if i < |s| {
      KeepFirstOrdered(s, i + 1);
      var rest := KeepFirst(s, i + 1);
      if FindIndex(s, s[i].id) == i {
        KeepFirstAtFirstIndex(s, i + 1);
        var r := [s[i]] + rest;
        assert KeepFirst(s, i) == r;
        assert forall a :: 0 < a < |r| ==> r[a] == rest[a - 1];
      }
    }
  }

  /** Every element at the first index of its id is kept. */
  lemma {:induction false} KeepFirstComplete(s: seq<Technology>, i: nat)
    requires i <= |s|
    ensures forall k :: i <= k < |s| && FindIndex(s, s[k].id) == k ==> s[k] in KeepFirst(s, i)
    decreases |s| - i
  {
    if i < |s| {
      KeepFirstComplete(s, i + 1);
    }
  }

  /** An element no earlier element shares its id with is where `findIndex` stops. */
  lemma FirstOfUnique(s: seq<Technology>, i: nat)
    requires i < |s| && forall j :: 0 <= j < i ==> s[j].id != s[i].id
    ensures FindIndex(s, s[i].id) == i
  {
  }

  /** When no id repeats, every element is the first with its id and the filter keeps them all. */
  lemma {:induction false} KeepFirstKeepsUnique(s: seq<Technology>, i: nat)
    requires i <= |s| && NoDuplicateIds(s)
    ensures KeepFirst(s, i) == s[i..]
    decreases |s| - i
  {
    if i < |s| {
      KeepFirstKeepsUnique(s, i + 1);
      FirstOfUnique(s, i);
      calc {
        KeepFirst(s, i);
        [s[i]] + KeepFirst(s, i + 1);
        [s[i]] + s[i + 1..];
        s[i..];
      }
    }
  }

  /** The first row of every id survives the filter. */
  lemma KeepFirstCovers(s: seq<Technology>)
    ensures forall k :: 0 <= k < |s| ==> s[FindIndex(s, s[k].id)] in KeepFirst(s, 0)
  {
    KeepFirstComplete(s, 0);
    forall k | 0 <= k < |s| ensures s[FindIndex(s, s[k].id)] in KeepFirst(s, 0) {
      var f := FindIndex(s, s[k].id);
      assert FindIndex(s, s[f].id) == f;
    }
  }

  /** The filter only keeps elements of its input. */
  lemma KeepFirstWithin(s: seq<Technology>)
    ensures forall t :: t in KeepFirst(s, 0) ==> t in s
  {
    KeepFirstAtFirstIndex(s, 0);
    var r := KeepFirst(s, 0);
    forall t | t in r ensures t in s {
      var a :| 0 <= a < |r| && r[a] == t;
      assert s[FindIndex(s, r[a].id)] == t;
    }
  }

  /** The de-duplication step: the first entry for every id, in list order. */
  function Dedupe(s: seq<Technology>): (r: seq<Technology>)
    ensures NoDuplicateIds(r)
    ensures forall t :: t in r ==> t in s
    ensures forall k :: 0 <= k < |s| ==> s[FindIndex(s, s[k].id)] in r
    ensures forall a, b :: 0 <= a < b < |r| ==> FindIndex(s, r[a].id) < FindIndex(s, r[b].id)
    ensures NoDuplicateIds(s) ==> r == s
  {
    KeepFirstOrdered(s, 0);
    KeepFirstCovers(s);
    KeepFirstWithin(s);
    if NoDuplicateIds(s) then
      KeepFirstKeepsUnique(s, 0);
      KeepFirst(s, 0)
    else
      KeepFirst(s, 0)
  }

  // ---------------------------------------------------------------------
  // Resource selection
  // ---------------------------------------------------------------------

  /** `resource.technologies.some(techId => techIds.includes(techId))` */
  predicate SharesTechnology(res: Resource, techIds: seq<string>)
  {
    exists j :: 0 <= j < |res.technologies| && res.technologies[j] in techIds
  }

  /** `resources.filter(...)`: the rows sharing a technology with `techIds`, in table order. */
  function RelevantTo(table: seq<Resource>, techIds: seq<string>): (r: seq<Resource>)
    ensures forall x :: x in r <==> x in table && SharesTechnology(x, techIds)
    ensures IsSubsequence(r, table)
  {
    if |table| == 0 then []
    else
      var rest := RelevantTo(table[1..], techIds);
      assert table == [table[0]] + table[1..];
      if SharesTechnology(table[0], techIds) then
        assert ([table[0]] + rest)[1..] == rest;
        [table[0]] + rest
      else rest
  }

  lemma {:induction false} EmptyIsSubsequence<T>(b: seq<T>)
    ensures IsSubsequence([], b)
  {
    if |b| > 0 {
      EmptyIsSubsequence(b[1..]);
    }
  }

  lemma {:induction false} PrefixIsSubsequence<T>(a: seq<T>, b: seq<T>, k: nat)
    requires IsSubsequence(a, b) && k <= |a|
    ensures IsSubsequence(a[..k], b)
    decreases |b|
  {
    if |b| == 0 {
    } else if k == 0 {
      EmptyIsSubsequence(b);
    } else if |a| > 0 && a[0] == b[0] && IsSubsequence(a[1..], b[1..]) {
      PrefixIsSubsequence(a[1..], b[1..], k - 1);
      assert a[..k][1..] == a[1..][..k - 1];
    } else {
      PrefixIsSubsequence(a, b[1..], k);
    }
  }

  /** `.slice(0, 5)` of the relevant rows: at most five, the first five in table order. */
  function RelevantResources(table: seq<Resource>, techIds: seq<string>): (r: seq<Resource>)
    ensures |r| <= 5
    ensures forall x :: x in r ==> x in table && SharesTechnology(x, techIds)
    ensures IsSubsequence(r, table)
    ensures |r| < 5 ==> forall x :: x in table && SharesTechnology(x, techIds) ==> x in r
    ensures var all := RelevantTo(table, techIds); |r| == (if |all| < 5 then |all| else 5) && r == all[..|r|]
  {
    var all := RelevantTo(table, techIds);
    if |all| <= 5 then
      assert all[..|all|] == all;
      all
    else
      PrefixIsSubsequence(all, table, 5);
      assert forall x :: x in all[..5] ==> x in all;
      all[..5]
  }

  // ---------------------------------------------------------------------
  // Generated strings
  // ---------------------------------------------------------------------

  /** How a template literal renders `blockchainTech?.name`: a missing row prints as `undefined`. */
  function NameOrUndefined(t: Option<Technology>): string
  {
    match t
    case Some(tech) => tech.name
    case None => "undefined"
  }

  /** The title template chosen by project type; every type not listed falls back to the generic one. */
  function Title(p: ProjectType, chainName: string): string
  {
    match p
    case Nft => "NFT Development Stack on " + chainName
    case Defi => "DeFi Application Stack on " + chainName
    case Dao => "DAO Development Stack on " + chainName
    case Gaming => "Web3 Gaming Stack on " + chainName
    case AiWeb3 => "AI & Web3 Integration Stack on " + chainName
    case _ => "Web3 Development Stack on " + chainName
  }

  /** The single description template. */
  function Description(f: FormData, chainName: string): string
  {
    "Customized stack recommendation for " + ExperienceLevelText(f.experienceLevel)
      + " developers building a " + ProjectTypeText(f.projectType)
      + " project on " + chainName + "."
  }

  function DigitChar(d: nat): char
    requires d < 10
  {
    ('0' as int + d) as char
  }

  /** The decimal rendering of a non-negative integer, as `${n}` prints it. */
  function DecimalText(n: nat): (r: string)
    ensures |r| >= 1 && forall i :: 0 <= i < |r| ==> '0' <= r[i] <= '9'
  {
    if n < 10 then [DigitChar(n)] else DecimalText(n / 10) + [DigitChar(n % 10)]
  }

  /** Reads back a string of decimal digits: the inverse of `DecimalText`. */
  function ParseDecimal(s: string): nat
    requires forall i :: 0 <= i < |s| ==> '0' <= s[i] <= '9'
  {
    if |s| == 0 then 0
    else ParseDecimal(s[..|s| - 1]) * 10 + (s[|s| - 1] as int - '0' as int)
  }

  lemma {:induction false} DecimalRoundTrip(n: nat)
    ensures ParseDecimal(DecimalText(n)) == n
  {
    if n >= 10 {
      var s := DecimalText(n);
      assert s[..|s| - 1] == DecimalText(n / 10);
      DecimalRoundTrip(n / 10);
    }
  }

  /** `stack-${Date.now()}`, the clock reading being a parameter. */
  function RecommendationId(now: nat): (r: string)
    ensures |r| > 6 && r[..6] == "stack-"
    ensures forall i :: 6 <= i < |r| ==> '0' <= r[i] <= '9'
    ensures ParseDecimal(r[6..]) == now
  {
    DecimalRoundTrip(now);
    assert ("stack-" + DecimalText(now))[6..] == DecimalText(now);
    "stack-" + DecimalText(now)
  }

  // ---------------------------------------------------------------------
  // The rules, one function each
  // ---------------------------------------------------------------------

  /** The chains for which the source tests `blockchain === 'ethereum' || blockchain === 'polygon'`. */
  predicate IsEthereumOrPolygon(b: Blockchain)
  {
    b == Ethereum || b == Polygon
  }

  /** Rule 2: the smart contract language. */
  function LanguageIds(f: FormData): seq<string>
  {
    if IsEthereumOrPolygon(f.blockchain) then ["solidity"]
    else if f.blockchain == Solana then ["rust"]
    else if f.blockchain == Arweave then ["rust"]
    else []
  }

  /** Rule 3: the development framework. */
  function FrameworkIds(f: FormData): seq<string>
  {
    if IsEthereumOrPolygon(f.blockchain) then
      (if f.experienceLevel == Advanced then ["foundry"] else ["hardhat"])
    else if f.blockchain == Solana then ["anchor"]
    else []
  }

  /** Rule 4: the wallet. */
  function WalletIds(f: FormData): seq<string>
  {
    if IsEthereumOrPolygon(f.blockchain) then ["metamask"]
    else if f.blockchain == Solana then ["phantom"]
    else if f.blockchain == Arweave then ["arconnect"]
    else []
  }

  /** Rule 5: storage, when the use cases include it. */
  function StorageIds(f: FormData): seq<string>
  {
    if Storage in f.useCase then
      (if f.blockchain == Arweave then ["arweave-storage"] else ["ipfs"])
    else []
  }

  /** Rule 6: compute, when the use cases include it and the chain has one. */
  function ComputeIds(f: FormData): seq<string>
  {
    if Compute in f.useCase then
      (if f.blockchain == Arweave then ["ao"]
       else if IsEthereumOrPolygon(f.blockchain) then ["chainlink"]
       else [])
    else []
  }

  /** Rule 7: the frontend libraries. */
  function FrontendIds(f: FormData): seq<string>
  {
    if IsEthereumOrPolygon(f.blockchain) then
      (if f.experienceLevel == Beginner then ["web3js"] else ["wagmi", "viem"])
    else []
  }

  /** The ids rules 2 to 7 push, in the order the rules run. */
  function RuleIds(f: FormData): seq<string>
  {
    LanguageIds(f) + FrameworkIds(f) + WalletIds(f) + StorageIds(f) + ComputeIds(f) + FrontendIds(f)
  }

  // ---------------------------------------------------------------------
  // The resolver over read-only reference tables
  // ---------------------------------------------------------------------

  /** The `find` of each id in turn; a `!` after `find` changes nothing at run time. */
  function LookupAll(table: seq<Technology>, ids: seq<string>): (r: seq<Option<Technology>>)
    ensures |r| == |ids|
    ensures forall i :: 0 <= i < |ids| ==> (r[i].Some? <==> ids[i] in Ids(table))
    ensures forall i :: 0 <= i < |ids| && r[i].Some? ==>
              r[i].value in table && r[i].value.id == ids[i] && r[i].value == table[FindIndex(table, ids[i])]
  {
    seq(|ids|, i requires 0 <= i < |ids| => Find(table, ids[i]))
  }

  /** Rule 1: the chain's own row, pushed only when the lookup finds it. */
  function ChainEntry(table: seq<Technology>, f: FormData): seq<Option<Technology>>
  {
    var t := Find(table, BlockchainText(f.blockchain));
    if t.Some? then [t] else []
  }

  /** Everything the rule chain pushes, rule by rule, before clean-up. */
  function Collected(table: seq<Technology>, f: FormData): seq<Option<Technology>>
  {
    ChainEntry(table, f)
      + LookupAll(table, LanguageIds(f))
      + LookupAll(table, FrameworkIds(f))
      + LookupAll(table, WalletIds(f))
      + LookupAll(table, StorageIds(f))
      + LookupAll(table, ComputeIds(f))
      + LookupAll(table, FrontendIds(f))
  }

  /** Whatever a lookup finds is a row of the table it searched. */
  lemma FoundInTable(table: seq<Technology>, ids: seq<string>)
    ensures forall t :: Some(t) in LookupAll(table, ids) ==> t in table
  {
    forall t | Some(t) in LookupAll(table, ids) ensures t in table {
      var k :| 0 <= k < |ids| && LookupAll(table, ids)[k] == Some(t);
      assert Find(table, ids[k]) == Some(t);
    }
  }

  /** Every technology the rule chain collects is a row of the table. */
  lemma FoundRowsInTable(table: seq<Technology>, f: FormData)
    ensures forall t :: Some(t) in Collected(table, f) ==> t in table
  {
    FoundInTable(table, LanguageIds(f));
    FoundInTable(table, FrameworkIds(f));
    FoundInTable(table, WalletIds(f));
    FoundInTable(table, StorageIds(f));
    FoundInTable(table, ComputeIds(f));
    FoundInTable(table, FrontendIds(f));
  }

  /** The technology list of the bundle: the collected list without missing lookups and duplicates. */
  function SelectedTechnologies(table: seq<Technology>, f: FormData): (r: seq<Technology>)
    ensures NoDuplicateIds(r)
    ensures forall t :: t in r ==> t in table
  {
    FoundRowsInTable(table, f);
    Dedupe(Compact(Collected(table, f)))
  }

  /** How the templates render the chain: the name of its row, or `undefined` when it has none. */
  function ChainName(table: seq<Technology>, b: Blockchain): string
  {
    NameOrUndefined(Find(table, BlockchainText(b)))
  }

  /**
   * The bundle the resolver returns for `f` when the clock reads `now`,
   * given the two reference tables.
   */
  function Resolve(technologies: seq<Technology>, resources: seq<Resource>, f: FormData, now: nat)
    : (r: StackRecommendation)
    ensures NoDuplicateIds(r.technologies)
    ensures forall t :: t in r.technologies ==> t in technologies
    ensures |r.resources| <= 5
    ensures forall x :: x in r.resources ==> x in resources && SharesTechnology(x, Ids(r.technologies))
    ensures IsSubsequence(r.resources, resources)
    ensures |r.resources| < 5 ==>
              forall x :: x in resources && SharesTechnology(x, Ids(r.technologies)) ==> x in r.resources
  {
    var techs := SelectedTechnologies(technologies, f);
    var chainName := ChainName(technologies, f.blockchain);
    StackRecommendation(
      RecommendationId(now),
      Title(f.projectType, chainName),
      Description(f, chainName),
      techs,
      RelevantResources(resources, Ids(techs)))
  }

  // ---------------------------------------------------------------------
  // The resolver as the source writes it
  // ---------------------------------------------------------------------

  /** Rule 2 as written: push the language for the chain. */
  method AddLanguage(technologies: seq<Technology>, formData: FormData, filtered: seq<Option<Technology>>)
    returns (r: seq<Option<Technology>>)
    ensures r == filtered + LookupAll(technologies, LanguageIds(formData))
  {
    r := filtered;
    var b := formData.blockchain;
    if b == Ethereum || b == Polygon {
      r := r + [Find(technologies, "solidity")];
    } else if b == Solana {
      r := r + [Find(technologies, "rust")];
    } else if b == Arweave {
      r := r + [Find(technologies, "rust")];
    }
  }

  /** Rule 3 as written: push the framework for the chain and level. */
  method AddFramework(technologies: seq<Technology>, formData: FormData, filtered: seq<Option<Technology>>)
    returns (r: seq<Option<Technology>>)
    ensures r == filtered + LookupAll(technologies, FrameworkIds(formData))
  {
    r := filtered;
    var b := formData.blockchain;
    if b == Ethereum || b == Polygon {
      if formData.experienceLevel == Advanced {
        r := r + [Find(technologies, "foundry")];
      } else {
        r := r + [Find(technologies, "hardhat")];
      }
    } else if b == Solana {
      r := r + [Find(technologies, "anchor")];
    }
  }

  /** Rule 4 as written: push the wallet for the chain. */
  method AddWallet(technologies: seq<Technology>, formData: FormData, filtered: seq<Option<Technology>>)
    returns (r: seq<Option<Technology>>)
    ensures r == filtered + LookupAll(technologies, WalletIds(formData))
  {
    r := filtered;
    var b := formData.blockchain;
    if b == Ethereum || b == Polygon {
      r := r + [Find(technologies, "metamask")];
    } else if b == Solana {
      r := r + [Find(technologies, "phantom")];
    } else if b == Arweave {
      r := r + [Find(technologies, "arconnect")];
    }
  }

  /** Rule 5 as written: push a storage solution when storage is a use case. */
  method AddStorage(technologies: seq<Technology>, formData: FormData, filtered: seq<Option<Technology>>)
    returns (r: seq<Option<Technology>>)
    ensures r == filtered + LookupAll(technologies, StorageIds(formData))
  {
    r := filtered;
    if Storage in formData.useCase {
      if formData.blockchain == Arweave {
        r := r + [Find(technologies, "arweave-storage")];
      } else {
        r := r + [Find(technologies, "ipfs")];
      }
    }
  }

  /** Rule 6 as written: push a compute solution when compute is a use case. */
  method AddCompute(technologies: seq<Technology>, formData: FormData, filtered: seq<Option<Technology>>)
    returns (r: seq<Option<Technology>>)
    ensures r == filtered + LookupAll(technologies, ComputeIds(formData))
  {
    r := filtered;
    var b := formData.blockchain;
    if Compute in formData.useCase {
      if b == Arweave {
        r := r + [Find(technologies, "ao")];
      } else if b == Ethereum || b == Polygon {
        r := r + [Find(technologies, "chainlink")];
      }
    }
  }

  /** Rule 7 as written: push the frontend libraries for the chain and level. */
  method AddFrontend(technologies: seq<Technology>, formData: FormData, filtered: seq<Option<Technology>>)
    returns (r: seq<Option<Technology>>)
    ensures r == filtered + LookupAll(technologies, FrontendIds(formData))
  {
    r := filtered;
    var b := formData.blockchain;
    if b == Ethereum || b == Polygon {
      if formData.experienceLevel == Beginner {
        r := r + [Find(technologies, "web3js")];
      } else {
        r := r + [Find(technologies, "wagmi")];
        r := r + [Find(technologies, "viem")];
      }
    }
  }

  /**
   * `generateStackRecommendation`, reading the two reference tables passed in
   * (the module constants `Technologies` and `Resources` in the source): it
   * pushes onto a growing list rule by rule, then filters, de-duplicates,
   * selects resources and fills in the templates.
   */
  method GenerateStackRecommendation(
    technologies: seq<Technology>, resources: seq<Resource>, formData: FormData, now: nat)
    returns (rec: StackRecommendation)
    ensures rec == Resolve(technologies, resources, formData, now)
  {
    var filteredTechnologies: seq<Option<Technology>> := [];

    // Add blockchain
    var blockchainTech := Find(technologies, BlockchainText(formData.blockchain));
    if blockchainTech.Some? {
      filteredTechnologies := filteredTechnologies + [blockchainTech];
    }
    assert filteredTechnologies == ChainEntry(technologies, formData);

    // Add language, framework, wallet, storage, compute and frontend, in that order
    filteredTechnologies := AddLanguage(technologies, formData, filteredTechnologies);
    filteredTechnologies := AddFramework(technologies, formData, filteredTechnologies);
    filteredTechnologies := AddWallet(technologies, formData, filteredTechnologies);
    filteredTechnologies := AddStorage(technologies, formData, filteredTechnologies);
    filteredTechnologies := AddCompute(technologies, formData, filteredTechnologies);
    filteredTechnologies := AddFrontend(technologies, formData, filteredTechnologies);
    assert filteredTechnologies == Collected(technologies, formData);

    // Filter out missing lookups, then remove duplicates
    var found := Compact(filteredTechnologies);
    var unique := Dedupe(found);

    // Get relevant resources
    var techIds := Ids(unique);
    var filteredResources := RelevantResources(resources, techIds);

    // Generate title based on project type and blockchain
    var chainName := NameOrUndefined(blockchainTech);
    var title := "";
    if formData.projectType == Nft {
      title := "NFT Development Stack on " + chainName;
    } else if formData.projectType == Defi {
      title := "DeFi Application Stack on " + chainName;
    } else if formData.projectType == Dao {
      title := "DAO Development Stack on " + chainName;
    } else if formData.projectType == Gaming {
      title := "Web3 Gaming Stack on " + chainName;
    } else if formData.projectType == AiWeb3 {
      title := "AI & Web3 Integration Stack on " + chainName;
    } else {
      title := "Web3 Development Stack on " + chainName;
    }

    rec := StackRecommendation(
      "stack-" + DecimalText(now),
      title,
      "Customized stack recommendation for " + ExperienceLevelText(formData.experienceLevel)
        + " developers building a " + ProjectTypeText(formData.projectType)
        + " project on " + chainName + ".",
      unique,
      filteredResources);
  }
}
