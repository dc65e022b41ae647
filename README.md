# Web3 stack recommender — a verified model of the resolver

The modelled application is a questionnaire wizard. A developer answers five questions:
- the project type;
- their experience level;
- the target blockchain;
- the use cases;
- their priorities.

The resolver `generateStackRecommendation` turns those answers into a bundle. The bundle holds:
- an id;
- a title;
- a description;
- an ordered list of technologies, taken from a static table of 24 rows;
- up to five learning resources, taken from a static table of 9 rows.

The model covers the resolver, the answer and record types, and both tables.

Files:
- `wrappers.dfy`: the `Option` type. It models a `find` that may come back `undefined`.
- `stack_data.dfy`: module `StackData`, with the following parts.
  - The answer enumerations and the `FormData`, `Technology`, `Resource` and `StackRecommendation` records.
  - The two tables, `Technologies` and `Resources`, row for row.
  - `FindIndex`, the `findIndex` by id that the de-duplication runs on the cleaned list, and `Find`, the table's `find` by id.
- `recommendation.dfy`: module `Recommendation`, with the following parts.
  - The steps of the resolver as functions:
    - the lookups;
    - the removal of missing lookups (`Compact`);
    - the first-occurrence de-duplication (`Dedupe`);
    - the resource filter and the cap of five (`RelevantResources`);
    - the title and description templates;
    - the id.
  - `Resolve`, the whole resolver as one function.
  - `GenerateStackRecommendation`, a method that runs the rules in the source's order, pushing onto a list.
    - One method per rule (`AddLanguage` … `AddFrontend`) holds that rule's `if`/`else` chain.
    - The method is proved to return exactly `Resolve`.
- `properties.dfy`: module `RecommendationProperties`. It holds what the resolver promises, stated over the function. This covers:
  - the technology list chain by chain;
  - the framework and frontend choices;
  - chains without a row;
  - independence from the priorities answer;
  - the titles;
  - the id;
  - two worked scenarios.

Modelling choices:
- The clock reading used in the id is the parameter `now` (milliseconds, a `nat`). The id is `stack-` followed by `now` in decimal.
- The method and `Resolve` take the technology and resource tables as parameters; `Technologies` and `Resources` are the tables the application ships.
  - Most bundle properties are stated for any technology table whose id column is the shipped one. `IdColumn` proves that the shipped table qualifies.
  - The display names of the four chain rows are stated separately, in `ChainRowNames` and `ChainNameByChain`.
- A lookup that finds nothing is `None`. It is dropped by `Compact`, the model of `filter(Boolean)`.
- A chain without a row prints as the text `undefined` in the title and the description. This is what the template strings produce for `blockchainTech?.name`.
- The rows' optional `logo` field is `None`, since no row sets it.

Two consequences of the code are worth knowing:
- **Ids can repeat.** The id is `stack-` followed by `Date.now()`, so two bundles made in the same millisecond share an id. `IdTracksClock` proves that the ids are equal exactly when the clock readings are.
- **The list can be empty.** Avalanche, cosmos, near and other have no row in the table. Without the storage use case, their technology list is empty (`UnlistedChainIds`).

## Model

| member | source | states |
|---|---|---|
| StackData.FindIndex | src/lib/stackData.ts:398-400 | The index of the first row with the given id, or -1 exactly when no row has it. |
| StackData.Find | src/lib/stackData.ts:334 | Returns None exactly when no row has the id; otherwise it returns the first row with that id. |
| Recommendation.Compact | src/lib/stackData.ts:395 | Keeps exactly the present entries and never lengthens the list. When every lookup succeeded, it keeps them all, element for element. (Order is stated by CompactAppend.) |
| RecommendationProperties.CompactAppend | src/lib/stackData.ts:395 | Cleaning a concatenation cleans each part and concatenates the results. With Compact's own contract on one-element lists, this fixes the result, order included. |
| Recommendation.Dedupe | src/lib/stackData.ts:398-400 | The result has no repeated id and only elements of the input. For every id in the input, the result contains its first occurrence, and the order of first occurrences is kept. A list without repeats is returned unchanged. |
| Recommendation.KeepFirstAtFirstIndex | src/lib/stackData.ts:398-400 | `KeepFirst` is the `findIndex`-equals-index filter. Every element it keeps is the first occurrence of its id. |
| Recommendation.KeepFirstOrdered | src/lib/stackData.ts:398-400 | The kept elements appear in increasing order of their first-occurrence position. |
| Recommendation.KeepFirstComplete | src/lib/stackData.ts:398-400 | Every first occurrence at or after the starting index is kept. |
| Recommendation.KeepFirstKeepsUnique | src/lib/stackData.ts:398-400 | On a list without repeated ids, the filter keeps the whole suffix. |
| Recommendation.RelevantTo | src/lib/stackData.ts:404-405 | A row is in the result if and only if it is in the table and shares a technology id with the chosen list, and the result is a subsequence of the table, so table order is kept. On a table without repeated rows, such as the shipped one, this determines the result. |
| Recommendation.RelevantResources | src/lib/stackData.ts:403-406 | At most five resources, each from the table and sharing an id with the list, in table order. They are the first min(5, n) of the n matching rows, so when fewer than five are returned, every matching row is among them. |
| Recommendation.DecimalText | src/lib/stackData.ts:425 | The decimal rendering of the clock reading is non-empty and made only of digits. |
| Recommendation.DecimalRoundTrip | src/lib/stackData.ts:425 | Parsing the decimal rendering gives back the clock reading. |
| Recommendation.RecommendationId | src/lib/stackData.ts:425 | The id is "stack-" followed by digits only, and parsing those digits gives back the clock reading. |
| Recommendation.LookupAll | src/lib/stackData.ts:339-390 | One lookup per id, in order. A lookup is present if and only if its id is in the table's id column. A present lookup is a row of the table carrying that id, namely the first such row. |
| Recommendation.SelectedTechnologies | src/lib/stackData.ts:333-400 | The technology list the rules produce has no repeated id, and every entry is a row of the table. |
| Recommendation.Resolve | src/lib/stackData.ts:329-431 | The bundle has no repeated technology id, and every technology is a row of the table. It has at most five resources, each from the resource table, sharing an id with the technologies and kept in table order; when fewer than five are returned, every matching resource is included. |
| Recommendation.AddLanguage | src/lib/stackData.ts:337-344 | Appends solidity for ethereum and polygon and rust for solana and arweave; appends nothing for any other chain. |
| Recommendation.AddFramework | src/lib/stackData.ts:346-355 | Appends foundry (advanced) or hardhat on ethereum and polygon, anchor on solana, and nothing elsewhere. |
| Recommendation.AddWallet | src/lib/stackData.ts:357-364 | Appends metamask, phantom or arconnect for the chain, and nothing for other chains. |
| Recommendation.AddStorage | src/lib/stackData.ts:366-373 | With the storage use case, appends arweave-storage on arweave and ipfs on any other chain; appends nothing without it. |
| Recommendation.AddCompute | src/lib/stackData.ts:375-382 | With the compute use case, appends ao on arweave and chainlink on ethereum and polygon; appends nothing otherwise. |
| Recommendation.AddFrontend | src/lib/stackData.ts:384-392 | On ethereum and polygon, appends web3js for beginners and otherwise wagmi then viem; appends nothing on other chains. |
| Recommendation.GenerateStackRecommendation | src/lib/stackData.ts:329-431 | Running the rules in order, then filtering, de-duplicating, selecting resources and filling the templates, returns exactly the bundle `Resolve` describes, so every property of `Resolve` holds for it. |
| RecommendationProperties.IdColumn | src/lib/stackData.ts:44-250 | The id column of the shipped technology table, in order. |
| RecommendationProperties.ChainRowListed | src/lib/stackData.ts:4 | Exactly ethereum, arweave, solana and polygon among the chain answers have a row in the table. |
| RecommendationProperties.RuleIdsListed | src/lib/stackData.ts:337-392 | Every id a rule looks up has a row, so none of those lookups comes back missing. |
| RecommendationProperties.RulesGiveExpectedIds | src/lib/stackData.ts:337-392 | The rule functions `LanguageIds`, `FrameworkIds`, `WalletIds`, `StorageIds`, `ComputeIds` and `FrontendIds`, taken in rule order after the chain's id, give the chain-by-chain list stated under TechnologyIdsByChain. |
| RecommendationProperties.CollectedIds | src/lib/stackData.ts:333-395 | `ChainEntry` is rule 1's push and `Collected` is everything the rules push. After missing lookups are dropped, the ids are the chain's own id (when it has a row) followed by each rule's ids in rule order. |
| RecommendationProperties.ExpectedIdsDistinct | src/lib/stackData.ts:337-392 | No chain's rules pick the same technology twice, so de-duplication never removes anything. |
| RecommendationProperties.SelectedIds | src/lib/stackData.ts:333-400 | Over a table with the shipped id column, the technology ids are exactly the chain-by-chain list below. |
| RecommendationProperties.TechnologyIdsByChain | src/lib/stackData.ts:329-431 | With the shipped tables, the ids are as follows. Ethereum and polygon get the chain, solidity, foundry or hardhat and metamask, then ipfs and chainlink when asked, then web3js or wagmi and viem. Solana gets solana, rust, anchor, phantom and ipfs when asked. Arweave gets arweave, rust, arconnect, then arweave-storage and ao when asked. Any other chain gets only ipfs, when storage is asked. |
| RecommendationProperties.BundleIds | src/lib/stackData.ts:329-431 | The same list, for any pair of tables whose technology id column is the shipped one. |
| RecommendationProperties.ChainRows | src/lib/stackData.ts:334-335 | `ChainName` is `blockchainTech?.name`, and `NameOrUndefined` renders a missing row as `undefined`. The name interpolated for a chain is the name on its row (rows 0 to 3), or `undefined` for a chain without a row. |
| RecommendationProperties.ChainRowNames | src/lib/stackData.ts:46-77 | The four chain rows are named Ethereum, Arweave, Solana and Polygon. |
| RecommendationProperties.ChainNameByChain | src/lib/stackData.ts:409-427 | With the shipped table, the interpolated names are "Ethereum", "Arweave", "Solana", "Polygon", or "undefined" for the other four answers. |
| RecommendationProperties.TitleShape | src/lib/stackData.ts:409-422 | `Title` is the if/else chain of templates. Each title is its project type's phrase followed by " Stack on " and the chain's name. Social, identity and other use "Web3 Development". |
| RecommendationProperties.TitleNamesChain | src/lib/stackData.ts:409-422 | Every title ends with " Stack on " and the chain's name. |
| RecommendationProperties.TitleByProjectType | src/lib/stackData.ts:409-422 | Two project types get the same title on a chain if and only if they are the same type or both fall back to the generic template (social, identity, other). |
| RecommendationProperties.DescriptionNamesChain | src/lib/stackData.ts:427 | `Description` is the single template. The description ends with " project on ", the chain's name and a full stop. |
| RecommendationProperties.UnlistedChainIds | src/lib/stackData.ts:334-392 | For avalanche, cosmos, near and other, the technology ids are exactly [ipfs] when storage is asked for, and empty otherwise. |
| RecommendationProperties.UnlistedChainText | src/lib/stackData.ts:411-427 | For those chains the title ends with "Stack on undefined" and the description with "project on undefined.". |
| RecommendationProperties.EvmFramework | src/lib/stackData.ts:347-352 | On ethereum and polygon, the list starts with the chain, solidity, the framework and metamask. Foundry is in the list if and only if the level is advanced, and hardhat if and only if it is not. |
| RecommendationProperties.EvmFrontend | src/lib/stackData.ts:385-391 | On ethereum and polygon, web3js is in the list if and only if the level is beginner, and wagmi and viem if and only if it is not. The list ends with web3js, or with wagmi followed by viem. |
| RecommendationProperties.EvmChoices | src/lib/stackData.ts:347-391 | The two choices above hold for the bundle the resolver returns. |
| RecommendationProperties.IndependentOfPreferences | src/lib/stackData.ts:329-431 | Changing the priorities answer does not change the bundle. |
| RecommendationProperties.SameSelection | src/lib/stackData.ts:333-400 | Answers that agree on chain, level, storage and compute select the same technology list. |
| RecommendationProperties.DeterminedByAnswers | src/lib/stackData.ts:329-431 | Two answer sets agree on the bundle's title, description, technologies and resources, whatever their clock readings, when they agree on five things: project type, experience level, chain, whether storage is among the use cases, and whether compute is. |
| RecommendationProperties.IdTracksClock | src/lib/stackData.ts:425 | The id starts with "stack-". Two bundles have the same id if and only if they were made at the same clock reading. |
| RecommendationProperties.NftOnEthereumScenario | src/lib/stackData.ts:329-431 | An intermediate NFT project on ethereum with only smart contracts gets the ids ethereum, solidity, hardhat, metamask, wagmi and viem. Its title is "NFT Development Stack on " followed by the ethereum row's name. |
| RecommendationProperties.DefiOnSolanaScenario | src/lib/stackData.ts:329-431 | An advanced DeFi project on solana that asks for storage and compute gets solana, rust, anchor, phantom and ipfs. Its title is "DeFi Application Stack on " followed by the solana row's name. |

## Left out

- The user interface: the questionnaire form's step counter, the recommendation page's grouping and sorting of technologies by category, the hero, progress and resource-card components, scrolling and toasts. These are rendering and interface state, not part of the resolver.
- The "premium" unlock. It is a confirmation dialog, a timer and a toast in the browser, with no effect on the resolver.
- The animation hooks. They are browser observers and timers.
- The clock. `Date.now()` is the parameter `now`; the model does not say how it advances between calls.
- String formatting beyond the templates. The answers print with their source spellings (for example `ai-web3`), and the number in the id prints in plain decimal, as JavaScript prints a millisecond count.
- RecommendationProperties.NftOnEthereumScenario: the title is stated with the ethereum row's name, not the literal "Ethereum". ChainRowNames proves that this name is "Ethereum" in the shipped table.
- RecommendationProperties.DefiOnSolanaScenario: the title is stated in the same way, and the solana row's name is "Solana" by ChainRowNames.
- RecommendationProperties.EvmChoices: stated for any technology table with the shipped id column, and not for the shipped table alone. IdColumn proves that the shipped table has this column.
- RecommendationProperties.UnlistedChainIds: stated for any technology table with the shipped id column. The shipped table qualifies by IdColumn.
- RecommendationProperties.UnlistedChainText: stated for any technology table with the shipped id column. The shipped table qualifies by IdColumn.
