# Real-time context pipeline: a Dafny model

The repository assembles a customer's context in real time. Billing is the system of record for
subscription lines and prices them with a discount rules engine; the product catalogue owns list prices and
a graph of product relationships; change-data capture (CDC) joins CRM and billing events into one canonical
record and enriches it from the catalogue; a two-tier cache stores the record; the offer engine proposes
products from it; and the action broker guards every write. This project models those services and proves
what their documentation promises of them, or shows exactly where the code departs from it.

Dafny 4.11 is enough: `dafny verify dfyconfig.toml` covers every file here.

## How the model is laid out

Each service that keeps state is a class with the fields the service keeps; its methods follow the handlers
branch by branch and are proved equal to a function of the state before. The theorems are about that
function, mostly over whole runs; `CachedFields`, `BillingInCache`, `OntologyTheorems`, `IntentEffects`, `BillingContents`,
`OfferTheorems` and `CatalogueTheorems` also say what it comes to in plain fields, edges, payloads and answers.

| file | what it models |
|---|---|
| `Json.dfy`, `NumeralForms.dfy` | JSON-like values, dictionaries, exceptions as `Outcome`, text that spells a number in all its forms, and sequence sums, counts and permutations |
| `Money.dfy` | `round(x, 2)` as half-even penny rounding over exact reals |
| `Rules.dfy`, `RulesExact.dfy`, `RulesMonotone.dfy`, `RulesSymmetry.dfy`, `RuleOperators.dfy` | the rules engine with its shared accumulator; exactness, monotonicity, money, symmetry, operators |
| `Billing.dfy`, `BillingTheorems.dfy`, `BillingContents.dfy` | the billing records, patches, repricing and recalculation; what a priced line shows and how requests are answered |
| `BillingStale.dfy`, `BillingGrowth.dfy` | which updates leave prices stale, and what an added product does to the other charges |
| `Catalogue.dfy`, `CatalogueTheorems.dfy` | the relationship graph, its load check, the combination validator and the candidate search |
| `OfferEngine.dfy`, `OfferTheorems.dfy` | deltas, term proposals and offers |
| `EvaluationAgreement.dfy`, `OfferQuotes.dfy`, `QuoteRules.dfy`, `QuoteCharges.dfy`, `QuoteWitnesses.dfy` | a proposal over the cached lines against what billing charges: when two evaluations agree, which rules come out differently, what the delta misses, and reachable examples |
| `Broker.dfy`, `BrokerTheorems.dfy`, `IntentEffects.dfy` | the governance chain, its writes and its bounded audit log; what each intent does in terms of its payload |
| `BrokerInterleaving.dfy` | adds cut at the awaits of broker and billing |
| `DecodedActive.dfy` | portfolio safety over what the rest of the system takes for active |
| `Ontology.dfy`, `OntologyTheorems.dfy` | assembling a domain partial, merging partials, the cache schema, field by field |
| `Cache.dfy`, `CacheTheorems.dfy` | the hot and the permanent tier, and their simulation under eviction |
| `Cdc.dfy`, `CdcInvariant.dfy`, `CdcSteps.dfy`, `CdcRuns.dfy`, `CdcFacts.dfy`, `CdcProvenance.dfy`, `AssemblyDetails.dfy` | the assembly service, one atomic step a request; its invariant, the whole-run theorems and what it remembers, writes and schedules |
| `CachedFields.dfy`, `BillingInCache.dfy` | what a cached record shows of events, catalogue and billing, field by field |
| `Interleaving.dfy`, `InterleavingFacts.dfy`, `InterleavingWrites.dfy`, `InterleavingLabels.dfy`, `InterleavingSweep.dfy`, `InterleavingEnrichment.dfy` | the same service cut at its awaits, under arbitrary interleaving |
| `Pipeline.dfy`, `JointRuns.dfy` | billing, assembly, offers and the broker's check put end to end, over joint runs |

Amounts are exact reals in pounds, timestamps are integers, correlation ids are fresh numbers, and permission
is an input of the broker. In the assembly service the specification of one customer is a step function on
what is held about that customer (`StepView`); every method of the class promises that it takes every customer
through exactly that step.

## Where code and documentation differ

The model follows the code. Each of these is a theorem below, or is stated in a contract.

- The catalogue's conflict check is documented to reject any pair marked both compatible and incompatible. The
  graph keeps one label for each direction, so a pair marked both ways in the same direction passes (`OverwrittenContradiction`,
  with the exact condition in `RefusedFiles`).
- `compatible_candidates` is documented as pre-filtered to valid combinations; it returns invalid ones too, flagged
  (`UpgradeIsListedInvalid`, with the exact condition in `AllCandidatesValidExactly`).
  It also returns products that require a held one, which its description leaves out.
- The broker documents an audit record for every decision. Allowed intents without a route or with a malformed
  payload leave none (`AuditExactly`).
- The README's triple-play example counts a text field; the engine converts the field to a number before it
  aggregates, so on cached lines that policy raises (`CountingATextFieldRaises`, `TypeAggregateRaisesExactly`). Billing's
  lines show no type, so there it never raises and counts lines instead of categories (`TypesAreCountedAsLines`).
- Its bundle example names the comparison value `threshold` where the engine reads `value`: as written it makes every
  evaluation of a customer with an active line raise (`ValuelessRequirementRaises`). With the value in its place it is
  quoted and never charged (`BundleIsNeverCharged`, `BundleIsQuotedNotCharged`).
- The derived discount summary reads `monthly_charge`, which the line mapping has renamed, so it is always zero
  (`DerivedTotalsAreZero`).
- A late event completes a record without clearing `missing_domains` (`MissingDomainsExact`, `CompleteWithMissingDomains`).
- Provenance is documented as preserved for each domain. It lists both domains only as long as nothing has been
  accepted since the join (`ProvenanceExact`).
- The price of a proposal is not what billing would charge. The engine evaluates the cached lines, with the catalogue's
  list prices and product types, and a new line without a list price; billing evaluates its own list prices and no
  types. `ProposalMatchesBillingExactly` says exactly when the two agree, `SettledProposalMatchesExactly` and
  `BundleIsQuotedExactly` for each kind of rule, and `QuotedDeltaIsCharged` what the quoted delta misses.
  `ProposalMissesItsPrice` shows 20 against 18 pounds, and `ProposalSeesTheNewPrice` 4.50 against 5 when the cache
  already has a price that billing has not recalculated.
- Status changes and manual charges do not reprice (`UpdateKeepsPricedExactly`, `DeactivationExact`,
  `ReactivationExact`, `ManualChargeExact`; `CancellingLeavesPricesStale` and `ReactivatingLeavesPricesStale` show it).
- The status of a new line is not validated. With the word "active" the line counts as active everywhere but in the
  broker's combination check (`UnvalidatedStatusIsHalfActive`), so two accepted adds can join incompatible products
  (`WordStatusBreaksSafety`); without such an add portfolios stay safe (`DecodedSafety`).
- Between the awaits of broker and billing another write can come in: an add then drops a line written since its copy
  (`LineLostExactly`, `AddIsLost`), or joins a product to an incompatible one that came in after its check
  (`StepSafeExactly`, `AddsJoinIncompatible`). An add that nothing else disturbs is one step (`UndisturbedAddIsAtomic`).
- Enrichment puts back what it read before it asked the catalogue, so a newer billing event can disappear from the cache
  (`LateEnrichmentRestoresOldLines`, with the exact condition in `LinesLostExactly`).
- Between the awaits of the assembly service a timeout can wipe a group that another event had written
  (`TimeoutWipesAGroup`, with the exact condition in `GroupLostExactly`), and a stale lookup can relabel a complete
  record as waiting (`CompletenessIsLost`, with the exact condition in `LabelLostExactly`).

## Model

| member | source | states |
|---|---|---|
| Money.HalfEvenCharacterised | rules/commercial_rules.py:245-245 | penny rounding picks the one integer that is strictly nearest, or even and as near as any other |
| Money.Round2Monotone | rules/commercial_rules.py:245-267 | rounding to pennies preserves order |
| Money.Round2Near | rules/commercial_rules.py:245-267 | rounding moves an amount by at most half a penny and yields whole pence |
| Money.Round2Fixed | rules/commercial_rules.py:245-267 | whole pence are left alone |
| Rules.PolicyMap.Append | rules/commercial_rules.py:153-153 | appending an id changes that SKU's entry and no other |
| Rules.EvaluatePerProduct | rules/commercial_rules.py:145-154 | every SKU's entry grows by the id once for each of its matching lines; fires exactly when a line with a known SKU matches; raises exactly on a non-numeric field |
| Rules.EvaluatePortfolio | rules/commercial_rules.py:156-172 | the id goes to every SKU if the aggregate passes and to none otherwise |
| Rules.CollectSatisfying | rules/commercial_rules.py:181-190 | the SKUs collected for a requirement are those of the active lines that satisfy it and are accumulator keys |
| Rules.EvaluateCombination | rules/commercial_rules.py:174-195 | an incomplete combination changes nothing; a complete one reaches all SKUs or exactly those that satisfy some requirement; requirements after an unmet one are not evaluated |
| Rules.EvaluatePolicy | rules/commercial_rules.py:133-197 | whichever scope, the accumulator grows by exactly the policy's hits, and the result says whether it fired |
| Rules.ApplyPolicies | rules/commercial_rules.py:226-230 | after the loop the accumulator is the declarative record of all policies in load order, and the fired ids are those that fire |
| Rules.BuildResults | rules/commercial_rules.py:232-253 | one result a line, priced from the accumulator entry of its SKU |
| Rules.EvaluateDiscounts | rules/commercial_rules.py:200-267 | the in-place evaluation computes the declarative summary, or raises exactly when a price is not a number, an SKU cannot be a key or a policy raises |
| RulesExact.RecordedExact | rules/commercial_rules.py:219-230 | with distinct SKUs a line's entry lists exactly the policies that apply to it, in load order |
| RulesExact.ApplicableDistinct | rules/commercial_rules.py:219-230 | with distinct policy ids no policy is listed twice |
| RulesExact.EvaluatorRefinement | rules/commercial_rules.py:133-253 | with distinct active SKUs and policy ids each result lists exactly the applicable policies, once and in load order, with their percentages summed; reported as fired exactly when firing |
| RulesExact.PortfolioAllOrNone | rules/commercial_rules.py:156-195 | a portfolio policy is on every active SKU or on none; an incomplete combination is on none and does not fire |
| Numerals.NumeralOfSpelling | rules/commercial_rules.py:149-149 | the decimal spelling of a number is read back as that number |
| Numerals.NumeralOfExponent | rules/commercial_rules.py:149-149 | digits with an exponent are read as the number of the digits shifted by it |
| NumeralForms.SignedNumeral | rules/commercial_rules.py:149-149 | a minus in front of digits negates, a plus does not |
| NumeralForms.DecimalNumeral | rules/commercial_rules.py:149-149 | digits with a point among them are whole part and fraction, and a point alone is no number |
| NumeralForms.NumeralOfNegativeExponent | rules/commercial_rules.py:149-149 | a negative exponent shifts down |
| NumeralForms.NoBareExponent | rules/commercial_rules.py:149-149 | an exponent needs digits |
| NumeralForms.UnderscoreLeftOut | rules/commercial_rules.py:149-149 | one underscore between digits is left out |
| NumeralForms.UnderscoreMisplaced | rules/commercial_rules.py:149-149 | anywhere else it makes the text no number |
| NumeralForms.BlanksAround | rules/commercial_rules.py:149-149 | white space around a number does not matter |
| Numerals.WordIsNoNumeral | rules/commercial_rules.py:149-149 | a word is not read as a number |
| RulesExact.CountingATextFieldRaises | rules/commercial_rules.py:159-166 | whatever its aggregate, a portfolio rule raises exactly when some active line has under its field what does not spell a finite number, so that a word there makes the evaluation raise; texts that spell an infinity or no number at all count as raising here |
| RulesExact.CombinationRaisesExactly | rules/commercial_rules.py:181-187 | a combination raises exactly when some active line cannot be compared with a requirement whose predecessors are all met |
| RulesExact.ValuelessRequirementRaises | rules/commercial_rules.py:181-185 | a combination whose first requirement has no value raises exactly for customers with an active line, and the whole evaluation with it |
| RuleOperators.OperatorsOfNumbers | rules/commercial_rules.py:36-42 | the five operators are the order on numbers and its equality, consistently |
| RuleOperators.TextOrder | rules/commercial_rules.py:36-42 | text is ordered by its first differing character, a beginning coming first |
| RuleOperators.OperatorsOfTexts | rules/commercial_rules.py:36-42 | the five operators are that order and its equality on texts |
| RuleOperators.OperatorRaisesExactly | rules/commercial_rules.py:126-130 | an operator raises exactly when it orders values that are not two numbers or two texts |
| RuleOperators.FieldRead | rules/commercial_rules.py:145-166 | an absent field is read as zero, a number as it is, text as the number it spells, and anything else raises |
| RuleOperators.KeylessLine | rules/commercial_rules.py:234-253 | a line without an SKU is reported under the empty one, undiscounted unless some line has that SKU |
| RuleOperators.PriceRead | rules/commercial_rules.py:234-238 | a line is priced at its list price, without one at its charge, and without either at nothing |
| RuleOperators.SummaryReports | rules/commercial_rules.py:226-267 | the loaded policies are reported in order, the fired ones once each and in that order |
| RuleOperators.LastPolicyCounts | rules/commercial_rules.py:233-244 | of policies with one id the last counts for its percentage |
| RuleOperators.UnknownPolicy | rules/commercial_rules.py:239-244 | an id that no policy has counts for nothing |
| RulesMonotone.EvaluableShrinks | rules/commercial_rules.py:133-197 | whatever evaluates with an extra line evaluates without it |
| RulesMonotone.DiscountedAntitone | rules/commercial_rules.py:245-245 | a larger percentage never raises the rounded price |
| RulesMonotone.AddingNeverHurts | rules/commercial_rules.py:133-267 | under upward policies of at most 100 per cent together a new active line removes no policy, raises no existing price and stops no policy from firing; it lowers no total saving if the list prices add up when rounded |
| RulesMonotone.WholePricesAddUp | rules/commercial_rules.py:256-267 | whole-pence list prices always add up |
| RulesMonotone.SavingKeptExactly | rules/commercial_rules.py:256-267 | the condition on the prices is exact: without policies the total saving is kept if and only if they add up |
| RulesMonotone.TwoSmallPrices | rules/commercial_rules.py:256-267 | two prices of 0.6 pence do not add up, so adding the second lowers the saving |
| RulesMonotone.AverageCanBeLost | rules/commercial_rules.py:162-163 | an average is not upward: a cheaper line takes the policy away |
| RulesMonotone.Conservation | rules/commercial_rules.py:255-267 | the reported total is the sum of the reported prices, and the saving is exactly total list minus total discounted |
| RulesMonotone.SavingIsLineSavings | rules/commercial_rules.py:255-267 | with whole-pence prices the total saving is the sum of the lines' savings |
| RulesMonotone.TotalWithinHalfPennies | rules/commercial_rules.py:245-256 | a total over n lines is within n half-pennies of the exact one |
| RulesMonotone.MoneyBounds | rules/commercial_rules.py:245-245 | with 0 to 100 per cent off a non-negative price the result lies between zero and the rounded list price, within half a penny of exact |
| RulesMonotone.BelowListExactly | rules/commercial_rules.py:245-245 | no discounted price exceeds the list price exactly when rounding does not raise the list price, as with whole pence |
| RulesSymmetry.EvaluatorSymmetry | rules/commercial_rules.py:116-255 | lists whose active lines agree up to order give the same per-SKU results, totals and fired policies, and raise alike |
| Billing.BuildEvalContext | billing/billing_app.py:59-75 | the evaluation context has one decoded line for each record line, at list price, in order |
| Billing.PatchFirstLine | billing/billing_app.py:268-287 | the first line of the SKU is patched and no other; found exactly when the record has the SKU |
| Billing.SetPrices | billing/billing_app.py:440-443 | exactly the SKU's lines that are not cancelled get the new list price |
| Billing.BillingSor.RepriceRecord | billing/billing_app.py:325-341 | the in-place loop writes charge, percentage and discounts of the evaluation into the active lines only, or raises with nothing written |
| Billing.BillingSor.UpdateLine | billing/billing_app.py:261-290 | the update branch with its 422 and 404 refusals; a refusal changes nothing and no other line is repriced |
| Billing.BillingSor.UpdateCustomer | billing/billing_app.py:235-381 | unknown customer 404, duplicate SKU 409, unknown product 404, missing price 422; otherwise the one record is replaced by the patched and, for an add, repriced record, and captured |
| Billing.BillingSor.RecalculateCustomer | billing/billing_app.py:437-466 | one round of the loop rewrites one customer or, when evaluation raises, nothing |
| Billing.BillingSor.RecalculateFromProduct | billing/billing_app.py:391-476 | the affected customers are rewritten one after the other and each is captured as it then stands; an exception keeps what was written and captured before it |
| Billing.BillingSor.RecalculateAffected | billing/billing_app.py:437-476 | the loop itself: it ends, or raises, with the records and captures of the rounds so far |
| BillingTheorems.RepriceFixpoint | billing/billing_app.py:319-341 | repricing yields a rule-consistent record whose applied percentages sum to the total, and repricing again changes nothing |
| BillingTheorems.RepriceFrame | billing/billing_app.py:328-341 | repricing touches charge, percentage and discounts of active lines and nothing else |
| BillingTheorems.RecalculatedFrame | billing/billing_app.py:437-466 | a touched customer's lines keep identity, status and, when suspended, charge; cancelled lines are untouched; the SKU's lines carry the new price |
| BillingTheorems.RecalculationExact | billing/billing_app.py:424-466 | a completed recalculation changes exactly the customers with a non-cancelled line of the SKU, and leaves them rule-consistent |
| BillingTheorems.RecalculationIdempotent | billing/billing_app.py:424-466 | recalculating again at the same catalogue price changes nothing |
| BillingTheorems.AddExact | billing/billing_app.py:292-343 | an accepted add appends one line at catalogue price, without a reason and, unless active, undiscounted; it changes only charges and discounts of active lines beside it and leaves the whole record rule-consistent |
| BillingTheorems.PatchKeepsWellFormed | billing/billing_app.py:294-317 | every accepted patch keeps distinct SKUs and a list price on every line |
| BillingTheorems.ServeAll | billing/billing_app.py:235-466 | so does every run of patches and recalculations, and no customer appears or disappears |
| BillingTheorems.RepricedAfterEveryRun | billing/billing_app.py:319-466 | after any run, whoever the last request added to or recalculated is rule-consistent |
| BillingTheorems.UpdateExact | billing/billing_app.py:261-290 | an update is accepted exactly for a held SKU with, if a status is named, a valid one and a reason; it changes the named fields of that line and nothing else |
| BillingContents.ContextShows | billing/billing_app.py:59-75 | an evaluated line shows SKU, status in words, list price or else charge or else zero, and term or else one month, and nothing else |
| BillingContents.PricedLineShows | billing/billing_app.py:325-341 | an active line of a rule-consistent record has exactly the discounts of the policies that apply to it, once each, with their own percentages and reasons, their sum and the list price less it |
| BillingContents.LoadOrder | rules/commercial_rules.py:226-230 | applicable policies are listed in load order |
| BillingContents.DiscountsListed | billing/billing_app.py:333-341 | the discounts written are the listed policies', one for one and in order |
| BillingContents.AddAnswers | billing/billing_app.py:292-306 | an add is refused with 409, 404 or 422, or ends in 500, exactly for a duplicate SKU, an unknown product, an unpriced one or a raising evaluation |
| BillingContents.UpdateAnswers | billing/billing_app.py:261-289 | an update is refused with 422 or 404 exactly for a bad status or a missing reason, and otherwise for a SKU not held |
| BillingContents.RecalculationAnswers | billing/billing_app.py:410-422 | a recalculation of an unknown or unpriced product is answered 404 or 422 and writes nothing |
| BillingContents.PatchBranches | billing/billing_app.py:261-371 | an update goes before an add, and a patch with neither captures the record as it is |
| BillingContents.AffectedInOrder | billing/billing_app.py:424-431 | the affected customers are taken in listing order |
| BillingContents.RecalculationStops | billing/billing_app.py:437-466 | a recalculation that raises does so at one customer: those before it are rewritten, it and all others are as they were |
| BillingStale.UpdateKeepsPricedExactly | billing/billing_app.py:261-290 | an accepted update of any kind keeps a rule-consistent record so exactly when the rules still evaluate, every other active line keeps its policies and the patched line, if active, carries its own result |
| BillingStale.DeactivationExact | billing/billing_app.py:261-290 | a suspension or cancellation keeps the record rule-consistent exactly when each policy applies to every remaining active line without the line as it did with it |
| BillingStale.ReactivationExact | billing/billing_app.py:263-284 | a reactivation, with or without a new charge, keeps it so exactly when the grown lines evaluate, the line carries what they give it and each policy applies to the others as before |
| BillingStale.CancellingLeavesPricesStale | billing/billing_app.py:261-290 | a cancellation takes a rule-consistent record out of consistency |
| BillingStale.ReactivatingLeavesPricesStale | billing/billing_app.py:261-290 | so does a reactivation |
| BillingStale.ManualChargeExact | billing/billing_app.py:281-283 | a manual charge keeps it so exactly when the line is not active or is already charged that |
| BillingGrowth.AddNeverRaisesACharge | billing/billing_app.py:292-343 | an accepted active add leaves every active line with all its discounts and no higher charge, under upward policies of at most 100 per cent |
| BillingGrowth.ShippedPoliciesNeverRaise | rules/discounts.yaml:34-58 | with the shipped policies no billing record makes an evaluation raise |
| BillingGrowth.ShippedPoliciesQualify | rules/discounts.yaml:34-58 | the shipped policies are upward and at most 100 per cent together, so the guarantees above hold of them |
| DecodedActive.UnvalidatedStatusIsHalfActive | billing/billing_app.py:201-201 | a line added with status "active" is evaluated as active at its undiscounted list price, and leaves the set that the combination check looks at unchanged |
| Graphs.NeighboursExact | product/catalogue_app.py:126-128 | the neighbours and the sources listed for a label are exactly the other ends of such edges |
| Graphs.AddEdgesKeeps | product/catalogue_app.py:82-88 | building the graph keeps one edge for each ordered pair, between known nodes |
| Graphs.NoViolations | product/catalogue_app.py:131-161 | the declarative combination rule holds exactly when no member gives rise to a violation |
| CatalogueService.ProductCatalogue.ValidateNoConflicts | product/catalogue_app.py:97-113 | the check passes exactly when no pair carries a compatible and an incompatible edge in the graph |
| CatalogueService.ProductCatalogue.LoadCatalogue | product/catalogue_app.py:59-94 | products, bundles and graph are replaced together or not at all |
| CatalogueService.ProductCatalogue.CheckMember | product/catalogue_app.py:137-159 | one SKU adds exactly the violations it gives rise to |
| CatalogueService.ProductCatalogue.IsCombinationValid | product/catalogue_app.py:131-161 | valid exactly by the declarative rule, with every violation and no other |
| CatalogueService.ViaMap.AddAll | product/catalogue_app.py:323-335 | an inner loop records each target that is not held once, under the given witness |
| CatalogueService.ProductCatalogue.SurfaceFrom | product/catalogue_app.py:321-335 | one held SKU adds exactly its own witness edges |
| CatalogueService.ProductCatalogue.Surface | product/catalogue_app.py:317-335 | the search records exactly the witness edges of the held SKUs |
| CatalogueService.ProductCatalogue.CompatibleCandidates | product/catalogue_app.py:310-351 | every reachable product not held is listed once, with exactly its witness edges, its violations and a flag that is true exactly for valid combinations |
| CatalogueService.ProductCatalogue.UpdateProduct | product/catalogue_app.py:211-230 | a price or terms update changes that product only; 404 and 422 change nothing |
| CatalogueTheorems.RefusedFiles | product/catalogue_app.py:85-113 | a file is refused exactly when two relationships that survive overwriting contradict each other; without overwriting that is every contradictory pair |
| CatalogueTheorems.OverwrittenContradiction | product/catalogue_app.py:86-97 | a pair marked both ways in one direction is let through |
| CatalogueTheorems.AllCandidatesValidExactly | product/catalogue_app.py:311-316 | the candidates are all valid, as documented, exactly when every witnessed product forms a valid combination with the held ones |
| CatalogueTheorems.UpgradeIsListedInvalid | product/catalogue_app.py:321-351 | with one product held that upgrades to another, the other is the one candidate, and it is invalid |
| CatalogueTheorems.CandidatesByEdges | product/catalogue_app.py:317-351 | a product is listed exactly if it is not held and a compatible or upgrade edge leads to it from a held one or it requires a held one; once, with exactly those edges, its product and its validity |
| CatalogueTheorems.ViolationsByEdges | product/catalogue_app.py:131-161 | the violations are exactly the unknown members, the exclusive edges between members with their label, and the members none of whose requirements is among them, with all their options |
| CatalogueTheorems.LastDefinitionCounts | product/catalogue_app.py:59-79 | of several definitions of a product the last one is loaded |
| CatalogueTheorems.OnlyDefined | product/catalogue_app.py:67-76 | no product is loaded that the file does not define |
| CatalogueTheorems.BuiltNodes | product/catalogue_app.py:80-88 | the nodes are the products, the bundles and the ends of the relationships |
| CatalogueTheorems.ProductUpdated | product/catalogue_app.py:211-230 | an update is refused with 404 or 422 exactly for an unknown product or nothing to set; it sets what is given and leaves the rest of the product, and all others, alone |
| OfferEngine.TermProposals | offer_engine/offer_engine_app.py:249-270 | one proposal for each term, each the delta of the evaluation with the hypothetical line |
| OfferEngine.CompatibleOffers | offer_engine/offer_engine_app.py:216-283 | the offers are those of the valid candidates, in order; it raises only when an evaluation does or product ids are not text |
| OfferTheorems.OffersShowCandidates | offer_engine/offer_engine_app.py:242-279 | the offers show the valid candidates, all and in order: name, type, list price or zero, terms or one month, and for each term one proposal with that term, the delta of the evaluation with a line at that price and term |
| OfferTheorems.DeltaLosesNothing | offer_engine/offer_engine_app.py:96-121 | an addition under upward policies reports no lost policy and, where list prices add up, no negative saving |
| OfferTheorems.ProposalsLoseNothing | offer_engine/offer_engine_app.py:249-270 | neither does any proposal the engine makes |
| OfferTheorems.DeltaExact | offer_engine/offer_engine_app.py:96-121 | between two evaluations both deltas are the exact differences of the totals, the net change is the sign of the charge difference, and new and lost policies are the set differences |
| OfferTheorems.UpgradesAreNeverOffered | offer_engine/offer_engine_app.py:242-244 | a candidate witnessed by an upgrade is always invalid and never offered |
| OfferTheorems.OfferIsCandidate | offer_engine/offer_engine_app.py:226-244 | an offered product is not held and forms a valid combination with what is held |
| OfferTheorems.OffersAreAddable | action_broker/action_broker_app.py:143-165 | an offered product is on no line, conflicts with no active line, and passes the broker's check exactly when every requirement is met among the active lines, always when all lines are active |
| OfferTheorems.SuspendedPrerequisite | action_broker/action_broker_app.py:143-165 | with its prerequisite suspended an offered product is refused |
| EvaluationAgreement.SummariesAgreeExactly | rules/commercial_rules.py:200-267 | two lists for the same distinct SKUs are summarised alike exactly when each SKU has the same price in both and each policy reaches the same SKUs of both |
| EvaluationAgreement.EvaluationsAgreeExactly | rules/commercial_rules.py:200-267 | so are two evaluations, or both raise |
| OfferQuotes.ReachesExactly | rules/commercial_rules.py:133-197 | what a policy reaches once a line has joined follows from the sums, counts and met requirements of the lines before and that line |
| OfferQuotes.ReadableExactly | rules/commercial_rules.py:133-197 | so does whether it raises |
| OfferQuotes.ProposalMatchesBillingExactly | offer_engine/offer_engine_app.py:252-264 | over the cached lines on one side and billing's record on the other, each evaluation raises exactly when a held price is no number or a policy cannot be read; if neither raises they agree, line by line and in total, exactly when held prices agree and every policy reaches the same SKUs |
| QuoteRules.SettledProposalMatchesExactly | billing/billing_app.py:59-75 | where cached list prices are billing's and the policies read nothing else that differs, the two raise alike and agree exactly when the price carries no watched list price across its threshold |
| QuoteRules.BundleIsNeverCharged | billing/billing_app.py:59-75 | no billing record ever meets a combination of product types |
| QuoteRules.BundleIsQuotedExactly | offer_engine/offer_engine_app.py:252-264 | such a bundle fires on a proposal exactly when each type is among the cached ones or the proposed product's, so it comes out alike exactly when a type is missing |
| QuoteRules.TypesAreCountedAsLines | billing/billing_app.py:59-75 | a portfolio rule over the product type never raises in billing; a count there counts lines, every other aggregate is zero |
| QuoteRules.TypeAggregateRaisesExactly | offer_engine/offer_engine_app.py:252-264 | on a proposal the same rule raises exactly when a cached type, or that of the proposed product, spells no number |
| QuoteCharges.TotalIsCharged | billing/billing_app.py:325-341 | in a rule-consistent record the evaluated total is what the customer pays |
| QuoteCharges.HeldMatchExactly | offer_engine/offer_engine_app.py:234-237 | the baseline over the cached lines is billing's exactly when prices agree and each policy reaches the same lines |
| QuoteCharges.QuotedDeltaIsCharged | offer_engine/offer_engine_app.py:265-269 | the quoted charge delta over the cached lines misses the change in what the customer pays by exactly what the engine's two totals differ from billing's two, and equals it when prices and policies come out alike before and after |
| QuoteCharges.SettledDeltaIsCharged | offer_engine/offer_engine_app.py:265-269 | with settled list prices and no threshold crossed the proposal evaluates and its delta is the change in the bill |
| QuoteWitnesses.SettledCacheReadsAlike | cdc/cdc_app.py:219-340 | once the catalogue's prices have reached both the cache and billing, engine and billing read the same identity, status, list price and term off every held line |
| QuoteWitnesses.ShippedQuote | rules/discounts.yaml:34-58 | under the shipped policies, for one monthly product held and one added, the engine discounts by the cached price alone and billing by its two prices together |
| QuoteWitnesses.ProposalMissesItsPrice | offer_engine/offer_engine_app.py:252-258 | after two events, with 90 pounds held and 20 added, the proposal gives 90 and 20, billing 81 and 18 |
| QuoteWitnesses.ProposalSeesTheNewPrice | offer_engine/offer_engine_app.py:252-264 | after two events, with a product that billing has at 90 and the catalogue at 110, the proposal prices 5 pounds at 4.50 and billing at 5, although no threshold is crossed |
| QuoteWitnesses.BundleIsQuotedNotCharged | offer_engine/offer_engine_app.py:252-264 | after two events, with broadband held, the documented bundle fires for a proposed TV product and not when billing adds it |
| QuoteWitnesses.ListPriceRequirementRaises | offer_engine/offer_engine_app.py:252-264 | a combination that orders list prices, once reached, makes every proposal evaluation raise |
| Broker.SchemaViolations | action_broker/action_broker_app.py:81-113 | a payload meets its schema exactly when it has no violation |
| Broker.ValidatePayload | action_broker/action_broker_app.py:81-113 | the list of violations is complete and correct, and empty exactly for payloads that meet the schema |
| Broker.ActionBroker.WriteAudit | action_broker/action_broker_app.py:221-243 | the entry is appended and only the last 200 are kept |
| Broker.ActionBroker.CheckCombination | action_broker/action_broker_app.py:140-172 | an add is accepted exactly when the active SKUs with the new one are a valid combination |
| Broker.ActionBroker.ExecuteWrite | action_broker/action_broker_app.py:120-214 | the four routes with their refusals, on billing and catalogue |
| Broker.ActionBroker.SubmitIntent | action_broker/action_broker_app.py:336-496 | the decision chain: policy engine, route, payload, write, audit; what the world and the log become |
| BrokerTheorems.AcceptedAddIsValid | action_broker/action_broker_app.py:132-191 | an accepted active add puts exactly that product into the active set, which is then fully valid, and touches no other customer |
| BrokerTheorems.AcceptedCancelExact | action_broker/action_broker_app.py:181-191 | an accepted cancellation cancels exactly the named line, for the given reason and detail, with price and discounts as they were |
| BrokerTheorems.AcceptedPriceExact | action_broker/action_broker_app.py:193-197 | an accepted price change sets exactly that product's list price and leaves billing alone |
| BrokerTheorems.PortfolioSafety | action_broker/action_broker_app.py:132-214 | every run of intents keeps every active set free of upgrade and incompatibility pairs, and each accepted active add leaves it fully valid |
| DecodedActive.DecodedExact | billing/billing_app.py:56-70 | the decoded active set is the broker's exactly when every SKU on a line of status "active" is on a line of status A |
| DecodedActive.AddKeepsDecodedExactly | action_broker/action_broker_app.py:140-179 | an accepted add keeps the decoded set free of exclusive pairs exactly when no exclusive edge joins the product to a half-active one |
| DecodedActive.DecodedSafety | action_broker/action_broker_app.py:132-214 | over every run without an accepted add of status "active" the decoded sets stay free of exclusive pairs, and each accepted active add leaves one fully valid |
| DecodedActive.WordStatusBreaksSafety | action_broker/action_broker_app.py:140-179 | from an empty portfolio two accepted adds, the first of status "active", join incompatible products |
| BrokerInterleaving.LineLostExactly | billing/billing_app.py:257-343 | the write of an add drops exactly the SKUs that have come in since its copy, its own excepted |
| BrokerInterleaving.StepSafeExactly | action_broker/action_broker_app.py:140-179 | at any interleaving a step joins exclusive products exactly when it writes an active product that clashes with one that became active between its check and its copy |
| BrokerInterleaving.SchedulesStaySafe | action_broker/action_broker_app.py:140-179 | schedules without such a step never join exclusive products |
| BrokerInterleaving.UndisturbedAddIsAtomic | billing/billing_app.py:257-343 | with no other write of the customer between check and write, an add is the atomic request on the record as it stands, whatever else happens |
| BrokerInterleaving.AddIsLost | billing/billing_app.py:257-343 | two adds that copy the same record: the one written first is gone |
| BrokerInterleaving.AddsJoinIncompatible | action_broker/action_broker_app.py:140-179 | two adds checked before either is written join incompatible products |
| BrokerTheorems.ReasonRoundTrip | billing/billing_app.py:171-177 | reading the text of a reason code gives the code back |
| BrokerTheorems.RecalculateSafe | billing/billing_app.py:437-466 | a recalculation changes nobody's active set |
| BrokerTheorems.RecordsStayWellFormed | action_broker/action_broker_app.py:120-214 | the same runs keep distinct SKUs and list prices |
| BrokerTheorems.CancelBreaksRequirementsOnly | action_broker/action_broker_app.py:181-191 | a cancellation leaves a valid set valid exactly when the product was nobody's last remaining option |
| BrokerTheorems.IntentFrame | action_broker/action_broker_app.py:336-496 | an intent not answered 200 changes nothing, save a recalculation that raised half-way; a price change leaves billing alone |
| BrokerTheorems.AuditLogIsSuffix | action_broker/action_broker_app.py:54-54 | over every run the log is the last 200 entries ever written |
| BrokerTheorems.AuditLogKeepsLatest | action_broker/action_broker_app.py:54-54 | all entries up to 200, and the latest 200 from then on |
| BrokerTheorems.AuditExactly | action_broker/action_broker_app.py:381-478 | exactly the allowed intents that are unrouted or malformed are not audited; an entry names caller, intent, customer and payload as submitted; permitted means answered 200, denied means denied by policy |
| IntentEffects.ForwardedExactly | ontology/write_routes.yaml:22-81 | an intent is forwarded exactly if it is allowed, one of the four, and its payload has that one's fields, of their types, and no others |
| IntentEffects.AcceptedAddExact | action_broker/action_broker_app.py:132-179 | an accepted add appends exactly one line: the payload's SKU, its status or A, its term or one month, from today, at the catalogue's price; beside it only charges and discounts of active lines change |
| IntentEffects.AddIntentAnswers | action_broker/action_broker_app.py:132-179 | each refusal of an add with its status, in order |
| IntentEffects.CancelIntentAnswers | action_broker/action_broker_app.py:181-191 | a cancellation is accepted exactly for a known customer, a held SKU and one of the six reasons, and otherwise refused with 422 or 404 |
| IntentEffects.PriceIntentExact | action_broker/action_broker_app.py:193-197 | a price change is accepted exactly for a known product and sets its list price to the payload's number |
| IntentEffects.AcceptedRecalculationExact | action_broker/action_broker_app.py:199-203 | an accepted recalculation rewrites exactly the customers with a line of the payload's product that is not cancelled, at the catalogue's price and rule-consistent |
| IntentEffects.RecalculationIntentAnswers | action_broker/action_broker_app.py:199-203 | a recalculation is answered 404 or 422 exactly for an unknown or unpriced product, with nothing written |
| Ontology.MapFields | ontology/ontology.py:252-257 | the loop applies each present mapping, a later one winning, and counts them |
| Ontology.MappingExact | ontology/ontology.py:252-257 | a canonical field is present exactly if its raw field is, with that value, decoded where declared |
| Ontology.MappingKeys | ontology/ontology.py:252-271 | mapping gives no field but the declared ones |
| Ontology.AssembleDomain | ontology/ontology.py:236-305 | the canonical partial of a well-typed raw record |
| Ontology.MergeDomains | ontology/ontology.py:329-361 | the loop merges fields, provenance, source systems without repetition and the latest time |
| OntologyTheorems.BillingPartialShows | ontology/assembly_spec.yaml:44-78 | a billing event assembles to its lines one for one, each of the eleven fields under its canonical name with its value and the status in words, with origin, freshness and provenance |
| OntologyTheorems.CustomerPartialShows | ontology/assembly_spec.yaml:116-140 | a CRM event assembles to its five fields under their canonical names, the trimmed full name, and origin, freshness and provenance with the number of mappings |
| OntologyTheorems.StripExact | ontology/ontology.py:258-260 | trimming takes the white space off both ends and nothing else |
| OntologyTheorems.AcceptedNames | ontology/ontology.py:393-435 | what the cache accepts, name by name |
| Ontology.AcceptsExact | ontology/ontology.py:393-435 | a body meets the cache schema exactly when it has no violation |
| Ontology.ValidateGroup | ontology/ontology.py:413-428 | a field group adds exactly its own violations |
| Ontology.ValidateCacheRecord | ontology/ontology.py:393-435 | every violation and no other is reported, and none exactly for acceptable bodies |
| Cache.ContextCache.Compose | context_cache/cache_app.py:111-119 | one tier's stored record: merged or replaced, with its own next version |
| Cache.ContextCache.WriteRecord | context_cache/cache_app.py:98-144 | a rejected PUT changes nothing; an accepted one updates both tiers of that customer only and never stores the hint |
| Cache.ContextCache.ReadThrough | acg/acg_app.py:127-161 | the hot record, or the permanent one on a miss |
| Cache.ContextCache.Evict | context_cache/cache_app.py:12-15 | the anticipated eviction drops the hot record and leaves the permanent one |
| CacheTheorems.ReadAfterEviction | acg/acg_app.py:127-161 | a read gives the hot record, and after an eviction the permanent one, with the same fields |
| CacheTheorems.HintRead | context_cache/cache_app.py:98-110 | a body asks for a merge by any hint that is not null, zero or empty |
| CacheTheorems.StoredExactly | context_cache/cache_app.py:110-130 | one tier then holds the body's fields, over those that were there if it asks for a merge, never the hint, at the next version |
| CacheTheorems.MergeAcceptable | context_cache/cache_app.py:110-130 | merging an accepted body into an acceptable record gives an acceptable record |
| CacheTheorems.TwoTierSimulation | context_cache/cache_app.py:110-168 | under any PUTs and evictions the hot record is a sub-map of the permanent one at no greater version, the permanent version counts the accepted PUTs, and a hot-then-permanent read misses only customers never written; without eviction the tiers are equal |
| Cdc.CdcService.DeriveTotals | cdc/cdc_app.py:246-264 | the accumulating loop computes the derived totals or raises |
| Cdc.CdcService.EnrichAndWrite | cdc/cdc_app.py:198-301 | one customer's record is enriched from the catalogue by a merge PUT, or left alone when enrichment gives up |
| Cdc.CdcService.UpsertDomain | cdc/cdc_app.py:416-472 | a cache hit merges the event's group, restates the assembly state and enriches a record that became complete |
| Cdc.CdcService.ReceiveDomain | cdc/cdc_app.py:475-545 | a cache miss waits, replaces what waits for that domain, or joins and writes |
| Cdc.CdcService.ProcessEvent | cdc/cdc_app.py:357-572 | one event takes every customer through exactly one step of the specification |
| Cdc.CdcService.TimeoutCheck | cdc/cdc_app.py:143-172 | a sweep writes exactly the expired entries as partials and removes them |
| Cdc.CdcService.WriteTimedOut | cdc/cdc_app.py:154-172 | one expired entry leaves pending and is full-written with its missing domains |
| Cdc.CdcService.ReceiveProductEvent | cdc/cdc_app.py:376-394 | a product event with an SKU schedules one fan-out and changes no record |
| Cdc.CdcService.ChangeProduct | product/catalogue_app.py:211-237 | a successful catalogue patch changes the catalogue and schedules one fan-out |
| Cdc.CdcService.HandleProductUpdate | cdc/cdc_app.py:304-340 | a fan-out re-enriches exactly the holders of the SKU |
| CdcSteps.UpsertStored | cdc/cdc_app.py:416-443 | a merged upsert is accepted and leaves a record in order for the new last events |
| CdcSteps.JoinStored | cdc/cdc_app.py:475-519 | a join in either order is accepted and leaves a complete record in order |
| CdcSteps.TimeoutStored | cdc/cdc_app.py:160-172 | a timeout partial is accepted and leaves a record in order |
| CdcSteps.EnrichExact | cdc/cdc_app.py:219-285 | enrichment of a record in order never gives up, is accepted, and changes the commercial group and the version only |
| CdcSteps.StepKeeps | cdc/cdc_app.py:143-572 | every atomic step keeps the invariant that ties a customer to the last event of each domain |
| CdcRuns.RunKeepsInvariant | cdc/cdc_app.py:143-572 | the invariant holds in every reachable state |
| CdcRuns.LatestWins | cdc/cdc_app.py:402-518 | over every run a customer with an accepted event is in exactly one of pending and the hot cache, holding for each domain what its last event assembles to, and nothing for a domain without an event |
| CdcRuns.ExactStateMachine | cdc/cdc_app.py:422-443 | complete exactly with both groups, awaiting and timed-out only with one, pending with exactly one domain, and completeness is never lost |
| CdcRuns.CacheAgreesWithCatalogue | cdc/cdc_app.py:219-340 | a complete record's known lines carry the catalogue's current fields unless an update of the SKU has still to fan out; unknown ones are the billing lines unchanged |
| CdcRuns.SettledRecord | cdc/cdc_app.py:402-572 | with nothing to fan out a complete record's groups are a function of the last raw records and the catalogue |
| CdcRuns.ArrivalOrderAndTimeoutsDoNotMatter | cdc/cdc_app.py:143-518 | runs with the same raw records in the same order per domain end with the same complete record, however domains interleave and wherever timeouts fire |
| CdcRuns.MergeOrder | ontology/ontology.py:329-361 | merging two partials does not depend on their order, up to the order of the source systems |
| CachedFields.CachedRecordShows | cdc/cdc_app.py:219-285 | over every run a complete record shows, line by line, the raw fields of the last billing event under their canonical names and, for a known product that awaits no fan-out, its current name, type, list price and terms |
| CachedFields.CachedProfileShows | cdc/cdc_app.py:402-518 | over every run a cached profile shows the fields, full name, origin and freshness of the last CRM event |
| CachedFields.EnrichmentStamps | cdc/cdc_app.py:273-280 | an enrichment restamps the commercial group and keeps its origin and freshness |
| BillingInCache.CacheShowsBilling | billing/billing_app.py:366-371 | over every joint run the cached lines show billing's current record: SKU, status, start, charge, percentage, discounts, term and reason |
| AssemblyDetails.AcceptedExactly | cdc/cdc_app.py:357-410 | an event is taken exactly if it names a customer and has the shape of its system's records |
| AssemblyDetails.PendingRemembers | cdc/cdc_app.py:475-545 | over every run a pending entry remembers the correlation id and time of the first event and the domain of each one since, and is over thirty seconds after the first |
| AssemblyDetails.SweepExact | cdc/cdc_app.py:143-172 | over every run a sweep leaves an entry alone for thirty seconds and then replaces it by a timed-out partial that names the missing domain |
| AssemblyDetails.JoinShows | cdc/cdc_app.py:495-519 | a join writes both groups, complete and with no domain missing |
| AssemblyDetails.JoinOrigins | ontology/ontology.py:329-361 | with the later of the two times, both origins in order of arrival and each domain's own provenance |
| AssemblyDetails.FanOutsScheduled | cdc/cdc_app.py:376-394 | a product event or an accepted catalogue update with a SKU schedules exactly one fan-out for it, nothing else does, and one that runs is taken off |
| AssemblyDetails.FanOutReaches | cdc/cdc_app.py:304-340 | a fan-out enriches the cached records with a line of the SKU and leaves all others alone |
| AssemblyDetails.IncompleteIsNotEnriched | cdc/cdc_app.py:440-465 | a billing upsert that leaves a record incomplete stores its lines as mapped |
| AssemblyDetails.DerivedSums | cdc/cdc_app.py:246-264 | the derived totals are the sums over the lines with both prices |
| AssemblyDetails.SummaryShown | cdc/cdc_app.py:266-271 | the derived summary shows the rounded totals and what lies between them |
| AssemblyDetails.DerivedLine | cdc/cdc_app.py:252-264 | each SKU shows the prices of its last such line and what lies between them |
| CdcFacts.NoPutIsRejected | cdc/cdc_app.py:282-285 | after any run no PUT of the next step is rejected, no enrichment is given up, the stored record is acceptable and the tiers are equal |
| CdcFacts.EnrichmentIsIdempotent | cdc/cdc_app.py:219-285 | enriching again changes timestamps and version only; no enrichment changes profile, state, line order, status or charge |
| CdcFacts.DerivedTotalsAreZero | cdc/cdc_app.py:252-271 | every complete record's derived summary is empty, as the mapping of ontology/assembly_spec.yaml renames the charge |
| CdcFacts.MissingDomainsExact | cdc/cdc_app.py:160-170 | over every run a stored record lists missing domains exactly if a timeout once fired for the customer |
| CdcFacts.CompleteWithMissingDomains | cdc/cdc_app.py:440-440 | an event, a late sweep and the other event give a complete record that still lists a missing domain |
| CdcFacts.UpsertReplacesProvenance | cdc/cdc_app.py:440-440 | an upsert leaves the provenance of its own event only |
| CdcProvenance.ProvenanceExact | ontology/ontology.py:335-361 | over every run a stored record's provenance lists both domains exactly if its full write was a join and no event of the customer was accepted since; then each with that of its last event, and otherwise the whole is that of the last accepted event |
| Interleaving.StepAccounted | cdc/cdc_app.py:149-158 | every step, at any interleaving, keeps the account of correlation ids |
| Interleaving.PendingAccounting | cdc/cdc_app.py:475-518 | each id leaves pending once, joined or timed out and never both; created is live plus joined plus timed out; none is full-written twice or left unwritten once nothing is in flight |
| Interleaving.UninterruptedHitIsAtomic | cdc/cdc_app.py:414-465 | a cache hit with nothing in between is the atomic step, for every customer |
| Interleaving.UninterruptedMissIsAtomic | cdc/cdc_app.py:475-545 | so is a cache miss |
| InterleavingSweep.UninterruptedSweepIsTick | cdc/cdc_app.py:143-172 | a sweep over the expired customers in any order, with nothing in between, is the atomic tick for every customer |
| InterleavingFacts.TimeoutWipesAGroup | cdc/cdc_app.py:416-522 | a late lookup starts an entry beside a joined record, and its timeout wipes the other domain's group |
| InterleavingWrites.NoHandlerPutIsRejected | cdc/cdc_app.py:170-170 | at any interleaving, every join, timeout or upsert PUT about to be made is accepted |
| InterleavingWrites.GroupLostExactly | cdc/cdc_app.py:149-172 | a cached group is lost by a step exactly when that is the customer's timeout PUT and the timed-out partial lacks the group |
| InterleavingLabels.LabelLostExactly | cdc/cdc_app.py:414-443 | at any interleaving a record that is labelled rightly becomes labelled wrongly exactly by an upsert whose snapshot has gone stale on the other group, or a merge that brings the missing group without the state |
| InterleavingLabels.CompletenessIsLost | cdc/cdc_app.py:414-443 | a run in which a complete record is labelled as waiting again although it holds both groups |
| InterleavingEnrichment.RunIsExec | cdc/cdc_app.py:219-285 | with enrichment split into its read and its PUT every run is still one of the handlers' with merges, so what holds of those holds here |
| InterleavingEnrichment.UninterruptedEnrichmentIsAtomic | cdc/cdc_app.py:219-285 | read and PUT with nothing in between are the atomic enrichment, for every customer |
| InterleavingEnrichment.LinesLostExactly | cdc/cdc_app.py:219-285 | after any run, a step that brings no billing data changes a customer's cached lines exactly if it puts back an enrichment whose read had other lines than are cached now; these are then cached |
| InterleavingEnrichment.CurrentReadsKeepLines | cdc/cdc_app.py:219-285 | while no suspended read is old, the lines stay until billing data is brought again |
| InterleavingEnrichment.LateEnrichmentRestoresOldLines | cdc/cdc_app.py:219-285 | a run in which a newer accepted billing event disappears from the cache |
| Pipeline.EmittedIsAccepted | billing/billing_app.py:366-370 | what billing emits is always well typed and accepted by assembly |
| Pipeline.CachedLinesInSync | cdc/cdc_app.py:416-443 | a record with the lines of a billing event agrees with billing on SKUs and activity |
| Pipeline.OffersFromTheCacheAreAddable | offer_engine/offer_engine_app.py:226-244 | an offer made from the cached record after any run is on none of the customer's billing lines, conflicts with no active one and, when all lines are active, passes the broker's check |
| JointRuns.ServeRequest | billing/billing_app.py:235-476 | serving a request changes billing's records as the run step says and sends exactly the step's captures |
| JointRuns.EmissionsCurrent | billing/billing_app.py:366-476 | what a request makes billing send is how the records stand afterwards, and a customer it does not send is unchanged |
| JointRuns.AssemblyIsInStep | billing/billing_app.py:366-371 | over every joint run of billing and assembly, the last billing event accepted for a customer carries exactly the record billing holds |
| JointRuns.OffersStayAddable | offer_engine/offer_engine_app.py:226-244 | so over every joint run, once billing's record has reached the cache, offers made from it are addable to the lines billing holds now |

## Left out

- HTTP, tokens, the policy engine's rules, logging, the user interface and the journey scripts: calls are synchronous steps, and the policy engine's answer is an input.
- An unreachable catalogue, in which case the broker lets an add through unchecked, and failed captures after a write: both services are taken to answer.
- The gateway beyond its two reads: retrieval plans, freshness clocks and tool schemas.
- Loading YAML and reloading it: policies, mappings and routes are typed values, so unknown operators, scopes and aggregates do not arise, and the required domains are the two that the specification declares.
- EvaluateDiscounts: takes the list of lines; that a context may wrap it under other keys is not modelled, and amounts are exact reals, so binary rounding error is not captured. Text is read as a number when it is a decimal, with or without an exponent and underscores; digits and blanks of other scripts, infinities and not-a-numbers are not.
- CompatibleCandidates: the held SKUs come in some order rather than sorted, and with them the candidates; and for a held SKU that is not in the graph the graph library goes through its characters, which matters only for a product whose SKU is one of them.
- CompatibleOffers: the answer's held SKUs come in some order rather than sorted.
- CheckMember: violations are data; their wording and order are not modelled.
- RecalculateFromProduct: a catalogue price change between two customers of one recalculation is not modelled.
- UpdateCustomer: direct writes that bypass the broker are possible in billing runs, but not in the broker's runs.
- WriteAudit: the entry's timestamp, denial reason and write result are not kept.
- AssembleDomain: provenance keeps the number of applied mappings instead of their texts, and full names are stripped of ASCII blanks only.
- ProcessEvent: a customer whose name is a number or a nested value, and a line or reference whose SKU or customer is a number, are dropped without a state change, where the service shows them as text and stores the event; other raw records of the wrong shape are dropped too, where it answers with an error. The recent-event log and first-seen times are not kept up.
- EnrichAndWrite: the catalogue is looked up by textual SKU only, and catalogue reloads during a run are left out.
- HandleProductUpdate: a stored record whose lines are not a list of records counts as not holding the SKU, where the service would give up the fan-out; no run reaches such a record.
- PendingAccounting: the split-step model lets enrichment be any merge PUT by anyone at any time; the one with its own reads is a special case of it (`RunIsExec`).
- LinesLostExactly: one catalogue answers all the lines of an enrichment; it may differ from one enrichment to the next, but not between its lines.
- StepSafeExactly: the catalogue and its graph stay as they are during a schedule of adds, cancellations and recalculations.
- Evict: the service has no policy that triggers it; the model lets it happen at any time.
- The offer engine's single-proposal endpoint, the permission and ontology descriptions and the read-only listings, which would add easy members only.
