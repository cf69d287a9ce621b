# PolicyEngine situation helpers and social-image templates, in Dafny

This project models two small pieces of the PolicyEngine skills repository.

The first is the household "situation" helpers. These are builders that
return the nested, JSON-like dictionaries PolicyEngine simulations take, and
editors that change such a dictionary in place. They live in the four
`situation_helpers.py` files and in `create_situation` of the two reform
templates.

The second is `fill_template` of the social-image renderer. It makes one
left-to-right pass over a template's text and rewrites `{{name}}` and
`{{name|default:value}}` tokens. The `--var key=value` merge of its `main`
is modelled too.

Python values are a `Value` datatype (`pyvalues.dfy`): int, string, bool,
list, and dict. A dict is an association list whose keys are unique, so key
order is kept. That order matters here, because "the first person" is
`list(d.keys())[0]`. These operations on dicts are written out:

- `d[k] = v` keeps the position of an existing key and appends a new one;
- `dict.update` assigns each entry in turn;
- `d.get(k)` returns the value stored under `k`, if any.

A Python exception is the `Failure` case of a `Result`.

Each source file becomes one module. Each such module has its own
`CURRENT_YEAR`:

| Source file | Module | Year |
|---|---|---|
| US domain-knowledge helpers | `UsDomainHelpers` | 2026 |
| UK helpers | `UkHelpers` | 2025 |
| UK domain-knowledge helpers | `UkDomainHelpers` | 2026 |
| US helpers | `UsHelpers` | 2024 |
| the two reform templates | `ReformTemplate`, `AnalysisReformTemplate` | 2024 and 2026 |

The logic the files share takes the year as a parameter:

- `Households`: keyword arguments, child ids and ages, and family construction;
- `UsLegacy` and `UkLegacy`: the legacy builders;
- `UkRegions`: the region allow-list;
- `Situations`: the in-place editors;
- `ReformSituation`: the reform templates' situation.

The models take the shape of the code they model:

- Builders made of dict literals are functions.
- Builders that fill `people` and `members` in an append loop are methods
  with a loop. Each is proved equal to a specification function.
- The editors are methods of the class `Situations.Situation`. Its field
  `root` is the situation dict. Each method's new `root`, or the exception
  it raises, is the one a function of the old `root` gives.

What is proved about those functions comes as lemmas:

- membership lists and their order;
- the default child ages;
- the error cases and the order in which they are checked;
- which keyword arguments reach which entity;
- that each editor changes nothing but what it writes;
- that `add_axes` and `set_region` are idempotent.

Where the code and its documentation disagree, the model follows the code.
The `create_family_with_children` docstring in the 2024 US helpers says the
default ages are 5, 8 and 12. The code computes `5 + 3*i`, which gives
5, 8 and 11, and `Households.ResolveChildAges` states that.

Python's keyword binding is modelled as follows:

- A `**kwargs` dict never holds one of the function's named parameters. The
  requires clause `Households.IsKwargs` states this.
- The `*_input` builders call the household-input function with explicit
  `people=` (and, in the US, `filing_status=`) arguments. Forwarding
  `**kwargs` that also hold one of those names raises a TypeError before the
  callee runs. The model returns `Failure(TypeError)` for it.

## Model

| member | source | states |
|---|---|---|
| PyValues.FirstKey | skills/policyengine-us-skill/scripts/situation_helpers.py:186 | `list(d.keys())[0]` succeeds exactly on a non-empty dict, gives the first key, which looks up the first value, and raises IndexError otherwise |
| PyValues.LookupFinds | skills/domain-knowledge/policyengine-us-skill/scripts/situation_helpers.py:57 | `k in d` exactly when `d.get(k)` finds a value, and the value found is stored under `k` |
| PyValues.LookupAssign | skills/domain-knowledge/policyengine-us-skill/scripts/situation_helpers.py:61 | after `d[k] = v`, `k` maps to `v` and every other key to what it mapped to before |
| PyValues.Assign | skills/domain-knowledge/policyengine-us-skill/scripts/situation_helpers.py:53 | `d[k] = v` keeps the keys and their order when `k` is a key, and appends `(k, v)` otherwise |
| PyValues.AssignUnique | skills/domain-knowledge/policyengine-us-skill/scripts/situation_helpers.py:61 | `d[k] = v` keeps a dict's keys unique |
| PyValues.AssignIdempotent | skills/policyengine-uk-skill/scripts/situation_helpers.py:251 | assigning the same value twice is assigning it once |
| PyValues.AssignOverwrites | skills/policyengine-uk-skill/scripts/situation_helpers.py:251 | a second assignment to a key replaces the first in place |
| PyValues.LookupUpdate | skills/domain-knowledge/policyengine-us-skill/scripts/situation_helpers.py:59 | after `d.update(other)` a key of `other` maps to its value there, and any other key to its value in `d` |
| PyValues.UpdateKeysExtend | skills/domain-knowledge/policyengine-us-skill/scripts/situation_helpers.py:59 | `d.update(other)` keeps `d`'s keys first and in order, and its keys are those of `d` and `other` |
| PyValues.UpdateUnique | skills/domain-knowledge/policyengine-us-skill/scripts/situation_helpers.py:59 | `d.update(other)` keeps a dict's keys unique |
| PyValues.LookupFound | skills/policyengine-us-skill/scripts/situation_helpers.py:186 | the first entry with key `k` is the one `d.get(k)` returns |
| PyValues.LookupAt | skills/policyengine-us-skill/scripts/situation_helpers.py:186 | in a dict with unique keys, the entry at position i is found under its key |
| PyValues.PathConcat | skills/policyengine-us-skill/scripts/situation_helpers.py:190 | following the key path `a + b` through nested dicts is following `a`, then `b` |
| PyValues.PathStep | skills/policyengine-us-skill/scripts/situation_helpers.py:190 | one step of a path goes through the first entry with that key |
| UkRegions.CheckRegion | skills/policyengine-uk-skill/scripts/situation_helpers.py:40-41 | the region check passes exactly for a listed region, and otherwise raises the ValueError that lists all regions |
| UkRegions.RegionsDistinct | skills/policyengine-uk-skill/scripts/situation_helpers.py:11-24 | there are exactly 12 regions, with no repeats |
| UkRegions.RegionMessageListsAll | skills/domain-knowledge/policyengine-uk-skill/scripts/situation_helpers.py:65 | the error message names every valid region |
| UkRegions.JoinContains | skills/domain-knowledge/policyengine-uk-skill/scripts/situation_helpers.py:65 | `sep.join(parts)` contains every part, at a known position |
| UkRegions.InfixAfter | skills/domain-knowledge/policyengine-uk-skill/scripts/situation_helpers.py:65 | a piece of `s` is also a piece of `pre + s` |
| Households.LookupYearlyAll | skills/policyengine-uk-skill/scripts/situation_helpers.py:47 | `{k: {year: v} for k, v in kwargs.items()}` maps each keyword to its value wrapped in the year, and nothing else |
| Households.YearlyAllKeys | skills/policyengine-uk-skill/scripts/situation_helpers.py:87 | wrapping in the year keeps the keyword arguments' keys, and so their uniqueness |
| Households.KwargsOverride | skills/policyengine-uk-skill/scripts/situation_helpers.py:164 | after the year-wrapped update, an attribute is the keyword argument of that name when there is one, else the base value |
| Households.KwargsNotParam | skills/domain-knowledge/policyengine-us-skill/scripts/situation_helpers.py:66 | a named parameter never appears among the keyword arguments |
| Households.DecimalRoundTrip | skills/policyengine-us-skill/scripts/situation_helpers.py:137 | the decimal digits of the child number read back as that number |
| Households.ChildIdInjective | skills/policyengine-us-skill/scripts/situation_helpers.py:137 | `child_{i+1}` ids are equal exactly when the positions are, and no child id is `parent`, `spouse` or `partner` |
| Households.ResolveChildAges | skills/policyengine-us-skill/scripts/situation_helpers.py:115-118 | fails with the child-ages ValueError exactly when a given list's length differs from `num_children`; a given list is kept; the default has `len(range(n))` ages, each `5 + 3*i` |
| Households.BuildFamily | skills/policyengine-us-skill/scripts/situation_helpers.py:120-139 | the loop builds the adults followed by one `child_{i+1}` per age, in order; `people` has unique keys, and they are `members` in the same order |
| Households.FamilyPeopleUnique | skills/policyengine-uk-skill/scripts/situation_helpers.py:139-158 | the adults' and children's ids are all distinct, so the `people` dict loses no one |
| Households.ChildFound | skills/policyengine-uk-skill/scripts/situation_helpers.py:155-157 | the child at position i is `child_{i+1}`, whose only attribute is that age |
| Households.ChildAbsent | skills/policyengine-uk-skill/scripts/situation_helpers.py:155-158 | there is no `child_{i+1}` beyond the last age |
| Households.UnitMembers | skills/policyengine-us-skill/scripts/situation_helpers.py:32-35 | a one-unit group lists its members under the unit id |
| Households.PathOne | skills/policyengine-us-skill/scripts/situation_helpers.py:186 | a one-key path is a lookup |
| Households.GroupStep | skills/policyengine-us-skill/scripts/situation_helpers.py:147-158 | looking up a unit goes through its group entry |
| Households.UsSituationGroups | skills/policyengine-us-skill/scripts/situation_helpers.py:147-158 | a US situation has the groups people, families, marital units, tax units, SPM units and households, in that order |
| Households.PeopleGroup | skills/policyengine-us-skill/scripts/situation_helpers.py:148 | a person of the situation is the entry of that id in `people` |
| Households.UnitGroup | skills/policyengine-us-skill/scripts/situation_helpers.py:149-156 | the one unit of a group lists the members it was built with |
| Households.HouseholdGroup | skills/policyengine-us-skill/scripts/situation_helpers.py:157 | a household attribute of the situation is that attribute of the household dict |
| Households.UsSituationLayout | skills/policyengine-us-skill/scripts/situation_helpers.py:147-158 | in a US situation the people, each unit's members and the household attributes are the ones it was built from |
| Households.UkSituationGroups | skills/policyengine-uk-skill/scripts/situation_helpers.py:166-170 | a UK situation has the groups people, benunits and households, in that order |
| Households.UkSituationLayout | skills/policyengine-uk-skill/scripts/situation_helpers.py:166-170 | in a UK situation the people, the benefit unit's members and the household attributes are the ones it was built from |
| Households.PersonAttr | skills/policyengine-us-skill/scripts/situation_helpers.py:24-31 | a person's attribute is found through that person's entry |
| Situations.FirstId | skills/policyengine-us-skill/scripts/situation_helpers.py:186 | the first id of a group: KeyError when the group is missing, AttributeError when it is not a dict, IndexError when it is empty |
| Situations.NestedUpdateLookups | skills/policyengine-us-skill/scripts/situation_helpers.py:190 | writing into `root[group][id]` changes that record as `update` does, and no other top-level key and no other entity of the group |
| Situations.UpdateAppend | skills/policyengine-us-skill/scripts/situation_helpers.py:254-255 | two updates in a row are one update with both sets of fields |
| Situations.NestedUpdateCompose | skills/policyengine-us-skill/scripts/situation_helpers.py:254-255 | two writes into the same record are one write of both |
| Situations.SetField | skills/policyengine-uk-skill/scripts/situation_helpers.py:277 | `root[group][id][field] = v` succeeds exactly when that record is a dict, and otherwise raises the error of the missing step |
| Situations.SetFieldTwice | skills/policyengine-uk-skill/scripts/situation_helpers.py:277 | setting a field twice to the same value is setting it once |
| Situations.WritePositiveClosedForm | skills/policyengine-us-skill/scripts/situation_helpers.py:189-212 | the run of `if amount > 0` writes is one update of the record with the positive amounts; if none is positive, nothing happens, even to a record that cannot be written |
| Situations.WrittenThenRest | skills/policyengine-us-skill/scripts/situation_helpers.py:189-193 | one positive write, followed by the rest of the writes, is one update in closed form |
| Situations.PositiveYearlyLookup | skills/policyengine-uk-skill/scripts/situation_helpers.py:204-232 | with distinct names, each name is written as `{year: amount}` exactly when its amount is positive |
| Situations.AmountAbsent | skills/policyengine-uk-skill/scripts/situation_helpers.py:204-232 | a name given first is given nowhere after it |
| Situations.AmountAbsentFrom | skills/policyengine-uk-skill/scripts/situation_helpers.py:204-232 | a name given nowhere has no amount |
| Situations.WritePositiveEffect | skills/domain-knowledge/policyengine-us-skill/scripts/situation_helpers.py:297-320 | the conditional writes change only the target record; there, positive amounts become `{year: amount}` and every other field and every other entity keep their values |
| Situations.AxesEffect | skills/domain-knowledge/policyengine-us-skill/scripts/situation_helpers.py:323-334 | after `add_axes`, `axes` is the one-by-one nested list with this sweep, every other key is unchanged, and a second call replaces the first |
| Situations.DeductionFieldsDistinct | skills/domain-knowledge/policyengine-us-skill/scripts/situation_helpers.py:299-318 | the five deduction keys are distinct |
| Situations.ItemizedDeductionsOutcome | skills/domain-knowledge/policyengine-us-skill/scripts/situation_helpers.py:286-320 | `add_itemized_deductions` raises when the first person cannot be found, or when an amount is positive and that person is not a dict; otherwise it updates exactly the first person with the positive deductions |
| Situations.IncomePerson | skills/policyengine-uk-skill/scripts/situation_helpers.py:199-201 | the person written is the one named, or else the first person |
| Situations.IncomeFieldsDistinct | skills/policyengine-uk-skill/scripts/situation_helpers.py:204-232 | the six income keys are distinct |
| Situations.IncomeSourcesOutcome | skills/policyengine-uk-skill/scripts/situation_helpers.py:173-234 | `add_income_sources` updates exactly the chosen person with the positive incomes; it fails only when that person cannot be found or written and some income is positive |
| Situations.RegionEditEffect | skills/policyengine-uk-skill/scripts/situation_helpers.py:262-279 | `set_region` rejects an invalid region before touching the situation; otherwise only the first household's region changes, to `{year: region}`: its other fields, every other household and the set of households keep their values, and a second call changes nothing |
| Situations.NycEditEffect | skills/policyengine-us-skill/scripts/situation_helpers.py:242-257 | `set_state_nyc` fails exactly when the first household is missing or not a dict; otherwise that household gets `state_name` `{year: "NY"}` and `in_nyc` `{year: in_nyc}`, whatever value `in_nyc` is; its other fields, every other household and the set of households keep their values |
| Situations.Situation.constructor | skills/policyengine-us-skill/scripts/situation_helpers.py:161 | wraps the situation dict the editors change |
| Situations.Situation.AddAxes | skills/policyengine-us-skill/scripts/situation_helpers.py:217-239 | the new situation is the old one with `axes` set |
| Situations.Situation.WriteIfPositive | skills/policyengine-us-skill/scripts/situation_helpers.py:189-193 | one conditional write keeps the loop's progress toward the closed form, or raises with the old situation kept |
| Situations.Situation.AddItemizedDeductions | skills/policyengine-us-skill/scripts/situation_helpers.py:161-214 | the new situation, or the exception raised, is the one `ItemizedDeductions` gives for the old situation |
| Situations.Situation.AddIncomeSources | skills/policyengine-uk-skill/scripts/situation_helpers.py:173-234 | the new situation, or the exception raised, is the one `IncomeSources` gives for the old situation |
| Situations.Situation.SetRegion | skills/policyengine-uk-skill/scripts/situation_helpers.py:262-279 | the new situation, or the exception raised with the situation unchanged, is the one `RegionEdit` gives |
| Situations.Situation.SetStateNyc | skills/policyengine-us-skill/scripts/situation_helpers.py:242-257 | the new situation, or the exception raised, is the one `NycEdit` gives |
| UsLegacy.SingleFilerUnits | skills/policyengine-us-skill/scripts/situation_helpers.py:30-42 | `person` is the only person and the only member of every unit, the household's `members` is `["person"]`, and the household is in `state` |
| UsLegacy.SingleFilerPerson | skills/policyengine-us-skill/scripts/situation_helpers.py:24-28 | the person's attributes are the keyword arguments in the year over `age` (which cannot be one) and `employment_income` |
| UsLegacy.MarriedCoupleFacts | skills/policyengine-us-skill/scripts/situation_helpers.py:62-86 | both spouses, with their own ages and incomes, are members of every unit, and a household attribute is the keyword argument of that name when there is one, else its base value |
| UsLegacy.FamilyWithChildren | skills/policyengine-us-skill/scripts/situation_helpers.py:115-158 | the loop's situation, or the exception, is the one `FamilySpec` gives |
| UsLegacy.FamilyFacts | skills/policyengine-us-skill/scripts/situation_helpers.py:115-158 | fails exactly on mismatched child ages; the parent has `parent_age` and `parent_income`, and the spouse exists exactly when married, with `parent_age` and `spouse_income`; the members are parent, spouse iff married, then `child_1..child_n`, in every unit and in the household's `members`, except the marital unit, which is `["parent"]` when unmarried; child i has age `ages[i]` and there is no child beyond the last age; a household attribute is the keyword argument of that name in the year when there is one, else its base value, so `members` and `state_name` are kept unless overridden |
| UkLegacy.SinglePersonFacts | skills/policyengine-uk-skill/scripts/situation_helpers.py:27-58 | fails exactly for an invalid region; `person` is the only person, and its attributes are the keyword arguments in the year over age and income; `person` is the only member of the benefit unit and of the household |
| UkLegacy.CoupleFacts | skills/policyengine-uk-skill/scripts/situation_helpers.py:61-102 | fails exactly for an invalid region, with the region ValueError; both adults are members; a household attribute is the keyword argument of that name when there is one, else its base value, so `members` and `region` are kept unless overridden |
| UkLegacy.FamilyWithChildren | skills/policyengine-uk-skill/scripts/situation_helpers.py:105-170 | the loop's situation, or the exception, is the one `FamilySpec` gives |
| UkLegacy.FamilyFacts | skills/policyengine-uk-skill/scripts/situation_helpers.py:131-170 | an invalid region is reported even when the child ages also mismatch; with a valid region it fails exactly on mismatched ages; the parent has `parent_age` and `parent_income`, and the partner exists exactly in a couple, with `parent_age` and `partner_income`; the benefit unit and the household's `members` are parent, partner iff couple, then the children; child i has age `ages[i]` and there is no child beyond the last age; a household attribute is the keyword argument of that name in the year when there is one, else its base value, so `members` and `region` are kept unless overridden |
| UkLegacy.PensionerFacts | skills/policyengine-uk-skill/scripts/situation_helpers.py:308-339 | fails exactly for an invalid region, with the region ValueError; the benefit unit and the household's `members` are the pensioner and, iff couple, the partner, whose state pension is 0 whatever the inputs; a household attribute is the keyword argument of that name in the year when there is one, else its base value, so `members` and `region` are kept unless overridden |
| UsDomainHelpers.CreateUsHouseholdInput | skills/domain-knowledge/policyengine-us-skill/scripts/situation_helpers.py:46-63 | the merge loop's result, or its error, is the one `HouseholdInputSpec` gives |
| UsDomainHelpers.MergeAllEffect | skills/domain-knowledge/policyengine-us-skill/scripts/situation_helpers.py:56-61 | the merge over distinct keys succeeds exactly when no key would update a dict with a non-dict; then a key given is its old dict updated with the argument, or the argument itself, and every other key keeps its value |
| UsDomainHelpers.MergeKeyKeeps | skills/domain-knowledge/policyengine-us-skill/scripts/situation_helpers.py:57-61 | merging one key leaves every other key as it was |
| UsDomainHelpers.LookupAssignOrSame | skills/domain-knowledge/policyengine-us-skill/scripts/situation_helpers.py:57-61 | merging a key that is not given changes nothing |
| UsDomainHelpers.BaseInputLookups | skills/domain-knowledge/policyengine-us-skill/scripts/situation_helpers.py:46-53 | before merging there are `people`, `year`, a household holding only `state_code_str`, and a tax unit iff the filing status is truthy |
| UsDomainHelpers.HouseholdInputFacts | skills/domain-knowledge/policyengine-us-skill/scripts/situation_helpers.py:46-63 | fails, with a TypeError, exactly when a merged argument is not a dict where a dict exists; otherwise the household is `state_code_str` updated with its argument; the tax unit is the filing status updated with its argument when truthy, else the argument or absent; `spm_unit`, `family` and `marital_unit` are their arguments; no other keyword argument appears |
| UsDomainHelpers.FailureIsTypeError | skills/domain-knowledge/policyengine-us-skill/scripts/situation_helpers.py:56-61 | when the entries already present are dicts, a failing merge fails with a TypeError |
| UsDomainHelpers.Forwardable | skills/domain-knowledge/policyengine-us-skill/scripts/situation_helpers.py:106-108 | keyword arguments without `people` or `filing_status` can be forwarded to the household-input function |
| UsDomainHelpers.CreateSingleFilerInput | skills/domain-knowledge/policyengine-us-skill/scripts/situation_helpers.py:66-82 | the result is the household input of the one head person, updated with the keyword arguments, with none of them forwarded |
| UsDomainHelpers.SingleFilerInputFacts | skills/domain-knowledge/policyengine-us-skill/scripts/situation_helpers.py:80-82 | it never fails; the person's age is the one given, and its other fields are the keyword arguments over the defaults; the household holds only the state; there is no tax unit |
| UsDomainHelpers.CreateMarriedCoupleInput | skills/domain-knowledge/policyengine-us-skill/scripts/situation_helpers.py:85-108 | a `people` or `filing_status` keyword argument is a TypeError; otherwise the result is the household input of the two spouses, filing JOINT, with all keyword arguments forwarded |
| UsDomainHelpers.MarriedCoupleInputFacts | skills/domain-knowledge/policyengine-us-skill/scripts/situation_helpers.py:106-108 | a couple's input fails exactly for a non-dict household or tax-unit argument; the tax unit is JOINT updated with `kwargs["tax_unit"]`, so a filing status given there wins |
| UsDomainHelpers.CreateFamilyInput | skills/domain-knowledge/policyengine-us-skill/scripts/situation_helpers.py:111-158 | the loop's result, or its error, is the one `FamilyInputSpec` gives |
| UsDomainHelpers.FamilyInputFacts | skills/domain-knowledge/policyengine-us-skill/scripts/situation_helpers.py:138-157 | fails exactly on mismatched child ages, a forwarded `people` or `filing_status`, or a non-dict `household` or `tax_unit` argument; mismatched ages are the child-ages ValueError and every other failure a TypeError; on success the people are the head, the spouse iff married, then one dependent per age in order, and the tax unit files JOINT iff married, else HEAD_OF_HOUSEHOLD, updated with its argument |
| UsDomainHelpers.CreateSingleFiler | skills/domain-knowledge/policyengine-us-skill/scripts/situation_helpers.py:165-189 | the legacy single filer at 2026: the person's age and the household's state are in 2026, and the tax unit is `["person"]` |
| UsDomainHelpers.CreateMarriedCouple | skills/domain-knowledge/policyengine-us-skill/scripts/situation_helpers.py:192-224 | the legacy couple at 2026: both spouses with their ages and incomes in 2026, and both in the tax unit |
| UsDomainHelpers.CreateFamilyWithChildren | skills/domain-knowledge/policyengine-us-skill/scripts/situation_helpers.py:227-283 | the legacy family at 2026, as `UsLegacy.FamilySpec` gives it |
| UsDomainHelpers.AddItemizedDeductions | skills/domain-knowledge/policyengine-us-skill/scripts/situation_helpers.py:286-320 | the editor at 2026: the outcome `ItemizedDeductions` gives |
| UsDomainHelpers.AddAxes | skills/domain-knowledge/policyengine-us-skill/scripts/situation_helpers.py:323-334 | the editor at 2026: `axes` set, nothing else changed |
| UsHelpers.CreateSingleFiler | skills/policyengine-us-skill/scripts/situation_helpers.py:11-42 | the legacy single filer at 2024: the person's age and the household's state are in 2024, and the tax unit is `["person"]` |
| UsHelpers.CreateMarriedCouple | skills/policyengine-us-skill/scripts/situation_helpers.py:45-86 | the legacy couple at 2024: both spouses with their ages and incomes, and both in the tax unit |
| UsHelpers.CreateFamilyWithChildren | skills/policyengine-us-skill/scripts/situation_helpers.py:89-158 | the family at 2024, as `UsLegacy.FamilySpec` gives it |
| UsHelpers.AddItemizedDeductions | skills/policyengine-us-skill/scripts/situation_helpers.py:161-214 | the editor at 2024: the outcome `ItemizedDeductions` gives |
| UsHelpers.AddAxes | skills/policyengine-us-skill/scripts/situation_helpers.py:217-239 | the editor at 2024: `axes` set, nothing else changed |
| UsHelpers.SetStateNyc | skills/policyengine-us-skill/scripts/situation_helpers.py:242-257 | the editor at 2024, with `in_nyc` any value: the outcome `NycEdit` gives |
| UkDomainHelpers.HouseholdInputFacts | skills/domain-knowledge/policyengine-uk-skill/scripts/situation_helpers.py:64-80 | fails exactly for an invalid region (checked first, the region ValueError), a rent that cannot be compared with 0, or a non-dict household or benunit argument (TypeErrors); otherwise the keys are exactly people, year, household and benunit; the household is the region and the rent iff positive, updated with its argument, and the benefit unit is `would_claim_uc` updated with its argument |
| UkDomainHelpers.BaseHouseholdFields | skills/domain-knowledge/policyengine-uk-skill/scripts/situation_helpers.py:67-69 | the base household holds the region, and the rent exactly when it is positive |
| UkDomainHelpers.SinglePersonInputFacts | skills/domain-knowledge/policyengine-uk-skill/scripts/situation_helpers.py:83-99 | fails exactly for an invalid region; the one person has the keyword arguments over age and income, with the age as given; the household is only the region and the benefit unit would claim UC, since nothing is forwarded |
| UkDomainHelpers.LookupWithout | skills/domain-knowledge/policyengine-uk-skill/scripts/situation_helpers.py:123 | the keyword arguments left after `rent` and `would_claim_uc` are bound are the others, unchanged |
| UkDomainHelpers.ForwardFacts | skills/domain-knowledge/policyengine-uk-skill/scripts/situation_helpers.py:123 | forwarding with a `people` keyword argument is a TypeError; otherwise it builds the household input with `rent` and `would_claim_uc` from the keyword arguments (defaults 0 and True), and is the same as passing all of them on |
| UkDomainHelpers.CoupleInputFacts | skills/domain-knowledge/policyengine-uk-skill/scripts/situation_helpers.py:102-123 | a `people` argument is a TypeError, else an invalid region is the region ValueError; on success the people are the two adults, and the benefit unit's `would_claim_uc` is the forwarded one updated with `kwargs["benunit"]` |
| UkDomainHelpers.CreateFamilyInput | skills/domain-knowledge/policyengine-uk-skill/scripts/situation_helpers.py:126-166 | the loop's result, or its error, is the one `FamilyInputSpec` gives |
| UkDomainHelpers.FamilyInputOrder | skills/domain-knowledge/policyengine-uk-skill/scripts/situation_helpers.py:153-166 | mismatched child ages are the child-ages ValueError whatever the region; with matching ages a `people` argument is a TypeError, an invalid region the region error, and on success the people are the family built from the ages |
| UkDomainHelpers.FamilyInputPeopleOrder | skills/domain-knowledge/policyengine-uk-skill/scripts/situation_helpers.py:158-164 | the people are the adult, the partner iff couple, then one `{"age": a}` per child, so there are `1 + [couple] + n` of them |
| UkDomainHelpers.FamilyCheckOrder | skills/domain-knowledge/policyengine-uk-skill/scripts/situation_helpers.py:153-166 | with an invalid region and mismatched ages, the new-API family reports the ages and the legacy family reports the region, and the two errors differ |
| UkDomainHelpers.CreateSinglePerson | skills/domain-knowledge/policyengine-uk-skill/scripts/situation_helpers.py:173-206 | the legacy single person at 2026: fails exactly for an invalid region; the age and region are in 2026 |
| UkDomainHelpers.CreateCouple | skills/domain-knowledge/policyengine-uk-skill/scripts/situation_helpers.py:209-241 | the legacy couple at 2026: fails exactly for an invalid region; both adults with their ages and incomes |
| UkDomainHelpers.CreateFamilyWithChildren | skills/domain-knowledge/policyengine-uk-skill/scripts/situation_helpers.py:244-298 | the legacy family at 2026, as `UkLegacy.FamilySpec` gives it (region checked before ages) |
| UkDomainHelpers.AddAxes | skills/domain-knowledge/policyengine-uk-skill/scripts/situation_helpers.py:301-312 | the editor at 2026: `axes` set, nothing else changed |
| UkDomainHelpers.SetRegion | skills/domain-knowledge/policyengine-uk-skill/scripts/situation_helpers.py:315-324 | the editor at 2026: the outcome `RegionEdit` gives |
| UkHelpers.CreateSinglePerson | skills/policyengine-uk-skill/scripts/situation_helpers.py:27-58 | the single person at 2025: fails exactly for an invalid region; the age and region are in 2025 |
| UkHelpers.CreateCouple | skills/policyengine-uk-skill/scripts/situation_helpers.py:61-102 | the couple at 2025: fails exactly for an invalid region; both adults with their ages and incomes |
| UkHelpers.CreateFamilyWithChildren | skills/policyengine-uk-skill/scripts/situation_helpers.py:105-170 | the family at 2025, as `UkLegacy.FamilySpec` gives it |
| UkHelpers.AddAxes | skills/policyengine-uk-skill/scripts/situation_helpers.py:237-259 | the editor at 2025: `axes` set, nothing else changed |
| UkHelpers.SetRegion | skills/policyengine-uk-skill/scripts/situation_helpers.py:262-279 | the editor at 2025: the outcome `RegionEdit` gives |
| UkHelpers.AddIncomeSources | skills/policyengine-uk-skill/scripts/situation_helpers.py:173-234 | the editor at 2025: the outcome `IncomeSources` gives |
| UkHelpers.CreatePensionerHousehold | skills/policyengine-uk-skill/scripts/situation_helpers.py:282-339 | the pensioner household at 2025: fails exactly for an invalid region, with the region ValueError; the benefit unit is the pensioner and, iff couple, the partner, with a state pension of 0; every household attribute is the keyword argument of that name in 2025 when there is one, else its base value, so `members` and `region` are kept unless overridden |
| ReformSituation.CreateSituation | skills/policyengine-analysis-skill/examples/reform_template.py:27-56 | the loop's situation is the one `SituationSpec` gives |
| ReformSituation.SituationUnits | skills/policyengine-analysis-skill/examples/reform_template.py:36-56 | the members are `parent, child_1..child_n`, `n + 1` of them, in the family, tax unit, SPM unit and household; the marital unit is `["parent"]`; the household's `state_name` is the state in the year |
| ReformSituation.SituationPeople | skills/policyengine-analysis-skill/examples/reform_template.py:28-42 | the parent is 35 with the income given; each child has only age 8; there is no other child |
| ReformTemplate.CreateSituation | skills/policyengine-analysis-skill/examples/reform_template.py:14-56 | `create_situation` with the year 2024 |
| AnalysisReformTemplate.CreateSituation | skills/analysis/policyengine-analysis-skill/examples/reform_template.py:14-56 | `create_situation` with the year 2026 |
| SocialImage.Replacement | scripts/content/render_social_image.py:36-41 | the definition of `replace_var` on the expression between the braces; `TokenLookup`, `TokenDefault` and `TokenTwoDefaults` state what it gives |
| SocialImage.FillTemplate | scripts/content/render_social_image.py:43 | the definition of the `re.sub` scan; `FillUnchanged`, `TextThenRest` and `TokenThenRest` state what it gives |
| SocialImage.FindFrom | scripts/content/render_social_image.py:38 | the first occurrence of a string at or after a position, or none at all |
| SocialImage.StripShape | scripts/content/render_social_image.py:40 | `strip()` removes exactly the whitespace at both ends: what remains neither starts nor ends with whitespace, and everything removed is whitespace |
| SocialImage.ReplaceDefault | scripts/content/render_social_image.py:38-40 | `name|default:d` with one mark gives the value of the stripped name, else `d`, which is not stripped |
| SocialImage.SplitTwoMarks | scripts/content/render_social_image.py:39 | text holding two marks splits into at least three parts |
| SocialImage.ReplaceTwoDefaults | scripts/content/render_social_image.py:39 | an expression with two `|default:` marks fails to unpack |
| SocialImage.RunEnd | scripts/content/render_social_image.py:43 | the end of the longest run of characters other than `}` |
| SocialImage.MatchAtIsToken | scripts/content/render_social_image.py:43 | the scanning rule finds exactly the regex's matches: what it finds is a `{{`, one or more non-`}`, `}}` match with that group, and any such match at a position is the one it finds |
| SocialImage.FillUnchanged | scripts/content/render_social_image.py:43 | text with no match of the pattern is returned unchanged |
| SocialImage.TextThenRest | scripts/content/render_social_image.py:43 | a character that cannot start a token is kept, and the scan goes on after it |
| SocialImage.TokenThenRest | scripts/content/render_social_image.py:43 | a token is replaced and the scan resumes right after it, so replacement text is never rescanned and matches do not overlap; a failing replacement fails the whole template |
| SocialImage.TokenLookup | scripts/content/render_social_image.py:41 | a `{{ name }}` token gives the value of the stripped name when there is one, and is otherwise left verbatim |
| SocialImage.TokenDefault | scripts/content/render_social_image.py:38-40 | a `{{name|default:d}}` token gives the value of the stripped name, or `d` as written |
| SocialImage.TokenTwoDefaults | scripts/content/render_social_image.py:39 | a token with two default marks makes the whole template fail |
| SocialImage.SplitAssignmentFacts | scripts/content/render_social_image.py:98 | an argument splits exactly when it holds `=`, at the first one: the key has no `=`, and key, `=` and value together are the argument; without `=` the unpacking raises |
| SocialImage.MergeVars | scripts/content/render_social_image.py:96-99 | the loop's variables, or its error, are the ones `MergeVarsSpec` gives |
| SocialImage.MergeVarsFacts | scripts/content/render_social_image.py:92-99 | the merge succeeds exactly when every argument holds `=`; then a key has the value of the last `--var` setting it, else its value from the `--vars` file, and no other key is added |

## Left out

- Reading files is left out: the template file, the `--vars` JSON file and the argument parsing of `main`. `fill_template` is modelled on the text it reads. The variables are the dict `main` builds.
- `render_image` and the rest of `main` are left out. They launch Chrome as a subprocess and look for it on disk, which is external I/O.
- `analyze_reform`, `create_chart`, `print_summary` and the `__main__` blocks of the reform templates are left out. They call the PolicyEngine simulation, numpy, pandas and plotly, and compute in floating point.
- The example scripts beside the helpers are left out. They only call the PolicyEngine library.
- The changelog and version-bump scripts are not part of this model.
- Amounts are integers. The helpers only pass amounts through or compare them with 0, so floating-point values are not modelled.
- Python object aliasing is not modelled. This covers the `members` list shared by several units, a caller's `people` list stored by reference, and a `kwargs[key]` dict stored as-is. The helpers never mutate these after building them, so value semantics give the same dictionaries.
- The editors take a situation whose top level is a dict. A situation that is not a dict at all is not modelled.
- `SocialImage.Replacement`: the variables are strings, so `str()` of a non-string JSON value is not modelled.
- `SocialImage.UNPACK_MESSAGE` is the wording of Python versions before 3.13. Later versions add the count of parts.
- `UsDomainHelpers.Merged`: `dict.update` with a non-dict argument is a TypeError here. Python also accepts an iterable of key-value pairs, which is not modelled.
- `UkDomainHelpers.UpdateFrom` approximates non-dict arguments in the same way as `UsDomainHelpers.Merged`.
- `UkDomainHelpers.GreaterThanZero`: `rent > 0` is modelled for ints and bools. Any other value is a TypeError, including a float, which Python would compare.
- `UsDomainHelpers.Filed`: truthiness is modelled for the value kinds of `Value` only.
- `Households.IsKwargs`: the model states that `**kwargs` never holds a named parameter, but does not model the call-site TypeError a duplicate would raise.
- `UsLegacy.FamilyAdults`, `UkLegacy.FamilyAdults`, `UkLegacy.PensionerPeople`, `UsDomainHelpers.FamilyInputAdults` and `UkDomainHelpers.FamilyInputAdults` take `married` or `couple` as a bool. Python tests any truthy value there, so a non-bool argument is modelled by its truth value.
- Equality of the `{year: v}` keys is exact integer equality. Python's `1 == True` key collision is not modelled.
