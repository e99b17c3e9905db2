# Wikidata Query Builder: a Dafny model of the query compiler and the form store

The Wikidata Query Builder is a web form for Wikidata queries. Each form row is
one condition: a property, a relation to a value (matching, not matching, less
than, more than, regardless of value), a value, a reference requirement, and
flags for negation and subclasses. Rows join with `and` or `or`. The
application keeps the rows in a store, validates them, and writes them to and
reads them back from the page URL. It compiles them into a SPARQL syntax tree
that the query service runs.

This project models that core in Dafny and proves properties of it:

- **Compiler** (`SparqlAst`, `SyntaxBuilder`, `TripleBuilder`,
  `StringValuePatternBuilder`, `QuantityValuePatternBuilder`,
  `DateValuePatternBuilder`, `PatternBuilder`, `ConditionTree`,
  `QueryObjectBuilder`).
  - Conditions become triple patterns, filters, `MINUS` and `UNION` nodes.
  - `or` rows are grouped into unions.
  - A query made only of negations gets a pattern every item matches.
  - The label service wraps the query unless labels are omitted.
  - The stateful builders are classes whose methods are proved equal to pure
    specification functions.
- **Store** (`StoreState`, `Getters`, `Actions`).
  - The state is a record of rows, form errors and limit settings.
  - The getter `query` turns it into the compiler's input.
  - `Actions.Store` is a class whose fields are the state. Each of its methods
    is proved to leave the state its specification function describes.
  - Lemmas relate actions to the query they produce.
- **Form validation** (`BaseValidator`, `DateValidator`, `QuantityValidator`,
  `Validator`). Missing values, missing properties, an empty form and missing
  quantity parts are reported exactly when present.
- **URL state** (`QuerySerializer`, `QueryDeserializer`). Writing the state out
  and reading it back keeps the query it compiles to when every row is
  well formed. A row whose property was unset loses its property id.
- **Utilities** (`Utils`).
  - A scanner for the quantity text input is proved to accept exactly the
    texts that its regular expression matches.
  - It also gives the feedback type of an input's error.

`Common` holds `Option`/`Result` and decimal text of numbers. `DataModel`
holds the enumerations and records that the source declares as types only.

## Model

| member | source | states |
|---|---|---|
| Common.NatToString | src/sparql/DateValuePatternBuilder.ts:244-246 | decimal text of a number: non-empty, all digits, no leading zero |
| Common.NatToStringRoundTrip | src/sparql/DateValuePatternBuilder.ts:244-246 | the decimal text reads back as the number |
| Common.NatToStringInjective | src/sparql/QueryObjectBuilder.ts:121-125 | different indices give different texts |
| Common.IntToString | src/sparql/SyntaxBuilder.ts:108-118 | `String(n)`: a minus sign exactly for negative numbers |
| Common.IntToStringRoundTrip | src/sparql/SyntaxBuilder.ts:108-118 | the text of a negative number is `-` then the digits of its magnitude; otherwise the natural-number text |
| Common.PadStart2 | src/sparql/DateValuePatternBuilder.ts:264 | `padStart(2, '0')`: at least two characters, the text kept at the end, zeros before it |
| SyntaxBuilder.PathTriple | src/sparql/SyntaxBuilder.ts:33-64 | a `/` path with one item per step, in order, with IRIs as named nodes and paths kept |
| SyntaxBuilder.DecimalLiteral | src/sparql/SyntaxBuilder.ts:108-118 | an `xsd:decimal` literal whose text is `String(n)`: the digits of the number, with a minus sign exactly for negatives |
| SyntaxBuilder.DecimalLiteralInjective | src/sparql/SyntaxBuilder.ts:108-118 | different numbers give different literals |
| TripleBuilder.ReferenceTriple | src/sparql/StringValuePatternBuilder.ts:62-65 | the triple from the statement variable to `?reference` |
| TripleBuilder.ReferenceFilterPattern | src/sparql/StringValuePatternBuilder.ts:62-69 | no filter exactly when references do not matter; `EXISTS` exactly for "with", `NOT EXISTS` exactly for "without", over the reference triple |
| StringValuePatternBuilder.StatementVariable | src/sparql/StringValuePatternBuilder.ts:45 | `?statement` followed by the index digits |
| StringValuePatternBuilder.StatementVariableInjective | src/sparql/StringValuePatternBuilder.ts:45 | different conditions get different statement variables |
| StringValuePatternBuilder.ValueTerm | src/sparql/StringValuePatternBuilder.ts:42 | url values become IRIs, other values plain literals |
| StringValuePatternBuilder.AnyValueLabel | src/sparql/StringValuePatternBuilder.ts:124-128 | `anyValue` + property id, then `_` + suffix only when the suffix is non-empty |
| StringValuePatternBuilder.ObjectTerm | src/sparql/StringValuePatternBuilder.ts:111-137 | the value for Matching, a blank node for Regardless, `?instance` for NotMatching; an error exactly for the comparison relations |
| StringValuePatternBuilder.NotMatchingIsStatementPath | src/sparql/StringValuePatternBuilder.ts:86-109 | the `MINUS` removes items linked to the value through any statement: its triple is the Matching statement BGP with the statement variable projected out (same endpoints, the two hops as the path `p:P/ps:P`) |
| StringValuePatternBuilder.StatementBgpJoin | src/sparql/StringValuePatternBuilder.ts:45-59 | `?item` reaches the object through the condition's statement variable, which both triples share; two conditions' BGPs share no statement variable |
| StringValuePatternBuilder.WithReferenceFilter | src/sparql/StringValuePatternBuilder.ts:62-69 | the BGP alone, or grouped with the filter when there is one |
| StringValuePatternBuilder.StringPatterns | src/sparql/StringValuePatternBuilder.ts:22-84 | fails exactly for a foreign datatype, a non-string value or a comparison relation; two patterns exactly for NotMatching; the head is `MINUS` exactly when negated |
| StringValuePatternBuilder.StringPatternsHead | src/sparql/StringValuePatternBuilder.ts:56-76 | the head is the statement pattern with its reference filter, wrapped in `MINUS` when negated |
| StringValuePatternBuilder.NegatedNotMatchingTwoMinus | src/sparql/StringValuePatternBuilder.ts:71-81 | a negated NotMatching condition gives two sibling `MINUS` nodes |
| QuantityValuePatternBuilder.FilterOperator | src/sparql/QuantityValuePatternBuilder.ts:312-325 | `=`, `!=`, `<`, `>` for the four relations; no operator exactly for Regardless |
| QuantityValuePatternBuilder.FilterOperatorInjective | src/sparql/QuantityValuePatternBuilder.ts:312-325 | different relations never share an operator |
| QuantityValuePatternBuilder.SiConversionPropertyId | src/sparql/QuantityValuePatternBuilder.ts:327-332 | the configured property when it is set and non-empty, otherwise the conversion error |
| QuantityValuePatternBuilder.AmountBgp | src/sparql/QuantityValuePatternBuilder.ts:97-116 | item to statement, then statement to `?numericQuantity` |
| QuantityValuePatternBuilder.ReferenceFilterList | src/sparql/QuantityValuePatternBuilder.ts:120-126 | exactly when references matter, the one reference filter on the condition's own `?statement{N}` |
| QuantityValuePatternBuilder.UnitlessRegardlessIsRegardless | src/sparql/QuantityValuePatternBuilder.ts:92-129 | under Regardless the unitless patterns are the regardless patterns whatever the amount: the amount filter is the only pattern a relation adds |
| QuantityValuePatternBuilder.AmountFilterList | src/sparql/QuantityValuePatternBuilder.ts:286-294 | a comparison of `?numericQuantity` with the decimal literal exactly when the relation is not Regardless |
| QuantityValuePatternBuilder.UnitlessHasNoConversion | src/sparql/QuantityValuePatternBuilder.ts:256-305 | without a unit nothing is converted: one BGP ending in `?numericQuantity`, then only filters (no bind), the comparison being of `?numericQuantity` with the user's amount |
| QuantityValuePatternBuilder.ConversionPatterns | src/sparql/QuantityValuePatternBuilder.ts:139-198 | bind the amount, bind the unit, look up from `?userUnit` its `?conversionFactor` and `?coherentUnit`, bind the amount times the factor |
| QuantityValuePatternBuilder.NormalisedStatementBgp | src/sparql/QuantityValuePatternBuilder.ts:200-233 | `?item` to `?statement{N}`, then from that statement to its normalised amount and to `?coherentUnit` |
| QuantityValuePatternBuilder.FullQuantityJoin | src/sparql/QuantityValuePatternBuilder.ts:131-254 | the lookups start at the bound user unit; its coherent unit is the unit the statement's normalised value must have; the comparison is of the statement's normalised amount with the converted user amount |
| QuantityValuePatternBuilder.FullQuantityPatterns | src/sparql/QuantityValuePatternBuilder.ts:131-254 | fails exactly without a conversion property; otherwise five patterns, plus one for a comparison and one for a reference filter |
| QuantityValuePatternBuilder.FullQuantityPatternsOrder | src/sparql/QuantityValuePatternBuilder.ts:131-254 | the four conversion patterns, the statement BGP, the comparison unless Regardless, and the reference filter last |
| QuantityValuePatternBuilder.ValuePatterns | src/sparql/QuantityValuePatternBuilder.ts:58-90 | a non-quantity value is an error; without a unit the unitless patterns, with one the converted patterns |
| QuantityValuePatternBuilder.QuantityPatterns | src/sparql/QuantityValuePatternBuilder.ts:21-56 | fails exactly for a foreign datatype, a non-quantity value, or a unit without a conversion property (Regardless never fails); otherwise the regardless or `ValuePatterns` patterns, inside one `MINUS` exactly when negated |
| QuantityValuePatternBuilder.RegardlessIgnoresValue | src/sparql/QuantityValuePatternBuilder.ts:37-38 | under Regardless the value and the configuration do not matter |
| QuantityValuePatternBuilder.UnitlessIgnoresConversion | src/sparql/QuantityValuePatternBuilder.ts:72-79 | a unitless quantity never needs the conversion property |
| QuantityValuePatternBuilder.ConversionIndependentOfIndex | src/sparql/QuantityValuePatternBuilder.ts:139-198 | the conversion patterns and the comparison do not depend on the condition index |
| DateValuePatternBuilder.LeadingDigits | src/sparql/DateValuePatternBuilder.ts:236 | the longest digit prefix, which is what a greedy `\d+` takes |
| DateValuePatternBuilder.YearDigits | src/sparql/DateValuePatternBuilder.ts:236-243 | the year group: the digits right after the sign |
| DateValuePatternBuilder.FollowingYear | src/sparql/DateValuePatternBuilder.ts:235-249 | an error exactly when the text does not start with a sign and digits; otherwise same sign and ends `-00-00T00:00:00Z` |
| DateValuePatternBuilder.FollowingYearReadsBack | src/sparql/DateValuePatternBuilder.ts:244-248 | the new year is the old one plus one for `+` and minus one for `-` |
| DateValuePatternBuilder.MonthDigits | src/sparql/DateValuePatternBuilder.ts:252-260 | the two-digit month group |
| DateValuePatternBuilder.FollowingMonth | src/sparql/DateValuePatternBuilder.ts:251-274 | an error exactly when sign, year, `-` and two digits are missing; otherwise same sign and ends `-00T00:00:00Z` |
| DateValuePatternBuilder.FollowingMonthWithinYear | src/sparql/DateValuePatternBuilder.ts:263-265 | before December: same sign and year, month plus one |
| DateValuePatternBuilder.FollowingMonthText | src/sparql/DateValuePatternBuilder.ts:262-273 | before December: sign, year, `-`, the month number plus one padded to two digits, `-00T00:00:00Z` |
| DateValuePatternBuilder.PaddedMonthValue | src/sparql/DateValuePatternBuilder.ts:264 | the padded month text reads back as the number |
| DateValuePatternBuilder.FollowingMonthInDecember | src/sparql/DateValuePatternBuilder.ts:266-271 | in December: the following year's January |
| DateValuePatternBuilder.FollowingYearExample | src/sparql/DateValuePatternBuilder.ts:235-249 | `+1789-07-14…` is followed by `+1790-00-00T00:00:00Z` |
| DateValuePatternBuilder.UnsignedYearExample | src/sparql/DateValuePatternBuilder.ts:236-239 | a text without a sign is not in the expected format |
| DateValuePatternBuilder.FollowingMonthExample | src/sparql/DateValuePatternBuilder.ts:251-274 | `+1789-07` is followed by `+1789-08` |
| DateValuePatternBuilder.FollowingMonthDecemberExample | src/sparql/DateValuePatternBuilder.ts:266-271 | `+2020-12` is followed by `+2021-01` |
| DateValuePatternBuilder.DateVariable | src/sparql/DateValuePatternBuilder.ts:392-397 | `prefix_index` |
| DateValuePatternBuilder.DateVariableInjective | src/sparql/DateValuePatternBuilder.ts:392-397 | different conditions get different variables |
| DateValuePatternBuilder.FollowingDateTime | src/sparql/DateValuePatternBuilder.ts:172-182 | following month for month precision, following year for year precision, an error for any other |
| DateValuePatternBuilder.PeriodFilterAsWritten | src/sparql/DateValuePatternBuilder.ts:184-230 | the comparison as the source writes it: a filter exactly when the relation is not Regardless |
| DateValuePatternBuilder.DateTimeFilterAsWritten | src/sparql/DateValuePatternBuilder.ts:167-233 | the filter as the source writes it: defined exactly when the following date is and the relation is not Regardless |
| DateValuePatternBuilder.PeriodAsWrittenOverlaps | src/sparql/DateValuePatternBuilder.ts:200-222 | as written, an instant just after the start of the period passes the Matching, NotMatching and LessThan comparisons at once |
| DateValuePatternBuilder.AsWrittenOverlaps | src/sparql/DateValuePatternBuilder.ts:200-222 | one instant inside the period satisfies the as-written Matching, NotMatching and LessThan filters at once |
| DateValuePatternBuilder.PeriodFilter | src/sparql/DateValuePatternBuilder.ts:184-230 | the corrected comparison with the period: a filter exactly when the relation is not Regardless, otherwise the unexpected-relation error |
| DateValuePatternBuilder.PeriodFilterSelects | src/sparql/DateValuePatternBuilder.ts:184-230 | the corrected comparison holds exactly for instants inside the period (Matching), outside it (NotMatching), before it (LessThan) or after it (MoreThan) |
| DateValuePatternBuilder.DateTimeFilter | src/sparql/DateValuePatternBuilder.ts:167-233 | the corrected filter: same definedness and errors as written, and the corrected comparison with the following period |
| DateValuePatternBuilder.DateTimeFilterSelects | src/sparql/DateValuePatternBuilder.ts:184-230 | the corrected filter holds exactly for instants inside the period (Matching), outside it (NotMatching), before it (LessThan) or after it (MoreThan) |
| DateValuePatternBuilder.DayRelationPatterns | src/sparql/DateValuePatternBuilder.ts:96-130 | one bind or filter exactly when the relation is not Regardless |
| DateValuePatternBuilder.StatementPatterns | src/sparql/DateValuePatternBuilder.ts:73-83 | three single-triple BGPs joining `?item` to `?statement_N` to `?statementValue_N` to the date `?P_N` |
| DateValuePatternBuilder.DayPrecisionSelects | src/sparql/DateValuePatternBuilder.ts:85-133 | after the statement patterns, Matching binds the date to the value; every other compared relation is one filter holding exactly for the dates it selects from the one-day period of the value |
| DateValuePatternBuilder.LowPrecisionHints | src/sparql/DateValuePatternBuilder.ts:135-154 | exactly two range-safe hints, at the source's two places, and exactly one precision filter |
| DateValuePatternBuilder.LowPrecisionLastFilter | src/sparql/DateValuePatternBuilder.ts:135-154 | the last pattern is the corrected period filter, which holds exactly for the dates the relation selects from the value's month or year |
| DateValuePatternBuilder.ValuePatterns | src/sparql/DateValuePatternBuilder.ts:53-71 | a non-date value is an error; day precision and lower precision take their own patterns, the lower ones with the corrected period filter |
| DateValuePatternBuilder.Wrap | src/sparql/DateValuePatternBuilder.ts:368-390 | when references matter, one group of the patterns followed by the reference filter on `?statement_N`; the patterns unchanged otherwise; that list inside one `MINUS` when negated |
| DateValuePatternBuilder.DatePatterns | src/sparql/DateValuePatternBuilder.ts:29-51 | fails exactly for a non-date value, or a low precision whose following date fails; Regardless never fails; uses the corrected period filter |
| DateValuePatternBuilder.RegardlessIgnoresValue | src/sparql/DateValuePatternBuilder.ts:41-42 | under Regardless the value does not matter |
| DateValuePatternBuilder.DayPrecisionHasNoPrecisionFilter | src/sparql/DateValuePatternBuilder.ts:64-65 | a day-precision date gives four patterns, with no range hint and no precision filter |
| DateValuePatternBuilder.DateValuePatternBuilder.constructor | src/sparql/DateValuePatternBuilder.ts:22-27 | the condition index starts unset |
| DateValuePatternBuilder.DateValuePatternBuilder.ConditionVariable | src/sparql/DateValuePatternBuilder.ts:392-397 | an error exactly while the index is unset, otherwise `prefix_index` |
| DateValuePatternBuilder.DateValuePatternBuilder.BuildValuePatternFromCondition | src/sparql/DateValuePatternBuilder.ts:29-51 | records the index and returns the patterns `DatePatterns` specifies, with the corrected period filter |
| PatternBuilder.BuilderForDatatype | src/sparql/PatternBuilder.ts:27-45 | string, entity, quantity and date builders for exactly their datatypes |
| PatternBuilder.AllowedDataTypesDispatch | src/sparql/PatternBuilder.ts:27-45 | among the supported datatypes only wikibase-property falls to limited support |
| PatternBuilder.ValuePatternFromCondition | src/sparql/PatternBuilder.ts:18-25 | the result of the builder the datatype selects |
| PatternBuilder.DispatchNeverRejectsDatatype | src/sparql/PatternBuilder.ts:18-45 | the string and quantity builders are never handed a datatype they reject |
| ConditionTree.Attach | src/sparql/QueryObjectBuilder.ts:84-116 | the grouping never leaves the root empty |
| ConditionTree.FlattenAttachAnd | src/sparql/QueryObjectBuilder.ts:114-116 | an `and`/first condition is appended to the root |
| ConditionTree.FlattenAttachOr | src/sparql/QueryObjectBuilder.ts:94-112 | an `or` condition joins the last element's group, keeping order |
| ConditionTree.FlattenAttachFirstOr | src/sparql/QueryObjectBuilder.ts:94-112 | an `or` on an empty root makes a group with an undefined member first |
| ConditionTree.AttachWithOr | src/sparql/QueryObjectBuilder.ts:94-112 | popping the last single and pushing the condition onto the last group gives the tree `Attach` specifies |
| ConditionTree.FlattenAttach | src/sparql/QueryObjectBuilder.ts:84-112 | attaching appends the condition in order, after a hole only for a leading `or` |
| ConditionTree.TreeEmpty | src/sparql/QueryObjectBuilder.ts:81-92 | the root is empty exactly for no conditions |
| ConditionTree.FlattenTree | src/sparql/QueryObjectBuilder.ts:81-92 | reading the tree in order gives the conditions in order, after a hole only for a leading `or` |
| ConditionTree.HoleOnlyForLeadingOr | src/sparql/QueryObjectBuilder.ts:84-112 | an undefined member exists exactly when the first condition is `or` |
| ConditionTree.AttachKeepsShape | src/sparql/QueryObjectBuilder.ts:94-112 | groups are never empty and never single before another member joins |
| ConditionTree.TreeWellShaped | src/sparql/QueryObjectBuilder.ts:81-92 | the whole tree keeps that shape |
| ConditionTree.TwoOrGroupsExample | src/sparql/QueryObjectBuilder.ts:81-92 | `a or b` then `c or d` make two groups |
| ConditionTree.ElementMembersInOrder | src/sparql/QueryObjectBuilder.ts:39-45 | each element's members come after all earlier elements' members |
| ConditionTree.BuildConditionTree | src/sparql/QueryObjectBuilder.ts:81-92 | the loop builds the tree `Tree` specifies |
| QueryObjectBuilder.RegardlessCount | src/sparql/QueryObjectBuilder.ts:74-79 | the count never exceeds the number of conditions |
| QueryObjectBuilder.RegardlessCountIsPositionCount | src/sparql/QueryObjectBuilder.ts:74-79 | the count is the number of matching positions |
| QueryObjectBuilder.RepeatSuffixMeaning | src/sparql/QueryObjectBuilder.ts:122-125 | empty exactly when the property is not repeated; otherwise the index's digits |
| QueryObjectBuilder.CountIgnoresValues | src/sparql/QueryObjectBuilder.ts:74-79 | the count depends only on property ids and reference relations |
| QueryObjectBuilder.SuffixIgnoresValues | src/sparql/QueryObjectBuilder.ts:153-155 | so does the suffix |
| QueryObjectBuilder.UnionArms | src/sparql/QueryObjectBuilder.ts:118-144 | one group per member when it succeeds |
| QueryObjectBuilder.UnionArmsOk | src/sparql/QueryObjectBuilder.ts:118-144 | the union succeeds exactly when every member is defined and builds at its consecutive index |
| QueryObjectBuilder.UnionArmsElements | src/sparql/QueryObjectBuilder.ts:118-144 | arm `j` is the group of member `j`, built at index `start + j` |
| QueryObjectBuilder.WherePrefixFailure | src/sparql/QueryObjectBuilder.ts:39-45 | the first failing element's error is the compile's error |
| QueryObjectBuilder.WhereElementInOrder | src/sparql/QueryObjectBuilder.ts:39-45 | each element's patterns follow the earlier ones', in order |
| QueryObjectBuilder.WithAnyValue | src/sparql/QueryObjectBuilder.ts:47-61 | prepends the every-item pattern exactly when all patterns are `MINUS`; after it they never are |
| QueryObjectBuilder.AppliedLimit | src/sparql/QueryObjectBuilder.ts:63-65 | a limit only when it is set and non-zero |
| QueryObjectBuilder.CompileWithoutLabels | src/sparql/QueryObjectBuilder.ts:30-72 | `SELECT DISTINCT ?item`, standard prefixes, the where clause of the tree with the every-item guard; date conditions get the corrected period filter |
| QueryObjectBuilder.CompileWithLabels | src/sparql/QueryObjectBuilder.ts:166-205 | an outer `?item ?itemLabel` query: the label service, then a group nesting the DISTINCT `?item` query whose body is the tree's patterns (guarded against only-MINUS) with the applied limit and no prefixes; date conditions get the corrected period filter |
| QueryObjectBuilder.LimitOnlyWhenTruthy | src/sparql/QueryObjectBuilder.ts:63-65 | the compiled query has a limit exactly when the input's is set and non-zero |
| QueryObjectBuilder.BodyNeverOnlyMinus | src/sparql/QueryObjectBuilder.ts:47-61 | a compiled query never consists of negations only |
| QueryObjectBuilder.ArmsFailOnLeadingHole | src/sparql/QueryObjectBuilder.ts:118-144 | a union whose first member is undefined fails |
| QueryObjectBuilder.LeadingOrFails | src/sparql/QueryObjectBuilder.ts:81-144 | a query whose first condition is `or` does not compile |
| QueryObjectBuilder.SingleConditionSpliced | src/sparql/QueryObjectBuilder.ts:146-164 | one condition's patterns are spliced into the where clause as they are |
| QueryObjectBuilder.OrPairIsOneUnion | src/sparql/QueryObjectBuilder.ts:118-144 | `a or b` compiles to one union of two groups |
| QueryObjectBuilder.OnlyNegateQuery | src/sparql/QueryObjectBuilder.ts:49-56 | the loop answers true exactly when every pattern is `MINUS` |
| QueryObjectBuilder.QueryObjectBuilder.constructor | src/sparql/QueryObjectBuilder.ts:16-28 | a fresh builder: index 0, empty where clause, standard prefixes |
| QueryObjectBuilder.QueryObjectBuilder.BuildFromQueryCondition | src/sparql/QueryObjectBuilder.ts:146-164 | index advanced by one; the condition's patterns appended, or the error reported with the where clause unchanged |
| QueryObjectBuilder.QueryObjectBuilder.BuildUnion | src/sparql/QueryObjectBuilder.ts:118-144 | one union of the members' groups appended; index advanced by the member count |
| QueryObjectBuilder.QueryObjectBuilder.BuildFromRootElement | src/sparql/QueryObjectBuilder.ts:39-45 | one step of the loop over the tree: the where clause grows to the patterns of the first `i + 1` elements, or the first failure is kept |
| QueryObjectBuilder.QueryObjectBuilder.BuildWhere | src/sparql/QueryObjectBuilder.ts:39-45 | the loop over the tree leaves the where clause `WherePatterns` specifies, or reports its error |
| QueryObjectBuilder.QueryObjectBuilder.WrapQueryWithLabel | src/sparql/QueryObjectBuilder.ts:166-205 | the inner query loses its prefixes; the wrapper is the label query around it |
| QueryObjectBuilder.QueryObjectBuilder.BuildFromQueryRepresentation | src/sparql/QueryObjectBuilder.ts:30-72 | the statements produce the query `Compile` specifies |
| StoreState.NewEmptyPropertyData | src/store/index.ts:12-20 | no property chosen, carrying the given error |
| StoreState.FreshConditionRow | src/store/index.ts:22-38 | an empty matching row carrying the given id; unrelated exactly when it is the first row, `and` otherwise |
| StoreState.InitialState | src/store/index.ts:40-48 | one fresh first row (`FreshConditionRow`), no errors, limit 100 in use, labels shown |
| Getters.UnitId | src/store/getters.ts:44 | the unit's id, or none when it is missing or empty |
| Getters.QueryValueFromStoreValue | src/store/getters.ts:22-58 | null becomes `""`; entities their id, quantities amount and unit id, dates time and precision, text itself; an error exactly for an unparsed date or a missing entity or quantity |
| Getters.RowCondition | src/store/getters.ts:63-76 | a row without datatype is an error; otherwise its fields are carried over and the value converted |
| Getters.Conditions | src/store/getters.ts:63-77 | one condition per row when it succeeds |
| Getters.ConditionsOk | src/store/getters.ts:63-77 | succeeds exactly when every row converts, and then row by row in order |
| Getters.ConditionsErr | src/store/getters.ts:63-77 | a failure is the error of the first row that fails |
| Getters.QueryLimit | src/store/getters.ts:78 | a limit exactly when the limit is in use: the number, or 100 when it is not set |
| Getters.Query | src/store/getters.ts:61-81 | the conditions, limit and omit-labels flag the state implies |
| Getters.Property | src/store/getters.ts:85-92 | the row's property exactly when it has an id |
| Getters.LimitedSupport | src/store/getters.ts:103-111 | exactly when the property is set and its datatype is not supported |
| Getters.ConditionsPointwise | src/store/getters.ts:63-77 | rows that convert alike give the same conditions |
| Getters.ConditionsOnlyReadQueryFields | src/store/getters.ts:63-77 | errors and row ids do not affect the query |
| Getters.QueryFirstConditionUnrelated | src/store/getters.ts:74 | a form whose first row is unrelated gives a query whose first condition is unrelated |
| Actions.MarkedLimitedSupport | src/store/actions.ts:229-246 | the row ignores and clears its value and its property carries the warning; nothing else changes |
| Actions.PropertyUpdated | src/store/actions.ts:153-173 | only the updated row changes; errors and limit settings are kept |
| Actions.PropertyUpdatedRow | src/store/actions.ts:153-173 | the row takes the property, counted as set, and keeps its relation; it has limited support exactly for a datatype that is not fully supported |
| Actions.PropertyUpdatedValue | src/store/actions.ts:153-173 | an unsupported datatype clears the value and warns on the property; a supported one clears the property error and keeps the value unless the datatype changed |
| Actions.RowsAdded | src/store/actions.ts:218-221 | one fresh `and` row appended (unrelated on an empty form); the first row stays unrelated |
| Actions.Spliced | src/store/actions.ts:222-228 | `splice(i, 1)`: the row removed and the rest shifted; out of range nothing changes |
| Actions.RowsRemovedAsWritten | src/store/actions.ts:222-228 | the source's removal: only a single remaining row loses its relation |
| Actions.RowsRemoved | src/store/actions.ts:222-228 | the corrected removal: the new first row is always unrelated, the others are spliced |
| Actions.LimitValidated | src/store/actions.ts:285-297 | an unset limit becomes 100; a cleared limit in use sets the incomplete-form error; the rows never change |
| Actions.FormValues | src/store/actions.ts:249-258 | one validator input per row: the row's property exactly when it is set (null otherwise), its value and its relation |
| Actions.FieldErrorsApplied | src/store/actions.ts:263-273 | each validated row gets its errors; the rest of the state is unchanged |
| Actions.LimitedSupportReapplied | src/store/actions.ts:276-281 | rows needing limited support are marked, the others untouched |
| Actions.FormValidated | src/store/actions.ts:247-284 | the rows keep their number; label and limit use are kept |
| Actions.FormValidatedRows | src/store/actions.ts:247-284 | each row gets limited support or its validation errors, in order; the first row stays unrelated |
| Actions.EmptyFormErrorsHaveNoRow | src/store/actions.ts:259-273 | on an empty form the validation reports the field errors of one row |
| Actions.FormValidatedErrors | src/store/actions.ts:247-297 | the form errors are the validator's, or the incomplete-form error for an emptied limit in use; an unset limit becomes the default |
| Actions.ErrorActionsKeepQuery | src/store/actions.ts:372-407 | clearing or setting errors never changes the query |
| Actions.RemoveFirstOfThreeAsWritten | src/store/actions.ts:222-228 | removing the first of `[-, or, and]` as written leaves an `or` first, whose query does not compile |
| Actions.RemovedConditionLeavesNoHole | src/store/actions.ts:222-228 | after the corrected removal the condition tree has no undefined member |
| Actions.Store.constructor | src/store/index.ts:40-48 | the initial state |
| Actions.Store.ClearFieldErrors | src/store/actions.ts:372-385 | the state `FieldErrorsCleared` specifies |
| Actions.Store.SetFieldErrors | src/store/actions.ts:391-407 | the state `FieldErrorsSet` specifies |
| Actions.Store.SetValue | src/store/actions.ts:386-390 | the row's value replaced |
| Actions.Store.ClearValue | src/store/actions.ts:360-363 | the row's value set to null |
| Actions.Store.UpdateValue | src/store/actions.ts:126-142 | the row's value replaced for values that need no parsing |
| Actions.Store.SetProperty | src/store/actions.ts:364-371 | the row's property set, or emptied for none |
| Actions.Store.UnsetProperty | src/store/actions.ts:143-152 | the row's property emptied |
| Actions.Store.UpdatePropertyValueRelation | src/store/actions.ts:174-178 | the row's relation replaced |
| Actions.Store.SetReferenceRelation | src/store/actions.ts:179-183 | the row's reference relation replaced |
| Actions.Store.SetNegate | src/store/actions.ts:184-188 | the row's negation replaced |
| Actions.Store.SetSubclasses | src/store/actions.ts:201-205 | the row's subclasses flag replaced |
| Actions.Store.SetConditionRelation | src/store/actions.ts:206-210 | the row's relation to the row above replaced |
| Actions.Store.SetLimit | src/store/actions.ts:189-192 | only the limit replaced |
| Actions.Store.SetUseLimit | src/store/actions.ts:193-196 | only the use-limit flag replaced |
| Actions.Store.SetOmitLabels | src/store/actions.ts:197-200 | only the omit-labels flag replaced |
| Actions.Store.SetErrors | src/store/actions.ts:211-214 | only the form errors replaced |
| Actions.Store.AddCondition | src/store/actions.ts:218-221 | the rows `RowsAdded` specifies |
| Actions.Store.RemoveCondition | src/store/actions.ts:222-228 | the rows the corrected `RowsRemoved` specifies |
| Actions.Store.SetConditionAsLimitedSupport | src/store/actions.ts:229-246 | the state `MarkedLimitedSupport` specifies |
| Actions.Store.UpdateProperty | src/store/actions.ts:153-173 | the state `PropertyUpdated` specifies |
| Actions.Store.ValidateLimit | src/store/actions.ts:285-297 | the state `LimitValidated` specifies |
| Actions.Store.StoreFieldErrors | src/store/actions.ts:263-273 | the loop leaves the state `FieldErrorsApplied` specifies |
| Actions.Store.ReapplyLimitedSupport | src/store/actions.ts:276-281 | the loop leaves the state `LimitedSupportReapplied` specifies |
| Actions.Store.ReapplyLimitedSupportAt | src/store/actions.ts:276-281 | one step of that loop: the next row is marked when it needs limited support |
| Actions.Store.ValidateForm | src/store/actions.ts:247-284 | the state `FormValidated` specifies |
| BaseValidator.ValidateValue | src/form/BaseValidator.ts:10-15 | no error exactly for a truthy value, otherwise the missing-value error |
| DateValidator.ValidateValue | src/form/DateValidator.ts:6-14 | no error exactly when the date was parsed; the formatted message when there is one, else the missing-value error |
| QuantityValidator.ValidateQuantityValue | src/form/QuantityValidator.ts:31-49 | no error exactly when number and unit are both present; the error marks exactly the missing parts |
| Validator.ValidateCondition | src/form/Validator.ts:50-72 | a property error exactly without property id; a value error exactly for a falsy value outside Regardless |
| Validator.Validate | src/form/Validator.ts:16-48 | an empty form gets the notice; otherwise per-row errors, and the incomplete-form error exactly when a row is incomplete |
| Validator.NoFormErrorsMeansComplete | src/form/Validator.ts:16-48 | no form error exactly for a non-empty form whose rows are all complete |
| QuerySerializer.ValueFromCondition | src/serialization/QuerySerializer.ts:38-77 | falsy values become `""`; entities their id, quantities amount and unit id, dates time and precision, text itself |
| QuerySerializer.SerializedRow | src/serialization/QuerySerializer.ts:17-28 | the row's record: property id only when set, no errors, no row id |
| QuerySerializer.SerializedRows | src/serialization/QuerySerializer.ts:16-29 | one record per row, in order |
| QuerySerializer.Serialized | src/serialization/QuerySerializer.ts:14-36 | the records and the three limit settings |
| QuerySerializer.Serialize | src/serialization/QuerySerializer.ts:14-36 | the loop builds what `Serialized` specifies |
| QueryDeserializer.PropertyDataOf | src/serialization/QueryDeserializer.ts:49-57 | id and label from the property id; set exactly when the id is non-empty |
| QueryDeserializer.ConditionValueWith | src/serialization/QueryDeserializer.ts:59-97 | empty or null values become null; fails exactly for an absent quantity or date |
| QueryDeserializer.RowsOf | src/serialization/QueryDeserializer.ts:14-36 | one row per record when it succeeds |
| QueryDeserializer.RowsOfMeaning | src/serialization/QueryDeserializer.ts:14-36 | succeeds exactly when every value can be read; row `k` is record `k` numbered `k + 1` |
| QueryDeserializer.DeserializedWith | src/serialization/QueryDeserializer.ts:7-47 | not-JSON and invalid-parameter errors; otherwise no form errors and the limit settings as written |
| QueryDeserializer.Deserialize | src/serialization/QueryDeserializer.ts:7-47 | the loop builds what `Deserialized` specifies, which rebuilds the values of every entity datatype (the corrected reading of the Findings) |
| QueryDeserializer.RestoredRowsNumbered | src/serialization/QueryDeserializer.ts:15-35 | restored rows have distinct ids, no errors, and a set property exactly when it has an id |
| QueryDeserializer.RowRoundTrip | src/serialization/QueryDeserializer.ts:59-97 | a row written out and read back gives the same condition |
| QueryDeserializer.RoundTripRestores | src/serialization/QueryDeserializer.ts:14-36 | what `serialize` writes for well-formed rows is always read back |
| QueryDeserializer.RoundTripKeepsQuery | src/serialization/QuerySerializer.ts:14-36 | writing out and reading back keeps the query of a form of well-formed rows |
| QueryDeserializer.UnsetPropertyRoundTripChangesQuery | src/serialization/QuerySerializer.ts:19 | a row whose property was unset still queries `P31`; read back, its condition has an empty property id |
| QueryDeserializer.LexemeRoundTripAsWritten | src/serialization/QueryDeserializer.ts:90-96 | as written, a lexeme value read back is plain text, its query value is undefined, and writing it again loses it |
| Utils.SkipSpaces | src/utils.ts:9 | the longest run of blanks |
| Utils.ScanNumber | src/utils.ts:8 | an end only where a number of the grammar ends |
| Utils.ScanSuffix | src/utils.ts:9 | an end only where a suffix of the grammar ends |
| Utils.ValidateExtendedNumberInput | src/utils.ts:7-12 | accepts only texts the regular expression matches |
| Utils.ScanNumberFinds | src/utils.ts:8 | the scanner finds every number a match can continue after |
| Utils.ScanSuffixFinds | src/utils.ts:9 | the scanner finds every suffix a match can end with |
| Utils.ValidateExtendedNumberInputMatches | src/utils.ts:7-12 | accepts exactly the texts the regular expression matches |
| Utils.BlankRejected | src/utils.ts:9 | an empty or all-blank text is rejected |
| Utils.UncertaintyAccepted | src/utils.ts:9 | `1+/-2` is accepted |
| Utils.BlankAfterUncertaintyRejected | src/utils.ts:9 | `1± 2` is rejected: no blank after the uncertainty marker |
| Utils.FeedbackType | src/utils.ts:14-18 | the error's type when there is an error, none otherwise |

## Left out

- The network actions (`searchProperties`, `searchItemValues`, `updateDateValue`, `parseState`, `searchForEntities`) and the metrics call (`incrementMetric`) are left out. They call services whose code is not part of this model.
- Actions.Store.UpdateValue: requires a value that does not go to the date parser. The parse request and its asynchronous result are not modelled.
- Random identifiers (`Math.random`, `generateUid`) become parameters.
- Environment settings become parameters. This covers the SI conversion property, and the entity and limited-support builders, whose source is not part of this model.
- Rendering the syntax tree to SPARQL text is left out; the model stops at the syntax tree. So is the JSON text of the URL state: the model works on the parsed object.
- JavaScript numbers are modelled as unbounded integers. Fractions, `NaN` and `isValidNumberValue` (src/form/QuantityValidator.ts:24-29) are left out.
- Values whose shape does not fit their datatype (hand-edited URLs) are approximated:
  - a store value becomes `Malformed`;
  - a URL value becomes `SerializedObject` or `SerializedAbsent`;
  - a quantity whose amount is not a number becomes `MalformedValue` in the query.
- The trivial getters are left out: `getConditionRows`, `propertyError`, `datatype`, `value`, `valueError`, `propertyValueRelation`, `referenceRelation`, `negate`, `subclasses`, `conditionRelation`, `limit`, `useLimit`, `omitLabels`. They read one field.
- Actions.Store.ValidateForm: requires at least one row. On an empty form the validation reports field errors for one row (src/store/actions.ts:263-273), and `setFieldErrors` writes them to row 0, which does not exist (src/store/actions.ts:401-403); that failure is not modelled (`Actions.EmptyFormErrorsHaveNoRow`).
- Actions.FormValidated: requires at least one row, for the reason given for `Actions.Store.ValidateForm`.
- Actions.FormValidatedRows: requires at least one row, for the same reason.
- Actions.FormValidatedErrors: requires at least one row, for the same reason.
- QueryObjectBuilder.QueryObjectBuilder.BuildFromQueryRepresentation: requires a fresh builder. The source may be called again, and then it appends to the earlier where clause.
- QueryDeserializer.RoundTripKeepsQuery: requires every row to be well formed (`WellFormedRow`): its value fits its datatype, and its property is set or its id is empty. The second clause matters: `unsetProperty` keeps the id (src/store/actions.ts:143-152), the getter still queries it (src/store/getters.ts:68), but the serializer writes an empty id (src/serialization/QuerySerializer.ts:19), so such a row does not keep its query (`QueryDeserializer.UnsetPropertyRoundTripChangesQuery`).
- QueryDeserializer.RowRoundTrip: requires a well-formed row, with both clauses of `RoundTripKeepsQuery`.
- QueryDeserializer.RoundTripRestores: requires well-formed rows, with both clauses of `RoundTripKeepsQuery`.
- DateValuePatternBuilder.ValuePatterns, DateValuePatternBuilder.DatePatterns, DateValuePatternBuilder.LowPrecisionPatterns, DateValuePatternBuilder.DateValuePatternBuilder.BuildValuePatternFromCondition, QueryObjectBuilder.CompileWithoutLabels and QueryObjectBuilder.CompileWithLabels compute the corrected period filter of the Findings, not the comparison the source writes (`DateValuePatternBuilder.DateTimeFilterAsWritten`); QueryDeserializer.Deserialize likewise uses the corrected entity reading.
- Actions.Store.RemoveCondition, Actions.RowsRemoved: compute the corrected removal of the Findings, which clears the relation of whichever row becomes first; the source clears it only when one row remains (src/store/actions.ts:222-228), which is `Actions.RowsRemovedAsWritten`.
- DateValidator.ValidateValue: states the missing-value error one way only. A formatted message could equal the missing-value key.
- The component-level `getFeedbackTypeFromProps` closure is modelled as a function of the error alone (`Utils.FeedbackType`).

## Findings

| source | as written | input that shows it | evidently intended | confidence | as-written member | corrected member |
|---|---|---|---|---|---|---|
| src/sparql/DateValuePatternBuilder.ts:200-214 | NotMatching on a month or year keeps dates strictly after its first instant | `+1789-07-00T00:00:00Z` at month precision and a date `+1789-07-14`, which both Matching and NotMatching select | select dates before the period or at or after the following one | high, not executed | DateValuePatternBuilder.AsWrittenOverlaps | DateValuePatternBuilder.DateTimeFilterSelects |
| src/sparql/DateValuePatternBuilder.ts:216-222 | LessThan filters `value < ?date`, which selects later dates | the same month with the date `+1789-07-14`, which LessThan selects | select dates before the period (`?date < value`) | high, not executed | DateValuePatternBuilder.AsWrittenOverlaps | DateValuePatternBuilder.DateTimeFilterSelects |
| src/store/actions.ts:222-228 | removing a row clears the relation of the new first row only when one row remains | rows `[-, or, and]`, remove row 0: the new first row is `or`, and compiling fails | the new first row is always unrelated | medium, not executed | Actions.RemoveFirstOfThreeAsWritten | Actions.RemovedConditionLeavesNoHole |
| src/serialization/QueryDeserializer.ts:90-96 | only `wikibase-item` values are rebuilt as entities from the URL | a lexeme row with value `L7`: it reads back as text, its query value is undefined, and writing it again drops it | rebuild every entity datatype | medium, not executed | QueryDeserializer.LexemeRoundTripAsWritten | QueryDeserializer.RoundTripKeepsQuery |
