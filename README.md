# Zongsoft.CoreLibrary core, modelled in Dafny

This project models five pieces of Zongsoft.CoreLibrary (C#) and proves properties about them:

- **Data service** (`Zongsoft.Data.DataService<TEntity>`), in `data_keys.dfy`, `data_sequence.dfy` and `data_service.dfy`.
  - Key resolution: positional key values against the primary key, and a `tag:value` keyword for the search-key strategy.
  - The event pipeline that every operation follows: pre-event, optional cancel, driver call, post-event.
  - The auto-increment sequences of `DataSequence`.
  - The storage driver, the event handlers, the sequence providers and `GetKey(values)` are function-valued fields of the service class.
  - Every operation returns its result and a trace of what it did: raised events, driver calls, sequence-provider calls and commits.
- **`ConditionalRange`** (`conditional_range.dfy`): normalising setters, `HasValue`, `ToCondition`, `IsEmpty`, `ToString`, `TryParse<T>`, `TryParse` and `Parse`, with a parse/print round trip.
- **Hex codec of `Zongsoft.Common.Convert`** (`hex.dfy`): every `ToHexString` and `FromHexString` overload, `GetDigit` and the four `TryParseHex` overloads.
  - Each method is proved against a specification function (`HexText`, `HexDecode`, `HexNumber`).
  - The round trip is proved about those functions.
- **`User` entity** (`user.dfy`): the validating constructor, the `Name`/`FullName`/`Namespace`/`PhoneNumber` setters as methods of a class, and the `Equals`, `ToString` and `IsBuiltin` rules.
- **`CommandExecutor`** (`command_executor.dfy`): `Execute`, `OnExecute`, `ExecuteCommand`, `CreateExecutorContext`, `OnFailed` and `OnCompleted`.
  - The parser, the command tree, the commands, the completion callbacks and the event handlers are function-valued fields.
  - Each method returns the trace of steps it caused.

Shared modules:
- `text.dfy`: the .NET string primitives the code relies on (`Char.IsWhiteSpace`, `IsNullOrWhiteSpace`, `Trim`, `Split`, `IndexOf`, invariant case mapping, decimal rendering).
- `conditions.dfy`: the runtime values and `ICondition`.
- `results.dfy`: `Option` and `Result`.

A thrown exception is a `Failure` value; a .NET `null` is `None`, or `""` for a string that the code only tests with `IsNullOrWhiteSpace`/`IsNullOrEmpty`.

Where the code behaves differently from a plain reading of its documentation, the model follows the code:
- `ConditionalRange.TryParse` strips every leading and trailing parenthesis (`Trim('(', ')')`), not only one pair.
- `GetValue` applies itself recursively to the first element of an enumerable.
- `GetSequenceKey` skips a null qualifying key and goes on; it does not abandon the fill.
- `Exists`, `Increment` and `Decrement` hand the driver the arguments the caller gave, not those the pre-event handlers left. `Count`, `GetSingle`, `Select`, `Delete`, `Insert` and `Update` hand over the handlers' arguments.

## Model

| member | source | states |
|---|---|---|
| HexCodec.GetDigit | src/Common/Convert.cs:236-243 | the digit of a nibble is a hex digit whose value is the nibble; it is a decimal digit exactly below 10, and a letter in the case of `alpha` otherwise |
| HexCodec.HexTextLength | src/Common/Convert.cs:217-222 | the encoding is empty for no bytes, 2n characters without a separator and 3n-1 with one |
| HexCodec.HexTextAt | src/Common/Convert.cs:224-231 | character i*rank is byte i's high-nibble digit and i*rank+1 its low-nibble digit; with a separator, i*rank+2 is the separator for every byte but the last |
| HexCodec.ToHexString | src/Common/Convert.cs:215-234 | the array fill produces exactly the encoding `HexText`; a null array gives "" |
| HexCodec.ToHexStringUpper | src/Common/Convert.cs:192-195 | upper case without separator, 2n characters |
| HexCodec.ToHexStringCase | src/Common/Convert.cs:203-206 | the chosen case without separator, 2n characters |
| HexCodec.BlankIsZero | src/Common/Convert.cs:365-402 | text of white space only parses as 0 |
| HexCodec.InvalidCharFails | src/Common/Convert.cs:375-388 | any character that is neither white space nor a hex digit makes the parse fail |
| HexCodec.DigitsValueSnoc | src/Common/Convert.cs:390-398 | the weighted sum of the second loop is the positional base-16 value (one more digit multiplies by 16 and adds it) |
| HexCodec.DigitsValueBound | src/Common/Convert.cs:390-398 | n digits are worth less than 16^n |
| HexCodec.TryParseHexLong | src/Common/Convert.cs:365-402 | fails with 0 for a null array or a bad character; otherwise succeeds with the base-16 value of the non-white-space digits |
| HexCodec.TryParseHexByte | src/Common/Convert.cs:314-329 | succeeds exactly when the long parse succeeds with a value up to 255; the value, else 0 |
| HexCodec.TryParseHexShort | src/Common/Convert.cs:331-346 | succeeds exactly when the long parse succeeds with a value up to 32767; the value, else 0 |
| HexCodec.TryParseHexInt | src/Common/Convert.cs:348-363 | succeeds exactly when the long parse succeeds with a value up to 2^31-1; the value, else 0 |
| HexCodec.PairByteDigits | src/Common/Convert.cs:293-300 | a two-character buffer makes a byte exactly when both are hex digits, worth 16*first+second |
| HexCodec.CodeUnits | src/Common/Convert.cs:288 | the text is walked as UTF-16 code units: as many as `Utf16Length` counts, with a character beyond the Basic Multilingual Plane standing for both halves of its surrogate pair |
| HexCodec.FromHexString | src/Common/Convert.cs:279-312 | the buffer loop over the UTF-16 code units of the text yields the bytes `HexDecode` defines; on a bad pair, a FormatException when throwing is on and an empty array otherwise |
| HexCodec.FromHexStringStrict | src/Common/Convert.cs:252-255 | no separator, and a bad pair throws |
| HexCodec.FromHexStringSeparated | src/Common/Convert.cs:265-268 | the given separator, and a bad pair throws |
| HexCodec.SignificantOfHexText | src/Common/Convert.cs:288-291 | when the separator is not a hex digit, skipping white space and the separator in an encoding leaves exactly the digit pairs |
| HexCodec.DecodeDigits | src/Common/Convert.cs:293-300 | decoding the digit pairs of any bytes gives those bytes |
| HexCodec.RoundTrip | src/Common/Convert.cs:215-312 | decoding the encoding with the same separator gives the bytes back whenever the separator is not a hex digit, including a separator beyond the Basic Multilingual Plane |
| HexCodec.TrailingCharDropped | src/Common/Convert.cs:288-311 | a trailing unpaired character of the Basic Multilingual Plane is silently dropped |
| HexCodec.AstralCharFails | src/Common/Convert.cs:288-304 | a trailing character beyond the Basic Multilingual Plane is a surrogate pair that fills the buffer with two non-digits, so the decode fails |
| HexCodec.AstralExample | src/Common/Convert.cs:288-304 | "AB" decodes to 0xAB, while "AB" followed by U+1F600 fails |
| Ranges.GetValue | src/Data/ConditionalRange.cs:188-218 | the normalised value is never DBNull, an enumerable or a blank string |
| Ranges.GetValueFixpoint | src/Data/ConditionalRange.cs:188-218 | GetValue leaves a value unchanged exactly when it is already normalised, so it is idempotent |
| Ranges.GetValueFirst | src/Data/ConditionalRange.cs:201-212 | a non-empty enumerable stands for its first element alone |
| Ranges.ConditionalRange.constructor | src/Data/ConditionalRange.cs:42-44 | both boundaries are null |
| Ranges.ConditionalRange.Init | src/Data/ConditionalRange.cs:46-50 | both boundaries are set through GetValue |
| Ranges.ConditionalRange.SetFrom | src/Data/ConditionalRange.cs:54-64 | From becomes GetValue(value), To is unchanged, and both boundaries stay normalised |
| Ranges.ConditionalRange.SetTo | src/Data/ConditionalRange.cs:66-76 | To becomes GetValue(value), From is unchanged, and both boundaries stay normalised |
| Ranges.ConditionalRange.HasValue | src/Data/ConditionalRange.cs:81-87 | true exactly when ToCondition gives a condition |
| Ranges.ConditionalRange.ToCondition | src/Data/ConditionalRange.cs:89-95 | null exactly when both boundaries are null; otherwise a condition on `name` whose operator is LessThanEqual when only `to` is set, GreaterThanEqual when only `from` is set and Between when both are, and from which the boundaries are recovered |
| Ranges.ConditionalRange.ToString | src/Data/ConditionalRange.cs:168-184 | empty exactly when there is no boundary, otherwise parenthesised |
| Ranges.IsEmpty | src/Data/ConditionalRange.cs:99-102 | true exactly for a null range or one without value |
| Ranges.TryParse | src/Data/ConditionalRange.cs:122-164 | the step-by-step parse returns what `RangeParse` defines; the range is created only when a boundary is assigned |
| Ranges.TryParseString | src/Data/ConditionalRange.cs:117-120 | the string instantiation, with every string converting to itself |
| Ranges.Parse | src/Data/ConditionalRange.cs:104-115 | null when the string parse fails or yields no range, otherwise a new range holding the parsed boundaries |
| Ranges.ParseBlank | src/Data/ConditionalRange.cs:124-132 | blank text, or text blank after trimming white space and parentheses, fails with a null result |
| Ranges.ParseEmptyParts | src/Data/ConditionalRange.cs:134-163 | two blank parts succeed with a null result |
| Ranges.ParseTilde | src/Data/ConditionalRange.cs:129-163 | "(~)" succeeds with a null result |
| Ranges.ParseConversionFails | src/Data/ConditionalRange.cs:136-154 | a non-blank part that does not convert makes the parse fail |
| Ranges.CleanPart | src/Data/ConditionalRange.cs:134 | a clean boundary is unchanged by the per-part trim |
| Ranges.InnerOfWrapped | src/Data/ConditionalRange.cs:129 | the outer trim of "(x)" gives x when x has no parenthesis at its ends |
| Ranges.RoundTripUpper | src/Data/ConditionalRange.cs:170-175 | "(~to)" parses to the upper boundary alone |
| Ranges.RoundTripLower | src/Data/ConditionalRange.cs:177-180 | "(from)" parses to the lower boundary alone |
| Ranges.BothParts | src/Data/ConditionalRange.cs:129-134 | "(from~to)" splits into the two clean boundaries |
| Ranges.RoundTripBoth | src/Data/ConditionalRange.cs:181-182 | "(from~to)" parses to both boundaries |
| Ranges.RoundTrip | src/Data/ConditionalRange.cs:117-184 | parsing the printed text of clean string boundaries gives them back; an empty range prints "", which fails to parse |
| Ranges.RangeRoundTrip | src/Data/ConditionalRange.cs:117-184 | the same round trip stated on a ConditionalRange object |
| Membership.Stored | src/Security/Membership/User.cs:182 | the stored form of a text is null or non-blank and trimmed |
| Membership.User.constructor | src/Security/Membership/User.cs:44-47 | a user without name, full name, namespace or phone number |
| Membership.User.SetName | src/Security/Membership/User.cs:120-140 | a blank value is ignored while the name is blank and throws ArgumentNull otherwise; a trimmed value shorter than 4 UTF-16 code units throws ArgumentOutOfRange; a rejected value changes nothing; the stored-name invariant is kept |
| Membership.User.SetFullName | src/Security/Membership/User.cs:152-155 | the full name is stored as given and nothing else changes |
| Membership.User.SetNamespace | src/Security/Membership/User.cs:167-183 | accepted exactly when the trimmed value has only letters, digits, '_' and '.'; then stored as null or trimmed; a rejection throws Argument and changes nothing |
| Membership.User.SetPhoneNumber | src/Security/Membership/User.cs:290-293 | null for a blank value, the trimmed value otherwise |
| Membership.User.Equals | src/Security/Membership/User.cs:391-399 | equal users have the same runtime type and user id, and both or neither have a namespace; a user equals itself |
| Membership.User.ToString | src/Security/Membership/User.cs:406-412 | the text starts with "[id]name" |
| Membership.UserText | src/Security/Membership/User.cs:406-412 | the text starts with "[id]name" and ends there exactly when the namespace is null or blank |
| Membership.IsBuiltin | src/Security/Membership/User.cs:416-422 | false for a null user; a built-in user's name has the length of Administrator or Guest, and both names are built in |
| Membership.IsBuiltinName | src/Security/Membership/User.cs:424-428 | a built-in name has the length of Administrator or Guest, and both names are built in |
| Text.Utf16Length | src/Security/Membership/User.cs:135 | the length in UTF-16 code units is between the number of characters and twice it, and equals it when no character lies beyond the Basic Multilingual Plane |
| Text.SurrogatePairLength | src/Security/Membership/User.cs:135 | a character beyond the Basic Multilingual Plane counts as two code units: "a" followed by U+1F600 has length 3, and U+1F600 twice has length 4 |
| Membership.Create | src/Security/Membership/User.cs:57-66 | a blank name throws ArgumentNull, a name shorter than 4 UTF-16 code units after trimming ArgumentOutOfRange, a bad namespace Argument; otherwise name and full name are the trimmed name and the namespace its stored form |
| Membership.UserTextId | src/Security/Membership/User.cs:406-412 | the text starts with "[", the decimal id and "]", and the id reads back from it |
| Membership.UserTextNamespace | src/Security/Membership/User.cs:406-412 | the text ends with "@namespace" exactly when the namespace is not blank, and with the name otherwise |
| Membership.EqualsEquivalence | src/Security/Membership/User.cs:391-399 | Equals is reflexive, symmetric and transitive |
| Membership.EqualsIgnoresNamespaceCase | src/Security/Membership/User.cs:391-399 | two users of the same type and id with the namespaces "Zongsoft" and "ZONGSOFT" are equal both ways |
| Membership.BuiltinIgnoresCase | src/Security/Membership/User.cs:424-428 | being built in depends on the name only up to case |
| Membership.BuiltinNames | src/Security/Membership/User.cs:424-428 | only names of 13 or 5 characters are built in; "ADMINISTRATOR" and "guest" are, "Admin" and "" are not |
| Commands.ResolveAll | src/Services/CommandExecutor.cs:222-240 | when every path has a node, the lookup pairs each expression of the chain with its node, in order |
| Commands.ResolveMissing | src/Services/CommandExecutor.cs:225-229 | the first path without a node is the one CommandNotFound reports |
| Commands.RunFromCons | src/Services/CommandExecutor.cs:252-262 | the first entry runs on the parameter (null without a command); a throw stops the chain, otherwise the rest runs on its result |
| Commands.RunOne | src/Services/CommandExecutor.cs:254-261 | one entry runs its command on the parameter; a descriptor exists exactly for a completion command that returned, with that command's own result |
| Commands.RunFromAppend | src/Services/CommandExecutor.cs:252-265 | running a+b runs a, then b on a's result, unless a threw |
| Commands.RunFromSteps | src/Services/CommandExecutor.cs:252-262 | a chain run only runs commands, at most one per entry, and records descriptors only for completion commands |
| Commands.CompletionCallsAll | src/Services/CommandExecutor.cs:343-353 | every descriptor's callback is called exactly once, in order, with the same exception, whatever the others throw |
| Commands.CompletionStepKinds | src/Services/CommandExecutor.cs:343-353 | a completion round only calls callbacks and logs their exceptions |
| Commands.FailureStepsSpec | src/Services/CommandExecutor.cs:307-319 | Failed is raised first; the error output appears exactly when the exception is left unhandled and non-null, and shows the exception the handlers left |
| Commands.CommandExecutor.ChainSteps | src/Services/CommandExecutor.cs:214-266 | the chain's steps are command runs, and none happen when a path is unknown |
| Commands.CommandExecutor.AfterStepsKinds | src/Services/CommandExecutor.cs:193-209 | after the completion round come only Failed, error output and Executed |
| Commands.CommandExecutor.ExecutionCompletesOnce | src/Services/CommandExecutor.cs:178-200 | an execution that was not cancelled runs the completion round exactly once, whether the chain returned or threw |
| Commands.CommandExecutor.ExecutionCallsAll | src/Services/CommandExecutor.cs:181-200 | the callbacks called during an execution are exactly the collected descriptors', in order, with the chain's exception |
| Commands.CommandExecutor.ExecutionNotFound | src/Services/CommandExecutor.cs:222-229 | an unknown path stops the execution before any command runs and is the chain's exception |
| Commands.CommandExecutor.ExecuteCommand | src/Services/CommandExecutor.cs:268-280 | null for a node without a command, otherwise that command's result on the parameter |
| Commands.CommandExecutor.OnExecute | src/Services/CommandExecutor.cs:214-266 | the queue loops produce the chain run `Chain` defines: lookup of every expression first, then the commands in order, each on the previous result, with the descriptors kept when a command throws |
| Commands.CommandExecutor.OnFailed | src/Services/CommandExecutor.cs:307-319 | reports whether the handlers handled the exception, and raises Failed then writes the exception when unhandled |
| Commands.CommandExecutor.OnCompleted | src/Services/CommandExecutor.cs:338-354 | the loop calls every callback in order and logs each exception without stopping |
| Commands.CommandExecutor.Execute | src/Services/CommandExecutor.cs:144-210 | blank text throws ArgumentNull; a context failure goes to Failed (handled gives null, else rethrown); a cancel returns the Executing result; otherwise the outcome and steps are `ExecutionOutcome`/`ExecutionSteps`, with exactly one completion round |
| DataKeys.SearchArgumentsSpec | src/Data/DataService.cs:1148-1156 | no tags exactly when the keyword has no colon or starts with one, then the keyword is passed whole; otherwise one non-empty tag without a colon, and tag + ":" + value is the keyword, with a null value only for a trailing colon |
| DataKeys.GetKeyword | src/Data/DataService.cs:1141-1157 | null and not single without a search key or for a blank keyword; otherwise the strategy decides on the whole keyword with no tags when no colon follows the first character, and else on the text before the first colon as the only tag and the text after it, null when the colon ends the keyword, as the keyword |
| DataKeys.GetKey | src/Data/DataService.cs:1168-1199 | the loop builds `KeyOf`: single exactly when a condition is returned, which happens exactly when the values match a non-empty primary key in number |
| DataKeys.KeyOfSpec | src/Data/DataService.cs:1184-1198 | the key is one Equal condition for one value and an AND collection otherwise, each value paired with the key member at its position; it is never a one-member collection |
| DataKeys.EnsureInquiryKey | src/Data/DataService.cs:1218-1236 | more than 3 values throw NotSupported, an unresolved key throws Argument, and a one-member collection collapses to its member |
| DataSequences.GetSequenceKey | src/Data/DataService.cs:1305-1321 | the appending loop produces `SequenceKey` |
| DataSequences.SequenceKeyShape | src/Data/DataService.cs:1307-1320 | the key starts with "Zongsoft.Data.Sequence", ends with ":" and the lower-cased field name, and is never empty |
| DataSequences.NullKeySkipped | src/Data/DataService.cs:1312-1318 | a qualifying key whose value is null contributes nothing; the rest of the key is built as without it |
| DataSequences.IncrementOneSpec | src/Data/DataService.cs:1292-1297 | the provider is called, once, with (key, 1, seed) exactly when the field is null or 0, and its value is stored there; a value that cannot convert to UInt64 throws; nothing else changes |
| DataSequences.IsUnset | src/Data/DataService.cs:1297 | a value is unset exactly when it is null, the number 0 or a decimal numeral worth 0; the conversion succeeds exactly for null, a number in the UInt64 range or a decimal numeral below 2^64; DBNull and arrays are invalid casts |
| DataSequences.IncrementAllKeepsOthers | src/Data/DataService.cs:1288-1298 | a fill round changes only the fields its tokens fill |
| DataSequences.IncrementAllSetFields | src/Data/DataService.cs:1288-1298 | a record whose fields all hold non-zero numbers is left as it is and no provider is called |
| DataSequences.SequenceCache.constructor | src/Data/DataService.cs:1247 | the cache starts empty |
| DataSequences.SequenceCache.Register | src/Data/DataService.cs:1251-1280 | no attributes gives false; a missing provider or a missing or non-numeric field throws InvalidOperation; otherwise TryAdd: the tokens are added and true returned exactly when the service has none |
| DataSequences.SequenceCache.Increments | src/Data/DataService.cs:1282-1300 | the token loop produces the round `IncrementAll` defines for the service's cached tokens |
| DataServices.IncrementBatchLength | src/Data/DataService.cs:898-911 | a successful batch fill keeps the number of records, and with no tokens it is the identity with no call |
| DataServices.DataService.Exists | src/Data/DataService.cs:216-229 | a cancel returns the pre-event result without calling the driver; otherwise the driver gets the caller's condition and the Existed handlers decide the result; the driver is called exactly when not cancelled |
| DataServices.DataService.ExistsByKey | src/Data/DataService.cs:231-247 | a key failure throws before any event; otherwise the Existing event carries the collapsed key, a cancel returns its result without the driver, and the driver's Exists gets the collapsed key before the Existed handlers decide |
| DataServices.DataService.Count | src/Data/DataService.cs:251-264 | a cancel returns the pre-event count without the driver; otherwise the driver gets the handlers' condition and includes, and the post-event decides the result |
| DataServices.DataService.Step | src/Data/DataService.cs:268-302 | Increment/Decrement: a blank member throws ArgumentNull before any event; a cancel returns the pre-event result; otherwise the driver gets the caller's member, condition and interval |
| DataServices.DataService.FirstOrNull | src/Data/DataService.cs:410-413 | the first selected entity, null exactly when there is none or it is null |
| DataServices.DataService.GetSingle | src/Data/DataService.cs:395-413 | a cancel returns the pre-event result; otherwise the first entity the driver selects with the handlers' condition and scope, or null, as the Getted handlers leave it |
| DataServices.DataService.Select | src/Data/DataService.cs:450-478 | a cancel returns the pre-event result; otherwise the driver selects with the handlers' arguments and the Selected handlers decide the result |
| DataServices.DataService.Search | src/Data/DataService.cs:311-325 | an unresolved keyword throws Argument before any event; a single-entity key gives GetSingle's result and trace on the resolved condition and scope, any other key Select's, with the shaping: a cancel returns the pre-event result without the driver, otherwise the post-event handlers decide on what the driver selects |
| DataServices.DataService.Get | src/Data/DataService.cs:337-346 | a key failure throws before any event; a single-entity key gives GetSingle's result and trace on the collapsed key and the scope, any other key Select's, with the shaping: a cancel returns the pre-event result without the driver, otherwise the post-event handlers decide on what the driver selects |
| DataServices.DataService.OnDelete | src/Data/DataService.cs:568-575 | a null condition throws NotSupported without the driver; otherwise the driver's count |
| DataServices.DataService.Delete | src/Data/DataService.cs:553-566 | a cancel returns the pre-event count; a null condition left by the handlers throws NotSupported after Deleting, without the driver; otherwise the post-event count |
| DataServices.DataService.DeleteByKey | src/Data/DataService.cs:535-551 | a key failure throws before any event; otherwise Delete's result and trace on the collapsed key: a cancel returns the pre-event count, a condition the handlers remove throws NotSupported without the driver, and otherwise the driver deletes and the post-event count is returned |
| DataServices.DataService.OnInsert | src/Data/DataService.cs:614-621 | 0 without data, otherwise the driver's count for the record |
| DataServices.DataService.Insert | src/Data/DataService.cs:578-594 | null data gives 0 with no event; the sequences fill the record before Inserting, and a failed fill throws before it; a cancel returns the pre-event count; otherwise the trace is the fills, Inserting, the driver's insert of the handlers' record and scope (none for a null record) and Inserted, and the result is the post-event count |
| DataServices.DataService.OnInsertMany | src/Data/DataService.cs:623-642 | null items give 0; otherwise every item is inserted in order, the count is the sum of their counts, and the commit comes once, after the last item |
| DataServices.DataService.FillMany | src/Data/DataService.cs:898-911 | the loop over the records produces the batch fill `IncrementBatch` defines: each record filled in order, stopping at the first exception |
| DataServices.DataService.InsertMany | src/Data/DataService.cs:596-612 | null data gives 0 with no event; every record is filled in order before ManyInserting, and the first failed fill throws; a cancel returns the pre-event count; records the handlers set to null give the post-event result on 0 with no driver call; otherwise one insert per record, the commit, and the post-event result on the summed count |
| DataServices.DataService.BatchStops | src/Data/DataService.cs:903-907 | a batch whose record i fails to fill fails with that exception, after the calls made up to it |
| DataServices.DataService.BatchFailureKept | src/Data/DataService.cs:903-907 | once a prefix of the batch fails to fill, the whole batch fails with the same exception and calls |
| DataServices.DataService.OnUpdate | src/Data/DataService.cs:728-734 | 0 without data, otherwise the driver's count for the record and condition |
| DataServices.DataService.Update | src/Data/DataService.cs:682-698 | null data gives 0 with no event; a cancel returns the pre-event count; otherwise the trace is Updating, the driver's update of the handlers' record, condition and scope (none for a null record) and Updated, and the result is the post-event count |
| DataServices.DataService.UpdateByKey | src/Data/DataService.cs:646-662 | the key is resolved before the null-data check: a key failure throws even for null data; with data, Update's result and trace on the collapsed key: a cancel returns the pre-event count, otherwise the driver updates the handlers' record and the post-event count is returned |
| DataServices.DataService.OnUpdateMany | src/Data/DataService.cs:736-755 | null items give 0; otherwise every item is updated in order with the same condition, the count is the sum, and the commit comes once, after the last item |
| DataServices.DataService.UpdateMany | src/Data/DataService.cs:705-721 | null data gives 0 with no event; a cancel returns the pre-event count; records the handlers set to null give the post-event result on 0 with no driver call; otherwise one driver call per record, the commit, then the post-event result on the summed count |
| DataServices.DataService.UpdateManyByKey | src/Data/DataService.cs:664-680 | the key is resolved before the null-data check; with data, UpdateMany's result and trace on the collapsed key: a cancel returns the pre-event count, null records give the post-event result on 0, otherwise one update per record, the commit and the post-event result on the sum |

## Left out

- Storage driver, event handlers, sequence providers, commands, parser and command tree: modelled as functions that return and do not throw. The code that implements them is not part of this model.
- `IDataAccess.GetKey`: given as the primary key parameter of `KeyOf`.
- Reflection-based discovery (attributes, `GetProperty`, `IsNumeric`, `ResolveRequired`): given as explicit configuration.
  - `ResolveRequired` throwing for a missing provider is modelled as the same InvalidOperation as a null provider.
  - Attributes without keys are excluded by `Register`'s precondition. The code would fail on them with an index exception.
- The `ConcurrentDictionary` cache of `DataSequence`: modelled as a per-service map in a `SequenceCache` object, without concurrency.
- The `ISequence` counter state: the provider is a function of its call, so successive calls do not see each other's increments.
- `DataDictionary.Set`: taken to test the predicate on the current value and to call the value factory only when the predicate holds.
- `Convert.ChangeType(value, typeof(ulong))`: modelled for null, numbers, decimal digit strings, DBNull and arrays. Culture-specific forms accepted by `UInt64.Parse` (white space, a leading sign) are not modelled.
- The DataService constructors already call `DataSequence.Register`; here registration is a separate call.
- `Execute`/`ExecuteScalar` of DataService, `Name` resolution, `ServiceProvider` and `Principal` are not modelled.
- `Zongsoft.Transactions.Transaction`: only the commit after the loop is modelled. Rollback and the disposal when an item throws are not.
- Grouping, paging and sortings: carried as opaque `shaping` tokens. `Search`/`Get` with a single-entity key drop them, as `GetSingle` does.
- The only cast modelled for `args.Result as IEnumerable<TEntity>` is one that succeeds.
- The three arities of `Exists`/`Get`/`Delete`/`Update`/`UpdateMany` by key: one method taking a sequence of key values.
- `Search`/`Get` return the entity or the sequence (`Found`), not `object`.
- TryParseHexLong: does not model the 64-bit overflow of `long` for 16 or more significant digits, because the model computes the unbounded base-16 value. `Math.Pow` is modelled as an exact integer power.
- TryParseHexByte, TryParseHexShort and TryParseHexInt: do not model that overflow either, since they take the long parse's value (src/Common/Convert.cs:318, 335, 352); an overflowed value that wraps into their range is not reproduced.
- TryParseHexShort and TryParseHexInt: their lower bounds are never reached, because a parsed value is never negative.
- `Char.IsLetterOrDigit`, `ToLowerInvariant` and `OrdinalIgnoreCase` are ASCII approximations.
- HexCodec.CodeUnits: Dafny characters are Unicode scalar values, so a separator that is a lone surrogate code unit cannot be expressed; both halves of a surrogate pair are written as the character they encode, which is neither white space nor a hexadecimal digit, just as the halves are not.
- `Expr.Options.Bind` in `OnExecute` (option binding onto the command) is not modelled.
- The null checks of `ExecuteCommand` on its context and node cannot be triggered from `OnExecute`.
- The `Default` executor singleton, `CommandErrorWriter`, `NullCommandOutlet` and the logger are not modelled. A logged callback exception is a `CompletionLogged` step.
- `OnCompleted`'s null-descriptors check is unreachable from `Execute`: `OnExecute` always leaves a descriptor list, possibly empty.
- EnsureInquiryKey: the collapse of a one-member collection only matters for a `GetKey(values)` that a derived service overrides. `KeyOfSpec` shows that the base `GetKey` never returns one.
- User: `CreatedTime = DateTime.Now` in both constructors (a clock read), `Email`, `Avatar`, `Status` time stamps, `GetHashCode` and the `ModelBase` property store are left out. The name a default-constructed user lacks is modelled as "".
- User.Equals: the runtime type is a string field of the object.
