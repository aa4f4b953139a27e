# Verification model of the provisioning validator

The validator is asked, over HTTP, whether a list of changes to subscriber data may be applied. A
request holds the changes and a map of related resources, the data that is stored already. Every
change is checked by the rules of its kind; the answer is a verdict, an HTTP code and either the
errors or the changes, rewritten. This project models the following parts of it and proves
properties of the model:

- **The rule engine** (`Validation`): classes with the fields of the original and a method for each
  of its loops. Every method is proved against a specification function that gives the errors it
  appends, in order. The specification modules hold what is then proved about these functions:
  `SliceProfileRules`, `CreateRules`, `UpdateRules`, `UpdateTheorems`, `SubscriptionRules`,
  `Mutations`, `RoamingAreaRules`, `SmsRules`, `Paths`, `Runs` and `Dispatch` (the loop over the
  changes). `Repetitions` and `Answers` state the rules in terms of the fields alone, and `Patterns`
  the formats as regular expressions; `MutatedChanges` and `UpdateOutcomes` are about whole changes
  as the dispatcher answers them.
- **The JSON layer** (`JsonObjects`, `PlmnCodec`, `PlmnRoundTrip`, `ResourceCodec`,
  `ParserEncoder`): reading and writing slice profiles and roaming areas over a JSON tree, and the
  variant map that the rules read (`VariantAccess`). `JsonShapes`, `ReadTypes` and `ReadValues` say
  what reading reports and gives for any tree; `EndToEnd` joins reading, checking, rewriting and
  writing.
- **The blocking queue** (`LockQueue`, `LockQueueWakeups`): push, pop and front as steps of any
  number of threads.
- **The log formatter** (`Formatter`).

`Sequences`, `Text`, `OrderedMaps`, `JsonModel` and `Types` hold what these share:
`OrderedMaps` models `std::map` and `std::multimap` as sequences in key order, where `find` gives
the first entry of a key's range.

## Findings

Some of what the comments or names of the code suggest does not hold. Each entry names the lemma
that shows it and the one that says exactly when it does hold.

- The rule "do not allow deleting a dnnListId" (`ValidationData.cpp:1299-1304`) is not enforced: the
  scan at lines 1309-1315 does not stop at the end of the key's range, so a deleted id counts as
  present when a greater PLMN identifier lists it. See `DeletionCanGoUnreported`, and
  `DeletionRuleEnforced` and `LostIdsStandAbove`. Ids stored under "Default" are safe
  (`AcceptedUpdateKeepsDefaultIds`).
- "It is also duplicated in database" (lines 1274-1277, 1563-1576) is counted for DNNs but only
  searched for S-NSSAIs: an S-NSSAI stored once may be repeated by an update. See
  `NewNssaiRepetitionTolerated`, and `NssaiCountEnforced` for when the two rules agree.
- An accepted change may be emitted in a form that would be rejected. See
  `EmittedCreationCanBeRejected`, `EmittedUpdateCanBeRejected` and
  `EmittedRepetitionCanBeRejected`, and `MutatedChangeAccepted` for every kind of change and
  `EmittedRunAccepted` for lists of changes.
- A slice profile whose id ends in "udmStaticData" or "provJournal" is read as another kind of
  resource, and `boost::get` throws when a rule reads it. See `ParserBuiltNeverThrows`.
- A thread that waits in `front` can consume the notification meant for a `pop`. See
  `FrontLosesWakeup` and `NeverStrandedIffNoFront`.
- The test for at most two allowed SSC modes decides nothing (`SscSizeImplied`); it only changes
  which error an illegal list gets.

## Model

A method that models only a part of a function is covered by the row of the whole.

| member | source | states |
|---|---|---|
| `Validation.ValidationData.ApplyValidationRules` | src/entities/ValidationData.cpp:130-178 | the loop over the changes leaves in the errors and the emitted changes exactly what the fold of the single changes gives, and answers its verdict and code; started with no errors, the answer is the verdict the stored errors call for; a change whose variant access throws ends it without an answer |
| `Validation.ValidationData.CheckOneChange` | src/entities/ValidationData.cpp:134-162 | the branch taken for a path and an operation appends that kind of change's errors and no others |
| `Runs.RunIsHomomorphism` | src/entities/ValidationData.cpp:130-178 | a run over a+b is the run over a continued by the run over b, whatever checking and rewriting a change do |
| `Runs.RunStopsAtThrow` | src/entities/ValidationData.cpp:133-162 | an exception leaves the loop at the first change that throws, with the errors of that change and the state reached before it |
| `Runs.RunThrows` | src/entities/ValidationData.cpp:133-162 | a run ends in an exception exactly when some change throws |
| `Runs.RunEmits` | src/entities/ValidationData.cpp:169-173 | the emitted changes are the rewritten images of the longest prefix of valid changes, even when later changes are valid again |
| `Dispatch.ChangeCoheres` | src/entities/ValidationData.cpp:134-162 | for every branch of the dispatcher: no error means valid and 200, an "Unprocessable entity" error means 422, other errors mean 409, and each error names the path of its own change |
| `Dispatch.RunIsFold` | src/entities/ValidationData.cpp:130-178 | errors are the in-order concatenation of each change's errors; valid iff every change is; code is 200, 409 or 422 as the errors call for; emitted is the rewritten longest valid prefix |
| `Dispatch.RunRulesPermuted` | src/entities/ValidationData.cpp:130-178 | verdict, code and the multiset of errors do not depend on the order of the changes |
| `Dispatch.BodyCoheres` | src/ports/json/ValidatorRapidJsonEncoder.cpp:21-44 | a body sent with a code other than 200 holds all errors and no change although a valid prefix was stored; a body sent with 200 holds every change, rewritten |
| `Validation.ValidationData.CheckForCommonUdmSliceProfileRules` | src/entities/ValidationData.cpp:742-1220 | the loop nest appends the specified error sequence and answers true exactly when it is empty |
| `SliceProfileRules.CommonRulesAccept` | src/entities/ValidationData.cpp:742-1220 | no error exactly when a declarative condition holds: ranges, formats and enumerations, one default DNN per list and none on "*", a "Default" list in each set that has lists, a "Default" set, every reference resolved |
| `SliceProfileRules.EnumErrorsNone` | src/entities/ValidationData.cpp:1581-1614 | walking a list of enumeration values with a "seen" list appends nothing exactly when all are legal and, with the default value, pairwise distinct |
| `SliceProfileRules.SscSizeImplied` | src/entities/ValidationData.cpp:905-913 | the test for at most two allowed SSC modes never rejects what legality and distinctness accept |
| `SliceProfileRules.AtMostFourAllowedSessionTypes` | src/entities/ValidationData.cpp:938-1004 | an accepted DNN that lists allowed session types lists one to four of them |
| `Validation.ValidationData.CheckDnnList` | src/entities/ValidationData.cpp:832-1176 | per list: the errors of each DNN in order, then one if no DNN is the default |
| `Validation.ValidationData.CheckSscModes` | src/entities/ValidationData.cpp:878-936 | the errors of an SSC mode record: missing or illegal default, size, illegal and repeated values |
| `Validation.ValidationData.CheckPduSessionTypes` | src/entities/ValidationData.cpp:938-1004 | the errors of a session type record, the empty but present list included |
| `Validation.ValidationData.CheckReferences` | src/entities/ValidationData.cpp:1188-1204 | one error for each collected reference that no collected list id answers |
| `Validation.ValidationData.CheckForRepeatedDnnsAndNssais` | src/entities/ValidationData.cpp:1469-1510 | the two "seen" lists give one error for each place whose key stood earlier, per set and per list |
| `Validation.ValidationData.CheckForRepeatedNssai` | src/entities/ValidationData.cpp:1512-1534 | an S-NSSAI is reported exactly when its sst and lower-cased sd were seen |
| `CreateRules.RepeatErrorsCount` | src/entities/ValidationData.cpp:1469-1534 | the errors are as many as entries minus distinct entries |
| `CreateRules.SetRepeatErrorsCount` | src/entities/ValidationData.cpp:1469-1510 | for one PLMN set: S-NSSAIs (default and single together) minus distinct ones, plus, summed over the lists, DNNs minus distinct lower-cased DNNs |
| `CreateRules.CreateRulesAccept` | src/entities/ValidationData.cpp:1222-1230 | no error exactly when in every set the S-NSSAIs are pairwise distinct and so are the non-empty lower-cased DNNs of every list |
| `Validation.ValidationData.CheckForCreationUdmSliceProfileRules` | src/entities/ValidationData.cpp:694-709 | format errors (none asked of an empty list) followed by repetition errors; 200 or 409 |
| `Validation.ValidationData.CheckForUpdateSpecificUdmSliceProfileRules` | src/entities/ValidationData.cpp:1232-1331 | appends the repetition errors of the update and then the deletion errors, and answers true exactly when there are none |
| `Validation.ValidationData.CheckDnnsOnUpdate` | src/entities/ValidationData.cpp:1259-1293 | the loop over one list, with its two counts |
| `Validation.ValidationData.CheckForRepeatedNssaiOnUpdate` | src/entities/ValidationData.cpp:1536-1579 | a repeated S-NSSAI is reported unless the stored list of its kind and PLMN holds the same sst, sd and dnnListId |
| `Validation.ValidationData.CheckNssaisOnUpdate` | src/entities/ValidationData.cpp:1241-1257 | default and single S-NSSAIs of a set share one "seen" list and look up different stored lists |
| `Validation.ValidationData.ScanForDeleted` | src/entities/ValidationData.cpp:1309-1315 | the scan that starts at the first entry of a PLMN and runs on to the end of the multimap |
| `Validation.ValidationData.GetAllDnnsUdmSliceProfile` | src/entities/ValidationData.cpp:1333-1351 | the map from (PLMN, list id) to lower-cased DNNs; a later list with the same key is not stored |
| `Validation.ValidationData.GetAllNssaisUdmSliceProfile` | src/entities/ValidationData.cpp:1353-1368 | the map from (PLMN, kind) to the triples; the first set of a PLMN is kept |
| `UpdateRules.LookupFindsFirst` | src/entities/ValidationData.cpp:1346 | a lookup in such a map gives the value of the first entry inserted under the key, and nothing when there was none |
| `UpdateRules.DnnErrorsExact` | src/entities/ValidationData.cpp:1267-1289 | a DNN that stands n times in the change and m times in the stored list gives exactly max(0, n - max(1, m)) errors, case ignored |
| `UpdateRules.DnnUpdateErrorsCount` | src/entities/ValidationData.cpp:1265-1293 | the errors of a list are the sum of these excesses over its DNNs |
| `UpdateRules.DnnUpdateNone` | src/entities/ValidationData.cpp:1265-1293 | a list passes exactly when no DNN is more frequent than max(1, stored) |
| `UpdateRules.NssaiUpdateNone` | src/entities/ValidationData.cpp:1536-1579 | a set passes exactly when every S-NSSAI whose key was used earlier is a stored triple of its kind |
| `UpdateRules.DeletionReported` | src/entities/ValidationData.cpp:1306-1327 | a stored (p, id) is reported exactly when p is no key of the change, or id stands under no PLMN of the change at or above p |
| `UpdateRules.KeptIsNotReported` | src/entities/ValidationData.cpp:1306-1327 | no false alarm: a pair that is kept is never reported |
| `UpdateRules.DeletionRuleEnforced` | src/entities/ValidationData.cpp:1299-1327 | the rule stated in the comment is enforced for a PLMN, for every id, exactly when the PLMN is no key of the change or lists itself every id that the change lists under greater PLMNs |
| `UpdateRules.DefaultIdsAreNeverLost` | src/entities/ValidationData.cpp:1306-1327 | with legal identifiers the scan is exact for the PLMN set "Default", since none sorts above it |
| `UpdateTheorems.AcceptedUpdateKeepsDefaultIds` | src/entities/ValidationData.cpp:720-740 | an accepted update keeps every list id stored under "Default" |
| `UpdateTheorems.UpdateRulesAccept` | src/entities/ValidationData.cpp:1232-1331 | the update rules append nothing exactly when a declarative condition holds |
| `UpdateTheorems.UpdateRefinesCreate` | src/entities/ValidationData.cpp:1222-1297 | against a stored profile without PLMN sets the update rules append the identical error sequence as the creation rules, although the loops keep different lists of what was seen |
| `UpdateTheorems.StoredListFound` | src/entities/ValidationData.cpp:1333-1351 | with distinct keys a lookup gives the DNNs of the stored list itself |
| `UpdateTheorems.StoredNssaisFound` | src/entities/ValidationData.cpp:1353-1383 | with distinct PLMN identifiers a lookup gives the triples of the stored set itself |
| `Validation.ValidationData.CheckForUpdateUdmSliceProfileRules` | src/entities/ValidationData.cpp:711-740 | 422 and one error without a related resource; otherwise format errors, then update errors |
| `Validation.ValidationData.CheckSliceDataReferences` | src/entities/ValidationData.cpp:500-580 | the two multimaps and the two range searches append one error per reference found in neither |
| `SubscriptionRules.ReferenceErrorsExact` | src/entities/ValidationData.cpp:500-580 | the searches are membership: one error per reference defined neither in the slice data nor in the associated profile, in key order and, per PLMN, in document order; as a multiset the same as walking the document |
| `SubscriptionRules.ReferenceSearchNone` | src/entities/ValidationData.cpp:500-580 | none exactly when every non-empty dnnListId of an S-NSSAI is defined for its PLMN |
| `SubscriptionRules.SliceDataAccept` | src/entities/ValidationData.cpp:485-580 | slice data passes exactly when it is well formed, repeats nothing and points only to defined lists |
| `OrderedMaps.FromEntriesIsStableSort` | src/entities/ValidationData.cpp:502-539 | successive multimap insertion is the stable sort by key |
| `OrderedMaps.RangeSearchIsMembership` | src/entities/ValidationData.cpp:545-566 | a walk from find to the end of the key's range finds exactly the members |
| `OrderedMaps.SuffixSearchIsAbove` | src/entities/ValidationData.cpp:1309-1315 | a walk from find that ignores the end of the range finds exactly what stands under a key at or above, provided the key is there |
| `Validation.ValidationData.GetRelatedUdmSliceProfile` | src/entities/ValidationData.cpp:586-600 | the first related profile, in key order, with the id; a variant of another type met before it throws |
| `Validation.ValidationData.CheckForCreationUdmSubscriptionRules` | src/entities/ValidationData.cpp:602-646 | journal, IMSI, related profile and common rules in this order, with their codes |
| `Validation.ValidationData.CheckForUpdateUdmSubscriptionRules` | src/entities/ValidationData.cpp:648-676 | related resource, related profile and common rules in this order, with their codes |
| `Validation.ValidationData.CheckForCommonUdmSubscriptionRules` | src/entities/ValidationData.cpp:215-584 | the scalar faults, then format, repetition and reference errors of the slice data if there is any |
| `Validation.ValidationData.ComputeMutations` | src/entities/ValidationData.cpp:180-203 | rewrites the profile of a created or updated slice profile, and the slice data of a subscription, and nothing else |
| `Validation.ValidationData.FillIn` | src/entities/ValidationData.cpp:205-213 | the in-place loop gives "Default" to every S-NSSAI without a dnnListId |
| `Mutations.MutateIdempotent` | src/entities/ValidationData.cpp:180-213 | a second rewriting changes nothing, for every change |
| `Mutations.MutationKeeps` | src/entities/ValidationData.cpp:180-213 | rewriting alters nothing but empty dnnListIds (count, order, sst, sd and all other fields are kept) and leaves none empty that it may fill |
| `Mutations.CreateFixpoint` | src/entities/ValidationData.cpp:180-213 | an accepted creation whose sets all have lists, and hasNssai with their single S-NSSAIs, is accepted again after rewriting, rewriting it again changes nothing, and every S-NSSAI then names a dnnList of its own set |
| `Mutations.MutatedCreateAccepted` | src/entities/ValidationData.cpp:694-709 | an accepted creation is accepted again after rewriting exactly when no set without lists has an S-NSSAI whose id was filled |
| `Mutations.EmittedCreationCanBeRejected` | src/entities/ValidationData.cpp:169-213 | a family of creations that are accepted and emitted in a form that is rejected |
| `Mutations.MutatedSliceDataAccepted` | src/entities/ValidationData.cpp:485-580 | accepted slice data is accepted again after rewriting exactly when each PLMN with a filled id has a list "Default" in the slice data or the associated profile |
| `Validation.ValidationData.CheckForCommonUdmRoamingAreaRules` | src/entities/ValidationData.cpp:1419-1456 | the nested loops append one error for an empty list of areas or TACs and one per malformed TAC |
| `RoamingAreaRules.RoamingAreaAccept` | src/entities/ValidationData.cpp:1419-1456 | accepted exactly when there are areas and every list of TACs is non-empty and well formed |
| `Validation.GetWorstResponseCode` | src/entities/SmsValidationData.cpp:11-20 | the loop joins validity by conjunction and codes by maximum |
| `Validation.SmsValidationData.ApplyValidationRules` | src/entities/SmsValidationData.cpp:28-50 | the nested dispatcher appends common errors before specific ones and answers the worst response |
| `Validation.CommonSmsValidationRules.ApplyValidationRules` | src/entities/CommonSmsValidationRules.cpp:131-138 | the three rules R5, R6 and R7 are all evaluated, each appending its error exactly when it is broken |
| `Validation.CreateSpecificSmsValidationRules.ProvJournalIsIncluded` | src/entities/CreateSpecificSmsValidationRules.cpp:14-27 | one "Unprocessable entity" error exactly when the subscriber's journal is missing |
| `Validation.CreateSpecificSmsValidationRules.CheckImsiIsInProvJournal` | src/entities/CreateSpecificSmsValidationRules.cpp:30-45 | called only where the lookup succeeds; an error exactly when the journal has no IMSI |
| `Validation.CreateSpecificSmsValidationRules.ApplyValidationRules` | src/entities/CreateSpecificSmsValidationRules.cpp:47-56 | 422 without a journal, 409 without an IMSI, otherwise 200 |
| `Validation.UpdateSpecificSmsValidationRules.ApplyValidationRules` | src/entities/UpdateSpecificSmsValidationRules.cpp:12-30 | 422 and one error exactly when the path has no related resource |
| `Paths.GroupIsInverse` | src/entities/ValidationData.cpp:13-21 | the lazy group has one solution: the pattern matches exactly head + m + tail, and the group is m |
| `Paths.MscIdRoundTrip` | src/entities/ValidationData.cpp:78-112 | a path is that of mscId m exactly when it is recognised and m is extracted from it, for both kinds of subscription |
| `Paths.JournalsAreNotShared` | src/entities/ValidationData.cpp:124-128 | distinct subscribers never share a journal path |
| `Paths.JournalOfChange` | src/entities/ValidationData.cpp:608-609 | two subscription changes read the same journal exactly when their paths name the same subscriber |
| `VariantAccess.NeverThrowsIffSafe` | src/entities/ValidationData.cpp:586-600 | no change of any kind makes boost::get throw exactly when slice profiles stand under slice profile paths and journals under journal paths |
| `VariantAccess.ParserBuiltIsSafe` | src/ports/json/ValidatorRapidJsonParser.cpp:820-866 | a map built by the parser is such a map exactly when no slice profile path ends in "udmStaticData" or "provJournal" |
| `VariantAccess.ParserBuiltNeverThrows` | src/ports/json/ValidatorRapidJsonParser.cpp:820-866 | hence on the parser's maps no variant access fails exactly under that condition on the paths |
| `ResourceCodec.RelatedFromMembers` | src/ports/json/ValidatorRapidJsonParser.cpp:829-864 | the map is strictly sorted and every entry was read from a member of the same path |
| `ParserEncoder.ValidatorRapidJsonParser.GetRelatedResources` | src/ports/json/ValidatorRapidJsonParser.cpp:820-866 | one pass over the members in document order; the first value of a path is kept, the errors of all are appended |
| `ParserEncoder.ValidatorRapidJsonParser.GetPlmnIdSets` | src/ports/json/ValidatorRapidJsonParser.cpp:898-1679 | the loop over the sets returns the specified values and appends the specified errors |
| `ParserEncoder.ValidatorRapidJsonParser.GetPlmnIdSet` | src/ports/json/ValidatorRapidJsonParser.cpp:903-1676 | one set: identifier, nssai member with its default rule, dnnLists, mandatory unless slice data is read |
| `ParserEncoder.ValidatorRapidJsonParser.GetSliceInfo` | src/ports/json/ValidatorRapidJsonParser.cpp:932-1122 | default and single S-NSSAIs, and hasNssai exactly when the latter member is there |
| `ParserEncoder.ValidatorRapidJsonParser.GetNssais` | src/ports/json/ValidatorRapidJsonParser.cpp:942-1025 | one value per object of the array, one error per other item |
| `ParserEncoder.ValidatorRapidJsonParser.GetDnnLists` | src/ports/json/ValidatorRapidJsonParser.cpp:1153-1668 | one value per object of the array, one error per other item |
| `ParserEncoder.ValidatorRapidJsonParser.GetDnnDataList` | src/ports/json/ValidatorRapidJsonParser.cpp:1180-1657 | one value per object of the array, one error per other item |
| `ParserEncoder.ValidatorRapidJsonParser.GetUdmRoamingAreas` | src/ports/json/ValidatorRapidJsonParser.cpp:1681-1767 | id and areas, the code preferred to the TACs of an area |
| `ParserEncoder.PlmnIdsToJson` | src/ports/json/ValidatorRapidJsonEncoder.cpp:406-635 | the loops write exactly the specified members, in order |
| `ParserEncoder.NssaiToJson` | src/ports/json/ValidatorRapidJsonEncoder.cpp:419-472 | single S-NSSAIs are written only with hasNssai, the member only with hasAnyNssai |
| `ParserEncoder.UdmSliceProfileToJson` | src/ports/json/ValidatorRapidJsonEncoder.cpp:394-404 | vendor members, id and sets of a slice profile |
| `ParserEncoder.UdmRoamingAreaToJson` | src/ports/json/ValidatorRapidJsonEncoder.cpp:637-671 | vendor members, id and areas of a roaming area |
| `ParserEncoder.GetVendorSpecific` | src/ports/json/ValidatorVendorSpecificParser.cpp:17-28 | the loop collects the members whose name starts with "vendorSpecific-", the first of a name kept |
| `ParserEncoder.VendorSpecificToJson` | src/ports/json/ValidatorVendorSpecificEncoder.cpp:23-30 | the loop appends every entry of the map in key order |
| `JsonObjects.ObjectReadBack` | src/ports/json/ValidatorVendorSpecificParser.cpp:12-28 | from an object written as vendor members and fields, the vendor members are read back as they were, and so is every field, absent ones as absent |
| `JsonObjects.VendorOfIsOk` | src/ports/json/ValidatorVendorSpecificParser.cpp:17-28 | whatever the object, the map read has strictly increasing names, all with the prefix |
| `PlmnRoundTrip.DnnDataBack` | src/ports/json/ValidatorRapidJsonParser.cpp:1180-1649 | a written DNN is read back unchanged and without error exactly when it is printable |
| `PlmnRoundTrip.PlmnIdSetBack` | src/ports/json/ValidatorRapidJsonParser.cpp:898-1679 | a written PLMN set is read back unchanged and without error exactly when it is printable |
| `PlmnRoundTrip.PlmnIdSetsRoundTrip` | src/ports/json/ValidatorRapidJsonEncoder.cpp:406-635 | encoding and parsing a list of PLMN sets gives the list and no error exactly when every set is printable |
| `ResourceCodec.SliceProfileRoundTrip` | src/ports/json/ValidatorRapidJsonParser.cpp:868-896 | the same for whole slice profiles |
| `ResourceCodec.RoamingAreaRoundTrip` | src/ports/json/ValidatorRapidJsonParser.cpp:1681-1767 | a written roaming area is read back unchanged and without error exactly when each area holds a code or TACs |
| `EndToEnd.ReadSetsOk` | src/ports/json/ValidatorRapidJsonParser.cpp:898-1679 | whatever the JSON, every PLMN set that is read has sound vendor members, and hasNssai set when it has single S-NSSAIs |
| `EndToEnd.MutationKeepsPrintable` | src/entities/ValidationData.cpp:180-213 | rewriting neither makes nor breaks printable form |
| `EndToEnd.EmittedReadsBack` | src/ports/json/ValidatorRapidJsonEncoder.cpp:406-635 | whatever JSON was read: the rewritten sets, written and read again, come back unchanged and without error exactly when the sets read were printable |
| `EndToEnd.EmittedIsStable` | src/entities/ValidationData.cpp:169-213 | a creation that was read and accepted with lists in every set is emitted in a form that is accepted as it stands, is not rewritten again, and whose S-NSSAIs all name lists of their own sets |
| `LockQueue.StepInv` | src/entities/lockqueue.hpp:13-36 | every step of every thread keeps mutual exclusion, and items popped followed by items queued are the items pushed |
| `LockQueue.StepRefinesFifo` | src/entities/lockqueue.hpp:21-36 | every step is an operation of an atomic first-in first-out queue or leaves it alone: pop takes the then-oldest item although it copies and removes in two steps, front reads it |
| `LockQueue.FifoOverAllRuns` | src/entities/lockqueue.hpp:13-36 | in every state of every run the values returned by pop, in the order of returning, are the first items pushed, each once, and at most one thread holds the mutex |
| `LockQueueWakeups.RunCovered` | src/entities/lockqueue.hpp:13-36 | in every state of every run in which some consumer sleeps, the queued items are at most the threads that owe one plus the items read by woken calls of front |
| `LockQueueWakeups.NoLostWakeup` | src/entities/lockqueue.hpp:21-36 | for clients that only push and pop: while a consumer sleeps and the mutex is free, the queue is no longer than the pushers between unlock and notify plus the consumers woken but not yet testing again |
| `LockQueueWakeups.NobodySleepsOnItems` | src/entities/lockqueue.hpp:21-36 | hence, when no thread owes anything, a sleeping consumer means an empty queue; spurious wakeups are allowed |
| `Formatter.Format` | src/ports/logs/formatter.hpp:18-33 | the loop that masks and re-joins the tokens computes the specified text |
| `Formatter.ReplaceEven` | src/ports/logs/formatter.hpp:24-26 | the stateful predicate replaces the places of even index of a token |
| `Formatter.JoinSplit` | src/ports/logs/formatter.hpp:21-30 | joining undoes splitting, for every text |
| `Formatter.SplitJoin` | src/ports/logs/formatter.hpp:21-30 | splitting undoes joining, for tokens without '-' |
| `Formatter.AnonymizedExactly` | src/ports/logs/formatter.hpp:18-33 | the length and every '-' are kept and exactly the characters at an even distance from the start of a later token become '*' |
| `Formatter.FirstTokenKept` | src/ports/logs/formatter.hpp:30 | no place before the first '-' is replaced |
| `Formatter.AnonymizedIdempotent` | src/ports/logs/formatter.hpp:18-33 | formatting twice is formatting once |
| `Validation.ValidationData.CheckRepeated` | src/entities/ValidationData.cpp:1581-1614 | reports a value exactly when the list holds it, and the list holds it afterwards |
| `Validation.ValidationData.GetNssais` | src/entities/ValidationData.cpp:1370-1383 | the triples (sst, lower-cased sd, dnnListId) in order |
| `Validation.ValidationData.CheckSetOnUpdate` | src/entities/ValidationData.cpp:1238-1297 | one turn of the outer loop: repetition errors of the set, and its (PLMN, list id) pairs inserted into the multimap after those of the sets before |
| `Validation.ValidationData.CheckForDeletedLists` | src/entities/ValidationData.cpp:1306-1328 | one error for each stored pair that the scan misses, in stored order |
| `Validation.ValidationData.CollectSliceData` | src/entities/ValidationData.cpp:510-532 | the two multimaps hold every non-empty reference and every non-empty list id of the slice data, stably sorted by PLMN |
| `Validation.ValidationData.CollectProfileLists` | src/entities/ValidationData.cpp:534-540 | the third multimap holds every list id of the associated profile, the empty one included |
| `Validation.ValidationData.SearchRange` | src/entities/ValidationData.cpp:545-554 | the guarded walk over the range of a key |
| `Validation.ValidationData.CheckProfileAndCommonRules` | src/entities/ValidationData.cpp:678-692 | 422 without the related profile, otherwise the common rules joined to the verdict reached before |
| `Validation.ValidationData.CheckForCreationUdmRoamingAreaRules` | src/entities/ValidationData.cpp:1385-1394 | 200 or 409 as the common rules of roaming areas answer |
| `Validation.ValidationData.CheckForUpdateUdmRoamingAreaRules` | src/entities/ValidationData.cpp:1396-1417 | 422 without a related resource, otherwise as for a creation |
| `Validation.CommonSmsValidationRules.CheckSmsSubscribed` | src/entities/CommonSmsValidationRules.cpp:14-48 | R5 over attributes that may be absent |
| `Validation.CommonSmsValidationRules.CheckMtSmsSubscribed` | src/entities/CommonSmsValidationRules.cpp:52-89 | R6 over attributes that may be absent |
| `Validation.CommonSmsValidationRules.CheckMoSmsSubscribed` | src/entities/CommonSmsValidationRules.cpp:93-129 | R7 over attributes that may be absent |
| `ParserEncoder.ValidatorRapidJsonParser.GetDnnList` | src/ports/json/ValidatorRapidJsonParser.cpp:1154-1661 | one list: id, mandatory, and its DNNs |
| `ParserEncoder.ValidatorRapidJsonParser.GetNssaiOfSet` | src/ports/json/ValidatorRapidJsonParser.cpp:926-1140 | the nssai member and the rule that it must hold a default S-NSSAI |
| `ParserEncoder.DnnListsToJson` | src/ports/json/ValidatorRapidJsonEncoder.cpp:474-635 | the nested loops over lists and DNNs write exactly the specified members, in order |
| `UpdateTheorems.DirtyStoredDataNeverBlocks` | src/entities/ValidationData.cpp:1232-1383 | against a stored profile with distinct keys, however many repetitions it holds, an update that keeps all list ids and whose repeated DNNs and S-NSSAIs are within the stored lists passes the update-specific rules |
| `UpdateTheorems.UnchangedUpdatePasses` | src/entities/ValidationData.cpp:1232-1383 | such a stored profile sent unchanged passes the update-specific rules |
| `UpdateOutcomes.KeepingUpdateAccepted` | src/entities/ValidationData.cpp:711-740 | the dispatcher accepts such an update exactly when it has no PLMN sets or meets the format rules |
| `UpdateTheorems.LostIdsStandAbove` | src/entities/ValidationData.cpp:1306-1327 | whatever stored pair an accepted update loses, the update lists the same id under a greater PLMN identifier |
| `UpdateOutcomes.DeletionCanGoUnreported` | src/entities/ValidationData.cpp:711-740 | for every legal PLMN identifier p and every id a, neither of them "Default": an update that deletes the stored pair (p, a) and that the dispatcher accepts, with valid, 200 and no error |
| `UpdateRules.NssaiCountEnforced` | src/entities/ValidationData.cpp:1550-1576 | for S-NSSAIs the search reports what a count like that of the DNNs would report, place by place, exactly when no stored triple is sent more often than its stored list holds it |
| `UpdateOutcomes.NewNssaiRepetitionTolerated` | src/entities/ValidationData.cpp:711-740 | any legal S-NSSAI that is stored once may be sent any number of times: the dispatcher accepts the update, and rejects a creation with the same data |
| `Mutations.MutatedUpdateAccepted` | src/entities/ValidationData.cpp:711-740 | an update accepted by format and update rules is accepted again after rewriting exactly when no set without lists has an S-NSSAI whose id was filled, and each repeated S-NSSAI whose id was filled is stored with the id "Default" too |
| `MutatedChanges.MutatedChangeAccepted` | src/entities/ValidationData.cpp:130-178 | a change of any kind that the dispatcher accepts is accepted again as emitted, against the same related resources, exactly when the condition of its kind holds, which can be read off the accepted change |
| `MutatedChanges.MutatedThrowsAlike` | src/entities/ValidationData.cpp:130-213 | rewriting does not decide whether a variant access of a change throws |
| `MutatedChanges.EmittedRunAccepted` | src/entities/ValidationData.cpp:130-178 | a list of changes accepted as a whole is accepted again as emitted exactly when that condition holds of every change, and is then emitted as it was sent |
| `UpdateOutcomes.EmittedUpdateCanBeRejected` | src/entities/ValidationData.cpp:169-213 | a family of accepted updates whose emitted form is rejected because the filled id names no list |
| `UpdateOutcomes.EmittedRepetitionCanBeRejected` | src/entities/ValidationData.cpp:169-213 | a family of accepted updates whose emitted form is rejected because the stored triple has the empty id |
| `LockQueueWakeups.FrontLosesWakeup` | src/entities/lockqueue.hpp:13-36 | for every waiting call and every item, a run of that call, one call of front and one push that ends with a consumer asleep on a non-empty queue that nobody will serve |
| `LockQueueWakeups.NeverStrandedIffNoFront` | src/entities/lockqueue.hpp:13-36 | over all runs of any number of threads whose waiting calls are in a given set: no state ever has a consumer asleep on a non-empty queue while nobody owes an item, exactly when front is not in the set |
| `EndToEnd.EmittedProfileReadsBack` | src/ports/json/ValidatorRapidJsonParser.cpp:868-896 | whatever JSON a slice profile was read from: rewritten, written and read again it is the same, without error, exactly when its sets were printable |
| `EndToEnd.CreationThroughTheService` | src/entities/ValidationData.cpp:130-178 | a creation read without error and accepted with lists in every set is read again from what was written, to the same profile and without error, exactly when its sets were printable; the change read again is accepted, is not rewritten any more, and its S-NSSAIs all name lists of their own sets |
| `Repetitions.CreationRepetitions` | src/entities/ValidationData.cpp:1469-1534 | a creation has no repetition error exactly when in every set no two S-NSSAIs, default and single together, have equal sst and equal lower-cased sd, and in every list no two non-empty DNNs are equal ignoring case |
| `Repetitions.DnnReportsExact` | src/entities/ValidationData.cpp:1265-1293 | on the DNN records: a DNN that stands at n places of the sent list and m places of the stored one, ignoring case, is reported at max(0, n - max(1, m)) of them, and the errors of the list are as many as its reported places |
| `Repetitions.NssaiReportedExactly` | src/entities/ValidationData.cpp:1536-1579 | on update a place is reported exactly when an earlier place has equal sst and lower-cased sd, and no S-NSSAI of its kind in the first stored set of its PLMN has equal sst, lower-cased sd and dnnListId |
| `Repetitions.SetErrorsArePlaces` | src/entities/ValidationData.cpp:1238-1297 | the repetition errors of a set, on creation and on update, are as many as its reported places, S-NSSAIs and DNNs together |
| `Repetitions.LookedUpDnns` | src/entities/ValidationData.cpp:1333-1351 | what is looked up for a list are the DNNs of the first stored list of its PLMN and id, none if there is none |
| `Repetitions.FirstSetFound` | src/entities/ValidationData.cpp:1353-1368 | what is looked up for a set are the S-NSSAIs, by kind, of the first stored set of its PLMN |
| `Repetitions.UpdateRepetitions` | src/entities/ValidationData.cpp:1232-1331 | in terms of the fields: the update-specific rules append nothing exactly when every repetition is excused by what is stored and every stored list is found by the scan |
| `Answers.RelatedProfileExactly` | src/entities/ValidationData.cpp:586-600 | a profile is found exactly when it has the id, stands under a slice profile path and only profiles of other ids stand before it; none exactly when all entries under such paths are profiles of other ids; a throw exactly when a wrong variant stands before the first fit |
| `Answers.CreateSubscriptionAnswer` | src/entities/ValidationData.cpp:602-646 | 422 and one error without the journal of the subscriber; otherwise 422 without a related profile of the id, after the error of a missing IMSI, and 200 or 409 with one, as the IMSI and the rules in terms of the fields decide |
| `Answers.UpdateSubscriptionAnswer` | src/entities/ValidationData.cpp:648-676 | 422 and one error without the stored subscription; otherwise 422, 200 or 409 as the related profile of the id and the rules decide |
| `Answers.AcceptedSubscription` | src/entities/ValidationData.cpp:602-676 | a subscription is accepted exactly when the first related profile of its id is reached and its rules are met, and on creation the journal has an IMSI, on update the subscription is stored |
| `Answers.CreateProfileAnswer` | src/entities/ValidationData.cpp:694-709 | 200 exactly when the fields meet format and repetition rules, otherwise 409 |
| `Answers.UpdateProfileAnswer` | src/entities/ValidationData.cpp:711-740 | 422 and one error without a stored resource, 200 exactly when the fields meet format rules and update rules, otherwise 409 |
| `Answers.CreateRoamingAreaAnswer` | src/entities/ValidationData.cpp:1385-1394 | 200 exactly when there are areas and every list of TACs is non-empty and well formed, otherwise 409 |
| `Answers.UpdateRoamingAreaAnswer` | src/entities/ValidationData.cpp:1396-1417 | 422 and one error exactly when the path has no related resource, otherwise the answer to the creation |
| `Answers.CreateSmsAnswer` | src/entities/SmsValidationData.cpp:28-50 | 422 without the journal, its error after those of the common rules; otherwise 200 exactly when R5, R6 and R7 hold and the journal has an IMSI |
| `Answers.UpdateSmsAnswer` | src/entities/SmsValidationData.cpp:28-50 | 422 without a related resource, otherwise 200 exactly when R5, R6 and R7 hold |
| `Answers.OtherAnswer` | src/entities/ValidationData.cpp:134-162 | an SMS subscription is accepted unread by other operations; any other change is accepted without an error when it is a deletion and otherwise answered with 422 and one error |
| `Text.EqualIgnoringCase` | src/entities/ValidationData.cpp:1266 | two texts are lowered to the same text exactly when they agree letter by letter, in either case |
| `SliceProfileRules.LegalValues` | src/ports/json/JsonConstants.hpp:133-147 | the enumerations hold exactly the values that the code compares with |
| `Patterns.FormatsMatch` | src/entities/ValidationData.cpp:32-62 | the predicates of PLMN identifiers, sd, charging characteristics and TACs are whole matches of the regular expressions of the code |
| `Patterns.UuidMatches` | src/entities/ValidationData.cpp:64-67 | the predicate of UUIDs is a whole match of the expression of the code |
| `Patterns.BitRateMatches` | src/entities/ValidationData.cpp:29-30 | the predicate of bit rates is a whole match of the expression of the code |
| `Mutations.OthersAreNotRewritten` | src/entities/ValidationData.cpp:180-203 | a change whose path names neither a created or updated slice profile nor a subscription is emitted as it was sent |
| `JsonShapes.FaultsNone` | src/ports/json/ValidatorRapidJsonParser.cpp:908-1025 | an object has no deviation from its shape exactly when every member looked for is absent or of its type, at any depth, and the mandatory ones are there |
| `JsonShapes.OneFault` | src/ports/json/ValidatorRapidJsonParser.cpp:908-1025 | when all members but one fit, the deviations are those of that one: exactly one error when it is of the wrong type or missing |
| `JsonShapes.OneItemFault` | src/ports/json/ValidatorRapidJsonParser.cpp:942-1025 | when all items of an array of objects but one are well typed, the deviations are those of that one |
| `ReadTypes.DnnDataFaults` | src/ports/json/ValidatorRapidJsonParser.cpp:1184-1649 | the errors of reading a DNN are its deviations from its shape, in the order of the code |
| `ReadTypes.PlmnIdSetFaults` | src/ports/json/ValidatorRapidJsonParser.cpp:908-1676 | the errors of reading a PLMN set are the deviations of its three members, and one error if an nssai member holds no default S-NSSAI, in this order |
| `ReadTypes.PlmnIdSetReadsClean` | src/ports/json/ValidatorRapidJsonParser.cpp:898-1679 | reading a PLMN set reports nothing exactly when its tree is well typed |
| `ReadTypes.OneWrongMember` | src/ports/json/ValidatorRapidJsonParser.cpp:908-1676 | a member of the wrong type gives exactly its own error, and an nssai member of the wrong type besides the error of a missing default S-NSSAI |
| `ReadTypes.SliceProfileReadsClean` | src/ports/json/ValidatorRapidJsonParser.cpp:868-896 | reading a slice profile reports nothing exactly when its id is absent or a text and the sets of an array of sets are well typed |
| `ReadTypes.AreaFaults` | src/ports/json/ValidatorRapidJsonParser.cpp:1698-1756 | the errors of reading an area: a code that is no text, neither code nor TACs, or TACs that are no array of texts; none exactly when it is well typed |
| `ReadTypes.RoamingAreaReadsClean` | src/ports/json/ValidatorRapidJsonParser.cpp:1681-1767 | reading a roaming area reports nothing exactly when its id is absent or a text and its areas are absent or an array of well-typed objects |
| `ReadValues.PlmnIdSetRead` | src/ports/json/ValidatorRapidJsonParser.cpp:898-1679 | whatever the JSON, each field of the set read is the member of its name, at every depth, and each list of values the objects of the array in order |
| `ReadValues.SliceProfileRead` | src/ports/json/ValidatorRapidJsonParser.cpp:868-896 | the same for slice profiles |
| `ReadValues.RoamingAreaRead` | src/ports/json/ValidatorRapidJsonParser.cpp:1681-1767 | the same for roaming areas |
| `JsonObjects.VendorOfExactly` | src/ports/json/ValidatorVendorSpecificParser.cpp:12-28 | the map read holds exactly the first member of each name with the prefix |
| `ResourceCodec.RelatedKeepsFirst` | src/ports/json/ValidatorRapidJsonParser.cpp:829-864 | the map holds, for each path that is read, the resource read from the first member of that path, and nothing else |
| `VariantAccess.JournalIsRead` | src/ports/json/ValidatorRapidJsonParser.cpp:820-866 | the journal that the rules look up is read from the first member of its path, and its IMSI is the text of the member "imsi", empty when there is none |
| `ReadTypes.RelatedReadsClean` | src/ports/json/ValidatorRapidJsonParser.cpp:820-866 | the errors of the related resources are those of all their members in document order, none exactly when every slice profile and roaming area among them is well typed |

## Left out

- CheckForCommonUdmSubscriptionRules: the scalar checks of lines 219-483 are one branch each; a subscription carries the list of the faults they find, in order, and the model appends one error for each.
- ApplyValidationRules: the exception that `boost::get` throws is an answer that is missing; what the server does with it is not modelled.
- GetPlmnIdSets: an item of the array that is no object trips an assertion in rapidjson; the method requires objects, and the specification function gives such an item no value.
- GetRelatedResources: of a journal only the IMSI is read, and subscriptions and SMS data are read as opaque variants without parse errors of their own; no rule looks inside them. The value of a resource under a slice profile or roaming area path that is no object trips an assertion in rapidjson; the model reads it as an object without members.
- GetSliceInfo: the parsing-error flag of the parser and the HTTP 400 answer it leads to are not modelled.
- GetDnnDataList: the attributes of one DNN, and the other objects that hold no list of objects, are read and written by specification functions and not statement by statement; the loops around them are methods.
- ComputeMutations: the C++ loops write into vector elements through references; here the sequence is reassigned, so aliasing is not captured. Vendor-specific values, which the original holds as references into the JSON document, are values.
- StepInv: the queue is a step system and no class; memory ordering below the level of the mutex, fairness and `LockQueue::empty`, which reads without the lock, are not modelled.
- CheckSmsSubscribed: R5, R6 and R7 are finite boolean facts with no theorem beyond their contracts; the contracts of the methods serve the coherence of errors and verdict.
- Existence flags paired with a value are options; fields that the C++ code leaves uninitialised have a fixed default.
- Reading and writing `udmStaticData` and SMS data: their round trip does not hold in general, because vendor-specific members of `udmSliceData` are read (`ValidatorRapidJsonParser.cpp:696-698`) but not written (`ValidatorRapidJsonEncoder.cpp:316-323`).
- Two entries of one JSON object with the same name are kept in order and the first is found, as rapidjson does; the text of JSON, numbers beyond 32 bits and pretty printing are not modelled.
- The regular expressions are definitions over strings without NUL and line breaks; lower-casing is that of ASCII; `boost::split` is a function.
- The wording of error descriptions: an error holds its message kind, its path and a structured description. Logging is left out.
- HTTP/2 server, OpenAPI validation, environment, monitoring, `Context`, `ProblemDetails`, `JsonFormatter` and `main`: plumbing, or members that would only add easy facts.
