# Managed identity wallet: domain layer in Dafny

This project models the domain layer of the Cofinity-X / Eclipse Tractus-X
managed identity wallet, a service that keeps one wallet per business partner
(identified by a BPN, a Business Partner Number) and stores the verifiable
credentials issued to it. It covers four parts.

- **Identifier value objects.**
  - `Identifier` accepts a restricted `did:web` DID: lower-case host, optional
    `%3A` port, then `:BPNL` and twelve lower-case hex digits.
  - `CredentialId` accepts such a DID followed by `#` and a lower-case UUID.
    It also tolerates null.
  - Each regular expression is written twice: as a recogniser over strings,
    and as a pattern predicate that keeps every `\b` word-boundary
    assertion. Lemmas prove the two accept the same strings.
- **Closed vocabularies.** `SortColumn`, `TypeToSearch` and
  `FrameworkCredentialType` each look up a constant by its label. All three
  share one generic linear search (`Vocabulary.Find`). Round-trip and
  distinctness lemmas come with them.
- **Command builders.**
  - Each builder is a class whose `Option` fields stand for Java's nullable
    fields.
  - Setters return `Fail(NullPointer(field))` on a null argument and leave the
    field unchanged.
  - `Build` returns `Err(IllegalState(field))` for the first missing field,
    in the order the source checks them.
  - The range rules (page numbers and sizes) are preserved as the builder's
    `Valid()` invariant.
- **Services.**
  - The wallet aggregate's de-duplicating context-URL merge is proved
    against a reference definition (`Fresh`). URLs are compared as
    `URI.equals` compares them, through a key function given as a parameter.
  - `CommonService` holds the case-insensitive `did:` test, the expiry check
    that writes into a response map, and the not-found wallet lookups.
  - `WalletService` holds wallet creation, with the authority and duplicate
    checks in the source's order, and the idempotent start-up creation of the
    authority wallet.
  - It also holds credential storage (ownership, then type checks, then the
    derived type label) and the wallet read (exact authority comparison,
    then a case-insensitive ownership check).
  - The repositories are one `WalletStore` class holding sequences.

Java exceptions become the constructors of `Wrappers.Error`:

| Java exception | `Wrappers.Error` constructor |
|---|---|
| NullPointerException | `NullPointer(field)` |
| IllegalArgumentException | `IllegalArgument` |
| IllegalStateException | `IllegalState(reason)` |
| ForbiddenException | `Forbidden` |
| DuplicateWalletProblem | `Duplicate` |
| WalletNotFoundProblem | `NotFound` |
| BadDataException | `BadData` |

A Java `null` becomes `None`.

## Model

| member | source | states |
|---|---|---|
| `Identifiers.RecogniserMatchesPattern` | src/main/java/org/eclipse/tractusx/managedidentitywallets/domain/Identifier.java:31 | every string the recogniser accepts matches the regular expression, with every `\b` holding |
| `Identifiers.PatternMatchIsAccepted` | src/main/java/org/eclipse/tractusx/managedidentitywallets/domain/Identifier.java:31 | every full match of the regular expression, word boundaries included, is accepted by the recogniser; the boundaries force a non-empty host ending in a letter |
| `Identifiers.PatternIffRecogniser` | src/main/java/org/eclipse/tractusx/managedidentitywallets/domain/Identifier.java:31 | a string fully matches the Identifier pattern if and only if the recogniser accepts it |
| `Identifiers.PortLength` | src/main/java/org/eclipse/tractusx/managedidentitywallets/domain/Identifier.java:31 | the length of the `%3A` port suffix it finds is such that the rest is a valid host, or the whole text is a host when no port is found |
| `Identifiers.ParseThenRender` | src/main/java/org/eclipse/tractusx/managedidentitywallets/domain/Identifier.java:31 | every accepted string decomposes into host, optional port and BPN suffix, and re-assembling them gives the string back |
| `Identifiers.RenderThenParse` | src/main/java/org/eclipse/tractusx/managedidentitywallets/domain/Identifier.java:31 | every well-formed host, port (2 to 5 digits) and BPN suffix assembles into an accepted string that decomposes back into the same parts |
| `Identifiers.NewIdentifier` | src/main/java/org/eclipse/tractusx/managedidentitywallets/domain/Identifier.java:35-48 | the constructor succeeds exactly when the pattern accepts the string, the value is the argument unchanged, and otherwise it fails with IllegalArgument |
| `IdentifierExamples.AcceptsPlainHost` | src/main/java/org/eclipse/tractusx/managedidentitywallets/domain/Identifier.java:31 | `did:web:` + lower-case host + `:BPNL` + 12 hex digits is accepted |
| `IdentifierExamples.AcceptsHostWithPort` | src/main/java/org/eclipse/tractusx/managedidentitywallets/domain/Identifier.java:31 | a host followed by `%3A` and a port of 2 to 5 digits is accepted |
| `IdentifierExamples.RejectsEmptyHost` | src/main/java/org/eclipse/tractusx/managedidentitywallets/domain/Identifier.java:31 | `did:web::BPNL…` is rejected, because of the word boundary |
| `IdentifierExamples.RejectsHostEndingInDot` | src/main/java/org/eclipse/tractusx/managedidentitywallets/domain/Identifier.java:31 | a host ending in `.` is rejected |
| `IdentifierExamples.RejectsDigitInHost` | src/main/java/org/eclipse/tractusx/managedidentitywallets/domain/Identifier.java:31 | a digit in the host is rejected |
| `IdentifierExamples.RejectsDashInHost` | src/main/java/org/eclipse/tractusx/managedidentitywallets/domain/Identifier.java:31 | a `-` in the host is rejected |
| `IdentifierExamples.RejectsUpperCaseHost` | src/main/java/org/eclipse/tractusx/managedidentitywallets/domain/Identifier.java:31 | an upper-case letter in the host is rejected |
| `IdentifierExamples.RejectsLowerCasePortEscape` | src/main/java/org/eclipse/tractusx/managedidentitywallets/domain/Identifier.java:31 | a port escaped as `%3a` is rejected |
| `IdentifierExamples.RejectsOneDigitPort` | src/main/java/org/eclipse/tractusx/managedidentitywallets/domain/Identifier.java:31 | a one-digit port is rejected |
| `IdentifierExamples.RejectsSixDigitPort` | src/main/java/org/eclipse/tractusx/managedidentitywallets/domain/Identifier.java:31 | a six-digit port is rejected |
| `IdentifierExamples.RejectsBareBpn` | src/main/java/org/eclipse/tractusx/managedidentitywallets/domain/Identifier.java:31 | a bare BPN such as `BPNL000000000001` is rejected |
| `IdentifierExamples.RejectsOtherBpnPrefixes` | src/main/java/org/eclipse/tractusx/managedidentitywallets/domain/Identifier.java:31 | a `BPNS` or `BPNA` suffix is rejected: only `BPNL` is accepted |
| `IdentifierExamples.RejectsUpperCaseHex` | src/main/java/org/eclipse/tractusx/managedidentitywallets/domain/Identifier.java:31 | upper-case hex in the BPN suffix is rejected |
| `CredentialIds.HexIsWord` | src/main/java/org/eclipse/tractusx/managedidentitywallets/domain/CredentialId.java:35 | a lower-case hex digit is a word character for `\b` |
| `CredentialIds.BoundariesAlwaysHold` | src/main/java/org/eclipse/tractusx/managedidentitywallets/domain/CredentialId.java:35 | in any string of the credential-id shape, all five `\b` positions lie between a hex digit and `#` or `-`, so they hold |
| `CredentialIds.ShapeIffRecogniser` | src/main/java/org/eclipse/tractusx/managedidentitywallets/domain/CredentialId.java:35 | the pattern without its word boundaries accepts exactly the strings the recogniser accepts |
| `CredentialIds.PatternIffRecogniser` | src/main/java/org/eclipse/tractusx/managedidentitywallets/domain/CredentialId.java:35 | a string fully matches the CredentialId pattern, boundaries included, if and only if the recogniser accepts it |
| `CredentialIds.NewCredentialId` | src/main/java/org/eclipse/tractusx/managedidentitywallets/domain/CredentialId.java:37-51 | null is accepted unchecked and kept as null; a string is accepted, unchanged, exactly when it matches, and otherwise fails with IllegalArgument |
| `CredentialIdExamples.AcceptsTestId` | src/test/java/org/eclipse/tractusx/managedidentitywallets/domain/CredentialIdTest.java:37-46 | the test's `did:web:localhost:BPNL000000000000#12528899-…` id is accepted |
| `CredentialIdExamples.RejectsHallo` | src/test/java/org/eclipse/tractusx/managedidentitywallets/domain/CredentialIdTest.java:37-46 | `"hallo"` fails with IllegalArgument |
| `CredentialIdExamples.AcceptsNull` | src/main/java/org/eclipse/tractusx/managedidentitywallets/domain/CredentialId.java:37-51 | a null id is accepted and its value is null |
| `CredentialIdExamples.AcceptsEmptyHost` | src/main/java/org/eclipse/tractusx/managedidentitywallets/domain/CredentialId.java:35 | an empty host is accepted here, although Identifier rejects the same DID |
| `CredentialIdExamples.AcceptsHostEndingInDot` | src/main/java/org/eclipse/tractusx/managedidentitywallets/domain/CredentialId.java:35 | a host ending in `.` is accepted |
| `CredentialIdExamples.RejectsPort` | src/main/java/org/eclipse/tractusx/managedidentitywallets/domain/CredentialId.java:35 | a `%3A` port is rejected |
| `CredentialIdExamples.RejectsUpperCaseUuid` | src/main/java/org/eclipse/tractusx/managedidentitywallets/domain/CredentialId.java:35 | upper-case hex in the UUID fragment is rejected |
| `CredentialIdExamples.RejectsMissingDash` | src/main/java/org/eclipse/tractusx/managedidentitywallets/domain/CredentialId.java:35 | a UUID whose first dash is replaced by another character is rejected |
| `Vocabulary.Find` | src/main/java/org/eclipse/tractusx/managedidentitywallets/domain/SortColumn.java:46-53 | the linear label search returns a listed value carrying the label, and the first such value; it returns nothing exactly when no value carries the label |
| `Vocabulary.FindInverse` | src/main/java/org/eclipse/tractusx/managedidentitywallets/domain/TypeToSearch.java:36-43 | over pairwise distinct labels, searching for a listed value's label gives back that value |
| `SortColumns.Ordinal` | src/main/java/org/eclipse/tractusx/managedidentitywallets/domain/SortColumn.java:29-38 | every sort column sits at its own position in the declared constant list |
| `SortColumns.LabelListed` | src/main/java/org/eclipse/tractusx/managedidentitywallets/domain/SortColumn.java:29-38 | a text is the label of some sort column exactly when it is the label of a constant in the declared list |
| `SortColumns.LabelsDistinct` | src/main/java/org/eclipse/tractusx/managedidentitywallets/domain/SortColumn.java:29-38 | the seven labels are pairwise distinct |
| `SortColumns.ValueOfColumn` | src/main/java/org/eclipse/tractusx/managedidentitywallets/domain/SortColumn.java:46-53 | the lookup succeeds exactly when the text is non-null and equals a constant's label, returning that constant; otherwise IllegalArgument, never a default |
| `SortColumns.ValueOfColumnInverse` | src/main/java/org/eclipse/tractusx/managedidentitywallets/domain/SortColumn.java:29-53 | looking up a column's own label gives back that column |
| `SortColumns.RejectsUnknownLabel` | src/main/java/org/eclipse/tractusx/managedidentitywallets/domain/SortColumn.java:46-53 | any label outside the seven fails with IllegalArgument |
| `SortColumns.RejectsCapitalisedLabel` | src/main/java/org/eclipse/tractusx/managedidentitywallets/domain/SortColumn.java:48 | matching is case-sensitive: `"CreatedAt"` is rejected |
| `TypesToSearch.Ordinal` | src/main/java/org/eclipse/tractusx/managedidentitywallets/domain/TypeToSearch.java:26-28 | every type sits at its own position in the declared constant list |
| `TypesToSearch.LabelListed` | src/main/java/org/eclipse/tractusx/managedidentitywallets/domain/TypeToSearch.java:26-28 | a text is the label of some type exactly when it is the label of a constant in the declared list |
| `TypesToSearch.LabelsDistinct` | src/main/java/org/eclipse/tractusx/managedidentitywallets/domain/TypeToSearch.java:26-28 | the three labels are pairwise distinct |
| `TypesToSearch.ValueOfType` | src/main/java/org/eclipse/tractusx/managedidentitywallets/domain/TypeToSearch.java:36-43 | the lookup succeeds exactly when the text equals a constant's label, returning that constant; otherwise IllegalArgument |
| `TypesToSearch.ValueOfTypeInverse` | src/main/java/org/eclipse/tractusx/managedidentitywallets/domain/TypeToSearch.java:26-43 | looking up a type's own label gives back that type |
| `TypesToSearch.RejectsUnknownLabel` | src/main/java/org/eclipse/tractusx/managedidentitywallets/domain/TypeToSearch.java:36-43 | any label outside the three fails with IllegalArgument |
| `TypesToSearch.RejectsLowerCaseLabel` | src/main/java/org/eclipse/tractusx/managedidentitywallets/domain/TypeToSearch.java:38 | matching is case-sensitive: a lower-cased label is rejected |
| `IssueFrameworkCredentialCommands.Ordinal` | src/main/java/org/eclipse/tractusx/managedidentitywallets/domain/command/IssueFrameworkCredentialCommand.java:131-143 | every framework credential type sits at its own position in the declared list |
| `IssueFrameworkCredentialCommands.LabelListed` | src/main/java/org/eclipse/tractusx/managedidentitywallets/domain/command/IssueFrameworkCredentialCommand.java:131-143 | a text is the label of some framework credential type exactly when it is the label of a constant in the declared list |
| `IssueFrameworkCredentialCommands.LabelsDistinct` | src/main/java/org/eclipse/tractusx/managedidentitywallets/domain/command/IssueFrameworkCredentialCommand.java:131-143 | the six labels are pairwise distinct |
| `IssueFrameworkCredentialCommands.ValueOfType` | src/main/java/org/eclipse/tractusx/managedidentitywallets/domain/command/IssueFrameworkCredentialCommand.java:145-152 | the lookup succeeds exactly when the text equals a constant's label, returning that constant; otherwise IllegalArgument |
| `IssueFrameworkCredentialCommands.ValueOfTypeInverse` | src/main/java/org/eclipse/tractusx/managedidentitywallets/domain/command/IssueFrameworkCredentialCommand.java:131-152 | looking up a type's own label gives back that type |
| `IssueFrameworkCredentialCommands.RejectsUnknownLabel` | src/main/java/org/eclipse/tractusx/managedidentitywallets/domain/command/IssueFrameworkCredentialCommand.java:145-152 | any label outside the six fails with IllegalArgument |
| `IssueFrameworkCredentialCommands.RejectsBritishSpelling` | src/main/java/org/eclipse/tractusx/managedidentitywallets/domain/command/IssueFrameworkCredentialCommand.java:133 | `"BehaviourTwinCredential"` is rejected; the accepted label is `"BehaviorTwinCredential"` |
| `IssueFrameworkCredentialCommands.Builder.constructor` | src/main/java/org/eclipse/tractusx/managedidentitywallets/domain/command/IssueFrameworkCredentialCommand.java:75-85 | a new builder has every field unset |
| `IssueFrameworkCredentialCommands.Builder.SetHolderIdentifier` | src/main/java/org/eclipse/tractusx/managedidentitywallets/domain/command/IssueFrameworkCredentialCommand.java:93-96 | null gives NullPointer and leaves the field as it was; otherwise the field holds the argument |
| `IssueFrameworkCredentialCommands.Builder.SetContractTemplate` | src/main/java/org/eclipse/tractusx/managedidentitywallets/domain/command/IssueFrameworkCredentialCommand.java:98-101 | null gives NullPointer and leaves the field as it was; otherwise the field holds the argument |
| `IssueFrameworkCredentialCommands.Builder.SetContractVersion` | src/main/java/org/eclipse/tractusx/managedidentitywallets/domain/command/IssueFrameworkCredentialCommand.java:103-106 | null gives NullPointer and leaves the field as it was; otherwise the field holds the argument |
| `IssueFrameworkCredentialCommands.Builder.SetType` | src/main/java/org/eclipse/tractusx/managedidentitywallets/domain/command/IssueFrameworkCredentialCommand.java:108-111 | null gives NullPointer and leaves the field as it was; otherwise the field holds the argument |
| `IssueFrameworkCredentialCommands.Builder.SetCaller` | src/main/java/org/eclipse/tractusx/managedidentitywallets/domain/command/IssueFrameworkCredentialCommand.java:113-116 | null gives NullPointer and leaves the field as it was; otherwise the field holds the argument |
| `IssueFrameworkCredentialCommands.Builder.Build` | src/main/java/org/eclipse/tractusx/managedidentitywallets/domain/command/IssueFrameworkCredentialCommand.java:43-128 | it succeeds exactly when all five fields are set; the first unset field (holderIdentifier, type, contractTemplate, contractVersion, caller) decides the IllegalState; a built command carries the builder's values |
| `IssueFrameworkCredentialCommands.BuildWithEmptyContract` | src/main/java/org/eclipse/tractusx/managedidentitywallets/domain/command/IssueFrameworkCredentialCommand.java:98-128 | empty contract template and version strings build successfully |
| `IssueFrameworkCredentialCommands.NullSetterKeepsValue` | src/main/java/org/eclipse/tractusx/managedidentitywallets/domain/command/IssueFrameworkCredentialCommand.java:98-101 | a null contract template passed after a real value leaves the earlier value in place, and the build uses it |
| `IssueDismantlerCredentialCommands.Builder.constructor` | src/main/java/org/eclipse/tractusx/managedidentitywallets/domain/command/IssueDismantlerCredentialCommand.java:57-65 | a new builder has every field unset |
| `IssueDismantlerCredentialCommands.Builder.WithBpn` | src/main/java/org/eclipse/tractusx/managedidentitywallets/domain/command/IssueDismantlerCredentialCommand.java:73-76 | null gives NullPointer and leaves the field as it was; otherwise the field holds the argument |
| `IssueDismantlerCredentialCommands.Builder.WithCaller` | src/main/java/org/eclipse/tractusx/managedidentitywallets/domain/command/IssueDismantlerCredentialCommand.java:78-81 | null gives NullPointer and leaves the field as it was; otherwise the field holds the argument |
| `IssueDismantlerCredentialCommands.Builder.WithActivityType` | src/main/java/org/eclipse/tractusx/managedidentitywallets/domain/command/IssueDismantlerCredentialCommand.java:83-86 | null gives NullPointer and leaves the field as it was; otherwise the field holds the argument |
| `IssueDismantlerCredentialCommands.Builder.WithAllowedVehicleBrands` | src/main/java/org/eclipse/tractusx/managedidentitywallets/domain/command/IssueDismantlerCredentialCommand.java:88-91 | null gives NullPointer and leaves the field as it was; otherwise the field holds the set |
| `IssueDismantlerCredentialCommands.Builder.Build` | src/main/java/org/eclipse/tractusx/managedidentitywallets/domain/command/IssueDismantlerCredentialCommand.java:39-102 | it succeeds exactly when bpn, caller and activityType are set, checked in that order; brands are never checked; a built command carries the builder's values |
| `IssueDismantlerCredentialCommands.BuildWithoutBrands` | src/main/java/org/eclipse/tractusx/managedidentitywallets/domain/command/IssueDismantlerCredentialCommand.java:93-102 | a builder whose brands were never set builds, with no brands |
| `IssueDismantlerCredentialCommands.BuildWithEmptyBrands` | src/main/java/org/eclipse/tractusx/managedidentitywallets/domain/command/IssueDismantlerCredentialCommand.java:93-102 | an empty brand set builds |
| `IssueDismantlerCredentialCommands.BuildWithOnlyBrands` | src/main/java/org/eclipse/tractusx/managedidentitywallets/domain/command/IssueDismantlerCredentialCommand.java:93-102 | brands alone do not build: the missing bpn is reported |
| `CommandCredentialSearch.Builder.constructor` | src/main/java/org/eclipse/tractusx/managedidentitywallets/domain/command/CredentialSearch.java:96-110 | a new builder has every optional field unset and both page values 0 |
| `CommandCredentialSearch.Builder.WithCredentialId` | src/main/java/org/eclipse/tractusx/managedidentitywallets/domain/command/CredentialSearch.java:119-123 | null gives NullPointer and leaves the field as it was; otherwise the field holds the argument |
| `CommandCredentialSearch.Builder.WithIdentifier` | src/main/java/org/eclipse/tractusx/managedidentitywallets/domain/command/CredentialSearch.java:125-128 | null gives NullPointer and leaves the field as it was; otherwise the field holds the argument |
| `CommandCredentialSearch.Builder.WithTypesToSearch` | src/main/java/org/eclipse/tractusx/managedidentitywallets/domain/command/CredentialSearch.java:130-133 | null gives NullPointer and leaves the field as it was; otherwise the field holds the argument |
| `CommandCredentialSearch.Builder.WithSort` | src/main/java/org/eclipse/tractusx/managedidentitywallets/domain/command/CredentialSearch.java:135-142 | a null column or sort type gives NullPointer (column first) and leaves the sort as it was; otherwise the sort holds the column's label and the sort type |
| `CommandCredentialSearch.Builder.WithPageNumber` | src/main/java/org/eclipse/tractusx/managedidentitywallets/domain/command/CredentialSearch.java:145-150 | a negative page number gives IllegalArgument and leaves the old value; otherwise it is stored; the page values stay non-negative |
| `CommandCredentialSearch.Builder.WithPageSize` | src/main/java/org/eclipse/tractusx/managedidentitywallets/domain/command/CredentialSearch.java:152-157 | a negative page size gives IllegalArgument and leaves the old value; otherwise it is stored; the page values stay non-negative |
| `CommandCredentialSearch.Builder.WithCallerBpn` | src/main/java/org/eclipse/tractusx/managedidentitywallets/domain/command/CredentialSearch.java:159-162 | it stores the argument, null included, without failing |
| `CommandCredentialSearch.Builder.Build` | src/main/java/org/eclipse/tractusx/managedidentitywallets/domain/command/CredentialSearch.java:54-171 | it succeeds exactly when sort and callerBpn are set, sort checked first, whatever the optional fields; a built search copies every builder field and has non-negative page values |
| `CommandCredentialSearch.NullCallerBpnFailsAtBuild` | src/main/java/org/eclipse/tractusx/managedidentitywallets/domain/command/CredentialSearch.java:159-171 | a null caller BPN is accepted by its setter, and the build then fails on it |
| `CommandCredentialSearch.MinimalSearch` | src/main/java/org/eclipse/tractusx/managedidentitywallets/domain/command/CredentialSearch.java:106-117 | sort and caller alone build a search with pages 0 and no filters |
| `CommandCredentialSearch.NegativePageKeepsEarlierPage` | src/main/java/org/eclipse/tractusx/managedidentitywallets/domain/command/CredentialSearch.java:145-150 | a rejected negative page number leaves the earlier page number in the built search |
| `DomainCredentialSearch.Builder.constructor` | src/main/java/org/eclipse/tractusx/managedidentitywallets/domain/CredentialSearch.java:95-111 | a new builder has every optional field unset and both page values 0 |
| `DomainCredentialSearch.Builder.WithCredentialId` | src/main/java/org/eclipse/tractusx/managedidentitywallets/domain/CredentialSearch.java:120-124 | null gives NullPointer and leaves the field as it was; otherwise the field holds the argument |
| `DomainCredentialSearch.Builder.WithIdentifier` | src/main/java/org/eclipse/tractusx/managedidentitywallets/domain/CredentialSearch.java:126-129 | null gives NullPointer and leaves the field as it was; otherwise the field holds the argument |
| `DomainCredentialSearch.Builder.WithTypesToSearch` | src/main/java/org/eclipse/tractusx/managedidentitywallets/domain/CredentialSearch.java:131-134 | null gives NullPointer and leaves the field as it was; otherwise the field holds the argument |
| `DomainCredentialSearch.Builder.WithSortColumn` | src/main/java/org/eclipse/tractusx/managedidentitywallets/domain/CredentialSearch.java:136-139 | null gives NullPointer and leaves the field as it was; otherwise the field holds the argument |
| `DomainCredentialSearch.Builder.WithSortType` | src/main/java/org/eclipse/tractusx/managedidentitywallets/domain/CredentialSearch.java:141-144 | null gives NullPointer and leaves the field as it was; otherwise the field holds the argument |
| `DomainCredentialSearch.Builder.WithPageNumber` | src/main/java/org/eclipse/tractusx/managedidentitywallets/domain/CredentialSearch.java:146-151 | a negative page number gives IllegalArgument and leaves the old value; otherwise it is stored |
| `DomainCredentialSearch.Builder.WithPageSize` | src/main/java/org/eclipse/tractusx/managedidentitywallets/domain/CredentialSearch.java:153-158 | a negative page size gives IllegalArgument and leaves the old value; otherwise it is stored |
| `DomainCredentialSearch.Builder.WithCallerBpn` | src/main/java/org/eclipse/tractusx/managedidentitywallets/domain/CredentialSearch.java:160-163 | it stores the argument, null included, without failing |
| `DomainCredentialSearch.Builder.Build` | src/main/java/org/eclipse/tractusx/managedidentitywallets/domain/CredentialSearch.java:48-173 | it succeeds exactly when sortColumn, sortType and callerBpn are set, checked in that order; a built search copies every field and has non-negative page values |
| `DomainCredentialSearch.ColumnWithoutDirection` | src/main/java/org/eclipse/tractusx/managedidentitywallets/domain/CredentialSearch.java:165-173 | a sort column without a sort type fails on the sort type |
| `DomainCredentialSearch.FullSearch` | src/main/java/org/eclipse/tractusx/managedidentitywallets/domain/CredentialSearch.java:48-57 | a fully set builder builds a search holding exactly the values set |
| `GetWalletCommands.Builder.constructor` | src/main/java/org/eclipse/tractusx/managedidentitywallets/domain/command/GetWalletCommand.java:69-77 | a new builder has size 0, page 0 and no sort |
| `GetWalletCommands.Builder.SetSize` | src/main/java/org/eclipse/tractusx/managedidentitywallets/domain/command/GetWalletCommand.java:79-84 | a size of 0 or below gives IllegalArgument and leaves the old size; otherwise it is stored |
| `GetWalletCommands.Builder.SetPageNumber` | src/main/java/org/eclipse/tractusx/managedidentitywallets/domain/command/GetWalletCommand.java:86-91 | a negative page gives IllegalArgument and leaves the old page; otherwise it is stored |
| `GetWalletCommands.Builder.SetSortColumn` | src/main/java/org/eclipse/tractusx/managedidentitywallets/domain/command/GetWalletCommand.java:93-96 | null gives NullPointer and leaves the field as it was; otherwise the field holds the argument |
| `GetWalletCommands.Builder.SetSortType` | src/main/java/org/eclipse/tractusx/managedidentitywallets/domain/command/GetWalletCommand.java:98-101 | null gives NullPointer and leaves the field as it was; otherwise the field holds the argument |
| `GetWalletCommands.Builder.Build` | src/main/java/org/eclipse/tractusx/managedidentitywallets/domain/command/GetWalletCommand.java:42-118 | the checks run sortType, sortColumn, then size (a size never set is 0); a built command has size > 0 and page >= 0 and copies the builder |
| `GetWalletCommands.SizeNeverSet` | src/main/java/org/eclipse/tractusx/managedidentitywallets/domain/command/GetWalletCommand.java:103-118 | without `setSize` the build fails on the size |
| `GetWalletCommands.ZeroSizeRejected` | src/main/java/org/eclipse/tractusx/managedidentitywallets/domain/command/GetWalletCommand.java:79-84 | `setSize(0)` is rejected with IllegalArgument |
| `GetWalletCommands.SortTypeCheckedFirst` | src/main/java/org/eclipse/tractusx/managedidentitywallets/domain/command/GetWalletCommand.java:111-114 | with everything unset the failure names the sort type |
| `CreatePresentationCommands.Builder.constructor` | src/main/java/org/eclipse/tractusx/managedidentitywallets/domain/command/CreatePresentationCommand.java:72-77 | a new builder has asJwt false and every other field unset |
| `CreatePresentationCommands.Builder.SetVerifiableCredentials` | src/main/java/org/eclipse/tractusx/managedidentitywallets/domain/command/CreatePresentationCommand.java:85-88 | null gives NullPointer and leaves the field as it was; otherwise the field holds the argument |
| `CreatePresentationCommands.Builder.SetAsJwt` | src/main/java/org/eclipse/tractusx/managedidentitywallets/domain/command/CreatePresentationCommand.java:90-93 | the flag is stored |
| `CreatePresentationCommands.Builder.SetAudience` | src/main/java/org/eclipse/tractusx/managedidentitywallets/domain/command/CreatePresentationCommand.java:95-98 | null gives NullPointer and leaves the field as it was; otherwise the field holds the argument |
| `CreatePresentationCommands.Builder.SetCaller` | src/main/java/org/eclipse/tractusx/managedidentitywallets/domain/command/CreatePresentationCommand.java:100-103 | null gives NullPointer and leaves the field as it was; otherwise the field holds the argument |
| `CreatePresentationCommands.Builder.Build` | src/main/java/org/eclipse/tractusx/managedidentitywallets/domain/command/CreatePresentationCommand.java:44-112 | it succeeds exactly when credentials and caller are set, credentials checked first, whatever asJwt and audience are; a built command copies the builder |
| `CreatePresentationCommands.EmptyCredentialList` | src/main/java/org/eclipse/tractusx/managedidentitywallets/domain/command/CreatePresentationCommand.java:85-112 | an empty credential list builds |
| `ValidatePresentationCommands.Builder.constructor` | src/main/java/org/eclipse/tractusx/managedidentitywallets/domain/command/ValidatePresentationCommand.java:76-86 | a new builder has both flags false and every other field unset |
| `ValidatePresentationCommands.Builder.SetAsJwt` | src/main/java/org/eclipse/tractusx/managedidentitywallets/domain/command/ValidatePresentationCommand.java:94-97 | the flag is stored |
| `ValidatePresentationCommands.Builder.SetAudience` | src/main/java/org/eclipse/tractusx/managedidentitywallets/domain/command/ValidatePresentationCommand.java:99-102 | null gives NullPointer and leaves the field as it was; otherwise the field holds the argument |
| `ValidatePresentationCommands.Builder.SetWithCredentialExpiryDate` | src/main/java/org/eclipse/tractusx/managedidentitywallets/domain/command/ValidatePresentationCommand.java:106-109 | the flag is stored |
| `ValidatePresentationCommands.Builder.SetVpJson` | src/main/java/org/eclipse/tractusx/managedidentitywallets/domain/command/ValidatePresentationCommand.java:111-114 | null gives NullPointer and leaves the field as it was; otherwise the field holds the argument |
| `ValidatePresentationCommands.Builder.SetVpJwt` | src/main/java/org/eclipse/tractusx/managedidentitywallets/domain/command/ValidatePresentationCommand.java:116-119 | null gives NullPointer and leaves the field as it was; otherwise the field holds the argument |
| `ValidatePresentationCommands.Builder.Build` | src/main/java/org/eclipse/tractusx/managedidentitywallets/domain/command/ValidatePresentationCommand.java:44-131 | with asJwt it succeeds exactly when vpJwt is set, otherwise exactly when vpJson is set; audience is never required; a built command copies all five fields |
| `ValidatePresentationCommands.JsonOnly` | src/main/java/org/eclipse/tractusx/managedidentitywallets/domain/command/ValidatePresentationCommand.java:78-131 | with the flags left at false, vpJson alone builds |
| `ValidatePresentationCommands.BothRepresentations` | src/main/java/org/eclipse/tractusx/managedidentitywallets/domain/command/ValidatePresentationCommand.java:121-131 | both vpJwt and vpJson set still builds |
| `ValidatePresentationCommands.JwtSelectedButOnlyJson` | src/main/java/org/eclipse/tractusx/managedidentitywallets/domain/command/ValidatePresentationCommand.java:121-131 | with asJwt set and only vpJson present the build fails |
| `CreateWalletCommands.NewCreateWalletCommand` | src/main/java/org/eclipse/tractusx/managedidentitywallets/domain/command/CreateWalletCommand.java:31-37 | a null name, bpn or caller gives NullPointer, checked in that order; otherwise the record holds the arguments unchanged |
| `CreateWalletCommands.EmptyNameAccepted` | src/main/java/org/eclipse/tractusx/managedidentitywallets/domain/command/CreateWalletCommand.java:34 | an empty name is accepted |
| `StoreCredentialCommands.NewStoreCredentialCommand` | src/main/java/org/eclipse/tractusx/managedidentitywallets/domain/command/StoreCredentialCommand.java:33-39 | a null credential, identifier or caller gives NullPointer, checked in that order; otherwise the record holds the arguments unchanged |
| `StoreCredentialCommands.IdentifierMatchesPattern` | src/main/java/org/eclipse/tractusx/managedidentitywallets/domain/command/StoreCredentialCommand.java:33 | the command's identifier always satisfies the Identifier pattern |
| `WalletAggregates.Keys` | src/main/java/org/eclipse/tractusx/managedidentitywallets/domain/WalletAggregate.java:113 | the URIs of a list, as `URI.equals` tells them apart: every element's key is in it, and nothing else |
| `WalletAggregates.KeysAppend` | src/main/java/org/eclipse/tractusx/managedidentitywallets/domain/WalletAggregate.java:111-116 | the URIs of a concatenation are the URIs of its parts |
| `WalletAggregates.FreshMembership` | src/main/java/org/eclipse/tractusx/managedidentitywallets/domain/WalletAggregate.java:110-117 | every appended URL is a caller URL that equals no URI of the default context |
| `WalletAggregates.FreshKeys` | src/main/java/org/eclipse/tractusx/managedidentitywallets/domain/WalletAggregate.java:110-117 | up to `URI.equals`, the appended URLs are exactly the caller URLs not in the default context |
| `WalletAggregates.FreshHasNoDuplicates` | src/main/java/org/eclipse/tractusx/managedidentitywallets/domain/WalletAggregate.java:112-116 | no two appended URLs are equal under `URI.equals`, even when the caller's list repeats one |
| `WalletAggregates.NothingFreshWhenPresent` | src/main/java/org/eclipse/tractusx/managedidentitywallets/domain/WalletAggregate.java:112-116 | when every caller URL equals one already in the context, nothing is appended |
| `WalletAggregates.DistinctNewUrlsAllFresh` | src/main/java/org/eclipse/tractusx/managedidentitywallets/domain/WalletAggregate.java:112-116 | caller URLs that are pairwise unequal and all new are appended unchanged, in caller order |
| `WalletAggregates.Contains` | src/main/java/org/eclipse/tractusx/managedidentitywallets/domain/WalletAggregate.java:113 | `List.contains`: true exactly when some element equals the URI under `URI.equals` |
| `WalletAggregates.MergeContext` | src/main/java/org/eclipse/tractusx/managedidentitywallets/domain/WalletAggregate.java:110-117 | the loop's result is the default context followed by the reference list of fresh URLs |
| `WalletAggregates.MergedContextProperties` | src/main/java/org/eclipse/tractusx/managedidentitywallets/domain/WalletAggregate.java:110-117 | the default context is an unchanged prefix; every element is a default or caller URL; up to `URI.equals` the result holds exactly the default and caller URIs; no two appended URLs are equal and none equals a default one |
| `WalletAggregates.MergeIdempotent` | src/main/java/org/eclipse/tractusx/managedidentitywallets/domain/WalletAggregate.java:110-117 | merging the same URLs into the merged context again changes nothing |
| `WalletAggregates.GetDocument` | src/main/java/org/eclipse/tractusx/managedidentitywallets/domain/WalletAggregate.java:93-120 | the document carries the aggregate's DID and key id and the merged context |
| `WalletAggregates.Builder.constructor` | src/main/java/org/eclipse/tractusx/managedidentitywallets/domain/WalletAggregate.java:155-161 | a new builder has every field unset |
| `WalletAggregates.Builder.WithHost` | src/main/java/org/eclipse/tractusx/managedidentitywallets/domain/WalletAggregate.java:170-173 | null gives NullPointer and leaves the field as it was; otherwise the field holds the argument |
| `WalletAggregates.Builder.WithBpn` | src/main/java/org/eclipse/tractusx/managedidentitywallets/domain/WalletAggregate.java:175-178 | null gives NullPointer and leaves the field as it was; otherwise the field holds the argument |
| `WalletAggregates.Builder.WithContextUrls` | src/main/java/org/eclipse/tractusx/managedidentitywallets/domain/WalletAggregate.java:180-183 | null gives NullPointer and leaves the field as it was; otherwise the field holds the argument |
| `WalletAggregates.Builder.Build` | src/main/java/org/eclipse/tractusx/managedidentitywallets/domain/WalletAggregate.java:164-198 | an unset host, bpn or contextUrls (in that order) or an empty URL list gives IllegalState; otherwise the aggregate holds the builder's fields and the DID of host and bpn |
| `WalletAggregates.EmptyContextUrls` | src/main/java/org/eclipse/tractusx/managedidentitywallets/domain/WalletAggregate.java:194-196 | a set but empty context URL list is rejected |
| `WalletAggregates.MergeExample` | src/main/java/org/eclipse/tractusx/managedidentitywallets/domain/WalletAggregate.java:110-117 | with pairwise unequal `a`, `b`, `c`, merging `[b, a, b, c]` into `[a]` gives `[a, b, c]` |
| `WalletAggregates.EqualUriNotAppended` | src/main/java/org/eclipse/tractusx/managedidentitywallets/domain/WalletAggregate.java:112-116 | a caller URL that `URI.equals` the context's only URL, even in a different spelling, is not appended |
| `Ascii.Lower` | src/main/java/org/eclipse/tractusx/managedidentitywallets/service/CommonService.java:87 | lower-casing keeps the length, leaves no upper-case letter, and changes nothing but upper-case letters |
| `Ascii.LowerIdempotent` | src/main/java/org/eclipse/tractusx/managedidentitywallets/service/CommonService.java:87 | lower-casing an already lower-cased string changes nothing |
| `Ascii.EqualsIgnoreCaseChars` | src/main/java/org/eclipse/tractusx/managedidentitywallets/service/WalletService.java:283 | `equalsIgnoreCase` holds exactly when the lengths agree and each pair of characters is equal or the two cases of one letter |
| `Ascii.EqualsIgnoreCaseEquivalence` | src/main/java/org/eclipse/tractusx/managedidentitywallets/service/WalletService.java:161 | `equalsIgnoreCase` is reflexive, symmetric and transitive |
| `CommonServices.CheckIfDid` | src/main/java/org/eclipse/tractusx/managedidentitywallets/service/CommonService.java:86-89 | true exactly when the string starts with `did:`, each letter in either case |
| `CommonServices.IdentifiersAreDids` | src/main/java/org/eclipse/tractusx/managedidentitywallets/service/CommonService.java:86-89 | every string the Identifier pattern accepts passes the DID test |
| `CommonServices.CheckIfDidExamples` | src/main/java/org/eclipse/tractusx/managedidentitywallets/service/CommonService.java:86-89 | `DID:web:x` is a DID; a bare BPN and `did` are not |
| `CommonServices.ValidateExpiry` | src/main/java/org/eclipse/tractusx/managedidentitywallets/service/CommonService.java:70-84 | with the flag off: valid, response untouched; with it on: valid exactly when expiry is not before now, that verdict written under the key and only there |
| `CommonServices.ExpiringNowIsValid` | src/main/java/org/eclipse/tractusx/managedidentitywallets/service/CommonService.java:76-80 | expiry equal to now is valid and recorded as true |
| `CommonServices.FlagOffSkipsCheck` | src/main/java/org/eclipse/tractusx/managedidentitywallets/service/CommonService.java:73-83 | with the flag off the result is valid and nothing is recorded |
| `CommonServices.CommonService.GetWalletByBpn` | src/main/java/org/eclipse/tractusx/managedidentitywallets/service/CommonService.java:52-56 | the stored wallet with exactly this BPN; NotFound exactly when none exists |
| `CommonServices.CommonService.GetWalletByDid` | src/main/java/org/eclipse/tractusx/managedidentitywallets/service/CommonService.java:64-68 | the stored wallet with exactly this DID; NotFound exactly when none exists |
| `WalletStores.CredentialsByHolder` | src/main/java/org/eclipse/tractusx/managedidentitywallets/service/WalletService.java:166 | the credentials held by a DID are exactly the stored ones whose holder is that DID, each as often as it is stored |
| `WalletStores.WalletStore.GetByBpn` | src/main/java/org/eclipse/tractusx/managedidentitywallets/service/CommonService.java:53 | a stored wallet with this BPN, or none exactly when no stored wallet has it |
| `WalletStores.WalletStore.GetByDid` | src/main/java/org/eclipse/tractusx/managedidentitywallets/service/CommonService.java:65 | a stored wallet with this DID, or none exactly when no stored wallet has it |
| `WalletStores.WalletStore.ExistsByBpn` | src/main/java/org/eclipse/tractusx/managedidentitywallets/service/WalletService.java:287 | true exactly when some stored wallet has this BPN |
| `WalletStores.WalletStore.GetCredentialsByHolder` | src/main/java/org/eclipse/tractusx/managedidentitywallets/service/WalletService.java:166 | the stored credentials whose holder is this DID, and only those, each as often as it is stored |
| `WalletStores.WalletStore.CreateWallet` | src/main/java/org/eclipse/tractusx/managedidentitywallets/service/WalletService.java:225-231 | the wallet is appended under the next id, and ids stay positions |
| `WalletStores.WalletStore.SaveKey` | src/main/java/org/eclipse/tractusx/managedidentitywallets/service/WalletService.java:234-242 | the key record is appended and still refers to a stored wallet |
| `WalletStores.WalletStore.SaveCredential` | src/main/java/org/eclipse/tractusx/managedidentitywallets/service/WalletService.java:127-135 | the credential is appended |
| `TypeLabels.RemoveFirst` | src/main/java/org/eclipse/tractusx/managedidentitywallets/service/WalletService.java:124-125 | removing drops exactly one occurrence when there is one (multiset minus one, one shorter) and changes nothing otherwise |
| `TypeLabels.RemoveFirstAt` | src/main/java/org/eclipse/tractusx/managedidentitywallets/service/WalletService.java:125 | the occurrence dropped is the first, and the others keep their order |
| `TypeLabels.SplitNoSeparator` | src/main/java/org/eclipse/tractusx/managedidentitywallets/service/WalletService.java:130 | a part without the separator splits into itself |
| `TypeLabels.SplitAfterPart` | src/main/java/org/eclipse/tractusx/managedidentitywallets/service/WalletService.java:130 | splitting a part, the separator and a rest gives the part followed by the rest's split |
| `TypeLabels.SplitJoin` | src/main/java/org/eclipse/tractusx/managedidentitywallets/service/WalletService.java:130 | joining non-empty lists of comma-free parts with `,` and splitting again gives the parts back |
| `TypeLabels.TypeLabelParts` | src/main/java/org/eclipse/tractusx/managedidentitywallets/service/WalletService.java:124-130 | the stored type label of comma-free types splits back into the types minus the first `VerifiableCredential`, in the original order |
| `TypeLabels.BaseTypeOnlyGivesEmptyLabel` | src/main/java/org/eclipse/tractusx/managedidentitywallets/service/WalletService.java:124-130 | a credential typed only `VerifiableCredential` gets the empty label |
| `TypeLabels.LeadingBaseTypeDropped` | src/main/java/org/eclipse/tractusx/managedidentitywallets/service/WalletService.java:124-130 | `[VerifiableCredential, t]` is labelled `t` |
| `TypeLabels.SecondBaseTypeKept` | src/main/java/org/eclipse/tractusx/managedidentitywallets/service/WalletService.java:124-130 | only the first `VerifiableCredential` is dropped: a second one stays in the label |
| `WalletServices.UniqueBpnsAppend` | src/main/java/org/eclipse/tractusx/managedidentitywallets/service/WalletService.java:286-290 | appending a wallet whose BPN is new keeps wallet BPNs unique |
| `WalletServices.WalletService.ValidateCreateWallet` | src/main/java/org/eclipse/tractusx/managedidentitywallets/service/WalletService.java:281-291 | it passes exactly when the caller equals the authority BPN ignoring case and no wallet has the BPN; a non-authority caller is Forbidden, otherwise an existing BPN is Duplicate |
| `WalletServices.WalletService.ForbiddenBeforeDuplicate` | src/main/java/org/eclipse/tractusx/managedidentitywallets/service/WalletService.java:281-290 | a non-authority caller is Forbidden even when the wallet already exists |
| `WalletServices.WalletService.CreateWalletAs` | src/main/java/org/eclipse/tractusx/managedidentitywallets/service/WalletService.java:211-242 | a failed check saves nothing and returns its error; success appends exactly one wallet (next id, BPN, name, DID, merged document) and one key record for it; BPNs stay unique |
| `WalletServices.WalletService.CreateWallet` | src/main/java/org/eclipse/tractusx/managedidentitywallets/service/WalletService.java:197-199 | the command's BPN, name and caller go through the same creation effect |
| `WalletServices.WalletService.CreateAuthorityWallet` | src/main/java/org/eclipse/tractusx/managedidentitywallets/service/WalletService.java:259-278 | it creates the authority wallet exactly when none has its BPN, changing nothing otherwise; afterwards the authority wallet exists |
| `WalletServices.WalletService.CreateAuthorityWalletTwice` | src/main/java/org/eclipse/tractusx/managedidentitywallets/service/WalletService.java:259-278 | a second start-up creates nothing; the two together add at most one wallet |
| `WalletServices.WalletService.LookupWallet` | src/main/java/org/eclipse/tractusx/managedidentitywallets/service/WalletService.java:111-115 | the wallet found is stored and has this DID when the DID test holds, this BPN otherwise; else NotFound |
| `WalletServices.WalletService.LookupIsByDid` | src/main/java/org/eclipse/tractusx/managedidentitywallets/service/WalletService.java:111-115 | for every Identifier the lookup is by DID: the by-BPN branch is unreachable |
| `WalletServices.WalletService.StoreCredential` | src/main/java/org/eclipse/tractusx/managedidentitywallets/service/WalletService.java:108-141 | NotFound, then Forbidden (owner differs ignoring case), then BadData (no types), each storing nothing; else one credential saved for the wallet's DID with the derived label, not self-issued, stored, and the success message |
| `WalletServices.WalletService.GetWalletByIdentifier` | src/main/java/org/eclipse/tractusx/managedidentitywallets/service/WalletService.java:151-169 | NotFound when absent; allowed exactly for the authority BPN compared exactly, or the owner compared ignoring case, else Forbidden; holder credentials attached only on request, nothing else changed |
| `WalletServices.WalletService.AuthorityComparisonsDiffer` | src/main/java/org/eclipse/tractusx/managedidentitywallets/service/WalletService.java:159-162 | an authority BPN in another case may create wallets but is refused another holder's wallet |

## Left out

- **Null arguments.**
  - `Identifiers.NewIdentifier` does not model a null argument. In Java that
    gives a NullPointerException from the matcher, and the argument type here
    is a plain string.
  - Null is modelled only where the source checks for it or tolerates it:
    setters, record constructors, `CredentialId`, `withCallerBpn`.
- **Foreign calls and I/O in `WalletAggregate`.**
  - Not modelled: key generation, PEM writing, encryption, `DidWebFactory`,
    `JsonWebKey`, the DID document builder, its verification method and its
    JSON round trip.
  - The key pair and the key id (a random UUID) are method parameters.
  - The DID is a function of host and BPN. Encryption is two function
    parameters, one for the private key (PEM label "PRIVATE KEY") and one for
    the public key ("PUBLIC KEY").
  - The context a fresh DID document starts with is a parameter.
  - A DID document has only its id, key id and context.
- **`WalletService` infrastructure.**
  - Not modelled: the `issueBpnCredential` call after wallet creation (into a
    service that is not part of this model), and the paging and filtering of
    `getWallets`.
  - Also not modelled: logging, the `@Transactional` isolation, and
    concurrency between the existence check and the insert.
  - The wallet's `algorithm` field (always `ED_25519`) and the dummy vault
    fields of the key record are not modelled.
- `WalletAggregates.MergeContext` compares URLs through a key function
  parameter that stands for `java.net.URI.equals`: two URLs are equal exactly
  when their keys are. The rules that define the key (case-insensitive scheme,
  host and percent-escape hex digits) are not written out.
- `WalletServices.WalletService.CreateWalletAs` says nothing about holders'
  credentials: the BPN credential that `issueBpnCredential` issues to the new
  wallet after saving it, and the rollback of the whole creation when that
  call fails, are not part of this model.
- `WalletServices.WalletService.CreateWallet` has the same gap: the BPN
  credential it issues and the rollback on failure are not modelled.
- `WalletServices.WalletService.CreateAuthorityWallet` has the same gap: the
  self-issued BPN credential and the rollback on failure are not modelled.
- **Identifiers passed as strings.** `WalletService.storeCredential` and
  `getWalletByIdentifier` pass the identifier's string to lookups declared to
  take `Identifier` and `BPN`. They are modelled as lookups by that string.
  Likewise, `createWallet` passes a `BPN` to `WalletAggregate.Builder.withBpn`,
  which takes a `String`; the model passes `bpn.value`.
- **Aliasing in `GetWalletByIdentifier`.** It returns the wallet with the
  credentials attached. It does not update the stored entity in place the way
  the source's setter on the managed object would.
- **`CommonServices.ValidateExpiry`.**
  - The current time is a parameter.
  - Instants are integers.
  - The `VALIDATE_EXPIRY_DATE` key is a parameter, because its text is not
    part of this model.
  - With the flag on, a missing expiry date is excluded by a precondition,
    because the source does not handle it.
- **Case folding is ASCII only.**
  - `Ascii.Lower` does not model Java's full Unicode `toLowerCase`: it folds
    only `A`–`Z`.
  - `EqualsIgnoreCase` is ASCII only in the same way.
  - `CommonServices.CheckIfDid` assumes a default locale without Turkic
    casing rules: `toLowerCase()` uses the default locale, and under a Turkish
    one `I` lower-cases to a dotless `ı`, so `DID:` would not pass. Every real
    `Identifier` starts with a lower-case `did:`, so those lookups are not
    affected.
- **Exact-match queries.** The repository queries (`getByBpn`, `getByDid`,
  `existsByBpn`, `getCredentialsByHolder`) are exact-match searches over the
  stored sequences.
- `WalletStores.WalletStore.GetCredentialsByHolder` states membership and
  multiplicity, not order: the database's result order is unspecified.
- **Unseen classes are opaque.** `BPN`, `SortType`, `WalletSortColumn`,
  `ActivityType` and `IssueCredentialCommand` have only the usage-implied
  shape: a wrapped string or an enumeration.
- **Integer width.** Java's 32-bit `int` page fields are unbounded integers.
  No arithmetic is done on them.
- **Outside this model.** The HTTP controllers, the configuration bean, the
  request DTOs, the encryption key loader and the start-up listener.
- **The bare-BPN form.** A bare BPN that is not a DID is rejected by the
  `Identifier` pattern, as the code does. The model follows the code, so the
  by-BPN lookups in `WalletService` cannot be reached with a real
  `Identifier` (`LookupIsByDid`).
