# Verified model of the story assistant's protocols

The repository serves a writing application: an MCP connector with its own OAuth
authorization server, tools that read and edit chapters, and an assistant that runs
a language model in a loop with tools and specialists. This project models the parts
in which many interleavings, loops or recursions have to agree with a simple rule,
and proves those rules for all inputs and all runs.

`dafny verify dfyconfig.toml` checks everything.

## How it is modelled

**Concurrent protocols** (token lineage, reservations, chapter revisions, chapter
positions, the run budget) are state machines over stored documents. A step is one
store operation of one of any number of calls in flight, or a change of the
environment: the clock, a collector, a call that dies. Invariants are kept by every
step, and the main results are about every state of every run. The operations
themselves are methods of classes over the same state. Between their store operations
they call `Interfere`, whose contract allows any number of steps of others (`OthersRely`
proves that it covers every such sequence), and each of their writes is accounted for
as a step of the machine. Fields that only keep history (`log`, `w`, `done`, `owner`, `prompts`)
are not in the program.

**Loops that compute** (splitting, applying edits, clipping and searching, selecting,
limiting) are methods proved equal to functions, and the promises are lemmas about
those functions.

**The assistant run** is a class whose methods follow the loop. All that the outside
world may do (any finite stream of provider events, any tool or consult result, a
timeout or an exception at any point where the program waits) is left open by
unconstrained choices, so each contract holds for all of them.

| file | module | models |
|---|---|---|
| oauth_lineage.dfy, oauth_once.dfy, oauth_ends.dfy, oauth_reachable.dfy, oauth_effects.dfy, oauth_server.dfy | OAuthLineage, OAuthOnce, OAuthEnds, OAuthReachable, OAuthEffects, OAuthServer | consent transaction, code, token family, rotation, reuse detection, revocation |
| blocks.dfy, block_laws.dfy, block_elements.dfy, block_append.dfy | Blocks, BlockLaws, BlockElements, BlockAppend | the depth-tracking splitter over characters and markup, joining |
| edit_ops.dfy, edit_apply.dfy, edit_meaning.dfy | EditOps, EditApply, EditMeaning | validating, ordering and applying positional edits in place |
| chapter_writes.dfy, chapter_editor.dfy | ChapterWrites, ChapterEditor | edits of one chapter under a revision check |
| reservations.dfy, reservation_store.dfy, repeated_edits.dfy | Reservations, ReservationStore, RepeatedEdits | idempotency reservations of one key, and edits under them |
| positions.dfy | Positions | optimistic choice of a chapter position |
| json_size.dfy, json_encoding.dfy, clipping.dfy, width_laws.dfy, bounded_results.dfy, fit_widths.dfy, fit_witnesses.dfy, chapter_window.dfy, context_fit.dfy, context_background.dfy | JsonSize, JsonEncoding, Clipping, WidthLaws, BoundedResults, FitWidths, FitWitnesses, ChapterWindow, ContextFit, ContextBackground | results and contexts that keep to an encoded size, and paging |
| run_budget.dfy, consults.dfy | RunBudgets, Consults | the shared budget under concurrent consults, and one consult |
| run_events.dfy, run_stream.dfy, run_loop.dfy | EventLog, RunStream, RunLoop | the event protocol, stream assembly, the run |
| rate_limit.dfy | RateLimit | token buckets in a bounded table |
| ordering.dfy, plot_selection.dfy, selection_laws.dfy, selection_shown.dfy, selection_sections.dfy, selection_order.dfy | Ordering, PlotSelection, SelectionLaws, SelectionShown, SelectionSections, SelectionOrder | deterministic plot selection |

## Where the code and its comments differ

- `assistant/executors.py:193-197` says that encoded size is monotone in the clip width.
  It is not: a string that becomes whole loses its six-character marker. For every tree
  `WidthLaws.WidenedSize` gives what one width more changes, `WidthLaws.GrowsIff` and
  `WidthLaws.AlwaysWidestIff` say exactly when the comment is right, and
  `FitWidths.FitIsWidestIff` when one result is the widest. `FitWitnesses.FitCanMissAWiderFit`
  is a result of `assistant/executors.py:327-362`, at a ceiling that `config.py:54` allows, for
  which it is not. The ceiling is kept all the same (`BoundedResults.FitBoundedIff`).
- The same comment takes empty strings to be the smallest form, so that elements are dropped
  (`assistant/executors.py:217-223`) only when no width fits. `FitWitnesses.FitCanDropNeedlessly`
  is a roster that loses six of sixteen rows although all fit at width 1;
  `FitWidths.DropsNeedlesslyIff` says exactly which payloads are in danger, and
  `FitWidths.LongTextsAreKept` that those without very short strings are not.
- `mcp_server/blocks.py:104-112` keeps a stray close tag as text so as never to lose a
  byte, but not one of a void element before the first block:
  `BlockLaws.SplitLosesOnlyBlanksIff` says exactly when nothing is lost.
- `mcp_server/writes.py:273-292` takes over an expired reservation, whether or not its owner is
  still at work: `Reservations.OverlapIffUntimely` says that this is exactly when two calls
  with one key can be at work together.

## Model

| member | source | states |
|---|---|---|
| OAuthLineage.StepInv | mcp_server/oauth_store.py:154-403 | every step of every request (one store operation each) and of the environment keeps the lineage invariant: finished transactions, single-use codes, one slot a family, marks that stand |
| OAuthLineage.RunInv | mcp_server/oauth_store.py:154-403 | the invariant holds in every state of every interleaving |
| OAuthLineage.StepLater | mcp_server/oauth_store.py:224-403 | every step only adds to what was issued and born, and never unrevokes a token or a family |
| OAuthLineage.RunLater | mcp_server/oauth_store.py:224-403 | the same from any state of a run to any later one |
| OAuthLineage.NarrowNeverWidens | mcp_server/oauth_provider.py:454-478 | a refresh gets the scopes asked for that were granted, or the granted ones if none of those asked was; never more (section 6 of RFC 6749) |
| OAuthLineage.OneLineagePerConsent | mcp_server/oauth_store.py:165-218 | over every interleaving one consent transaction yields at most one code and at most one token family, ever; every stored token belongs to a family that was born |
| OAuthLineage.OneSlotPerFamily | mcp_server/oauth_store.py:224-378 | at every moment a family has at most one of: an unrevoked refresh token, or a grant consumed and not yet minted; and at most one unrevoked access token |
| OAuthLineage.RevocationIsFinal | mcp_server/oauth_store.py:236-356 | a revoked family stays revoked, gains no live token, and no batch commit in it is accepted any more, even one whose family was read before the mark |
| OAuthLineage.CommitNeedsUnrevoked | mcp_server/oauth_store.py:236-292 | a batch that is accepted finds its family unrevoked, whatever was read when |
| OAuthLineage.LostOnlyToRevocation | mcp_server/oauth_store.py:224-292 | a batch commit is refused only because the family is revoked: no other writer of the family record can make a retry fail |
| OAuthLineage.RevokedTokenStaysDead | mcp_server/oauth_store.py:358-403 | a rotated or revoked token is never unrevoked and never stored afresh |
| OAuthLineage.TokensKeepToConsent | mcp_server/oauth_provider.py:356-376 | over any number of rotations a token keeps to the client and the user of its consent, and to the scopes asked for in its transaction |
| OAuthReachable.RotationIsReached | mcp_server/oauth_store.py:165-378 | the safety theorems are not about an idle machine: a run reaches a family whose slot is a live refresh token, and a run goes on to rotate it into a grant in flight |
| OAuthOnce.TransactionFinishedOnce | mcp_server/oauth_store.py:165-185 | over every interleaving one caller at most finishes a transaction: approved or denied, once |
| OAuthOnce.DeniedYieldsNoCode | mcp_server/oauth_provider.py:315-331 | a denied transaction never yields a code, in any state of the run |
| OAuthOnce.CodeRedeemedOnce | mcp_server/oauth_store.py:205-218 | over every interleaving one caller at most redeems a code |
| OAuthOnce.RefreshTokenSpentOnce | mcp_server/oauth_store.py:358-378 | over every interleaving one caller at most spends a refresh token, to rotate it or to be refused for it |
| OAuthServer.OthersRely | mcp_server/oauth_store.py:83-403 | what a request may count on across other requests holds of every sequence of their steps and of the environment's |
| OAuthEffects.StepAccounts | mcp_server/oauth_store.py:165-403 | every step of a request accounts for what it takes away: no transaction is finished, code deleted, token revoked or family marked but those named among its effects, and nothing else that is stored changes |
| OAuthServer.Server.FinishTxn | mcp_server/oauth_store.py:165-185 | the caller whose guarded update succeeds gets a transaction that was pending back as it was, finished as asked; whoever gets nothing leaves a transaction that is gone, expired or no longer pending, and is told so for no other reason; it finishes no other |
| OAuthServer.Server.WinTxn | mcp_server/oauth_store.py:178-184 | the guarded update is lost only if the transaction is gone, expired or no longer pending by then |
| OAuthServer.Server.CompleteAuthorization | mcp_server/oauth_provider.py:288-313 | the code handed out carries the transaction's client and scopes and the approving user, and is the first and only code of that transaction; none is handed out only if the transaction is gone, expired or no longer pending |
| OAuthServer.Server.SaveTokenPair | mcp_server/oauth_store.py:224-292 | three attempts: success stores exactly the pair and leaves the family unrevoked; failure happens only in a revoked family, and always in one revoked before the call |
| OAuthServer.Server.MintAttempt | mcp_server/oauth_store.py:236-292 | one attempt: the family is read, and the batch is accepted only if the family is as read |
| OAuthServer.Server.ConsumeCode | mcp_server/oauth_store.py:205-218 | the code is deleted by one caller, who gets the grant of its consent, and nobody founded a family on it before; a caller that gets nothing leaves no code behind, and at some moment of its call the code was gone, expired or another client's; no other code is touched |
| OAuthServer.Server.ExchangeAuthorizationCode | mcp_server/oauth_provider.py:356-376 | whoever gets tokens for a code is the only one that ever founds a family on it, with the consent the code was issued for; the code is gone either way (section 4.1.2 of RFC 6749). It is refused as invalid only if at some moment of the call it could not be redeemed, and as revoked only if the family founded on it was revoked |
| OAuthServer.Server.ExchangeRefreshToken | mcp_server/oauth_provider.py:454-478 | a refresh spends its token, mints in the same lineage with scopes narrowed from those of the token, and never succeeds in a family revoked before (section 4.14.2 of RFC 9700); it is refused as invalid only if the token is gone, expired, revoked, no refresh token or another client's; whatever comes of it, no token but this one and its pair is revoked |
| OAuthServer.Server.ConsumeRefreshToken | mcp_server/oauth_store.py:358-378 | whoever spends the token found it live and the client's own, holds the grant drawn from it, and leaves it dead for good; whoever gets nothing leaves a token that is gone, expired, revoked, no refresh token or another client's; no token but this one and its pair is touched |
| OAuthServer.Server.RefuseMisuse | mcp_server/oauth_store.py:358-378 | a refresh token presented by another client ends revoked or gone, its access token too, and nothing is minted |
| OAuthServer.Server.GetToken | mcp_server/oauth_store.py:300-322 | what comes back is the stored token, unexpired when it was read; a default read begun after the family was revoked returns nothing; a token that is good at the end of the read is returned; and nothing is changed |
| OAuthServer.Server.RevokeTokenFamily | mcp_server/oauth_store.py:324-356 | when it returns the family is marked and none of its tokens is live, whatever ran meanwhile; no other family is marked, and no token of another is revoked |
| OAuthServer.Server.LoadRefreshToken | mcp_server/oauth_provider.py:382-452 | presenting a rotated token revokes its whole lineage and is refused; a live one of the right client is returned as it is stored, and is called missing only if it is not there to be spent and tells of no reuse; nothing outside that lineage is touched, and nothing at all if there was no reuse |
| OAuthServer.Server.RevokeToken | mcp_server/oauth_store.py:380-403 | a revoked token, and its pair, are dead when the call returns (section 2 of RFC 7009), and nothing else is touched |
| OAuthEnds.CanLiveIff | mcp_server/oauth_store.py:224-403 | at any state, a founded family can still come to have an unrevoked token, on some run from there, exactly if it has one or a grant of it is in flight and the family is not marked |
| OAuthEnds.EndIsFinal | mcp_server/oauth_store.py:224-403 | once neither holds, no step of any request brings either back |
| OAuthEnds.RevokingUnusedTokenEnds | mcp_server/oauth_store.py:380-403 | revoking a refresh token found unused, and then its access token, ends its lineage for good, whatever runs in between and after |
| OAuthEnds.RevokingSpentTokenLeavesGrant | mcp_server/oauth_store.py:380-403 | revoking a token while a grant of its unmarked family is in flight does not: the whole call can pass and the grant still be minted |
| Blocks.LineStarts | mcp_server/blocks.py:46-52 | the loop computes the start offset of every line |
| Blocks.PositionRoundTrip | mcp_server/blocks.py:78-82 | the offset recovered from a line and a column reported by the parser is the offset they were reported for |
| Blocks.DataOutside | mcp_server/blocks.py:114-122 | data at the top level begins a text block at its first character that is not blank, and a blank run begins nothing |
| Blocks.Splitter.HandleStartTag | mcp_server/blocks.py:96-99 | a start tag at depth 0 cuts, and opens a level unless the element is void |
| Blocks.Splitter.HandleEndTag | mcp_server/blocks.py:104-112 | a close tag with nothing open begins text; a void one does nothing at all |
| Blocks.Splitter.HandleData | mcp_server/blocks.py:114-122 | one data token does what its characters would do one at a time |
| Blocks.Splitter.Feed | mcp_server/blocks.py:55-137 | the cuts are a function of the characters and markup alone, so not of how text is chunked into tokens |
| Blocks.SlicesAreSplit | mcp_server/blocks.py:140-164 | slicing the content at the cuts gives one block per cut, each an exact slice without trailing blanks |
| Blocks.SplitBlocks | mcp_server/blocks.py:140-164 | the loop over the cuts returns those blocks; blank content has none |
| BlockElements.DepthIsOpen | mcp_server/blocks.py:96-112 | the depth of the scan is the number of elements left open, by a count that knows nothing of the scan |
| BlockElements.SplitIsLayout | mcp_server/blocks.py:46-164 | a chapter of whole elements, however deep, and stretches of text, with any blanks between, splits into exactly those, one block each with its own tag |
| BlockLaws.RechunkedText | mcp_server/blocks.py:65-76 | cutting a run of text into data tokens elsewhere leaves the same characters and markup |
| BlockLaws.SplitLosesOnlyBlanksIff | mcp_server/blocks.py:140-164 | the content is blanks, block, blanks, block and so on, with nothing missing, exactly if its first non-blank thing begins a block |
| BlockLaws.StrayCloseIsLost | mcp_server/blocks.py:104-112 | a chapter that starts with a stray void close tag loses it |
| BlockLaws.BlanksAreDroppedOutside | mcp_server/blocks.py:152-163 | the blanks dropped between two blocks are outside every element |
| BlockLaws.SplitJoinSplit | mcp_server/blocks.py:203-212 | splitting the joined blocks gives the same blocks with the same tags |
| BlockLaws.SplitJoinText | mcp_server/blocks.py:203-212 | what is split again there is the very string that joining the blocks stores |
| BlockAppend.AppendAddsBlocksIff | mcp_server/writes.py:612-625 | the blocks after an append are those of the old content and those of the addition exactly if no element of the old content is left open; if one is, the count stays as it was |
| BlockAppend.ParagraphsAreAddition | mcp_server/writes.py:164-182 | paragraphs of escaped prose, each wrapped in its element, are such an addition |
| BlockAppend.ParagraphsAreBlocks | mcp_server/writes.py:164-182 | and are one block each, in order, tagged as paragraphs |
| EditOps.NormalizeOps | mcp_server/writes.py:653-713 | validation in the source's order, refusing the first fault, and the operations sorted by descending index |
| EditOps.CollectedOk | mcp_server/writes.py:673-710 | validation succeeds exactly when every operation is valid and no two name one block |
| EditOps.NormalizedIgnoresOrder | mcp_server/writes.py:656-713 | any two listings of the same operations are both refused or come out as the same list, so they share one idempotency key |
| EditOps.NormalizedDescends | mcp_server/writes.py:659-713 | a normalized list is strictly descending and has at most twenty operations |
| EditOps.EscapeHasNoMarkup | mcp_server/writes.py:164-182 | escaped text contains no markup of its own |
| EditApply.Editing.ApplyOps | mcp_server/writes.py:754-786 | applying the operations in place from the back equals rewriting all blocks of the original list at once, and fails at the first operation that cannot be applied to it |
| EditApply.FirstFailureIff | mcp_server/writes.py:754-786 | the list is refused exactly when some operation is out of range or may not rewrite its block |
| EditApply.RewriteIgnoresOrder | mcp_server/writes.py:653-713 | the rewrite depends on which operations there are, not on their order |
| EditApply.SlotsInOrder | mcp_server/writes.py:754-786 | every original block's slot (kept, replaced or deleted, then its insertion) stands whole and in order in the result, which is nothing but the slots |
| EditApply.UnnamedBlocksSurvive | mcp_server/writes.py:789-804 | blocks no operation names are in the result unchanged and in order |
| EditMeaning.NormalizedSays | mcp_server/writes.py:653-713 | a listing is taken exactly if it has one to twenty operations, all well-formed, on different blocks; what is applied then has the caller's action, index and text, and the text wrapped in paragraphs |
| EditMeaning.AppliesIff | mcp_server/writes.py:720-786 | operations apply exactly if every insertion is after a block or before the first, and every replacement is of a block that is to be deleted, is plain text, or is a heading and gets one line |
| EditMeaning.FaultIsFirst | mcp_server/writes.py:754-786 | the fault reported is that of the first operation, in the order they are applied, that cannot be |
| EditMeaning.Inserted | mcp_server/writes.py:779-786 | an insertion stands directly after the block it names, which stays; index -1 is before the first block |
| EditMeaning.Replaced | mcp_server/writes.py:720-772 | a replacement stands alone where its block stood: wrapped paragraphs for plain text, and for a heading its words, escaped, in a heading of the same level |
| EditMeaning.Deleted | mcp_server/writes.py:773-778 | a deleted block leaves nothing in its place |
| EditMeaning.OneLineIsWords | mcp_server/writes.py:743-747 | a heading's text is the words of the text asked for, in order, one space between |
| EditMeaning.EscapeRoundTrip | mcp_server/writes.py:164-182 | escaped text reads back as the text it was made from |
| ChapterWrites.StepKeeps | mcp_server/writes.py:509-553 | every read, accepted write, refusal, other write and deletion keeps the history invariant, and history is only added to |
| ChapterWrites.RevisionNamesOneRow | mcp_server/writes.py:509-525 | over every interleaving a revision names one row for ever |
| ChapterWrites.AcceptedStoresTheEdit | mcp_server/writes.py:528-553 | an accepted write stores the edit of exactly the content at the caller's revision, with title and position as they were |
| ChapterWrites.OneSuccessorPerRevision | mcp_server/writes.py:597-607 | of all calls based on one revision at most one is accepted: so a repeated call takes effect at most once, whatever became of its reservation or its owner |
| ChapterWrites.NoUpdateIsLost | mcp_server/writes.py:528-553 | at the end of any run every accepted write is still in the chapter's history, as the one successor of the row it was based on |
| ChapterEditor.OthersRely | mcp_server/writes.py:509-553 | what a call may count on across other writers holds of every sequence of their steps |
| ChapterEditor.Chapter.AtRevision | mcp_server/writes.py:509-525 | the row read is the stored one and at the caller's revision; the call is refused only because the chapter is gone, or is stale only because it is at another revision, and then nothing is written |
| ChapterEditor.Chapter.WriteContent | mcp_server/writes.py:528-553 | the new row is the next revision with the given text and the row's own title and position; it is refused only because the chapter is gone or moved, and is not touched then |
| ChapterEditor.Chapter.AppendToChapter | mcp_server/writes.py:556-635 | success means the content at the caller's revision, the separator and the addition, in this order, were stored as its successor; each refusal is told only for its own reason (no text, chapter gone, another revision, too long as it would be stored), and nothing is written then |
| ChapterEditor.Chapter.EditChapterBlocks | mcp_server/writes.py:789-852 | success means the simultaneous rewrite of the blocks at the caller's revision was stored as its one successor; each refusal is told only for its own reason (invalid listing, chapter gone, another revision, the fault of the operations on the blocks as they are, too long), and nothing is written then |
| ChapterEditor.Chapter.Compute | mcp_server/writes.py:821-829 | split, apply in place, join and measure compute that rewrite |
| ChapterEditor.EditIgnoresOrder | mcp_server/writes.py:789-829 | the stored text does not depend on the order the operations were listed in |
| Reservations.StepInv | mcp_server/writes.py:248-327 | every create, read, takeover, record, release, expiry and collection keeps: whoever is in flight owns the document, and a stored result is its round's |
| Reservations.AtMostOneInFlight | mcp_server/writes.py:248-305 | if no owner outlives its reservation, at most one call with a key is ever in flight |
| Reservations.ReplayIsTheRoundsResult | mcp_server/writes.py:293-309 | a replay returns the result that is in the document at that moment and that the owner of its round recorded |
| Reservations.SlowOwnerIsOverlapped | mcp_server/writes.py:273-292 | without that premise exclusion fails: a reachable state in which two calls are in flight |
| Reservations.CanJoinIff | mcp_server/writes.py:248-305 | at any state at all, a newcomer can come to work beside a working call, on its own steps alone, exactly if the document has expired or was collected |
| Reservations.OverlapIffUntimely | mcp_server/writes.py:248-305 | the premise is exact: in a run that kept to it so far, a newcomer can join a working call, in a reachable state, exactly if that call is at work past its expiry |
| ReservationStore.OthersRely | mcp_server/writes.py:248-327 | what a call may count on across other calls holds of every timely sequence of their steps |
| ReservationStore.Keeper.Claim | mcp_server/writes.py:248-297 | proceed alone, replay the current round's unexpired result, or be told that the call is in flight, and this only if at some moment of the call the key was held by an unexpired round without a result, or by one begun since the call was |
| ReservationStore.Keeper.TakeOverExpired | mcp_server/writes.py:273-292 | the conditional update of an expired reservation is won by one call, and lost only to a write since it was seen |
| ReservationStore.Keeper.ClaimVacant | mcp_server/writes.py:300-305 | an absent key is claimed, or lost only to a document written since it was found absent |
| ReservationStore.Keeper.RecordResult | mcp_server/writes.py:308-309 | the result lands on the caller's own round |
| ReservationStore.Keeper.Drop | mcp_server/writes.py:312-327 | a release frees the key and takes nobody else's reservation with it |
| RepeatedEdits.TakesEffectAtMostOnce | mcp_server/writes.py:593-634 | edits and their reservations run together: in every run, even if reservations expire under their owners, are collected, or are released after the write, at most one call with a key takes effect, as the edit of the content at its revision |
| RepeatedEdits.ReplayTellsTheWrite | mcp_server/writes.py:818-852 | in every such run a replayed edit is told the result of the one write that took effect, another call's, whose row is in the chapter's history |
| Positions.ComputeNextPosition | mcp_server/writes.py:404-419 | the position is above every listed one |
| Positions.CreateIff | mcp_server/writes.py:422-443 | a create succeeds exactly when no chapter was added since the list was read |
| Positions.OthersRely | mcp_server/writes.py:422-457 | what an append may count on across other appends holds of every sequence of their steps |
| Positions.AppendsSortLast | mcp_server/writes.py:422-457 | under concurrent appends each appended chapter sorts after every chapter there before it: reading order is commit order |
| Positions.PositionsStayDistinct | mcp_server/writes.py:404-443 | positions stay distinct |
| Positions.ConflictNeedsThreeOthers | mcp_server/writes.py:422-457 | a call out of attempts has seen at least three other chapters committed since it began |
| Positions.Story.AppendChapter | mcp_server/writes.py:422-457 | the new position is above every other, or the call gave up after three others committed |
| JsonEncoding.SizeIsLength | assistant/executors.py:141-142 | the size that every ceiling is measured by is the length of the encoded text, escapes, surrogate pairs and separators included |
| JsonEncoding.SpellingRoundTrip | assistant/executors.py:141-142 | an encoded string reads back as the string |
| JsonSize.MergeGet | assistant/specialists/context_builder.py:350-353 | in {**a, **b} every key of b has b's value and every other key has a's |
| JsonSize.MergeSize | assistant/specialists/context_builder.py:348-353 | a merged object encodes to at most the sum of the two, and to exactly the sum if both are nonempty and share no key |
| Clipping.ClipShortens | assistant/executors.py:145-160 | clipping leaves every key, chapter id and number, cuts each string once at most, and keeps a prefix of each list |
| Clipping.ClipTwice | assistant/executors.py:210-215 | clipping at the ceiling first and at a smaller width later is clipping once |
| Clipping.ClipMarked | assistant/executors.py:210-232 | measuring the marked tree at a width is measuring what will be returned at that width |
| Clipping.FewerItemsFit | assistant/executors.py:217-223 | dropping list elements never lengthens an encoding |
| WidthLaws.WidenedSize | assistant/executors.py:145-160 | for every tree, list limit and width: one character wider changes the encoded size by the cost of the characters that appear, less six for each string that becomes whole |
| WidthLaws.ShownSize | assistant/executors.py:145-160 | the size at any width is that of the form without text plus what each string shows at that width |
| WidthLaws.GrowsIff | assistant/executors.py:193-197 | encoded size is monotone over a range of widths exactly if at none of them the strings that become whole save more than the others add |
| WidthLaws.SearchIsWidestIff | assistant/executors.py:169-179 | one search finds the widest that fits exactly if no width it rejects lies below one, still in its range, that fits |
| WidthLaws.UnmisledByTexts | assistant/executors.py:169-179 | whether a search on a tree does so can be read off its texts and the size of its form without text |
| WidthLaws.AlwaysWidestIff | assistant/executors.py:193-197 | for a tree, the search is sound on every range and for every ceiling exactly if no widening ever saves more than it adds |
| WidthLaws.EmptyIsSmallestIff | assistant/executors.py:193-197 | the form without text is the smallest up to a width exactly if at no width the strings together show less than nothing |
| WidthLaws.WiderThanCeiling | assistant/executors.py:210-215 | what fits at a width beyond the ceiling is the same tree at the ceiling, so no width beyond it need be tried |
| Clipping.SearchFinds | assistant/executors.py:169-179 | without assuming monotone size: what the search finds fits, it finds nothing only if width 0 does not fit, and one wider than what it finds does not fit |
| Clipping.SearchFindsWidest | assistant/executors.py:265-278 | where what fits is monotone the search finds the widest that fits; the chapter window meets this |
| Clipping.ClipProseKeepsFocus | assistant/specialists/context_builder.py:288-301 | clipping prose keeps every record, every row and every identifier and name |
| BoundedResults.WidestFitting | assistant/executors.py:169-179 | the loop over trees is that search |
| BoundedResults.FitResult | assistant/executors.py:182-226 | the loop over the ladder is the specification that the next lemmas are about |
| BoundedResults.FitOutcome | assistant/executors.py:182-226 | a payload that fits is returned untouched; else the first list length whose empty form fits is used, at a width beyond which the next does not fit; the fallback is used only if even the barest form overflows |
| BoundedResults.FitBoundedIff | assistant/executors.py:182-226 | for each payload and ceiling, exactly when the result keeps to the ceiling |
| BoundedResults.FitBoundsEveryPayload | assistant/executors.py:182-226 | the ceiling is kept for every payload exactly from 72 up |
| BoundedResults.FitKeepsShape | assistant/executors.py:182-226 | outside the fallback the result is the payload shortened, plus the truncation marker |
| FitWidths.FitByRung | assistant/executors.py:206-232 | the result in full: the fallback if every form without text overflows, else the payload at the first list length whose form without text fits, at the width the search finds for the marked payload itself |
| FitWidths.FitIsWidestIff | assistant/executors.py:169-223 | the width of a result is the widest up to the ceiling that fits exactly if, as far as the size of the form without text and what the texts show at each width tell, the search passes over no width below one that fits |
| FitWidths.FitIsWidest | assistant/executors.py:193-197 | where no widening saves more than it adds, the result is the widest that fits at its list length |
| FitWidths.DropsNeedlesslyAtIff | assistant/executors.py:193-223 | at one ceiling, a list length at which some width fits is passed over exactly if at a rung passed over the strings that become whole save what is missing |
| FitWidths.DropsNeedlesslyIff | assistant/executors.py:193-223 | over all ceilings, read off the payload: some ceiling drops elements needlessly exactly if at some rung and width the strings show less than nothing and the form is smaller than the payload |
| FitWidths.LongTextsAreKept | assistant/executors.py:193-197 | if every string that may be clipped is empty or costs at least the marker, list elements are dropped only when they fit at no width |
| FitWitnesses.FitCanMissAWiderFit | assistant/executors.py:193-197 | a roster of seven characters at a ceiling of 500, of which every name and identifier is cut to nothing though three characters of each fit |
| FitWitnesses.FitCanDropNeedlessly | assistant/executors.py:193-197 | a roster of sixteen characters at a ceiling of 1000, of which six are dropped though all sixteen fit at width 1 |
| ChapterWindow.FitChapterWindow | assistant/executors.py:235-278 | the loop is the specification that the next lemmas are about |
| ChapterWindow.WindowIsLongest | assistant/executors.py:235-278 | when the empty window or the whole one fits, the longest prefix of the content that fits is returned |
| ChapterWindow.WindowIsBounded | assistant/executors.py:261-264 | a ceiling of 72 or more is kept even when the empty window does not fit |
| ChapterWindow.OneRead | assistant/executors.py:393-416 | a read returns exactly the text between the offset asked for and the offset it names, and at least one character exactly when one fits |
| ChapterWindow.PastTheEnd | mcp_server/data.py:261-287 | a read at or past the end of the text shows nothing and names no next offset |
| ChapterWindow.PiecesConcatenate | assistant/executors.py:406-416 | following next_offset from any start yields pieces that concatenate to the text, with no gap and no overlap |
| ChapterWindow.ReadingEndsIff | mcp_server/data.py:261-287 | following next_offset reads the chapter to its end exactly if every window on the way admits a character |
| ContextFit.BuildFitting | assistant/specialists/context_builder.py:304-353 | the code path with its own search loop is the specification that the next lemmas are about |
| ContextFit.ContextIsBounded | assistant/specialists/context_builder.py:304-353 | what is built keeps to the specialist's ceiling, and a context is rejected only if its focus with every clippable string empty overflows |
| ContextFit.FocusSurvives | assistant/specialists/context_builder.py:308-346 | every focused key is there with all its rows, identifiers and names uncut, and with its prose uncut if the focus fits by itself |
| ContextFit.BackgroundRidesAlong | assistant/specialists/context_builder.py:348-353 | background that fits in what the focus leaves, when that is at least 128, is carried whole |
| ContextBackground.BackgroundIsCarried | assistant/specialists/context_builder.py:348-353 | above the ceiling, beside any focus that leaves at least 128, every key of the background is shown, shortened, and whole if all of it fits; but for one case, that even its barest form overflows what is left |
| ContextBackground.OverviewIsCarried | assistant/specialists/context_builder.py:304-353 | so the story's overview is there, whole or shortened |
| ContextBackground.NoRoomNoBackground | assistant/specialists/context_builder.py:348-349 | beside a focus that leaves less than 128, nothing is shown but the focus |
| RunBudgets.RunBudget.TakeDirectorCall | assistant/specialists/budget.py:24-28 | a director call is taken exactly below the ceiling |
| RunBudgets.RunBudget.TakeConsult | assistant/specialists/budget.py:30-42 | a consult and its model call are taken together or not at all, and a director call is left after |
| RunBudgets.RunBudget.RefundConsult | assistant/specialists/budget.py:53-56 | both counters go down by one, stopping at zero |
| RunBudgets.StepInv | assistant/specialists/budget.py:24-56 | every interleaved take and refund keeps the counters equal to the takes not refunded, and within the ceilings |
| RunBudgets.CeilingsHold | assistant/specialists/runner.py:201-216 | over every interleaving of concurrent consults the calls models receive, the consults granted and the reviews stay within their ceilings |
| RunBudgets.RefundsAreExact | assistant/specialists/runner.py:397-402 | a refund undoes its own take exactly: no clamp at zero ever takes effect |
| RunBudgets.DirectorCanAnswer | assistant/specialists/budget.py:30-42 | from a granted consult until the director's next call, that call is available, whatever else is granted or refunded |
| Consults.OthersRely | assistant/specialists/runner.py:162-420 | what a consult may count on across other consults holds of every sequence of their steps |
| Consults.Room.ConsultStream | assistant/specialists/runner.py:162-420 | for every context, stream, failure and timeout: the text received by a drafter first, then the one outcome that the request, the budget and the events determine; and the budget stays charged exactly if the model was reached |
| Consults.Room.Converse | assistant/specialists/runner.py:249-361 | the stream loop ends in the one outcome that the events heard until the end or the time limit determine; only a draft shows text, and shows exactly what was received |
| Consults.Room.Listen | assistant/specialists/runner.py:249-330 | the loop collects exactly the text, the usage and the verdict of the events up to the stream's first error or end |
| Consults.Room.Conclude | assistant/specialists/runner.py:300-361 | what a stream comes to: failed, unfinished, an invalid submission, findings, a delivered draft or nothing usable, exactly as its events say |
| Consults.Room.RunConsult | assistant/specialists/runner.py:423-430 | there is always an outcome to return, and it is the one the same inputs give the stream |
| EventLog.ValidateEventSequence | assistant/events.py:244-267 | accepts exactly the sequences of one run, dense from zero, with one terminal event, last |
| EventLog.OneTerminalLast | assistant/events.py:261-266 | counting one terminal and finding it last is the same as nothing terminal before the last |
| EventLog.RunEvents.Emit | assistant/events.py:219-234 | events are stamped densely with the run's id, nothing is stamped after a terminal event, and a refused event leaves no gap |
| RunStream.ReadStream | assistant/run.py:737-817 | how the loop over a stream ends is told by the stream alone: it goes on exactly after a stream that is done before any error, and fails the run with the error's code after one that fails or just stops, unless a field is too long for an event; the text shown is the text received |
| RunStream.TakeOne | assistant/run.py:737-810 | one stream event fails the run exactly if it is an error, is refused only if it or one before it does not fit, and is accounted for otherwise |
| RunStream.TakeFragment | assistant/run.py:753-786 | a call is started once it has an id and a name, and is then given every chunk received for it, once and in order |
| RunStream.ArgumentsArePassedOn | assistant/run.py:766-785 | for every started call the argument text passed on is exactly the text received for it |
| RunLoop.Calls | assistant/run.py:851-856 | the step's calls in ascending order of their indices, and whether all were started |
| RunLoop.Run.RejectExcluded | assistant/run.py:910-921 | a call the step did not allow fails before anything else is done |
| RunLoop.Run.SettleConsult | assistant/run.py:923-959 | one consult settles one call, by one event, and the model is told what that event says: the payload if it succeeded, the error's code if not |
| RunLoop.Run.SelectConsults | assistant/run.py:961-987 | of the consults not settled before, those asked together are the first to each specialist that are no drafts; every other is settled here with its one refusal, or is a draft left for streaming |
| RunLoop.Run.Wave | assistant/run.py:996-1030 | a wave settles each of its calls once, in whatever order the consults finish, and tells the model what its event says |
| RunLoop.Run.DispatchAll | assistant/run.py:1038-1276 | every call in turn gets its tool message, which says what the call's one event said; those not settled before get that event here |
| RunLoop.Run.RunCalls | assistant/run.py:874-1276 | a step that goes on to another model call has given each call exactly one completed-or-failed event and exactly one tool message in call order, which says what that event says, and has refused every call it did not allow; it goes on only if no call found the story denied, and ends the run only for that, a proposal to approve or a delivered draft |
| RunLoop.Run.SettleFirst | assistant/run.py:905-1036 | calls not allowed and consults are settled before the others are run, and the run ends here exactly if a consult found the story denied |
| RunLoop.Run.CallTools | assistant/run.py:851-872 | a step whose calls are missing, not all started or crowd a proposal fails the run; one that would pass the tool-call ceiling ends it with max_steps before any call is made; any other runs its calls |
| RunLoop.ToldOnce | assistant/run.py:1146-1276 | a call that was told one thing has one event since: completed exactly if it was told a result, and failed with that code exactly if it was told an error |
| RunLoop.AnswersKeep | assistant/run.py:884-1276 | a conversation in which every turn is answered stays one when a turn and its tool messages are added |
| RunLoop.Run.Reply | assistant/run.py:824-849 | a step without calls ends the run, except for one nudge, given only if a model call is left for it |
| RunLoop.Run.Act | assistant/run.py:819-872 | a stream that ended well ends the run only for the reason its finish, its calls and the ceiling give, and with the event that goes with it; the tool-call count grows by the calls made |
| RunLoop.Run.Report | assistant/run.py:1146-1170 | a call's failure is one failed event and goes back to the model, a denied story ends the run, and any other exception goes on outwards |
| RunLoop.Run.Complete | assistant/run.py:1171-1259 | a proposal ends the run for approval, a delivered draft ends it for its own reason, and any other result is one completed event |
| RunLoop.Run.RequestApproval | assistant/run.py:1202-1212 | an approval request is followed by the run's completion with tool_calls and nothing else |
| RunLoop.Run.TakeDirectorCall | assistant/run.py:719 | the loop runs only on budget taken, and the director never has more calls than the ceiling |
| RunLoop.Run.Step | assistant/run.py:719-872 | one model call ends the run with the code of a failed stream, or for the reason that the calls received in it give |
| RunLoop.Run.Assist | assistant/run.py:550-1289 | every run, for every stream, tool outcome, continuation, timeout and exception, emits a sequence the validator accepts, closes every approval request with the run, never counts more tool calls or model calls than allowed, and shows the model only conversations in which each call has its one answer |
| RateLimit.PerUserRateLimiter.Admit | rate_limit.py:129-137 | a new key makes room by evicting the keys touched longest ago, and counts them |
| RateLimit.PerUserRateLimiter.Allow | rate_limit.py:95-122 | the answer and the new table are those of the specification the next lemmas are about |
| RateLimit.PerUserRateLimiter.Spend | rate_limit.py:107-122 | a known key takes in what accrued, pays for the request if it can, and moves to the end of the table |
| RateLimit.RecencyHas | rate_limit.py:107-118 | the order of recency lists exactly the keys that made a request |
| RateLimit.TableIsMostRecent | rate_limit.py:129-137 | the table holds exactly the most recently touched keys, up to its capacity, in the order of touch |
| RateLimit.BoundedAgreesWithUnbounded | rate_limit.py:95-137 | with a clock that does not go back and no evicted key returning within 60 seconds of its last touch, every answer is that of a table that never evicts |
| RateLimit.PotentialBound | rate_limit.py:95-122 | tokens minus rate times last update never grows, and falls by one with each request allowed, whatever the order of time stamps |
| RateLimit.RateIsBounded | rate_limit.py:95-122 | between two allowed requests of a key that is not evicted, at most max + max/60 per second are allowed, even when time stamps arrive out of order |
| RateLimit.RefusedOnlyIfSpent | rate_limit.py:95-122 | with a clock that does not go back, a request is refused only if at least the maximum of its key's requests stamped within the sixty seconds before it were allowed |
| RateLimit.BurstIsAllowed | rate_limit.py:95-122 | so a key that asked fewer than that many times in the last sixty seconds is never refused |
| RateLimit.EvictionFailsOpen | rate_limit.py:22-30 | for every sequence of requests, whatever the clock and the keys do, a key is allowed at least as many as if nothing were ever evicted |
| Ordering.SortForgetsOrder | agents/storyAgent/plot_selection.py:41-65 | sorting by a key without ties gives the same list for every order of the same elements |
| PlotSelection.SelectPlotContext | agents/storyAgent/plot_selection.py:68-167 | the loops compute the specification that the next lemmas are about |
| PlotSelection.TakeEvents | agents/storyAgent/plot_selection.py:119-129 | the loop takes events not shown yet, up to a limit, and marks them shown |
| SelectionLaws.PlanShowsTheChapter | agents/storyAgent/plot_selection.py:131-133 | the chapter plan is every event planned for the active chapter, once, in chapter order, each with its own plot line |
| SelectionShown.WithoutAChapter | agents/storyAgent/plot_selection.py:92-103 | without a chapter there is one section, of at most twelve plot lines with their events and a count of the rest: as stored up to twelve, and the latest of more |
| SelectionShown.ChapterIsFoundIff | agents/storyAgent/plot_selection.py:85-92 | which is so exactly if no chapter has the id asked for |
| SelectionShown.EventSectionsAre | agents/storyAgent/plot_selection.py:105-147 | the event sections are the plan, then the chapter before and the chapter after in reading order, with the first twelve of their events in chapter order, or no section if there are none |
| SelectionSections.NoEventTwice | agents/storyAgent/plot_selection.py:116-147 | no event is in two sections or twice in one, and a neighbour shows at most twelve |
| SelectionSections.EveryLineCounts | agents/storyAgent/plot_selection.py:149-166 | plot lines shown plus omitted are all plot lines, each once, those of the events shown first, in the order in which these first mention them, and the others after them by recency |
| SelectionOrder.SelectionForgetsOrder | agents/storyAgent/plot_selection.py:68-167 | with an active chapter and distinct ids the sections are the same for every reordering of plots, chapters and events |

## Left out

- Firestore's collection of family records by age: a marked family record stays for ever in the model, while transactions, codes and tokens are collected.
- Wall-clock skew between processes, and time zones: one clock that does not go back.
- Generation and hashing of secrets: identifiers are fresh, and a token is its own hash.
- Client registration and dynamic client metadata, redirect validation, OIDC: not part of the lineage.
- OAuthServer.Server.Interfere: a method with an empty body; its contract stands for what other requests may do, and `OthersRely` proves that it covers every sequence of their steps. The same holds of `Interfere` in the other classes.
- OAuthServer.Server.LoadRefreshToken: does not model the age of a rotation, which is only logged and decides nothing.
- OAuthServer.Server.RevokeTokenFamily: says nothing of the count it returns, which is only logged.
- The HTML tokenizer: tokens are given, spell the content, and markup begins and ends in characters that are not blank.
- Regular expressions: the paragraphs of a text are given with it.
- Blocks.SplitBlocks: a chapter's tokens are an argument; the parser that produces them is not part of this model.
- Sizes of titles, tags and descriptions, the parsing of a revision argument, and the audit log: plain checks.
- ChapterEditor.Chapter.EditChapterBlocks: does not model the reservation around it, which `RepeatedEdits` joins to it as machines, nor the counts in its answer; a recorded result is known by the revision it names.
- ReservationStore.Keeper.RecordResult: does not model a store failure between the write and the record; such a call just dies, which is a step of the machine.
- Positions.ComputeNextPosition: uses real numbers, so rounding of positions beyond 2^53 is not modelled.
- Writers other than appends that move or delete chapters while a position is chosen.
- JSON numbers other than counts, of which only the length is known, and dictionaries with keys that are not strings.
- Lists inside foreign values that the encoder would turn into text: an atom of some length.
- Entity binding, prompt text, history replay, and the contents of tool results and findings.
- Consults.Room.ConsultStream: tokens, timings and log lines of a consult; findings are readable or not.
- RunLoop.Run.Execute: what a tool does is an unconstrained choice between a result and an exception.
- RunLoop.Run.StreamDraft: does not model the budget of a consult cut off before it ends: it is charged as one that ran to its end.
- RunLoop.Run.Wave: tasks that finish together are settled one after another, in any order; cancelling what is left is part of the budget's steps.
- RunLoop.Run.Assist: external cancellation, after which no event is sent, and the consumer's side of the generator.
- Provider metadata of a tool call.
- Rounding of tokens and time in the rate limiter: real numbers; its lock is the atomicity of one request.
- PlotSelection.SelectPlotContext: every chapter has an id; the lookup of a neighbour's id (agents/storyAgent/plot_selection.py:143) would raise on a chapter without one.
- String comparison of identifiers in plot selection: an identifier is its place in the order of the strings.
- The outbox worker, image generation, routes, settings and provider transport: plumbing without a deep property.
