# Creator Portal campaign core, in Dafny

This project models the campaign lifecycle behind the Creator Portal's
"Campaigns & Contracts" view (`src/App.tsx`).

A campaign is an invite until the creator acts on it. The creator can accept
it, which sets its stage to "Accepted". The creator can decline it, which
records a reason, "creator" and the time. The creator can also request an
update, which appends a request to the campaign's list.

The view sorts the campaign list into four strips:
- Ongoing
- Available & New Opportunities
- Update Requests
- Completed & Declined

Each strip can be narrowed by its own name search. The available strip can
also be narrowed by a recency filter (Today, This Week, This Month, This Year
or All).

The model also covers the following:
- the fixed order of the five progress steps;
- the two clock helpers, `timeAgo` and `withinRange`;
- the builder of the sample list the portal starts from;
- the chat box's Send button.

Modules:

- `Basics`: the optional value and the three array methods the code relies
  on, `filter`, `map` and `findIndex`. Each is specified by what it returns,
  together with the subsequence relation that `filter` keeps.
- `Decimal`: how a template literal prints an integer. The module proves
  that the printed text reads back to the same number.
- `Text`: `trim` with ECMAScript's whitespace set, `toLowerCase` and
  `includes`.
- `TimeHelpers`: `timeAgo` and `withinRange`. Both read the clock, so here
  `now` is a parameter.
- `Campaigns`: the campaign record, `progressSteps`/`getStageIndex`, the
  four strip predicates, and the three list rewrites. The rewrites are
  `handleAccept`, `confirmDecline` and `sendUpdate`, written as functions
  over the list. The module also holds the lemmas relating the rewrites to
  the strips.
- `CardStrip`: what a strip shows after its search box and the recency
  filter.
- `Chat`: the chat box's Send button.
- `ContractsBoard`: the view's state as a class, with one method per event
  handler.
  - The state is the list, the filter, the open brief and the texts typed
    into the decline and update dialogs.
  - The Accept, Decline and Update Request buttons appear only on the brief
    of an available campaign. That condition (`!stage && !declined`) is the
    precondition of the three methods. The handlers themselves check
    nothing, so the pure rewrites in `Campaigns` have no precondition.
- `MockData`: `makeId` and `makeMockCampaigns`. The builder is a method with
  the source's three loops and its two in-place patches. It is proved to
  return the list `MockCampaigns` describes. The shape of that list is
  proved as lemmas.

Times are integers in milliseconds. The random draw in `sendUpdate`
(`Math.floor(Math.random() * 999)`) is the parameter `draw`, with
`0 <= draw < 999`.

The code differs from a lifecycle with a full partition of states:

- There is no operation that advances a stage.
- Nothing initialises the payment status.
- No action rejects an invalid transition.
- The strips overlap: a declined campaign with a stage other than
  "Post Approval" shows both as ongoing and as completed.

The model follows the code. It also proves that the overlap cannot arise
through the guarded buttons when ids are distinct, as they are in the
sample list (`AcceptKeepsStripsApart`, `DeclineKeepsStripsApart`,
`RequestKeepsStripsApart`, `MockIdsDistinct`).

## Model

| member | source | states |
|---|---|---|
| Basics.Filter | src/App.tsx:1018-1025 | `Array.prototype.filter` as the strips use it: the result is no longer than the input |
| Basics.FilterMembers | src/App.tsx:1018-1025 | the filter result is a subsequence of the input (same relative order), every element of it passes the predicate, and every element of the input that passes is kept, as many times as the input holds it (equal multiplicities) |
| Basics.Map | src/App.tsx:1028-1031 | `Array.prototype.map`: same length, and element `i` of the result is the function applied to element `i` |
| Basics.FindIndex | src/App.tsx:952-953 | `Array.prototype.findIndex`: -1 exactly when no element passes; otherwise an index whose element passes and before which none does |
| Decimal.NatToString | src/App.tsx:78 | the decimal digits of a natural number, non-empty, starting with 0 only for zero, and zero is the single digit `0` (no leading zero) |
| Decimal.IntToString | src/App.tsx:78 | an integer printed by a template literal: non-empty, starting with `-` exactly for negative numbers, then digits with no leading zero (zero alone is `0`) |
| Decimal.NatRoundTrip | src/App.tsx:78 | reading the printed digits back yields the same natural number |
| Decimal.IntRoundTrip | src/App.tsx:78 | reading a printed integer back yields the same integer |
| Decimal.IntToStringInjective | src/App.tsx:78 | two integers print as the same text exactly when they are equal |
| Text.Trim | src/App.tsx:877 | definition of `trim`; properties in `Text.TrimSpec` and `Text.TrimEmptyIffBlank` |
| Text.SkipLeading | src/App.tsx:877 | where `trim` starts: every character skipped is whitespace and the first character kept is not |
| Text.SkipTrailing | src/App.tsx:877 | where `trim` ends: every character dropped at the end is whitespace and the last character kept is not |
| Text.TrimSpec | src/App.tsx:877 | `trim` returns a slice of the text with only whitespace before and after it, and neither end of the result is whitespace |
| Text.TrimEmptyIffBlank | src/App.tsx:877 | the trimmed text is empty exactly when every character is whitespace |
| Text.LowerChar | src/App.tsx:1101 | ASCII upper-case letters map to their lower-case letter and every other character is unchanged |
| Text.ToLower | src/App.tsx:1101 | the ASCII stand-in for `toLowerCase`: same length, each character mapped by `LowerChar` |
| Text.Includes | src/App.tsx:1101 | `includes` is true exactly when the needle occurs in the text at some position |
| Text.IncludesEmpty | src/App.tsx:1101 | every text includes the empty search string, so an empty search box matches every name |
| TimeHelpers.ElapsedSeconds | src/App.tsx:81 | the elapsed seconds are the elapsed milliseconds divided by 1000 and rounded down (bounds on both sides) |
| TimeHelpers.TimeAgo | src/App.tsx:80-86 | the unit is seconds below 60 s, minutes below 3600 s, hours below 86400 s and days otherwise (each both ways); the count is the elapsed time in that unit rounded down; minutes lie in 1..59, hours in 1..23 and days are at least 1 |
| TimeHelpers.TimeAgoText | src/App.tsx:80-86 | definition of the `timeAgo` text; properties in `TimeHelpers.TimeAgo` and `TimeHelpers.TimeAgoTextReadsBack` |
| TimeHelpers.TimeAgoTextReadsBack | src/App.tsx:80-86 | the text ends in ` ago` after the unit letter, and the part before the letter is exactly the count as `${count}` prints it, reading back as the count |
| TimeHelpers.WithinRange | src/App.tsx:88-102 | definition of `withinRange`; properties in `TimeHelpers.WithinRangeNests`, `TimeHelpers.WithinRangeOtherFilter` and `TimeHelpers.WithinRangeKeepsNewer` |
| TimeHelpers.WithinRangeNests | src/App.tsx:88-102 | the windows nest: Today implies This Week, which implies This Month, which implies This Year |
| TimeHelpers.WithinRangeOtherFilter | src/App.tsx:88-102 | any filter other than the four windows, `All` among them, keeps every time |
| TimeHelpers.WithinRangeKeepsNewer | src/App.tsx:88-102 | a window that keeps a creation time keeps every later one |
| Campaigns.StageIndex | src/App.tsx:944-953 | over the five steps of the constant `ProgressSteps` (Accepted, Content Sent, Approval, Content Posted Confirmation Sent, Post Approval): the index lies in -1..4; it is -1 exactly for no stage or a stage that is not a progress step; otherwise the step at that index is the stage |
| Campaigns.StageIndexValues | src/App.tsx:944-953 | Accepted, Content Sent, Approval, Content Posted Confirmation Sent and Post Approval get 0 to 4 in that order; no stage and Invite get -1 |
| Campaigns.StageIndexRoundTrip | src/App.tsx:944-953 | looking up the step at any index gives that index back |
| Campaigns.IsOngoing | src/App.tsx:1018-1020 | definition of the ongoing filter; properties in `Campaigns.StripOverlap` and `Campaigns.NotDeclinedInExactlyOneStrip` |
| Campaigns.IsAvailable | src/App.tsx:1021 | definition of the available filter; properties in `Campaigns.AvailableIsExclusive` and `Campaigns.NotDeclinedInExactlyOneStrip` |
| Campaigns.HasUpdateRequests | src/App.tsx:1022 | definition of the update-request filter; properties in `Campaigns.RequestJoinsUpdateStrip` |
| Campaigns.IsCompletedOrDeclined | src/App.tsx:1023-1025 | definition of the completed filter; properties in `Campaigns.StripOverlap` and `Campaigns.DeclineMovesToCompleted` |
| Campaigns.OngoingStrip | src/App.tsx:1018-1020 | definition of the ongoing strip; properties in `Campaigns.StripsCoverList` and `MockData.MockOngoingStrip` |
| Campaigns.AvailableStrip | src/App.tsx:1021 | definition of the available strip; properties in `Campaigns.StripsCoverList`, `Campaigns.AcceptShrinksAvailableStrip` and `Campaigns.DeclineShrinksAvailableStrip` |
| Campaigns.UpdateRequestStrip | src/App.tsx:1022 | definition of the update-request strip; properties in `MockData.MockUpdateRequestStrip` |
| Campaigns.CompletedStrip | src/App.tsx:1023-1025 | definition of the completed strip; properties in `Campaigns.StripsCoverList` and `MockData.MockCompletedStrip` |
| Campaigns.AvailableIsExclusive | src/App.tsx:1018-1025 | an available campaign is neither ongoing nor completed |
| Campaigns.NotDeclinedInExactlyOneStrip | src/App.tsx:1018-1025 | a campaign that is not declined is in exactly one of the ongoing, available and completed strips |
| Campaigns.StripOverlap | src/App.tsx:1018-1025 | every campaign is in one of the three; it is both ongoing and completed exactly when it is declined and has a stage other than Post Approval |
| Campaigns.StripsCoverList | src/App.tsx:1018-1025 | every campaign of the list appears in the ongoing, available or completed strip, and nothing in the available strip appears in the other two |
| Campaigns.AcceptById | src/App.tsx:1027-1032 | same length and ids; a campaign with another id is unchanged; the matching one gets stage Accepted and isNew false, with every other field kept |
| Campaigns.DeclineById | src/App.tsx:1042-1054 | same length and ids; a campaign with another id is unchanged; the matching one gets the decline (reason, "creator", time) and isNew false, with stage and every other field kept |
| Campaigns.ConfirmDecline | src/App.tsx:1042-1057 | with no brief open the list is unchanged; otherwise it is declined at the open brief's id |
| Campaigns.NewRequest | src/App.tsx:1067-1072 | the request is from "creator", with the message and time given; its id is `UR-` followed by digits that read back as the draw, with no leading zero (only `UR-0` has a 0 after the dash) |
| Campaigns.WithRequest | src/App.tsx:1074-1080 | the campaign's requests (an absent list read as empty) gain the new request at the end; isNew becomes false; id, stage, decline and every other field are kept |
| Campaigns.AppendRequestById | src/App.tsx:1073-1083 | same length and ids; a campaign with another id is unchanged; the matching one receives the request as `WithRequest` states |
| Campaigns.SendUpdate | src/App.tsx:1065-1086 | with no brief open the list is unchanged; otherwise the new request is appended at the open brief's id |
| Campaigns.AcceptMovesToOngoing | src/App.tsx:1027-1032 | an available campaign, once accepted, is ongoing and neither available nor completed, and its update-request membership is unchanged |
| Campaigns.DeclineMovesToCompleted | src/App.tsx:1042-1054 | a declined campaign leaves the available strip and enters the completed strip, with its ongoing and update-request membership unchanged |
| Campaigns.RequestJoinsUpdateStrip | src/App.tsx:1065-1083 | the campaign enters the update-request strip and stays in exactly the other strips it was in |
| Campaigns.AcceptShrinksAvailableStrip | src/App.tsx:1027-1032 | after accepting, the available strip is the old one without the accepted id, in the same order |
| Campaigns.DeclineShrinksAvailableStrip | src/App.tsx:1042-1054 | after declining, the available strip is the old one without the declined id, in the same order |
| Campaigns.AcceptIdempotent | src/App.tsx:1027-1032 | accepting the same id twice is accepting it once |
| Campaigns.SendAll | src/App.tsx:1065-1083 | sending any number of requests keeps the length of the list |
| Campaigns.SendAllAt | src/App.tsx:1065-1083 | after a run of requests to one id, a campaign with another id is unchanged; the matching one holds its old requests followed by the new ones in sending order, with stage and decline unchanged |
| Campaigns.SendAllAppendsInOrder | src/App.tsx:1065-1083 | requests sent one after another accumulate after the existing ones in sending order; stage, decline and all other campaigns are untouched |
| Campaigns.AcceptKeepsStripsApart | src/App.tsx:1027-1032 | with distinct ids, accepting an available campaign keeps the ids distinct and no campaign both ongoing and completed |
| Campaigns.DeclineKeepsStripsApart | src/App.tsx:1042-1054 | with distinct ids, declining an available campaign keeps the ids distinct and no campaign both ongoing and completed |
| Campaigns.RequestKeepsStripsApart | src/App.tsx:1065-1083 | a request keeps the ids distinct and no campaign both ongoing and completed |
| Campaigns.DeclineRunningOverlaps | src/App.tsx:1042-1054 | declining a running campaign, which only the guard prevents, leaves it ongoing and makes it completed too |
| CardStrip.NameMatches | src/App.tsx:1101 | definition of the name search; properties in `CardStrip.Visible` and `Text.IncludesEmpty` |
| CardStrip.PassesRecency | src/App.tsx:1102-1104 | definition of the recency step; properties in `CardStrip.Visible` and `CardStrip.VisibleUnfilteredShowsAll` |
| CardStrip.Visible | src/App.tsx:1098-1106 | the shown cards are a subsequence of the strip's data; each matches the search and passes the recency filter when the strip is filterable; each campaign of the data that does both is shown, as many times as the data holds it |
| CardStrip.VisibleUnfilteredShowsAll | src/App.tsx:1098-1106 | with an empty search and the filter at All (or a strip that is not filterable), the whole strip is shown |
| CardStrip.VisibleStaysInStrip | src/App.tsx:1098-1106 | every card the filterable available strip shows is a campaign of the list and is available |
| Chat.Send | src/App.tsx:876-881 | blank text leaves the box unchanged; otherwise exactly one message is appended, from the creator at the given time, holding the non-empty trimmed text, earlier messages are kept and the input is cleared |
| ContractsBoard.CampaignsContracts.constructor | src/App.tsx:1011-1016 | the view starts with the list given, the filter at All, no brief open and both dialog texts empty |
| ContractsBoard.CampaignsContracts.OpenBrief | src/App.tsx:1174 | the brief of a campaign from the list is open |
| ContractsBoard.CampaignsContracts.CloseBrief | src/App.tsx:1220 | no brief is open |
| ContractsBoard.CampaignsContracts.SetFilter | src/App.tsx:1116 | the filter is the one chosen; the open brief still shows a campaign of the list |
| ContractsBoard.CampaignsContracts.HandleAccept | src/App.tsx:1027-1034 | under the guard, the list becomes the accept rewrite of the open brief's id, that campaign is then ongoing, the brief closes, and distinct ids with strips apart are kept |
| ContractsBoard.CampaignsContracts.HandleDecline | src/App.tsx:1036-1040 | under the guard, the reason text is cleared and the brief stays open |
| ContractsBoard.CampaignsContracts.SetReasonText | src/App.tsx:1285 | the reason text is the one typed; the open brief still shows a campaign of the list |
| ContractsBoard.CampaignsContracts.ConfirmDecline | src/App.tsx:1042-1057 | the list becomes the decline rewrite of the open brief; with no brief open it is unchanged; otherwise that campaign is completed and no longer available, and the brief closes; declining an available campaign keeps distinct ids and strips apart |
| ContractsBoard.CampaignsContracts.HandleUpdate | src/App.tsx:1059-1063 | under the guard, the update message is cleared and the brief stays open |
| ContractsBoard.CampaignsContracts.SetUpdateMsg | src/App.tsx:1314 | the update message is the one typed; the open brief still shows a campaign of the list |
| ContractsBoard.CampaignsContracts.SendUpdate | src/App.tsx:1065-1086 | the list becomes the send-update rewrite of the open brief; with no brief open it is unchanged; otherwise that campaign is in the update-request strip, and the brief closes; distinct ids and strips apart are kept |
| MockData.MakeId | src/App.tsx:78 | definition of `makeId`; properties in `MockData.MakeIdInjective` |
| MockData.MakeIdInjective | src/App.tsx:78 | two numbers give the same campaign id exactly when they are equal |
| MockData.MockCampaigns | src/App.tsx:208-281 | definition of the sample list the builder returns; properties in `MockData.MockShape`, `MockData.MockIdsDistinct` and the four strip lemmas below |
| MockData.MakeMockCampaigns | src/App.tsx:208-281 | the three loops and the two patches build exactly the list `MockCampaigns` describes |
| MockData.MockShape | src/App.tsx:208-281 | 20 campaigns, none declined: ten invites with ids CID-1001..1010, new only for the first three; six running with ids CID-1100..1105 and stages cycling Accepted, Content Sent, Approval; four at Post Approval and Paid with ids CID-1200..1203; only positions 3 and 12 carry a request, one each |
| MockData.MockIdsDistinct | src/App.tsx:208-281 | no two samples share an id, and none is both ongoing and completed |
| MockData.MockAvailableStrip | src/App.tsx:208-281 | the available strip of the samples is the ten invites |
| MockData.MockOngoingStrip | src/App.tsx:208-281 | the ongoing strip of the samples is the six running campaigns |
| MockData.MockCompletedStrip | src/App.tsx:208-281 | the completed strip of the samples is the four finished campaigns |
| MockData.MockUpdateRequestStrip | src/App.tsx:208-281 | the update-request strip of the samples is the campaigns at positions 3 and 12, in that order |

## Left out

- Rendering is not modelled. This covers JSX, layout, styling, the progress bar drawing and the payment modal's display text. None of it decides what happens to the list.
- The open/close flags of the decline and update dialogs are not modelled. The state they guard is modelled: the open brief and the typed texts.
- `alert`, `console.log` and `toLocaleDateString` are browser calls and are left out.
- `Date.now()` is the parameter `now`.
- `Math.random()` in `sendUpdate` is the parameter `draw`. Whether two draws collide is not modelled.
- Text.LowerChar: lowers only the ASCII letters `A` to `Z`, because full Unicode case mapping is table-driven and outside the model.
- Text.ToLower: non-ASCII letters are not lowered (`É` stays `É`), and mappings that change the length (`\u0130` becomes two code units) are lost, so the model keeps the length where `toLowerCase` may not.
- CardStrip.NameMatches: inherits the ASCII-only lowering, so a name and a search that differ only in the case of a non-ASCII letter do not match in the model, although they do in the portal.
- Optional text fields of a campaign (deliverables, amount, offering) are plain strings. `undefined` only changes how they render.
- `isNew` is a boolean. An absent value reads as false wherever the code tests it.
- Campaigns are compared by id, as the code does. `UpdateRequest` and `Decline` carry the fields the code writes.
- The campaign record has no `isBroadcast` field. No modelled code reads or writes it.
- The notification list (`makeNotifications`) is outside this core.
- `CreatorDirectory` is not part of this model. It is profile and social-link form editing.
- `src/MSUserApp.tsx`, `src/Home.tsx` and `src/main.tsx` are not part of this model. They are UI with hard-coded data.
- `src/types.ts` is not part of this model. It declares a different `Campaign` shape that none of the modelled code uses.
- `src/App.tsx` has no stage-advance operation, no payment-status initialisation and no transition errors, so the model has none either.
- JavaScript numbers are floating point. The model uses unbounded integers. The times, offsets and ids are integers far below 2^53. The quotients `(Date.now() - ts) / 1000`, `diff / 60`, `diff / 3600`, `diff / 86400` and `Math.random() * 999` are fractional, but each is rounded down with `Math.floor` before use. For a positive divisor Dafny's `/` on integers computes that same floor.
