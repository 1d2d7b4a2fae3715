# Referral dashboard logic in Dafny

This project models the state and arithmetic behind a member-get-member
referral dashboard. The programme pays on three referral levels. Its pages are
built over fixed sample data, and the model covers the logic inside them:

- **Referral tree** (`referral_tree.dfy`, `visual_network_tree.dfy`,
  `referral_network.dfy`). The network statistics come from a recursive walk
  that counts total, active and per-level members and skips the `'user'` root
  that stands for the viewer. A second counter counts only three levels down:
  entries, their children and their grandchildren. Beside these sit the
  active-entry count and the activity-rate percentage. The visual tree's
  expanded-card set supports toggle, Expand All and Collapse All; the referral
  list's set supports toggle only. One rule, shared by both views, decides
  which cards are on screen.
- **Points ledger** (`points_history.dfy`). The filter view is a
  case-insensitive search conjoined with a type select and a status select.
  The ledger also has totals by status and the icon and colour chosen for each
  row.
- **Reward claim centre** (`rewards_claim_center.dfy`). Claimed rewards form a
  set that only grows. The claim centre also shows the point total still
  available, where a dollar counts as ten points, the pending total, the
  "Available (n)" count and the "All caught up" state.
- **Onboarding wizard** (`onboarding_flow.dfy`). The wizard has three steps.
  "Continue" marks the current step done and moves on, and on the last step it
  finishes instead. "Skip Tutorial" finishes at once. The model also covers
  the progress percentage, the button label and the step dots.
- **Admin configuration** (`admin_config.dfy`). The settings record has three
  level rules, global settings and notification flags. Handlers update it one
  field at a time, and an unsaved-changes flag tracks edits. The page can
  save, which lowers the flag, and reset to defaults, which raises it.

Methods model the handlers and loops that change state. Classes hold the
component state: `TreeView`, `NetworkView`, `ClaimCenter`, `Onboarding` and
`AdminConfigPage`. Each method is stated against a pure function of the old
state, and the lemmas about those functions carry the properties.

The forest walk of `calculateNetworkStats` is specified one counter at a time
(`Count(forest, c)`). The model also gives a second, independent account: the
walk counts exactly the non-sentinel members of the flattened forest
(`CountIsTally`).

The activity rate divides `activeUsers` by `totalNetworkSize`. The first
counts active entries of the top-level list only, while the second counts
three levels of members. On the sample list the figure is therefore 40 (2 of
5), although four of the five members counted are active. The model keeps the
expression as written.

The onboarding wizard's `steps` array holds three steps, and `handleNext`
compares the current step against `steps.length`, so the model has three steps.

## Model

| member | source | states |
|---|---|---|
| ReferralTree.Toggled | src/components/mgm/VisualNetworkTree.tsx:271-281 | the toggled id is in the new set exactly when it was not in the old one, and every other id keeps its membership |
| ReferralTree.ToggleTwice | src/components/mgm/VisualNetworkTree.tsx:271-281 | toggling the same id twice restores the original set |
| ReferralTree.Rendered | src/components/mgm/VisualNetworkTree.tsx:251-261 | a card is shown exactly when it is a root, or a direct child of a root whose id is expanded; so every child of an expanded root is shown and grandchildren never appear |
| ReferralTree.RenderedDependsOnlyOnRoots | src/components/mgm/VisualNetworkTree.tsx:251-261 | two expanded sets that agree on the root ids show the same cards: a child card is always passed `isExpanded={false}` |
| VisualNetworkTree.Visit | src/components/mgm/VisualNetworkTree.tsx:290-294 | visiting one node adds to each counter exactly that node's contribution: nothing for the `'user'` sentinel, otherwise one to total, one to its own level, and one to active when it is active |
| VisualNetworkTree.Traverse | src/components/mgm/VisualNetworkTree.tsx:288-298 | the recursive `forEach` adds to every counter its count over the whole list and all subtrees |
| VisualNetworkTree.CalculateNetworkStats | src/components/mgm/VisualNetworkTree.tsx:284-302 | each returned counter is the count over the forest, total equals the sum of the three level counts, and 0 <= active <= total |
| VisualNetworkTree.Count | src/components/mgm/VisualNetworkTree.tsx:284-298 | counter `c` over a forest, node by node in walk order; `Traverse` and `CalculateNetworkStats` are proved to add exactly it, and `CountsBalanced` and `CountIsTally` state what it counts |
| VisualNetworkTree.CountsBalanced | src/components/mgm/VisualNetworkTree.tsx:289-293 | for every forest, total members equal level-1 plus level-2 plus level-3 members, and 0 <= active <= total |
| VisualNetworkTree.CountIsTally | src/components/mgm/VisualNetworkTree.tsx:289-297 | each counter equals the number of non-sentinel members of the whole flattened forest that fall under it, so members at every depth and below inactive members are counted |
| VisualNetworkTree.SentinelSkipped | src/components/mgm/VisualNetworkTree.tsx:289-297 | the sentinel adds nothing itself, yet its children are walked: its single-node forest counts exactly as its children do |
| VisualNetworkTree.MemberCounted | src/components/mgm/VisualNetworkTree.tsx:290-297 | any other node adds one to total, one to its own level and none to another level, and one to active exactly when active, on top of its subtree |
| VisualNetworkTree.ExpandAllList | src/components/mgm/VisualNetworkTree.tsx:356 | an id is in the Expand All list exactly when it is a root's id or the id of a root's direct child |
| VisualNetworkTree.TreeView.constructor | src/components/mgm/VisualNetworkTree.tsx:269 | the view opens with `{'user', '1', '2'}` expanded |
| VisualNetworkTree.TreeView.ToggleNode | src/components/mgm/VisualNetworkTree.tsx:271-281 | the new expanded set is the old one with `nodeId` toggled |
| VisualNetworkTree.TreeView.ExpandAll | src/components/mgm/VisualNetworkTree.tsx:356 | the expanded set becomes exactly the root ids and their direct children's ids |
| VisualNetworkTree.TreeView.CollapseAll | src/components/mgm/VisualNetworkTree.tsx:363 | the expanded set becomes exactly `{'user'}` |
| VisualNetworkTree.MockMembers | src/components/mgm/VisualNetworkTree.tsx:32-123 | the sample forest has 8 counted members |
| VisualNetworkTree.MockActiveMembers | src/components/mgm/VisualNetworkTree.tsx:32-123 | the sample forest has 7 active counted members |
| VisualNetworkTree.MockLevel1 | src/components/mgm/VisualNetworkTree.tsx:32-123 | the sample forest has 3 level-1 members |
| VisualNetworkTree.MockLevel2 | src/components/mgm/VisualNetworkTree.tsx:32-123 | the sample forest has 3 level-2 members |
| VisualNetworkTree.MockLevel3 | src/components/mgm/VisualNetworkTree.tsx:32-123 | the sample forest has 2 level-3 members |
| VisualNetworkTree.MockExpandAll | src/components/mgm/VisualNetworkTree.tsx:356 | on the sample forest Expand All gives `{'user','1','2','3'}` |
| VisualNetworkTree.MockViewsCoincide | src/components/mgm/VisualNetworkTree.tsx:352-385 | on the sample forest the initial set, Expand All and Collapse All all show the same four cards |
| ReferralNetwork.DepthBoundedSize | src/components/mgm/ReferralNetwork.tsx:174-185 | the size is at least the number of top-level entries |
| ReferralNetwork.TotalNetworkSize | src/components/mgm/ReferralNetwork.tsx:174-185 | the reduce with its nested `forEach` yields the depth-bounded size: each entry, its children and its grandchildren |
| ReferralNetwork.SizeIsWithinDepthThree | src/components/mgm/ReferralNetwork.tsx:174-185 | the size equals the number of members within the first three levels of the forest |
| ReferralNetwork.WithinDepthAllExactly | src/components/mgm/ReferralNetwork.tsx:174-185 | counting to depth d reaches every member exactly when the forest has at most d levels |
| ReferralNetwork.SizeAgainstWholeForest | src/components/mgm/ReferralNetwork.tsx:174-185 | the size never exceeds the whole member count and equals it exactly when no member sits below the third level |
| ReferralNetwork.ActiveUsers | src/components/mgm/ReferralNetwork.tsx:187 | the number of active entries of the top-level list; `ActiveUsersExtremes` and `ActiveWithinSize` bound it by the entries and the network size |
| ReferralNetwork.ActiveUsersExtremes | src/components/mgm/ReferralNetwork.tsx:187 | the active count equals the number of entries exactly when all entries are active, and is 0 exactly when none is |
| ReferralNetwork.ActiveWithinSize | src/components/mgm/ReferralNetwork.tsx:174-187 | active entries <= entries <= network size |
| ReferralNetwork.ActivityRate | src/components/mgm/ReferralNetwork.tsx:213 | the rate is undefined exactly when the size is 0 |
| ReferralNetwork.ActivityRateRounds | src/components/mgm/ReferralNetwork.tsx:213 | for a positive size the rate is the exact percentage rounded to the nearest integer, halves up, as `Math.round` does |
| ReferralNetwork.ActivityRateInRange | src/components/mgm/ReferralNetwork.tsx:213 | with active <= total and total > 0 the rate lies in 0..100 |
| ReferralNetwork.ShownRateInRange | src/components/mgm/ReferralNetwork.tsx:174-213 | for any non-empty list the displayed activity rate is defined and lies in 0..100 |
| ReferralNetwork.NetworkView.constructor | src/components/mgm/ReferralNetwork.tsx:162 | the expanded set starts empty |
| ReferralNetwork.NetworkView.ToggleExpanded | src/components/mgm/ReferralNetwork.tsx:164-172 | the new expanded set is the old one with `userId` toggled |
| ReferralNetwork.MockReferralFigures | src/components/mgm/ReferralNetwork.tsx:27-79 | on the sample list the size is 5, the active count is 2 and the rate is 40 |
| PointsHistory.LowerChar | src/components/mgm/PointsHistory.tsx:196-197 | the result is never an ASCII capital, and a character is kept exactly when it is not one |
| PointsHistory.Lower | src/components/mgm/PointsHistory.tsx:196-197 | the lower-cased string has no ASCII capital, keeps the length, and equals the input exactly when the input has none; `LowerIdempotent` and `SearchIgnoresCase` build on it |
| PointsHistory.LowerIdempotent | src/components/mgm/PointsHistory.tsx:196-197 | lower-casing twice equals lower-casing once |
| PointsHistory.Includes | src/components/mgm/PointsHistory.tsx:196-197 | `includes` holds exactly when the pattern occurs at some index of the text |
| PointsHistory.IncludesEmpty | src/components/mgm/PointsHistory.tsx:196-197 | the empty search term occurs in every text |
| PointsHistory.SearchIgnoresCase | src/components/mgm/PointsHistory.tsx:196-197 | a term and its lower-cased form match the same transactions |
| PointsHistory.SearchWithoutFromUser | src/components/mgm/PointsHistory.tsx:196-197 | a transaction without `fromUser` matches exactly when its description contains the term |
| PointsHistory.MatchesSearch | src/components/mgm/PointsHistory.tsx:196-197 | the description, or a present `fromUser`, contains the term ignoring case; `SearchIgnoresCase` and `SearchWithoutFromUser` state its behaviour |
| PointsHistory.Keep | src/components/mgm/PointsHistory.tsx:195-201 | search, type select and status select all pass; `Filtered`, `FilteredCounts` and `NoFilterKeepsAll` state the view it selects |
| PointsHistory.Filtered | src/components/mgm/PointsHistory.tsx:195-202 | the view holds only transactions of the ledger that pass search, type and status, and every passing transaction is in it |
| PointsHistory.FilteredAppend | src/components/mgm/PointsHistory.tsx:195-202 | filtering a concatenation is the concatenation of the filtered parts, so ledger order is kept |
| PointsHistory.FilteredCounts | src/components/mgm/PointsHistory.tsx:195-202 | each passing transaction is kept as often as it occurs in the ledger, and the rest are dropped |
| PointsHistory.NoFilterKeepsAll | src/components/mgm/PointsHistory.tsx:195-202 | with both selects on "all" and an empty search term the view is the whole ledger |
| PointsHistory.WithStatusOnlyMembers | src/components/mgm/PointsHistory.tsx:204-210 | the bucket for a status holds exactly the ledger's transactions with that status |
| PointsHistory.TotalEarned | src/components/mgm/PointsHistory.tsx:204-206 | the points of the completed transactions; `StatusPartition`, `EarnedAndPendingWithinLedger` and `EarnedIsCompletedView` state its properties |
| PointsHistory.PendingPoints | src/components/mgm/PointsHistory.tsx:208-210 | the points of the pending transactions; `StatusPartition` and `EarnedAndPendingWithinLedger` state its properties |
| PointsHistory.StatusPartition | src/components/mgm/PointsHistory.tsx:204-210 | all points = earned (completed) + pending + cancelled, so cancelled points count in neither total |
| PointsHistory.EarnedAndPendingWithinLedger | src/components/mgm/PointsHistory.tsx:204-210 | with non-negative points both totals are non-negative and together at most the ledger's points |
| PointsHistory.EarnedIsCompletedView | src/components/mgm/PointsHistory.tsx:195-206 | the earned total equals the summed view with status "Completed" and no other filter |
| PointsHistory.ThisMonthEarned | src/components/mgm/PointsHistory.tsx:212-220 | the points of the completed transactions dated in the current month and year; `ThisMonthWithinEarned` bounds it by the earned total |
| PointsHistory.ThisMonthWithinEarned | src/components/mgm/PointsHistory.tsx:204-220 | with non-negative points this month's earnings lie between 0 and the earned total |
| PointsHistory.IconsOfTypes | src/components/mgm/PointsHistory.tsx:96-110 | exactly the two bonus types get the gift icon; otherwise two types share an icon only if they are equal |
| PointsHistory.TransactionIcon | src/components/mgm/PointsHistory.tsx:96-110 | the icon chosen by type; `IconsOfTypes` states which types share one |
| PointsHistory.LevelColour | src/components/mgm/PointsHistory.tsx:113-119 | a level picks a colour exactly when it is 1, 2 or 3; a missing or zero level, or any other number, picks none |
| PointsHistory.TransactionColour | src/components/mgm/PointsHistory.tsx:112-130 | the level's colour when it has one, else the type's; `LevelTakesPrecedence` states its behaviour |
| PointsHistory.LevelTakesPrecedence | src/components/mgm/PointsHistory.tsx:112-130 | a level of 1, 2 or 3 decides the colour whatever the type, and the three levels get three different colours; any other level colours the row as if it had none, and then exactly the two bonus types are gold |
| PointsHistory.MockEarned | src/components/mgm/PointsHistory.tsx:31-94 | the sample ledger earns 875 points |
| PointsHistory.MockPending | src/components/mgm/PointsHistory.tsx:31-94 | the sample ledger has 75 pending points |
| RewardsClaimCenter.PointValue | src/components/mgm/RewardsClaimCenter.tsx:208-210 | a non-negative amount is never worth fewer points than its face value, and the value differs from the amount exactly for a non-zero dollar amount |
| RewardsClaimCenter.IsClaimable | src/components/mgm/RewardsClaimCenter.tsx:117 | only an available reward is claimable; `ClaimCard` requires it of the card pressed |
| RewardsClaimCenter.Unclaimed | src/components/mgm/RewardsClaimCenter.tsx:275-276 | the available rewards whose id is not claimed, in order; `UnclaimedMembers` states exactly which |
| RewardsClaimCenter.TotalAvailable | src/components/mgm/RewardsClaimCenter.tsx:208-210 | the point value of the unclaimed available rewards; `ClaimLowersTotal`, `ClaimNeverRaises` and `MockTotals` state how claims change it |
| RewardsClaimCenter.TotalPending | src/components/mgm/RewardsClaimCenter.tsx:212-213 | the point value of the pending rewards, which depends on no claim; `MockTotals` gives the sample figure |
| RewardsClaimCenter.AvailableCount | src/components/mgm/RewardsClaimCenter.tsx:249 | the length of the unclaimed list; `AllCaughtUpIff` and `AvailableCountIsDifference` state its value |
| RewardsClaimCenter.UnclaimedMembers | src/components/mgm/RewardsClaimCenter.tsx:275-276 | a reward is on the "Available" tab exactly when it is on offer and its id is not claimed |
| RewardsClaimCenter.AllCaughtUpIff | src/components/mgm/RewardsClaimCenter.tsx:286 | the available count is 0, and "All caught up!" shows, exactly when every available reward's id is claimed |
| RewardsClaimCenter.AvailableCountIsDifference | src/components/mgm/RewardsClaimCenter.tsx:249 | with distinct ids, "Available (n)" is the number of available rewards minus the number of them claimed |
| RewardsClaimCenter.ClaimLowersTotal | src/components/mgm/RewardsClaimCenter.tsx:200-210 | claiming an unclaimed available reward lowers the available total by exactly its point value |
| RewardsClaimCenter.ClaimNeverRaises | src/components/mgm/RewardsClaimCenter.tsx:200-210 | with non-negative amounts, a larger claimed set never gives a larger available total, and the total is non-negative |
| RewardsClaimCenter.ClaimCenter.constructor | src/components/mgm/RewardsClaimCenter.tsx:198 | nothing is claimed at first, and the claim invariant holds |
| RewardsClaimCenter.ClaimCenter.Valid | src/components/mgm/RewardsClaimCenter.tsx:167-175 | every claimed id belongs to an available, claimable reward, since only such a card shows a button that calls `handleClaim`; the constructor, `HandleClaim` and `ClaimCard` keep it |
| RewardsClaimCenter.ClaimCenter.HandleClaim | src/components/mgm/RewardsClaimCenter.tsx:200-206 | called, as on its one call site, with the id of a claimable reward on offer, it keeps the claim invariant; the claimed set grows by the id and nothing else, and claiming an id twice changes nothing |
| RewardsClaimCenter.ClaimCenter.ClaimCard | src/components/mgm/RewardsClaimCenter.tsx:167-175 | pressing "Claim Now" on a claimable card keeps every claimed id tied to a claimable reward, raises "Claimed Today" by one, and with distinct ids lowers the total by that card's value |
| RewardsClaimCenter.ClaimCenter.ClaimedToday | src/components/mgm/RewardsClaimCenter.tsx:238 | the number of ids claimed; `ClaimCard` raises it by exactly one, and `HandleClaim` adds one for a new id and none for a repeat |
| RewardsClaimCenter.MockTotals | src/components/mgm/RewardsClaimCenter.tsx:37-86 | on the sample rewards 1855 points are available, 50 pending, and 600 remain once the dollar payout is claimed |
| OnboardingFlow.StepsShape | src/components/mgm/OnboardingFlow.tsx:23-69 | the steps list has `StepCount` = 3 entries, numbered 1, 2, 3 in order |
| OnboardingFlow.FindStep | src/components/mgm/OnboardingFlow.tsx:89 | the lookup finds a step exactly when one has the id, and what it finds is the first step with that id |
| OnboardingFlow.FindStepInRange | src/components/mgm/OnboardingFlow.tsx:89-92 | the lookup succeeds exactly for 1..3 |
| OnboardingFlow.Next | src/components/mgm/OnboardingFlow.tsx:75-83 | the current step is marked done and the wizard moves on unless on the last step; `NextPreserves`, `RunEarly`, `RunLate` and `RunReachable` state its behaviour |
| OnboardingFlow.NextPreserves | src/components/mgm/OnboardingFlow.tsx:75-83 | Next keeps the wizard on a real step with earlier steps done, only adds done steps, and stays put exactly when it completes |
| OnboardingFlow.RunEarly | src/components/mgm/OnboardingFlow.tsx:75-83 | after k < 3 presses the wizard is on step k+1 with steps 1..k done; the press that completes is the third |
| OnboardingFlow.RunLate | src/components/mgm/OnboardingFlow.tsx:75-83 | from the third press on, the wizard rests on step 3 with all steps done, and each press completes again |
| OnboardingFlow.RunReachable | src/components/mgm/OnboardingFlow.tsx:72-92 | every state reached by presses is reachable, and the step lookup never yields nothing (the `null` return is dead) |
| OnboardingFlow.Progress | src/components/mgm/OnboardingFlow.tsx:90 | the share of steps before the current one as a percentage; `ProgressRange` bounds it |
| OnboardingFlow.ProgressRange | src/components/mgm/OnboardingFlow.tsx:90 | progress lies in [0, 100) and is 0 exactly on step 1 |
| OnboardingFlow.ShownProgress | src/components/mgm/OnboardingFlow.tsx:109 | `Math.round` of the progress, halves up; `ShownProgressValues` gives the three figures |
| OnboardingFlow.ShownProgressValues | src/components/mgm/OnboardingFlow.tsx:109 | the rounded percentages shown on steps 1, 2, 3 are 0, 33, 67 |
| OnboardingFlow.PrimaryLabel | src/components/mgm/OnboardingFlow.tsx:184 | "Get Started" on the last step, "Continue" otherwise; `PrimaryLabelOnLastStep` ties it to completion |
| OnboardingFlow.PrimaryLabelOnLastStep | src/components/mgm/OnboardingFlow.tsx:184 | the button reads "Get Started" exactly on the last step, which is exactly when pressing it completes |
| OnboardingFlow.IndicatorOf | src/components/mgm/OnboardingFlow.tsx:196-202 | the current step's dot wins over a done one; `IndicatorsInOrder` states the order of the dots |
| OnboardingFlow.IndicatorsInOrder | src/components/mgm/OnboardingFlow.tsx:193-204 | on a reachable state, dots before the current step show done and dots after it show to-do |
| OnboardingFlow.Onboarding.constructor | src/components/mgm/OnboardingFlow.tsx:72-73 | the wizard opens on step 1 with nothing done |
| OnboardingFlow.Onboarding.HandleNext | src/components/mgm/OnboardingFlow.tsx:75-83 | the new state is Next of the old, and `onComplete` is called exactly when the old step was the last |
| OnboardingFlow.Onboarding.HandleSkip | src/components/mgm/OnboardingFlow.tsx:85-87 | skipping always calls `onComplete` and changes no state |
| AdminConfig.SetLevelFieldFrame | src/pages/AdminConfig.tsx:103-106 | spreading a level rule and overriding one field sets that field and keeps every other |
| AdminConfig.SetGlobalFieldFrame | src/pages/AdminConfig.tsx:114-117 | overriding one global field sets it and keeps every other |
| AdminConfig.SetNotificationFrame | src/pages/AdminConfig.tsx:125-128 | overriding one notification flag sets it and keeps every other |
| AdminConfig.UpdatedLevel | src/pages/AdminConfig.tsx:100-109 | the settings with one field of one level overridden; `UpdatedLevelFrame` states that nothing else changes |
| AdminConfig.UpdatedLevelFrame | src/pages/AdminConfig.tsx:100-109 | only `settings[level][field]` changes: the other fields of that level, the other levels, the global settings and the notifications stay |
| AdminConfig.UpdatedGlobal | src/pages/AdminConfig.tsx:111-120 | the settings with one global field overridden; `UpdatedGlobalFrame` states that nothing else changes |
| AdminConfig.UpdatedGlobalFrame | src/pages/AdminConfig.tsx:111-120 | only the named global field changes |
| AdminConfig.UpdatedNotification | src/pages/AdminConfig.tsx:122-131 | the settings with one notification flag overridden; `UpdatedNotificationFrame` states that nothing else changes |
| AdminConfig.UpdatedNotificationFrame | src/pages/AdminConfig.tsx:122-131 | only the named notification flag changes |
| AdminConfig.ValueInput | src/pages/AdminConfig.tsx:229-233 | typing a number writes the percentage under a percentage rule and the fixed amount otherwise; `ValueInputEditsShownField` states the effect |
| AdminConfig.ValueInputEditsShownField | src/pages/AdminConfig.tsx:225-236 | the value input writes the percentage under a percentage rule and the fixed amount otherwise, and leaves the rule kind and the other amount alone |
| AdminConfig.RewardTypeSelect | src/pages/AdminConfig.tsx:210 | choosing an option sets the rule kind; `RewardTypeSelectKeepsAmounts` states that both amounts survive |
| AdminConfig.RewardTypeSelectKeepsAmounts | src/pages/AdminConfig.tsx:208-219 | the reward-type select sets `isPercentage` exactly when "percentage" is chosen, and keeps both stored amounts |
| AdminConfig.InitialSettings | src/pages/AdminConfig.tsx:63-98 | the settings the page opens with; `ResetMatchesInitial` ties the reset literal to it |
| AdminConfig.ResetValues | src/pages/AdminConfig.tsx:145-180 | the literal "Reset to Defaults" writes; `ResetMatchesInitial` proves it equal to the opening settings |
| AdminConfig.ResetMatchesInitial | src/pages/AdminConfig.tsx:143-182 | the reset literal equals the opening settings; every level opens as a percentage rule at 10, 5 and 2.5 with falling daily caps |
| AdminConfig.AdminConfigPage.constructor | src/pages/AdminConfig.tsx:61-98 | the page opens with the default settings and no unsaved changes |
| AdminConfig.AdminConfigPage.UpdateLevelConfig | src/pages/AdminConfig.tsx:100-109 | the settings become the level update of the old ones, and the flag goes up |
| AdminConfig.AdminConfigPage.UpdateGlobalSettings | src/pages/AdminConfig.tsx:111-120 | the settings become the global update of the old ones, and the flag goes up |
| AdminConfig.AdminConfigPage.UpdateNotificationSettings | src/pages/AdminConfig.tsx:122-131 | the settings become the notification update of the old ones, and the flag goes up |
| AdminConfig.AdminConfigPage.SaveSettings | src/pages/AdminConfig.tsx:133-141 | the settings are handed over unchanged and the flag goes down; with the flag down the settings on screen are the saved ones, so Save (enabled only by the flag, line 291) has nothing left to save |
| AdminConfig.AdminConfigPage.ResetToDefaults | src/pages/AdminConfig.tsx:143-182 | the settings become the default literal and the flag goes up even if nothing changed; a second reset leaves the same state |
| AdminConfig.AdminConfigPage.OnValueInput | src/pages/AdminConfig.tsx:225-236 | typing into the value input applies the value-input update |
| AdminConfig.AdminConfigPage.OnRewardTypeSelect | src/pages/AdminConfig.tsx:208-219 | choosing a reward type applies the select update |

## Left out

- All JSX rendering, CSS classes, icons as components, and layout are left out. The model names the icon and colour choices as small datatypes.
- Toast notifications, `console.log` and the wall clock are left out. `SaveSettings` returns the settings that the source only logs.
- Each onboarding step keeps only its number and title. Its description, heading, bullet points and icon are presentation.
- The effect of `onComplete` is left out. The wizard reports only whether it was called.
- Number and date formatting (`toLocaleString`, `toLocaleDateString`) are library calls and are left out.
- JavaScript numbers are not modelled as IEEE doubles. Ledger points are integers, as every sample value is. Money, rates and settings values are exact reals.
- `Math.round` is modelled exactly on rationals.
- `Number(...)` on a number input's text is left out. The handlers receive the resulting number, and an empty or non-numeric input (0 or NaN in the source) is not modelled.
- src/pages/MGMDashboard.tsx, src/components/mgm/ReferralLink.tsx, src/components/mgm/MGMAnalytics.tsx and src/pages/Index.tsx are not part of this model. They are presentation, browser I/O and floating-point display arithmetic.
- The active tab of the claim centre and of the admin page is presentation state and is left out.
- An absent `children` array and an empty one are the same empty sequence. Every use in the source treats them alike.
- A node's `level` is the literal type 1 | 2 | 3 of the source. Nothing relates it to the node's actual depth, and the source does not either.
- PointsHistory.LowerChar: lower-cases only the ASCII capitals. `toLowerCase` also folds letters of other scripts. The sample data is ASCII.
- PointsHistory.ThisMonthEarned: the month of each timestamp and the current month are parameters. ISO date parsing and the local time zone are outside the model.
- PointsHistory.Filtered: the type and status selects are modelled by their option lists ("all" plus one option per type or status). The filter state in the source is a free string, but no other value can be chosen.
- ReferralNetwork.ActivityRate: a zero size gives `None`. The source divides by zero and shows `NaN`.
- RewardsClaimCenter.ClaimLowersTotal: requires distinct reward ids. With a repeated id, one claim removes every reward carrying it.
- RewardsClaimCenter.AvailableCountIsDifference: requires distinct reward ids, for the same reason.
- RewardsClaimCenter.ClaimCenter.HandleClaim: requires the id of a claimable reward on offer, which is what its one call site, the "Claim Now" button, passes. The source's handler would add any string to the set. The same `RewardCard` also renders on the pending and milestone tabs, but its button shows only for an available reward, and every shipped reward on those tabs is pending or locked, so the model's claims come from the available list alone.
- AdminConfig.AdminConfigPage.UpdateLevelConfig: requires a value of the field's own kind. The source's `any` parameter would store anything, but every call site passes a number for a number field and a boolean for `isPercentage`.
- AdminConfig.AdminConfigPage.UpdateGlobalSettings: likewise requires a value of the field's kind. Every call site passes `Number(...)` for the numeric fields and the switch's boolean for the others.
