# A verified model of the access manager

The repository is a privileged-access manager: users ask for access to servers, groups and rules decide, grants open
host accounts or gateway sessions, and a scheduler closes what has run out. This project models its backend logic in
Dafny and proves what the parts promise. A table of the store is a map keyed by its unique constraint, a set, or a
sequence whose positions are row ids; `now` is a parameter; a route is one atomic step; where a query has no defined
order, the proof holds for every order. A gateway login and the shells it opens later are separate steps, and so are
the beginning and the end of a browser launch. A host command may fail at any point of a grant's life, and a provider
call at any session.

| file | component |
|---|---|
| `Permissions.dfy`, `Rbac.dfy` | permission vocabulary, the evaluator over memberships, roles, templates, group and user rows |
| `AccessGroups.dfy`, `AccessGroupGaps.dfy` | group routes, the revocation cascade, and concrete states where no cascade runs |
| `RequestConstraints.dfy` | the joint constraint record of several groups |
| `SeedAccess.dfy`, `SeedRepeats.dfy`, `SeedValues.dfy`, `SeedGaps.dfy` | the start-up seed over a session with pending inserts, what repeated runs do, what every new row and group says, and a concrete store where two runs disagree |
| `AccessRequests.dfy` | the request life cycle and where every grant comes from |
| `GrantHosts.dfy`, `HeldAccess.dfy` | grants against authorized_keys, sudoers files and account locks, in both directions |
| `LogText.dfy`, `LogImport.dfy`, `LogTimes.dfy`, `LogLines.dfy`, `LogMonitor.dfy` | incremental log import, deduplication, session times, what the store holds in terms of the log lines, auto-revocation |
| `CommandDetector.dfy` | the streaming terminal line editor |
| `Gateway.dfy`, `ProtocolLifecycle.dfy` | gateway connections, web and VNC sessions, their enforcement passes |
| `Usernames.dfy` | account names, the printed gateway login and its parser |
| `Mfa.dfy` | challenges, recovery codes, step-up windows |
| `NavigationGuard.dfy` | URL admission and address pinning |
| `Wizard.dfy` | drafts without secrets, exactly-once completion |
| `PolicyResolver.dfy` | the priority fold over policy rows |
| `Common.dfy` | result types, shared row enumerations, JSON trees |

Code that changes rows step by step is a class whose methods are proved equal to a pure step function; the run
theorems are inductions over that function. Beside that, each operation is stated a second time on the rows, lines or
payload it reads, without naming the functions that compute it.

## Where the code and its promise differ

Each of these is proved, with the exact condition where there is one.

- **Seeding is not idempotent.** The session runs with autoflush off (backend/app/database.py:13), so the deletion of
  the privileged rows of the compatibility group (backend/app/rbac.py:345-348) misses rows the same run has pending.
  A second run changes nothing exactly when no legacy row gives the group "Legacy compatibility" one of the two
  privileged permissions (`SeedRepeats.SecondRunIdleIff`); otherwise the row alternates
  (`SeedRepeats.PrivilegedRowAlternates`), on a concrete store in `SeedGaps.TwoStartUpsDisagree`.
- **A shell may start on an ended grant.** The server checks a grant when the key is presented, stores its id
  (backend/app/gateway/server.py:58-66), and opens shells on it later without another look (93-106). A shell keeps
  "every live connection has an active grant" exactly when its grant is still active
  (`Gateway.ShellKeepsLiveOnActiveIff`), and a limit on open sessions exactly when there was room at its start
  (`Gateway.ShellRespectsLimitIff`).
- **A bulk end can tear a connection from its session.** Removing a member ends session rows without their connections
  (backend/app/routes/access_groups.py:296-298). Connection and session still agree afterwards exactly when no live
  connection of the user there hangs on an ended grant (`Gateway.BulkEndKeepsAgreementIff`); the failing run is
  `Gateway.ShellAfterRevocationTears`. The next enforcement pass repairs it (`Gateway.EnforcementRepairs`).
- **A pass during a browser launch leaks the runtime.** The launch commits its row before the runtime is registered
  (backend/app/providers/web.py:145-148, 220), so a pass in between seals it as a worker failure, and the launch does
  not look again. A launch that comes back keeps "every runtime serves an open session" exactly when its row is still
  open (`ProtocolLifecycle.FinishKeepsServingIff`); the failing run is `ProtocolLifecycle.PassDuringLaunchLeaks`.
- **A provider call that raises undoes the whole pass** (backend/app/protocol_lifecycle.py:21-54): no row changes, but
  the runtimes stopped so far are gone (`ProtocolLifecycle.PassWorksIff`). With a disconnected browser every runtime of
  an open session costs one failing pass (`ProtocolLifecycle.DisconnectedBrowserNeedsAPassEach`).
- **Failed clean-ups swallow browser slots.** A launch whose clean-up raises, or that fails between taking the slot and
  its `try` (backend/app/providers/web.py:112-119, 205-210), and a connection test whose context cannot be closed
  (102-105) keep the slot. Slots are conserved up to exactly these (`ProtocolLifecycle.EveryRunConservesSlots`).
- **A bulk end leaks browser runtimes.** The same update, and the one that ends all sessions of a user
  (backend/app/routes/users.py:134-149), seal web and VNC rows without telling the provider. Slots are conserved on
  every run, but every runtime serves an open session after such a step exactly when it hit no row with a runtime
  (`ProtocolLifecycle.BulkEndKeepsServingIff`), and a leaked one stays until the provider shuts down
  (`ProtocolLifecycle.LeakedRuntimeIsNeverFreed`).
- **The last key of an account cannot be revoked.** `grep -v` selects no line and fails
  (backend/app/executor.py:181-184), so the revocation or expiry does not commit (`GrantHosts.LastKeyCannotBeRevoked`);
  in particular for the first direct grant of an account (`GrantHosts.FirstGrantOfAccountCannotBeRevoked`).
- **Grants that share an account take each other's access.** Revoking one removes all equal key lines and the sudoers
  file of the account (backend/app/executor.py:181-199), also those another active grant needs; a creation of another
  sudo type overwrites the file. `HeldAccess.StepHoldsIff` has the exact condition of every step,
  `HeldAccess.SecondGrantLosesKey` the ordinary run: one request approved twice.
- **A critical command is not recorded when its revocation fails.** The revocation raises inside the import, which then
  stores nothing (`LogMonitor.GrantMonitor.ImportActiveLogs`); with a grant that holds the last key of its account that
  is so every time.
- **A creation that fails after the key was written leaves the key** (backend/app/services.py:144-152). It stays
  covered exactly when it was covered before (`GrantHosts.FailedCreateKeepsBackedIff`).
- **A rolled-back expiry pass can leave an account locked whose grant is active again**: exactly when it had expired
  the last active grant of a username (`GrantHosts.RolledBackPassKeepsLocksIff`).
- **A replaced log file that has regrown to its old length is not noticed** (backend/app/session_monitor.py:315-324);
  its skipped part is lost unless the same entries come elsewhere (`LogMonitor.SkippedCommandIsStoredIff`).
- **Session times depend on the order of imports.** The first entry filed gives the start, the last finish filed the end
  (backend/app/session_monitor.py:152-183), so several imports agree with one exactly when the entries come in order
  (`LogTimes.FiledTimesIff`), and reading a cut-back file again can move an end back (`LogMonitor.ImportCut`).
- **Re-enabling a group and linking servers run no cascade** (backend/app/routes/access_groups.py:203-206, 320-321).
  They keep every active grant authorized exactly when the group, after the step, denies none of them
  (`AccessGroups.UncheckedStepIsSafeIffNothingDenied`); a failing state of each is in `AccessGroupGaps`.
- **Removing a member re-checks only `servers.connect`** (backend/app/routes/access_groups.py:293). All grants
  stay authorized exactly when, before the removal, none of the member's grants on the group's servers has its connect
  permission from elsewhere but its transport or access type from this group alone (`AccessGroups.RemovalSafeIff`).
- **An empty intersection of allowed durations lifts the list** (backend/app/routes/access_requests.py:81).
  `RequestConstraints.AdmissionNarrowsIff` is the exact condition.
- **An approved request can be approved again** and then gets one more grant (`AccessRequests.ApprovalAddsOneGrant`);
  approvals stay within a limit of concurrent grants exactly when there was room
  (`AccessRequests.ApprovalRespectsLimitIff`).
- **A wizard request forgets the gateway** (backend/app/wizard_service.py:293-301). A submission stores whether the
  policy or a group keeps the user off direct access (backend/app/routes/access_requests.py:102, 118), and the creation
  of the grant reads it back (backend/app/services.py:86-97); the wizard copies approval, MFA and recording only. Over
  every run a request demands the gateway exactly if it was submitted so and the policy has refused no approval of it
  since, because a refusal replaces the stored decision (`AccessRequests.GatewayDemandIff`); while it does, it gets no
  direct grant (`AccessRequests.EveryRunKeepsOffDirect`); a wizard's request does wherever direct access is open
  (`AccessRequests.WizardForgetsTheGateway`). The shipped policy engine refuses no approval the route lets through.
- **A blocked domain can be visited** (backend/app/providers/web_security.py:22-50). Only ASCII dots are cut off before
  the host is encoded, and the encoding turns three other dots into a final full stop, which no rule matches; and rule
  entries are never encoded, while hosts always are. A host whose name is at or below the domain of a blocked entry is
  refused by it exactly when the entry is ASCII and the host does not end in a hidden dot
  (`NavigationGuard.EntryBlocksIff`); `NavigationGuard.HiddenDotPassesBlockList` and
  `NavigationGuard.NonAsciiEntryBlocksNothing` are the failing inputs. The same name then has two pins
  (`NavigationGuard.OneNameTwoPins`).
- **The gateway login pattern accepts a final newline** (backend/app/gateway/policy.py:11), which stays in a bare name
  (`Usernames.NewlineInBareLogin`).
- **Policy rows of equal priority** make the result depend on the query order exactly when two of them decide the same
  policy with different values (`PolicyResolver.OrderIrrelevantIffNoConflict`).
- **MFA verification does not look at the account lock** (`Mfa.SucceedsIff`).
- **Different usernames can share one Linux account.** They do exactly when their words, with the prefix word added
  where it is missing, agree on the first 32 characters (`Usernames.ShareAccountIff`); `bob` and `pam_bob` do.

## Model

| member | source | states |
|---|---|---|
| `Permissions.EquivalentIsCanonicalClass` | backend/app/rbac.py:88-94 | the equivalent spellings of a code are exactly the codes with the same canonical form, in any alias table without chains |
| `Permissions.ShippedAliasesAreFlat` | backend/app/rbac.py:42-52 | the shipped alias table has no chains |
| `Rbac.ActiveMemberships` | backend/app/rbac.py:107-129 | exactly the groups where the user is active, the membership is in force at `now` and the group is enabled and in scope |
| `Rbac.ActiveMembershipsCount` | backend/app/rbac.py:107-129 | the same on the rows: active user, enabled membership begun and not over, enabled group, in the group and of the server asked about |
| `Rbac.ScopesSelect` | backend/app/rbac.py:107-129 | asking in a group walks that membership alone, asking on a server the memberships whose group holds it |
| `Rbac.PermissionSources` | backend/app/rbac.py:182-206 | the list appended in three nested loops contains exactly the sources of the decision, none missing and none invented |
| `Rbac.SourcesStand` | backend/app/rbac.py:182-206 | a source belongs to the decision exactly when the row it names stands in the table it names, with its group, its answer and a spelling of the permission |
| `Rbac.PermissionIffAllowedAndNotDenied` | backend/app/rbac.py:209-211 | a permission holds exactly when nobody speaking in scope denies it and somebody allows it |
| `Rbac.HeldIff` | backend/app/rbac.py:107-211 | said on the table rows: a permission is held by a global administrator, or exactly when some row that counts (role, template, group or user row of a membership in force, or the own role with scoping off) says yes and none says no |
| `Rbac.DecisionIgnoresSpelling` | backend/app/rbac.py:88-94 | two spellings with one canonical code get the same decision on every table state |
| `Rbac.EffectivePermissions` | backend/app/rbac.py:223-230 | the report has one entry for each catalog code, allow exactly where the predicate holds, with a source of that effect, or default deny when nobody speaks |
| `Rbac.IndexAgreesWithPredicate` | backend/app/rbac.py:148-155 | with group scoping on, a non-admin user has a server in the index exactly if the predicate holds on that server |
| `Rbac.ShownIffMayView` | backend/app/rbac.py:138-145 | the server list shows exactly the servers the user may view, and all of them with scoping off; it never shows less than the index of servers.view |
| `Rbac.UnscopedIndexIsGroupPart` | backend/app/rbac.py:148-155 | with scoping off the index is the part of the predicate that comes from the user's groups |
| `Rbac.DecisionIsLocal` | backend/app/rbac.py:182-211 | a change of tables inside one group moves no decision on which the group says the same before and after |
| `Rbac.AddedVoiceKeepsUnlessDenied` | backend/app/rbac.py:209-211 | when a change only adds to what a group says, a held permission survives exactly if the group adds no denial |
| `Rbac.SilencedKeepsIffAllowedElsewhere` | backend/app/rbac.py:209-211 | when a group falls silent for a user, a held permission survives exactly if somebody else allows it |
| `AccessGroups.GroupRoutes.RevokeLostServerAccess` | backend/app/routes/access_groups.py:71-84 | exactly the active grants in members × servers that lost connect, transport or access type are revoked, exactly the pending requests there that lost their permission are cancelled, all else is untouched |
| `AccessGroups.GroupRoutes.UpdateGroup` | backend/app/routes/access_groups.py:195-209 | the exact error; the new group row; the cascade runs exactly when the update switches an enabled group off, and then or when the switch stays every active grant stays authorized; after a re-enabling exactly if the group denies none |
| `AccessGroups.GroupRoutes.DeleteGroup` | backend/app/routes/access_groups.py:214-226 | a group without members and servers that is no system group is erased with its rows, every other one is disabled with its cascade; both keep every active grant authorized |
| `AccessGroups.GroupRoutes.AddUsers` | backend/app/routes/access_groups.py:238-260 | exactly the named users get or overwrite a membership row, then the whole group is re-checked; one bad user aborts all |
| `AccessGroups.GroupRoutes.UpdateUserMembership` | backend/app/routes/access_groups.py:265-280 | the one membership row is overwritten and the whole group is re-checked |
| `AccessGroups.GroupRoutes.RemoveUser` | backend/app/routes/access_groups.py:285-301 | the error order; the member's row and overrides go; his grants and pending requests on servers lost to connect end; all grants stay authorized exactly when none of his was half held before the call |
| `AccessGroups.GroupRoutes.ChangeServers` | backend/app/routes/access_groups.py:312-322 | links added or removed as a set; a removal re-checks members × removed servers, an addition nothing |
| `AccessGroups.GroupRoutes.ReplacePermissions` | backend/app/routes/access_groups.py:369-388 | a group code is stored with exactly the effect some group entry asks for, a member's override with the effect of the entry naming him or else as before, nothing of other groups moves; then the cascade, after which active grants and pending requests are all authorized if they were; a refused payload changes nothing |
| `AccessGroups.GroupRoutes.ReplaceUserPermissions` | backend/app/routes/access_groups.py:398-412 | the member's overrides are exactly what the entries ask for, nobody else's move; then the cascade |
| `AccessGroups.CascadeIsComplete` | backend/app/routes/access_groups.py:71-84 | if every active grant was authorized and the group's voice changed only inside users × servers, re-checking that scope makes every active grant authorized again, and revokes only active grants that are not |
| `AccessGroups.FullCascadeIsSafe` | backend/app/routes/access_groups.py:256-258 | for any change inside one group that keeps links and loses no member, re-checking members × servers restores the invariant for all grants of all groups |
| `AccessGroups.RequestCascadeIsComplete` | backend/app/routes/access_groups.py:82-84 | the same for requests: the re-check restores "every pending request is permitted" for all groups, and cancels only pending requests that are not permitted |
| `AccessGroups.NeededExactly` | backend/app/routes/access_groups.py:76-79 | what a grant stands on: connect, the gateway or the direct permission by its transport, and the sudo permission of its access type |
| `AccessGroups.MembersTimesServersSuffice` | backend/app/routes/access_groups.py:203-206 | outside members × servers such a change is silent |
| `AccessGroups.RemovedServersSuffice` | backend/app/routes/access_groups.py:320-321 | for an unlinking, members × removed servers is a sufficient scope |
| `AccessGroups.UntouchedGrantStaysAuthorized` | backend/app/routes/access_groups.py:71-84 | a grant outside the scope keeps its authorization |
| `AccessGroups.UncheckedStepIsSafeIffNothingDenied` | backend/app/routes/access_groups.py:320-321 | a step without cascade keeps all active grants authorized exactly when the group afterwards denies none of them |
| `AccessGroups.AddedServersOnlyAddVoice` | backend/app/routes/access_groups.py:312-322 | linking servers only adds to what the group says |
| `AccessGroups.ReenabledGroupOnlyAddsVoice` | backend/app/routes/access_groups.py:195-209 | switching a group on only adds to what it says |
| `AccessGroups.UnchangedSwitchIsSilent` | backend/app/routes/access_groups.py:195-209 | an update that leaves the switch alone moves no decision |
| `AccessGroups.ErasingEmptyGroupIsSilent` | backend/app/routes/access_groups.py:214-226 | erasing an empty group with its rows moves no decision |
| `AccessGroups.ErasableIff` | backend/app/routes/access_groups.py:214-226 | a group is erased exactly if it has no member, no server and is no system group |
| `AccessGroups.DeletionIsExact` | backend/app/routes/access_groups.py:214-226 | an erased group goes with every group row and override of its own and nothing else; a disabled one only loses its switch |
| `AccessGroups.UpdateKeepsNamesUniqueIff` | backend/app/routes/access_groups.py:195-209 | where no two groups share a name, an update keeps it so exactly when the route does not answer that the name is taken |
| `AccessGroups.RemovalKeepsConnect` | backend/app/routes/access_groups.py:285-301 | after a removal every active grant still has its connect permission, if it had before |
| `AccessGroups.RemovalSafeIff` | backend/app/routes/access_groups.py:293 | a removal keeps every active grant authorized exactly when, before it, no grant of the user on the group's servers is half held: connect allowed by somebody else, but transport or access type by this group alone |
| `AccessGroups.RemovedMemberKeeps` | backend/app/routes/access_groups.py:293-301 | after a removal a permission the user held is there exactly if somebody other than the group allows it |
| `AccessGroups.RemovalTouchesOnlyTarget` | backend/app/routes/access_groups.py:293-301 | grants and requests of other users or other servers are unchanged |
| `AccessGroups.NeverEndsExactly` | backend/app/routes/access_groups.py:294-296 | a removal revokes exactly the user's active grants and cancels exactly his pending requests on the lost servers |
| `AccessGroups.LostServersAgree` | backend/app/routes/access_groups.py:292-299 | deciding with the row disabled and with the row deleted gives the same lost servers |
| `AccessGroups.StageMembers` | backend/app/routes/access_groups.py:238-258 | the loop creates or overwrites exactly the named rows or aborts |
| `AccessGroups.StageGroupRows` | backend/app/routes/access_groups.py:371-382 | the error of a payload in order: duplicate keys, then the first unusable entry, then a stored override breaking the unique constraint; else the new rows |
| `AccessGroups.StageUserRows` | backend/app/routes/access_groups.py:401-406 | the same for one member: duplicate codes, an unknown code, else the new overrides |
| `AccessGroups.GroupRowsAcceptedIff` | backend/app/routes/access_groups.py:369-383 | a payload is accepted exactly if no code comes twice for one membership or for the group, every code is known, every membership named is of this group, and no override named is stored already |
| `AccessGroups.UserRowsAcceptedIff` | backend/app/routes/access_groups.py:398-406 | a payload for one member is accepted exactly if no code comes twice and every code is known |
| `AccessGroups.GroupRowsMatchPayload` | backend/app/routes/access_groups.py:369-388 | without duplicate keys the replaced rows are exactly the payload's entries by canonical code |
| `AccessGroups.UserRowsMatchPayload` | backend/app/routes/access_groups.py:398-412 | the same for one member's overrides |
| `AccessGroups.MemberRowsMatchPayload` | backend/app/routes/access_groups.py:371-379 | without duplicate keys the override of a member has a value exactly when the entry naming him and that code asks for it, or none names it and it was stored so before; a denial is stored as a denial |
| `AccessGroups.MemberEntriesOnlyAdd` | backend/app/routes/access_groups.py:369-388 | a membership override is new or was there before; overrides of other groups never move |
| `AccessGroups.ReplacingGroupRowsStaysInside` | backend/app/routes/access_groups.py:369-388 | the replacement changes nothing outside the group |
| `AccessGroups.ReplacingUserRowsStaysInside` | backend/app/routes/access_groups.py:398-412 | the replacement of overrides changes nothing outside the group |
| `AccessGroupGaps.ReenablingCanLeaveUnauthorizedGrant` | backend/app/routes/access_groups.py:203-206 | a concrete state in which re-enabling a group leaves an active grant it denies |
| `AccessGroupGaps.LinkingCanLeaveUnauthorizedGrant` | backend/app/routes/access_groups.py:320-321 | a concrete state in which linking a server to a group leaves an active grant the group denies |
| `AccessGroupGaps.RemovalCanLeaveUnauthorizedGrant` | backend/app/routes/access_groups.py:293 | a concrete state in which a removal leaves an active gateway grant without its transport |
| `RequestConstraints.JointAtMostEach` | backend/app/rbac.py:241-268 | the joint record is at most each group's own record in every field |
| `RequestConstraints.JointIsGreatest` | backend/app/rbac.py:241-268 | and it is the greatest such record: the joint record is the meet |
| `RequestConstraints.MoreGroupsNeverWiden` | backend/app/rbac.py:241-268 | one more membership never widens a field nor drops a requirement |
| `RequestConstraints.OrderIrrelevant` | backend/app/rbac.py:241-268 | order and repetition of memberships do not matter |
| `RequestConstraints.AllowedTypesAre` | backend/app/rbac.py:247 | a group allows exactly the types its list names, the short name of SSH standing for the long one |
| `RequestConstraints.UnscopedIsUnrestricted` | backend/app/rbac.py:242-244 | administrators, and everybody with group scoping off, get all three types, up to a week, at any time and without requirements; everybody else the joint record |
| `RequestConstraints.HoursAdmittedPerDay` | backend/app/rbac.py:250-256 | a valid hour range admits exactly (end − start) mod 24 hours of the day, also across midnight |
| `RequestConstraints.AdmissionNarrowsIff` | backend/app/routes/access_requests.py:81 | a stricter record admits no new duration, exactly unless its duration list became empty while the wider one restricts some admitted duration |
| `RequestConstraints.DisjointListsLiftTheRestriction` | backend/app/routes/access_requests.py:81 | two groups with disjoint lists admit a duration neither lists |
| `SeedAccess.SeedSession.Permission` | backend/app/rbac.py:271-276 | a missing catalog code is inserted and flushes everything pending |
| `SeedAccess.SeedSession.FlushPending` | backend/app/rbac.py:290-295 | pending rows are stored in order, or the session fails when one breaks a unique constraint |
| `SeedValues.FlushIsExact` | backend/app/rbac.py:290-295 | a flush stores every pending row beside the stored ones, or nothing exactly if two keys coincide |
| `SeedValues.FlushPoints` | backend/app/rbac.py:271-305 | a missing code, a new group and the end of a role flush; an inserted row waits |
| `SeedAccess.SeedSession.MigrateLegacy` | backend/app/rbac.py:298-320 | one legacy group: columns copied, links, members and permission rows inserted unless already stored |
| `SeedAccess.SeedSession.SeedCompatibility` | backend/app/rbac.py:328-339 | the compatibility group with every server, every user and the three open permissions |
| `SeedAccess.SeedSession.SeedAccessControl` | backend/app/rbac.py:279-352 | the whole run with its flush points: the committed store, or nothing changed when a constraint broke |
| `SeedRepeats.SecondRunIdleIff` | backend/app/rbac.py:279-352 | a second run, at any time and in any query order, leaves every table unchanged exactly when no legacy row grants the compatibility group a privileged permission |
| `SeedRepeats.PrivilegedRowAlternates` | backend/app/rbac.py:345-348 | with such a row, each committed run stores it exactly when the previous one did not |
| `SeedGaps.TwoStartUpsDisagree` | backend/app/rbac.py:345-348 | a concrete store with such a row on which two start-ups in a row commit: the first stores the privileged row, the second deletes it |
| `SeedRepeats.SecondRunReachesPurge` | backend/app/rbac.py:279-352 | the second run reaches the deletion with the store unchanged and nothing pending but missing privileged rows |
| `SeedRepeats.NoCompatibilityTwice` | backend/app/rbac.py:328-329 | after a committed run the compatibility group is never created again |
| `SeedRepeats.NoPrivilegedRowSurvives` | backend/app/rbac.py:345-348 | without such a legacy row no privileged row of the compatibility group survives a run |
| `SeedRepeats.LegacyIsMigrated` | backend/app/rbac.py:306-320 | every legacy link, membership, group and user permission has its row after a committed run, privileged ones aside |
| `SeedValues.MigratedValue` | backend/app/rbac.py:306-320 | and a row that was not stored before says what a legacy row for that key says: the allowance or denial and its author, the role, switch, dates and template of the member, the author of the link |
| `SeedValues.NewRowOrigin` | backend/app/rbac.py:279-352 | every row a committed run adds copies a legacy row, is a shipped role permission or template, links a server to its old group, or belongs to the compatibility group this run made |
| `SeedValues.ShippedIsStored` | backend/app/rbac.py:280-295 | after a committed run every shipped permission, role permission and template is stored |
| `SeedValues.GroupOrigin` | backend/app/rbac.py:298-305 | every group of a committed run was stored before and changed only in the columns of its legacy group, or copies a legacy group with its labels, columns and switch, or is the compatibility group |
| `SeedValues.MadeOnlyWhenDue` | backend/app/rbac.py:328-329 | the compatibility group is made only where no group of that name and no membership is stored and there are users and servers |
| `SeedValues.MadeWhenDue` | backend/app/rbac.py:328-329 | and it is made there if no legacy membership is due |
| `SeedValues.CompatibilityIsComplete` | backend/app/rbac.py:330-339 | a run that makes it links every server, enrols every user and opens the open permissions |
| `SeedRepeats.MigratedGroupExists` | backend/app/rbac.py:298-305 | every legacy group has a group of its name with its columns and its switch |
| `SeedRepeats.StoredRowsStay` | backend/app/rbac.py:279-352 | no stored row is overwritten or removed, the privileged ones aside |
| `SeedRepeats.RolesAreRenamed` | backend/app/rbac.py:351 | the only role that changes is the old approver, which becomes operator |
| `SeedRepeats.ShippedOpenCodesAreHarmless` | backend/app/rbac.py:337-339 | none of the three open codes is privileged under the shipped aliases |
| `AccessRequests.RequestRoutes.CreateRequest` | backend/app/routes/access_requests.py:65-141 | accepted exactly if every right, limit, offer, key and MFA condition holds and, when nobody else has to act, a grant can be made; the recorded row field by field; a grant exactly when neither denial, approval nor MFA applies, direct exactly if open and not overruled; a refusal leaves nothing |
| `AccessRequests.SubmissionError` | backend/app/routes/access_requests.py:67-110 | no error exactly if the submitter is entitled (sudo types to their own permission, the gateway where it is required), type and duration are offered by form, groups and service, moment and server admit it, he has a key, and any MFA due is presented |
| `AccessRequests.RefusalAnswersFirstFailure` | backend/app/routes/access_requests.py:67-110 | a refusal carries the answer of the first check that fails, in the order of the route |
| `AccessRequests.RequestRoutes.ApproveRequest` | backend/app/routes/access_requests.py:145-181 | it succeeds exactly for an authorized other person on a pending or approved request, stepped up and not refused by the policy, when a grant can be made; a policy refusal leaves its mark and drops the stored gateway demand; a success sets the approver and adds one grant |
| `AccessRequests.RequestRoutes.RejectRequest` | backend/app/routes/access_requests.py:185-200 | only somebody else's pending request can be rejected |
| `AccessRequests.RequestRoutes.CreateGrantForRequest` | backend/app/services.py:72-118 | the exact condition of each answer on the facts: missing rows, no key, gateway closed while direct access is closed or overruled, executor failure; a success adds one grant copying the request, direct exactly if direct access is open and neither the row nor the mode overrules it |
| `AccessRequests.RequestRoutes.CancelPending` | backend/app/routes/access_groups.py:82-84 | exactly the pending requests of these users and servers without permission are cancelled |
| `AccessRequests.EveryRunIsLawful` | backend/app/routes/access_requests.py:154-176 | over every run an approved request that needed approval or MFA has an approver other than its requester, every grant copies an approved request, every approved request has a grant |
| `AccessRequests.RunKeeps` | backend/app/routes/access_requests.py:154-195 | approved, rejected, denied and cancelled are never left; identity and obligations never change; an ended grant never returns |
| `AccessRequests.EveryGrantIsTraced` | backend/app/routes/access_requests.py:67-176 | every grant of every run goes back to one accepted decision in it: a submission that needed nobody, by a user holding every right it takes (a sudo grant: the sudo permission) within all limits, or an approval by an authorized other person |
| `AccessRequests.ApprovalAddsOneGrant` | backend/app/routes/access_requests.py:160-176 | each successful approval adds exactly one grant to its request and no other attempt adds any |
| `AccessRequests.OtherStepsGiveNoGrant` | backend/app/routes/access_requests.py:185-195 | rejections, cancellations, wizard requests and closings add no grant |
| `AccessRequests.AutoGrantRespectsLimit` | backend/app/routes/access_requests.py:94-96 | a submission that is granted at once stays within the joint limit of concurrent grants |
| `AccessRequests.ApprovalRespectsLimitIff` | backend/app/routes/access_requests.py:155-176 | an approval ends within any given limit of concurrent grants exactly when there was room before it, so no limit is enforced |
| `AccessRequests.AcceptedFitsEveryGroup` | backend/app/routes/access_requests.py:65-101 | under group scoping a submission of a user who is no administrator is accepted only with a membership, and then it fits type, minutes, reason, concurrency, weekday and hours of every one of his groups |
| `AccessRequests.AcceptedRecordsEveryRequirement` | backend/app/routes/access_requests.py:89-110 | approval and MFA required by any one group are recorded on the request and keep it from being granted at once |
| `AccessRequests.GatewayDemandIff` | backend/app/routes/access_requests.py:100-119 | over every run a request demands the gateway exactly if it was submitted under a policy or group that does and the policy has refused no approval of it since |
| `AccessRequests.EveryRunKeepsOffDirect` | backend/app/services.py:86-97 | over every run a request that still demands the gateway has no direct grant |
| `AccessRequests.WizardForgetsTheGateway` | backend/app/wizard_service.py:293-301 | a request made through the wizard demands no gateway, so under a group that denies direct access its approval still gives a direct grant wherever direct access is open |
| `GrantHosts.Executor.GrantSshAccess` | backend/app/executor.py:165-179 | the key is appended unless present as a line and the account unlocked; a script that breaks off later leaves the key and reports failure |
| `GrantHosts.Executor.RevokeSshAccess` | backend/app/executor.py:181-184 | all lines equal to the key go, or the command fails when no other line is left |
| `GrantHosts.Executor.GrantSudoAccess` | backend/app/executor.py:186-196 | a sudoers file of that kind, none for plain SSH; a file the check refuses is removed again and the command fails |
| `GrantHosts.GrantBook.CreateGrant` | backend/app/services.py:72-152 | the exact condition of every answer on the facts; the grant row field by field; a direct grant puts the key line and the sudoers file in place, unlocks the account and touches no other; a broken command rolls the row back and leaves what was written |
| `GrantHosts.TransportIff` | backend/app/services.py:89-97 | direct exactly if the server and both permissions allow it and neither mode, policy nor a recording the server does not make overrules it; else the gateway if open; else nothing |
| `GrantHosts.ClosedIsShut` | backend/app/services.py:212-265 | a revocation takes exactly the key's lines and the account's sudoers file, and locks the account exactly if it was locked or no other active grant of the username is left |
| `GrantHosts.GrantBook.RevokeGrant` | backend/app/services.py:212-265 | it succeeds exactly when another key line is left and no host command breaks; the closed world, or the row still active over what the host kept |
| `GrantHosts.GrantBook.ExpireDueGrants` | backend/app/scheduler.py:24-37 | every due grant once in some order; the first failing command rolls the rows back but leaves the host changes already made |
| `GrantHosts.PassExpiresExactly` | backend/app/scheduler.py:24-37 | a pass expires exactly the active grants whose time has passed, or changes no row |
| `GrantHosts.EveryRunKeepsBacked` | backend/app/services.py:72-265 | over every run of creations, revocations and passes, with host commands failing anywhere, each key line and sudoers file belongs to an active direct grant, was there before, or was left by a failed creation of the run |
| `HeldAccess.EveryRunHolds` | backend/app/services.py:72-265 | the other direction: over every run of steps that take nothing, every active direct grant has its key line and its sudoers file |
| `HeldAccess.StepHoldsIff` | backend/app/services.py:144-265 | the exact condition of every step, committed or failed, in terms of the state before it |
| `HeldAccess.CreationHoldsIff` | backend/app/executor.py:186-196 | a creation keeps it exactly when no active direct grant of another sudo type shares the account |
| `HeldAccess.ClosingHoldsIff` | backend/app/executor.py:181-199 | a revocation keeps it exactly when no other active direct grant of the account has the same key or needs the sudoers file |
| `HeldAccess.FailedClosingHoldsIff` | backend/app/services.py:226-228 | a failing revocation keeps it exactly when its first command had no effect |
| `HeldAccess.CommittedPassHoldsIff` | backend/app/scheduler.py:24-37 | a committed pass keeps it exactly when no grant that stays shares account and key, or the sudoers file, with a due one |
| `HeldAccess.RolledBackPassHoldsIff` | backend/app/scheduler.py:24-37 | a rolled-back pass keeps it exactly when it had touched no host |
| `HeldAccess.SecondGrantLosesKey` | backend/app/executor.py:181-184 | the failing run: two grants of one request, the first revoked, the second active without its key |
| `GrantHosts.FailedCreateKeepsBackedIff` | backend/app/services.py:144-152 | a failed creation keeps every line backed exactly when its key, and its sudoers file if written, were covered before |
| `GrantHosts.FailedCreateIsExact` | backend/app/services.py:129-152 | what a broken creation leaves at each point it can break, on no other account |
| `GrantHosts.FailedRevokeIsExact` | backend/app/services.py:220-262 | what a broken revocation leaves: everything, or the key's lines gone, or the sudoers file too; no account is locked |
| `GrantHosts.NothingLeftWithoutFailure` | backend/app/services.py:144-152 | a run whose creations all go through leaves nothing uncovered |
| `GrantHosts.PassKeepsBacked` | backend/app/scheduler.py:24-37 | a pass keeps that property, committed or rolled back: it only takes lines and files from the hosts |
| `GrantHosts.CommittedPassLeavesNoOverdueKey` | backend/app/scheduler.py:24-37 | right after a committed pass at `now` each such key belongs to a grant valid until `now` or later |
| `GrantHosts.PassClosesExactlyDue` | backend/app/scheduler.py:24-37 | a committed pass expires exactly the due grants |
| `GrantHosts.LastKeyCannotBeRevoked` | backend/app/executor.py:181-184 | on an account with no other key line a direct grant is never revoked and stays in place |
| `GrantHosts.FirstGrantOfAccountCannotBeRevoked` | backend/app/executor.py:165-184 | so a direct grant created on an account with an empty key file can be neither revoked nor expired |
| `GrantHosts.RevokeUndoesCreate` | backend/app/services.py:212-265 | creating and revoking on an account with another key restores the key file and removes the sudoers file |
| `GrantHosts.EveryRunKeepsLocks` | backend/app/services.py:229-249 | over every run a locked account has no active direct grant, as long as no rolled-back pass had expired the last active grant of a username |
| `GrantHosts.RolledBackPassKeepsLocksIff` | backend/app/scheduler.py:24-37 | a rolled-back pass keeps that exactly when none of the grants it had expired was the last of its username |
| `GrantHosts.LockedByPass` | backend/app/services.py:229-249 | the accounts a pass locks are exactly those of the last active direct grants of their usernames |
| `LogText.DropPrefix` | backend/app/session_monitor.py:315-324 | skipping the bytes of a prefix leaves exactly the rest, whatever the character widths |
| `LogText.LinesConcat` | backend/app/session_monitor.py:104-126 | a newline-terminated text splits into lines independently of what is appended |
| `LogText.SortIsSorted` | backend/app/session_monitor.py:379-418 | the sort by time is sorted |
| `LogText.SortKeepsSelection` | backend/app/session_monitor.py:379-418 | and stable: entries of one key keep their order |
| `LogImport.ParseConcat` | backend/app/session_monitor.py:104-145 | a terminated file parses to the same entries after lines are appended, plus those of the new part |
| `LogImport.FiledHolds` | backend/app/session_monitor.py:152-246 | importing more entries extends what the store holds by exactly those entries, first entry winning |
| `LogImport.TrimExactly` | backend/app/session_monitor.py:108 | stripping a line takes the blanks off both ends and nothing else |
| `LogText.LineThenRest` | backend/app/session_monitor.py:105 | a line up to its break is one line and the rest splits alone; a line feed after a carriage return belongs to the same break |
| `LogLines.SessionParsedIff` | backend/app/session_monitor.py:129-145 | a line parses to an entry exactly if its JSON says session_started or session_finished, names that session or none for the default, and is dated so |
| `LogLines.CommandParsedIff` | backend/app/session_monitor.py:104-126 | a line parses to a command exactly if it has no type or that of a command, a non-empty command, that session and that time |
| `LogLines.FiledAsLogged` | backend/app/session_monitor.py:382-407 | after one import into an empty store a session has an end exactly if some line says it finished, at the time of the latest; it starts with its earliest line; a command is stored under a token exactly when some line reports it, with text and time of the first line of that stored form |
| `LogMonitor.GrantMonitor.Import` | backend/app/session_monitor.py:379-418 | terminates together with the revocation it may trigger, and raises exactly when a new critical command of an active direct grant triggers one whose host commands fail; otherwise such a command leaves the grant non-active |
| `LogMonitor.GrantMonitor.ImportActiveLogs` | backend/app/scheduler.py:40-56 | one import in its transaction: it goes through, or stores nothing at all, under exactly that condition |
| `LogMonitor.GrantMonitor.InsertCommand` | backend/app/session_monitor.py:231-287 | a command is stored once per session; a critical one ends the grant or raises |
| `LogMonitor.GrantMonitor.Revoke` | backend/app/services.py:212-265 | imports the logs of a direct grant first and leaves the grant non-active, or raises exactly when the grant is active and direct and its host commands fail |
| `LogMonitor.SettledGathersNothing` | backend/app/session_monitor.py:315-324 | once every file is read to its end an import finds no entry |
| `LogMonitor.NewTextOfGrown` | backend/app/session_monitor.py:315-324 | reading a file that grew yields exactly what was appended |
| `LogMonitor.GrowthSplits` | backend/app/session_monitor.py:104-145 | the entries of the grown part are those of the new snapshot minus those of the old one |
| `LogMonitor.ImportSnapshots` | backend/app/session_monitor.py:382-407 | after any growing sequence of snapshots the store holds exactly the sessions, ends and commands the lines of the last one report; the times too if the entries came in order |
| `LogTimes.FiledTimesIff` | backend/app/session_monitor.py:152-203 | start and end of every session agree with one import of everything exactly when the new entries come in order: none starts a known session earlier, no later finish is earlier |
| `LogTimes.FiledTimes` | backend/app/session_monitor.py:152-203 | an import starts a new session at its earliest session entry, else at its earliest command, and ends it at its latest finish |
| `LogTimes.LateFinishMovesEndBack` | backend/app/session_monitor.py:180-183 | the failing input: two finishes of one session, the later time imported first |
| `LogMonitor.HoldsDetermines` | backend/app/session_monitor.py:152-190 | two stores holding the same entries agree on every token, closing and command |
| `LogMonitor.ImportCut` | backend/app/session_monitor.py:315-324 | after the files are cut back to terminated prefixes of what was imported, an import adds no row and changes at most session ends, and none exactly when each session finished in the part read again has its recorded end as its latest finish there |
| `LogMonitor.ImportRegrown` | backend/app/session_monitor.py:315-324 | a replaced file that is at least as long as its offset again is not noticed: the import adds exactly the entries past the offset |
| `LogMonitor.SkippedCommandIsStoredIff` | backend/app/session_monitor.py:315-324 | a command in the skipped part of such a file is stored exactly if the same entry was imported before or comes again later |
| `LogTimes.RereadChangesNothingIff` | backend/app/session_monitor.py:180-246 | importing stored entries a second time changes at most the ends of sessions, and nothing under exactly that condition |
| `LogMonitor.TimedIgnoresClock` | backend/app/session_monitor.py:24-34 | entries with readable timestamps do not depend on the clock |
| `CommandDetector.Detector.Feed` | backend/app/gateway/command_detector.py:17-47 | one chunk reports exactly the commands the stream gained and keeps the editor in agreement with the stream |
| `CommandDetector.FeedAll` | backend/app/gateway/command_detector.py:17-47 | for any split into chunks the outputs concatenate to the commands of the whole stream, numbered 1..n |
| `CommandDetector.StepMatches` | backend/app/gateway/command_detector.py:17-47 | one character moves editor and stream specification together |
| `CommandDetector.CommandsAreClean` | backend/app/gateway/command_detector.py:17-47 | commands are non-empty, printable or tab, without outer blanks |
| `CommandDetector.ErasedTypingLeavesNoTrace` | backend/app/gateway/command_detector.py:17-47 | typing and erasing leaves the line as it was |
| `CommandDetector.TypedLineIsReported` | backend/app/gateway/command_detector.py:31-46 | a typed line closed with a carriage return or a line feed is reported stripped, a blank one not at all |
| `CommandDetector.EscapeLeavesNoTrace` | backend/app/gateway/command_detector.py:21-27 | an escape sequence up to its first letter or tilde leaves no trace |
| `CommandDetector.StripExactly` | backend/app/gateway/command_detector.py:33 | stripping takes the blanks off both ends and nothing else |
| `Gateway.GatewayService.ChooseGrant` | backend/app/gateway/policy.py:33-63 | the chosen grant is the earliest expiring eligible one of the server asked for, or the only eligible one; none is returned only if there is no such grant |
| `Gateway.GatewayService.AuthorizeLogin` | backend/app/gateway/server.py:58-66 | a login is stored with the chosen grant, or refused when there is none |
| `Gateway.GatewayService.StartShell` | backend/app/gateway/server.py:93-106 | any number of times per login a shell opens a live pair on the stored grant, whatever its status is by then |
| `Gateway.GatewayService.CreateSession` | backend/app/gateway/service.py:54-104 | a live connection and its session with the grant's user and server and the limits of the settings |
| `Gateway.GatewayService.FinishConnection` | backend/app/gateway/service.py:202-216 | both rows end with the same status, time and reason and the session gets its duration; an ended pair is left alone |
| `Gateway.GatewayService.EnforceSessions` | backend/app/scheduler.py:57-86 | every live pair ends for the first reason that applies or has its duration refreshed; the result counts exactly the connections closed |
| `Gateway.GatewayService.RevokeGrant` | backend/app/services.py:224-225 | all live connections of the grant end with the matching reason, no other pair changes |
| `Gateway.GatewayService.RemoveUser` | backend/app/routes/access_groups.py:294-298 | the member's active grants on lost servers are revoked, then the session rows still open there are ended in bulk |
| `Gateway.EveryRunAgreesOrIsTorn` | backend/app/gateway/service.py:54-216 | over every run each connection and its session agree, or a member removal ended the session of a shell whose grant had ended before |
| `Gateway.EveryRunInLockstep` | backend/app/gateway/service.py:54-216 | over every run without such a bulk end they carry the same status, end and reason, and an ended session has its exact non-negative duration |
| `Gateway.BulkEndKeepsAgreementIff` | backend/app/routes/access_groups.py:296-298 | a bulk end keeps all pairs in agreement exactly when no live connection of the user on a lost server hangs on an ended grant |
| `Gateway.ShellAfterRevocationTears` | backend/app/gateway/server.py:58-106 | the failing run, from any state in which a login succeeds: authenticate, revoke, open the shell, remove the member; a live connection with a terminated session is left |
| `Gateway.ShellKeepsLiveOnActiveIff` | backend/app/gateway/server.py:93-106 | a shell keeps "every live connection has an active grant" exactly when its grant is still active |
| `Gateway.OtherStepsKeepLiveOnActive` | backend/app/gateway/service.py:54-216 | every other step keeps it |
| `Gateway.EnforcementRepairs` | backend/app/scheduler.py:57-86 | after any run one enforcement pass makes all pairs agree and leaves no live connection on an ended grant |
| `Gateway.EndedPairsStayForever` | backend/app/gateway/service.py:202-204 | over every run a pair whose connection has ended never changes again but for its activity stamp |
| `Gateway.FinishIsIdempotent` | backend/app/gateway/service.py:202-204 | finishing twice is finishing once |
| `Gateway.RevokedGrantHasNoConnectionIff` | backend/app/services.py:224-225 | a revocation or expiry leaves the grant without live connection exactly when the grant was active or had none |
| `Gateway.EnforcementIsExact` | backend/app/scheduler.py:57-86 | after the pass exactly the pairs that were live, on a good grant and within idle and maximum limits are live, a session's own limit counting before the setting; the others ended then, with the first of the three reasons |
| `Gateway.RevocationIsExact` | backend/app/services.py:224-225 | a revocation or expiry of an active grant ends its live connections with their sessions, with that reason and time, and nothing else |
| `Gateway.RemovalIsExact` | backend/app/routes/access_groups.py:292-298 | a member removal ends his active grants on lost servers with their live pairs, then, if the group says so, his sessions still open there, and nothing else |
| `Gateway.ChoiceIsUsable` | backend/app/gateway/policy.py:33-64 | the chosen grant is the user's own, active, unexpired, through the gateway, on an enabled and permitted server with room, and of the server asked for; there is none exactly if no grant is so, or several are and none was asked for |
| `Gateway.DirectSessionsCount` | backend/app/gateway/policy.py:52-57 | open sessions of direct SSH count towards the limit, ended ones do not |
| `Gateway.DirectEndIsExact` | backend/app/routes/sessions.py:170-175 | ending a session without a connection stamps its own row, once |
| `Gateway.ShellRespectsLimitIff` | backend/app/gateway/server.py:93-106 | a shell keeps the user's open sessions on the server within a limit exactly when they were below it when it starts |
| `Gateway.LoginRespectsSessionLimit` | backend/app/gateway/policy.py:52-57 | the first shell, opened directly after the authentication, stays within the joint limit of that moment |
| `Gateway.ShellsAddUp` | backend/app/gateway/server.py:71-106 | n shells of one authentication add n open sessions, so no limit bounds them |
| `ProtocolLifecycle.Lifecycle.BeginLaunch` | backend/app/providers/web.py:107-148 | the slot is taken and the row is visible while the browser is being launched |
| `ProtocolLifecycle.Lifecycle.FinishLaunch` | backend/app/providers/web.py:199-210 | the runtime is registered without another look at the row, or the row fails and the slot comes back unless cleaning up raised |
| `ProtocolLifecycle.Lifecycle.TerminateSession` | backend/app/protocol_lifecycle.py:16-29 | runtime stopped, slot returned, row sealed even when the provider call raises; nothing happens to a session that is over |
| `ProtocolLifecycle.Lifecycle.StopSession` | backend/app/routes/sessions.py:159-170 | the row is sealed, or rolled back with its runtime gone when the provider call raises |
| `ProtocolLifecycle.Lifecycle.ReasonToEnd` | backend/app/protocol_lifecycle.py:36-51 | the reason that applies while none before it does, or none exactly when no reason applies |
| `ProtocolLifecycle.Lifecycle.EnforceOnce` | backend/app/protocol_lifecycle.py:32-54 | a pass in any order fails exactly when a due runtime cannot be stopped; otherwise it ends exactly the sessions with a reason, each with its own; a failing one rolls its rows back and leaves the runtimes it stopped gone |
| `ProtocolLifecycle.Lifecycle.LogoutUser` | backend/app/routes/auth.py:79 | a logout marks exactly the user's running web and VNC sessions |
| `ProtocolLifecycle.Lifecycle.EndRows` | backend/app/routes/users.py:134-149 | one update seals every open session row of the user, on some servers or on all, and touches no runtime and no slot |
| `ProtocolLifecycle.PassWorksIff` | backend/app/protocol_lifecycle.py:21-54 | a pass does its work exactly when no provider call raises; otherwise it changes no row, and a runtime is gone |
| `ProtocolLifecycle.PassIsExact` | backend/app/protocol_lifecycle.py:36-53 | a watched session survives a committed pass untouched exactly when grant, expiry, token, both timeouts and runtime are in order; every other is sealed with the first reason that applies, its end and its exact duration |
| `ProtocolLifecycle.RuntimesMatchSessionsAfterPass` | backend/app/protocol_lifecycle.py:32-54 | right after a committed pass the runtimes are exactly those of the running sessions and the leaked ones, and every session left may go on |
| `ProtocolLifecycle.EveryRunConservesSlots` | backend/app/providers/web.py:84-210 | over every run, bulk endings and raising provider calls included, free slots, browser runtimes and launches equal the capacity less the slots swallowed by failed clean-ups |
| `ProtocolLifecycle.BulkEndKeepsServingIff` | backend/app/routes/access_groups.py:296-298 | a bulk ending keeps "every runtime serves an open session" exactly when it hits no row with a runtime |
| `ProtocolLifecycle.FinishKeepsServingIff` | backend/app/providers/web.py:199-204 | a launch that comes back keeps it exactly when it failed or its row is still open |
| `ProtocolLifecycle.PassDuringLaunchLeaks` | backend/app/providers/web.py:145-220 | the failing run: a pass that commits while a browser is being launched seals the row, and the launch then registers a runtime behind it |
| `ProtocolLifecycle.OtherStepsKeepServing` | backend/app/providers/web.py:110-227 | every step but these two keeps it |
| `ProtocolLifecycle.EveryRunIsServing` | backend/app/providers/web.py:110-227 | over every run in which no bulk ending hits a row with a runtime and no launch comes back to a row that is over, no runtime outlives its session |
| `ProtocolLifecycle.BulkEndAfterLaunchLeaks` | backend/app/routes/users.py:134-149 | the failing run, from every state that can launch a browser: launch it, then end the user's rows in bulk |
| `ProtocolLifecycle.LeakedRuntimeIsNeverFreed` | backend/app/protocol_lifecycle.py:16-54 | a browser runtime whose row was ended in bulk stays until the provider shuts down, whatever passes, stops and logouts follow |
| `ProtocolLifecycle.LeaksBlockLaunches` | backend/app/providers/web.py:110-130 | when every slot has leaked, no browser session can be launched before a shutdown |
| `ProtocolLifecycle.DisconnectedBrowserNeedsAPassEach` | backend/app/providers/web.py:295-335 | with a disconnected browser and k runtimes of open sessions exactly the first k passes fail; the next one commits, seals every browser session and leaves only leaked runtimes |
| `ProtocolLifecycle.DisconnectedPassesTakeOneEach` | backend/app/protocol_lifecycle.py:21-54 | each failing pass of such a run frees one slot and changes no row |
| `ProtocolLifecycle.FailingPassesRunOut` | backend/app/protocol_lifecycle.py:21-54 | passes cannot fail for ever: failing ones in a row are at most as many as there are runtimes |
| `ProtocolLifecycle.LogoutEndsAtNextPass` | backend/app/routes/auth.py:79 | whatever happens in between, the next pass leaves a session that was open at a logout over exactly when it was over before or the pass commits |
| `ProtocolLifecycle.TerminateIsIdempotent` | backend/app/protocol_lifecycle.py:18-19 | terminating twice is terminating once |
| `Usernames.SanitizedIsValid` | backend/app/security.py:31-39 | for every username the result is a valid account name of at most 32 characters with the prefix and without double underscore, ending in an underscore only by truncation |
| `Usernames.CleanedIsJoinedWords` | backend/app/security.py:32-33 | the cleaned text is exactly the maximal runs of letters and digits joined by single underscores |
| `Usernames.ClassesAre` | backend/app/security.py:31-39 | the character classes, letter by letter |
| `Usernames.LoginNameIff` | backend/app/gateway/policy.py:11 | a login name is a letter or underscore and up to 63 letters, digits, underscores or hyphens |
| `Usernames.ShareAccountIff` | backend/app/security.py:31-39 | two usernames share one account exactly when their normal word lists, joined, agree on the first 32 characters |
| `Usernames.ShareUntruncatedIff` | backend/app/security.py:31-39 | when neither is truncated, exactly when their normal word lists are equal |
| `Usernames.BobSharesWithPamBob` | backend/app/security.py:34-35 | for instance bob and pam_bob |
| `Usernames.SanitizeAgain` | backend/app/security.py:31-35 | sanitizing again changes the name exactly when truncation left a final underscore, and drops just that |
| `Usernames.SanitizeTwiceIsStable` | backend/app/security.py:31-35 | a third time changes nothing |
| `Usernames.ParsePrinted` | backend/app/gateway/policy.py:20-26 | a valid login name printed with a server id parses back to both |
| `Usernames.NumberIsPositional` | backend/app/gateway/policy.py:24-26 | the server id is read in base ten |
| `Usernames.ConnectionRoundTrip` | backend/app/gateway/service.py:46-51 | the login inside the printed connection string parses to exactly the grant's name and server id |
| `Usernames.ParserAcceptsExactly` | backend/app/gateway/policy.py:11 | the accepted texts are exactly: a login name, optionally + and digits, optionally one final newline |
| `Usernames.NewlineInBareLogin` | backend/app/gateway/policy.py:20-24 | a bare login with a final newline is accepted and keeps the newline in the name |
| `Mfa.MfaService.VerifyChallenge` | backend/app/mfa/challenge.py:45-84 | success exactly on a pending, unexpired challenge with a code that fits an unused row of the user or his secret; status, verification time, counters and step-up of every branch |
| `Mfa.MfaService.VerifyRecoveryCode` | backend/app/mfa/recovery_codes.py:18-26 | accepted exactly if some unused row of the user matches; exactly one such row becomes used |
| `Mfa.MfaService.GenerateRecoveryCodes` | backend/app/mfa/recovery_codes.py:9-15 | unused rows of the user are replaced, used ones and other users' rows stay |
| `Mfa.GenerateExactly` | backend/app/mfa/recovery_codes.py:9-15 | row by row: the user's unused rows go, one unused row comes for each hash, every other row stays |
| `Mfa.MfaService.RequireStepUp` | backend/app/mfa/step_up.py:33-55 | enrollment is demanded exactly from an unenrolled user who must use MFA or is forced to, a challenge is created exactly for an enrolled user without a window, all others pass; nothing else changes |
| `Mfa.SucceedsIff` | backend/app/mfa/challenge.py:45-84 | a verification succeeds exactly on a pending, unexpired challenge of an existing user with a right code; the account lock plays no part, and the success lifts it |
| `Mfa.OnlyTheFirstAttemptVerifies` | backend/app/mfa/challenge.py:45-49 | over every run a challenge verifies at most once and only on the first attempt at it |
| `Mfa.EveryChallengeHasHistory` | backend/app/mfa/challenge.py:28-49 | over every run each challenge was made by one event, expires the time to live after it, and is pending exactly as long as nobody has tried it |
| `Mfa.VerifiesIffInTime` | backend/app/mfa/challenge.py:28-84 | over every run an attempt verifies exactly if its challenge was made at most the time to live before, nobody has tried it since, and the code is right for the user it was made for |
| `Mfa.WrongCodesAddUp` | backend/app/mfa/challenge.py:60-66 | over every run that never clears the account, wrong codes on live challenges add up, whichever challenges they were for, and below five the lock is untouched |
| `Mfa.LatestWrongCodeLocks` | backend/app/mfa/challenge.py:60-66 | from the fifth on the latest wrong code alone sets the lock, fifteen minutes from its own time, whatever follows |
| `Mfa.RecoveryRowIsAcceptedOnce` | backend/app/mfa/recovery_codes.py:18-26 | over every run each recovery row is accepted at most once |
| `Mfa.AttemptUsesAtMostOneRow` | backend/app/mfa/recovery_codes.py:22-26 | only a successful recovery attempt uses a row: exactly one, of that user, matching the code |
| `Mfa.StepUpIffVerified` | backend/app/mfa/step_up.py:24-30 | over every run a step-up is in force at t exactly when a step-up challenge of that user and context verified earlier with a window reaching t |
| `NavigationGuard.Guard.Validate` | backend/app/providers/web_security.py:15-84 | success exactly for a web address without credentials whose host is admitted by the rules, whose addresses are all safe and equal to an earlier pin; the pin set then and nothing changed on failure |
| `NavigationGuard.NormalizeUrl` | backend/app/providers/web_security.py:15-36 | accepted exactly for http and https, no credentials, a host that can be encoded and a port in range; the port is kept exactly if it is given, not zero and not the default of the scheme |
| `NavigationGuard.EntriesExactly` | backend/app/providers/web_security.py:41-42 | the rule entries are exactly the texts that are not blank, folded and cut |
| `NavigationGuard.AsciiHostEncodes` | backend/app/providers/web_security.py:29 | an ASCII host encodes to itself if its labels have 1 to 63 characters, the last possibly none, and not at all otherwise |
| `NavigationGuard.Guard.Canonicalize` | backend/app/providers/web_security.py:69-77 | every address is checked in canonical form, in any order |
| `NavigationGuard.Guard.DomainCheck` | backend/app/providers/web_security.py:47-50 | the block list first, then the allow list |
| `NavigationGuard.SuccessesAgree` | backend/app/providers/web_security.py:78-83 | over every sequence of calls all successes for a host return the same address set |
| `NavigationGuard.RebindingAlwaysFails` | backend/app/providers/web_security.py:79-82 | a host once admitted is never admitted with another answer |
| `NavigationGuard.NoForbiddenAddress` | backend/app/providers/web_security.py:70-77 | no success holds a metadata or special address, nor a private one unless allowed, mapped forms included |
| `NavigationGuard.MappedAddressIsUnmasked` | backend/app/providers/web_security.py:72-73 | the mapped form of an IPv4 address is judged as that address, every other address as itself |
| `NavigationGuard.CoversIffAtOrBelow` | backend/app/providers/web_security.py:47-50 | the string test of a domain rule is exactly "the domain or a name below it" by labels |
| `NavigationGuard.EntryBlocksIff` | backend/app/providers/web_security.py:22-50 | a host whose name is at or below the domain a blocked entry names is refused by that entry exactly when the entry is spelled in ASCII and the host does not end in a hidden dot |
| `NavigationGuard.FinalDotIffHidden` | backend/app/providers/web_security.py:22-29 | the encoded host ends in a full stop exactly when the host ends in another IDNA dot or its last label is encoded to something that ends in one |
| `NavigationGuard.BlockListExactly` | backend/app/providers/web_security.py:47-49 | for every encoded host: without a final dot the block list refuses exactly what is at or below an ASCII entry, with one only what an entry of nothing but dots matches |
| `NavigationGuard.HiddenDotPassesBlockList` | backend/app/providers/web_security.py:22-49 | the failing input: a blocked ASCII domain with an ideographic, fullwidth or halfwidth dot after it is admitted when there is no allow list |
| `NavigationGuard.NonAsciiEntryBlocksNothing` | backend/app/providers/web_security.py:41-49 | the other failing input: a blocked entry that is not ASCII blocks no host, not even the URL with the same text |
| `NavigationGuard.BuecherPassesBlockList` | backend/app/providers/web_security.py:41-49 | an instance: the entry bücher.de names xn--bcher-kva.de and does not block it |
| `NavigationGuard.OneNameTwoPins` | backend/app/providers/web_security.py:78-83 | one name with and without a hidden dot can be pinned to two answers |
| `NavigationGuard.SuccessesOfOneNameAgree` | backend/app/providers/web_security.py:78-83 | successes for one name agree as long as neither host ends in a hidden dot |
| `NavigationGuard.BlockedDomainNeverSucceeds` | backend/app/providers/web_security.py:47-49 | with an ASCII entry and a host without a hidden dot, a host at or below a blocked domain never succeeds |
| `NavigationGuard.AllowListIsByLabels` | backend/app/providers/web_security.py:50 | with subdomains on, exactly the hosts at or below an allowed and no blocked domain pass |
| `NavigationGuard.EveryPinIsSafe` | backend/app/providers/web_security.py:60-84 | everything a run has pinned is non-empty, safe and of an admitted domain |
| `Wizard.AcceptedIffNonsensitive` | backend/app/wizard_service.py:45-53 | a draft tree is accepted exactly when no key at any depth is sensitive |
| `Wizard.OffenceIsReal` | backend/app/wizard_service.py:50 | the path in the error leads to a sensitive key |
| `Wizard.ShippedRuleRefuses` | backend/app/wizard_service.py:29-49 | refused are exactly nine key names and whatever ends in _secret_value, in any case |
| `Wizard.WizardRoutes.CreateDraft` | backend/app/routes/access_wizard.py:70-89 | unauthorized, sensitive, or stored with a day to live |
| `Wizard.WizardRoutes.OwnedDraft` | backend/app/routes/access_wizard.py:53-61 | unknown, foreign, expired and then deleted, or fine |
| `Wizard.WizardRoutes.ListDrafts` | backend/app/routes/access_wizard.py:93-103 | exactly the user's expired drafts are deleted |
| `Wizard.WizardRoutes.UpdateDraft` | backend/app/routes/access_wizard.py:111-132 | an edit exactly of the caller's own unexpired draft, to a mode he may prepare and with data free of sensitive keys: given fields replaced, the rest kept, the time to live renewed |
| `Wizard.WizardRoutes.DeleteDraft` | backend/app/routes/access_wizard.py:135-138 | the caller's own unexpired draft goes; otherwise the error of the lookup |
| `Wizard.WizardRoutes.CompleteTransaction` | backend/app/wizard_service.py:290-341 | replay of a known key, or all rows with submission and draft deletion, or nothing |
| `Wizard.WizardRoutes.CompleteDraft` | backend/app/routes/access_wizard.py:181-214 | replayed exactly when the key is known; committed exactly for the own, unexpired, authorized and valid draft whose connection test lets it pass and whose rows can be made; the state of both, each error exactly under its condition, and a refusal changes nothing but an expired draft |
| `Wizard.StoredDraftsAreNonsensitive` | backend/app/routes/access_wizard.py:70-132 | over every run every stored draft is free of sensitive keys |
| `Wizard.ExactlyOncePerKey` | backend/app/wizard_service.py:290-341 | over every run a user's submission key has had exactly one effect if it has a submission, else none |
| `Wizard.ReplaysReturnTheFirstAnswer` | backend/app/routes/access_wizard.py:182-185 | every later completion under a key returns the first answer and changes nothing |
| `Wizard.DraftCompletesOnce` | backend/app/wizard_service.py:338 | a draft completes at most once; a second completion needs a new draft under that id |
| `Wizard.EffectsComeFromOwnDrafts` | backend/app/routes/access_wizard.py:186-210 | an effect only comes from the submitter's own, unexpired, valid draft in its content of that moment |
| `Wizard.RefusalChangesNothing` | backend/app/routes/access_wizard.py:186-214 | a refused completion changes nothing but an expired draft |
| `PolicyResolver.Resolve` | backend/app/policy/resolver.py:29-53 | the two loops compute the fold |
| `PolicyResolver.EffectiveIsArgmin` | backend/app/policy/resolver.py:35-53 | each policy has the value of an enabled, well-formed row with the smallest priority number, else the value of the last registry entry with its name; it has one exactly if there is such a row or entry |
| `PolicyResolver.DefaultsAreLast` | backend/app/policy/resolver.py:38-39 | a policy has a default exactly if some registry entry names it, and then that of the last one |
| `PolicyResolver.OrderIrrelevantIffNoConflict` | backend/app/policy/resolver.py:42 | the result is independent of the query order exactly when tied deciding rows never disagree |
| `PolicyResolver.DistinctPrioritiesNeverConflict` | backend/app/policy/resolver.py:42 | with distinct priorities per policy there is no conflict |

## Left out

- AccessGroups.GroupRoutes.RemoveUser: guarantees outright only that `servers.connect` survives, because the route re-checks nothing else; for transport and access type it states the exact condition. The session rows it ends are in `Gateway.GatewayService.RemoveUser` and `ProtocolLifecycle.Lifecycle.EndRows`.
- LogMonitor.ImportSnapshots: covers readable timestamps, newline-terminated snapshots and imports that go through (a failing one changes nothing); the general case of one import is `LogMonitor.GrantMonitor.Import`.
- ProtocolLifecycle.Lifecycle.EnforceOnce: a pass is one step; what other requests do while it waits for a provider is not modelled, except that a launch may begin before it and end after it.
- ProtocolLifecycle.Lifecycle.FinishLaunch: database errors in the middle of a launch, and a shutdown that raises, are not modelled.
- NavigationGuard.EntryBlocksIff: the encoding of one label is a parameter of which only "not empty and ASCII" is used.
- LogMonitor.ImportCut: covers cuts that end at a line; a cut inside a line leaves a partial last line, for which only `LogMonitor.GrantMonitor.Import` speaks.
- GrantHosts.GrantBook.CreateGrant: a script breaks off before or after it writes the key file, before it touches the sudoers file, or at its check; a sudo or lock command that has its effect and then loses the connection is not modelled.
- GrantHosts.GrantBook.RevokeGrant: the log import before it is in `LogMonitor`, the closing of gateway connections in `Gateway`.
- Rbac.PermissionSources: which source comes first in the list is not stated; it follows the query order and decides nothing.
- Rbac.EffectivePermissions: the entries are in any order, while the code sorts them by name; when several sources have the deciding effect, any of them may be reported.
- Usernames.ParserAcceptsExactly: numbers of any length are read; Python refuses more than 4300 digits.
- Wizard.WizardRoutes.CompleteTransaction: the business rows it creates are one opaque answer per draft; which rows they are is not modelled.
- The routes `copy_settings`, `update_template`, `update_server` and `set_user_role` change what the evaluator reads without a cascade; they are outside the cascade theorems.
- Concurrent requests, isolation levels and races on unique constraints: a route is one step.
- Parsing of JSON text, URLs, comma-separated constraint columns and timestamps: parameters or already parsed records. A log line whose JSON is not an object raises in the code and is not modelled.
- The terminal detector takes text; decoding byte chunks is left out.
- Address classes (loopback, private, reserved and so on) and the IDNA encoding of a single label: parameters.
- Hashing, one-time passwords, tokens and encryption: parameters.
- The per-import cache of sessions by token, which returns what the lookup returns.
- Membership row ids: a membership is named by group and user, as its unique constraint allows.
- Audit rows, gateway events, risk events, alerts and recordings: they change nothing modelled here.
- `seed_mock_gateway_for_grant`, the mock executor and demo seeding.
- The order of the four parts of the scheduler's tick, which a raising part ends, and secret rotation.
- Explicit null values in payload fields whose columns are not nullable.
- Vault backends, the VNC relay, WebSockets, browser automation, CSV exports and the frontend.
