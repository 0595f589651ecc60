# AmazoBank CRM — a verified model of its access rules and page logic

AmazoBank's CRM is a set of services behind one web front end:

- the **staff user service** keeps bank staff (Agent, Admin, SuperAdmin) in a table and in a Cognito user pool;
- the **client profile service** keeps the clients each agent manages;
- the **client account service** keeps the clients' accounts and their transactions;
- the **Next.js front end** routes staff to their portal, calls these services, and parses the transaction logs.

This project models, in Dafny:

- the role order and its guards on creating, deleting and updating staff;
- the repository's soft delete and partial update;
- the identity-provider calls the staff service makes;
- the issuer-URI parsing of the Cognito configuration;
- the ownership gates of the client, account and transaction endpoints, and the duplicate-contact checks;
- the group-to-authority converters;
- the front end's pure logic: role routing, the token lookup, the API base URL, the user API client's error mapping, the mock users route, the admin users page, the agent clients page and the two log pages.

Objects the source mutates in place are classes here:

- the user store, the identity provider's call trace, the services, the controllers;
- the browser storage, the base-URL cache, the mock route's list.

Their methods are specified by functions of the old state. Pure logic is functions, and the properties relating several calls are lemmas.

Modules, one per file:

- `UserDomain`, `UserRepository`, `UserService`, `UserController`, `CognitoConfig`: the staff user service;
- `ClientDomain`, `ClientMapper`, `ClientService`, `ClientController`, `ClientAuthorities`: the client profile service;
- `AccountDomain`, `AccountService`, `AccountController`, `TransactionMapper`, `TransactionService`, `TransactionController`, `AccountAuthorities`: the client account service;
- `FrontendRoles`, `DashboardLayout`, `UsersRoute`, `UserApi`, `ApiBase`, `AuthToken`, `AdminUsersPage`, `AgentClientsPage`, `LogPatterns`, `AgentLogsPage`, `AdminLogsPage`: the front end;
- `Wrappers`, `Ascii`, `Calendar`: helpers (Option/Result, ASCII character classes and case mapping, calendar dates).

Behaviours the model records as the source has them, each shown by a lemma:

- an Admin may promote an Agent to SuperAdmin (`UpdateDoesNotBoundNewRole`);
- the page's own create guard refuses the opposite cases to the service's gate (`LocalGuardOpposesServiceGate`);
- the create gate lets an Admin create a SuperAdmin but stops a SuperAdmin creating an Admin (`CreateGateInvertsRank`);
- an email change that differs only in case skips the duplicate check (`CaseOnlyEmailChangeDuplicates`);
- a refused staff update has already updated the identity provider: `UserService.UserService.UpdateUser` puts the attribute update in the provider's trace before the repository's outcome, and `RefusedUpdateStillReachesProvider` shows that outcome is a refusal;
- the front end never shows a refused delete's message, because it reads a field the service does not send (`DeleteHidesServiceMessage`);
- the agent log page counts WARNING entries as warnings, but its WARN filter hides them (`WarningCountedButNotListed`).

## Model

| member | source | states |
|---|---|---|
| UserDomain.Ordinal | amazobank-crm-user-management/src/main/java/com/amazobank/crm/userservice/domain/User.java:48-54 | the declaration order of the roles: Agent is 0, SuperAdmin is 2, Admin in between |
| UserDomain.CompareTo | amazobank-crm-user-management/src/main/java/com/amazobank/crm/userservice/repo/UserRepository.java:33 | the enum comparison is zero exactly for equal roles and positive exactly when the first role is declared later |
| UserDomain.OutranksIsStrictTotalOrder | amazobank-crm-user-management/src/main/java/com/amazobank/crm/userservice/domain/User.java:48-54 | outranking (`compareTo > 0`) is irreflexive, asymmetric, transitive and total on distinct roles; SuperAdmin outranks Admin, which outranks Agent |
| UserDomain.RankExtremes | amazobank-crm-user-management/src/main/java/com/amazobank/crm/userservice/domain/User.java:48-54 | an Agent outranks nobody, nobody outranks a SuperAdmin, a SuperAdmin outranks every other role |
| UserDomain.FromAuthority | amazobank-crm-user-management/src/main/java/com/amazobank/crm/userservice/domain/User.java:55-61 | ROLE_AGENT maps to Agent, ROLE_SUPERADMIN to SuperAdmin, and every other authority (in any spelling) to Admin |
| UserDomain.FromAuthorityDefaultsToAdmin | amazobank-crm-user-management/src/main/java/com/amazobank/crm/userservice/domain/User.java:59 | ROLE_ADMIN, a lower-case role_agent and the empty authority all map to Admin |
| UserDomain.RoleName | amazobank-crm-user-management/src/main/java/com/amazobank/crm/userservice/service/UserService.java:73 | the group name a role is enrolled under is its non-empty enum name |
| UserDomain.GroupAuthority | amazobank-client-profile/src/main/java/com/amazobank/crm/clientservice/security/CognitoGroupGrantedAuthoritiesConverter.java:53-55 | an authority is "ROLE_" followed by the group name with no lower-case letter left, equal to it ignoring case |
| UserDomain.GroupAuthorityIgnoresCase | amazobank-client-profile/src/main/java/com/amazobank/crm/clientservice/security/CognitoGroupGrantedAuthoritiesConverter.java:53-55 | group names that differ only in case give the same authority |
| UserDomain.NewUser | amazobank-crm-user-management/src/main/java/com/amazobank/crm/userservice/api/UserController.java:97-101 | a new user carries the requested names, email and role, no id yet, and status Active |
| UserDomain.GroupRoundTrip | amazobank-crm-user-management/src/main/java/com/amazobank/crm/userservice/service/UserService.java:72-76 | a user enrolled in the group named after their role comes back, through the token converter and fromAuthority, with that same role |
| UserRepository.DeleteOutcome | amazobank-crm-user-management/src/main/java/com/amazobank/crm/userservice/repo/UserRepository.java:20-46 | NOT_FOUND exactly when the id is missing or disabled; FORBIDDEN exactly when the deleter does not outrank the user or the save fails; otherwise only that row changes, to Disabled |
| UserRepository.ApplyPatch | amazobank-crm-user-management/src/main/java/com/amazobank/crm/userservice/repo/UserRepository.java:72-85 | the patch never changes the id or the status |
| UserRepository.UpdateOutcome | amazobank-crm-user-management/src/main/java/com/amazobank/crm/userservice/repo/UserRepository.java:48-91 | NOT_FOUND exactly when the id is missing or disabled; FORBIDDEN exactly when the updater does not outrank the user or a needed save fails; success exactly when the updater outranks a live user and either nothing would change or the save succeeds; a success without changes writes nothing and any other success writes the patch applied to that one row; the keys never change |
| UserRepository.NoChangeIsIdentity | amazobank-crm-user-management/src/main/java/com/amazobank/crm/userservice/repo/UserRepository.java:65-70 | when all four fields already equal the patch, applying the patch changes nothing, so the early return loses nothing |
| UserRepository.ApplyPatchIdempotent | amazobank-crm-user-management/src/main/java/com/amazobank/crm/userservice/repo/UserRepository.java:72-85 | applying the same patch twice is applying it once |
| UserRepository.ApplyPatchFieldwise | amazobank-crm-user-management/src/main/java/com/amazobank/crm/userservice/repo/UserRepository.java:72-85 | each field takes the patch's value when it is present and keeps its own when the patch leaves it null |
| UserRepository.NullFieldDefeatsShortCut | amazobank-crm-user-management/src/main/java/com/amazobank/crm/userservice/repo/UserRepository.java:65-68 | a patch without a role is never treated as no change |
| UserRepository.OutcomesKeepKeys | amazobank-crm-user-management/src/main/java/com/amazobank/crm/userservice/repo/UserRepository.java:20-91 | delete and update keep every row stored under its own user id |
| UserRepository.DisabledIsFinal | amazobank-crm-user-management/src/main/java/com/amazobank/crm/userservice/repo/UserRepository.java:29-31 | after a delete, deleting or updating the same id again is NOT_FOUND and changes nothing |
| UserRepository.RankGuardsWrites | amazobank-crm-user-management/src/main/java/com/amazobank/crm/userservice/repo/UserRepository.java:33-35 | an Agent can neither delete nor update anyone, and no one can delete a live SuperAdmin |
| UserRepository.UpdateDoesNotBoundNewRole | amazobank-crm-user-management/src/main/java/com/amazobank/crm/userservice/repo/UserRepository.java:62-64 | an Admin may promote an Agent to SuperAdmin: the guard compares with the old role only |
| UserRepository.UserStore.constructor | amazobank-crm-user-management/src/main/java/com/amazobank/crm/userservice/repo/UserRepository.java:13 | the store starts empty |
| UserRepository.UserStore.FindById | amazobank-crm-user-management/src/main/java/com/amazobank/crm/userservice/repo/UserRepository.java:21 | finds the row with that id, disabled or not |
| UserRepository.UserStore.FindByUserId | amazobank-crm-user-management/src/main/java/com/amazobank/crm/userservice/repo/UserRepository.java:17-18 | finds a user exactly when a live row has that id |
| UserRepository.UserStore.FindByEmail | amazobank-crm-user-management/src/main/java/com/amazobank/crm/userservice/repo/UserRepository.java:14-15 | finds a user exactly when an active row has that email, and returns such a row |
| UserRepository.UserStore.Save | amazobank-crm-user-management/src/main/java/com/amazobank/crm/userservice/repo/UserRepository.java:40 | the row under the user's id becomes the user; the others are kept |
| UserRepository.UserStore.DeleteById | amazobank-crm-user-management/src/main/java/com/amazobank/crm/userservice/repo/UserRepository.java:20-46 | error and new rows are those of DeleteOutcome |
| UserRepository.UserStore.Update | amazobank-crm-user-management/src/main/java/com/amazobank/crm/userservice/repo/UserRepository.java:48-91 | error and new rows are those of UpdateOutcome: the guards in order, the no-change short cut, then the four null-guarded setters and the save |
| UserService.AttributesOf | amazobank-crm-user-management/src/main/java/com/amazobank/crm/userservice/service/UserService.java:146-160 | exactly the attributes email, given_name and family_name, in that order, with the user's values |
| UserService.TemporaryPassword | amazobank-crm-user-management/src/main/java/com/amazobank/crm/userservice/service/UserService.java:56-59 | the given password when it is non-empty, otherwise the generated one |
| UserService.CreateRequest | amazobank-crm-user-management/src/main/java/com/amazobank/crm/userservice/service/UserService.java:64-70 | the creation request uses the email as user name, the temporary password, the three attributes and SUPPRESS |
| UserService.GroupRequest | amazobank-crm-user-management/src/main/java/com/amazobank/crm/userservice/service/UserService.java:72-76 | the group request names the pool and the email, and its group maps back to the user's role |
| UserService.FindSub | amazobank-crm-user-management/src/main/java/com/amazobank/crm/userservice/service/UserService.java:102-106 | the value of a "sub" attribute when there is one; none when no attribute is named sub |
| UserService.FindSubIsFirst | amazobank-crm-user-management/src/main/java/com/amazobank/crm/userservice/service/UserService.java:102-106 | the value taken is that of the first sub attribute |
| UserService.IdentityProvider.constructor | amazobank-crm-user-management/src/main/java/com/amazobank/crm/userservice/service/UserService.java:31 | the provider starts with an empty call trace |
| UserService.IdentityProvider.Send | amazobank-crm-user-management/src/main/java/com/amazobank/crm/userservice/service/UserService.java:99-100 | every call is appended to the trace; success is the provider's verdict on it |
| UserService.UserService.constructor | amazobank-crm-user-management/src/main/java/com/amazobank/crm/userservice/service/UserService.java:34-38 | the service holds the repository, the provider and the pool id |
| UserService.UserService.Create | amazobank-crm-user-management/src/main/java/com/amazobank/crm/userservice/service/UserService.java:48-109 | sends the creation request and, if accepted, the group request; fails on either refusal, on a missing sub or a refused save; succeeds exactly when all four pass, then saves the user under the sub; a failure stores nothing |
| UserService.UserService.DeleteUser | amazobank-crm-user-management/src/main/java/com/amazobank/crm/userservice/service/UserService.java:112-118 | the repository delete with the caller's role from fromAuthority; no provider call |
| UserService.UserService.UpdateUser | amazobank-crm-user-management/src/main/java/com/amazobank/crm/userservice/service/UserService.java:122-144 | always updates the provider's attributes first, sets the password only when one is given, and stops at a provider refusal; otherwise the outcome is UpdateOutcome, so a repository refusal comes after the attribute update is already in the provider's trace |
| UserService.RefusedUpdateStillReachesProvider | amazobank-crm-user-management/src/main/java/com/amazobank/crm/userservice/service/UserService.java:131-143 | an update the rank guard refuses reports an error and changes no row; with UserService.UpdateUser, whose trace puts the attribute update first, the provider has been changed all the same |
| UserController.CheckAuthorities | amazobank-crm-user-management/src/main/java/com/amazobank/crm/userservice/api/UserController.java:64-76 | no authorities, more than one, or the single authority |
| UserController.StatusOf | amazobank-crm-user-management/src/main/java/com/amazobank/crm/userservice/api/UserController.java:105 | a created user is 201; an assertion or service failure is a 500 |
| UserController.CreateGate | amazobank-crm-user-management/src/main/java/com/amazobank/crm/userservice/api/UserController.java:81-95 | an Agent gets 403 with an empty detail; a SuperAdmin is refused any non-Agent role; every other authority (an Admin) passes for any role |
| UserController.CreateGateInvertsRank | amazobank-crm-user-management/src/main/java/com/amazobank/crm/userservice/api/UserController.java:88-90 | the gate refuses a SuperAdmin creating an Admin yet lets an Admin create a SuperAdmin |
| UserController.AgentsCreatableByNonAgents | amazobank-crm-user-management/src/main/java/com/amazobank/crm/userservice/api/UserController.java:81-95 | an Agent user can be created by every authority except ROLE_AGENT |
| UserController.ResultResponse | amazobank-crm-user-management/src/main/java/com/amazobank/crm/userservice/api/UserController.java:137-148 | 200 with result ok exactly when there is no error; otherwise the error's status with result err and the message |
| UserController.PatchOf | amazobank-crm-user-management/src/main/java/com/amazobank/crm/userservice/api/UserController.java:171-175 | the patch has the path id and the request's names and email, and no role |
| UserController.EndpointUpdateKeepsRole | amazobank-crm-user-management/src/main/java/com/amazobank/crm/userservice/api/UserController.java:171-177 | the update endpoint never changes a user's role and never takes the no-change short cut |
| UserController.UserController.constructor | amazobank-crm-user-management/src/main/java/com/amazobank/crm/userservice/api/UserController.java:42 | the controller holds the service |
| UserController.UserController.CreateUser | amazobank-crm-user-management/src/main/java/com/amazobank/crm/userservice/api/UserController.java:42-106 | no authorities is an assertion failure, several a 400; a refused gate sends nothing; after a passing gate the provider trace and the response follow the service's create: each provider refusal, a missing sub and a failed save become that service failure, and a created user (with the requested fields, stored under its new id) exactly when all succeed |
| UserController.UserController.DeleteUser | amazobank-crm-user-management/src/main/java/com/amazobank/crm/userservice/api/UserController.java:119-149 | with one authority the response is ResultResponse of the service delete; otherwise nothing changes; the provider is never called |
| UserController.UserController.UpdateUser | amazobank-crm-user-management/src/main/java/com/amazobank/crm/userservice/api/UserController.java:153-189 | with one authority the provider receives the attribute update and, for a non-empty password, the password call; the response is a service failure exactly when the provider refuses one of them, and otherwise ResultResponse of UpdateOutcome; with no or several authorities nothing is sent |
| CognitoConfig.ParseRegion | amazobank-crm-user-management/src/main/java/com/amazobank/crm/userservice/config/CognitoConfig.java:32-42 | succeeds exactly when the host pattern occurs, returning the group of its leftmost match, a non-empty dot-free region; otherwise fails with the message and the URI |
| CognitoConfig.FindMatch | amazobank-crm-user-management/src/main/java/com/amazobank/crm/userservice/config/CognitoConfig.java:35-39 | the leftmost position where the host pattern matches, none exactly when it matches nowhere |
| CognitoConfig.LastIndexOf | amazobank-crm-user-management/src/main/java/com/amazobank/crm/userservice/config/CognitoConfig.java:47 | the last position of the character, or -1 |
| CognitoConfig.ParseUserPoolId | amazobank-crm-user-management/src/main/java/com/amazobank/crm/userservice/config/CognitoConfig.java:44-52 | the text after the last slash; fails exactly when there is no slash or it is the last character |
| CognitoConfig.PoolIdRoundTrip | amazobank-crm-user-management/src/main/java/com/amazobank/crm/userservice/config/CognitoConfig.java:44-52 | any base followed by "/" and a slash-free pool id parses back to that id |
| CognitoConfig.IssuerUriRoundTrip | amazobank-crm-user-management/src/main/java/com/amazobank/crm/userservice/config/CognitoConfig.java:32-52 | the issuer URI built from a region and a pool id parses back to both |
| CognitoConfig.NoEarlierMatch | amazobank-crm-user-management/src/main/java/com/amazobank/crm/userservice/config/CognitoConfig.java:35-39 | the search returns the leftmost match |
| ClientAuthorities.Convert | amazobank-client-profile/src/main/java/com/amazobank/crm/clientservice/security/CognitoGroupGrantedAuthoritiesConverter.java:44-57 | fails exactly when the group claim is absent or empty and succeeds exactly otherwise, with one authority per group, in order |
| AccountAuthorities.Convert | amazobank-client-account/src/main/java/com/amazobank/crm/accountservice/security/CognitoGroupGrantedAuthoritiesConverter.java:41-49 | fails exactly when the group claim is absent and succeeds exactly when it is present; an empty claim gives no authorities; otherwise one per group, in order |
| ClientMapper.ToDto | amazobank-client-profile/src/main/java/com/amazobank/crm/clientservice/service/ClientMapper.java:13-31 | the view keeps the id, agent and both statuses |
| ClientMapper.ToDtoInjective | amazobank-client-profile/src/main/java/com/amazobank/crm/clientservice/service/ClientMapper.java:13-31 | the view loses nothing: equal views come from equal clients |
| ClientMapper.ToEntity | amazobank-client-profile/src/main/java/com/amazobank/crm/clientservice/service/ClientMapper.java:33-50 | a new client belongs to the caller, is Unverified and Active, and copies every request field: names, date of birth, gender, contacts and address fields |
| ClientMapper.UpdateEntity | amazobank-client-profile/src/main/java/com/amazobank/crm/clientservice/service/ClientMapper.java:52-65 | an update never changes the agent or the verification status; ClientMapper.UpdateEntityFieldwise gives every other field |
| ClientMapper.EmptyUpdateIsIdentity | amazobank-client-profile/src/main/java/com/amazobank/crm/clientservice/service/ClientMapper.java:52-65 | an update with every field null changes nothing |
| ClientMapper.UpdateEntityIdempotent | amazobank-client-profile/src/main/java/com/amazobank/crm/clientservice/service/ClientMapper.java:52-65 | applying an update twice is applying it once |
| ClientMapper.UpdateEntityFieldwise | amazobank-client-profile/src/main/java/com/amazobank/crm/clientservice/service/ClientMapper.java:52-65 | every field, the names, date of birth, gender, contacts, address fields and status included, takes the request's value when present and is kept when null |
| ClientMapper.UpdateWithOwnFields | amazobank-client-profile/src/main/java/com/amazobank/crm/clientservice/service/ClientMapper.java:33-65 | updating a new client with its own request fields changes nothing |
| ClientService.ClientService.constructor | amazobank-client-profile/src/main/java/com/amazobank/crm/clientservice/service/ClientService.java:20-22 | the store starts empty |
| ClientService.ClientService.FindAll | amazobank-client-profile/src/main/java/com/amazobank/crm/clientservice/service/ClientService.java:24-26 | all clients |
| ClientService.ClientService.FindByAgentId | amazobank-client-profile/src/main/java/com/amazobank/crm/clientservice/service/ClientService.java:28-30 | exactly the clients of that agent |
| ClientService.ClientService.FindById | amazobank-client-profile/src/main/java/com/amazobank/crm/clientservice/service/ClientService.java:32-34 | the client with that id, if any |
| ClientService.ClientService.FindByEmail | amazobank-client-profile/src/main/java/com/amazobank/crm/clientservice/service/ClientService.java:36-38 | some client with that email exactly when one exists |
| ClientService.ClientService.FindByPhoneNumber | amazobank-client-profile/src/main/java/com/amazobank/crm/clientservice/service/ClientService.java:40-42 | some client with that phone exactly when one exists |
| ClientService.ClientService.Save | amazobank-client-profile/src/main/java/com/amazobank/crm/clientservice/service/ClientService.java:56-58 | the row under the id becomes the client |
| ClientService.ClientService.Verify | amazobank-client-profile/src/main/java/com/amazobank/crm/clientservice/service/ClientService.java:48-54 | the client is stored with status Verified |
| ClientService.ClientService.SoftDelete | amazobank-client-profile/src/main/java/com/amazobank/crm/clientservice/service/ClientService.java:60-64 | the client is stored with status Deleted |
| ClientController.Gate | amazobank-client-profile/src/main/java/com/amazobank/crm/clientservice/api/ClientController.java:64-80 | 404 exactly when the client is missing; 403 exactly when it belongs to another agent; otherwise passes |
| ClientController.CreateCheck | amazobank-client-profile/src/main/java/com/amazobank/crm/clientservice/api/ClientController.java:93-99 | 400 for a taken email first, then 400 for a taken phone, otherwise passes |
| ClientController.UpdateCheck | amazobank-client-profile/src/main/java/com/amazobank/crm/clientservice/api/ClientController.java:140-171 | 404 if missing, then 410 if deleted, then 403 if foreign, then 400 for a changed email or phone already on file |
| ClientController.UpdateRevealsDeletionToAnyAgent | amazobank-client-profile/src/main/java/com/amazobank/crm/clientservice/api/ClientController.java:148-159 | any agent learns that a foreign client is deleted: the 410 comes before the ownership check |
| ClientController.CreateKeepsContactsUnique | amazobank-client-profile/src/main/java/com/amazobank/crm/clientservice/api/ClientController.java:89-108 | a create that passes the check keeps emails and phones unique across clients |
| ClientController.UpdateKeepsContactsUnique | amazobank-client-profile/src/main/java/com/amazobank/crm/clientservice/api/ClientController.java:136-179 | an update that passes the check keeps contacts unique, unless it only changes the case of the email |
| ClientController.OtherRowContacts | amazobank-client-profile/src/main/java/com/amazobank/crm/clientservice/api/ClientController.java:163-171 | after a passing update the client's contacts differ from every other client's |
| ClientController.CaseOnlyEmailChangeDuplicates | amazobank-client-profile/src/main/java/com/amazobank/crm/clientservice/api/ClientController.java:163-166 | an email change that differs only in case skips the duplicate check and can copy another client's email |
| ClientController.DeletedClientKeepsEmail | amazobank-client-profile/src/main/java/com/amazobank/crm/clientservice/api/ClientController.java:93-95 | a deleted client still holds its email: creating a client with it is refused with 400 |
| ClientController.ClientController.constructor | amazobank-client-profile/src/main/java/com/amazobank/crm/clientservice/api/ClientController.java:42-43 | the controller holds the service |
| ClientController.ClientController.GetAll | amazobank-client-profile/src/main/java/com/amazobank/crm/clientservice/api/ClientController.java:50-59 | 200 with exactly the caller's clients |
| ClientController.ClientController.GetOne | amazobank-client-profile/src/main/java/com/amazobank/crm/clientservice/api/ClientController.java:64-85 | the gate's refusal, or 200 with the client's view |
| ClientController.ClientController.CreateClient | amazobank-client-profile/src/main/java/com/amazobank/crm/clientservice/api/ClientController.java:89-108 | the check's refusal with nothing stored, or 201 with the new client stored under the new id |
| ClientController.ClientController.Verify | amazobank-client-profile/src/main/java/com/amazobank/crm/clientservice/api/ClientController.java:112-132 | the gate's refusal with nothing changed, or the client marked Verified |
| ClientController.ClientController.UpdateClient | amazobank-client-profile/src/main/java/com/amazobank/crm/clientservice/api/ClientController.java:136-179 | the check's refusal with nothing changed, or 200 with the updated client stored |
| ClientController.ClientController.DeleteClient | amazobank-client-profile/src/main/java/com/amazobank/crm/clientservice/api/ClientController.java:183-205 | the gate's refusal with nothing changed, or the client marked Deleted |
| AccountDomain.AccountToDto | amazobank-client-account/src/main/java/com/amazobank/crm/accountservice/service/AccountMapper.java:7-19 | the view keeps the id, agent and status |
| AccountService.AccountService.constructor | amazobank-client-account/src/main/java/com/amazobank/crm/accountservice/service/AccountService.java:16-18 | the store starts empty |
| AccountService.AccountService.FindAll | amazobank-client-account/src/main/java/com/amazobank/crm/accountservice/service/AccountService.java:20-22 | all accounts |
| AccountService.AccountService.FindById | amazobank-client-account/src/main/java/com/amazobank/crm/accountservice/service/AccountService.java:24-26 | the account with that id, if any |
| AccountService.AccountService.FindByClientId | amazobank-client-account/src/main/java/com/amazobank/crm/accountservice/service/AccountService.java:28-30 | exactly the accounts of that client |
| AccountService.AccountService.FindByAgentId | amazobank-client-account/src/main/java/com/amazobank/crm/accountservice/service/AccountService.java:32-34 | exactly the accounts of that agent |
| AccountService.AccountService.ExistsById | amazobank-client-account/src/main/java/com/amazobank/crm/accountservice/service/TransactionService.java:30 | true exactly when the account exists |
| AccountService.AccountService.Save | amazobank-client-account/src/main/java/com/amazobank/crm/accountservice/service/AccountService.java:36-38 | the row under the id becomes the account |
| AccountService.AccountService.SoftDelete | amazobank-client-account/src/main/java/com/amazobank/crm/accountservice/service/AccountService.java:40-43 | the account is stored with status Deleted |
| AccountController.Gate | amazobank-client-account/src/main/java/com/amazobank/crm/accountservice/api/AccountController.java:72-87 | the endpoint's 404 exactly when the account is missing; 403 when another agent's; otherwise passes |
| AccountController.NewAccount | amazobank-client-account/src/main/java/com/amazobank/crm/accountservice/api/AccountController.java:103-113 | a new account belongs to the caller, is Active, opens today and copies the request's client, type, currency, deposit and branch |
| AccountController.ApplyUpdate | amazobank-client-account/src/main/java/com/amazobank/crm/accountservice/api/AccountController.java:157-162 | an update never changes the client or the agent; AccountController.ApplyUpdateFieldwise gives the six updatable fields |
| AccountController.ApplyUpdateFieldwise | amazobank-client-account/src/main/java/com/amazobank/crm/accountservice/api/AccountController.java:157-162 | type, status, deposit, currency, branch and opening date each take the request's value when present and are kept when null |
| AccountController.CreateIgnoresRequestedOpeningDate | amazobank-client-account/src/main/java/com/amazobank/crm/accountservice/api/AccountController.java:103-113 | the opening date in the request has no effect |
| AccountController.UpdateCanUndelete | amazobank-client-account/src/main/java/com/amazobank/crm/accountservice/api/AccountController.java:157-162 | an update may set a deleted account back to Active |
| AccountController.ApplyUpdateIdempotent | amazobank-client-account/src/main/java/com/amazobank/crm/accountservice/api/AccountController.java:157-162 | applying an update twice is applying it once |
| AccountController.ForbiddenRevealsNoIds | amazobank-client-account/src/main/java/com/amazobank/crm/accountservice/api/AccountController.java:82-86 | every 403 is the same response, whatever the account or caller |
| AccountController.AccountController.constructor | amazobank-client-account/src/main/java/com/amazobank/crm/accountservice/api/AccountController.java:41-42 | the controller holds the service |
| AccountController.AccountController.GetAll | amazobank-client-account/src/main/java/com/amazobank/crm/accountservice/api/AccountController.java:49-61 | 200 with exactly the caller's accounts |
| AccountController.AccountController.GetOne | amazobank-client-account/src/main/java/com/amazobank/crm/accountservice/api/AccountController.java:67-91 | the gate's refusal, or 200 with the account's view |
| AccountController.AccountController.Create | amazobank-client-account/src/main/java/com/amazobank/crm/accountservice/api/AccountController.java:97-121 | stores NewAccount under the new id and answers 201 with its view |
| AccountController.AccountController.Update | amazobank-client-account/src/main/java/com/amazobank/crm/accountservice/api/AccountController.java:127-166 | the gate's refusal with nothing changed, or the update applied and stored |
| AccountController.AccountController.Delete | amazobank-client-account/src/main/java/com/amazobank/crm/accountservice/api/AccountController.java:172-197 | the gate's refusal with nothing changed, or the account marked Deleted |
| TransactionMapper.ToDto | amazobank-client-account/src/main/java/com/amazobank/crm/accountservice/service/TransactionMapper.java:10-19 | the view keeps id, account, client, type, amount, date and status |
| TransactionMapper.ToDtoInjective | amazobank-client-account/src/main/java/com/amazobank/crm/accountservice/service/TransactionMapper.java:10-19 | the view loses nothing: equal views come from equal transactions |
| TransactionMapper.ToDtos | amazobank-client-account/src/main/java/com/amazobank/crm/accountservice/service/TransactionMapper.java:22-26 | one view per transaction, in order |
| TransactionMapper.ToDtosAppend | amazobank-client-account/src/main/java/com/amazobank/crm/accountservice/service/TransactionMapper.java:22-26 | mapping a concatenation is concatenating the mappings |
| TransactionService.ForAccount | amazobank-client-account/src/main/java/com/amazobank/crm/accountservice/service/TransactionService.java:25-27 | exactly the transactions of that account |
| TransactionService.Lookup | amazobank-client-account/src/main/java/com/amazobank/crm/accountservice/service/TransactionService.java:29-34 | a transaction with both ids, or none when no transaction has both |
| TransactionService.ForAccountAppend | amazobank-client-account/src/main/java/com/amazobank/crm/accountservice/service/TransactionService.java:25-27 | selecting from a concatenation is concatenating the selections |
| TransactionService.LookupAgreesWithList | amazobank-client-account/src/main/java/com/amazobank/crm/accountservice/service/TransactionService.java:25-34 | the lookup finds a transaction exactly when the account's list holds one with that id |
| TransactionService.TransactionService.constructor | amazobank-client-account/src/main/java/com/amazobank/crm/accountservice/service/TransactionService.java:20-23 | no transactions yet |
| TransactionService.TransactionService.FindByAccountId | amazobank-client-account/src/main/java/com/amazobank/crm/accountservice/service/TransactionService.java:25-27 | the account's transactions, as ForAccount |
| TransactionService.TransactionService.FindByAccountIdAndTransactionId | amazobank-client-account/src/main/java/com/amazobank/crm/accountservice/service/TransactionService.java:29-34 | none for a missing account; otherwise Lookup |
| TransactionController.AccountGate | amazobank-client-account/src/main/java/com/amazobank/crm/accountservice/api/TransactionController.java:44-56 | 404 exactly when the account is missing; 403 when another agent's; otherwise passes |
| TransactionController.OnlyManagerSeesTransactions | amazobank-client-account/src/main/java/com/amazobank/crm/accountservice/api/TransactionController.java:64-99 | a transaction shown belongs to an account the caller manages |
| TransactionController.TransactionController.constructor | amazobank-client-account/src/main/java/com/amazobank/crm/accountservice/api/TransactionController.java:34-37 | the controller holds both services |
| TransactionController.TransactionController.GetTransactions | amazobank-client-account/src/main/java/com/amazobank/crm/accountservice/api/TransactionController.java:40-61 | the gate's refusal, or 200 with the account's transactions only |
| TransactionController.TransactionController.GetTransaction | amazobank-client-account/src/main/java/com/amazobank/crm/accountservice/api/TransactionController.java:64-99 | the gate's refusal, a 404, or 200 with the transaction having both ids |
| FrontendRoles.AdminPortalIffOutranksAgent | amazobank-web-frontend/types/roles.ts:3-5 | a staff role may use the admin portal exactly when it outranks Agent in the back end's order |
| FrontendRoles.AdminPortalCases | amazobank-web-frontend/types/roles.ts:4 | Admin and SuperAdmin may, Agent may not, and the test is case-sensitive |
| FrontendRoles.CanAccessAdminPortal | amazobank-web-frontend/types/roles.ts:4 | the portal is open exactly to the names of the staff roles other than Agent |
| DashboardLayout.HomeOf | amazobank-web-frontend/components/layout/dashboard-layout.tsx:43-50 | the admin home exactly for roles that may use the admin portal, otherwise the agent home |
| DashboardLayout.Decide | amazobank-web-frontend/components/layout/dashboard-layout.tsx:28-59 | no record or an unparsable one goes to login; a parsed null goes to login on a page with a requirement and renders nothing without one; another falsy value (`false`, `0`, `""`) goes to "/agent" on a page with a requirement and renders nothing without one; a truthy parsed record is shown or sent home by its role; a page is shown only to a role meeting its requirement; every redirect goes to login or a home |
| DashboardLayout.NoRequirementShowsAnyUser | amazobank-web-frontend/components/layout/dashboard-layout.tsx:39-54 | without a requirement, a stored record is shown exactly when it parses to a truthy value, renders nothing exactly when it parses to null or another falsy value, and goes to login exactly when it does not parse |
| DashboardLayout.RedirectSettles | amazobank-web-frontend/components/layout/dashboard-layout.tsx:43-54 | a staff user sent to their home is shown that home without another redirect |
| DashboardLayout.UnknownRoleRedirectsToItself | amazobank-web-frontend/components/layout/dashboard-layout.tsx:43-50 | a user with an unknown role is sent from the agent home back to the agent home |
| UsersRoute.RequesterRole | amazobank-web-frontend/app/api/users/route.ts:29 | the requester's role, Agent when absent |
| UsersRoute.UserId | amazobank-web-frontend/app/api/users/route.ts:44 | the new id is "usr_" followed by decimal digits whose value is the creation time |
| UsersRoute.DecimalRoundTrip | amazobank-web-frontend/app/api/users/route.ts:44 | the decimal rendering reads back as the number and has no leading zero |
| UsersRoute.PostOutcome | amazobank-web-frontend/app/api/users/route.ts:26-56 | 400 when a field is missing, then 403 for an Admin creating an Admin; 201 exactly otherwise, and only a 201 adds a user |
| UsersRoute.NonAdminRequestersCreateAdmins | amazobank-web-frontend/app/api/users/route.ts:35-40 | any requester but an Admin may create an Admin |
| UsersRoute.FieldCheckComesFirst | amazobank-web-frontend/app/api/users/route.ts:31-40 | a missing field is reported before the Admin check |
| UsersRoute.SameMillisecondSameId | amazobank-web-frontend/app/api/users/route.ts:44 | two users created in the same millisecond get the same id |
| UsersRoute.DistinctMillisecondsDistinctIds | amazobank-web-frontend/app/api/users/route.ts:44 | users created in different milliseconds get different ids |
| UsersRoute.MockUsers.constructor | amazobank-web-frontend/app/api/users/route.ts:24 | the in-memory list starts empty |
| UsersRoute.MockUsers.Post | amazobank-web-frontend/app/api/users/route.ts:26-56 | response and new list are those of PostOutcome |
| UsersRoute.MockUsers.Get | amazobank-web-frontend/app/api/users/route.ts:58-60 | 200 with the whole list |
| UserApi.StringField | amazobank-web-frontend/services/userApi.ts:47-60 | a string property of a JSON object, if there is one |
| UserApi.ParseJsonBody | amazobank-web-frontend/services/userApi.ts:65-77 | the parsed body only for a JSON content type and a parsable body; null otherwise |
| UserApi.ProblemJsonIsNotJson | amazobank-web-frontend/services/userApi.ts:65-68 | a problem+json reply is not read as JSON |
| UserApi.IsJsonResponse | amazobank-web-frontend/services/userApi.ts:65-68 | a content type beginning with application/json, parameters included, is JSON; a JSON type is at least that long |
| UserApi.CreateBody | amazobank-web-frontend/services/userApi.ts:42-45 | the form's fields with the password replaced by the fixed default |
| UserApi.FixedPasswordReachesProvider | amazobank-web-frontend/services/userApi.ts:42-45 | the fixed password, being non-empty, is the temporary password the service sends |
| UserApi.CreateUserOutcome | amazobank-web-frontend/services/userApi.ts:38-63 | success exactly on a 2xx status whose body parses, with the parsed value; a 2xx body that does not parse fails with the parse error; otherwise the fixed text for an empty body, the raw body when it is not JSON, else its string error field or the fixed text |
| UserApi.DeleteUserOutcome | amazobank-web-frontend/services/userApi.ts:82-98 | success exactly on status 200 with result ok; a 403 or 404 shows the body's string error field if it has one; every other failure shows the fixed text |
| UserApi.UpdateBody | amazobank-web-frontend/services/userApi.ts:109-115 | names and email always; password and role only when non-empty |
| UserApi.UpdateUserOutcome | amazobank-web-frontend/services/userApi.ts:108-138 | success exactly on status 200 with result ok; a 403 shows the body's error field, a 400, 404 or 422 its status field, each falling back to the fixed text, as does every other status |
| UserApi.DeleteHidesServiceMessage | amazobank-web-frontend/services/userApi.ts:89-97 | the user service's error bodies carry no message field, so a failed delete always shows the fixed text |
| UserApi.UpdateShowsServiceMessageOn404Only | amazobank-web-frontend/services/userApi.ts:129-137 | on update a 404 from the user service shows the service's message but a 403 shows the fixed text |
| ApiBase.StripTrailingSlash | amazobank-web-frontend/services/apiBase.ts:6-7 | one trailing slash is removed, nothing else changes |
| ApiBase.StripUndoesOneSlash | amazobank-web-frontend/services/apiBase.ts:6-7 | the strip undoes one appended slash and only one |
| ApiBase.StripLeavesSlashOnlyFromDouble | amazobank-web-frontend/services/apiBase.ts:6-7 | a result ends in a slash only if the input ended in two |
| ApiBase.BaseUrlCache.constructor | amazobank-web-frontend/services/apiBase.ts:1 | nothing is cached at first |
| ApiBase.BaseUrlCache.GetApiBaseUrl | amazobank-web-frontend/services/apiBase.ts:1-14 | the cached value once set; otherwise the stripped setting, which is then cached |
| ApiBase.TwoCalls | amazobank-web-frontend/services/apiBase.ts:1-14 | a later change of the setting is not seen: two calls agree with the first |
| AuthToken.Cached | amazobank-web-frontend/services/authToken.ts:7-8 | the token entry when present, even empty; the access token otherwise |
| AuthToken.OidcKey | amazobank-web-frontend/services/authToken.ts:15-17 | the key is "oidc.user:", then exactly the authority, a colon and exactly the client id |
| AuthToken.OidcRecordText | amazobank-web-frontend/services/authToken.ts:16-17 | the session record when non-empty, else the local one |
| AuthToken.TokenLookup | amazobank-web-frontend/services/authToken.ts:1-43 | no token without a window; then the id token, the cached token, and the OIDC record from session or else local storage; from that record the id token before the access token, written back to local storage; no token for a missing or unparsable record or one with neither token; a token is never empty |
| AuthToken.EmptyTokenShadowsAccessToken | amazobank-web-frontend/services/authToken.ts:7-8 | an empty stored token hides a stored access token |
| AuthToken.SessionRecordWins | amazobank-web-frontend/services/authToken.ts:16-30 | a session record's id token is found before a local one |
| AuthToken.WriteBackIsStable | amazobank-web-frontend/services/authToken.ts:26-36 | looking up again after the write-back finds the same token and writes nothing |
| AuthToken.BrowserStorage.constructor | amazobank-web-frontend/services/authToken.ts:4-17 | the two storage areas |
| AuthToken.BrowserStorage.GetAccessToken | amazobank-web-frontend/services/authToken.ts:1-43 | token and new local storage are TokenLookup's; session storage is untouched |
| AdminUsersPage.CurrentUserRole | amazobank-web-frontend/app/admin/users/page.tsx:95-100 | the stored role, Agent when absent |
| AdminUsersPage.MapApiUser | amazobank-web-frontend/app/admin/users/page.tsx:115-123 | id from userId, then id, then the fallback; absent fields become "", Agent and Active; present values are kept even when empty |
| AdminUsersPage.FilterUsers | amazobank-web-frontend/app/admin/users/page.tsx:142-148 | exactly the users whose names, email or id contain the term ignoring case |
| AdminUsersPage.FilterUsersAppend | amazobank-web-frontend/app/admin/users/page.tsx:142-148 | filtering distributes over concatenation, so the list keeps the users' order and repeats |
| AdminUsersPage.EmptyTermListsEveryone | amazobank-web-frontend/app/admin/users/page.tsx:142-148 | an empty term lists every user, in order |
| AdminUsersPage.SearchIgnoresCase | amazobank-web-frontend/app/admin/users/page.tsx:142-148 | terms that differ only in case list the same users |
| AdminUsersPage.CreateGuardCases | amazobank-web-frontend/app/admin/users/page.tsx:150-158 | only Admin creating Admin is refused locally; a role that could not be read acts as Agent |
| AdminUsersPage.CreateRefusedLocally | amazobank-web-frontend/app/admin/users/page.tsx:151 | the page refuses exactly when both the current and the requested role are the Admin role's name |
| AdminUsersPage.LocalGuardOpposesServiceGate | amazobank-web-frontend/app/admin/users/page.tsx:150-158 | the page alone stops an Admin creating an Admin, which the service's gate accepts, and lets a SuperAdmin ask for an Admin, which that gate refuses |
| AdminUsersPage.UpdatePayloadOf | amazobank-web-frontend/app/admin/users/page.tsx:232-238 | role always; password exactly when non-empty |
| AdminUsersPage.UpdateRequestFields | amazobank-web-frontend/app/admin/users/page.tsx:232-238 | end to end, the body has a password exactly when the form's is non-empty |
| AdminUsersPage.ApplyLocalUpdate | amazobank-web-frontend/app/admin/users/page.tsx:242-254 | users with the id take the new names, email and role; the others are unchanged |
| AdminUsersPage.RemoveUser | amazobank-web-frontend/app/admin/users/page.tsx:293-294 | exactly the users with another id remain |
| AdminUsersPage.RemoveUserAppend | amazobank-web-frontend/app/admin/users/page.tsx:293-294 | removing distributes over concatenation, so the remaining users keep their order and repeats |
| AdminUsersPage.RemoveUserIdempotent | amazobank-web-frontend/app/admin/users/page.tsx:293-294 | removing twice is removing once |
| AdminUsersPage.DeriveValidationErrors | amazobank-web-frontend/app/admin/users/page.tsx:217-224 | the message goes to exactly one key: first, last, email, password, else general |
| AdminUsersPage.NormalizeCreated | amazobank-web-frontend/app/admin/users/page.tsx:168-176 | each field from the reply when non-empty, else from the form or the fallback; status Active when absent |
| AgentClientsPage.NormalizeTransactionType | amazobank-web-frontend/app/agent/clients/page.tsx:74-76 | the trimmed, upper-cased type; "" when absent |
| AgentClientsPage.DisplayDataOf | amazobank-web-frontend/app/agent/clients/page.tsx:77-101 | D, DEPOSIT, C and CREDIT are money in (green, +); everything else is money out (red, -); the label follows the code |
| AgentClientsPage.DisplayDependsOnNormalForm | amazobank-web-frontend/app/agent/clients/page.tsx:74-101 | types with the same normal form display alike |
| AgentClientsPage.MissingTypeIsDebit | amazobank-web-frontend/app/agent/clients/page.tsx:77-101 | a missing type shows as an outgoing amount |
| AgentClientsPage.CompletedStatusCases | amazobank-web-frontend/app/agent/clients/page.tsx:103-104 | completed in any case and padding counts; a missing status does not |
| AgentClientsPage.IsCompletedStatus | amazobank-web-frontend/app/agent/clients/page.tsx:103-104 | a status is completed exactly when it is present and, trimmed, equals "completed" ignoring case |
| AgentClientsPage.NameError | amazobank-web-frontend/app/agent/clients/page.tsx:223-229 | one message per failed rule, checked in order; "" exactly when the name is 2 to 50 letters and spaces |
| AgentClientsPage.ValidNameHasLetter | amazobank-web-frontend/app/agent/clients/page.tsx:223-229 | a valid name holds at least one letter |
| AgentClientsPage.FieldErrorMeaning | amazobank-web-frontend/app/agent/clients/page.tsx:219-279 | each field's rule: gender is never checked; blank is Required; names, email, phone, address, places and postal code as written |
| AgentClientsPage.FieldError | amazobank-web-frontend/app/agent/clients/page.tsx:219-279 | gender is never checked, and a blank value (an empty date) is Required for every checked field |
| AgentClientsPage.PlaceError | amazobank-web-frontend/app/agent/clients/page.tsx:260-266 | "" exactly when the value is non-blank and 2 to 50 characters |
| AgentClientsPage.PhoneShapeIsNotBlank | amazobank-web-frontend/app/agent/clients/page.tsx:248-252 | a value that passes the phone pattern is not blank |
| AgentClientsPage.ValidateForm | amazobank-web-frontend/app/agent/clients/page.tsx:282-290 | exactly the failing fields get their messages; valid exactly when every field passes |
| AgentClientsPage.FilterSplits | amazobank-web-frontend/app/agent/clients/page.tsx:342-349 | a filter and its complement split the list |
| AgentClientsPage.FilterAppend | amazobank-web-frontend/app/agent/clients/page.tsx:342-349 | the client-list filter distributes over concatenation, so the active, deleted, unverified and searched lists keep the clients' order and repeats |
| AgentClientsPage.PartitionsCoverClients | amazobank-web-frontend/app/agent/clients/page.tsx:342-349 | every client is active or deleted, not both; unverified clients are active; no status counts as active |
| AgentClientsPage.CalculateAge | amazobank-web-frontend/app/agent/clients/page.tsx:351-359 | the whole years since birth: the birthday of that age has passed and the next has not |
| AgentClientsPage.AgeIsUnique | amazobank-web-frontend/app/agent/clients/page.tsx:351-359 | that age is the only such number |
| LogPatterns.FieldValue | amazobank-web-frontend/app/agent/logs/page.tsx:36-39 | the first match of key=value, a non-empty run without commas or whitespace; none exactly when no match exists |
| LogPatterns.FieldValueIsMaximal | amazobank-web-frontend/app/agent/logs/page.tsx:36-39 | the value is the whole run after the first match |
| LogPatterns.StripTrailingNewlines | amazobank-web-frontend/app/agent/logs/page.tsx:45 | removes exactly the trailing CR and LF characters |
| LogPatterns.StripKeepsFieldValue | amazobank-web-frontend/app/agent/logs/page.tsx:38 | stripping never changes a field value |
| LogPatterns.StripIdempotent | amazobank-web-frontend/app/agent/logs/page.tsx:45 | stripping twice is stripping once |
| LogPatterns.BracketText | amazobank-web-frontend/app/agent/logs/page.tsx:43 | the text of the first bracket pair on one line, with no ] or line break; none exactly when no pair exists |
| AgentLogsPage.NormalizeLevel | amazobank-web-frontend/app/agent/logs/page.tsx:34 | the level upper-cased, same length, equal ignoring case; INFO when absent |
| AgentLogsPage.NormalizeIdempotent | amazobank-web-frontend/app/agent/logs/page.tsx:34 | normalising twice is normalising once |
| AgentLogsPage.ParseField | amazobank-web-frontend/app/agent/logs/page.tsx:36-39 | "" exactly when the field is absent, otherwise its value |
| AgentLogsPage.OptionalField | amazobank-web-frontend/app/agent/logs/page.tsx:48-56 | an absent or empty field becomes none |
| AgentLogsPage.ParseLogEntry | amazobank-web-frontend/app/agent/logs/page.tsx:41-46 | normalised level, the timestamp or a dash, the stripped message, no ids |
| AgentLogsPage.ParseTransactionEntry | amazobank-web-frontend/app/agent/logs/page.tsx:48-56 | the base entry with the three ids read from the message |
| AgentLogsPage.ParsedIdsAreTokens | amazobank-web-frontend/app/agent/logs/page.tsx:48-56 | every id is non-empty and free of commas and whitespace |
| AgentLogsPage.KeyIsNotAnchored | amazobank-web-frontend/app/agent/logs/page.tsx:36-39 | a key matches inside a longer name too: the pattern has no word boundary |
| AgentLogsPage.LoadLogs | amazobank-web-frontend/app/agent/logs/page.tsx:84-102 | on success every entry parsed in order, no error; on failure no entries and the error text or the fixed text |
| AgentLogsPage.FormatDateTime | amazobank-web-frontend/app/agent/logs/page.tsx:58-62 | a dash for an empty or dash time, the localised text when it parses, the input otherwise |
| AgentLogsPage.LevelBadge | amazobank-web-frontend/app/agent/logs/page.tsx:64-74 | destructive exactly for ERROR, secondary exactly for WARN or WARNING, ignoring case |
| AgentLogsPage.FilteredLogs | amazobank-web-frontend/app/agent/logs/page.tsx:104-117 | exactly the entries passing the level, client and search filters |
| AgentLogsPage.FilteredLogsAppend | amazobank-web-frontend/app/agent/logs/page.tsx:104-117 | filtering distributes over concatenation, so the list keeps the entries' order and repeats |
| AgentLogsPage.Keep | amazobank-web-frontend/app/agent/logs/page.tsx:104-117 | the initial filters keep every entry; a kept entry has the selected level and client |
| AgentLogsPage.InitialFiltersShowAll | amazobank-web-frontend/app/agent/logs/page.tsx:104-117 | the initial filters keep every entry in order |
| AgentLogsPage.ClientFilterHidesEntriesWithoutClient | amazobank-web-frontend/app/agent/logs/page.tsx:107 | a chosen client keeps only that client's entries |
| AgentLogsPage.FilterIdempotent | amazobank-web-frontend/app/agent/logs/page.tsx:104-117 | filtering twice is filtering once |
| AgentLogsPage.CountsWithinTotal | amazobank-web-frontend/app/agent/logs/page.tsx:127-130 | errors, warnings and infos together never exceed the total |
| AgentLogsPage.CountWhere | amazobank-web-frontend/app/agent/logs/page.tsx:127-130 | a count is zero exactly when no entry qualifies and the total exactly when every entry does |
| AgentLogsPage.WarningCountedButNotListed | amazobank-web-frontend/app/agent/logs/page.tsx:105-129 | a WARNING entry counts as a warning yet the WARN filter hides it |
| AgentLogsPage.UniqueClientsOf | amazobank-web-frontend/app/agent/logs/page.tsx:119-125 | no duplicates; exactly the non-empty client ids of the entries |
| AgentLogsPage.UniqueClientsKeepFirstOrder | amazobank-web-frontend/app/agent/logs/page.tsx:119-125 | ids are listed in order of first appearance: more entries only extend the list |
| AgentLogsPage.UniqueClients | amazobank-web-frontend/app/agent/logs/page.tsx:119-125 | the loop computes UniqueClientsOf |
| AdminLogsPage.ParseField | amazobank-web-frontend/app/admin/logs/page.tsx:121-124 | the field's value, a dash when absent |
| AdminLogsPage.DashValueLooksAbsent | amazobank-web-frontend/app/admin/logs/page.tsx:121-124 | a field whose value is a dash shows the same as a missing field |
| AdminLogsPage.ParseLevel | amazobank-web-frontend/app/admin/logs/page.tsx:126-129 | the bracket text as written, INFO when absent |
| AdminLogsPage.ParseLogEntry | amazobank-web-frontend/app/admin/logs/page.tsx:131-140 | keeps id, group and stream; the level, timestamp or dash, stripped message, no ids |
| AdminLogsPage.ParseTransactionEntry | amazobank-web-frontend/app/admin/logs/page.tsx:142-150 | keeps the entry's id, group, stream, level, timestamp and stripped message, and sets each id to the value of the leftmost key=value match in the message, or a dash when there is none |
| AdminLogsPage.PagesAgree | amazobank-web-frontend/app/admin/logs/page.tsx:126-150 | the two log pages read an entry alike, up to the level's case and the dash for an absent id |
| AdminLogsPage.RawEntries | amazobank-web-frontend/app/admin/logs/page.tsx:178 | a section's entries, none when the reply or section is missing |
| AdminLogsPage.BuildSection | amazobank-web-frontend/app/admin/logs/page.tsx:177-183 | the section's title and description, and its entries each parsed by the section's parser |
| AdminLogsPage.Sections | amazobank-web-frontend/app/admin/logs/page.tsx:176-185 | always the three sections in their fixed order |
| AdminLogsPage.OnlyTransactionEntriesCarryIds | amazobank-web-frontend/app/admin/logs/page.tsx:176-185 | only the transaction section's entries carry ids |
| AdminLogsPage.NoDataEmptySections | amazobank-web-frontend/app/admin/logs/page.tsx:176-185 | without a reply every section is empty |
| AdminLogsPage.FailureCount | amazobank-web-frontend/app/admin/logs/page.tsx:187-191 | scanned minus succeeded, missing counters read as 0, never below 0 |
| AdminLogsPage.FailureCountClamps | amazobank-web-frontend/app/admin/logs/page.tsx:187-191 | more successes than scanned shows zero failures |

## Left out

- Spring plumbing is not modelled: `ResponseEntity`/`ProblemDetail` construction, `@PreAuthorize`, `@Transactional`, the security filter chain, `GlobalExceptionHandler`, `HttpMessageConverterConfig` and the health endpoints. Responses are datatypes. The client service's rule that only agents reach `/api/clients/**` is taken as given: the caller is simply an agent id.
- Bean Validation of the request records is done by a library, not by visible code. Requests are taken as already validated.
- `UserController.CreationRequest` types `lastName` as a plain string. The Java request class puts no `@NotBlank` or `@NotNull` on it, so a validated request may carry a null last name. No modelled branch reads it, so a null last name is not modelled.
- E-mail notifications through SQS are fire-and-forget I/O and are left out. So are `Region.of` and the bean wiring in the Cognito configuration.
- JPA entities that handlers mutate through setters are datatypes here. Each mutation is the new value written back into the store. Aliasing between an entity a handler holds and the stored row is therefore not modelled.
- Database failures appear only where the code handles them. That is the staff repository's save, a `dbAccepts` parameter. The database's unique-column constraints are not modelled.
- The identity provider (Cognito) is a deterministic oracle with a call trace: `accepts` decides each call, and `reportedAttributes` gives the attributes of a created user. Its exceptions are the `ProviderRejected` error.
- Randomness and clocks are parameters: `UUID.randomUUID` (new ids, generated passwords), `LocalDate.now`, `Date.now`, `new Date().toISOString()` and the pages' `Math.random` fallback ids. Fresh ids are required to be new to their store.
- `JSON.parse`, `new Date(...)`, `toLocaleString` and the date-of-birth rule of the client form are function parameters. Only string-valued JSON properties are read.
- Strings are ASCII-only: Java's `toUpperCase` and JavaScript's `toLowerCase`, `toUpperCase`, `trim` and `\s` are modelled on ASCII. UUIDs are strings; parsing them is not modelled. Neither is `Gender.valueOf`: the gender is copied as a name.
- Floating-point values are not modelled: account deposits, transaction amounts, balance sums, and the accounts page with its deposit validation.
- `listUsers` (GET /users) and `UserService.findAll`/`findByEmail` are plain repository reads with no logic. They are not modelled.
- The front end's rendering, `fetch`, toasts, console logging, the login, dashboard and e-mail pages, the sidebar, and the fetch wrappers other than the user API client are left out.
- `CognitoConfig.IssuerUriRoundTrip` is stated for every region and pool id. The single example issuer URI in the configuration's comment is not checked literally.
- `AccountService.AccountService.ExistsById` stands for the repository's `existsById`, which the transaction service calls. It has no source lines of its own.
- `ClientMapper.ToDto` and `AccountDomain.AccountToDto` state only the identifying fields and statuses. `ClientMapper.ToDtoInjective` shows that the client view keeps every field.
- `ClientService.ClientService.SoftDelete` and `AccountService.AccountService.SoftDelete`: idempotence is not a separate lemma. Each ensures states that exactly the status changes, so a second call stores the same value.
- `AgentClientsPage.CalculateAge` is stated over calendar dates. JavaScript `Date` arithmetic and time zones are not modelled.
