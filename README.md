# Horse API: a Dafny model of its business logic

A REST API records horses and their owners for a stable or a veterinary
practice. Each request carries a claimed role in the `x-user-role` header.
ADMIN may do everything. VET may read, and may update the health status of a
horse. This project models the part of the API that makes decisions:

- the roles guard, a pure allow/deny decision over the roles declared on a
  handler or on its controller class and the header value;
- the role table of the two controllers (`@Roles` on the class, overridden by
  `@Roles` on a handler);
- the global validation pipe and the DTO decorators: required and optional
  properties, undeclared properties rejected, age in [1, 30], the closed
  HealthStatus enumeration;
- OwnersService: create, list, read, update and delete owners, with the email
  uniqueness check and the cascade that deletes an owner's horses;
- HorsesService: create, filtered list, read, update, health-only update and
  delete horses, with the owner existence checks;
- one request end to end: guard, then validation, then the service, then the
  reply (no content for a deletion).

The database is an in-memory `Database` object holding the two tables as
maps from id to row and two autoincrement counters. The services are classes
that hold a reference to it. Their state-changing methods state the new tables
in terms of the old ones and keep the invariant `Database.Valid()`:

- every row sits under its own id, below the counter;
- no two owners share an email;
- every horse's owner exists;
- every horse's age is in [1, 30].

Read-only operations are functions, except the email lookup, which is a
method that picks the one row holding the email.

Files, one module each: `wrappers.dfy` (Option, Result), `domain.dfy` (rows,
HealthStatus, error kinds, replies), `roles_guard.dfy`, `validation_pipe.dfy`,
`horses_dto.dfy`, `owners_dto.dfy`, `persistence.dfy` (the tables, the
cascade), `owners_service.dfy`, `horses_service.dfy`, `owners_controller.dfy`,
`horses_controller.dfy`.

Where the code departs from what a reader might expect, the model follows
the code:

- A duplicate email is reported as a bad request (`DuplicateEmail`, raised as
  `BadRequestException`), not as a distinct conflict error.
- Owner `update` rejects an email that any owner already holds, including the
  owner being updated. Re-sending an owner's own email fails.
- Validation runs in the global pipe before any service code. A create-horse
  body with an out-of-range age and an unknown owner is a validation error,
  not NotFound.
- Names of owners and horses are checked only to be strings. The empty name
  is accepted.
- Horse `update` tests the owner id for truthiness (`if (owner)`). An owner id
  of 0 is treated as absent: it is not looked up and the owner does not change.

## Model

| member | source | states |
|---|---|---|
| RolesGuard.Includes | src/guards/roles.guard.ts:24-25 | true exactly when some declared role's header value equals the given token |
| RolesGuard.CanActivate | src/guards/roles.guard.ts:11-26 | allows exactly when the handler or the class declares roles, the header is present, and it names one of the effective roles |
| RolesGuard.GetAllAndOverride | src/guards/roles.guard.ts:12-15 | the effective declaration is the handler's when it has one, otherwise the class's; it is absent only when both are |
| RolesGuard.TokenInjective | src/main.ts:26 | the two roles are named by different header values |
| RolesGuard.DeniesWithoutDeclaration | src/guards/roles.guard.ts:17-19 | with no declaration on the handler or the class every caller is denied |
| RolesGuard.DeniesWithoutHeader | src/guards/roles.guard.ts:21-25 | a request without the header is denied whatever is declared |
| RolesGuard.AllowsExactlyDeclaredRoles | src/guards/roles.guard.ts:22-25 | a caller naming a role is allowed if and only if that role is among the effective roles |
| RolesGuard.HandlerOverridesClass | src/guards/roles.guard.ts:12-15 | once the handler declares roles, the class declaration has no effect on the decision |
| RolesGuard.EmptyDeclarationDeniesAll | src/guards/roles.guard.ts:12-25 | an empty handler declaration still overrides the class and closes the endpoint |
| RolesGuard.DecisionDependsOnEffectiveRoles | src/guards/roles.guard.ts:11-26 | two requests with the same effective roles and header get the same decision |
| ValidationPipe.StringField | src/horses/dto/horses.dto.ts:27-29 | a string property is accepted exactly when present as a string, missing exactly when absent |
| ValidationPipe.NumberField | src/horses/dto/horses.dto.ts:45-47 | a number property is accepted exactly when present as a number, missing exactly when absent |
| HorsesDto.ParseStatus | src/horses/dto/horses.dto.ts:41-43 | a token is accepted only as the value of a HealthStatus member, and rejected when it names none |
| HorsesDto.StatusRoundTrip | src/horses/dto/horses.dto.ts:41-43 | each of HEALTHY, INJURED, RECOVERING is accepted as itself |
| HorsesDto.ParseCreateHorse | src/horses/dto/horses.dto.ts:26-48 | an accepted create body yields a DTO whose age is within [1, 30]; every rejection is a validation error |
| HorsesDto.ParseUpdateHorse | src/horses/dto/horses.dto.ts:50 | an accepted update body yields a DTO whose age, when present, is within [1, 30]; every rejection is a validation error; UpdateHorseBodyExact pins which bodies pass and what they carry |
| HorsesDto.ParseUpdateHealth | src/horses/dto/horses.dto.ts:52 | every rejection of a health body is a validation error |
| HorsesDto.ParseHorseFilter | src/horses/dto/horses.dto.ts:6-24 | an accepted query yields a filter whose age, when present, is within [1, 30]; every rejection is a validation error; FilterQueryExact pins which queries pass and what they carry |
| HorsesDto.CreateHorseRoundTrip | src/horses/dto/horses.dto.ts:26-48 | the body encoding a valid create DTO is accepted and yields that DTO |
| HorsesDto.CreateHorseAcceptsOnlyEncodings | src/horses/dto/horses.dto.ts:26-48 | an accepted create body is exactly the encoding of the DTO it yields: all five properties, nothing else |
| HorsesDto.CreateHorseAgeBoundary | src/horses/dto/horses.dto.ts:31-35 | a create body is accepted if and only if its age lies in [1, 30]: 1 and 30 pass, 0 and 31 fail |
| HorsesDto.NameOnlyBodyRejected | test/horse.e2e-spec.ts:443-449 | a create body holding only a name is a validation error |
| HorsesDto.UndeclaredPropertyRejected | src/main.ts:38-45 | a property not declared on the horse DTOs makes create and update bodies validation errors |
| HorsesDto.FullUpdateAgreesWithCreate | src/horses/dto/horses.dto.ts:50 | a body with all five properties passes as an update if and only if it passes as a create |
| HorsesDto.EmptyUpdateAccepted | src/horses/dto/horses.dto.ts:50 | the empty update body is accepted and carries no field |
| HorsesDto.HealthBodyExact | src/horses/dto/horses.dto.ts:52 | a health body is accepted with a given status if and only if it is exactly the one property healthStatus naming that status |
| HorsesDto.UpdateHorseBodyExact | src/horses/dto/horses.dto.ts:50 | an update body is accepted as a DTO if and only if the DTO is valid and the body holds exactly its given fields with their values |
| HorsesDto.UpdateAgeOutOfRangeRejected | src/horses/dto/horses.dto.ts:31-35 | an update body with an age outside [1, 30] is a validation error, whatever else it holds |
| HorsesDto.UpdateUnknownStatusRejected | src/horses/dto/horses.dto.ts:41-43 | an update body whose healthStatus names no member is a validation error, whatever else it holds |
| HorsesDto.FilterQueryExact | src/horses/dto/horses.dto.ts:6-24 | a query is accepted as a filter if and only if the filter is valid and the query holds exactly its given components with their values |
| HorsesDto.BreedQueryFiltersByBreed | src/horses/dto/horses.dto.ts:15-18 | the query holding only a breed becomes the filter on that breed alone |
| HorsesDto.EmptyQueryIsNoFilter | src/horses/dto/horses.dto.ts:6-24 | the empty query is accepted as the filter with no component |
| OwnersDto.ParseCreateOwner | src/owners/dto/owners.dto.ts:4-18 | an accepted owner create body has a non-empty email; every rejection is a validation error |
| OwnersDto.ParseUpdateOwner | src/owners/dto/owners.dto.ts:20 | an accepted owner update body has no email or a non-empty one; every rejection is a validation error; UpdateOwnerBodyExact pins which bodies pass and what they carry |
| OwnersDto.UpdateOwnerBodyExact | src/owners/dto/owners.dto.ts:20 | an owner update body is accepted as a DTO if and only if its email, when given, is non-empty and the body holds exactly its given fields with their values |
| OwnersDto.CreateOwnerRoundTrip | src/owners/dto/owners.dto.ts:4-18 | the body encoding a valid owner create DTO is accepted and yields that DTO |
| OwnersDto.CreateOwnerAcceptsOnlyEncodings | src/owners/dto/owners.dto.ts:4-18 | an accepted owner create body is exactly name and email, nothing else |
| Persistence.CascadeDelete | src/owners/owners.service.ts:83-87 | the cascade keeps exactly the horses not owned by the deleted owner, each as it was |
| Persistence.CascadeDeletesExactlyOwnedHorses | src/owners/owners.service.ts:83-87 | after the cascade no horse of the deleted owner remains, every other horse remains unchanged, and the kept and deleted horses add up to the old count |
| Owners.OwnersService.FindOwnerByEmail | src/owners/owners.service.ts:17-21 | finds an owner exactly when one holds the email, and then a stored owner with that email |
| Owners.OwnersService.FindOwnerOrThrow | src/owners/owners.service.ts:26-36 | the stored owner when the id is present, NotFound exactly when it is absent |
| Owners.OwnersService.FindAll | src/owners/owners.service.ts:51-53 | every stored owner, each once, nothing else: as many owners as rows |
| Owners.OwnersService.FindOne | src/owners/owners.service.ts:55-57 | NotFound exactly when the id is absent; otherwise the owner with that id, one of those FindAll lists |
| Owners.OwnersService.Create | src/owners/owners.service.ts:38-49 | DuplicateEmail, with nothing written, exactly when the email is registered; otherwise one new owner with the given name and email under an unused id, everything else unchanged, and FindOne returns it |
| Owners.OwnersService.Update | src/owners/owners.service.ts:59-77 | NotFound before any email check; for a stored owner, DuplicateEmail, and no other error, exactly when a given email is held by any owner, itself included; otherwise only the given fields change and the id stays; on error nothing is written |
| Owners.OwnersService.Remove | src/owners/owners.service.ts:79-88 | NotFound, with nothing written, exactly when absent; otherwise the owner is deleted and the horses become the cascade of the old ones; afterwards no horse references the id and FindOne is NotFound |
| Owners.OwnEmailCountsAsTaken | src/owners/owners.service.ts:64-70 | an owner's own email counts as registered, so the update check has no self-exclusion |
| Horses.Select | src/horses/horses.service.ts:50-52 | lists every stored horse that matches each present filter component, and only stored matching horses |
| Horses.SelectIsConjunction | src/horses/horses.service.ts:49-55 | the filtered list is the intersection of the lists filtered by age alone, breed alone and status alone |
| Horses.EmptyFilterSelectsAll | src/horses/horses.service.ts:49-55 | with no filter component every stored horse is listed |
| Horses.HorsesService.FindHorseOrThrow | src/horses/horses.service.ts:22-32 | the stored horse when the id is present, NotFound exactly when it is absent |
| Horses.HorsesService.FindOne | src/horses/horses.service.ts:57-59 | NotFound exactly when the id is absent; otherwise the horse with that id, one of those the unfiltered list holds |
| Horses.HorsesService.FindAll | src/horses/horses.service.ts:49-55 | exactly the stored horses that match every present filter component; no match is an empty result, not an error |
| Horses.HorsesService.Create | src/horses/horses.service.ts:34-47 | NotFound, with nothing written, exactly when the owner is not stored; otherwise a horse equal to the input plus an unused id is added, everything else unchanged, and FindOne returns it |
| Horses.HorsesService.Update | src/horses/horses.service.ts:61-81 | NotFound when the horse is absent, then NotFound when a truthy owner id is not stored; otherwise the given fields overwrite, absent ones stay, the owner changes only for a truthy id; on error nothing is written |
| Horses.HorsesService.UpdateHealth | src/horses/horses.service.ts:83-95 | NotFound, with nothing written, exactly when absent; otherwise only that horse's healthStatus changes |
| Horses.HorsesService.Remove | src/horses/horses.service.ts:97-103 | NotFound, with nothing written, exactly when absent; otherwise exactly that horse is deleted and a later FindOne is NotFound |
| HorsesController.HandlerRoles | src/horses/horses.controller.ts:32-67 | list, read and health update declare ADMIN and VET; create, update and delete declare nothing and inherit the class's ADMIN |
| HorsesController.VetPermittedExactlyOnReadsAndHealth | src/horses/horses.controller.ts:32-67 | VET passes the guard on list, read and health update, and on no other horse route |
| HorsesController.AdminPermittedEverywhere | src/horses/horses.controller.ts:32-67 | ADMIN passes the guard on every horse route |
| HorsesController.NoHeaderDeniedEverywhere | src/horses/horses.controller.ts:31-32 | without the header every horse route is denied |
| HorsesController.OnlyRoleTokensPermitted | src/horses/horses.controller.ts:32-67 | no header value other than the two role values passes any horse route |
| HorsesController.Admit | src/horses/horses.controller.ts:31-81 | Forbidden exactly when the guard denies; a permitted request is admitted exactly when its body or query validates, and the command carries the path id and the validated DTO of the requested route; the store is not consulted |
| HorsesController.VetHealthUpdateAdmitted | src/horses/horses.controller.ts:66-74 | VET setting a horse's health status to a member is admitted as the health update of that horse to that status |
| HorsesController.VetReadsAdmitted | src/horses/horses.controller.ts:43-55 | VET reading one horse, or listing with any valid filter, is admitted with that id or that filter |
| HorsesController.BadAgeRejectedBeforeOwnerLookup | src/main.ts:38-45 | a permitted create whose age is out of range is a validation error whatever owner it names |
| HorsesController.VetCreateForbidden | test/horse.e2e-spec.ts:203-209 | VET creating a horse is forbidden even with a valid body |
| HorsesController.Handle | src/horses/horses.controller.ts:37-81 | a guard or pipe rejection is returned with nothing written; otherwise each route performs its service operation on the path id with the validated DTO: create adds the given horse or is NotFound for an absent owner, list replies with the filtered horses, read replies with the stored horse, update and health update patch exactly that horse, delete removes exactly that horse and replies with no content; a service error writes nothing; the owner table is never changed |
| OwnersController.HandlerRoles | src/owners/owners.controller.ts:25-44 | list and read declare ADMIN and VET; create, update and delete declare nothing and inherit the class's ADMIN |
| OwnersController.VetPermittedExactlyOnReads | src/owners/owners.controller.ts:25-64 | VET passes the guard on list and read, and on no other owner route |
| OwnersController.AdminPermittedEverywhere | src/owners/owners.controller.ts:25-48 | ADMIN passes the guard on every owner route |
| OwnersController.NoHeaderDeniedEverywhere | src/owners/owners.controller.ts:24-25 | without the header every owner route is denied |
| OwnersController.VetReadsAdmitted | src/owners/owners.controller.ts:36-48 | VET reading one owner or listing all owners is admitted, with that id |
| OwnersController.Admit | src/owners/owners.controller.ts:24-64 | Forbidden exactly when the guard denies; a permitted request is admitted exactly when its body validates, and the command carries the path id and the validated DTO of the requested route; the store is not consulted |
| OwnersController.Handle | src/owners/owners.controller.ts:30-64 | a guard or pipe rejection is returned with nothing written; otherwise each route performs its service operation on the path id with the validated DTO: create adds the given owner or is DuplicateEmail for a registered email, list replies with every owner, read replies with the stored owner, update patches exactly that owner or fails on an absent id or a registered email, delete removes the owner with its horses and replies with no content; a service error writes nothing and is DuplicateEmail for a create or for an update of a stored owner, NotFound otherwise; no route but delete changes the horse table |

## Left out

- Process bootstrap, API documentation, request logging, the health endpoint and module wiring: plumbing with no decisions in it.
- The database client and its connection lifecycle: replaced by the in-memory `Database`. Errors the database itself would raise (a storage-level unique constraint, a fractional age written to an integer column) are not modelled.
- Concurrency: each service call is one atomic step, so the race between the email check and the write cannot occur in the model.
- Path-id parsing and the mapping of errors to HTTP status codes: ids are integers and errors are the `Error` datatype.
- JSON null, arrays, objects and fractional numbers in a body: a payload value is an integer, a string or a boolean.
- The conversion of the `age` query string to a number: the query reaches the filter with `age` already a number.
- The email syntax check: it is an external library, reduced here to "a non-empty string", the one consequence the services rely on.
- The files defining the role and HealthStatus enumerations are not part of this model. The role header values "admin" and "vet" follow the API description in src/main.ts:26. The HealthStatus values are taken to be the member names.
- Owners.OwnersService.FindAll: returns a set, so the order of the listed rows is not modelled.
- Horses.HorsesService.FindAll: returns a set, so the order of the listed rows is not modelled.
- Horses.HorsesService.Create: requires a validated DTO (age in [1, 30]), because the service relies on the global pipe for it; `Admit` shows that every command it hands on is validated.
- Horses.HorsesService.Update: requires a validated DTO, for the same reason.
- Owners.OwnersService.Update: requires a validated DTO (a present email is non-empty). Otherwise the truthiness test on the email would skip the uniqueness check for the empty string.
