/**
 * HorsesController: the roles each route declares (ADMIN on the class,
 * ADMIN and VET on the reads and the health update), the order in which a
 * request passes the guard, the validation pipe and the service, and the
 * reply each route sends.
 */
module HorsesController {
  import opened Wrappers
  import opened Domain
  import opened RolesGuard
  import opened ValidationPipe
  import opened HorsesDto
  import opened Horses

  datatype Route = Create | FindAll | FindOne | Update | UpdateHealth | Remove

  /** @Roles(UserRole.ADMIN) on the controller class. */
  const ClassRoles: RoleMetadata := Some([Admin])

  /** The @Roles each handler declares; None where it declares none. */
  function HandlerRoles(route: Route): (roles: RoleMetadata)
    ensures roles.Some? <==> route.FindAll? || route.FindOne? || route.UpdateHealth?
    ensures roles.Some? ==> roles.value == [Admin, Vet]
  {
    match route
    case FindAll | FindOne | UpdateHealth => Some([Admin, Vet])
    case Create | Update | Remove => None
  }

  /** The guard's decision for a route. */
  function Permits(route: Route, roleHeader: Option<string>): bool {
    CanActivate(HandlerRoles(route), ClassRoles, roleHeader)
  }

  /** VET may list, read and update health, and nothing else. */
  lemma VetPermittedExactlyOnReadsAndHealth(route: Route)
    ensures Permits(route, Some(Token(Vet))) <==> route.FindAll? || route.FindOne? || route.UpdateHealth?
  {
    if route.Create? || route.Update? || route.Remove? {
      TokenInjective(Admin, Vet);
    }
  }

  /** ADMIN may use every route. */
  lemma AdminPermittedEverywhere(route: Route)
    ensures Permits(route, Some(Token(Admin)))
  {
  }

  /** A request without the header is denied on every route. */
  lemma NoHeaderDeniedEverywhere(route: Route)
    ensures !Permits(route, None)
  {
  }

  /** No header value other than the two role tokens gets through. */
  lemma OnlyRoleTokensPermitted(route: Route, token: string)
    requires Permits(route, Some(token))
    ensures token == Token(Admin) || token == Token(Vet)
  {
  }

  /** A request as the controller receives it: route, x-user-role header, :id and body or query. */
  datatype Request = Request(route: Route, roleHeader: Option<string>, id: int, payload: Payload)

  /** A request that passed the guard and the pipe, with its validated DTO. */
  datatype Command =
    | CreateHorse(create: CreateHorseDto)
    | ListHorses(filters: HorseFilterDto)
    | GetHorse(id: int)
    | UpdateHorse(id: int, update: UpdateHorseDto)
    | UpdateHorseHealth(id: int, health: UpdateHorseHealthDto)
    | RemoveHorse(id: int)
  {
    predicate Valid() {
      match this
      case CreateHorse(d) => d.Valid()
      case ListHorses(f) => f.Valid()
      case UpdateHorse(_, d) => d.Valid()
      case _ => true
    }

    function RouteOf(): Route {
      match this
      case CreateHorse(_) => Create
      case ListHorses(_) => FindAll
      case GetHorse(_) => FindOne
      case UpdateHorse(_, _) => Update
      case UpdateHorseHealth(_, _) => UpdateHealth
      case RemoveHorse(_) => Remove
    }
  }

  /**
   * Everything that runs before the handler: the guard first, then the
   * validation pipe on the body or query. The store is not consulted.
   */
  function Admit(req: Request): (r: Result<Command, Error>)
    ensures r == Err(Forbidden) <==> !Permits(req.route, req.roleHeader)
    ensures r.Err? ==> r.error == Forbidden || r.error == Validation
    ensures r.Ok? ==> r.value.Valid() && r.value.RouteOf() == req.route
    ensures Permits(req.route, req.roleHeader) ==>
      match req.route
      case Create => r.Ok? <==> ParseCreateHorse(req.payload).Ok?
      case FindAll => r.Ok? <==> ParseHorseFilter(req.payload).Ok?
      case Update => r.Ok? <==> ParseUpdateHorse(req.payload).Ok?
      case UpdateHealth => r.Ok? <==> ParseUpdateHealth(req.payload).Ok?
      case FindOne | Remove => r.Ok?
    ensures r.Ok? ==>
      match r.value
      case CreateHorse(d) => ParseCreateHorse(req.payload) == Ok(d)
      case ListHorses(f) => ParseHorseFilter(req.payload) == Ok(f)
      case GetHorse(id) => id == req.id
      case UpdateHorse(id, d) => id == req.id && ParseUpdateHorse(req.payload) == Ok(d)
      case UpdateHorseHealth(id, d) => id == req.id && ParseUpdateHealth(req.payload) == Ok(d)
      case RemoveHorse(id) => id == req.id
  {
    if !Permits(req.route, req.roleHeader) then Err(Forbidden)
    else
      match req.route
      case Create => MapOk(ParseCreateHorse(req.payload), (d: CreateHorseDto) => CreateHorse(d))
      case FindAll => MapOk(ParseHorseFilter(req.payload), (f: HorseFilterDto) => ListHorses(f))
      case FindOne => Ok(GetHorse(req.id))
      case Update => MapOk(ParseUpdateHorse(req.payload), (d: UpdateHorseDto) => UpdateHorse(req.id, d))
      case UpdateHealth => MapOk(ParseUpdateHealth(req.payload), (d: UpdateHorseHealthDto) => UpdateHorseHealth(req.id, d))
      case Remove => Ok(RemoveHorse(req.id))
  }

  /**
   * An out-of-range age is a validation error, whatever owner the body
   * names: validation runs before the owner lookup.
   */
  lemma BadAgeRejectedBeforeOwnerLookup(req: Request, age: int)
    requires req.route.Create? && Permits(req.route, req.roleHeader)
    requires "age" in req.payload && req.payload["age"] == Num(age) && !(MinAge <= age <= MaxAge)
    ensures Admit(req) == Err(Validation)
  {
  }

  /** A VET setting a horse's health status to a member is admitted, for that horse and that status. */
  lemma VetHealthUpdateAdmitted(id: int, status: HealthStatus)
    ensures Admit(Request(UpdateHealth, Some(Token(Vet)), id, map["healthStatus" := Str(StatusToken(status))]))
      == Ok(UpdateHorseHealth(id, UpdateHorseHealthDto(status)))
  {
    VetPermittedExactlyOnReadsAndHealth(UpdateHealth);
    HealthBodyExact(map["healthStatus" := Str(StatusToken(status))], UpdateHorseHealthDto(status));
  }

  /** A VET reading one horse, or listing with any valid filter, is admitted with that id or filter. */
  lemma VetReadsAdmitted(id: int, f: HorseFilterDto, p: Payload)
    requires f.Valid()
    ensures Admit(Request(FindOne, Some(Token(Vet)), id, p)) == Ok(GetHorse(id))
    ensures Admit(Request(FindAll, Some(Token(Vet)), id, EncodeHorseFilter(f))) == Ok(ListHorses(f))
  {
    VetPermittedExactlyOnReadsAndHealth(FindOne);
    VetPermittedExactlyOnReadsAndHealth(FindAll);
    FilterQueryExact(EncodeHorseFilter(f), f);
  }

  /** A VET creating a horse is forbidden even with a body that would validate. */
  lemma VetCreateForbidden(d: CreateHorseDto, id: int)
    ensures Admit(Request(Create, Some(Token(Vet)), id, EncodeCreateHorse(d))) == Err(Forbidden)
  {
    VetPermittedExactlyOnReadsAndHealth(Create);
  }

  /**
   * One request end to end: a rejection by the guard or the pipe leaves the
   * store alone; otherwise the service runs, reads change nothing, and a
   * deletion answers with no content.
   */
  method Handle(service: HorsesService, req: Request) returns (resp: Result<Reply, Error>)
    requires service.Valid()
    modifies service.db
    ensures service.Valid()
    ensures Admit(req).Err? ==> resp == Err(Admit(req).error) && unchanged(service.db)
    ensures resp == Err(Forbidden) <==> !Permits(req.route, req.roleHeader)
    ensures req.route.FindAll? || req.route.FindOne? ==> unchanged(service.db)
    ensures req.route.Create? && Admit(req).Ok? ==>
      (resp == Err(NotFound) <==> Admit(req).value.create.owner !in old(service.db.owners))
    ensures resp.Ok? && req.route.Remove? ==> resp.value == NoContent
    ensures resp.Ok? && !req.route.Remove? ==> resp.value != NoContent
    ensures Admit(req).Ok? ==>
      match Admit(req).value
      case CreateHorse(d) =>
        resp.Ok? ==> resp.value.OneHorse? && var h := resp.value.horse;
          && h == Horse(h.id, d.name, d.age, d.breed, d.healthStatus, d.owner)
          && h.id !in old(service.db.horses)
          && service.db.horses == old(service.db.horses)[h.id := h]
      case ListHorses(f) =>
        resp == Ok(HorseList(service.FindAll(f)))
      case GetHorse(id) =>
        && (resp.Ok? <==> id in old(service.db.horses))
        && (resp.Ok? ==> resp.value == OneHorse(old(service.db.horses)[id]))
      case UpdateHorse(id, d) =>
        && (id !in old(service.db.horses) ==> resp == Err(NotFound))
        && (id in old(service.db.horses) ==>
              (resp.Err? <==> Truthy(d.owner) && d.owner.value !in old(service.db.owners)))
        && (resp.Ok? ==> resp.value.OneHorse? && var h := resp.value.horse; var before := old(service.db.horses)[id];
              && h.id == id
              && h.name == d.name.GetOr(before.name)
              && h.age == d.age.GetOr(before.age)
              && h.breed == d.breed.GetOr(before.breed)
              && h.healthStatus == d.healthStatus.GetOr(before.healthStatus)
              && h.owner == (if Truthy(d.owner) then d.owner.value else before.owner)
              && service.db.horses == old(service.db.horses)[id := h])
      case UpdateHorseHealth(id, d) =>
        && (resp.Ok? <==> id in old(service.db.horses))
        && (resp.Ok? ==>
              && resp.value == OneHorse(old(service.db.horses)[id].(healthStatus := d.healthStatus))
              && service.db.horses == old(service.db.horses)[id := resp.value.horse])
      case RemoveHorse(id) =>
        && (resp.Ok? <==> id in old(service.db.horses))
        && (resp.Ok? ==> service.db.horses == old(service.db.horses) - {id})
    ensures resp.Err? && Admit(req).Ok? ==> resp.error == NotFound && unchanged(service.db)
    ensures service.db.owners == old(service.db.owners)
  {
    var admitted := Admit(req);
    if admitted.Err? {
      return Err(admitted.error);
    }
    match admitted.value
    case CreateHorse(d) =>
      var r := service.Create(d);
      resp := if r.Ok? then Ok(OneHorse(r.value)) else Err(r.error);
    case ListHorses(f) =>
      resp := Ok(HorseList(service.FindAll(f)));
    case GetHorse(id) =>
      var r := service.FindOne(id);
      resp := if r.Ok? then Ok(OneHorse(r.value)) else Err(r.error);
    case UpdateHorse(id, d) =>
      var r := service.Update(id, d);
      resp := if r.Ok? then Ok(OneHorse(r.value)) else Err(r.error);
    case UpdateHorseHealth(id, d) =>
      var r := service.UpdateHealth(id, d);
      resp := if r.Ok? then Ok(OneHorse(r.value)) else Err(r.error);
    case RemoveHorse(id) =>
      var r := service.Remove(id);
      resp := if r.Ok? then Ok(NoContent) else Err(r.error);
  }
}
