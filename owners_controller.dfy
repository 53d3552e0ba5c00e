/**
 * OwnersController: the roles each route declares (ADMIN on the class,
 * ADMIN and VET on the two reads), the order in which a request passes the
 * guard, the validation pipe and the service, and the reply each route sends.
 */
module OwnersController {
  import opened Wrappers
  import opened Domain
  import opened RolesGuard
  import opened ValidationPipe
  import opened OwnersDto
  import opened Persistence
  import opened Owners

  datatype Route = Create | FindAll | FindOne | Update | Remove

  /** @Roles(UserRole.ADMIN) on the controller class. */
  const ClassRoles: RoleMetadata := Some([Admin])

  /** The @Roles each handler declares; None where it declares none. */
  function HandlerRoles(route: Route): (roles: RoleMetadata)
    ensures roles.Some? <==> route.FindAll? || route.FindOne?
    ensures roles.Some? ==> roles.value == [Admin, Vet]
  {
    match route
    case FindAll | FindOne => Some([Admin, Vet])
    case Create | Update | Remove => None
  }

  /** The guard's decision for a route. */
  function Permits(route: Route, roleHeader: Option<string>): bool {
    CanActivate(HandlerRoles(route), ClassRoles, roleHeader)
  }

  /** VET may list and read owners, and nothing else. */
  lemma VetPermittedExactlyOnReads(route: Route)
    ensures Permits(route, Some(Token(Vet))) <==> route.FindAll? || route.FindOne?
  {
    if route.Create? || route.Update? || route.Remove? {
      TokenInjective(Admin, Vet);
    }
  }

  /** ADMIN may use every route. */
  lemma AdminPermittedEverywhere(route: Route)
    ensures Permits(route, Some(Token(Admin)))
  {
  }

  /** A request without the header is denied on every route. */
  lemma NoHeaderDeniedEverywhere(route: Route)
    ensures !Permits(route, None)
  {
  }

  /** A VET reading one owner or listing them all is admitted, with that id. */
  lemma VetReadsAdmitted(id: int, p: Payload)
    ensures Admit(Request(FindOne, Some(Token(Vet)), id, p)) == Ok(GetOwner(id))
    ensures Admit(Request(FindAll, Some(Token(Vet)), id, p)) == Ok(ListOwners)
  {
    VetPermittedExactlyOnReads(FindOne);
    VetPermittedExactlyOnReads(FindAll);
  }

  /** A request as the controller receives it: route, x-user-role header, :id and body. */
  datatype Request = Request(route: Route, roleHeader: Option<string>, id: int, payload: Payload)

  /** A request that passed the guard and the pipe, with its validated DTO. */
  datatype Command =
    | CreateOwner(create: CreateOwnerDto)
    | ListOwners
    | GetOwner(id: int)
    | UpdateOwner(id: int, update: UpdateOwnerDto)
    | RemoveOwner(id: int)
  {
    predicate Valid() {
      match this
      case CreateOwner(d) => d.Valid()
      case UpdateOwner(_, d) => d.Valid()
      case _ => true
    }

    function RouteOf(): Route {
      match this
      case CreateOwner(_) => Create
      case ListOwners => FindAll
      case GetOwner(_) => FindOne
      case UpdateOwner(_, _) => Update
      case RemoveOwner(_) => Remove
    }
  }

  /**
   * Everything that runs before the handler: the guard first, then the
   * validation pipe on the body. The store is not consulted.
   */
  function Admit(req: Request): (r: Result<Command, Error>)
    ensures r == Err(Forbidden) <==> !Permits(req.route, req.roleHeader)
    ensures r.Err? ==> r.error == Forbidden || r.error == Validation
    ensures r.Ok? ==> r.value.Valid() && r.value.RouteOf() == req.route
    ensures Permits(req.route, req.roleHeader) ==>
      match req.route
      case Create => r.Ok? <==> ParseCreateOwner(req.payload).Ok?
      case Update => r.Ok? <==> ParseUpdateOwner(req.payload).Ok?
      case FindAll | FindOne | Remove => r.Ok?
    ensures r.Ok? ==>
      match r.value
      case CreateOwner(d) => ParseCreateOwner(req.payload) == Ok(d)
      case ListOwners => true
      case GetOwner(id) => id == req.id
      case UpdateOwner(id, d) => id == req.id && ParseUpdateOwner(req.payload) == Ok(d)
      case RemoveOwner(id) => id == req.id
  {
    if !Permits(req.route, req.roleHeader) then Err(Forbidden)
    else
      match req.route
      case Create => MapOk(ParseCreateOwner(req.payload), (d: CreateOwnerDto) => CreateOwner(d))
      case FindAll => Ok(ListOwners)
      case FindOne => Ok(GetOwner(req.id))
      case Update => MapOk(ParseUpdateOwner(req.payload), (d: UpdateOwnerDto) => UpdateOwner(req.id, d))
      case Remove => Ok(RemoveOwner(req.id))
  }

  /**
   * One request end to end: a rejection by the guard or the pipe leaves the
   * store alone; otherwise the service runs, reads change nothing, and a
   * deletion answers with no content.
   */
  method Handle(service: OwnersService, req: Request) returns (resp: Result<Reply, Error>)
    requires service.db.Valid()
    modifies service.db
    ensures service.db.Valid()
    ensures Admit(req).Err? ==> resp == Err(Admit(req).error) && unchanged(service.db)
    ensures resp == Err(Forbidden) <==> !Permits(req.route, req.roleHeader)
    ensures req.route.FindAll? || req.route.FindOne? ==> unchanged(service.db)
    ensures req.route.Create? && Admit(req).Ok? ==>
      (resp == Err(DuplicateEmail) <==> EmailTaken(old(service.db.owners), Admit(req).value.create.email))
    ensures resp.Ok? && req.route.Remove? ==> resp.value == NoContent
    ensures resp.Ok? && !req.route.Remove? ==> resp.value != NoContent
    ensures Admit(req).Ok? ==>
      match Admit(req).value
      case CreateOwner(d) =>
        resp.Ok? ==> resp.value.OneOwner? && var o := resp.value.owner;
          && o.name == d.name && o.email == d.email
          && o.id !in old(service.db.owners)
          && service.db.owners == old(service.db.owners)[o.id := o]
      case ListOwners =>
        resp == Ok(OwnerList(service.FindAll()))
      case GetOwner(id) =>
        && (resp.Ok? <==> id in old(service.db.owners))
        && (resp.Ok? ==> resp.value == OneOwner(old(service.db.owners)[id]))
      case UpdateOwner(id, d) =>
        && (id !in old(service.db.owners) ==> resp == Err(NotFound))
        && (id in old(service.db.owners) ==>
              (resp.Err? <==> d.email.Some? && EmailTaken(old(service.db.owners), d.email.value)))
        && (resp.Ok? ==> resp.value.OneOwner? && var o := resp.value.owner;
              && o.id == id
              && o.name == d.name.GetOr(old(service.db.owners)[id].name)
              && o.email == d.email.GetOr(old(service.db.owners)[id].email)
              && service.db.owners == old(service.db.owners)[id := o])
      case RemoveOwner(id) =>
        && (resp.Ok? <==> id in old(service.db.owners))
        && (resp.Ok? ==>
              && service.db.owners == old(service.db.owners) - {id}
              && service.db.horses == CascadeDelete(old(service.db.horses), id))
    ensures resp.Err? && Admit(req).Ok? ==> resp.error in {NotFound, DuplicateEmail} && unchanged(service.db)
    ensures resp.Err? && Admit(req).Ok? ==>
      resp.error == (if req.route.Create? || (req.route.Update? && req.id in old(service.db.owners))
                     then DuplicateEmail else NotFound)
    ensures !req.route.Remove? ==> service.db.horses == old(service.db.horses)
  {
    var admitted := Admit(req);
    if admitted.Err? {
      return Err(admitted.error);
    }
    match admitted.value
    case CreateOwner(d) =>
      var r := service.Create(d);
      resp := if r.Ok? then Ok(OneOwner(r.value)) else Err(r.error);
    case ListOwners =>
      resp := Ok(OwnerList(service.FindAll()));
    case GetOwner(id) =>
      var r := service.FindOne(id);
      resp := if r.Ok? then Ok(OneOwner(r.value)) else Err(r.error);
    case UpdateOwner(id, d) =>
      var r := service.Update(id, d);
      resp := if r.Ok? then Ok(OneOwner(r.value)) else Err(r.error);
    case RemoveOwner(id) =>
      var r := service.Remove(id);
      resp := if r.Ok? then Ok(NoContent) else Err(r.error);
  }
}
