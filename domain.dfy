/**
 * The records of the two database tables, the HealthStatus enumeration, the
 * error kinds the API reports and the payloads its handlers reply with.
 */
module Domain {

  /** The closed HealthStatus enumeration. */
  datatype HealthStatus = Healthy | Injured | Recovering

  /** A row of the Owner table. */
  datatype Owner = Owner(id: int, name: string, email: string)

  /** A row of the Horse table; `owner` is the foreign key to Owner.id. */
  datatype Horse = Horse(id: int, name: string, age: int, breed: string, healthStatus: HealthStatus, owner: int)

  /** Inclusive bounds on a horse's age. */
  const MinAge := 1
  const MaxAge := 30

  /** The failures a request can end with. */
  datatype Error =
    | NotFound        // NotFoundException: an owner or horse id that is not stored
    | DuplicateEmail  // BadRequestException: the email is already registered
    | Validation      // rejection by the global validation pipe (status 422)
    | Forbidden       // denial by the roles guard

  /** What a successful handler sends back; a deletion answers with no content. */
  datatype Reply =
    | OneOwner(owner: Owner)
    | OwnerList(owners: set<Owner>)
    | OneHorse(horse: Horse)
    | HorseList(horses: set<Horse>)
    | NoContent
}
