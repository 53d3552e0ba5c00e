/** OwnersService: create, read, update and delete owners, guarding email uniqueness. */
module Owners {
  import opened Wrappers
  import opened Domain
  import opened OwnersDto
  import opened Persistence

  class OwnersService {
    const db: Database

    constructor (db: Database)
      ensures this.db == db
    {
      this.db := db;
    }

    /** findOwnerByEmail: the owner registered with `email`, if there is one. */
    method FindOwnerByEmail(email: string) returns (found: Option<Owner>)
      ensures found.Some? <==> EmailTaken(db.owners, email)
      ensures found.Some? ==> found.value.email == email && found.value in db.owners.Values
    {
      if exists id :: id in db.owners && db.owners[id].email == email {
        var id :| id in db.owners && db.owners[id].email == email;
        found := Some(db.owners[id]);
      } else {
        found := None;
      }
    }

    /** findOwnerOrThrow: the stored owner, or NotFound when the id is absent. */
    function FindOwnerOrThrow(id: int): (r: Result<Owner, Error>)
      reads db
      ensures r.Ok? <==> id in db.owners
      ensures r.Ok? ==> r.value == db.owners[id]
      ensures r.Err? ==> r.error == NotFound
    {
      if id in db.owners then Ok(db.owners[id]) else Err(NotFound)
    }

    /** findAll: every owner, unfiltered. */
    function FindAll(): (all: set<Owner>)
      reads db
      requires db.Valid()
      ensures |all| == |db.owners|
      ensures forall id :: id in db.owners ==> db.owners[id] in all
      ensures forall o :: o in all ==> o.id in db.owners && db.owners[o.id] == o
    {
      KeyedValuesCount(db.owners, (o: Owner) => o.id);
      db.owners.Values
    }

    /** findOne: the owner with this id, one of those findAll lists; NotFound when absent. */
    function FindOne(id: int): (r: Result<Owner, Error>)
      reads db
      requires db.Valid()
      ensures r.Ok? <==> id in db.owners
      ensures r.Ok? ==> r.value.id == id && r.value in FindAll()
      ensures r.Err? ==> r.error == NotFound
    {
      FindOwnerOrThrow(id)
    }

    /**
     * create: DuplicateEmail, with nothing written, when the email is already
     * registered; otherwise one new owner under a fresh id.
     */
    method Create(dto: CreateOwnerDto) returns (r: Result<Owner, Error>)
      requires db.Valid()
      modifies db
      ensures db.Valid()
      ensures r.Err? <==> EmailTaken(old(db.owners), dto.email)
      ensures r.Err? ==> r.error == DuplicateEmail && unchanged(db)
      ensures r.Ok? ==>
        && r.value.name == dto.name && r.value.email == dto.email
        && r.value.id !in old(db.owners)
        && db.owners == old(db.owners)[r.value.id := r.value]
        && db.horses == old(db.horses)
        && FindOne(r.value.id) == Ok(r.value)
    {
      var existing := FindOwnerByEmail(dto.email);
      if existing.Some? {
        return Err(DuplicateEmail);
      }
      var owner := Owner(db.nextOwnerId, dto.name, dto.email);
      db.owners := db.owners[owner.id := owner];
      db.nextOwnerId := db.nextOwnerId + 1;
      r := Ok(owner);
    }

    /**
     * update: NotFound first; then, when an email is given, DuplicateEmail if
     * any owner holds it, the owner being updated included; otherwise the
     * given fields overwrite the stored ones and the id stays.
     */
    method Update(id: int, dto: UpdateOwnerDto) returns (r: Result<Owner, Error>)
      requires db.Valid() && dto.Valid()
      modifies db
      ensures db.Valid()
      ensures id !in old(db.owners) ==> r == Err(NotFound)
      ensures id in old(db.owners) ==>
        (r.Err? <==> dto.email.Some? && EmailTaken(old(db.owners), dto.email.value))
      ensures r.Err? ==> r.error in {NotFound, DuplicateEmail} && unchanged(db)
      ensures id in old(db.owners) && r.Err? ==> r.error == DuplicateEmail
      ensures r.Ok? ==>
        && id in old(db.owners)
        && r.value.id == id
        && r.value.name == dto.name.GetOr(old(db.owners)[id].name)
        && r.value.email == dto.email.GetOr(old(db.owners)[id].email)
        && db.owners == old(db.owners)[id := r.value]
        && db.horses == old(db.horses)
    {
      var current := FindOwnerOrThrow(id);
      if current.Err? {
        return Err(current.error);
      }
      // `if (updateOwnerDto.email)`: the empty string would skip the check,
      // but a validated DTO never carries it.
      if dto.email.Some? && dto.email.value != "" {
        var existing := FindOwnerByEmail(dto.email.value);
        if existing.Some? {
          return Err(DuplicateEmail);
        }
      }
      var updated := Owner(id, dto.name.GetOr(current.value.name), dto.email.GetOr(current.value.email));
      db.owners := db.owners[id := updated];
      r := Ok(updated);
    }

    /**
     * remove: NotFound when absent; otherwise the owner is deleted and, by the
     * foreign key's cascade, so is every horse it owns, and only those.
     */
    method Remove(id: int) returns (r: Result<(), Error>)
      requires db.Valid()
      modifies db
      ensures db.Valid()
      ensures r.Err? <==> id !in old(db.owners)
      ensures r.Err? ==> r.error == NotFound && unchanged(db)
      ensures r.Ok? ==> db.owners == old(db.owners) - {id} && db.horses == CascadeDelete(old(db.horses), id)
      ensures forall h :: h in db.horses ==> db.horses[h].owner != id
      ensures r.Ok? ==> FindOne(id) == Err(NotFound)
    {
      var current := FindOwnerOrThrow(id);
      if current.Err? {
        return Err(current.error);
      }
      db.owners := db.owners - {id};
      db.horses := CascadeDelete(db.horses, id);
      r := Ok(());
    }
  }

  /** The update check has no self-exclusion: re-sending an owner's own email is a DuplicateEmail. */
  lemma OwnEmailCountsAsTaken(owners: map<int, Owner>, id: int)
    requires id in owners
    ensures EmailTaken(owners, owners[id].email)
  {
  }
}
