/**
 * HorsesService: create, list with filters, read, update, health-only update
 * and delete horses, checking through OwnersService that owners exist.
 */
module Horses {
  import opened Wrappers
  import opened Domain
  import opened HorsesDto
  import opened Persistence
  import opened Owners

  /** `where: filters`: each filter component that is present must equal the horse's field. */
  predicate Matches(h: Horse, f: HorseFilterDto) {
    && (f.age.Some? ==> h.age == f.age.value)
    && (f.breed.Some? ==> h.breed == f.breed.value)
    && (f.healthStatus.Some? ==> h.healthStatus == f.healthStatus.value)
  }

  /** `findMany({ where: filters })` over the Horse table. */
  function Select(horses: map<int, Horse>, f: HorseFilterDto): (found: set<Horse>)
    ensures forall id :: id in horses && Matches(horses[id], f) ==> horses[id] in found
    ensures forall h :: h in found ==> h in horses.Values && Matches(h, f)
  {
    var found := set id | id in horses && Matches(horses[id], f) :: horses[id];
    assert forall h :: h in found ==> h in horses.Values && Matches(h, f) by {
      forall h | h in found ensures h in horses.Values && Matches(h, f) {
        if forall j :: j in horses && Matches(horses[j], f) ==> horses[j] != h {
          assert false;
        }
        var j :| j in horses && Matches(horses[j], f) && horses[j] == h;
      }
    }
    found
  }

  /** The filter keeping only one component of `f`. */
  function AgeOnly(f: HorseFilterDto): HorseFilterDto { HorseFilterDto(f.age, None, None) }
  function BreedOnly(f: HorseFilterDto): HorseFilterDto { HorseFilterDto(None, f.breed, None) }
  function StatusOnly(f: HorseFilterDto): HorseFilterDto { HorseFilterDto(None, None, f.healthStatus) }

  /** Filters combine with AND: the result is the intersection of the single-component results. */
  lemma SelectIsConjunction(horses: map<int, Horse>, f: HorseFilterDto)
    ensures Select(horses, f) == Select(horses, AgeOnly(f)) * Select(horses, BreedOnly(f)) * Select(horses, StatusOnly(f))
  {
    var both := Select(horses, AgeOnly(f)) * Select(horses, BreedOnly(f)) * Select(horses, StatusOnly(f));
    forall h | h in both ensures h in Select(horses, f) {
      var id := KeyOfSelected(horses, AgeOnly(f), h);
      assert Matches(h, BreedOnly(f)) by {
        var j := KeyOfSelected(horses, BreedOnly(f), h);
      }
      assert Matches(h, StatusOnly(f)) by {
        var j := KeyOfSelected(horses, StatusOnly(f), h);
      }
    }
  }

  /** With no component present nothing is filtered out. */
  lemma EmptyFilterSelectsAll(horses: map<int, Horse>)
    ensures Select(horses, HorseFilterDto(None, None, None)) == horses.Values
  {
    forall h | h in horses.Values ensures h in Select(horses, HorseFilterDto(None, None, None)) {
      var id := KeyOf(horses, h);
    }
  }

  /** The key under which a selected horse is stored. */
  lemma KeyOfSelected(horses: map<int, Horse>, f: HorseFilterDto, h: Horse) returns (id: int)
    requires h in Select(horses, f)
    ensures id in horses && horses[id] == h && Matches(h, f)
  {
    if forall j :: j in horses && Matches(horses[j], f) ==> horses[j] != h {
      assert false;
    }
    id :| id in horses && Matches(horses[id], f) && horses[id] == h;
  }

  /** `update` changes the owner only for a truthy owner id: absent and 0 leave it unchanged. */
  predicate Truthy(owner: Option<int>) {
    owner.Some? && owner.value != 0
  }

  class HorsesService {
    const db: Database
    const ownersService: OwnersService

    ghost predicate Valid()
      reads db
    {
      ownersService.db == db && db.Valid()
    }

    constructor (db: Database, ownersService: OwnersService)
      requires ownersService.db == db && db.Valid()
      ensures this.db == db && this.ownersService == ownersService
      ensures Valid()
    {
      this.db := db;
      this.ownersService := ownersService;
    }

    /** findHorseOrThrow: the stored horse, or NotFound when the id is absent. */
    function FindHorseOrThrow(id: int): (r: Result<Horse, Error>)
      reads db
      ensures r.Ok? <==> id in db.horses
      ensures r.Ok? ==> r.value == db.horses[id]
      ensures r.Err? ==> r.error == NotFound
    {
      if id in db.horses then Ok(db.horses[id]) else Err(NotFound)
    }

    /** findOne: the horse with this id; NotFound exactly when it is not stored. */
    function FindOne(id: int): (r: Result<Horse, Error>)
      reads db
      requires Valid()
      ensures r.Err? <==> id !in db.horses
      ensures r.Err? ==> r.error == NotFound
      ensures r.Ok? ==> r.value.id == id && r.value in FindAll(HorseFilterDto(None, None, None))
    {
      FindHorseOrThrow(id)
    }

    /** findAll: the stored horses matching every present filter component. */
    function FindAll(filters: HorseFilterDto): (found: set<Horse>)
      reads db
      ensures forall h :: h in found ==> h in db.horses.Values && Matches(h, filters)
      ensures forall id :: id in db.horses && Matches(db.horses[id], filters) ==> db.horses[id] in found
    {
      Select(db.horses, filters)
    }

    /**
     * create: NotFound, with nothing written, when the owner is not stored;
     * otherwise a new horse equal to the input under a fresh id.
     */
    method Create(dto: CreateHorseDto) returns (r: Result<Horse, Error>)
      requires Valid() && dto.Valid()
      modifies db
      ensures Valid()
      ensures r.Err? <==> dto.owner !in old(db.owners)
      ensures r.Err? ==> r.error == NotFound && unchanged(db)
      ensures r.Ok? ==>
        && r.value == Horse(r.value.id, dto.name, dto.age, dto.breed, dto.healthStatus, dto.owner)
        && r.value.id !in old(db.horses)
        && db.horses == old(db.horses)[r.value.id := r.value]
        && db.owners == old(db.owners)
        && FindOne(r.value.id) == Ok(r.value)
    {
      var owner := ownersService.FindOne(dto.owner);
      if owner.Err? {
        return Err(owner.error);
      }
      var horse := Horse(db.nextHorseId, dto.name, dto.age, dto.breed, dto.healthStatus, dto.owner);
      db.horses := db.horses[horse.id := horse];
      db.nextHorseId := db.nextHorseId + 1;
      r := Ok(horse);
    }

    /**
     * update: NotFound when the horse is absent, then NotFound when a truthy
     * owner id is given and not stored; otherwise the given fields overwrite
     * the stored ones, the owner only when a truthy one is given.
     */
    method Update(id: int, dto: UpdateHorseDto) returns (r: Result<Horse, Error>)
      requires Valid() && dto.Valid()
      modifies db
      ensures Valid()
      ensures id !in old(db.horses) ==> r == Err(NotFound)
      ensures id in old(db.horses) ==> (r.Err? <==> Truthy(dto.owner) && dto.owner.value !in old(db.owners))
      ensures r.Err? ==> r.error == NotFound && unchanged(db)
      ensures r.Ok? ==>
        && id in old(db.horses)
        && var before := old(db.horses)[id];
        && r.value.id == id
        && r.value.name == dto.name.GetOr(before.name)
        && r.value.age == dto.age.GetOr(before.age)
        && r.value.breed == dto.breed.GetOr(before.breed)
        && r.value.healthStatus == dto.healthStatus.GetOr(before.healthStatus)
        && r.value.owner == (if Truthy(dto.owner) then dto.owner.value else before.owner)
        && db.horses == old(db.horses)[id := r.value]
        && db.owners == old(db.owners)
    {
      var current := FindHorseOrThrow(id);
      if current.Err? {
        return Err(current.error);
      }
      if Truthy(dto.owner) {
        var owner := ownersService.FindOne(dto.owner.value);
        if owner.Err? {
          return Err(owner.error);
        }
      }
      var h := current.value;
      var updated := Horse(id, dto.name.GetOr(h.name), dto.age.GetOr(h.age), dto.breed.GetOr(h.breed),
                           dto.healthStatus.GetOr(h.healthStatus),
                           if Truthy(dto.owner) then dto.owner.value else h.owner);
      db.horses := db.horses[id := updated];
      r := Ok(updated);
    }

    /** updateHealth: NotFound when absent; otherwise only this horse's healthStatus changes. */
    method UpdateHealth(id: int, dto: UpdateHorseHealthDto) returns (r: Result<Horse, Error>)
      requires Valid()
      modifies db
      ensures Valid()
      ensures r.Err? <==> id !in old(db.horses)
      ensures r.Err? ==> r.error == NotFound && unchanged(db)
      ensures r.Ok? ==>
        && r.value == old(db.horses)[id].(healthStatus := dto.healthStatus)
        && db.horses == old(db.horses)[id := r.value]
        && db.owners == old(db.owners)
    {
      var current := FindHorseOrThrow(id);
      if current.Err? {
        return Err(current.error);
      }
      var updated := current.value.(healthStatus := dto.healthStatus);
      db.horses := db.horses[id := updated];
      r := Ok(updated);
    }

    /** remove: NotFound when absent; otherwise exactly that horse is deleted. */
    method Remove(id: int) returns (r: Result<(), Error>)
      requires Valid()
      modifies db
      ensures Valid()
      ensures r.Err? <==> id !in old(db.horses)
      ensures r.Err? ==> r.error == NotFound && unchanged(db)
      ensures r.Ok? ==> db.horses == old(db.horses) - {id} && db.owners == old(db.owners)
      ensures r.Ok? ==> FindOne(id) == Err(NotFound)
    {
      var current := FindHorseOrThrow(id);
      if current.Err? {
        return Err(current.error);
      }
      db.horses := db.horses - {id};
      r := Ok(());
    }
  }
}
