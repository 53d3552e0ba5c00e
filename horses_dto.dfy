/**
 * The horse DTOs and the checks their decorators ask of a payload:
 * CreateHorseDto (every field required), UpdateHorseDto (the same fields,
 * all optional), UpdateHorseHealthDto (healthStatus only) and HorseFilterDto
 * (optional age, breed and healthStatus).
 */
module HorsesDto {
  import opened Wrappers
  import opened Domain
  import opened ValidationPipe

  /** The value of each HealthStatus member as it appears in a payload. */
  function StatusToken(s: HealthStatus): string {
    match s
    case Healthy => "HEALTHY"
    case Injured => "INJURED"
    case Recovering => "RECOVERING"
  }

  /** @IsEnum(HealthStatus): the member a token names, if any. */
  function ParseStatus(token: string): (r: Option<HealthStatus>)
    ensures r.Some? ==> StatusToken(r.value) == token
    ensures r.None? ==> forall s :: StatusToken(s) != token
  {
    if token == "HEALTHY" then Some(Healthy)
    else if token == "INJURED" then Some(Injured)
    else if token == "RECOVERING" then Some(Recovering)
    else None
  }

  lemma StatusRoundTrip(s: HealthStatus)
    ensures ParseStatus(StatusToken(s)) == Some(s)
  {
    match s
    case Healthy =>
    case Injured => assert StatusToken(s)[0] != "HEALTHY"[0];
    case Recovering =>
      assert StatusToken(s)[0] != "HEALTHY"[0];
      assert StatusToken(s)[0] != "INJURED"[0];
  }

  /** @IsEnum(HealthStatus) on property `key`. */
  function StatusField(p: Payload, key: string): Field<HealthStatus> {
    match StringField(p, key)
    case Missing => Missing
    case Rejected => Rejected
    case Given(token) => if ParseStatus(token).Some? then Given(ParseStatus(token).value) else Rejected
  }

  /** @IsNumber, @Min(1) and @Max(30) on property `key`. */
  function AgeField(p: Payload, key: string): Field<int> {
    match NumberField(p, key)
    case Missing => Missing
    case Rejected => Rejected
    case Given(n) => if MinAge <= n <= MaxAge then Given(n) else Rejected
  }

  /** An optional property: absent or valid, never rejected. */
  function Optional<T>(f: Field<T>): Option<T> {
    if f.Given? then Some(f.value) else None
  }

  const CreateHorseKeys: set<string> := {"name", "age", "breed", "healthStatus", "owner"}
  const HealthKeys: set<string> := {"healthStatus"}
  const FilterKeys: set<string> := {"age", "breed", "healthStatus"}

  datatype CreateHorseDto = CreateHorseDto(name: string, age: int, breed: string, healthStatus: HealthStatus, owner: int) {
    predicate Valid() {
      MinAge <= age <= MaxAge
    }
  }

  datatype UpdateHorseDto = UpdateHorseDto(name: Option<string>, age: Option<int>, breed: Option<string>,
                                           healthStatus: Option<HealthStatus>, owner: Option<int>) {
    predicate Valid() {
      age.Some? ==> MinAge <= age.value <= MaxAge
    }
  }

  datatype UpdateHorseHealthDto = UpdateHorseHealthDto(healthStatus: HealthStatus)

  datatype HorseFilterDto = HorseFilterDto(age: Option<int>, breed: Option<string>, healthStatus: Option<HealthStatus>) {
    predicate Valid() {
      age.Some? ==> MinAge <= age.value <= MaxAge
    }
  }

  /** The payload a client sends for a create request. */
  function EncodeCreateHorse(d: CreateHorseDto): Payload {
    map["name" := Str(d.name), "age" := Num(d.age), "breed" := Str(d.breed),
        "healthStatus" := Str(StatusToken(d.healthStatus)), "owner" := Num(d.owner)]
  }

  /** A payload `p` extended with property `key` when a value is given. */
  function Put(p: Payload, key: string, v: Option<Value>): Payload {
    if v.Some? then p[key := v.value] else p
  }

  function StrOf(o: Option<string>): Option<Value> {
    if o.Some? then Some(Str(o.value)) else None
  }

  function NumOf(o: Option<int>): Option<Value> {
    if o.Some? then Some(Num(o.value)) else None
  }

  function StatusOf(o: Option<HealthStatus>): Option<Value> {
    if o.Some? then Some(Str(StatusToken(o.value))) else None
  }

  /** The payload a client sends for an update request: the given fields only. */
  function EncodeUpdateHorse(d: UpdateHorseDto): Payload {
    Put(Put(Put(Put(Put(map[], "name", StrOf(d.name)), "age", NumOf(d.age)), "breed", StrOf(d.breed)),
            "healthStatus", StatusOf(d.healthStatus)), "owner", NumOf(d.owner))
  }

  /** The query string of a list request: the given filter components only. */
  function EncodeHorseFilter(f: HorseFilterDto): Payload {
    Put(Put(Put(map[], "age", NumOf(f.age)), "breed", StrOf(f.breed)), "healthStatus", StatusOf(f.healthStatus))
  }

  /** Validation of a create body: only declared properties, all five present and well-formed. */
  function ParseCreateHorse(p: Payload): (r: Result<CreateHorseDto, Error>)
    ensures r.Ok? ==> r.value.Valid()
    ensures r.Err? ==> r.error == Validation
  {
    var name, age, breed := StringField(p, "name"), AgeField(p, "age"), StringField(p, "breed");
    var status, owner := StatusField(p, "healthStatus"), NumberField(p, "owner");
    if Whitelisted(p, CreateHorseKeys) && name.Given? && age.Given? && breed.Given? && status.Given? && owner.Given?
    then Ok(CreateHorseDto(name.value, age.value, breed.value, status.value, owner.value))
    else Err(Validation)
  }

  /** Validation of an update body: only declared properties, each one present well-formed. */
  function ParseUpdateHorse(p: Payload): (r: Result<UpdateHorseDto, Error>)
    ensures r.Ok? ==> r.value.Valid()
    ensures r.Err? ==> r.error == Validation
  {
    var name, age, breed := StringField(p, "name"), AgeField(p, "age"), StringField(p, "breed");
    var status, owner := StatusField(p, "healthStatus"), NumberField(p, "owner");
    if Whitelisted(p, CreateHorseKeys) && !name.Rejected? && !age.Rejected? && !breed.Rejected?
       && !status.Rejected? && !owner.Rejected?
    then Ok(UpdateHorseDto(Optional(name), Optional(age), Optional(breed), Optional(status), Optional(owner)))
    else Err(Validation)
  }

  /** Validation of a health-update body: healthStatus and nothing else. */
  function ParseUpdateHealth(p: Payload): (r: Result<UpdateHorseHealthDto, Error>)
    ensures r.Err? ==> r.error == Validation
  {
    var status := StatusField(p, "healthStatus");
    if Whitelisted(p, HealthKeys) && status.Given? then Ok(UpdateHorseHealthDto(status.value))
    else Err(Validation)
  }

  /** Validation of the list query: every filter optional, a present age within bounds. */
  function ParseHorseFilter(p: Payload): (r: Result<HorseFilterDto, Error>)
    ensures r.Ok? ==> r.value.Valid()
    ensures r.Err? ==> r.error == Validation
  {
    var age, breed, status := AgeField(p, "age"), StringField(p, "breed"), StatusField(p, "healthStatus");
    if Whitelisted(p, FilterKeys) && !age.Rejected? && !breed.Rejected? && !status.Rejected?
    then Ok(HorseFilterDto(Optional(age), Optional(breed), Optional(status)))
    else Err(Validation)
  }

  /** A well-formed create DTO survives encoding and validation unchanged. */
  lemma CreateHorseRoundTrip(d: CreateHorseDto)
    requires d.Valid()
    ensures ParseCreateHorse(EncodeCreateHorse(d)) == Ok(d)
  {
    StatusRoundTrip(d.healthStatus);
  }

  /** Validation accepts nothing but the encoding of the DTO it returns. */
  lemma CreateHorseAcceptsOnlyEncodings(p: Payload)
    requires ParseCreateHorse(p).Ok?
    ensures p == EncodeCreateHorse(ParseCreateHorse(p).value)
  {
    var d := ParseCreateHorse(p).value;
    var e := EncodeCreateHorse(d);
    assert p.Keys == e.Keys;
    forall k | k in p ensures p[k] == e[k] {
    }
  }

  /** The age bound is inclusive at both ends: 1 and 30 pass, 0 and 31 fail. */
  lemma CreateHorseAgeBoundary(d: CreateHorseDto)
    ensures ParseCreateHorse(EncodeCreateHorse(d)).Ok? <==> MinAge <= d.age <= MaxAge
  {
    StatusRoundTrip(d.healthStatus);
  }

  /** A body with only a name misses required fields and is rejected. */
  lemma NameOnlyBodyRejected(name: string)
    ensures ParseCreateHorse(map["name" := Str(name)]) == Err(Validation)
  {
    assert "age" !in map["name" := Str(name)];
  }

  /** A property not declared on the DTO rejects the body. */
  lemma UndeclaredPropertyRejected(p: Payload, key: string)
    requires key in p && key !in CreateHorseKeys
    ensures ParseCreateHorse(p) == Err(Validation) && ParseUpdateHorse(p) == Err(Validation)
  {
  }

  /** A full update body is accepted exactly when it is accepted as a create body. */
  lemma FullUpdateAgreesWithCreate(p: Payload)
    requires p.Keys == CreateHorseKeys
    ensures ParseUpdateHorse(p).Ok? <==> ParseCreateHorse(p).Ok?
  {
    assert "name" in p && "age" in p && "breed" in p && "healthStatus" in p && "owner" in p;
  }

  /** An empty update body is accepted and changes nothing. */
  lemma EmptyUpdateAccepted()
    ensures ParseUpdateHorse(map[]) == Ok(UpdateHorseDto(None, None, None, None, None))
  {
  }

  /** Health validation accepts exactly the single-property body naming a member. */
  lemma HealthBodyExact(p: Payload, d: UpdateHorseHealthDto)
    ensures ParseUpdateHealth(p) == Ok(d) <==> p == map["healthStatus" := Str(StatusToken(d.healthStatus))]
  {
    var e := map["healthStatus" := Str(StatusToken(d.healthStatus))];
    if ParseUpdateHealth(p) == Ok(d) {
      assert p.Keys == e.Keys;
    }
    if p == e {
      StatusRoundTrip(d.healthStatus);
    }
  }

  /**
   * Update validation accepts a body as a given DTO exactly when that DTO is
   * valid and the body holds its given fields and nothing else: a present
   * property that fails its create constraint rejects the whole body, and
   * every accepted value reaches the DTO.
   */
  lemma UpdateHorseBodyExact(p: Payload, d: UpdateHorseDto)
    ensures ParseUpdateHorse(p) == Ok(d) <==> d.Valid() && p == EncodeUpdateHorse(d)
  {
    var e := EncodeUpdateHorse(d);
    assert e.Keys <= CreateHorseKeys;
    assert ("name" in e <==> d.name.Some?) && ("age" in e <==> d.age.Some?) && ("breed" in e <==> d.breed.Some?)
      && ("healthStatus" in e <==> d.healthStatus.Some?) && ("owner" in e <==> d.owner.Some?);
    if ParseUpdateHorse(p) == Ok(d) {
      assert p.Keys == e.Keys;
      forall k | k in p ensures p[k] == e[k] {
      }
    }
    if d.Valid() && p == e {
      if d.healthStatus.Some? {
        StatusRoundTrip(d.healthStatus.value);
      }
    }
  }

  /** An update body whose age lies outside [1, 30] is rejected whatever else it holds. */
  lemma UpdateAgeOutOfRangeRejected(p: Payload, age: int)
    requires "age" in p && p["age"] == Num(age) && !(MinAge <= age <= MaxAge)
    ensures ParseUpdateHorse(p) == Err(Validation)
  {
  }

  /** An update body whose healthStatus names no member is rejected whatever else it holds. */
  lemma UpdateUnknownStatusRejected(p: Payload, token: string)
    requires "healthStatus" in p && p["healthStatus"] == Str(token) && ParseStatus(token).None?
    ensures ParseUpdateHorse(p) == Err(Validation)
  {
  }

  /**
   * Query validation accepts a query as a given filter exactly when the filter
   * is valid and the query holds its given components and nothing else.
   */
  lemma FilterQueryExact(p: Payload, f: HorseFilterDto)
    ensures ParseHorseFilter(p) == Ok(f) <==> f.Valid() && p == EncodeHorseFilter(f)
  {
    var e := EncodeHorseFilter(f);
    assert e.Keys <= FilterKeys;
    assert ("age" in e <==> f.age.Some?) && ("breed" in e <==> f.breed.Some?)
      && ("healthStatus" in e <==> f.healthStatus.Some?);
    if ParseHorseFilter(p) == Ok(f) {
      assert p.Keys == e.Keys;
      forall k | k in p ensures p[k] == e[k] {
      }
    }
    if f.Valid() && p == e {
      if f.healthStatus.Some? {
        StatusRoundTrip(f.healthStatus.value);
      }
    }
  }

  /** A breed-only query becomes the filter on that breed alone. */
  lemma BreedQueryFiltersByBreed(breed: string)
    ensures ParseHorseFilter(map["breed" := Str(breed)]) == Ok(HorseFilterDto(None, Some(breed), None))
  {
    assert "age" !in map["breed" := Str(breed)];
  }

  /** An empty query is a filter with no component. */
  lemma EmptyQueryIsNoFilter()
    ensures ParseHorseFilter(map[]) == Ok(HorseFilterDto(None, None, None))
  {
  }
}
