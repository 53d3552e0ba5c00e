/**
 * The owner DTOs: CreateOwnerDto (name and email required) and
 * UpdateOwnerDto (both optional). The email syntax check is reduced to the
 * one consequence the services rely on: an email is never the empty string.
 */
module OwnersDto {
  import opened Wrappers
  import opened Domain
  import opened ValidationPipe

  const OwnerKeys: set<string> := {"name", "email"}

  /** @IsEmail on property `key`, reduced to: a non-empty string. */
  function EmailField(p: Payload, key: string): Field<string> {
    match StringField(p, key)
    case Given(s) => if s != "" then Given(s) else Rejected
    case f => f
  }

  datatype CreateOwnerDto = CreateOwnerDto(name: string, email: string) {
    predicate Valid() {
      email != ""
    }
  }

  datatype UpdateOwnerDto = UpdateOwnerDto(name: Option<string>, email: Option<string>) {
    predicate Valid() {
      email.Some? ==> email.value != ""
    }
  }

  /** The payload a client sends for a create request. */
  function EncodeCreateOwner(d: CreateOwnerDto): Payload {
    map["name" := Str(d.name), "email" := Str(d.email)]
  }

  /** The payload a client sends for an update request: the given fields only. */
  function EncodeUpdateOwner(d: UpdateOwnerDto): Payload {
    var named: Payload := if d.name.Some? then map["name" := Str(d.name.value)] else map[];
    if d.email.Some? then named["email" := Str(d.email.value)] else named
  }

  /** Validation of a create body: name and email, nothing else. */
  function ParseCreateOwner(p: Payload): (r: Result<CreateOwnerDto, Error>)
    ensures r.Ok? ==> r.value.Valid()
    ensures r.Err? ==> r.error == Validation
  {
    var name, email := StringField(p, "name"), EmailField(p, "email");
    if Whitelisted(p, OwnerKeys) && name.Given? && email.Given?
    then Ok(CreateOwnerDto(name.value, email.value))
    else Err(Validation)
  }

  /** Validation of an update body: name and email optional, nothing else. */
  function ParseUpdateOwner(p: Payload): (r: Result<UpdateOwnerDto, Error>)
    ensures r.Ok? ==> r.value.Valid()
    ensures r.Err? ==> r.error == Validation
  {
    var name, email := StringField(p, "name"), EmailField(p, "email");
    if Whitelisted(p, OwnerKeys) && !name.Rejected? && !email.Rejected?
    then Ok(UpdateOwnerDto(if name.Given? then Some(name.value) else None,
                           if email.Given? then Some(email.value) else None))
    else Err(Validation)
  }

  /** A well-formed create DTO survives encoding and validation unchanged. */
  lemma CreateOwnerRoundTrip(d: CreateOwnerDto)
    requires d.Valid()
    ensures ParseCreateOwner(EncodeCreateOwner(d)) == Ok(d)
  {
  }

  /** Validation accepts nothing but the encoding of the DTO it returns. */
  lemma CreateOwnerAcceptsOnlyEncodings(p: Payload)
    requires ParseCreateOwner(p).Ok?
    ensures p == EncodeCreateOwner(ParseCreateOwner(p).value)
  {
    var e := EncodeCreateOwner(ParseCreateOwner(p).value);
    assert p.Keys == e.Keys;
  }

  /**
   * Update validation accepts a body as a given DTO exactly when the DTO's
   * email, if any, is non-empty and the body holds its given fields and
   * nothing else.
   */
  lemma UpdateOwnerBodyExact(p: Payload, d: UpdateOwnerDto)
    ensures ParseUpdateOwner(p) == Ok(d) <==> d.Valid() && p == EncodeUpdateOwner(d)
  {
    var e := EncodeUpdateOwner(d);
    assert ("name" in e <==> d.name.Some?) && ("email" in e <==> d.email.Some?) && e.Keys <= OwnerKeys;
    if ParseUpdateOwner(p) == Ok(d) {
      assert p.Keys == e.Keys;
    }
  }
}
