/**
 * RolesGuard.canActivate as a pure decision over the @Roles metadata of the
 * handler and of its controller class, and the x-user-role request header.
 */
module RolesGuard {
  import opened Wrappers

  datatype UserRole = Admin | Vet

  /** The header value that names each role. */
  function Token(role: UserRole): string {
    match role
    case Admin => "admin"
    case Vet => "vet"
  }

  /** The @Roles metadata of a handler or a class: None when no decorator is attached. */
  type RoleMetadata = Option<seq<UserRole>>

  /** Reflector.getAllAndOverride over [handler, class]: the first declaration present wins. */
  function GetAllAndOverride(handler: RoleMetadata, cls: RoleMetadata): (effective: RoleMetadata)
    ensures effective.Some? <==> handler.Some? || cls.Some?
    ensures effective == handler || effective == cls
    ensures handler.Some? ==> effective == handler
  {
    if handler.Some? then handler else cls
  }

  /** `requiredRoles.includes(userRole)`, comparing each declared role by its header token. */
  function Includes(roles: seq<UserRole>, token: string): (found: bool)
    ensures found <==> exists i :: 0 <= i < |roles| && Token(roles[i]) == token
  {
    if roles == [] then false
    else if Token(roles[0]) == token then true
    else
      var rest := Includes(roles[1..], token);
      assert forall i :: 0 < i < |roles| ==> roles[i] == roles[1..][i - 1];
      rest
  }

  /**
   * canActivate: deny when neither the handler nor the class declares roles,
   * deny when the header is absent, otherwise allow exactly when the header
   * names one of the effective roles.
   */
  function CanActivate(handler: RoleMetadata, cls: RoleMetadata, roleHeader: Option<string>): (allowed: bool)
    ensures allowed <==>
      && GetAllAndOverride(handler, cls).Some?
      && roleHeader.Some?
      && exists role :: role in GetAllAndOverride(handler, cls).value && Token(role) == roleHeader.value
  {
    var required := GetAllAndOverride(handler, cls);
    if required.None? then false
    else
      match roleHeader
      case None => false
      case Some(token) => Includes(required.value, token)
  }

  /** Different roles are named by different header values. */
  lemma TokenInjective(r1: UserRole, r2: UserRole)
    ensures Token(r1) == Token(r2) <==> r1 == r2
  {
    if r1 != r2 {
      assert Token(r1)[0] != Token(r2)[0];
    }
  }

  /** An endpoint with no declaration on either the handler or the class is closed to everyone. */
  lemma DeniesWithoutDeclaration(roleHeader: Option<string>)
    ensures !CanActivate(None, None, roleHeader)
  {
  }

  /** A request without the header is denied, whatever is declared. */
  lemma DeniesWithoutHeader(handler: RoleMetadata, cls: RoleMetadata)
    ensures !CanActivate(handler, cls, None)
  {
  }

  /** With roles declared, a caller naming a role is allowed exactly when that role is declared. */
  lemma AllowsExactlyDeclaredRoles(handler: RoleMetadata, cls: RoleMetadata, role: UserRole)
    requires GetAllAndOverride(handler, cls).Some?
    ensures CanActivate(handler, cls, Some(Token(role))) <==> role in GetAllAndOverride(handler, cls).value
  {
    var roles := GetAllAndOverride(handler, cls).value;
    if CanActivate(handler, cls, Some(Token(role))) {
      var r :| r in roles && Token(r) == Token(role);
      TokenInjective(r, role);
    }
  }

  /** A handler-level declaration hides the class-level one completely. */
  lemma HandlerOverridesClass(roles: seq<UserRole>, cls: RoleMetadata, roleHeader: Option<string>)
    ensures CanActivate(Some(roles), cls, roleHeader) == CanActivate(Some(roles), None, roleHeader)
  {
  }

  /** An empty handler-level declaration still overrides the class: the endpoint is closed. */
  lemma EmptyDeclarationDeniesAll(cls: RoleMetadata, roleHeader: Option<string>)
    ensures !CanActivate(Some([]), cls, roleHeader)
  {
  }

  /** The decision depends only on the effective roles and the header value. */
  lemma DecisionDependsOnEffectiveRoles(h1: RoleMetadata, c1: RoleMetadata, h2: RoleMetadata, c2: RoleMetadata,
                                        roleHeader: Option<string>)
    requires GetAllAndOverride(h1, c1) == GetAllAndOverride(h2, c2)
    ensures CanActivate(h1, c1, roleHeader) == CanActivate(h2, c2, roleHeader)
  {
  }
}
