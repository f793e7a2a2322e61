/** The application's exception taxonomy (backend/app/middleware/error_handler.py):
    each exception class carries a default machine-readable code and HTTP status, and
    `to_dict` renders a Problem Details body with the members `type`, `title`, `status`,
    `detail` and `instance` of section 3.1 of RFC 7807 plus the extension members
    `code`, `details`, `tenant_id` and `user_id`. */
module ErrorHandler {
  import opened Wrappers
  import opened Json
  import opened Text

  /** The exception classes; `title` in the rendered body is the class name. */
  datatype ErrorClass =
    | TithiError
    | ValidationError
    | TenantError
    | AuthenticationError
    | AuthorizationError
    | BusinessLogicError
    | ExternalServiceError

  /** One `{"field": ..., "message": ...}`-style entry of a validation error. */
  type FieldError = map<string, string>

  /** An exception instance: its message, code, status and details dictionary.
      `fieldErrors` is only ever non-empty for a ValidationError. */
  datatype Error = Error(
    cls: ErrorClass,
    message: string,
    code: string,
    statusCode: int,
    details: map<string, Value>,
    fieldErrors: seq<FieldError>)

  /** The request-scoped values `to_dict` reads from Flask: `request.url` and the
      `tenant_id`/`user_id` attributes of `g`, each absent outside a request. */
  datatype RequestContext = RequestContext(url: Option<string>, tenantId: Option<string>, userId: Option<string>)

  /** The rendered Problem Details body. */
  datatype ProblemDetails = ProblemDetails(
    typeUri: string,
    title: string,
    detail: string,
    status: int,
    code: string,
    details: map<string, Value>,
    instance: Option<string>,
    tenantId: Option<string>,
    userId: Option<string>)

  const TypePrefix: string := "https://tithi.com/errors/"

  /** The subclasses of the base `TithiError`, which alone has no default code. */
  type Subclass = c: ErrorClass | c != TithiError witness ValidationError

  /** The code each subclass uses when the raiser gives none. */
  function DefaultCode(cls: Subclass): string {
    match cls
    case ValidationError => "TITHI_VALIDATION_ERROR"
    case TenantError => "TITHI_TENANT_ERROR"
    case AuthenticationError => "TITHI_AUTH_ERROR"
    case AuthorizationError => "TITHI_AUTHZ_ERROR"
    case BusinessLogicError => "TITHI_BUSINESS_ERROR"
    case ExternalServiceError => "TITHI_EXTERNAL_ERROR"
  }

  /** The HTTP status each class uses when the raiser gives none. */
  function DefaultStatus(cls: ErrorClass): int {
    match cls
    case TithiError => 500
    case ValidationError => 400
    case TenantError => 404
    case AuthenticationError => 401
    case AuthorizationError => 403
    case BusinessLogicError => 422
    case ExternalServiceError => 502
  }

  /** `TithiError(message, code, status_code=500, details=None)`: missing (or empty)
      details become an empty dictionary. */
  function NewTithiError(message: string, code: string, statusCode: int := 500,
                         details: Option<map<string, Value>> := None): (e: Error)
    ensures e.cls == TithiError && e.fieldErrors == []
    ensures e.message == message && e.code == code && e.statusCode == statusCode
    ensures details.Some? ==> e.details == details.value
    ensures details.None? ==> e.details == map[]
  {
    Error(TithiError, message, code, statusCode, details.GetOr(map[]), [])
  }

  /** `ValidationError(message, code=..., field_errors=None)`: the status is always 400
      and the details dictionary always holds the field errors under "field_errors". */
  function NewValidationError(message: string, code: string := DefaultCode(ValidationError),
                              fieldErrors: Option<seq<FieldError>> := None): (e: Error)
    ensures e.cls == ValidationError && e.statusCode == 400
    ensures e.message == message && e.code == code
    ensures fieldErrors.Some? ==> e.fieldErrors == fieldErrors.value
    ensures fieldErrors.None? ==> e.fieldErrors == []
    ensures e.details == map["field_errors" := FieldErrorsValue(e.fieldErrors)]
  {
    var fe := fieldErrors.GetOr([]);
    Error(ValidationError, message, code, 400, map["field_errors" := FieldErrorsValue(fe)], fe)
  }

  /** The JSON list a field-error list is stored as. */
  function FieldErrorsValue(fe: seq<FieldError>): (v: Value)
    ensures v.Arr? && |v.items| == |fe|
  {
    Arr(seq(|fe|, i requires 0 <= i < |fe| => Obj(map k | k in fe[i] :: Str(fe[i][k]))))
  }

  /** The constructors of TenantError, AuthenticationError, AuthorizationError,
      BusinessLogicError and ExternalServiceError, which share one shape:
      `(message, code=<class default>, status_code=<class default>)`. */
  function NewSubclassError(cls: Subclass, message: string, code: string := DefaultCode(cls),
                            statusCode: int := DefaultStatus(cls)): (e: Error)
    requires cls != ValidationError
    ensures e.cls == cls && e.details == map[] && e.fieldErrors == []
    ensures e.message == message && e.code == code && e.statusCode == statusCode
  {
    Error(cls, message, code, statusCode, map[], [])
  }

  /** `self.__class__.__name__`. */
  function ClassName(cls: ErrorClass): string {
    match cls
    case TithiError => "TithiError"
    case ValidationError => "ValidationError"
    case TenantError => "TenantError"
    case AuthenticationError => "AuthenticationError"
    case AuthorizationError => "AuthorizationError"
    case BusinessLogicError => "BusinessLogicError"
    case ExternalServiceError => "ExternalServiceError"
  }

  /** The class a rendered `title` names, if any. */
  function ClassOfTitle(title: string): (r: Option<ErrorClass>)
    ensures r.Some? ==> ClassName(r.value) == title
  {
    if title == "TithiError" then Some(TithiError)
    else if title == "ValidationError" then Some(ValidationError)
    else if title == "TenantError" then Some(TenantError)
    else if title == "AuthenticationError" then Some(AuthenticationError)
    else if title == "AuthorizationError" then Some(AuthorizationError)
    else if title == "BusinessLogicError" then Some(BusinessLogicError)
    else if title == "ExternalServiceError" then Some(ExternalServiceError)
    else None
  }

  /** Codes are written in upper case, digits and underscores (`TITHI_...`). */
  predicate IsCodeShaped(code: string) {
    NoLower(code)
  }

  /** `to_dict`: the Problem Details body for an error raised during `ctx`. */
  function ToDict(e: Error, ctx: RequestContext): (r: ProblemDetails)
    ensures |r.typeUri| == |TypePrefix| + |e.code| && r.typeUri[..|TypePrefix|] == TypePrefix
    ensures forall i :: |TypePrefix| <= i < |r.typeUri| ==> !IsUpper(r.typeUri[i])
    ensures r.typeUri == TypePrefix + Lower(e.code)
    ensures r.status == e.statusCode && r.detail == e.message && r.code == e.code
    ensures r.title == ClassName(e.cls) && ClassOfTitle(r.title) == Some(e.cls)
    ensures r.instance == ctx.url && r.tenantId == ctx.tenantId && r.userId == ctx.userId
    ensures e.cls == ValidationError ==> r.details == e.details["field_errors" := FieldErrorsValue(e.fieldErrors)]
    ensures e.cls != ValidationError ==> r.details == e.details
  {
    var base := ProblemDetails(TypePrefix + Lower(e.code), ClassName(e.cls), e.message, e.statusCode,
                               e.code, e.details, ctx.url, ctx.tenantId, ctx.userId);
    if e.cls == ValidationError
    then base.(details := base.details["field_errors" := FieldErrorsValue(e.fieldErrors)])
    else base
  }

  /** The code a `type` URI was rendered from, for codes written in upper case. */
  function CodeOfTypeUri(typeUri: string): Option<string> {
    if |typeUri| >= |TypePrefix| && typeUri[..|TypePrefix|] == TypePrefix
    then Some(Upper(typeUri[|TypePrefix|..]))
    else None
  }

  /** The `type` member identifies the error code: for upper-case codes the code is
      recovered from the URI, so distinct codes never share a problem type. */
  lemma TypeUriIdentifiesCode(e: Error, ctx: RequestContext)
    requires IsCodeShaped(e.code)
    ensures CodeOfTypeUri(ToDict(e, ctx).typeUri) == Some(e.code)
  {
    var uri := ToDict(e, ctx).typeUri;
    assert uri[|TypePrefix|..] == Lower(e.code);
    UpperOfLower(e.code);
  }

  /** The title names exactly one class: distinct classes render distinct titles. */
  lemma TitleIdentifiesClass(a: ErrorClass, b: ErrorClass)
    requires ClassName(a) == ClassName(b)
    ensures a == b
  {
    assert ClassOfTitle(ClassName(a)) == Some(a);
    assert ClassOfTitle(ClassName(b)) == Some(b);
  }

  /** Each subclass raised with its defaults carries the documented code and status, and
      the statuses are client errors except for the upstream failure (502). */
  lemma SubclassDefaults(message: string)
    ensures var v := NewValidationError(message); v.code == "TITHI_VALIDATION_ERROR" && v.statusCode == 400
    ensures var t := NewSubclassError(TenantError, message); t.code == "TITHI_TENANT_ERROR" && t.statusCode == 404
    ensures var a := NewSubclassError(AuthenticationError, message); a.code == "TITHI_AUTH_ERROR" && a.statusCode == 401
    ensures var z := NewSubclassError(AuthorizationError, message); z.code == "TITHI_AUTHZ_ERROR" && z.statusCode == 403
    ensures var b := NewSubclassError(BusinessLogicError, message); b.code == "TITHI_BUSINESS_ERROR" && b.statusCode == 422
    ensures var x := NewSubclassError(ExternalServiceError, message); x.code == "TITHI_EXTERNAL_ERROR" && x.statusCode == 502
    ensures forall code: string :: NewTithiError(message, code).statusCode == 500
  {
  }

  /** A validation error's body always lists its field errors, and lists none when the
      raiser gave none. */
  lemma ValidationBodyCarriesFieldErrors(message: string, fe: Option<seq<FieldError>>, ctx: RequestContext)
    ensures var d := ToDict(NewValidationError(message, fieldErrors := fe), ctx).details;
            "field_errors" in d && d["field_errors"].Arr? &&
            |d["field_errors"].items| == |fe.GetOr([])|
    ensures fe.None? ==> ToDict(NewValidationError(message), ctx).details["field_errors"] == Arr([])
  {
  }
}
