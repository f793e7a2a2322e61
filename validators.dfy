/** The input checks shared by the business services (`BaseService` in
    backend/app/services/business_phase2.py) and the service-catalogue checks of
    `ServiceService.create_service` / `update_service`. */
module Validators {
  import opened Wrappers
  import opened Json
  import opened Text

  /** `BusinessConfig`. */
  const DefaultBusinessStartHour: int := 9
  const DefaultBusinessEndHour: int := 17
  const MaxBookingDurationHours: int := 8
  const MaxRetryAttempts: int := 3

  /** The exceptions the business services raise: the module's own ValidationError,
      BusinessLogicError and DatabaseError, and Python's built-in ones. */
  datatype ServiceError =
    | ValidationError(message: string)
    | BusinessLogicError(message: string)
    | DatabaseError(message: string)
    | ValueError(message: string)
    | TypeError(message: string)
    | AttributeError(message: string)

  // ---------------------------------------------------------------------------
  // _validate_required_fields
  // ---------------------------------------------------------------------------

  /** A field is missing when its key is absent or its value is None. */
  predicate Missing(data: map<string, Value>, field: string) {
    field !in data || data[field] == Null
  }

  /** The missing fields, in the order they are required. */
  function MissingFields(data: map<string, Value>, required: seq<string>): (missing: seq<string>)
    ensures |missing| <= |required|
    ensures forall f :: f in missing <==> f in required && Missing(data, f)
  {
    if required == [] then []
    else (if Missing(data, required[0]) then [required[0]] else []) + MissingFields(data, required[1..])
  }

  /** `_validate_required_fields`: passes iff every required field is present and not
      None, and otherwise names every missing field. */
  function ValidateRequiredFields(data: map<string, Value>, required: seq<string>): (r: Result<(), ServiceError>)
    ensures r.Ok? <==> forall f :: f in required ==> !Missing(data, f)
    ensures r.Err? ==> r.error == ValidationError("Missing required fields: " + Join(MissingFields(data, required), ", "))
  {
    var missing := MissingFields(data, required);
    if missing != [] then
      assert missing[0] in missing;
      Err(ValidationError("Missing required fields: " + Join(missing, ", ")))
    else
      assert forall f :: f in required ==> !Missing(data, f) by {
        forall f | f in required ensures !Missing(data, f) {
          assert f in missing <==> Missing(data, f);
        }
      }
      Ok(())
  }

  // ---------------------------------------------------------------------------
  // _validate_uuid
  // ---------------------------------------------------------------------------

  function Pow16(n: nat): (r: nat)
    ensures r > 0
  {
    if n == 0 then 1 else 16 * Pow16(n - 1)
  }

  /** A 128-bit identifier. */
  type Uuid = n: nat | n < Pow16(32)

  /** The argument `_validate_uuid` receives: a string, a `uuid.UUID`, or a value of
      some other Python type (named by its type name). */
  datatype UuidArg = UuidText(text: string) | UuidValue(u: Uuid) | OtherArg(typeName: string)

  predicate IsHexDigit(c: char) {
    IsDigit(c) || 'a' <= c <= 'f' || 'A' <= c <= 'F'
  }

  function HexDigitValue(c: char): (d: nat)
    requires IsHexDigit(c)
    ensures d < 16
  {
    if IsDigit(c) then DigitValue(c)
    else if 'a' <= c <= 'f' then c as int - 'a' as int + 10
    else c as int - 'A' as int + 10
  }

  predicate AllHex(s: string) {
    forall i :: 0 <= i < |s| ==> IsHexDigit(s[i])
  }

  function HexValue(s: string): (n: nat)
    requires AllHex(s)
    ensures n < Pow16(|s|)
  {
    if s == [] then 0 else HexValue(s[..|s| - 1]) * 16 + HexDigitValue(s[|s| - 1])
  }

  /** `s.replace(pat, "")`: every non-overlapping occurrence removed, left to right. */
  function RemoveAll(s: string, pat: string): (r: string)
    requires |pat| > 0
    ensures |r| <= |s|
    decreases |s|
  {
    if |s| < |pat| then s
    else if s[..|pat|] == pat then RemoveAll(s[|pat|..], pat)
    else [s[0]] + RemoveAll(s[1..], pat)
  }

  predicate IsBrace(c: char) { c == '{' || c == '}' }

  /** `s.strip('{}')`. */
  function StripBraces(s: string): (r: string)
    ensures |r| <= |s|
    decreases |s|
  {
    if s == [] then s
    else if IsBrace(s[0]) then StripBraces(s[1..])
    else if IsBrace(s[|s| - 1]) then StripBraces(s[..|s| - 1])
    else s
  }

  /** `uuid.UUID(text)` on hexadecimal digits: drop `urn:` and `uuid:`, strip braces,
      drop dashes, then demand exactly 32 hex digits; `None` where it raises ValueError. */
  function ParseUuid(text: string): (r: Option<Uuid>)
  {
    var h := RemoveAll(StripBraces(RemoveAll(RemoveAll(text, "urn:"), "uuid:")), "-");
    if |h| == 32 && AllHex(h) then Some(HexValue(h)) else None
  }

  /** `_validate_uuid`. */
  function ValidateUuid(value: UuidArg, fieldName: string): (r: Result<Uuid, ServiceError>)
    ensures value.UuidValue? ==> r == Ok(value.u)
    ensures value.UuidText? ==> (r.Ok? <==> ParseUuid(value.text).Some?)
    ensures value.UuidText? && r.Ok? ==> ParseUuid(value.text) == Some(r.value)
    ensures value.UuidText? && r.Err? ==> r.error == ValidationError("Invalid UUID format for " + fieldName)
    ensures value.OtherArg? ==>
              r == Err(ValidationError("Invalid type for " + fieldName + ", expected UUID or string"))
  {
    if value.UuidValue? then Ok(value.u)
    else if value.UuidText? then
      var parsed := ParseUuid(value.text);
      if parsed.Some? then Ok(parsed.value) else Err(ValidationError("Invalid UUID format for " + fieldName))
    else Err(ValidationError("Invalid type for " + fieldName + ", expected UUID or string"))
  }

  function HexChar(d: nat): (c: char)
    requires d < 16
    ensures IsHexDigit(c) && HexDigitValue(c) == d
  {
    if d < 10 then DigitChar(d) else ('a' as int + d - 10) as char
  }

  /** The low `width` hex digits of `n`, most significant first, lower case. */
  function ToHex(n: nat, width: nat): (s: string)
    ensures |s| == width && AllHex(s)
    ensures forall i :: 0 <= i < |s| ==> s[i] != '-' && s[i] != ':' && !IsBrace(s[i])
  {
    if width == 0 then [] else ToHex(n / 16, width - 1) + [HexChar(n % 16)]
  }

  /** The five groups of 8, 4, 4, 4 and 12 digits of a 32-digit text. */
  function UuidGroups(h: string): seq<string>
    requires |h| == 32
  {
    [h[..8], h[8..12], h[12..16], h[16..20], h[20..]]
  }

  /** `str(u)`: 8-4-4-4-12 lower-case hex digits separated by dashes. */
  function FormatUuid(u: Uuid): string {
    Join(UuidGroups(ToHex(u, 32)), "-")
  }

  function Concat(parts: seq<string>): string {
    if parts == [] then "" else parts[0] + Concat(parts[1..])
  }

  lemma {:induction false} HexValueOfToHex(n: nat, width: nat)
    requires n < Pow16(width)
    ensures HexValue(ToHex(n, width)) == n
  {
    if width > 0 {
      var s := ToHex(n, width);
      assert s[..|s| - 1] == ToHex(n / 16, width - 1);
      HexValueOfToHex(n / 16, width - 1);
    }
  }

  lemma {:induction false} RemoveAbsent(s: string, pat: string, c: char)
    requires |pat| > 0 && c in pat && c !in s
    ensures RemoveAll(s, pat) == s
    decreases |s|
  {
    if |s| >= |pat| {
      assert c !in s[..|pat|];
      assert s[..|pat|] != pat;
      RemoveAbsent(s[1..], pat, c);
    }
  }

  lemma {:induction false} RemoveDashes(h: string)
    requires DashFree(h)
    ensures RemoveAll(h, "-") == h
    decreases |h|
  {
    if |h| >= 1 {
      RemoveDashes(h[1..]);
    }
  }

  predicate DashFree(s: string) {
    forall i :: 0 <= i < |s| ==> s[i] != '-'
  }

  /** Removing the dashes of dash-joined dash-free parts concatenates the parts. */
  lemma {:induction false} RemoveDashesOfJoin(parts: seq<string>)
    requires forall k :: 0 <= k < |parts| ==> DashFree(parts[k])
    ensures RemoveAll(Join(parts, "-"), "-") == Concat(parts)
  {
    if |parts| == 1 {
      RemoveDashes(parts[0]);
      assert Concat(parts) == parts[0] + Concat([]);
    } else if |parts| > 1 {
      RemoveDashesOfJoin(parts[1..]);
      RemoveDashSplit(parts[0], Join(parts[1..], "-"));
    }
  }

  /** The five groups of 32 hex digits concatenate back to the digits. */
  lemma ConcatOfGroups(h: string)
    requires |h| == 32
    ensures Concat(UuidGroups(h)) == h
  {
    var g := UuidGroups(h);
    assert g[1..][1..][1..][1..][1..] == [];
    assert Concat(g[1..][1..][1..][1..]) == h[20..];
    assert Concat(g[1..][1..][1..]) == h[16..20] + h[20..] == h[16..];
    assert Concat(g[1..][1..]) == h[12..16] + h[16..] == h[12..];
    assert Concat(g[1..]) == h[8..12] + h[12..] == h[8..];
    assert Concat(g) == h[..8] + h[8..] == h;
  }

  /** Removing the dashes of a formatted identifier recovers its 32 hex digits. */
  lemma RemoveDashesOfFormat(u: Uuid)
    ensures RemoveAll(FormatUuid(u), "-") == ToHex(u, 32)
  {
    var h := ToHex(u, 32);
    var g := UuidGroups(h);
    forall k | 0 <= k < |g| ensures DashFree(g[k]) {}
    RemoveDashesOfJoin(g);
    ConcatOfGroups(h);
  }

  /** Dashes removed around one dash: `(a + "-" + b).replace("-", "")` for dash-free `a`. */
  lemma {:induction false} RemoveDashSplit(a: string, b: string)
    requires DashFree(a)
    ensures RemoveAll(a + "-" + b, "-") == a + RemoveAll(b, "-")
    decreases |a|
  {
    if a == [] {
      assert (a + "-" + b)[1..] == b;
    } else {
      assert (a + "-" + b)[1..] == a[1..] + "-" + b;
      RemoveDashSplit(a[1..], b);
    }
  }

  /** Text with no colon and no brace. */
  predicate Plain(s: string) {
    forall i :: 0 <= i < |s| ==> s[i] != ':' && !IsBrace(s[i])
  }

  lemma {:induction false} PlainJoin(parts: seq<string>)
    requires forall k :: 0 <= k < |parts| ==> Plain(parts[k])
    ensures Plain(Join(parts, "-"))
  {
    if |parts| > 1 {
      PlainJoin(parts[1..]);
    }
  }

  /** The canonical text of an identifier parses back to it. */
  lemma ParseFormatRoundTrip(u: Uuid)
    ensures ParseUuid(FormatUuid(u)) == Some(u)
    ensures ValidateUuid(UuidText(FormatUuid(u)), "id") == Ok(u)
  {
    var s := FormatUuid(u);
    var h := ToHex(u, 32);
    var g := UuidGroups(h);
    forall k | 0 <= k < |g| ensures Plain(g[k]) {}
    PlainJoin(g);
    assert ':' !in s;
    RemoveAbsent(s, "urn:", ':');
    RemoveAbsent(s, "uuid:", ':');
    assert StripBraces(s) == s;
    RemoveDashesOfFormat(u);
    HexValueOfToHex(u, 32);
  }

  // ---------------------------------------------------------------------------
  // _validate_positive_number and int()
  // ---------------------------------------------------------------------------

  /** Python's `int(v)` on a decoded value: booleans are 0/1, strings are parsed,
      None, lists and dicts raise TypeError, malformed strings ValueError. */
  function PyInt(v: Value): (r: Result<int, ServiceError>)
    ensures r.Err? ==> r.error.ValueError? || r.error.TypeError?
    ensures v.Int? ==> r == Ok(v.i)
  {
    if v.Int? then Ok(v.i)
    else if v.Bool? then Ok(if v.b then 1 else 0)
    else if v.Str? then
      var n := ParseInt(v.s);
      if n.Some? then Ok(n.value) else Err(ValueError("invalid literal for int() with base 10"))
    else Err(TypeError("int() argument must be a string, a bytes-like object or a real number, not '"
                       + PyTypeName(v) + "'"))
  }

  /** `_validate_positive_number(value, field, min_value)`: the integer value when it is
      at least `min_value`; a conversion failure and a value below the minimum are
      reported as two different ValidationErrors. */
  function ValidatePositiveNumber(value: Value, fieldName: string, minValue: int := 0): (r: Result<int, ServiceError>)
    ensures r.Ok? <==> PyInt(value).Ok? && PyInt(value).value >= minValue
    ensures r.Ok? ==> r.value == PyInt(value).value
    ensures r.Err? ==> r.error.ValidationError?
    ensures PyInt(value).Err? ==> r == Err(ValidationError("Invalid number format for " + fieldName))
  {
    match PyInt(value)
    case Err(_) => Err(ValidationError("Invalid number format for " + fieldName))
    case Ok(n) =>
      if n < minValue then Err(ValidationError(fieldName + " must be >= " + IntToString(minValue)))
      else Ok(n)
  }

  /** A number sent as its decimal text is accepted exactly when the number itself is. */
  lemma NumberTextAccepted(n: int, fieldName: string, minValue: int)
    ensures ValidatePositiveNumber(Str(IntToString(n)), fieldName, minValue)
            == ValidatePositiveNumber(Int(n), fieldName, minValue)
  {
    ParseIntOfIntToString(n);
  }

  /** `_validate_datetime_range`: the start must be strictly before the end. */
  function ValidateDatetimeRange(startAt: int, endAt: int): (r: Result<(), ServiceError>)
    ensures r.Ok? <==> startAt < endAt
  {
    if startAt >= endAt then Err(ValidationError("Start time must be before end time")) else Ok(())
  }

  // ---------------------------------------------------------------------------
  // ServiceService.create_service / update_service
  // ---------------------------------------------------------------------------

  const MaxDurationMinutes: int := MaxBookingDurationHours * 60

  /** The catalogue fields the checks decide on: `slug` is the given value or the
      name lower-cased with spaces turned into dashes. */
  datatype ServiceDraft = ServiceDraft(name: string, slug: Value, durationMin: int, priceCents: int, active: Value)

  /** The fields `create_service` requires. */
  const ServiceFields: seq<string> := ["name", "duration_min", "price_cents"]

  /** The refusal of a duration above the eight-hour cap. */
  const DurationCapError: ServiceError :=
    ValidationError("Duration cannot exceed " + IntToString(MaxBookingDurationHours) + " hours")

  /** Data that passes the required-fields check holds all three fields. */
  lemma ServiceFieldsPresent(data: map<string, Value>)
    requires ValidateRequiredFields(data, ServiceFields).Ok?
    ensures "name" in data && "duration_min" in data && "price_cents" in data
  {
    assert ServiceFields[0] in ServiceFields && ServiceFields[1] in ServiceFields && ServiceFields[2] in ServiceFields;
  }

  /** The checks of `create_service`, in order: required fields, the raw `int()` of the
      price (its own exceptions propagate) and its sign, the duration validator
      (minimum 1) and the eight-hour cap, then the slug default, whose
      `name.lower()` runs even when a slug is given. */
  function CreateService(data: map<string, Value>): (r: Result<ServiceDraft, ServiceError>)
    ensures r.Ok? ==> r.value.priceCents >= 0
    ensures r.Ok? ==> 1 <= r.value.durationMin <= MaxDurationMinutes
    ensures r.Ok? ==> "name" in data && data["name"] == Str(r.value.name)
    ensures r.Ok? ==> r.value.slug == (if "slug" in data then data["slug"]
                                       else Str(ReplaceChar(Lower(r.value.name), ' ', '-')))
    ensures r.Ok? ==> r.value.active == Get(data, "active", Bool(true))
    ensures ValidateRequiredFields(data, ServiceFields).Err? ==>
              r == Err(ValidateRequiredFields(data, ServiceFields).error)
    ensures ValidateRequiredFields(data, ServiceFields).Ok? && "price_cents" in data && "duration_min" in data ==>
              var price := PyInt(data["price_cents"]);
              var duration := ValidatePositiveNumber(data["duration_min"], "duration_min", 1);
              && (price.Err? ==> r == Err(price.error))
              && (price.Ok? && price.value < 0 ==> r == Err(ValueError("Price cannot be negative")))
              && (price.Ok? && price.value >= 0 && duration.Err? ==> r == Err(duration.error))
              && (price.Ok? && price.value >= 0 && duration.Ok? && duration.value > MaxDurationMinutes ==>
                    r == Err(DurationCapError))
              && (price.Ok? && price.value >= 0 && duration.Ok? && duration.value <= MaxDurationMinutes ==>
                    (r.Ok? <==> "name" in data && data["name"].Str?) &&
                    (r.Ok? ==> r.value.priceCents == price.value && r.value.durationMin == duration.value))
  {
    var fields := ValidateRequiredFields(data, ServiceFields);
    if fields.Err? then Err(fields.error)
    else
      ServiceFieldsPresent(data);
      var price := PyInt(data["price_cents"]);
      if price.Err? then Err(price.error)
      else if price.value < 0 then Err(ValueError("Price cannot be negative"))
      else
        var duration := ValidatePositiveNumber(data["duration_min"], "duration_min", 1);
        if duration.Err? then Err(duration.error)
        else if duration.value > MaxDurationMinutes then Err(DurationCapError)
        else if !data["name"].Str? then
          Err(AttributeError("'" + PyTypeName(data["name"]) + "' object has no attribute 'lower'"))
        else
          var name := data["name"].s;
          var slug := if "slug" in data then data["slug"] else Str(ReplaceChar(Lower(name), ' ', '-'));
          Ok(ServiceDraft(name, slug, duration.value, price.value, Get(data, "active", Bool(true))))
  }

  /** The checks of `update_service`: a given price goes through the validator with
      minimum 0, a given duration with minimum 1 and the eight-hour cap; both are
      replaced by their integer values and every other field is passed on as given. */
  function UpdateServiceChecks(update: map<string, Value>): (r: Result<map<string, Value>, ServiceError>)
    ensures r.Ok? <==>
              ("price_cents" in update ==> ValidatePositiveNumber(update["price_cents"], "price_cents").Ok?) &&
              ("duration_min" in update ==>
                 var d := ValidatePositiveNumber(update["duration_min"], "duration_min", 1);
                 d.Ok? && d.value <= MaxDurationMinutes)
    ensures r.Ok? ==> r.value.Keys == update.Keys
    ensures r.Ok? && "price_cents" in update ==>
              r.value["price_cents"] == Int(ValidatePositiveNumber(update["price_cents"], "price_cents").value)
    ensures r.Ok? && "duration_min" in update ==>
              r.value["duration_min"] == Int(ValidatePositiveNumber(update["duration_min"], "duration_min", 1).value)
    ensures r.Ok? && "price_cents" in update ==> r.value["price_cents"].Int? && r.value["price_cents"].i >= 0
    ensures r.Ok? && "duration_min" in update ==>
              r.value["duration_min"].Int? && 1 <= r.value["duration_min"].i <= MaxDurationMinutes
    ensures r.Ok? ==> forall k :: k in update && k != "price_cents" && k != "duration_min" ==> r.value[k] == update[k]
    ensures "price_cents" in update && ValidatePositiveNumber(update["price_cents"], "price_cents").Err? ==>
              r == Err(ValidatePositiveNumber(update["price_cents"], "price_cents").error)
    ensures r.Err? ==> r.error.ValidationError?
  {
    var priced :=
      if "price_cents" !in update then Ok(update)
      else
        var p := ValidatePositiveNumber(update["price_cents"], "price_cents");
        if p.Err? then Err(p.error) else Ok(update["price_cents" := Int(p.value)]);
    if priced.Err? then Err(priced.error)
    else
      var u := priced.value;
      assert "duration_min" in u <==> "duration_min" in update;
      if "duration_min" !in u then Ok(u)
      else
        assert u["duration_min"] == update["duration_min"];
        var d := ValidatePositiveNumber(u["duration_min"], "duration_min", 1);
        if d.Err? then Err(d.error)
        else if d.value > MaxDurationMinutes then Err(DurationCapError)
        else Ok(u["duration_min" := Int(d.value)])
  }

  /** Create and update agree on which integer prices are acceptable, although create
      reports a negative price as a ValueError and update as a ValidationError. */
  lemma PriceGuardsAgree(data: map<string, Value>, price: int)
    requires "name" in data && data["name"].Str?
    requires "duration_min" in data && data["duration_min"] == Int(60)
    requires "price_cents" in data && data["price_cents"] == Int(price)
    ensures CreateService(data).Ok? <==> price >= 0
    ensures UpdateServiceChecks(map["price_cents" := Int(price)]).Ok? <==> price >= 0
    ensures price < 0 ==> CreateService(data) == Err(ValueError("Price cannot be negative"))
    ensures price < 0 ==> UpdateServiceChecks(map["price_cents" := Int(price)]).Err?
  {
    assert ValidateRequiredFields(data, ServiceFields).Ok?;
  }

  /** The duration cap is inclusive: 480 minutes is accepted and 481 is not, on both
      paths. */
  lemma DurationCapInclusive()
    ensures UpdateServiceChecks(map["duration_min" := Int(480)]).Ok?
    ensures UpdateServiceChecks(map["duration_min" := Int(481)]).Err?
    ensures UpdateServiceChecks(map["duration_min" := Int(0)]).Err?
  {
  }
}
