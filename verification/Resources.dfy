/** The Kubernetes compute resources: limits and requests adjusted to each other. */
module Resources {
  import opened Options

  /** A resource specification: resource name to quantity text; a value may be absent. */
  type Spec = map<string, Option<string>>

  /** The same without absent or empty values. */
  type Amounts = map<string, string>

  /** `parse_quantity` and `str` of a decimal without trailing zeros. */
  datatype Quantities = Quantities(parse: string -> Option<real>, show: real -> string)

  ghost predicate Milli(x: real) { (1000.0 * x).Floor as real == 1000.0 * x }

  ghost predicate Whole(x: real) { x.Floor as real == x }

  /** What is shown to the third decimal can be read again; the empty text is no quantity. */
  ghost predicate GoodQuantities(q: Quantities) {
    q.parse("") == None && forall x: real :: x >= 0.0 && Milli(x) ==> q.parse(q.show(x)) == Some(x)
  }

  datatype Fault =
    | InvalidLimits
    | InvalidRequests
    /** A memory amount strictly between zero and one byte: the remainder by zero is undefined. */
    | PartOfByte

  datatype Result<T> = Ok(value: T) | Err(fault: Fault)

  datatype Requirements = Requirements(limits: Amounts, requests: Amounts)

  // ---- Rounding -------------------------------------------------------------------------

  function Ceil(x: real): int { -(-x).Floor }

  /** To three decimals, away from zero; quantities are not negative. */
  function RoundUp(x: real): real { Ceil(1000.0 * x) as real / 1000.0 }

  lemma CeilLeast(y: real, k: int)
    ensures Ceil(y) as real - 1.0 < y <= Ceil(y) as real
    ensures Ceil(y) <= k <==> y <= k as real
  {
    var f := (-y).Floor;
    assert f as real <= -y < f as real + 1.0;
    if y <= k as real {
      assert (-k) as real < f as real + 1.0;
    }
  }

  lemma FloorOfInt(k: int)
    ensures (k as real).Floor == k
  {}

  /** A multiple of 0.001 and its integer multiple. */
  lemma MilliOf(k: int)
    ensures Milli(k as real / 1000.0)
  {
    var x := k as real / 1000.0;
    assert 1000.0 * x == k as real;
    FloorOfInt(k);
  }

  /** The least multiple of 0.001 that is not below, which is less than 0.001 above. */
  lemma RoundUpLeast(x: real, m: real)
    requires Milli(m)
    ensures Milli(RoundUp(x)) && x <= RoundUp(x) < x + 0.001
    ensures RoundUp(x) <= m <==> x <= m
  {
    var y, k := 1000.0 * x, (1000.0 * m).Floor;
    CeilLeast(y, k);
    MilliOf(Ceil(y));
    assert m == k as real / 1000.0;
  }

  lemma RoundUpFixes(x: real)
    requires Milli(x)
    ensures RoundUp(x) == x
  {
    RoundUpLeast(x, x);
  }

  lemma WholeIsMilli(x: real)
    requires Whole(x)
    ensures Milli(x) && RoundUp(x) == x
  {
    var k := 1000 * x.Floor;
    assert x == k as real / 1000.0;
    MilliOf(k);
    RoundUpFixes(x);
  }

  // ---- Specification --------------------------------------------------------------------

  predicate Empty(v: Option<string>) { v == None || v.value == "" }

  predicate ValidEntry(q: Quantities, key: string, v: Option<string>) {
    && key in {"cpu", "memory"}
    && (v == None || (q.parse(v.value).Some? && q.parse(v.value).value >= 0.0))
  }

  ghost predicate ValidSpec(q: Quantities, spec: Option<Spec>) {
    spec == None || forall k :: k in spec.value ==> ValidEntry(q, k, spec.value[k])
  }

  /** The values that say something. */
  function Given(spec: Spec): Amounts {
    map k | k in spec && !Empty(spec[k]) :: spec[k].value
  }

  /** A memory amount in whole bytes, rounded up. */
  function WholeBytes(q: Quantities, text: string): Result<string> {
    match q.parse(text)
    case None => Ok(text)
    case Some(x) =>
      if x == 0.0 then Ok(text)
      else if x.Floor == 0 then Err(PartOfByte)
      else if x == x.Floor as real then Ok(text)
      else Ok(q.show(Ceil(x) as real))
  }

  function Sanitized(q: Quantities, spec: Option<Spec>): Result<Amounts> {
    if spec == None then Ok(map[])
    else
      var given := Given(spec.value);
      if "memory" !in given then Ok(given)
      else
        match WholeBytes(q, given["memory"])
        case Err(f) => Err(f)
        case Ok(text) => Ok(given["memory" := text])
  }

  /** The amount of a text already known to be a quantity. */
  function Amount(q: Quantities, text: string): real {
    match q.parse(text) case Some(x) => x case None => 0.0
  }

  function Max(x: real, y: real): real { if x < y then y else x }

  function RaisedLimit(q: Quantities, limit: string, request: string): string {
    q.show(RoundUp(Max(Amount(q, request), Amount(q, limit))))
  }

  /** Limits become requests where there is none; then each limit is raised to its request. */
  function Raised(q: Quantities, limits: Amounts, requests: Amounts): Requirements {
    var asked := limits + requests;
    Requirements(map k | k in limits :: RaisedLimit(q, limits[k], asked[k]), asked)
  }

  ghost function Adjusted(q: Quantities, limits: Option<Spec>, requests: Option<Spec>): Result<Requirements> {
    if !ValidSpec(q, limits) then Err(InvalidLimits)
    else if !ValidSpec(q, requests) then Err(InvalidRequests)
    else
      match Sanitized(q, limits)
      case Err(f) => Err(f)
      case Ok(above) =>
        match Sanitized(q, requests)
        case Err(f) => Err(f)
        case Ok(below) => Ok(Raised(q, above, below))
  }

  // ---- The algorithm --------------------------------------------------------------------

  method IsValidSpec(q: Quantities, spec: Option<Spec>) returns (valid: bool)
    ensures valid == ValidSpec(q, spec)
  {
    if spec == None {
      return true;
    }
    var left := spec.value.Keys;
    while left != {}
      invariant left <= spec.value.Keys
      invariant forall k :: k in spec.value.Keys - left ==> ValidEntry(q, k, spec.value[k])
    {
      var k :| k in left;
      if !ValidEntry(q, k, spec.value[k]) {
        return false;
      }
      left := left - {k};
    }
    return true;
  }

  method SanitizeResourceSpec(q: Quantities, spec: Option<Spec>) returns (r: Result<Amounts>)
    ensures r == Sanitized(q, spec)
  {
    if spec == None {
      return Ok(map[]);
    }
    var d: Spec := spec.value;
    var left := spec.value.Keys;
    while left != {}
      invariant left <= spec.value.Keys
      invariant forall k :: k in d <==> k in left || (k in spec.value && !Empty(spec.value[k]))
      invariant forall k :: k in d ==> d[k] == spec.value[k]
    {
      var k :| k in left;
      if Empty(spec.value[k]) {
        d := d - {k};
      }
      left := left - {k};
    }
    var kept: Amounts := map k | k in d :: d[k].value;
    assert kept == Given(spec.value);
    if "memory" in kept {
      var text := WholeBytes(q, kept["memory"]);
      if text.Err? {
        return Err(text.fault);
      }
      kept := kept["memory" := text.value];
    }
    return Ok(kept);
  }

  method Raise(q: Quantities, limits: Amounts, requests: Amounts) returns (out: Requirements)
    ensures out == Raised(q, limits, requests)
  {
    var adjusted, fixed := limits, requests;
    fixed := fixed + map k | k in limits && k !in requests :: limits[k];
    assert fixed == limits + requests;
    var left := adjusted.Keys;
    while left != {}
      invariant left <= limits.Keys == adjusted.Keys
      invariant forall k :: k in left ==> adjusted[k] == limits[k]
      invariant forall k :: k in limits.Keys - left ==> adjusted[k] == RaisedLimit(q, limits[k], fixed[k])
    {
      var k :| k in left;
      var raised := Max(Amount(q, fixed[k]), Amount(q, adjusted[k]));
      adjusted := adjusted[k := q.show(RoundUp(raised))];
      left := left - {k};
    }
    assert adjusted == Raised(q, limits, requests).limits;
    return Requirements(adjusted, fixed);
  }

  method AdjustResourceRequirements(q: Quantities, limits: Option<Spec>, requests: Option<Spec>)
    returns (r: Result<Requirements>)
    ensures r == Adjusted(q, limits, requests)
  {
    var valid := IsValidSpec(q, limits);
    if !valid {
      return Err(InvalidLimits);
    }
    valid := IsValidSpec(q, requests);
    if !valid {
      return Err(InvalidRequests);
    }
    var above := SanitizeResourceSpec(q, limits);
    if above.Err? {
      return Err(above.fault);
    }
    var below := SanitizeResourceSpec(q, requests);
    if below.Err? {
      return Err(below.fault);
    }
    var out := Raise(q, above.value, below.value);
    return Ok(out);
  }

  // ---- What it achieves -----------------------------------------------------------------

  /** The memory of a specification is zero, at least a byte, or the cause of the failure. */
  ghost predicate MemoryFits(q: Quantities, spec: Option<Spec>) {
    spec == None || "memory" !in spec.value || Empty(spec.value["memory"])
    || Amount(q, spec.value["memory"].value) == 0.0 || Amount(q, spec.value["memory"].value) >= 1.0
  }

  /** Every key is cpu or memory, and every value that is there is a quantity and not negative. */
  ghost predicate Acceptable(q: Quantities, spec: Option<Spec>) {
    spec.Some? ==> forall k :: k in spec.value ==>
      && (k == "cpu" || k == "memory")
      && (spec.value[k].Some? ==> q.parse(spec.value[k].value).Some? && 0.0 <= q.parse(spec.value[k].value).value)
  }

  /**
   * It succeeds exactly on acceptable specifications without a part of a byte; limits are complained
   * about before requests, and a part of a byte only when both are acceptable.
   */
  lemma AdjustSucceeds(q: Quantities, limits: Option<Spec>, requests: Option<Spec>)
    ensures Adjusted(q, limits, requests).Ok?
      <==> Acceptable(q, limits) && Acceptable(q, requests) && MemoryFits(q, limits) && MemoryFits(q, requests)
    ensures Adjusted(q, limits, requests) == Err(InvalidLimits) <==> !Acceptable(q, limits)
    ensures Adjusted(q, limits, requests) == Err(InvalidRequests) <==> Acceptable(q, limits) && !Acceptable(q, requests)
  {
    assert ValidSpec(q, limits) <==> Acceptable(q, limits);
    assert ValidSpec(q, requests) <==> Acceptable(q, requests);
  }

  /** An input on which it fails: half a byte of memory. */
  lemma HalfAByteFails(q: Quantities, text: string)
    requires GoodQuantities(q) && q.parse(text) == Some(0.5)
    ensures Adjusted(q, Some(map["memory" := Some(text)]), None) == Err(PartOfByte)
  {
    assert text != "";
    assert Given(map["memory" := Some(text)]) == map["memory" := text];
    assert (0.5).Floor == 0;
  }

  function Texts(a: Amounts): Option<Spec> { Some(map k | k in a :: Some(a[k])) }

  /** The amount a specification gives to a resource, zero if none. */
  function Stated(q: Quantities, spec: Option<Spec>, key: string): real {
    if spec == None || key !in spec.value || Empty(spec.value[key]) then 0.0
    else Amount(q, spec.value[key].value)
  }

  predicate Names(spec: Option<Spec>, key: string) {
    spec != None && key in spec.value && !Empty(spec.value[key])
  }

  /** What sanitizing leaves: the named resources, the amounts except memory, memory rounded up to whole bytes. */
  lemma SanitizedOutcome(q: Quantities, spec: Option<Spec>, key: string)
    requires GoodQuantities(q) && ValidSpec(q, spec) && Sanitized(q, spec).Ok?
    ensures key in Sanitized(q, spec).value <==> Names(spec, key)
    ensures Names(spec, key) ==>
      var text := Sanitized(q, spec).value[key];
      && text != "" && q.parse(text).Some?
      && Stated(q, spec, key) <= Amount(q, text)
      && (key == "cpu" ==> text == spec.value[key].value)
      && (key == "memory" ==> Whole(Amount(q, text)) && Amount(q, text) < Stated(q, spec, key) + 1.0)
      && (key == "memory" && Whole(Stated(q, spec, key)) ==> text == spec.value[key].value)
  {
    if Names(spec, key) && key == "memory" {
      var x := Amount(q, spec.value[key].value);
      WholeIsMilli(Ceil(x) as real);
    }
  }

  /** An adjusted limit: its amount is the least multiple of 0.001 not below limit and request. */
  lemma RaisedLimitOutcome(q: Quantities, limit: string, request: string, m: real)
    requires GoodQuantities(q) && Amount(q, limit) >= 0.0 && Milli(m)
    ensures
      var raised, a, b := Amount(q, RaisedLimit(q, limit, request)), Amount(q, request), Amount(q, limit);
      && Milli(raised) && a <= raised && b <= raised && (raised < a + 0.001 || raised < b + 0.001)
      && (raised <= m <==> a <= m && b <= m)
      && (Milli(a) && Milli(b) ==> raised == a || raised == b)
  {
    var most := Max(Amount(q, request), Amount(q, limit));
    RoundUpLeast(most, m);
    if Milli(most) {
      RoundUpFixes(most);
    }
  }

  /**
   * The outcome for one resource: requests name what either input names; every limit is at or
   * above its request and both stated amounts, and is the least such multiple of 0.001 over the
   * sanitized ones; memory is whole.
   */
  lemma AdjustedOutcome(q: Quantities, limits: Option<Spec>, requests: Option<Spec>, key: string)
    requires GoodQuantities(q) && Adjusted(q, limits, requests).Ok?
    ensures
      var out := Adjusted(q, limits, requests).value;
      && (key in out.limits <==> Names(limits, key))
      && (key in out.requests <==> Names(limits, key) || Names(requests, key))
      && (Names(requests, key) ==> out.requests[key] == Sanitized(q, requests).value[key])
      && (Names(limits, key) && !Names(requests, key) ==> out.requests[key] == Sanitized(q, limits).value[key])
    ensures Names(limits, key) ==>
      var out := Adjusted(q, limits, requests).value;
      var limit := Amount(q, out.limits[key]);
      var a, b := Amount(q, out.requests[key]), Amount(q, Sanitized(q, limits).value[key]);
      && Stated(q, limits, key) <= limit && Stated(q, requests, key) <= limit
      && a <= limit && b <= limit && (limit < a + 0.001 || limit < b + 0.001)
      && (key == "memory" ==> Whole(limit) && Whole(a) && (limit == a || limit == b))
  {
    SanitizedOutcome(q, limits, key);
    SanitizedOutcome(q, requests, key);
    if Names(limits, key) {
      var above, below := Sanitized(q, limits).value, Sanitized(q, requests).value;
      RaisedLimitOutcome(q, above[key], (above + below)[key], 0.0);
      if key == "memory" {
        WholeIsMilli(Amount(q, above[key]));
        WholeIsMilli(Amount(q, (above + below)[key]));
      }
    }
  }

  /** Texts that are already valid and whole where needed come through sanitizing unchanged. */
  lemma SanitizedFixes(q: Quantities, a: Amounts)
    requires forall k :: k in a ==> a[k] != "" && ValidEntry(q, k, Some(a[k]))
    requires "memory" in a ==> Whole(Amount(q, a["memory"]))
    ensures ValidSpec(q, Texts(a)) && Sanitized(q, Texts(a)) == Ok(a)
  {
    assert Given(Texts(a).value) == a;
    if "memory" in a {
      assert a["memory" := a["memory"]] == a;
    }
  }

  /** Raising a raised limit to its request again leaves its text as it is. */
  lemma LimitSettled(q: Quantities, limits: Option<Spec>, requests: Option<Spec>, key: string)
    requires GoodQuantities(q) && Adjusted(q, limits, requests).Ok? && Names(limits, key)
    ensures
      var out := Adjusted(q, limits, requests).value;
      && key in out.limits && key in out.requests
      && out.limits[key] != "" && ValidEntry(q, key, Some(out.limits[key]))
      && (key == "memory" ==> Whole(Amount(q, out.limits[key])))
      && RaisedLimit(q, out.limits[key], out.requests[key]) == out.limits[key]
  {
    var out := Adjusted(q, limits, requests).value;
    SanitizedOutcome(q, limits, key);
    AdjustedOutcome(q, limits, requests, key);
    var limit, request := Sanitized(q, limits).value[key], out.requests[key];
    var x := RoundUp(Max(Amount(q, request), Amount(q, limit)));
    RoundUpLeast(Max(Amount(q, request), Amount(q, limit)), 0.0);
    RoundUpFixes(x);
    assert out.limits[key] == q.show(x) && q.parse(q.show(x)) == Some(x);
  }

  /** A request after the adjustment is valid, and whole if it is memory. */
  lemma RequestSettled(q: Quantities, limits: Option<Spec>, requests: Option<Spec>, key: string)
    requires GoodQuantities(q) && Adjusted(q, limits, requests).Ok?
    requires key in Adjusted(q, limits, requests).value.requests
    ensures
      var request := Adjusted(q, limits, requests).value.requests[key];
      request != "" && ValidEntry(q, key, Some(request)) && (key == "memory" ==> Whole(Amount(q, request)))
  {
    SanitizedOutcome(q, limits, key);
    SanitizedOutcome(q, requests, key);
    AdjustedOutcome(q, limits, requests, key);
  }

  /** Limits already raised to their requests are left as they are. */
  lemma RaisedFixes(q: Quantities, out: Requirements)
    requires forall k :: k in out.limits ==>
      k in out.requests && RaisedLimit(q, out.limits[k], out.requests[k]) == out.limits[k]
    ensures Raised(q, out.limits, out.requests) == out
  {
    assert out.limits + out.requests == out.requests;
    assert Raised(q, out.limits, out.requests).limits == out.limits;
  }

  /** Adjusting what was adjusted changes no text. */
  lemma AdjustIdempotent(q: Quantities, limits: Option<Spec>, requests: Option<Spec>)
    requires GoodQuantities(q) && Adjusted(q, limits, requests).Ok?
    ensures
      var out := Adjusted(q, limits, requests).value;
      Adjusted(q, Texts(out.limits), Texts(out.requests)) == Ok(out)
  {
    var out := Adjusted(q, limits, requests).value;
    forall k | k in out.requests
      ensures out.requests[k] != "" && ValidEntry(q, k, Some(out.requests[k]))
      ensures k == "memory" ==> Whole(Amount(q, out.requests[k]))
    {
      RequestSettled(q, limits, requests, k);
    }
    forall k | k in out.limits
      ensures out.limits[k] != "" && ValidEntry(q, k, Some(out.limits[k]))
      ensures k == "memory" ==> Whole(Amount(q, out.limits[k]))
      ensures k in out.requests && RaisedLimit(q, out.limits[k], out.requests[k]) == out.limits[k]
    {
      AdjustedOutcome(q, limits, requests, k);
      LimitSettled(q, limits, requests, k);
    }
    SanitizedFixes(q, out.limits);
    SanitizedFixes(q, out.requests);
    RaisedFixes(q, out);
  }
}
