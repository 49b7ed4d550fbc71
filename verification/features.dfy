/**
 * Turning one transaction body into the five-number vector the classifier
 * reads: either the caller's pre-encoded `features` list, or the five raw
 * fields in a fixed order with both categorical labels encoded.
 */
module Features {
  import opened Wrappers

  /** A categorical encoder: the code of every label seen in training. */
  type Encoder = map<string, int>

  /**
   * A numeric JSON field: absent from the body, present but not convertible
   * to a number, or present with its converted value.
   */
  datatype Field<+T> = Missing | Malformed | Present(value: T)

  /**
   * The request body. Anything other than a JSON object fails the request.
   * The two label fields are strings once present, since any JSON value
   * converts to one; the numeric fields can also fail to convert.
   */
  datatype Body =
    | NotObject
    | Object(
        features: Field<seq<real>>,
        transactionId: Option<string>,
        amount: Field<real>,
        merchantCategory: Option<string>,
        location: Option<string>,
        hourOfDay: Field<int>,
        dayOfWeek: Field<int>)

  /** Why a body yields no feature vector. */
  datatype Fault = MissingKey(key: string) | BadValue(key: string)

  /** The raw fields, in the order they are read and listed to the caller. */
  const RequiredFields: seq<string> :=
    ["amount", "merchant_category", "location", "hour_of_day", "day_of_week"]

  /** How the raw field at a position of RequiredFields stands in a body. */
  datatype Presence = Given | Absent | Invalid

  function FieldPresence<T>(f: Field<T>): Presence {
    match f
    case Missing => Absent
    case Malformed => Invalid
    case Present(_) => Given
  }

  function LabelPresence(l: Option<string>): Presence {
    if l.Some? then Given else Absent
  }

  function PresenceAt(b: Body, i: nat): Presence
    requires b.Object? && i < |RequiredFields|
  {
    match i
    case 0 => FieldPresence(b.amount)
    case 1 => LabelPresence(b.merchantCategory)
    case 2 => LabelPresence(b.location)
    case 3 => FieldPresence(b.hourOfDay)
    case _ => FieldPresence(b.dayOfWeek)
  }

  /** All five raw fields are present and convertible. */
  predicate Complete(b: Body)
    requires b.Object?
  {
    forall i :: 0 <= i < |RequiredFields| ==> PresenceAt(b, i) == Given
  }

  /** Position i holds the first raw field that is absent or unconvertible. */
  predicate FirstIncomplete(b: Body, i: nat)
    requires b.Object?
  {
    && i < |RequiredFields|
    && PresenceAt(b, i) != Given
    && forall j :: 0 <= j < i ==> PresenceAt(b, j) == Given
  }

  /** The fault reported for an incomplete raw field, named by its key. */
  function FaultAt(b: Body, i: nat): Fault
    requires b.Object? && i < |RequiredFields|
  {
    if PresenceAt(b, i) == Absent then MissingKey(RequiredFields[i])
    else BadValue(RequiredFields[i])
  }

  /**
   * The code of a label. A label the encoder never saw does not fail the
   * request: it is given code 0 instead.
   */
  function Encode(enc: Encoder, name: string): (code: int)
    ensures name in enc ==> code == enc[name]
    ensures name !in enc ==> code == 0
  {
    if name in enc then enc[name] else 0
  }

  /**
   * The encoder a label encoder fitted on the distinct labels `classes`
   * holds: each label's code is its position in the class list.
   */
  ghost predicate FittedOn(enc: Encoder, classes: seq<string>) {
    && (forall i, j :: 0 <= i < j < |classes| ==> classes[i] != classes[j])
    && enc.Keys == (set i | 0 <= i < |classes| :: classes[i])
    && (forall i :: 0 <= i < |classes| ==> enc[classes[i]] == i)
  }

  /** A fitted encoder's codes, the fallback included, are class positions. */
  lemma EncodeInRange(enc: Encoder, classes: seq<string>, name: string)
    requires FittedOn(enc, classes) && |classes| > 0
    ensures 0 <= Encode(enc, name) < |classes|
  {
  }

  /**
   * The fallback code of an unknown label collides with the first class:
   * the classifier cannot tell the two apart.
   */
  lemma UnknownCollidesWithFirstClass(enc: Encoder, classes: seq<string>, name: string)
    requires FittedOn(enc, classes) && |classes| > 0 && name !in enc
    ensures classes[0] in enc && classes[0] != name
    ensures Encode(enc, name) == Encode(enc, classes[0])
  {
  }

  /**
   * The vector built from raw fields: the five raw fields in the order of
   * RequiredFields, read one after the other. The first field that is
   * absent (KeyError) or unconvertible stops the reading and is the fault.
   */
  function Assemble(b: Body, category: Encoder, location: Encoder): (r: Result<seq<real>, Fault>)
    requires b.Object?
    ensures r.Ok? ==>
      && b.amount.Present? && b.merchantCategory.Some? && b.location.Some?
      && b.hourOfDay.Present? && b.dayOfWeek.Present?
      && |r.value| == |RequiredFields|
      && r.value[0] == b.amount.value
      && r.value[1] == Encode(category, b.merchantCategory.value) as real
      && r.value[2] == Encode(location, b.location.value) as real
      && r.value[3] == b.hourOfDay.value as real
      && r.value[4] == b.dayOfWeek.value as real
  {
    match b.amount
    case Missing => Err(MissingKey("amount"))
    case Malformed => Err(BadValue("amount"))
    case Present(amount) =>
      match b.merchantCategory
      case None => Err(MissingKey("merchant_category"))
      case Some(categoryName) =>
        match b.location
        case None => Err(MissingKey("location"))
        case Some(locationName) =>
          match b.hourOfDay
          case Missing => Err(MissingKey("hour_of_day"))
          case Malformed => Err(BadValue("hour_of_day"))
          case Present(hour) =>
            match b.dayOfWeek
            case Missing => Err(MissingKey("day_of_week"))
            case Malformed => Err(BadValue("day_of_week"))
            case Present(day) =>
              Ok([amount,
                  Encode(category, categoryName) as real,
                  Encode(location, locationName) as real,
                  hour as real,
                  day as real])
  }

  /**
   * The vector handed to the classifier. A `features` key wins: its list is
   * used unchanged and no raw field is read; an unconvertible list fails.
   */
  function ClassifierInput(b: Body, category: Encoder, location: Encoder): Result<seq<real>, Fault>
    requires b.Object?
  {
    match b.features
    case Present(v) => Ok(v)
    case Malformed => Err(BadValue("features"))
    case Missing => Assemble(b, category, location)
  }

  /** Exactly one of: the raw fields are complete, or one of them is first to fail. */
  lemma CompleteOrFirstIncomplete(b: Body)
    requires b.Object?
    ensures Complete(b) <==> forall i :: !FirstIncomplete(b, i)
    ensures forall i, j :: FirstIncomplete(b, i) && FirstIncomplete(b, j) ==> i == j
  {
    var k := 0;
    while k < |RequiredFields| && PresenceAt(b, k) == Given
      invariant 0 <= k <= |RequiredFields|
      invariant forall j :: 0 <= j < k ==> PresenceAt(b, j) == Given
    {
      k := k + 1;
    }
    if k < |RequiredFields| {
      assert FirstIncomplete(b, k);
    }
  }

  /**
   * Assembly succeeds exactly when every raw field is present and
   * convertible, and otherwise reports the first field, in the order of
   * RequiredFields, that is absent or unconvertible.
   */
  lemma AssembleFollowsFieldOrder(b: Body, category: Encoder, location: Encoder)
    requires b.Object?
    ensures Assemble(b, category, location).Ok? <==> Complete(b)
    ensures forall i :: FirstIncomplete(b, i) ==> Assemble(b, category, location) == Err(FaultAt(b, i))
  {
    // Position by position, what each raw field contributes.
    assert PresenceAt(b, 0) == FieldPresence(b.amount);
    assert PresenceAt(b, 1) == LabelPresence(b.merchantCategory);
    assert PresenceAt(b, 2) == LabelPresence(b.location);
    assert PresenceAt(b, 3) == FieldPresence(b.hourOfDay);
    assert PresenceAt(b, 4) == FieldPresence(b.dayOfWeek);
  }
}
