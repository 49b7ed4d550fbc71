/**
 * The single-transaction prediction route: availability check, feature
 * selection, scoring by the classifier, and the labelled response, with
 * each failure mapped to its HTTP status.
 */
module Api {
  import opened Wrappers
  import opened Risk
  import opened Features

  /** A probability, the only thing assumed of the classifier's score. */
  type Probability = r: real | 0.0 <= r <= 1.0

  /**
   * The trained classifier, seen from outside: the number of features it
   * was fitted on, the library's further check of a vector's values (it
   * refuses, for one, values that are not finite in single precision), its
   * fraud/non-fraud decision, and the probability it assigns to the fraud
   * class. A vector of any other length, or one the check refuses, raises.
   */
  datatype Classifier = Classifier(
    width: nat,
    accepts: seq<real> -> bool,
    predict: seq<real> -> bool,
    fraudScore: seq<real> -> Probability)

  /** The artifacts loaded at start-up: the classifier and both encoders. */
  datatype Artifacts = Artifacts(classifier: Classifier, category: Encoder, location: Encoder)

  /** The number of features the training script fits the classifier on. */
  const FeatureCount: nat := |RequiredFields|

  /** The labelled outcome of one scored transaction. */
  datatype Prediction = Prediction(
    transactionId: Option<string>,
    isFraud: bool,
    fraudScore: real,
    riskLevel: Tier,
    riskColour: Colour,
    confidence: Confidence,
    recommendation: Recommendation)

  /** Why a request ends with status 500. */
  datatype Problem =
    | NotAnObject
    | Unconvertible(key: string)
    | WrongWidth(given: nat, expected: nat)
    | Refused

  /** The reply of the prediction route. */
  datatype Reply =
    | NotLoaded
    | MissingField(key: string, requiredFields: seq<string>)
    | ServerError(problem: Problem)
    | Scored(prediction: Prediction)
  {
    function Status(): int {
      match this
      case NotLoaded => 503
      case MissingField(_, _) => 400
      case ServerError(_) => 500
      case Scored(_) => 200
    }
  }

  /**
   * What a prediction response promises about its own fields: the score is
   * a probability, the tier is the score's band, the colour belongs to the
   * tier, and confidence and recommendation follow their rules.
   */
  predicate Consistent(p: Prediction) {
    && 0.0 <= p.fraudScore <= 1.0
    && InBand(p.riskLevel, p.fraudScore)
    && p.riskColour == ColourOf(p.riskLevel)
    && (p.confidence == High <==> p.fraudScore > ConfidentAbove || p.fraudScore < ConfidentBelow)
    && p.recommendation == AdviceFor(p.riskLevel)
  }

  /** Scoring one feature vector the classifier takes. */
  function Score(c: Classifier, v: seq<real>, id: Option<string>): (p: Prediction)
    requires |v| == c.width && c.accepts(v)
    ensures Consistent(p)
    ensures p.transactionId == id
    ensures p.isFraud == c.predict(v) && p.fraudScore == c.fraudScore(v)
  {
    var score := c.fraudScore(v);
    var level := RiskLevelOf(score);
    Prediction(
      transactionId := id,
      isFraud := c.predict(v),
      fraudScore := score,
      riskLevel := level.tier,
      riskColour := level.colour,
      confidence := ConfidenceOf(score),
      recommendation := RecommendationOf(score))
  }

  /**
   * The prediction route. Without artifacts it answers 503 before reading
   * the body. A missing raw field answers 400 with the list of required
   * fields; any other failure answers 500; otherwise 200 with the labelled
   * prediction of the vector chosen for the classifier.
   */
  function Predict(artifacts: Option<Artifacts>, body: Body): (r: Reply)
    ensures r.Status() == 503 <==> artifacts.None?
    ensures artifacts.Some? && body.NotObject? ==> r == ServerError(NotAnObject)
    ensures r.MissingField? ==>
      && body.Object? && body.features.Missing?
      && r.requiredFields == RequiredFields
      && r.key in RequiredFields
    ensures r.Scored? ==>
      && artifacts.Some? && body.Object?
      && Consistent(r.prediction)
      && r.prediction.transactionId == body.transactionId
  {
    match artifacts
    case None => NotLoaded
    case Some(a) =>
      if body.NotObject? then ServerError(NotAnObject)
      else
        match ClassifierInput(body, a.category, a.location)
        case Err(MissingKey(k)) => MissingField(k, RequiredFields)
        case Err(BadValue(k)) => ServerError(Unconvertible(k))
        case Ok(v) =>
          if |v| != a.classifier.width then ServerError(WrongWidth(|v|, a.classifier.width))
          else if !a.classifier.accepts(v) then ServerError(Refused)
          else Scored(Score(a.classifier, v, body.transactionId))
  }

  /**
   * A pre-encoded `features` list reaches the classifier unchanged, and the
   * raw fields and both encoders play no part: two bodies that agree on
   * `features` and `transaction_id` get the same reply from any artifacts
   * that share the classifier. It succeeds iff the classifier takes the list.
   */
  lemma FeaturesBypassAssembly(a: Artifacts, a': Artifacts, b: Body, b': Body)
    requires a'.classifier == a.classifier
    requires b.Object? && b'.Object? && b.features.Present?
    requires b'.features == b.features && b'.transactionId == b.transactionId
    ensures Predict(Some(a), b) == Predict(Some(a'), b')
    ensures Predict(Some(a), b).Status() == 200 <==>
      |b.features.value| == a.classifier.width && a.classifier.accepts(b.features.value)
    ensures Predict(Some(a), b).Scored? ==>
      Predict(Some(a), b) == Scored(Score(a.classifier, b.features.value, b.transactionId))
  {
  }

  /**
   * A `features` value that cannot be turned into a numeric vector fails
   * the request with 500, whatever the raw fields hold.
   */
  lemma MalformedFeatures(a: Artifacts, b: Body)
    requires b.Object? && b.features.Malformed?
    ensures Predict(Some(a), b) == ServerError(Unconvertible("features"))
  {
  }

  /**
   * The raw-field path: with all five fields present and convertible, the
   * classifier is given [amount, category code, location code, hour, day].
   * The request succeeds iff the classifier was fitted on five features and
   * takes that vector; unknown labels, encoded as 0, never make it fail.
   */
  lemma RawFieldsReachClassifier(a: Artifacts, b: Body)
    requires b.Object? && b.features.Missing? && Complete(b)
    ensures b.amount.Present? && b.merchantCategory.Some? && b.location.Some?
    ensures b.hourOfDay.Present? && b.dayOfWeek.Present?
    ensures
      var v := [b.amount.value,
                Encode(a.category, b.merchantCategory.value) as real,
                Encode(a.location, b.location.value) as real,
                b.hourOfDay.value as real,
                b.dayOfWeek.value as real];
      && (Predict(Some(a), b).Status() == 200 <==> a.classifier.width == FeatureCount && a.classifier.accepts(v))
      && (a.classifier.width != FeatureCount ==>
            Predict(Some(a), b) == ServerError(WrongWidth(FeatureCount, a.classifier.width)))
      && (a.classifier.width == FeatureCount && a.classifier.accepts(v) ==>
            Predict(Some(a), b) == Scored(Score(a.classifier, v, b.transactionId)))
      && (a.classifier.width == FeatureCount && !a.classifier.accepts(v) ==>
            Predict(Some(a), b) == ServerError(Refused))
  {
    AssembleFollowsFieldOrder(b, a.category, a.location);
  }

  /**
   * Status 400 is answered exactly when no `features` key is given and the
   * first raw field that is not usable is absent; that field is the one
   * named. When it is present but unconvertible the status is 500.
   */
  lemma MissingFieldStatus(a: Artifacts, b: Body, i: nat)
    requires b.Object? && b.features.Missing? && FirstIncomplete(b, i)
    ensures PresenceAt(b, i) == Absent ==> Predict(Some(a), b) == MissingField(RequiredFields[i], RequiredFields)
    ensures PresenceAt(b, i) == Invalid ==> Predict(Some(a), b) == ServerError(Unconvertible(RequiredFields[i]))
  {
    AssembleFollowsFieldOrder(b, a.category, a.location);
  }

  /** A 400 reply names the first unusable raw field, which is absent. */
  lemma MissingFieldIsFirstAbsent(a: Artifacts, b: Body)
    requires Predict(Some(a), b).MissingField?
    ensures b.Object? && b.features.Missing?
    ensures exists i: nat :: FirstIncomplete(b, i) && PresenceAt(b, i) == Absent
                        && RequiredFields[i] == Predict(Some(a), b).key
  {
  }
}
