/**
 * Translation of a fraud score into the labels the prediction response
 * carries: the risk tier with its display colour, the confidence label and
 * the recommendation text. Each is a step function of the score alone.
 */
module Risk {

  /** Score thresholds shared by the tier and the recommendation. */
  const CriticalFrom: real := 0.8
  const HighFrom: real := 0.5
  const MediumFrom: real := 0.3

  /** Confidence is high strictly outside [ConfidentBelow, ConfidentAbove]. */
  const ConfidentAbove: real := 0.8
  const ConfidentBelow: real := 0.2

  /** The four risk tiers, least severe first. */
  datatype Tier = Faible | Moyen | Eleve | Critique {

    /** The label placed in the response's `risk_level` field. */
    function Name(): string {
      match this
      case Faible => "FAIBLE"
      case Moyen => "MOYEN"
      case Eleve => "ÉLEVÉ"
      case Critique => "CRITIQUE"
    }

    /** Rank of the tier: 0 for FAIBLE up to 3 for CRITIQUE. */
    function Severity(): nat {
      match this
      case Faible => 0
      case Moyen => 1
      case Eleve => 2
      case Critique => 3
    }
  }

  datatype Colour = Green | Yellow | Orange | Red {

    /** The label placed in the response's `risk_color` field. */
    function Name(): string {
      match this
      case Green => "green"
      case Yellow => "yellow"
      case Orange => "orange"
      case Red => "red"
    }
  }

  datatype Confidence = High | Medium {
    function Name(): string {
      match this
      case High => "high"
      case Medium => "medium"
    }
  }

  datatype Recommendation = Autoriser | Surveillance | Verification | Bloquer {

    /** The sentence placed in the response's `recommendation` field. */
    function Text(): string {
      match this
      case Autoriser => "AUTORISER - Transaction normale, aucune action requise"
      case Surveillance => "SURVEILLANCE - Surveiller les prochaines transactions du client"
      case Verification => "VÉRIFICATION REQUISE - Demander une authentification supplémentaire"
      case Bloquer => "BLOQUER LA TRANSACTION - Contacter immédiatement le client et l'équipe sécurité"
    }
  }

  /** The tier together with the colour it is displayed in. */
  datatype RiskLevel = RiskLevel(tier: Tier, colour: Colour)

  /**
   * The half-open score band of each tier, closed on its lower side.
   * FAIBLE has no lower bound and CRITIQUE no upper bound, since the score
   * is not clamped before it is compared.
   */
  predicate InBand(t: Tier, score: real) {
    match t
    case Faible => score < MediumFrom
    case Moyen => MediumFrom <= score < HighFrom
    case Eleve => HighFrom <= score < CriticalFrom
    case Critique => CriticalFrom <= score
  }

  /** The colour legend: one display colour per tier. */
  function ColourOf(t: Tier): Colour {
    match t
    case Faible => Green
    case Moyen => Yellow
    case Eleve => Orange
    case Critique => Red
  }

  /** The recommendation each tier calls for. */
  function AdviceFor(t: Tier): Recommendation {
    match t
    case Faible => Autoriser
    case Moyen => Surveillance
    case Eleve => Verification
    case Critique => Bloquer
  }

  /**
   * The tier and colour chosen by the if/elif chain of the predict handler,
   * highest threshold first. The result lies in exactly one band, and its
   * colour is the one the legend assigns to its tier.
   */
  function RiskLevelOf(score: real): (r: RiskLevel)
    ensures InBand(r.tier, score)
    ensures forall t: Tier :: InBand(t, score) <==> t == r.tier
    ensures r.colour == ColourOf(r.tier)
  {
    if score >= CriticalFrom then RiskLevel(Critique, Red)
    else if score >= HighFrom then RiskLevel(Eleve, Orange)
    else if score >= MediumFrom then RiskLevel(Moyen, Yellow)
    else RiskLevel(Faible, Green)
  }

  /** The confidence label: high only for scores far from the middle. */
  function ConfidenceOf(score: real): (c: Confidence)
    ensures c == High <==> score > ConfidentAbove || score < ConfidentBelow
    ensures c == Medium <==> ConfidentBelow <= score <= ConfidentAbove
  {
    if score > ConfidentAbove || score < ConfidentBelow then High else Medium
  }

  /**
   * The recommendation chosen by its own if/elif chain over the score. It
   * uses the tier thresholds, so it is the advice for the score's tier.
   */
  function RecommendationOf(score: real): (a: Recommendation)
    ensures a == AdviceFor(RiskLevelOf(score).tier)
  {
    if score >= CriticalFrom then Bloquer
    else if score >= HighFrom then Verification
    else if score >= MediumFrom then Surveillance
    else Autoriser
  }

  /** Every score falls in exactly one band. */
  lemma BandsPartitionScores(score: real)
    ensures exists t: Tier :: InBand(t, score)
    ensures forall t: Tier, u: Tier :: InBand(t, score) && InBand(u, score) ==> t == u
  {
    var r := RiskLevelOf(score);
    assert InBand(r.tier, score);
  }

  /** Severity never decreases as the score grows. */
  lemma TierMonotone(a: real, b: real)
    requires a <= b
    ensures RiskLevelOf(a).tier.Severity() <= RiskLevelOf(b).tier.Severity()
  {
  }

  /** A tier is reached exactly when the score reaches that tier's threshold. */
  lemma TierThresholds(score: real)
    ensures RiskLevelOf(score).tier.Severity() >= 3 <==> score >= CriticalFrom
    ensures RiskLevelOf(score).tier.Severity() >= 2 <==> score >= HighFrom
    ensures RiskLevelOf(score).tier.Severity() >= 1 <==> score >= MediumFrom
  {
  }

  /** Colour and recommendation each determine the tier they came from. */
  lemma LabelsDetermineTier(a: real, b: real)
    ensures RiskLevelOf(a).colour == RiskLevelOf(b).colour <==> RiskLevelOf(a).tier == RiskLevelOf(b).tier
    ensures RecommendationOf(a) == RecommendationOf(b) <==> RiskLevelOf(a).tier == RiskLevelOf(b).tier
  {
  }

  /**
   * How the confidence bands sit across the tier bands: the middle tiers are
   * always of medium confidence, FAIBLE is of high confidence below 0.2, and
   * CRITIQUE is of high confidence except at its very threshold 0.8.
   */
  lemma ConfidenceAcrossTiers(score: real)
    ensures RiskLevelOf(score).tier in {Moyen, Eleve} ==> ConfidenceOf(score) == Medium
    ensures RiskLevelOf(score).tier == Faible ==> (ConfidenceOf(score) == High <==> score < ConfidentBelow)
    ensures RiskLevelOf(score).tier == Critique ==> (ConfidenceOf(score) == Medium <==> score == CriticalFrom)
  {
  }

  /**
   * The strings a response carries are distinct per value, so the
   * `risk_level`, `risk_color` and `recommendation` fields each identify
   * their tier.
   */
  lemma ResponseStringsIdentifyTier(t: Tier, u: Tier)
    ensures t.Name() == u.Name() <==> t == u
    ensures ColourOf(t).Name() == ColourOf(u).Name() <==> t == u
    ensures AdviceFor(t).Text() == AdviceFor(u).Text() <==> t == u
  {
  }

  /** At the score 0.8 the tier is CRITIQUE while the confidence is only medium. */
  lemma CriticalThresholdIsMediumConfidence()
    ensures RiskLevelOf(0.8).tier == Critique && ConfidenceOf(0.8) == Medium
    ensures RecommendationOf(0.8) == Bloquer
  {
  }
}
