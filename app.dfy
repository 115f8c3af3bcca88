/** The web handler's own logic: the threshold rules that turn network features into
    indicators, and the way `predict` chooses between enhanced and basic features,
    reports the classifier's confidence and counts the features. Rendering, routing
    and model loading are outside the model; the classifier is a parameter. */
module App {
  import opened Wrappers
  import opened Text
  import opened NetworkProbes

  /** The six checks, in the order their indicators are reported. */
  datatype Check = DnsLatency | TcpLatency | AddressKind | Encryption | DomainReputation | MailExchange

  const CheckOrder: seq<Check> := [DnsLatency, TcpLatency, AddressKind, Encryption, DomainReputation, MailExchange]

  /** One line of the human-facing explanation. */
  datatype Indicator =
    | SlowDns(dnsSeconds: real) | FastDns(dnsSeconds: real)
    | SlowTcp(tcpSeconds: real) | FastTcp(tcpSeconds: real)
    | PrivateIpAddress | PublicIpAddress
    | NoHttps | HttpsPresent
    | NewDomain | EstablishedDomain(ageDays: real)
    | MxRecordPresent | NoMxRecord
    | BasicAnalysisOnly

  /** The check an indicator answers; the degraded-mode notice answers none. */
  function CheckOf(ind: Indicator): Option<Check> {
    match ind
    case SlowDns(_) | FastDns(_) => Some(DnsLatency)
    case SlowTcp(_) | FastTcp(_) => Some(TcpLatency)
    case PrivateIpAddress | PublicIpAddress => Some(AddressKind)
    case NoHttps | HttpsPresent => Some(Encryption)
    case NewDomain | EstablishedDomain(_) => Some(DomainReputation)
    case MxRecordPresent | NoMxRecord => Some(MailExchange)
    case BasicAnalysisOnly => None
  }

  /** `features.get(key, default)`: the stored value when the key is present, the default
      otherwise; so the result is always the default or one of the map's values. */
  function Lookup(features: Features, key: string, default: real): (r: real)
    ensures key in features ==> r == features[key]
    ensures key !in features ==> r == default
    ensures r == default || r in features.Values
  {
    if key in features then features[key] else default
  }

  /** Latencies above this many seconds are slow. */
  const SlowSeconds: real := 2.0

  /** The rule for one check, with the default each rule uses for a missing key. */
  function Assess(c: Check, features: Features): (ind: Indicator)
    ensures CheckOf(ind) == Some(c)
  {
    match c
    case DnsLatency =>
      var t := Lookup(features, DnsResolutionTimeKey, 5.0);
      if t > SlowSeconds then SlowDns(t) else FastDns(t)
    case TcpLatency =>
      var t := Lookup(features, TcpConnectTimeKey, 5.0);
      if t > SlowSeconds then SlowTcp(t) else FastTcp(t)
    case AddressKind =>
      if Lookup(features, IsPrivateIpKey, 0.0) == 1.0 then PrivateIpAddress else PublicIpAddress
    case Encryption =>
      if Lookup(features, UsesHttpsKey, 0.0) == 0.0 then NoHttps else HttpsPresent
    case DomainReputation =>
      if Lookup(features, IsNewDomainKey, 1.0) == 1.0 then NewDomain
      else EstablishedDomain(Lookup(features, DomainAgeDaysKey, 0.0))
    case MailExchange =>
      if Lookup(features, HasMxRecordKey, 0.0) == 1.0 then MxRecordPresent else NoMxRecord
  }

  /** One indicator per check, in the fixed order. */
  function Indicators(features: Features): (inds: seq<Indicator>)
    ensures |inds| == |CheckOrder| == 6
    ensures forall i :: 0 <= i < |inds| ==> CheckOf(inds[i]) == Some(CheckOrder[i])
  {
    seq(|CheckOrder|, i requires 0 <= i < |CheckOrder| => Assess(CheckOrder[i], features))
  }

  lemma IndicatorsInOrder(features: Features)
    ensures Indicators(features) == [
      Assess(DnsLatency, features), Assess(TcpLatency, features), Assess(AddressKind, features),
      Assess(Encryption, features), Assess(DomainReputation, features), Assess(MailExchange, features)]
  {
  }

  /** `analyze_network_indicators`: six successive appends to a list. */
  method AnalyzeNetworkIndicators(features: Features) returns (indicators: seq<Indicator>)
    ensures indicators == Indicators(features)
  {
    IndicatorsInOrder(features);
    indicators := [];

    var dnsTime := Lookup(features, DnsResolutionTimeKey, 5.0);
    if dnsTime > 2.0 {
      indicators := indicators + [SlowDns(dnsTime)];
    } else {
      indicators := indicators + [FastDns(dnsTime)];
    }
    assert indicators == [Assess(DnsLatency, features)];

    var tcpTime := Lookup(features, TcpConnectTimeKey, 5.0);
    if tcpTime > 2.0 {
      indicators := indicators + [SlowTcp(tcpTime)];
    } else {
      indicators := indicators + [FastTcp(tcpTime)];
    }
    assert indicators == [Assess(DnsLatency, features), Assess(TcpLatency, features)];

    if Lookup(features, IsPrivateIpKey, 0.0) == 1.0 {
      indicators := indicators + [PrivateIpAddress];
    } else {
      indicators := indicators + [PublicIpAddress];
    }
    assert indicators == [Assess(DnsLatency, features), Assess(TcpLatency, features), Assess(AddressKind, features)];

    if Lookup(features, UsesHttpsKey, 0.0) == 0.0 {
      indicators := indicators + [NoHttps];
    } else {
      indicators := indicators + [HttpsPresent];
    }
    assert indicators == [Assess(DnsLatency, features), Assess(TcpLatency, features), Assess(AddressKind, features), Assess(Encryption, features)];

    if Lookup(features, IsNewDomainKey, 1.0) == 1.0 {
      indicators := indicators + [NewDomain];
    } else {
      var domainAge := Lookup(features, DomainAgeDaysKey, 0.0);
      indicators := indicators + [EstablishedDomain(domainAge)];
    }
    assert indicators == [Assess(DnsLatency, features), Assess(TcpLatency, features), Assess(AddressKind, features), Assess(Encryption, features), Assess(DomainReputation, features)];

    if Lookup(features, HasMxRecordKey, 0.0) == 1.0 {
      indicators := indicators + [MxRecordPresent];
    } else {
      indicators := indicators + [NoMxRecord];
    }
  }

  /** The latency rules compare strictly with two seconds, and a missing latency counts as 5 seconds. */
  lemma LatencyRules(features: Features)
    ensures Indicators(features)[0].SlowDns? <==> Lookup(features, DnsResolutionTimeKey, 5.0) > 2.0
    ensures Indicators(features)[1].SlowTcp? <==> Lookup(features, TcpConnectTimeKey, 5.0) > 2.0
    ensures Indicators(features)[0].dnsSeconds == Lookup(features, DnsResolutionTimeKey, 5.0)
    ensures Indicators(features)[1].tcpSeconds == Lookup(features, TcpConnectTimeKey, 5.0)
    ensures Indicators(map[DnsResolutionTimeKey := 2.0])[0] == FastDns(2.0)
  {
  }

  /** With every key missing the defaults give the suspicious reading of every check. */
  lemma MissingKeysDefaults()
    ensures Indicators(map[]) == [SlowDns(5.0), SlowTcp(5.0), PublicIpAddress, NoHttps, NewDomain, NoMxRecord]
  {
  }

  /** The extractor's fallback values and missing keys lead to the same indicators. */
  lemma DefaultsReadLikeMissingKeys()
    ensures Indicators(DefaultFeatures()) == Indicators(map[])
  {
    MissingKeysDefaults();
    assert Indicators(DefaultFeatures()) == [SlowDns(5.0), SlowTcp(5.0), PublicIpAddress, NoHttps, NewDomain, NoMxRecord];
  }

  /** The four equality tests look for one particular value, so any other value falls to
      the other branch: `is_private_ip` must be 1, `uses_https` must be 0, `is_new_domain`
      must be 1 and `has_mx_record` must be 1 for the first reading. */
  lemma EqualityTestsAreExact(features: Features)
    ensures Indicators(features)[2] == PrivateIpAddress <==> Lookup(features, IsPrivateIpKey, 0.0) == 1.0
    ensures Indicators(features)[3] == NoHttps <==> Lookup(features, UsesHttpsKey, 0.0) == 0.0
    ensures Indicators(features)[4] == NewDomain <==> Lookup(features, IsNewDomainKey, 1.0) == 1.0
    ensures Indicators(features)[5] == MxRecordPresent <==> Lookup(features, HasMxRecordKey, 0.0) == 1.0
    ensures var odd := map[IsPrivateIpKey := 2.0, UsesHttpsKey := 0.5, IsNewDomainKey := 0.5, HasMxRecordKey := 2.0];
      Indicators(odd)[2..] == [PublicIpAddress, HttpsPresent, EstablishedDomain(0.0), NoMxRecord]
  {
    var odd := map[IsPrivateIpKey := 2.0, UsesHttpsKey := 0.5, IsNewDomainKey := 0.5, HasMxRecordKey := 2.0];
    assert DomainAgeDaysKey !in odd;
  }

  /** On a map produced by the network extractor every flag is 0 or 1, so each equality
      indicator is decided by its flag, and a new domain is reported exactly when the
      recorded age is under 30 days. */
  lemma IndicatorsOfExtractedFeatures(url: string, env: Environment, timeout: int)
    ensures var f := NetworkFeatures(url, env, timeout);
      && (Indicators(f)[2] == PrivateIpAddress <==> f[IsPrivateIpKey] == 1.0)
      && (Indicators(f)[3] == HttpsPresent <==> f[UsesHttpsKey] == 1.0)
      && (Indicators(f)[4] == NewDomain <==> f[DomainAgeDaysKey] < 30.0)
      && (Indicators(f)[5] == MxRecordPresent <==> f[HasMxRecordKey] == 1.0)
  {
    var f := NetworkFeatures(url, env, timeout);
    ExtractedFlagsConsistent(url, env, timeout);
    assert f.Keys == DefaultFeatures().Keys;
    IndicatorsOfBinaryFlags(f);
  }

  lemma IndicatorsOfBinaryFlags(f: Features)
    requires IsPrivateIpKey in f && UsesHttpsKey in f && IsNewDomainKey in f && HasMxRecordKey in f
    requires DomainAgeDaysKey in f
    requires f[UsesHttpsKey] == 0.0 || f[UsesHttpsKey] == 1.0
    requires f[IsNewDomainKey] == 1.0 <==> f[DomainAgeDaysKey] < 30.0
    ensures Indicators(f)[2] == PrivateIpAddress <==> f[IsPrivateIpKey] == 1.0
    ensures Indicators(f)[3] == HttpsPresent <==> f[UsesHttpsKey] == 1.0
    ensures Indicators(f)[4] == NewDomain <==> f[DomainAgeDaysKey] < 30.0
    ensures Indicators(f)[5] == MxRecordPresent <==> f[HasMxRecordKey] == 1.0
  {
    IndicatorsInOrder(f);
  }

  /** A one-row data frame handed to the classifier: named columns with their values. */
  type ModelFrame = seq<(string, real)>

  /** What the enhanced extraction returns: the classifier's columns and every feature for display. */
  datatype EnhancedFeatures = EnhancedFeatures(modelFeatures: ModelFrame, allFeatures: Features)

  /** The classifier's answer for the frame's one row: the predicted class and the class probabilities. */
  datatype Classification = Classification(prediction: int, probability: seq<real>)

  datatype Verdict = Phishing | Legitimate

  /** What `predict` renders. */
  datatype PredictResult =
    | NoUrlProvided
    | ModelNotAvailable(url: string)
    | AnalysisFailed(url: string)
    | Analysed(url: string, verdict: Verdict, confidence: real, indicators: seq<Indicator>,
               featuresUsed: nat, totalFeaturesAnalyzed: nat)

  /** The label: phishing exactly for class 1. */
  function VerdictOf(prediction: int): (v: Verdict)
    ensures v == Phishing <==> prediction == 1
  {
    if prediction == 1 then Phishing else Legitimate
  }

  /** Index of the predicted class's probability: 1 for class 1, else 0. */
  function PredictedClassIndex(prediction: int): (k: nat)
    ensures k == 1 <==> prediction == 1
    ensures k <= 1
  {
    if prediction == 1 then 1 else 0
  }

  /** The confidence is the probability of the predicted class; indexing past the
      probabilities raises. */
  function ConfidenceOf(c: Classification): (r: Option<real>)
    ensures r.Some? <==> PredictedClassIndex(c.prediction) < |c.probability|
    ensures r.Some? ==> r.value == c.probability[PredictedClassIndex(c.prediction)]
  {
    var k := PredictedClassIndex(c.prediction);
    if k < |c.probability| then Some(c.probability[k]) else None
  }

  /** The frame the classifier sees and, when enhancement worked, the features to explain:
      enhanced features first, basic features if the enhanced extraction raised. */
  function SelectFeatures(enhanced: Attempt<EnhancedFeatures>, basic: Attempt<ModelFrame>)
    : (r: Attempt<(ModelFrame, Option<Features>)>)
    ensures enhanced.Returned? ==> r == Returned((enhanced.value.modelFeatures, Some(enhanced.value.allFeatures)))
    ensures enhanced.Raised? ==> (r.Returned? <==> basic.Returned?)
    ensures enhanced.Raised? && basic.Returned? ==> r == Returned((basic.value, None))
  {
    match enhanced
    case Returned(e) => Returned((e.modelFeatures, Some(e.allFeatures)))
    case Raised =>
      match basic
      case Returned(frame) => Returned((frame, None))
      case Raised => Raised
  }

  /** The classifier's frame in the chosen mode (meaningful when one of the extractions returned). */
  function ChosenFrame(enhanced: Attempt<EnhancedFeatures>, basic: Attempt<ModelFrame>): ModelFrame {
    if enhanced.Returned? then enhanced.value.modelFeatures
    else if basic.Returned? then basic.value
    else []
  }

  /** `predict`, for a form value `rawUrl`; `modelLoaded` says whether a classifier was loaded,
      `enhanced` and `basic` are the outcomes of the two extraction calls, and `classify`
      runs the classifier. */
  function Predict(rawUrl: string, modelLoaded: bool, enhanced: Attempt<EnhancedFeatures>,
                   basic: Attempt<ModelFrame>, classify: ModelFrame -> Attempt<Classification>)
    : (r: PredictResult)
    ensures r.Analysed? ==> r.url == Strip(rawUrl) && r.url != [] && modelLoaded
  {
    var url := Strip(rawUrl);
    if url == [] then NoUrlProvided
    else if !modelLoaded then ModelNotAvailable(url)
    else
      match SelectFeatures(enhanced, basic)
      case Raised => AnalysisFailed(url)
      case Returned((frame, all)) =>
        match classify(frame)
        case Raised => AnalysisFailed(url)
        case Returned(c) =>
          match ConfidenceOf(c)
          case None => AnalysisFailed(url)
          case Some(confidence) =>
            if all.Some? then
              Analysed(url, VerdictOf(c.prediction), confidence, Indicators(all.value), |frame|, |all.value|)
            else
              Analysed(url, VerdictOf(c.prediction), confidence, [BasicAnalysisOnly], |frame|, |frame|)
  }

  /** A blank form value is rejected before anything else, and only a blank one. */
  lemma BlankUrlRejected(rawUrl: string, modelLoaded: bool, enhanced: Attempt<EnhancedFeatures>,
                         basic: Attempt<ModelFrame>, classify: ModelFrame -> Attempt<Classification>)
    ensures Predict(rawUrl, modelLoaded, enhanced, basic, classify) == NoUrlProvided
            <==> forall i :: 0 <= i < |rawUrl| ==> IsSpace(rawUrl[i])
  {
    StripBlankIff(rawUrl);
  }

  /** Without a classifier a non-blank URL gets the "model not available" error. */
  lemma MissingModelRejected(rawUrl: string, enhanced: Attempt<EnhancedFeatures>,
                             basic: Attempt<ModelFrame>, classify: ModelFrame -> Attempt<Classification>)
    requires Strip(rawUrl) != []
    ensures Predict(rawUrl, false, enhanced, basic, classify) == ModelNotAvailable(Strip(rawUrl))
  {
  }

  /** The two early errors never reach extraction or prediction: the result is the same
      whatever the extractions and the classifier would do. */
  lemma EarlyErrorsSkipPrediction(rawUrl: string, modelLoaded: bool,
                                  enhanced: Attempt<EnhancedFeatures>, basic: Attempt<ModelFrame>,
                                  classify: ModelFrame -> Attempt<Classification>,
                                  enhanced': Attempt<EnhancedFeatures>, basic': Attempt<ModelFrame>,
                                  classify': ModelFrame -> Attempt<Classification>)
    requires Strip(rawUrl) == [] || !modelLoaded
    ensures Predict(rawUrl, modelLoaded, enhanced, basic, classify)
            == Predict(rawUrl, modelLoaded, enhanced', basic', classify')
    ensures !Predict(rawUrl, modelLoaded, enhanced, basic, classify).Analysed?
  {
  }

  /** When the enhanced extraction raises, the only indicator is the "basic analysis only"
      notice and the total equals the number of classifier columns. */
  lemma DegradedModeReport(rawUrl: string, basic: Attempt<ModelFrame>,
                           classify: ModelFrame -> Attempt<Classification>)
    requires Predict(rawUrl, true, Raised, basic, classify).Analysed?
    ensures var r := Predict(rawUrl, true, Raised, basic, classify);
      && basic.Returned?
      && r.indicators == [BasicAnalysisOnly]
      && r.featuresUsed == r.totalFeaturesAnalyzed == |basic.value|
  {
  }

  /** When the enhanced extraction returns, the six network indicators of its display features
      are reported, and the total counts every display feature. */
  lemma EnhancedModeReport(rawUrl: string, e: EnhancedFeatures, basic: Attempt<ModelFrame>,
                           classify: ModelFrame -> Attempt<Classification>)
    requires Predict(rawUrl, true, Returned(e), basic, classify).Analysed?
    ensures var r := Predict(rawUrl, true, Returned(e), basic, classify);
      && r.indicators == Indicators(e.allFeatures)
      && |r.indicators| == 6
      && r.featuresUsed == |e.modelFeatures|
      && r.totalFeaturesAnalyzed == |e.allFeatures|
  {
  }

  /** The reported confidence is the probability the classifier gave to the class it predicted
      for the classifier's own frame, and the label is phishing exactly for class 1. */
  lemma ConfidenceOfPredictedClass(rawUrl: string, modelLoaded: bool, enhanced: Attempt<EnhancedFeatures>,
                                   basic: Attempt<ModelFrame>, classify: ModelFrame -> Attempt<Classification>)
    requires Predict(rawUrl, modelLoaded, enhanced, basic, classify).Analysed?
    ensures var r := Predict(rawUrl, modelLoaded, enhanced, basic, classify);
      var c := classify(ChosenFrame(enhanced, basic));
      && c.Returned?
      && (r.verdict == Phishing <==> c.value.prediction == 1)
      && |c.value.probability| > PredictedClassIndex(c.value.prediction)
      && r.confidence == c.value.probability[if c.value.prediction == 1 then 1 else 0]
  {
  }

  /** A non-blank URL with a loaded classifier fails exactly when no frame could be built,
      the classifier raised, or the predicted class has no probability. */
  lemma AnalysisFailureCases(rawUrl: string, enhanced: Attempt<EnhancedFeatures>,
                             basic: Attempt<ModelFrame>, classify: ModelFrame -> Attempt<Classification>)
    requires Strip(rawUrl) != []
    ensures var r := Predict(rawUrl, true, enhanced, basic, classify);
      var c := classify(ChosenFrame(enhanced, basic));
      r.AnalysisFailed? <==>
        (enhanced.Raised? && basic.Raised?)
        || c.Raised?
        || |c.value.probability| <= PredictedClassIndex(c.value.prediction)
  {
    var selected := SelectFeatures(enhanced, basic);
    if selected.Returned? {
      var frame := selected.value.0;
      assert frame == ChosenFrame(enhanced, basic);
      match classify(frame)
      case Raised =>
      case Returned(c) =>
        assert ConfidenceOf(c).None? <==> |c.probability| <= PredictedClassIndex(c.prediction);
    }
  }
}
