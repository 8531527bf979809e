/**
 Prediction and rationale: the fitted classifier is consulted on the aligned
 feature vector for a label and a probability, and a rule-based explanation is
 derived from the engineered signals alone.
 */
module Prediction {
  import opened Signals
  import opened FeatureFrame

  /**
   The fitted classifier, known only through its two queries: the predicted
   class of a feature vector and the probability of class 1.
   */
  datatype Model = Model(predict: seq<real> -> int, probabilityOfRisk: seq<real> -> real)

  datatype RiskLabel = HighRisk | LowRisk

  datatype PredictionResult = PredictionResult(risk: RiskLabel, probability: real, reasons: seq<string>)

  const SocialMediaReason: string := "Recent social media usage with emotional drain"
  const LoadReason: string := "Stress is higher than energy"
  const LowEnergyReason: string := "Low energy levels"
  const HighStressReason: string := "High stress levels"
  const BalancedReason: string := "Emotional and behavioral signals appear balanced"

  /** The four rule-based reasons, in the order they are considered. */
  const RuleReasons: seq<string> := [SocialMediaReason, LoadReason, LowEnergyReason, HighStressReason]

  /** Whether each rule of RuleReasons fires, by Python truthiness of the signal. */
  function Fired(s: EngineeredSignals): (fired: seq<bool>)
    ensures |fired| == |RuleReasons|
  {
    [s.socialMediaRisk != 0, s.emotionalLoad > 1, s.lowEnergy != 0, s.highStress != 0]
  }

  /** The elements of xs whose flag in keep is set, in their original order. */
  function Selected(xs: seq<string>, keep: seq<bool>): (r: seq<string>)
    requires |keep| == |xs|
    ensures |r| <= |xs|
    ensures forall x :: x in r ==> x in xs
  {
    if xs == [] then []
    else Selected(xs[..|xs| - 1], keep[..|xs| - 1]) + (if keep[|xs| - 1] then [xs[|xs| - 1]] else [])
  }

  /** The explanation as displayed: the fired reasons, or the balanced fallback. */
  function Rationale(s: EngineeredSignals): seq<string> {
    var fired := Selected(RuleReasons, Fired(s));
    if fired == [] then [BalancedReason] else fired
  }

  /** Classifier output 1 means high risk; any other class means low risk. */
  function Label(predicted: int): (risk: RiskLabel)
    ensures risk == HighRisk <==> predicted == 1
  {
    if predicted == 1 then HighRisk else LowRisk
  }

  /** Every element whose flag is set is selected. */
  lemma {:induction false} SelectedKeeps(xs: seq<string>, keep: seq<bool>, k: nat)
    requires |keep| == |xs| && k < |xs| && keep[k]
    ensures xs[k] in Selected(xs, keep)
  {
    var n := |xs| - 1;
    if k < n {
      SelectedKeeps(xs[..n], keep[..n], k);
    }
  }

  /** In a list without repeats, an element is selected exactly when its flag is set. */
  lemma {:induction false} SelectedMembership(xs: seq<string>, keep: seq<bool>, k: nat)
    requires |keep| == |xs| && Distinct(xs) && k < |xs|
    ensures xs[k] in Selected(xs, keep) <==> keep[k]
  {
    var n := |xs| - 1;
    if keep[k] {
      SelectedKeeps(xs, keep, k);
    } else if k < n {
      SelectedMembership(xs[..n], keep[..n], k);
      assert xs[k] != xs[n];
    } else {
      assert forall x :: x in Selected(xs[..n], keep[..n]) ==> x in xs[..n];
      assert xs[k] !in xs[..n];
    }
  }

  /** Selecting from a list without repeats gives a list without repeats. */
  lemma {:induction false} SelectedDistinct(xs: seq<string>, keep: seq<bool>)
    requires |keep| == |xs| && Distinct(xs)
    ensures Distinct(Selected(xs, keep))
  {
    if xs != [] {
      var n := |xs| - 1;
      SelectedDistinct(xs[..n], keep[..n]);
      assert xs[n] !in xs[..n];
    }
  }

  /** Selection keeps the original order: of two selected elements the earlier comes first. */
  lemma {:induction false} SelectedOrder(xs: seq<string>, keep: seq<bool>, a: nat, b: nat)
    requires |keep| == |xs| && a < b < |xs| && keep[a] && keep[b]
    ensures exists i, j :: (0 <= i < j < |Selected(xs, keep)|
      && Selected(xs, keep)[i] == xs[a] && Selected(xs, keep)[j] == xs[b])
  {
    var n := |xs| - 1;
    var front := Selected(xs[..n], keep[..n]);
    var r := Selected(xs, keep);
    if b == n {
      SelectedKeeps(xs[..n], keep[..n], a);
      var i :| 0 <= i < |front| && front[i] == xs[a];
      assert r[i] == xs[a] && r[|r| - 1] == xs[b];
    } else {
      SelectedOrder(xs[..n], keep[..n], a, b);
      var i, j :| 0 <= i < j < |front| && front[i] == xs[a] && front[j] == xs[b];
      assert r[i] == xs[a] && r[j] == xs[b];
    }
  }

  /** With every flag set, selection keeps the whole list. */
  lemma {:induction false} SelectedAll(xs: seq<string>, keep: seq<bool>)
    requires |keep| == |xs| && forall k :: 0 <= k < |keep| ==> keep[k]
    ensures Selected(xs, keep) == xs
  {
    if xs != [] {
      var n := |xs| - 1;
      SelectedAll(xs[..n], keep[..n]);
      assert xs == xs[..n] + [xs[n]];
    }
  }

  /** With no flag set, selection is empty. */
  lemma {:induction false} SelectedNone(xs: seq<string>, keep: seq<bool>)
    requires |keep| == |xs| && forall k :: 0 <= k < |keep| ==> !keep[k]
    ensures Selected(xs, keep) == []
  {
    if xs != [] {
      var n := |xs| - 1;
      SelectedNone(xs[..n], keep[..n]);
    }
  }

  /** The five explanation strings are pairwise different. */
  lemma ReasonsDistinct()
    ensures Distinct(RuleReasons)
    ensures BalancedReason !in RuleReasons
  {
  }

  /**
   The displayed explanation holds each rule's reason exactly when the rule
   fires, and holds the balanced fallback exactly when no rule fires, alone;
   no line is displayed twice.
   */
  lemma RationaleMembership(s: EngineeredSignals)
    ensures forall k :: 0 <= k < |RuleReasons| ==> (RuleReasons[k] in Rationale(s) <==> Fired(s)[k])
    ensures BalancedReason in Rationale(s) <==>
      s.socialMediaRisk == 0 && s.emotionalLoad <= 1 && s.lowEnergy == 0 && s.highStress == 0
    ensures BalancedReason in Rationale(s) ==> Rationale(s) == [BalancedReason]
    ensures Distinct(Rationale(s))
  {
    ReasonsDistinct();
    SelectedDistinct(RuleReasons, Fired(s));
    var fired := Selected(RuleReasons, Fired(s));
    forall k | 0 <= k < |RuleReasons|
      ensures RuleReasons[k] in fired <==> Fired(s)[k]
    {
      SelectedMembership(RuleReasons, Fired(s), k);
    }
    if fired == [] {
      assert !Fired(s)[0] && !Fired(s)[1] && !Fired(s)[2] && !Fired(s)[3];
    } else {
      assert BalancedReason !in fired;
      assert fired[0] in RuleReasons;
    }
  }

  /**
   Fired reasons are displayed in the fixed rule order, never ranked.
   */
  lemma RationaleOrder(s: EngineeredSignals, a: nat, b: nat)
    requires a < b < |RuleReasons| && Fired(s)[a] && Fired(s)[b]
    ensures exists i, j :: (0 <= i < j < |Rationale(s)|
      && Rationale(s)[i] == RuleReasons[a] && Rationale(s)[j] == RuleReasons[b])
  {
    SelectedKeeps(RuleReasons, Fired(s), a);
    SelectedOrder(RuleReasons, Fired(s), a, b);
    assert Rationale(s) == Selected(RuleReasons, Fired(s));
  }

  /**
   For valid answers, an explanation that cites low energy and high stress also
   cites stress being higher than energy: low energy with high stress forces
   the load above 1.
   */
  lemma LowEnergyAndHighStressCiteLoad(raw: RawInput)
    requires ValidInput(raw)
    ensures LowEnergyReason in Rationale(Engineer(raw)) && HighStressReason in Rationale(Engineer(raw)) ==>
      LoadReason in Rationale(Engineer(raw))
  {
    RationaleMembership(Engineer(raw));
    assert RuleReasons[1] == LoadReason && RuleReasons[2] == LowEnergyReason && RuleReasons[3] == HighStressReason;
  }

  /** The worst-case scenario shows all four rule reasons, in order. */
  lemma ScenarioAllReasons()
    ensures Rationale(Engineer(RawInput(Study, Monday, 3, 1, 1, 5, Yes, 2))) == RuleReasons
  {
    var s := Engineer(RawInput(Study, Monday, 3, 1, 1, 5, Yes, 2));
    SelectedAll(RuleReasons, Fired(s));
  }

  /** The balanced scenario shows only the fallback. */
  lemma ScenarioOnlyFallback()
    ensures Rationale(Engineer(RawInput(Work, Sunday, 3, 3, 3, 3, No, 3))) == [BalancedReason]
  {
    var s := Engineer(RawInput(Work, Sunday, 3, 3, 3, 3, No, 3));
    SelectedNone(RuleReasons, Fired(s));
  }

  /**
   Builds the reasons list by successive appends, one per fired rule in the
   fixed order, and falls back to the balanced reason when none fired.
   */
  method Explain(s: EngineeredSignals) returns (shown: seq<string>)
    ensures shown == Rationale(s)
    ensures |shown| >= 1
  {
    ghost var fired := Fired(s);
    var reasons: seq<string> := [];
    if s.socialMediaRisk != 0 {
      reasons := reasons + [SocialMediaReason];
    }
    assert reasons == Selected(RuleReasons[..1], fired[..1]);
    if s.emotionalLoad > 1 {
      reasons := reasons + [LoadReason];
    }
    assert RuleReasons[..2][..1] == RuleReasons[..1] && fired[..2][..1] == fired[..1];
    assert reasons == Selected(RuleReasons[..2], fired[..2]);
    if s.lowEnergy != 0 {
      reasons := reasons + [LowEnergyReason];
    }
    assert RuleReasons[..3][..2] == RuleReasons[..2] && fired[..3][..2] == fired[..2];
    assert reasons == Selected(RuleReasons[..3], fired[..3]);
    if s.highStress != 0 {
      reasons := reasons + [HighStressReason];
    }
    assert RuleReasons[..3] == RuleReasons[..4][..3] && fired[..3] == fired[..4][..3];
    assert RuleReasons[..4] == RuleReasons && fired[..4] == fired;
    if reasons != [] {
      shown := reasons;
    } else {
      shown := [BalancedReason];
    }
  }

  /**
   One prediction request: align the inputs to the schema, query the
   classifier on the aligned vector, and attach the explanation.
   */
  method Predict(model: Model, schema: seq<string>, raw: RawInput) returns (result: PredictionResult)
    requires ValidInput(raw)
    ensures result.risk == HighRisk <==> model.predict(FeatureVector(raw, schema)) == 1
    ensures result.probability == model.probabilityOfRisk(FeatureVector(raw, schema))
    ensures result.reasons == Rationale(Engineer(raw))
  {
    var vector := BuildFeatureVector(raw, schema);
    var predicted := model.predict(vector);
    var probability := model.probabilityOfRisk(vector);
    var reasons := Explain(Engineer(raw));
    result := PredictionResult(Label(predicted), probability, reasons);
  }
}
