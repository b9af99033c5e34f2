/** The API objects as values, and the annotation that carries the node preference. */
module Objects {
  import opened Prelude
  import opened Labels
  import Q = Quota

  const POLICY_KEY := "placement-policy.x-k8s.io/policy-name"
  const PREFERENCE_KEY := "placement-policy.x-k8s.io/node-preference-matching-labels"

  /** Any mode other than the two named ones, the unset one included, is `OtherMode`. */
  datatype EnforcementMode = BestEffort | Strict | OtherMode(text: string)

  datatype Node = Node(name: string, labels: LabelMap)

  datatype Policy = Policy(name: string, namespace: string, weight: int, mode: EnforcementMode,
                           podSelector: LabelMap, nodeSelector: LabelMap, rule: Q.Rule)

  /** A pod as the API server stores it; an empty node name means that it is not bound. */
  datatype Pod = Pod(uid: string, name: string, namespace: string, labels: LabelMap,
                     annotations: LabelMap, nodeName: string) {
    predicate Bound() {
      nodeName != ""
    }

    function Preference(): Option<bool> {
      ParseBool(Get(annotations, PREFERENCE_KEY))
    }
  }

  const TRUE_TEXTS := ["1", "t", "T", "true", "TRUE", "True"]
  const FALSE_TEXTS := ["0", "f", "F", "false", "FALSE", "False"]

  /** strconv.ParseBool. */
  function ParseBool(s: string): Option<bool> {
    if s in TRUE_TEXTS then Some(true)
    else if s in FALSE_TEXTS then Some(false)
    else None
  }

  function PreferenceText(prefers: bool): string {
    if prefers then "true" else "false"
  }

  /** The pod after the plugin has annotated it. */
  function Annotated(pod: Pod, policy: Policy, prefers: bool): Pod {
    pod.(annotations := pod.annotations[POLICY_KEY := policy.name][PREFERENCE_KEY := PreferenceText(prefers)])
  }

  lemma KeysDiffer()
    ensures POLICY_KEY != PREFERENCE_KEY
  {
    assert |POLICY_KEY| != |PREFERENCE_KEY|;
  }

  lemma PreferenceParses(prefers: bool)
    ensures ParseBool(PreferenceText(prefers)) == Some(prefers)
  {
    assert TRUE_TEXTS[3] == "true" && FALSE_TEXTS[3] == "false";
    forall i | 0 <= i < |TRUE_TEXTS|
      ensures TRUE_TEXTS[i] != "false"
    {
      assert |TRUE_TEXTS[i]| != |"false"|;
    }
  }

  lemma EmptyTextDoesNotParse()
    ensures ParseBool("") == None
  {
    assert forall i | 0 <= i < 6 :: |TRUE_TEXTS[i]| > 0 && |FALSE_TEXTS[i]| > 0;
  }

  /** Exactly the texts that stand for a truth value parse. */
  lemma ParsesExactly(s: string)
    ensures ParseBool(s) == Some(true) <==> s in ["1", "t", "T", "true", "TRUE", "True"]
    ensures ParseBool(s) == Some(false) <==> s in ["0", "f", "F", "false", "FALSE", "False"]
  {
    assert forall i | 0 <= i < 6 :: |TRUE_TEXTS[i]| == |FALSE_TEXTS[i]| ==> TRUE_TEXTS[i][0] != FALSE_TEXTS[i][0];
  }

  /** The annotations after the update, key by key. */
  lemma AnnotationTexts(pod: Pod, policy: Policy, prefers: bool)
    ensures var after := Annotated(pod, policy, prefers).annotations;
            && Get(after, "placement-policy.x-k8s.io/policy-name") == policy.name
            && Get(after, "placement-policy.x-k8s.io/node-preference-matching-labels")
            == (if prefers then "true" else "false")
            && forall k | k !in ["placement-policy.x-k8s.io/policy-name",
                                 "placement-policy.x-k8s.io/node-preference-matching-labels"] ::
                 (k in after <==> k in pod.annotations) && Get(after, k) == Get(pod.annotations, k)
  {
    KeysDiffer();
  }

  /** The written preference reads back as the decision, exactly the two policy keys change, and writing
      twice is writing once with the second decision. */
  lemma AnnotationRoundTrip(pod: Pod, policy: Policy, prefers: bool, again: bool)
    ensures var after := Annotated(pod, policy, prefers);
            && after.Preference() == Some(prefers)
            && Get(after.annotations, POLICY_KEY) == policy.name
            && after.annotations.Keys == pod.annotations.Keys + {POLICY_KEY, PREFERENCE_KEY}
            && (forall k | k in pod.annotations && k != POLICY_KEY && k != PREFERENCE_KEY ::
                  after.annotations[k] == pod.annotations[k])
            && after == pod.(annotations := after.annotations)
            && Annotated(after, policy, again) == Annotated(pod, policy, again)
  {
    KeysDiffer();
    PreferenceParses(prefers);
    var after := Annotated(pod, policy, prefers);
    assert Annotated(after, policy, again).annotations == Annotated(pod, policy, again).annotations;
  }
}
