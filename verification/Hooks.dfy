/** What each extension point of the plugin decides, as functions of what it reads: the lister contents, the
    cycle state and the pod. The methods of module Plugin are proved against these functions. */
module Hooks {
  import opened Prelude
  import Labels
  import opened Objects
  import Grouping
  import Q = Quota
  import N = Normalize

  const PREFILTER_KEY := "Prefilter-placementpolicy"
  const PRESCORE_KEY := "Prescore-placementpolicy"

  datatype Cause = ListPolicies | ListNodes | ListPods | ScaleTarget | AnnotatePod
                 | NodeNotFound | ParseAnnotation | NodeLookup

  datatype Status = Success | Unschedulable | Error(cause: Cause)

  datatype StateData = StateData(name: string, policy: Policy)

  /** What a hook can read (None stands for an error of the lister), and whether the API server accepts its update. */
  datatype Environment = Environment(policies: Option<seq<Policy>>, nodes: Option<seq<Node>>,
                                     pods: Option<seq<Pod>>, updateSucceeds: bool)

  /** A hook's status, the caller's pod object after it, the update it sent, and the cycle state it wrote. */
  datatype Outcome = Outcome(status: Status, pod: Pod, request: Option<Pod>, data: Option<StateData>)

  function Sent(requests: seq<Pod>, request: Option<Pod>): seq<Pod> {
    if request.None? then requests else requests + [request.value]
  }

  /** The pod lister under a selector; it spans all namespaces. */
  function PodsWithLabels(pods: seq<Pod>, want: Labels.LabelMap): seq<Pod> {
    if pods == [] then []
    else
      var listed := PodsWithLabels(pods[..|pods| - 1], want);
      var last := pods[|pods| - 1];
      if Labels.Selects(want, last.labels) then listed + [last] else listed
  }

  /** Should the pod `self` go to the policy's node group? None when the target size is malformed. */
  function Prefers(policy: Policy, nodes: seq<Node>, listed: seq<Pod>, self: string): Option<bool> {
    match Q.Target(policy.rule, |listed|)
    case None => None
    case Some(target) =>
      var group := Grouping.NodeGroup(nodes, policy.nodeSelector).Keys;
      Some(|Grouping.CountedPods(listed, self, group)| < target)
  }

  function DecideAndAnnotate(env: Environment, policy: Policy, nodes: seq<Node>, pod: Pod): Outcome {
    if env.pods.None? then Outcome(Error(ListPods), pod, None, None)
    else
      match Prefers(policy, nodes, PodsWithLabels(env.pods.value, policy.podSelector), pod.uid)
      case None => Outcome(Error(ScaleTarget), pod, None, None)
      case Some(prefers) =>
        var after := Annotated(pod, policy, prefers);
        if env.updateSucceeds then Outcome(Success, after, Some(after), Some(StateData(pod.name, policy)))
        else Outcome(Error(AnnotatePod), after, Some(after), None)
  }

  function PreFilterOutcome(env: Environment, choice: Option<Policy>, pod: Pod): Outcome {
    if env.policies.None? then Outcome(Error(ListPolicies), pod, None, None)
    else if choice.None? || choice.value.mode.BestEffort? then Outcome(Success, pod, None, None)
    else if env.nodes.None? then Outcome(Error(ListNodes), pod, None, None)
    else DecideAndAnnotate(env, choice.value, env.nodes.value, pod)
  }

  function PreScoreOutcome(env: Environment, choice: Option<Policy>, nodes: seq<Node>, pod: Pod): Outcome {
    if env.policies.None? then Outcome(Error(ListPolicies), pod, None, None)
    else if choice.None? || choice.value.mode.Strict? then Outcome(Success, pod, None, None)
    else DecideAndAnnotate(env, choice.value, nodes, pod)
  }

  /** Filter, given the data under PREFILTER_KEY. */
  function FilterStatus(data: Option<StateData>, pod: Pod, node: Option<Node>): Status {
    if node.None? then Error(NodeNotFound)
    else if data.None? then Success
    else if pod.Preference().None? then Error(ParseAnnotation)
    else if Labels.Matches(node.value.labels, data.value.policy.nodeSelector) == pod.Preference().value then Success
    else Unschedulable
  }

  function NodeByName(nodes: seq<Node>, name: string): Option<Node> {
    if nodes == [] then None
    else if nodes[0].name == name then Some(nodes[0])
    else NodeByName(nodes[1..], name)
  }

  /** Score, given the data under PRESCORE_KEY and the node snapshot. */
  function ScoreOf(data: Option<StateData>, pod: Pod, snapshot: seq<Node>, name: string): (N.Int64, Status) {
    if data.None? then (0, Success)
    else
      match NodeByName(snapshot, name)
      case None => (0, Error(NodeLookup))
      case Some(node) =>
        if pod.Preference().None? then (0, Error(ParseAnnotation))
        else
          var nodeMatches := Labels.Matches(node.labels, data.value.policy.nodeSelector);
          (if nodeMatches == pod.Preference().value then 100 else 0, Success)
  }
}
