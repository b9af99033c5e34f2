/** The plugin and its policy manager as the scheduler calls them: they share the pod object, its annotation map
    and the cycle state with the framework, and change them in place. */
module Plugin {
  import opened Prelude
  import opened Labels
  import opened Objects
  import Grouping
  import PolicyChoice
  import opened Hooks
  import Q = Quota
  import N = Normalize

  /** A Go map of annotations, which several pod objects may share. */
  class AnnotationMap {
    var entries: LabelMap

    constructor ()
      ensures entries == map[]
    {
      entries := map[];
    }
  }

  /** The framework's pod object. A nil annotation map reads as the empty map. */
  class PodObject {
    const uid: string
    const name: string
    const namespace: string
    const labels: LabelMap
    const nodeName: string
    var annotations: AnnotationMap?

    constructor (pod: Pod)
      ensures Value() == pod && fresh(Footprint())
    {
      uid, name, namespace, labels, nodeName := pod.uid, pod.name, pod.namespace, pod.labels, pod.nodeName;
      var m := new AnnotationMap();
      m.entries := pod.annotations;
      annotations := m;
    }

    function Footprint(): set<object>
      reads this
    {
      if annotations == null then {this} else {this, annotations}
    }

    function Value(): Pod
      reads Footprint()
    {
      Pod(uid, name, namespace, labels, if annotations == null then map[] else annotations.entries, nodeName)
    }
  }

  class CycleState {
    var data: map<string, StateData>

    constructor ()
      ensures data == map[]
    {
      data := map[];
    }

    function Read(key: string): Option<StateData>
      reads this
    {
      if key in data then Some(data[key]) else None
    }
  }

  class PlacementPolicyManager {
    const indexer: array?<Policy>  // null: the policy lister fails
    var podLister: Option<seq<Pod>>  // what it holds changes as its watch goes on
    var updateSucceeds: bool  // the API server's answer to the next update
    var requests: seq<Pod>  // the pod updates sent to the API server

    constructor (indexer: array?<Policy>, podLister: Option<seq<Pod>>, updateSucceeds: bool)
      ensures this.indexer == indexer && this.podLister == podLister && this.updateSucceeds == updateSucceeds
      ensures requests == []
    {
      this.indexer, this.podLister, this.updateSucceeds := indexer, podLister, updateSucceeds;
      requests := [];
    }

    ghost function Env(nodes: Option<seq<Node>>): Environment
      reads this, indexer
    {
      Environment(if indexer == null then None else Some(indexer[..]), nodes, podLister, updateSucceeds)
    }

    method GetPodsWithLabels(want: LabelMap) returns (listed: Option<seq<Pod>>)
      ensures listed == if podLister.None? then None else Some(PodsWithLabels(podLister.value, want))
    {
      listed := if podLister.None? then None else Some(PodsWithLabels(podLister.value, want));
    }

    /** Writes through the pod's own annotation map when it has one; the pod object keeps the annotations even when
        the update fails. */
    method AnnotatePod(pod: PodObject, policy: Policy, prefers: bool) returns (updated: Option<Pod>)
      modifies this`requests, pod, pod.Footprint()
      ensures pod.Value() == Annotated(old(pod.Value()), policy, prefers)
      ensures pod.Value().annotations
           == old(pod.Value()).annotations
                ["placement-policy.x-k8s.io/policy-name" := policy.name]
                ["placement-policy.x-k8s.io/node-preference-matching-labels" := if prefers then "true" else "false"]
      ensures pod.annotations == old(pod.annotations) || (old(pod.annotations) == null && fresh(pod.annotations))
      ensures requests == old(requests) + [pod.Value()]
      ensures updated == if updateSucceeds then Some(pod.Value()) else None
    {
      var annotations := new AnnotationMap();
      if pod.annotations != null {
        annotations := pod.annotations;
      }
      var preference := "false";
      if prefers {
        preference := "true";
      }
      annotations.entries := annotations.entries[POLICY_KEY := policy.name];
      annotations.entries := annotations.entries[PREFERENCE_KEY := preference];
      pod.annotations := annotations;
      requests := requests + [pod.Value()];
      updated := if updateSucceeds then Some(pod.Value()) else None;
    }
  }

  class PlacementPolicyPlugin {
    const mgr: PlacementPolicyManager
    const snapshot: Option<seq<Node>>  // None: the node lister fails

    constructor (mgr: PlacementPolicyManager, snapshot: Option<seq<Node>>)
      ensures this.mgr == mgr && this.snapshot == snapshot
    {
      this.mgr, this.snapshot := mgr, snapshot;
    }

    ghost function Env(): Environment
      reads mgr, mgr.indexer
    {
      mgr.Env(snapshot)
    }

    /** The nodes that can be looked up by name: none while the snapshot is unavailable. */
    function SnapshotNodes(): seq<Node> {
      if snapshot.None? then [] else snapshot.value
    }

    /** Count the placed pods and compare them with the target. */
    method Compare(self: string, policy: Policy, nodes: seq<Node>) returns (prefers: bool, failure: Option<Cause>)
      ensures mgr.podLister.None? ==> failure == Some(ListPods)
      ensures mgr.podLister.Some? ==>
                var decision := Prefers(policy, nodes, PodsWithLabels(mgr.podLister.value, policy.podSelector), self);
                if decision.None? then failure == Some(ScaleTarget) else failure == None && prefers == decision.value
    {
      prefers := false;
      var group := Grouping.GroupNodesWithLabels(nodes, policy.nodeSelector);
      var podList := mgr.GetPodsWithLabels(policy.podSelector);
      if podList.None? {
        return prefers, Some(ListPods);
      }
      var counted := Grouping.GroupPodsBasedOnNodePreference(podList.value, self, group);
      var targetSize := Q.Scaled(policy.rule.size, |podList.value|);
      if targetSize.None? {
        return prefers, Some(ScaleTarget);
      }
      var target := targetSize.value;
      if policy.rule.action.MustNot? {
        target := |podList.value| - target;
      }
      if |counted| < target {
        prefers := true;
      }
      failure := None;
    }

    /** The common tail of PreFilter and PreScore, which the source writes out in both. It succeeds only with a
        decision. */
    method Decide(state: CycleState, key: string, pod: PodObject, policy: Policy, nodes: seq<Node>)
      returns (status: Status)
      modifies state, mgr`requests, pod, pod.Footprint()
      ensures var out := DecideAndAnnotate(old(Env()), policy, nodes, old(pod.Value()));
              && status == out.status && pod.Value() == out.pod
              && mgr.requests == Sent(old(mgr.requests), out.request)
              && state.data == if out.data.None? then old(state.data) else old(state.data)[key := out.data.value]
      ensures status == if mgr.podLister.None? then Error(ListPods)
                        else if policy.rule.size.Malformed? then Error(ScaleTarget)
                        else if !mgr.updateSucceeds then Error(Cause.AnnotatePod)
                        else Success
      ensures mgr.podLister.None? || policy.rule.size.Malformed? ==>
                pod.Value() == old(pod.Value()) && mgr.requests == old(mgr.requests) && state.data == old(state.data)
      ensures pod.annotations == old(pod.annotations) || (old(pod.annotations) == null && fresh(pod.annotations))
    {
      var prefers, failure := Compare(pod.uid, policy, nodes);
      if failure.Some? {
        return Error(failure.value);
      }
      var updated := mgr.AnnotatePod(pod, policy, prefers);
      if updated.None? {
        return Error(Cause.AnnotatePod);
      }
      state.data := state.data[key := StateData(updated.value.name, policy)];
      return Success;
    }

    /** It succeeds without deciding for a pod that no policy governs, or a BestEffort one. */
    method PreFilter(state: CycleState, pod: PodObject) returns (status: Status, ghost choice: Option<Policy>)
      modifies state, mgr`requests, pod, pod.Footprint()
      ensures mgr.indexer != null ==> PolicyChoice.IsChoice(mgr.indexer[..], old(pod.Value()), choice)
      ensures var out := PreFilterOutcome(old(Env()), choice, old(pod.Value()));
              && status == out.status && pod.Value() == out.pod
              && mgr.requests == Sent(old(mgr.requests), out.request)
              && state.data == if out.data.None? then old(state.data)
                               else old(state.data)["Prefilter-placementpolicy" := out.data.value]
      ensures status == Success <==>
                && mgr.indexer != null
                && (choice.Some? && choice.value.mode != BestEffort ==>
                      && snapshot.Some? && mgr.podLister.Some? && !choice.value.rule.size.Malformed?
                      && mgr.updateSucceeds)
      ensures status != Success ==>
                status == Error(if mgr.indexer == null then ListPolicies
                                else if snapshot.None? then ListNodes
                                else if mgr.podLister.None? then ListPods
                                else if choice.Some? && choice.value.rule.size.Malformed? then ScaleTarget
                                else Cause.AnnotatePod)
      ensures mgr.indexer != null
              && (choice.Some? ==> choice.value.mode == BestEffort || snapshot.None? || mgr.podLister.None?
                                   || choice.value.rule.size.Malformed?) ==>
                pod.Value() == old(pod.Value()) && mgr.requests == old(mgr.requests) && state.data == old(state.data)
      ensures mgr.indexer != null && (forall p | p in mgr.indexer[..] :: !PolicyChoice.Governs(p, old(pod.Value()))) ==>
                && status == Success && pod.Value() == old(pod.Value())
                && mgr.requests == old(mgr.requests) && state.data == old(state.data)
      ensures pod.annotations == old(pod.annotations) || (old(pod.annotations) == null && fresh(pod.annotations))
    {
      choice := None;
      if mgr.indexer == null {
        return Error(ListPolicies), choice;
      }
      var pp := PolicyChoice.GetPlacementPolicyForPod(mgr.indexer, pod.Value());
      choice := pp;
      if pp.None? {
        return Success, choice;
      }
      if pp.value.mode.BestEffort? {
        return Success, choice;
      }
      if snapshot.None? {
        return Error(ListNodes), choice;
      }
      status := Decide(state, PREFILTER_KEY, pod, pp.value, snapshot.value);
    }

    method Filter(state: CycleState, pod: PodObject, node: Option<Node>) returns (status: Status)
      ensures status == FilterStatus(state.Read("Prefilter-placementpolicy"), pod.Value(), node)
    {
      if node.None? {
        return Error(NodeNotFound);
      }
      var data := state.Read(PREFILTER_KEY);
      if data.None? {
        return Success;
      }
      var nodeMatches := Grouping.CheckHasLabels(node.value.labels, data.value.policy.nodeSelector);
      var prefers := ParseBool(Get(pod.Value().annotations, PREFERENCE_KEY));
      if prefers.None? {
        return Error(ParseAnnotation);
      }
      if (nodeMatches && prefers.value) || (!nodeMatches && !prefers.value) {
        return Success;
      }
      return Unschedulable;
    }

    /** It succeeds without deciding for a pod that no policy governs, or a Strict one. */
    method PreScore(state: CycleState, pod: PodObject, nodes: seq<Node>)
      returns (status: Status, ghost choice: Option<Policy>)
      modifies state, mgr`requests, pod, pod.Footprint()
      ensures mgr.indexer != null ==> PolicyChoice.IsChoice(mgr.indexer[..], old(pod.Value()), choice)
      ensures var out := PreScoreOutcome(old(Env()), choice, nodes, old(pod.Value()));
              && status == out.status && pod.Value() == out.pod
              && mgr.requests == Sent(old(mgr.requests), out.request)
              && state.data == if out.data.None? then old(state.data)
                               else old(state.data)["Prescore-placementpolicy" := out.data.value]
      ensures status == Success <==>
                && mgr.indexer != null
                && (choice.Some? && choice.value.mode != Strict ==>
                      mgr.podLister.Some? && !choice.value.rule.size.Malformed? && mgr.updateSucceeds)
      ensures status != Success ==>
                status == Error(if mgr.indexer == null then ListPolicies
                                else if mgr.podLister.None? then ListPods
                                else if choice.Some? && choice.value.rule.size.Malformed? then ScaleTarget
                                else Cause.AnnotatePod)
      ensures mgr.indexer != null
              && (choice.Some? ==> choice.value.mode == Strict || mgr.podLister.None?
                                   || choice.value.rule.size.Malformed?) ==>
                pod.Value() == old(pod.Value()) && mgr.requests == old(mgr.requests) && state.data == old(state.data)
      ensures mgr.indexer != null && (forall p | p in mgr.indexer[..] :: !PolicyChoice.Governs(p, old(pod.Value()))) ==>
                && status == Success && pod.Value() == old(pod.Value())
                && mgr.requests == old(mgr.requests) && state.data == old(state.data)
      ensures pod.annotations == old(pod.annotations) || (old(pod.annotations) == null && fresh(pod.annotations))
    {
      choice := None;
      if mgr.indexer == null {
        return Error(ListPolicies), choice;
      }
      var pp := PolicyChoice.GetPlacementPolicyForPod(mgr.indexer, pod.Value());
      choice := pp;
      if pp.None? {
        return Success, choice;
      }
      if pp.value.mode.Strict? {
        return Success, choice;
      }
      status := Decide(state, PRESCORE_KEY, pod, pp.value, nodes);
    }

    method Score(state: CycleState, pod: PodObject, nodeName: string) returns (score: N.Int64, status: Status)
      ensures (score, status) == ScoreOf(state.Read("Prescore-placementpolicy"), pod.Value(), SnapshotNodes(), nodeName)
    {
      var data := state.Read(PRESCORE_KEY);
      if data.None? {
        return 0, Success;
      }
      if snapshot.None? {
        return 0, Error(NodeLookup);
      }
      var node := NodeByName(snapshot.value, nodeName);
      if node.None? {
        return 0, Error(NodeLookup);
      }
      var nodeMatches := Grouping.CheckHasLabels(node.value.labels, data.value.policy.nodeSelector);
      var prefers := ParseBool(Get(pod.Value().annotations, PREFERENCE_KEY));
      if prefers.None? {
        return 0, Error(ParseAnnotation);
      }
      if (nodeMatches && prefers.value) || (!nodeMatches && !prefers.value) {
        return 100, Success;
      }
      return 0, Success;
    }
  }
}
