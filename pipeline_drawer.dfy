/**
 * The bookkeeping behind the pipeline monitor's drawing: the monitor keeps a
 * list of step representations, the time of the configuration they came
 * from and the last reported queue of every router, updates them from the
 * messages the running pipeline publishes, and turns the steps into a
 * directed graph (one node per step, one edge per link to a next step).
 */
module PipelineDrawer {
  import opened Wrappers

  // ---------------------------------------------------------------------
  // Topics and messages

  const GraphTopic: string := "GUI_GRAPH"
  const StagerChangeTopic: string := "GUI_STAGER_CHANGE"
  const ConsumerChangeTopic: string := "GUI_CONSUMER_CHANGE"
  const ProducerChangeTopic: string := "GUI_PRODUCER_CHANGE"
  const RouterChangeTopic: string := "GUI_ROUTER_CHANGE"

  /** The three topics that report the state of one step. */
  predicate IsStepTopic(topic: string) {
    topic == StagerChangeTopic || topic == ConsumerChangeTopic || topic == ProducerChangeTopic
  }

  predicate IsKnownTopic(topic: string) {
    topic == GraphTopic || IsStepTopic(topic) || topic == RouterChangeTopic
  }

  /** What a step of a threaded stage appends to its name: `name$$thread<n>`. */
  const ThreadMarker: string := "$$thread"

  /** A step of the pipeline as the monitor draws it; updated in place. */
  class StagerRep {
    var name: string
    var nextSteps: seq<string>
    var running: bool
    var nbJobDone: int

    constructor (name: string, nextSteps: seq<string> := [], running: bool := false, nbJobDone: int := 0)
      ensures this.name == name && this.nextSteps == nextSteps
      ensures this.running == running && this.nbJobDone == nbJobDone
    {
      this.name := name;
      this.nextSteps := nextSteps;
      this.running := running;
      this.nbJobDone := nbJobDone;
    }
  }

  /** The value of a step at one moment. */
  datatype StepInfo = StepInfo(name: string, nextSteps: seq<string>, running: bool, nbJobDone: int)

  function Info(s: StagerRep): StepInfo
    reads s
  {
    StepInfo(s.name, s.nextSteps, s.running, s.nbJobDone)
  }

  function Snapshot(ss: seq<StagerRep>): seq<StepInfo>
    reads ss
  {
    seq(|ss|, k requires 0 <= k < |ss| reads ss => Info(ss[k]))
  }

  /** No step object appears twice in the list. */
  predicate Distinct(ss: seq<StagerRep>) {
    forall i, j :: 0 <= i < j < |ss| ==> ss[i] != ss[j]
  }

  /** A message as `pipechange` unpacks it, by topic. */
  datatype Message =
    | GraphConfig(configTime: real, steps: Option<seq<StagerRep>>)
    | StepState(name: string, running: bool, nbJobDone: int)
    | RouterState(name: string, queue: string)

  /** The content of a message at one moment. */
  datatype Update =
    | GraphUpdate(configTime: real, steps: Option<seq<StepInfo>>)
    | StepUpdate(name: string, running: bool, nbJobDone: int)
    | RouterUpdate(name: string, queue: string)

  function ValueOf(msg: Message): Update
    reads if msg.GraphConfig? && msg.steps.Some? then msg.steps.value else []
  {
    match msg
    case GraphConfig(time, steps) =>
      GraphUpdate(time, if steps.Some? then Some(Snapshot(steps.value)) else None)
    case StepState(name, running, nbJobDone) => StepUpdate(name, running, nbJobDone)
    case RouterState(name, queue) => RouterUpdate(name, queue)
  }

  // ---------------------------------------------------------------------
  // Names

  /**
   * `s.split(sep)[0]`: the part of `s` before the first occurrence of `sep`,
   * or all of `s` when `sep` does not occur.
   */
  function BeforeSeparator(s: string, sep: string): (r: string)
    requires |sep| > 0
    ensures r <= s
    ensures forall k :: 0 <= k < |r| ==> !(sep <= s[k..])
    ensures r == s || sep <= s[|r|..]
    decreases |s|
  {
    if |s| == 0 || sep <= s then ""
    else
      var rest := BeforeSeparator(s[1..], sep);
      assert forall k :: 1 <= k <= |s| ==> s[k..] == s[1..][k - 1..];
      [s[0]] + rest
  }

  /** A name without the thread marker is its own base name. */
  lemma PlainNameIsItsOwnBase(s: string)
    requires forall k :: 0 <= k <= |s| ==> !(ThreadMarker <= s[k..])
    ensures BeforeSeparator(s, ThreadMarker) == s
  {
  }

  /** The base name of a threaded step is the name before the marker. */
  lemma ThreadedNameBase(base: string, suffix: string)
    requires forall k :: 0 <= k < |base| ==> !(ThreadMarker <= (base + ThreadMarker + suffix)[k..])
    ensures BeforeSeparator(base + ThreadMarker + suffix, ThreadMarker) == base
  {
    var s := base + ThreadMarker + suffix;
    assert s[|base|..] == ThreadMarker + suffix;
  }

  function Names(vs: seq<StepInfo>): (r: seq<string>)
    ensures |r| == |vs| && forall k :: 0 <= k < |vs| ==> r[k] == vs[k].name
  {
    seq(|vs|, k requires 0 <= k < |vs| => vs[k].name)
  }

  /** The index of the first occurrence of `key`, or `None` when it does not occur. */
  function FindFirst(names: seq<string>, key: string): (r: Option<nat>)
    ensures r.None? <==> key !in names
    ensures r.Some? ==> r.value < |names| && names[r.value] == key && key !in names[..r.value]
  {
    if |names| == 0 then None
    else if names[0] == key then Some(0)
    else
      match FindFirst(names[1..], key)
      case None => None
      case Some(i) =>
        assert names[..i + 1] == [names[0]] + names[1..][..i];
        Some(i + 1)
  }

  /** The first occurrence is the only index with the name and none before it. */
  lemma FindFirstAt(names: seq<string>, key: string, k: nat)
    requires k < |names| && names[k] == key && key !in names[..k]
    ensures FindFirst(names, key) == Some(k)
  {
  }

  /** `key` does not occur among the first `k` steps. */
  predicate NoEarlierMatch(vs: seq<StepInfo>, key: string, k: nat)
    requires k <= |vs|
  {
    forall j :: 0 <= j < k ==> vs[j].name != key
  }

  /**
   * The effect of a step report on the steps: the first step named `key` gets
   * the new `running` and `nbJobDone`; every other step, and every other
   * field, is unchanged; with no step named `key` nothing changes.
   */
  function UpdateFirst(vs: seq<StepInfo>, key: string, running: bool, nbJobDone: int): (r: seq<StepInfo>)
    ensures |r| == |vs|
    ensures forall k :: 0 <= k < |vs| ==>
      r[k] == if vs[k].name == key && NoEarlierMatch(vs, key, k)
              then vs[k].(running := running, nbJobDone := nbJobDone)
              else vs[k]
    ensures Names(r) == Names(vs)
  {
    match FindFirst(Names(vs), key)
    case None => vs
    case Some(i) =>
      assert forall j :: 0 <= j < i ==> Names(vs)[..i][j] == vs[j].name;
      vs[i := vs[i].(running := running, nbJobDone := nbJobDone)]
  }

  // ---------------------------------------------------------------------
  // The graph

  datatype Node = Node(name: string, filled: bool)

  datatype Edge = Edge(tail: string, head: string)

  datatype Digraph = Digraph(nodes: seq<Node>, edges: seq<Edge>)

  /** The edges out of one step, in the order of its next steps. */
  function StepEdges(v: StepInfo): seq<Edge> {
    seq(|v.nextSteps|, j requires 0 <= j < |v.nextSteps| => Edge(v.name, v.nextSteps[j]))
  }

  /** The edges out of every step, step after step. */
  function EdgesOf(vs: seq<StepInfo>): seq<Edge> {
    if |vs| == 0 then [] else EdgesOf(vs[..|vs| - 1]) + StepEdges(vs[|vs| - 1])
  }

  /** An edge is drawn exactly for every pair of a step and one of its next steps. */
  lemma {:induction false} EdgesOfMembership(vs: seq<StepInfo>, e: Edge)
    ensures e in EdgesOf(vs) <==>
      exists k, j :: 0 <= k < |vs| && 0 <= j < |vs[k].nextSteps| && e == Edge(vs[k].name, vs[k].nextSteps[j])
  {
    if |vs| > 0 {
      var init, last := vs[..|vs| - 1], vs[|vs| - 1];
      EdgesOfMembership(init, e);
      if e in EdgesOf(vs) {
        if e in EdgesOf(init) {
          var k, j :| 0 <= k < |init| && 0 <= j < |init[k].nextSteps| && e == Edge(init[k].name, init[k].nextSteps[j]);
          assert vs[k] == init[k];
        } else {
          var j :| 0 <= j < |StepEdges(last)| && StepEdges(last)[j] == e;
          assert e == Edge(vs[|vs| - 1].name, vs[|vs| - 1].nextSteps[j]);
        }
      } else {
        forall k, j | 0 <= k < |vs| && 0 <= j < |vs[k].nextSteps|
          ensures e != Edge(vs[k].name, vs[k].nextSteps[j])
        {
          if k < |init| {
            assert vs[k] == init[k];
          } else {
            assert StepEdges(last)[j] == Edge(vs[k].name, vs[k].nextSteps[j]);
          }
        }
      }
    }
  }

  /** The number of edges is the total number of next steps. */
  lemma {:induction false} EdgesOfCount(vs: seq<StepInfo>)
    ensures |EdgesOf(vs)| == TotalNextSteps(vs)
  {
    if |vs| > 0 {
      EdgesOfCount(vs[..|vs| - 1]);
    }
  }

  function TotalNextSteps(vs: seq<StepInfo>): nat {
    if |vs| == 0 then 0 else TotalNextSteps(vs[..|vs| - 1]) + |vs[|vs| - 1].nextSteps|
  }

  lemma EdgesOfAppend(vs: seq<StepInfo>, v: StepInfo)
    ensures EdgesOf(vs + [v]) == EdgesOf(vs) + StepEdges(v)
  {
    assert (vs + [v])[..|vs|] == vs;
  }

  /** Every next step names some step, so that the edge can find its head. */
  predicate Resolves(vs: seq<StepInfo>) {
    forall k, j :: 0 <= k < |vs| && 0 <= j < |vs[k].nextSteps| ==> vs[k].nextSteps[j] in Names(vs)
  }

  // ---------------------------------------------------------------------
  // The drawer's state, as a value

  datatype DrawerState = DrawerState(steps: Option<seq<StepInfo>>, configTime: real, queues: map<string, string>)

  /** The message carries what its topic says it carries. */
  predicate Fits(topic: string, u: Update, haveSteps: bool) {
    && (topic == GraphTopic ==> u.GraphUpdate?)
    && (IsStepTopic(topic) && haveSteps ==> u.StepUpdate?)
    && (topic == RouterChangeTopic ==> u.RouterUpdate?)
  }

  /**
   * What `pipechange` does to the state: a new configuration replaces the
   * steps when its time differs; a step report updates the first step of the
   * reported base name, when there are steps; a router report sets that
   * router's queue; anything else changes nothing.
   */
  function Transition(s: DrawerState, topic: string, u: Update): (r: DrawerState)
    requires Fits(topic, u, s.steps.Some?)
    ensures topic == GraphTopic ==>
      if u.configTime != s.configTime then r == s.(steps := u.steps, configTime := u.configTime) else r == s
    ensures IsStepTopic(topic) ==> r.configTime == s.configTime && r.queues == s.queues
    ensures IsStepTopic(topic) && s.steps.None? ==> r == s
    ensures IsStepTopic(topic) && s.steps.Some? ==>
      var key := BeforeSeparator(u.name, ThreadMarker);
      r.steps.Some? && |r.steps.value| == |s.steps.value| &&
      forall k :: 0 <= k < |s.steps.value| ==>
        r.steps.value[k] == if s.steps.value[k].name == key && NoEarlierMatch(s.steps.value, key, k)
                            then s.steps.value[k].(running := u.running, nbJobDone := u.nbJobDone)
                            else s.steps.value[k]
    ensures topic == RouterChangeTopic ==>
      r.steps == s.steps && r.configTime == s.configTime &&
      r.queues.Keys == s.queues.Keys + {u.name} && r.queues[u.name] == u.queue &&
      forall n :: n in s.queues && n != u.name ==> r.queues[n] == s.queues[n]
    ensures !IsKnownTopic(topic) ==> r == s
  {
    var s1 := if topic == GraphTopic && u.configTime != s.configTime
              then s.(steps := u.steps, configTime := u.configTime) else s;
    var s2 := if s1.steps.Some? && IsStepTopic(topic)
              then s1.(steps := Some(UpdateFirst(s1.steps.value, BeforeSeparator(u.name, ThreadMarker), u.running, u.nbJobDone)))
              else s1;
    if topic == RouterChangeTopic then s2.(queues := s2.queues[u.name := u.queue]) else s2
  }

  /** A configuration of the same time as the current one is ignored. */
  lemma SameConfigTimeIsIgnored(s: DrawerState, steps: Option<seq<StepInfo>>)
    ensures Transition(s, GraphTopic, GraphUpdate(s.configTime, steps)) == s
  {
  }

  /** Resending a configuration changes nothing the second time. */
  lemma ConfigIsIdempotent(s: DrawerState, u: Update)
    requires u.GraphUpdate?
    ensures var once := Transition(s, GraphTopic, u);
      Transition(once, GraphTopic, u) == once
  {
  }

  /** A step report about a name no step carries changes nothing. */
  lemma UnknownStepIsIgnored(s: DrawerState, topic: string, u: Update)
    requires IsStepTopic(topic) && u.StepUpdate? && s.steps.Some?
    requires BeforeSeparator(u.name, ThreadMarker) !in Names(s.steps.value)
    ensures Transition(s, topic, u) == s
  {
    var key := BeforeSeparator(u.name, ThreadMarker);
    var r := Transition(s, topic, u);
    forall k | 0 <= k < |s.steps.value|
      ensures r.steps.value[k] == s.steps.value[k]
    {
      assert Names(s.steps.value)[k] == s.steps.value[k].name;
    }
  }

  /** Step reports keep the list of step names, in order. */
  lemma StepReportKeepsNames(s: DrawerState, topic: string, u: Update)
    requires IsStepTopic(topic) && u.StepUpdate? && s.steps.Some?
    ensures var r := Transition(s, topic, u);
      r.steps.Some? && Names(r.steps.value) == Names(s.steps.value)
  {
  }

  // ---------------------------------------------------------------------
  // The drawer

  /**
   * The steps `ss` went from `before` to `after` under a report for `key`:
   * every occurrence of the first step named `key` carries the new
   * `running` and `nbJobDone`, and everything else is as before.
   */
  predicate FirstMatchUpdated(ss: seq<StagerRep>, before: seq<StepInfo>, after: seq<StepInfo>,
                              key: string, running: bool, nbJobDone: int)
  {
    var hit := FindFirst(Names(before), key);
    && |before| == |ss| && |after| == |ss|
    && forall k :: 0 <= k < |ss| ==>
         after[k] == if hit.Some? && ss[k] == ss[hit.value]
                     then before[k].(running := running, nbJobDone := nbJobDone)
                     else before[k]
  }

  class Drawer {
    var steps: Option<seq<StagerRep>>
    var configTime: real
    var queues: map<string, string>

    ghost function Objects(): set<StagerRep>
      reads this
    {
      if steps.Some? then set s | s in steps.value else {}
    }

    /** The state as a value. */
    function Abstract(): DrawerState
      reads this, Objects()
    {
      DrawerState(if steps.Some? then Some(Snapshot(steps.value)) else None, configTime, queues)
    }

    /** A new drawer has no steps, configuration time 0 and no queues. */
    constructor ()
      ensures steps == Some([]) && configTime == 0.0 && queues == map[]
    {
      steps := Some([]);
      configTime := 0.0;
      queues := map[];
    }

    /**
     * `step_change`: update, in place, the first step whose name is the
     * reported name up to its thread marker.
     */
    method StepChange(name: string, running: bool, nbJobDone: int)
      requires steps.Some?
      modifies Objects()
      ensures FirstMatchUpdated(steps.value, old(Snapshot(steps.value)), Snapshot(steps.value),
                                BeforeSeparator(name, ThreadMarker), running, nbJobDone)
      ensures Distinct(steps.value) ==>
        Snapshot(steps.value) == UpdateFirst(old(Snapshot(steps.value)), BeforeSeparator(name, ThreadMarker), running, nbJobDone)
    {
      var ss := steps.value;
      ghost var before := Snapshot(ss);
      var i := 0;
      while i < |ss|
        invariant 0 <= i <= |ss|
        invariant forall j :: 0 <= j < i ==> before[j].name != BeforeSeparator(name, ThreadMarker)
        invariant forall o :: o in ss ==> Info(o) == old(Info(o))
      {
        var base := BeforeSeparator(name, ThreadMarker);
        if ss[i].name == base {
          ss[i].running := running;
          ss[i].nbJobDone := nbJobDone;
          break;
        }
        i := i + 1;
      }
      ghost var after := Snapshot(ss);
      if i < |ss| {
        forall k | 0 <= k < |ss|
          ensures after[k] == if ss[k] == ss[i] then before[k].(running := running, nbJobDone := nbJobDone) else before[k]
        {
        }
      } else {
        assert after == before;
      }
      StepChangeEffect(ss, before, after, BeforeSeparator(name, ThreadMarker), running, nbJobDone, i);
    }

    /** `router_change`: record the router's queue. */
    method RouterChange(name: string, queue: string)
      modifies this
      ensures steps == old(steps) && configTime == old(configTime)
      ensures queues == old(queues)[name := queue]
    {
      queues := queues[name := queue];
    }

    /** `get_step_by_name`: the first step named exactly `name`, if any. */
    method GetStepByName(name: string) returns (r: Option<StagerRep>)
      requires steps.Some?
      ensures var hit := FindFirst(Names(Snapshot(steps.value)), name);
        (r.None? <==> hit.None?) && (r.Some? ==> r.value == steps.value[hit.value])
    {
      var ss := steps.value;
      ghost var vs := Snapshot(ss);
      for k := 0 to |ss|
        invariant forall j :: 0 <= j < k ==> vs[j].name != name
      {
        if ss[k].name == name {
          assert name !in Names(vs)[..k];
          FindFirstAt(Names(vs), name, k);
          return Some(ss[k]);
        }
      }
      assert name !in Names(vs);
      return None;
    }

    /**
     * `build_graph`: one node per step, filled exactly when the step runs,
     * then one edge per step and next step. A next step that names no step
     * makes the edge fail (`None` has no name): the result is `None`.
     */
    method BuildGraph() returns (g: Option<Digraph>)
      requires steps.Some?
      ensures var vs := Snapshot(steps.value);
        && (g.Some? <==> Resolves(vs))
        && (g.Some? ==> |g.value.nodes| == |vs| &&
                        (forall k :: 0 <= k < |vs| ==> g.value.nodes[k] == Node(vs[k].name, vs[k].running)))
        && (g.Some? ==> g.value.edges == EdgesOf(vs))
    {
      var ss := steps.value;
      ghost var vs := Snapshot(ss);
      var nodes := BuildNodes();
      var edges: seq<Edge> := [];
      for k := 0 to |ss|
        invariant edges == EdgesOf(vs[..k])
        invariant forall i, j :: 0 <= i < k && 0 <= j < |vs[i].nextSteps| ==> vs[i].nextSteps[j] in Names(vs)
      {
        var out := BuildStepEdges(ss[k]);
        assert vs[k] == Info(ss[k]);
        if out.None? {
          assert !Resolves(vs);
          return None;
        }
        assert vs[..k + 1] == vs[..k] + [vs[k]];
        EdgesOfAppend(vs[..k], vs[k]);
        edges := edges + out.value;
      }
      assert vs[..|ss|] == vs;
      g := Some(Digraph(nodes, edges));
    }

    /** The node loop of `build_graph`. */
    method BuildNodes() returns (nodes: seq<Node>)
      requires steps.Some?
      ensures var vs := Snapshot(steps.value);
        |nodes| == |vs| && forall k :: 0 <= k < |vs| ==> nodes[k] == Node(vs[k].name, vs[k].running)
    {
      var ss := steps.value;
      ghost var vs := Snapshot(ss);
      nodes := [];
      for k := 0 to |ss|
        invariant |nodes| == k
        invariant forall i :: 0 <= i < k ==> nodes[i] == Node(vs[i].name, vs[i].running)
      {
        if ss[k].running {
          nodes := nodes + [Node(ss[k].name, true)];
        } else {
          nodes := nodes + [Node(ss[k].name, false)];
        }
      }
    }

    /**
     * The inner edge loop of `build_graph` for one step: an edge to every
     * next step, looked up by name; `None` as soon as one is not found.
     */
    method BuildStepEdges(step: StagerRep) returns (out: Option<seq<Edge>>)
      requires steps.Some?
      ensures var vs := Snapshot(steps.value);
        && (out.Some? <==> forall j :: 0 <= j < |step.nextSteps| ==> step.nextSteps[j] in Names(vs))
        && (out.Some? ==> out.value == StepEdges(Info(step)))
    {
      ghost var vs := Snapshot(steps.value);
      var next := step.nextSteps;
      var edges: seq<Edge> := [];
      for j := 0 to |next|
        invariant edges == StepEdges(Info(step))[..j]
        invariant forall jj :: 0 <= jj < j ==> next[jj] in Names(vs)
      {
        var nextStep := GetStepByName(next[j]);
        if nextStep.None? {
          return None;
        }
        ghost var h := FindFirst(Names(vs), next[j]).value;
        assert nextStep.value == steps.value[h] && vs[h] == Info(steps.value[h]);
        edges := edges + [Edge(step.name, nextStep.value.name)];
        assert StepEdges(Info(step))[..j + 1] == StepEdges(Info(step))[..j] + [Edge(step.name, next[j])];
      }
      assert StepEdges(Info(step))[..|next|] == StepEdges(Info(step));
      return Some(edges);
    }

    /**
     * `pipechange`: dispatch one message on its topic. Redrawing the widget
     * afterwards is not part of this model.
     */
    method PipeChange(topic: string, msg: Message)
      requires topic == GraphTopic ==> msg.GraphConfig?
      requires IsStepTopic(topic) && steps.Some? ==> msg.StepState?
      requires topic == RouterChangeTopic ==> msg.RouterState?
      modifies this, Objects()
      ensures IsStepTopic(topic) && old(steps).Some? ==>
        steps == old(steps) &&
        FirstMatchUpdated(steps.value, old(Snapshot(steps.value)), Snapshot(steps.value),
                          BeforeSeparator(msg.name, ThreadMarker), msg.running, msg.nbJobDone)
      ensures !(IsStepTopic(topic) && old(steps).Some?) ==> unchanged(old(Objects()))
      ensures (IsStepTopic(topic) && old(steps).Some? ==> Distinct(old(steps).value)) ==>
        Abstract() == Transition(old(Abstract()), topic, old(ValueOf(msg)))
    {
      ghost var s0, u := Abstract(), ValueOf(msg);
      if topic == GraphTopic {
        if msg.configTime != configTime {
          steps := msg.steps;
          configTime := msg.configTime;
        }
      }
      ghost var s1 := Abstract();
      assert s1 == if topic == GraphTopic && u.configTime != s0.configTime
                   then s0.(steps := u.steps, configTime := u.configTime) else s0;
      if steps.Some? && IsStepTopic(topic) {
        StepChange(msg.name, msg.running, msg.nbJobDone);
      }
      ghost var s2 := Abstract();
      assert (IsStepTopic(topic) && old(steps).Some? ==> Distinct(old(steps).value)) ==>
        s2 == if s1.steps.Some? && IsStepTopic(topic)
              then s1.(steps := Some(UpdateFirst(s1.steps.value, BeforeSeparator(u.name, ThreadMarker), u.running, u.nbJobDone)))
              else s1;
      if topic == RouterChangeTopic {
        RouterChange(msg.name, msg.queue);
      }
    }
  }

  /**
   * What the search loop of `StepChange` leaves behind: it stopped at the
   * first step `i` named `key`, having updated that object only, or ran off
   * the end and changed nothing.
   */
  lemma StepChangeEffect(ss: seq<StagerRep>, before: seq<StepInfo>, after: seq<StepInfo>,
                         key: string, running: bool, nbJobDone: int, i: nat)
    requires |before| == |ss| && |after| == |ss| && i <= |ss|
    requires forall j :: 0 <= j < i ==> before[j].name != key
    requires i == |ss| ==> after == before
    requires i < |ss| ==>
      before[i].name == key &&
      forall k :: 0 <= k < |ss| ==>
        after[k] == if ss[k] == ss[i] then before[k].(running := running, nbJobDone := nbJobDone) else before[k]
    ensures FirstMatchUpdated(ss, before, after, key, running, nbJobDone)
    ensures Distinct(ss) ==> after == UpdateFirst(before, key, running, nbJobDone)
  {
    var hit := FindFirst(Names(before), key);
    assert Names(before)[..i] == Names(before[..i]);
    if i < |ss| {
      assert hit == Some(i);
    } else {
      assert hit == None;
    }
  }
}
