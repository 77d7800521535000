/** AllCondition: a done condition built from an ordered tuple of child
    conditions. `reset` forwards to every child in order; `is_done` seeds a
    per-agent dictionary with False and `&=`s every child's verdicts into it.

    The shared-info dictionary is passed by reference in the source and may be
    changed by any child; here it is threaded as a value from one child call
    to the next, so the state seen by child i is what children 0..i-1 left. */
module AllCondition {
  import opened Api
  import GoalCondition

  /** A child done condition: a GoalCondition, or any other done condition,
      given by what its `reset` and `is_done` do to the shared info and what
      `is_done` returns. */
  datatype Condition =
    | Goal
    | Other(onReset: (GameState, SharedInfo) -> SharedInfo,
            onIsDone: (seq<AgentID>, GameState, SharedInfo) -> (map<AgentID, bool>, SharedInfo))

  function ChildReset(c: Condition, initialState: GameState, info: SharedInfo): SharedInfo
  {
    match c
    case Goal => GoalCondition.Reset(initialState, info)
    case Other(onReset, _) => onReset(initialState, info)
  }

  /** A child's verdicts together with the shared info it leaves behind. */
  function ChildIsDone(c: Condition, agents: seq<AgentID>, state: GameState, info: SharedInfo): (map<AgentID, bool>, SharedInfo)
  {
    match c
    case Goal => (GoalCondition.IsDone(agents, state, info), info)
    case Other(_, onIsDone) => onIsDone(agents, state, info)
  }

  /** The shared info after the `reset` of the first n children, in order. */
  function InfoAfterResets(cs: seq<Condition>, initialState: GameState, info: SharedInfo, n: nat): SharedInfo
    requires n <= |cs|
  {
    if n == 0 then info
    else ChildReset(cs[n - 1], initialState, InfoAfterResets(cs, initialState, info, n - 1))
  }

  /** The shared info after the `is_done` of the first n children, in order. */
  function InfoAfterIsDones(cs: seq<Condition>, agents: seq<AgentID>, state: GameState, info: SharedInfo, n: nat): SharedInfo
    requires n <= |cs|
  {
    if n == 0 then info
    else ChildIsDone(cs[n - 1], agents, state, InfoAfterIsDones(cs, agents, state, info, n - 1)).1
  }

  /** The verdicts child i returns when it is called after children 0..i-1. */
  function VerdictOf(cs: seq<Condition>, agents: seq<AgentID>, state: GameState, info: SharedInfo, i: nat): map<AgentID, bool>
    requires i < |cs|
  {
    ChildIsDone(cs[i], agents, state, InfoAfterIsDones(cs, agents, state, info, i)).0
  }

  /** The verdicts of all children, in order. */
  function Verdicts(cs: seq<Condition>, agents: seq<AgentID>, state: GameState, info: SharedInfo): (vs: seq<map<AgentID, bool>>)
    ensures |vs| == |cs|
    ensures forall i :: 0 <= i < |cs| ==> vs[i] == VerdictOf(cs, agents, state, info, i)
  {
    seq(|cs|, i requires 0 <= i < |cs| => VerdictOf(cs, agents, state, info, i))
  }

  /** A child's verdicts name only requested agents (omitting some is allowed). */
  predicate Conforms(dones: map<AgentID, bool>, agents: seq<AgentID>)
  {
    forall a :: a in dones ==> a in agents
  }

  /** The dictionary that maps every requested agent to False. */
  function AllFalse(agents: seq<AgentID>): (m: map<AgentID, bool>)
    ensures m.Keys == AgentSet(agents)
    ensures forall a :: a in m ==> !m[a]
  {
    map a | a in agents :: false
  }

  /** The call log 0, 1, ..., n-1: each of the first n children once, in order. */
  function Indices(n: nat): (s: seq<nat>)
    ensures |s| == n
    ensures forall i :: 0 <= i < n ==> s[i] == i
  {
    seq(n, i => i)
  }

  /** The outcome of `is_done`: the combined dictionary, or the KeyError raised
      by `combined_dones[agent]` for an agent that was not requested. */
  datatype DoneResult = Done(dones: map<AgentID, bool>) | KeyError(agent: AgentID)

  class AllCondition {
    const conditions: seq<Condition>

    /** Stores the children as given, in order. */
    constructor (conditions: seq<Condition>)
      ensures this.conditions == conditions
    {
      this.conditions := conditions;
    }

    /** Calls every child's `reset` once, in constructor order, with the same
        initial state; `calls` logs the children called. */
    method Reset(initialState: GameState, sharedInfo: SharedInfo) returns (info: SharedInfo, ghost calls: seq<nat>)
      ensures calls == Indices(|conditions|)
      ensures info == InfoAfterResets(conditions, initialState, sharedInfo, |conditions|)
    {
      info := sharedInfo;
      calls := [];
      for i := 0 to |conditions|
        invariant calls == Indices(i)
        invariant info == InfoAfterResets(conditions, initialState, sharedInfo, i)
      {
        info := ChildReset(conditions[i], initialState, info);
        calls := calls + [i];
      }
    }

    /** The source's `is_done`, as written. Children are called in order until
        one returns an agent that was not requested (a KeyError, after which no
        further child is called); otherwise every requested agent is mapped to
        False, whatever the children say. */
    method IsDone(agents: seq<AgentID>, state: GameState, sharedInfo: SharedInfo)
      returns (r: DoneResult, info: SharedInfo, ghost calls: seq<nat>)
      ensures |calls| <= |conditions| && calls == Indices(|calls|)
      ensures info == InfoAfterIsDones(conditions, agents, state, sharedInfo, |calls|)
      ensures r.Done? <==> forall i :: 0 <= i < |conditions| ==> Conforms(VerdictOf(conditions, agents, state, sharedInfo, i), agents)
      ensures r.Done? ==> |calls| == |conditions| && r.dones == AllFalse(agents)
      ensures r.KeyError? ==>
                && 0 < |calls|
                && (forall i :: 0 <= i < |calls| - 1 ==> Conforms(VerdictOf(conditions, agents, state, sharedInfo, i), agents))
                && r.agent in VerdictOf(conditions, agents, state, sharedInfo, |calls| - 1)
                && r.agent !in agents
    {
      var combined := map a | a in agents :: false;
      info := sharedInfo;
      calls := [];
      var i := 0;
      while i < |conditions|
        invariant 0 <= i <= |conditions|
        invariant calls == Indices(i)
        invariant info == InfoAfterIsDones(conditions, agents, state, sharedInfo, i)
        invariant forall j :: 0 <= j < i ==> Conforms(VerdictOf(conditions, agents, state, sharedInfo, j), agents)
        invariant combined == AllFalse(agents)
      {
        var step := ChildIsDone(conditions[i], agents, state, info);
        var dones := step.0;
        info := step.1;
        calls := calls + [i];
        var pending := dones.Keys;
        while pending != {}
          invariant pending <= dones.Keys
          invariant forall a :: a in dones && a !in pending ==> a in agents
          invariant combined == AllFalse(agents)
          decreases pending
        {
          var a :| a in pending;
          if a !in combined {
            assert !Conforms(VerdictOf(conditions, agents, state, sharedInfo, i), agents);
            r := KeyError(a);
            return;
          }
          var done := dones[a];
          combined := combined[a := combined[a] && done];
          pending := pending - {a};
        }
        i := i + 1;
      }
      r := Done(combined);
    }
  }

  /** One step of the intended fold, `acc &= verdict`, over the accumulator's
      keys: agents the child omits keep their value, and agents the
      accumulator lacks are ignored (the code as written raises a KeyError
      there, which `AllCondition.IsDone` models). */
  function AndInto(acc: map<AgentID, bool>, dones: map<AgentID, bool>): (m: map<AgentID, bool>)
    ensures m.Keys == acc.Keys
    ensures forall a :: a in m ==> m[a] == (acc[a] && (a in dones ==> dones[a]))
  {
    map a | a in acc :: if a in dones then acc[a] && dones[a] else acc[a]
  }

  /** The evidently intended `is_done`: the same `&=` fold over the children's
      verdicts, seeded with True instead of False. */
  function IntendedIsDone(verdicts: seq<map<AgentID, bool>>, agents: seq<AgentID>): map<AgentID, bool>
  {
    if verdicts == [] then map a | a in agents :: true
    else AndInto(IntendedIsDone(verdicts[..|verdicts| - 1], agents), verdicts[|verdicts| - 1])
  }

  /** The intended result is the per-agent conjunction: an agent is done
      exactly when every child that reports it reports it done. */
  lemma {:induction false} IntendedIsConjunction(verdicts: seq<map<AgentID, bool>>, agents: seq<AgentID>)
    ensures IntendedIsDone(verdicts, agents).Keys == AgentSet(agents)
    ensures forall a :: a in agents ==>
              (IntendedIsDone(verdicts, agents)[a] <==>
               forall j :: 0 <= j < |verdicts| && a in verdicts[j] ==> verdicts[j][a])
  {
    if verdicts != [] {
      var init := verdicts[..|verdicts| - 1];
      IntendedIsConjunction(init, agents);
      forall a | a in agents
        ensures IntendedIsDone(verdicts, agents)[a] <==>
                forall j :: 0 <= j < |verdicts| && a in verdicts[j] ==> verdicts[j][a]
      {
        assert forall j :: 0 <= j < |init| ==> init[j] == verdicts[j];
      }
    }
  }

  /** With no children the intended result is vacuously True for every agent. */
  lemma IntendedNoChildren(agents: seq<AgentID>)
    ensures IntendedIsDone([], agents) == map a | a in agents :: true
  {
  }

  /** The seed defect, for any children that name only requested agents:
      when every child reports a requested agent done, the modelled `is_done`
      still returns that agent as not done, while the intended fold says done. */
  method SeedDefect(cs: seq<Condition>, agents: seq<AgentID>, state: GameState, sharedInfo: SharedInfo, a: AgentID)
    returns (r: DoneResult)
    requires a in agents
    requires forall i :: 0 <= i < |cs| ==> Conforms(VerdictOf(cs, agents, state, sharedInfo, i), agents)
    requires forall i :: 0 <= i < |cs| ==> a in VerdictOf(cs, agents, state, sharedInfo, i) && VerdictOf(cs, agents, state, sharedInfo, i)[a]
    ensures r == Done(AllFalse(agents)) && a in r.dones && !r.dones[a]
    ensures a in IntendedIsDone(Verdicts(cs, agents, state, sharedInfo), agents)
    ensures IntendedIsDone(Verdicts(cs, agents, state, sharedInfo), agents)[a]
  {
    var all := new AllCondition(cs);
    var info; ghost var calls;
    r, info, calls := all.IsDone(agents, state, sharedInfo);
    IntendedIsConjunction(Verdicts(cs, agents, state, sharedInfo), agents);
  }

  /** GoalCondition children never name an unrequested agent. */
  lemma GoalConforms(agents: seq<AgentID>, state: GameState, sharedInfo: SharedInfo)
    ensures Conforms(ChildIsDone(Goal, agents, state, sharedInfo).0, agents)
    ensures ChildIsDone(Goal, agents, state, sharedInfo).1 == sharedInfo
  {
  }

  /** The example of the combining rule: children {a: True, b: False} and
      {a: True, b: True}. The code as written returns {a: False, b: False};
      the intended conjunction is {a: True, b: False}. */
  method SeedDefectExample() returns (r: DoneResult)
    ensures r == Done(map["a" := false, "b" := false])
    ensures IntendedIsDone([map["a" := true, "b" := false], map["a" := true, "b" := true]], ["a", "b"])
            == map["a" := true, "b" := false]
  {
    var first := Other((s, info) => info, (ag, s, info) => (map["a" := true, "b" := false], info));
    var second := Other((s, info) => info, (ag, s, info) => (map["a" := true, "b" := true], info));
    var all := new AllCondition([first, second]);
    var info; ghost var calls;
    r, info, calls := all.IsDone(["a", "b"], GameState(false, []), map[]);
    assert Conforms(VerdictOf(all.conditions, ["a", "b"], GameState(false, []), map[], 0), ["a", "b"]);
    assert Conforms(VerdictOf(all.conditions, ["a", "b"], GameState(false, []), map[], 1), ["a", "b"]);
    assert AllFalse(["a", "b"]) == map["a" := false, "b" := false];
    var intended := IntendedIsDone([map["a" := true, "b" := false], map["a" := true, "b" := true]], ["a", "b"]);
    IntendedIsConjunction([map["a" := true, "b" := false], map["a" := true, "b" := true]], ["a", "b"]);
    assert intended.Keys == {"a", "b"};
    assert intended == map["a" := true, "b" := false];
  }
}
