/**
 * The `call_subordinate` tool (tools/call_subordinate.py): it hands a task to
 * a new agent on the same context, numbered one above the highest agent id
 * in use, and reports that agent's final answer.
 */
module CallSubordinate {
  import opened Wrappers
  import opened Text
  import opened Agent
  import AC = AgentContext

  const NoTaskError := "[Error: No task provided for subordinate]"

  /** Every non-empty set of ids has a largest one. */
  lemma {:induction false} MaxWitness(ids: set<int>) returns (m: int)
    requires exists x :: x in ids
    ensures m in ids && forall k :: k in ids ==> k <= m
    decreases |ids|
  {
    var k :| k in ids;
    if exists y :: y in ids && y != k {
      var y :| y in ids && y != k;
      assert y in ids - {k};
      var rest := MaxWitness(ids - {k});
      m := if k > rest then k else rest;
      forall j | j in ids
        ensures j <= m
      {
        if j != k {
          assert j in ids - {k};
        }
      }
    } else {
      m := k;
    }
  }

  /** The largest id among `ids`. */
  function MaxKey(ids: set<int>): (m: int)
    requires exists x :: x in ids
    ensures m in ids && forall k :: k in ids ==> k <= m
  {
    assert exists m :: m in ids && forall k :: k in ids ==> k <= m by {
      var w := MaxWitness(ids);
    }
    var m :| m in ids && forall k :: k in ids ==> k <= m;
    m
  }

  /** `max(agents.keys(), default=-1) + 1` */
  function NextId(ids: set<int>): (n: int)
    ensures n !in ids && forall k :: k in ids ==> k < n
    ensures ids == {} ==> n == 0
    ensures ids != {} ==> n - 1 in ids
  {
    if exists x :: x in ids then MaxKey(ids) + 1 else 0
  }

  function ResultMessage(id: int, result: string): string {
    "Subordinate Agent " + IntToString(id) + " result:\n" + result
  }

  function FailureMessage(id: int, error: string): string {
    "[Subordinate Agent " + IntToString(id) + " failed: " + error + "]"
  }

  /**
   * `execute(task=...)`. The subordinate's model calls go as `plays` says;
   * when `raised` holds an error, its monologue is taken to raise that error.
   */
  method Execute(ctx: AC.AgentContext, task: string, plays: nat -> Play, now: string, raised: Option<string>)
    returns (r: Response)
    requires ctx.Valid()
    modifies ctx, ctx.data, ctx.data.store
    ensures ctx.Valid()
    ensures !r.breakLoop
    ensures IsBlank(task) ==> r.message == NoTaskError && ctx.agents == old(ctx.agents)
    ensures !IsBlank(task) ==>
      var id := NextId(old(ctx.agents).Keys);
      id !in old(ctx.agents) && ctx.agents.Keys == old(ctx.agents).Keys + {id}
      && (forall k :: k in old(ctx.agents) ==> ctx.agents[k] == old(ctx.agents)[k])
      && fresh(ctx.agents[id]) && ctx.agents[id].agentId == id
      && (raised.Some? ==> r.message == FailureMessage(id, raised.value))
      && (raised.None? ==>
            var turns := TurnsOf(plays, old(ctx.data.toolCache), ctx.registry, ctx.config, ctx.env);
            var run := MonoFrom(turns, ctx.config.maxIterations, 0, 0, None, now);
            r.message == ResultMessage(id, run.result)
            && ctx.agents[id].history == AC.InitialHistory(id, old(ctx.data.sessionHistory))
                                         + [HistoryEntry("user", task, Some(now))] + run.entries)
  {
    if IsBlank(task) {
      return Response(NoTaskError, false);
    }
    var id := NextId(ctx.agents.Keys);
    var sub := ctx.CreateAgent(id);
    match raised {
      case Some(e) =>
        r := Response(FailureMessage(id, e), false);
      case None =>
        var result := sub.Monologue(task, plays, now);
        r := Response(ResultMessage(id, result), false);
    }
  }
}
