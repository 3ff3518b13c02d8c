/** Job dependencies: a job is ready once all its dependencies completed, and blocked forever
    once one of them failed or was cancelled. */
module Schedulers {
  import opened JobQueues

  /** The value a scheduler holds. */
  datatype Edges = Edges(deps: map<JobId, seq<JobId>>, completed: set<JobId>, dead: set<JobId>) {
    predicate IsReady(id: JobId) {
      id in deps ==> forall i :: 0 <= i < |deps[id]| ==> deps[id][i] in completed
    }

    predicate IsBlocked(id: JobId) {
      id in deps && exists i :: 0 <= i < |deps[id]| && deps[id][i] in dead
    }

    function ReadyTest(): JobId -> bool { (id: JobId) => IsReady(id) }
  }

  class Scheduler {
    var deps: map<JobId, seq<JobId>>
    var completed: set<JobId>
    var dead: set<JobId>

    function Abs(): Edges
      reads this
    {
      Edges(deps, completed, dead)
    }

    constructor ()
      ensures Abs() == Edges(map[], {}, {})
    {
      deps, completed, dead := map[], {}, {};
    }

    /** Registering again replaces the previous edges. */
    method Register(id: JobId, edges: seq<JobId>)
      modifies this
      ensures Abs() == old(Abs()).(deps := old(deps)[id := edges])
      ensures Abs().IsReady(id) <==> forall d :: d in edges ==> d in completed
      ensures Abs().IsBlocked(id) <==> exists d :: d in edges && d in dead
    {
      deps := deps[id := edges];
    }

    method MarkCompleted(id: JobId)
      modifies this
      ensures Abs() == old(Abs()).(completed := old(completed) + {id})
    {
      completed := completed + {id};
    }

    method MarkDead(id: JobId)
      modifies this
      ensures Abs() == old(Abs()).(dead := old(dead) + {id}, completed := old(completed) - {id})
    {
      dead := dead + {id};
      completed := completed - {id};
    }

    method Forget(id: JobId)
      modifies this
      ensures Abs() == old(Abs()).(deps := old(deps) - {id})
      ensures Abs().IsReady(id) && !Abs().IsBlocked(id)
    {
      deps := deps - {id};
    }
  }

  datatype Mark = Completion(id: JobId) | Death(id: JobId)

  function Apply(e: Edges, m: Mark): Edges {
    match m
    case Completion(id) => e.(completed := e.completed + {id})
    case Death(id) => e.(dead := e.dead + {id}, completed := e.completed - {id})
  }

  function ApplyAll(e: Edges, marks: seq<Mark>): Edges {
    if marks == [] then e else Apply(ApplyAll(e, marks[..|marks| - 1]), marks[|marks| - 1])
  }

  /** `x` was marked completed after it was dead, and not marked dead again since. */
  ghost predicate Revived(e: Edges, marks: seq<Mark>, x: JobId) {
    exists j :: 0 <= j < |marks| && marks[j] == Completion(x)
      && (x in e.dead || exists i :: 0 <= i < j && marks[i] == Death(x))
      && forall k :: j < k < |marks| ==> marks[k] != Death(x)
  }

  lemma {:induction false} DeadAfter(e: Edges, marks: seq<Mark>, x: JobId)
    ensures x in ApplyAll(e, marks).dead <==> x in e.dead || exists i :: 0 <= i < |marks| && marks[i] == Death(x)
  {
    if marks == [] {
    } else {
      var init := marks[..|marks| - 1];
      DeadAfter(e, init, x);
      assert marks == init + [marks[|marks| - 1]];
    }
  }

  /** The scheduler keeps completion and death of a job exclusive exactly when the job is not
      marked completed after its death: death revokes completion, but not the other way round. */
  lemma {:induction false} ExclusiveUnlessRevived(e: Edges, marks: seq<Mark>, x: JobId)
    requires e.completed !! e.dead
    ensures x in ApplyAll(e, marks).completed * ApplyAll(e, marks).dead <==> Revived(e, marks, x)
  {
    if marks == [] {
    } else {
      var n := |marks| - 1;
      var init, last := marks[..n], marks[n];
      ExclusiveUnlessRevived(e, init, x);
      DeadAfter(e, init, x);
      DeadAfter(e, marks, x);
      if last == Completion(x) {
        if x in ApplyAll(e, marks).dead && x !in e.dead {
          var i :| 0 <= i < |marks| && marks[i] == Death(x);
          assert i < n;
        }
      } else if last != Death(x) {
        if Revived(e, init, x) {
          var j :| 0 <= j < n && init[j] == Completion(x)
            && (x in e.dead || exists i :: 0 <= i < j && init[i] == Death(x))
            && forall k :: j < k < n ==> init[k] != Death(x);
          assert marks[j] == Completion(x);
          if x !in e.dead {
            var i :| 0 <= i < j && init[i] == Death(x);
            assert marks[i] == Death(x);
          }
        }
        if Revived(e, marks, x) {
          var j :| 0 <= j <= n && marks[j] == Completion(x)
            && (x in e.dead || exists i :: 0 <= i < j && marks[i] == Death(x))
            && forall k :: j < k <= n ==> marks[k] != Death(x);
          assert init[j] == Completion(x);
          if x !in e.dead {
            var i :| 0 <= i < j && marks[i] == Death(x);
            assert init[i] == Death(x);
          }
        }
      }
    }
  }

  /** The overlap can be reached: a completion reported after a death. */
  lemma RevivalOverlaps(x: JobId)
    ensures var e := ApplyAll(Edges(map[], {}, {}), [Death(x), Completion(x)]);
            x in e.completed && x in e.dead
  {
    var marks := [Death(x), Completion(x)];
    assert marks[0] == Death(x) && marks[1] == Completion(x);
    assert Revived(Edges(map[], {}, {}), marks, x);
    ExclusiveUnlessRevived(Edges(map[], {}, {}), marks, x);
  }
}
