/**
  What the requests of services/agent_service.py are answered and what they leave, for every world and every end the
  container runtime may give them.
 */
module Requests {
  import opened Basics
  import opened Sums
  import opened Quota
  import opened Fleet

  /** The row says exactly what runs: how many containers, and in which shape. */
  predicate Exact(w: World, id: string)
    requires id in w.agents
  {
    var a := w.agents[id];
    ContainersOf(w.live, id) == Containers(a.replicas, a.cpu, a.memoryMb)
  }

  predicate SameShape(a: Agent, c: Containers) {
    a.cpu == c.cpu && a.memoryMb == c.memoryMb
  }

  // ---------- Delete ----------

  /** Exactly the owner's delete, if the runtime removes the containers, leaves neither row nor containers. */
  lemma DeleteAnswers(w: World, user: string, id: string, outcome: RemoveOutcome)
    ensures var (after, reply) := DeleteStep(w, user, id, outcome);
            var owned := id in w.agents && w.agents[id].user == user;
            && (reply == NotFound <==> !owned) && (reply == NotFound ==> after == w)
            && (reply == Done <==> owned && outcome == Removed)
            && (reply == Done ==> id !in after.agents && id !in after.live)
            && (reply == InternalError <==> owned && outcome.RemoveRaised?)
            && (reply == InternalError ==> after.agents == w.agents && LiveOf(after.live, id) == outcome.left)
            && OnlyTouches(w, after, id)
  {
  }

  /** And gives back what the row held of the plan. */
  lemma DeleteFrees(w: World, user: string, id: string)
    requires id in w.agents && w.agents[id].user == user
    ensures var after, a := DeleteStep(w, user, id, Removed).0, w.agents[id];
            var held := a.status == Running || a.status == Scaling || a.status == Starting;
            && Sum(after.agents, OwnWeight(user)) == Sum(w.agents, OwnWeight(user)) - 1.0
            && Sum(after.agents, ReplicaWeight(user)) ==
               Sum(w.agents, ReplicaWeight(user)) - (if held then a.replicas as real else 0.0)
            && Sum(after.agents, VcpuWeight(user)) ==
               Sum(w.agents, VcpuWeight(user)) - (if held then Times(a.replicas, a.cpu) else 0.0)
            && Sum(after.agents, MemoryWeight(user)) ==
               Sum(w.agents, MemoryWeight(user)) - (if held then Times(a.replicas, a.memoryMb as real) else 0.0)
  {
    DeleteAnswers(w, user, id, Removed);
    var after := DeleteStep(w, user, id, Removed).0;
    assert after.agents == w.agents - {id};
    SumRemove(w.agents, OwnWeight(user), id);
    SumRemove(w.agents, ReplicaWeight(user), id);
    SumRemove(w.agents, VcpuWeight(user), id);
    SumRemove(w.agents, MemoryWeight(user), id);
  }

  ghost function Answer(w: World, s: Step): Reply
    requires s.Create? || s.Deploy? || s.Scale? || s.Delete?
  {
    match s
    case Create(user, id, config, outcome) => CreateStep(w, user, id, config, outcome).1
    case Deploy(user, id, config, outcome) => DeployStep(w, user, id, config, outcome).1
    case Scale(user, id, direction, count, outcome) => ScaleStep(w, user, id, direction, count, outcome).1
    case Delete(user, id, outcome) => DeleteStep(w, user, id, outcome).1
  }

  ghost predicate NeverCreated(steps: seq<Step>, id: string) {
    forall i :: 0 <= i < |steps| && steps[i].Create? ==> steps[i].id != id
  }

  /** What is gone stays gone: over any run that does not create it, every request for it finds nothing. */
  lemma {:induction false} GoneStaysGone(w: World, steps: seq<Step>, id: string)
    requires id !in w.agents && NeverCreated(steps, id)
    ensures id !in After(w, steps).agents
    ensures forall i :: 0 <= i < |steps| && steps[i].id == id && (steps[i].Deploy? || steps[i].Scale? || steps[i].Delete?) ==>
              Answer(After(w, steps[..i]), steps[i]) == NotFound
    decreases |steps|
  {
    if steps != [] {
      var next, rest := Next(w, steps[0]), steps[1..];
      assert id !in next.agents;
      GoneStaysGone(next, rest, id);
      forall i | 0 <= i < |steps| && steps[i].id == id && (steps[i].Deploy? || steps[i].Scale? || steps[i].Delete?)
        ensures Answer(After(w, steps[..i]), steps[i]) == NotFound
      {
        if i == 0 {
          assert steps[..0] == [];
        } else {
          assert steps[..i][1..] == rest[..i - 1] && steps[..i][0] == steps[0] && rest[i - 1] == steps[i];
          assert After(w, steps[..i]) == After(next, rest[..i - 1]);
        }
      }
    }
  }

  /** So after a delete that is answered Done, until the id is created again. */
  lemma DeletedStaysGone(w: World, user: string, id: string, outcome: RemoveOutcome, steps: seq<Step>)
    requires Answer(w, Delete(user, id, outcome)) == Done && NeverCreated(steps, id)
    ensures var gone := Next(w, Delete(user, id, outcome));
            && id !in After(gone, steps).agents
            && forall i :: 0 <= i < |steps| && steps[i].id == id && (steps[i].Deploy? || steps[i].Scale? || steps[i].Delete?) ==>
                 Answer(After(gone, steps[..i]), steps[i]) == NotFound
  {
    DeleteAnswers(w, user, id, outcome);
    GoneStaysGone(Next(w, Delete(user, id, outcome)), steps, id);
  }

  // ---------- Deploy ----------

  /** The shape a deploy asks for. */
  function Asked(a: Agent, config: Option<DeployConfig>): (nat, real, nat) {
    if config.Some? then (config.value.replicas, config.value.cpu, config.value.memoryMb) else (a.replicas, a.cpu, a.memoryMb)
  }

  /**
    A deploy is for the owner only, within the plan only, and with an image, or nothing to build, only.  Answered Done,
    the agent runs and its row says exactly what runs, in the shape that was asked for; answered with a failure, it
    does not run.  Not found or refused, nothing has changed.
   */
  lemma DeployAnswers(w: World, user: string, id: string, config: Option<DeployConfig>, outcome: DeployOutcome)
    ensures var (after, reply) := DeployStep(w, user, id, config, outcome);
            && OnlyTouches(w, after, id)
            && (reply == NotFound <==> !(id in w.agents && w.agents[id].user == user))
            && (reply == NotFound || reply.Refused? ==> after == w)
            && (reply != NotFound ==>
                  var a := w.agents[id]; var (replicas, cpu, memoryMb) := Asked(a, config);
                  var check := CheckResources(w.users, w.agents, user, Some(id), replicas, cpu, memoryMb);
                  var image := if config.Some? then config.value.image else a.image;
                  var build := if config.Some? then config.value.buildPath else a.buildPath;
                  && (reply.Refused? <==> check != Allowed) && (reply.Refused? ==> reply.check == check)
                  && (reply == BuildNotSupported <==> check == Allowed && image == None && build != None)
                  && (reply == Done <==> check == Allowed && (image != None || build == None) && outcome.Deployed?)
                  && (reply == DeploymentFailed <==> check == Allowed && (image != None || build == None) && outcome.DeployRaised?)
                  && (check == Allowed ==>
                        && Owns(after, user, id) && SameShape(after.agents[id], Containers(0, cpu, memoryMb))
                        && after.agents[id].image == image && after.agents[id].buildPath == build
                        && after.agents[id].autoScale == if config.Some? then config.value.autoScale else a.autoScale)
                  && (reply == Done ==>
                        && after.agents[id].status == Running && after.agents[id].replicas == outcome.containers
                        && Exact(after, id))
                  && (reply == DeploymentFailed ==>
                        && after.agents[id].status == Failed && after.agents[id].replicas == replicas
                        && ContainersOf(after.live, id) == outcome.left)
                  && (reply == BuildNotSupported ==>
                        && after.agents[id].status == a.status && after.agents[id].replicas == replicas
                        && after.live == w.live))
  {
  }

  // ---------- Create ----------

  /** A create without a deploy leaves an agent that holds nothing of the plan but its place; one with it is deployed. */
  lemma CreateAnswers(w: World, user: string, id: string, config: Option<DeployConfig>, outcome: DeployOutcome)
    requires id !in w.agents
    ensures var (after, reply) := CreateStep(w, user, id, config, outcome);
            && OnlyTouches(w, after, id)
            && (!reply.Refused? ==> Owns(after, user, id))
            && (!reply.Refused? && config == None ==>
                  reply == Done && after.agents[id] == Agent(user, Pending, 0, 1.0, 512, None, None, false)
                  && LiveOf(after.live, id) == 0)
            && (!reply.Refused? && config.Some? ==>
                  var c := config.value;
                  && SameShape(after.agents[id], Containers(0, c.cpu, c.memoryMb))
                  && after.agents[id].image == c.image && after.agents[id].buildPath == c.buildPath
                  && after.agents[id].autoScale == c.autoScale
                  && (reply == BuildNotSupported <==> c.image == None && c.buildPath != None)
                  && (reply == BuildNotSupported ==> after.agents[id].status == Pending && LiveOf(after.live, id) == 0)
                  && (reply == Done <==> !(c.image == None && c.buildPath != None) && outcome.Deployed?)
                  && (reply == Done ==>
                        after.agents[id].status == Running && after.agents[id].replicas == outcome.containers && Exact(after, id))
                  && (reply == DeploymentFailed <==> !(c.image == None && c.buildPath != None) && outcome.DeployRaised?)
                  && (reply == DeploymentFailed ==>
                        after.agents[id].status == Failed && ContainersOf(after.live, id) == outcome.left))
  {
    CreateIsAllOrNothing(w, user, id, config, outcome);
    var a := NewAgent(user, config);
    AddedRowCheck(w.users, w.agents, user, id, a);
    var added := w.(agents := w.agents[id := a], live := w.live[id := Started(a, 0)]);
    var after := CreateStep(w, user, id, config, outcome).0;
    DeployAnswers(added, user, id, None, outcome);
    TouchesTwice(w, added, DeployStep(added, user, id, None, outcome).0, id);
    assert after == w || after == added || after == DeployStep(added, user, id, None, outcome).0;
  }

  lemma TouchesTwice(w: World, mid: World, after: World, id: string)
    requires OnlyTouches(w, mid, id) && OnlyTouches(mid, after, id)
    ensures OnlyTouches(w, after, id)
  {
    forall j | j != id ensures SameAgent(w, after, j) {
      assert SameAgent(w, mid, j) && SameAgent(mid, after, j);
    }
  }

  // ---------- Scale ----------

  /**
    Only the owner scales, and only a scale up can be refused.  Answered Done, the agent runs, with as many containers
    as the runtime left.
   */
  lemma ScaleAnswers(w: World, user: string, id: string, direction: Direction, count: nat, outcome: ScaleOutcome)
    ensures var (after, reply) := ScaleStep(w, user, id, direction, count, outcome);
            && OnlyTouches(w, after, id)
            && (reply == NotFound <==> !(id in w.agents && w.agents[id].user == user))
            && (reply == NotFound || reply.Refused? ==> after == w)
            && (reply != NotFound ==>
                  var a := w.agents[id];
                  var check := CheckResources(w.users, w.agents, user, Some(id), a.replicas + count, a.cpu, a.memoryMb);
                  && (reply.Refused? <==> direction == Up && check != Allowed) && (reply.Refused? ==> reply.check == check)
                  && (!reply.Refused? ==>
                        && (reply == Done <==> outcome.Scaled?) && (reply == DeploymentFailed <==> outcome.ScalingFailed?)
                        && (reply == InternalError <==> outcome.ScaleRaised?)
                        && Owns(after, user, id) && SameShape(a, Started(after.agents[id], 0))
                        && after.agents[id].status ==
                           (if reply == Done then Running else if reply == DeploymentFailed then Failed else Scaling)
                        && ContainersOf(after.live, id) == ContainersOf(w.live, id).(count := outcome.left)
                        && (reply != Done ==> after.agents[id].replicas == a.replicas)))
  {
  }

  /**
    The row of a scaling that is answered Done says exactly what runs if and only if the containers had the row's shape
    and one is left, or the row counted none: a row that is scaled to nothing keeps its count.
   */
  lemma ScaledRowExactIff(w: World, user: string, id: string, direction: Direction, count: nat, left: nat)
    requires Answer(w, Scale(user, id, direction, count, Scaled(left))) == Done
    ensures var after := Next(w, Scale(user, id, direction, count, Scaled(left)));
            && id in w.agents && id in after.agents
            && (Exact(after, id) <==>
                  SameShape(w.agents[id], ContainersOf(w.live, id)) && (left > 0 || w.agents[id].replicas == 0))
  {
    ScaleAnswers(w, user, id, direction, count, Scaled(left));
  }
}
