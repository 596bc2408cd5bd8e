/**
 * The cluster the density suite runs against: an adversary. Between any two requests VMIs may
 * change phase or vanish, other objects may come and go, time passes and the parent context may
 * end; any request may fail, and a failed creation may have taken effect. The only promises are
 * that nobody else creates VMIs with this run's label, and that no more than `capacity` of the
 * run's VMIs run at once.
 *
 * Whatever the suite asks and hears is appended to a transcript, which only these methods write:
 * a list shows the VMIs of that moment, the clock is read as it is, and a request is entered with
 * the time it is sent.
 */
module ClusterModel {
  import opened Wrappers
  import opened VmiStartup
  import opened ClusterHealth
  import opened Cleanup
  import opened Transcript

  /** The names of the VMIs that carry a run's label. */
  ghost function OwnNames(vmis: map<string, Vmi>, run: string): set<string> {
    set n | n in vmis && vmis[n].runLabel == run
  }

  function OwnRunning(vmis: map<string, Vmi>, run: string): set<string> {
    set n | n in vmis && vmis[n].runLabel == run && vmis[n].phase == Running
  }

  ghost predicate AtMost(n: nat, s: set<string>) {
    |s| <= n
  }

  function Labelled(vmis: map<string, Vmi>, runLabel: string): map<string, Vmi> {
    map n | n in vmis && vmis[n].runLabel == runLabel :: vmis[n]
  }

  class Cluster {
    const run: string
    const capacity: nat
    var vmis: map<string, Vmi>
    var now: nat                            // milliseconds
    var ctx: Option<CtxErr>                 // the parent context; an error, once set, stays
    ghost var created: set<(string, string)>  // name and label of every VMI the suite has created
    ghost var transcript: seq<Answer>       // what the suite has been told, in order

    ghost predicate Valid()
      reads this
    {
      AtMost(capacity, OwnRunning(vmis, run))
    }

    constructor (run: string, capacity: nat, vmis: map<string, Vmi>, ctx: Option<CtxErr>)
      requires AtMost(capacity, OwnRunning(vmis, run))
      ensures Valid() && this.run == run && this.capacity == capacity && this.vmis == vmis && this.ctx == ctx
      ensures created == {} && transcript == []
    {
      this.run, this.capacity, this.vmis, this.ctx := run, capacity, vmis, ctx;
      now, created, transcript := 0, {}, [];
    }

    /** What the rest of the world does until `limit`, or for any time if there is none. */
    method Drift(limit: Option<nat>)
      requires Valid()
      modifies `vmis, `now, `ctx
      ensures Valid() && OwnNames(vmis, run) <= old(OwnNames(vmis, run))
      ensures old(now) <= now && (limit.Some? ==> now <= old(now) || now <= limit.value)
      ensures old(ctx).Some? ==> ctx == old(ctx)
    {
      var later: int := *;
      if later > 0 && (limit.None? || now + later <= limit.value) {
        now := now + later;
      }
      if ctx.None? {
        ctx := *;
      }
      var world: map<string, Vmi> := *;
      if OwnNamesWithin(world) && RunningWithin(world) {
        vmis := world;
      }
    }

    predicate OwnNamesWithin(world: map<string, Vmi>)
      reads this
    {
      forall n :: n in world && world[n].runLabel == run ==> n in vmis && vmis[n].runLabel == run
    }

    predicate RunningWithin(world: map<string, Vmi>)
      reads this
    {
      |OwnRunning(world, run)| <= capacity
    }

    /** `ctx.Err()` on the parent context. */
    method ParentErr() returns (e: Option<CtxErr>)
      requires Valid()
      modifies `vmis, `now, `ctx, `transcript
      ensures Valid() && OwnNames(vmis, run) <= old(OwnNames(vmis, run))
      ensures old(now) <= now
      ensures e == ctx && (old(ctx).Some? ==> e == old(ctx))
      ensures transcript == old(transcript) + [ContextRead(e)]
    {
      Drift(None);
      e := ctx;
      transcript := transcript + [ContextRead(e)];
    }

    /** `time.Now`. */
    method ReadClock() returns (t: nat)
      requires Valid()
      modifies `transcript
      ensures t == now && transcript == old(transcript) + [ClockRead(t)]
    {
      t := now;
      transcript := transcript + [ClockRead(t)];
    }

    /** A select between the parent context and a timer: the context has ended, or the interval has passed. */
    method WaitInterval(interval: nat) returns (cut: Option<CtxErr>)
      requires Valid()
      modifies `vmis, `now, `ctx, `transcript
      ensures Valid() && OwnNames(vmis, run) <= old(OwnNames(vmis, run))
      ensures old(now) <= now && (cut.None? ==> old(now) + interval <= now)
      ensures cut.Some? ==> cut == ctx
      ensures transcript == old(transcript) + [IntervalWaited(interval, cut)]
    {
      var due := now + interval;
      Drift(None);
      var first: bool := *;
      if first {
        cut := ctx;
      } else {
        cut := None;
      }
      if cut.None? && now < due {
        now := due;
      }
      transcript := transcript + [IntervalWaited(interval, cut)];
    }

    /**
     * A select between a deadline and a timer: the deadline has been reached, or the time has
     * passed; if both fall together either may win.
     */
    method Pause(duration: nat, deadline: nat) returns (expired: bool)
      requires Valid() && now <= deadline
      modifies `vmis, `now, `ctx, `transcript
      ensures Valid() && OwnNames(vmis, run) <= old(OwnNames(vmis, run))
      ensures if expired then now == deadline <= old(now) + duration else now == old(now) + duration <= deadline
      ensures transcript == old(transcript) + [PauseEnded(expired)]
    {
      var due := now + duration;
      var last: bool := *;
      expired := due > deadline || (due == deadline && last);
      var wake := if expired then deadline else due;
      Drift(Some(wake));
      now := wake;
      transcript := transcript + [PauseEnded(expired)];
    }

    method Create(name: string, runLabel: string) returns (err: Option<ApiErr>, ghost effect: bool)
      requires Valid()
      modifies `vmis, `now, `ctx, `created, `transcript
      ensures Valid() && old(now) <= now
      ensures err.None? ==> effect
      ensures created == if effect then old(created) + {(name, runLabel)} else old(created)
      ensures OwnNames(vmis, run) <= old(OwnNames(vmis, run)) + if effect then {name} else {}
      ensures transcript == old(transcript) + [CreateSent(name, runLabel, old(now), err, effect)]
    {
      var at := now;
      Drift(None);
      var accepted: bool := *;
      var answered: bool := *;
      var e: ApiErr := *;
      if accepted && name !in vmis {
        ghost var before := OwnRunning(vmis, run);
        vmis := vmis[name := Vmi(runLabel, OtherPhase, None, false)];
        assert OwnRunning(vmis, run) == before;
        created := created + {(name, runLabel)};
        err, effect := if answered then None else Some(e), true;
      } else {
        err, effect := Some(e), false;
      }
      transcript := transcript + [CreateSent(name, runLabel, at, err, effect)];
    }

    method List(runLabel: string, limit: Option<nat>) returns (r: Fetch<map<string, Vmi>>)
      requires Valid()
      modifies `vmis, `now, `ctx, `transcript
      ensures Valid() && OwnNames(vmis, run) <= old(OwnNames(vmis, run))
      ensures old(now) <= now && (limit.Some? ==> now <= old(now) || now <= limit.value)
      ensures r.Ok? ==> r.value == Labelled(vmis, runLabel)
      ensures transcript == old(transcript) + [ListSeen(runLabel, r)]
    {
      Drift(limit);
      var fails: bool := *;
      var e: ApiErr := *;
      r := if fails then Err(e) else Ok(Labelled(vmis, runLabel));
      transcript := transcript + [ListSeen(runLabel, r)];
    }

    method DeleteCollection(runLabel: string, limit: nat) returns (a: DeleteAnswer)
      requires Valid()
      modifies `vmis, `now, `ctx, `transcript
      ensures Valid() && OwnNames(vmis, run) <= old(OwnNames(vmis, run))
      ensures old(now) <= now && (now <= old(now) || now <= limit)
      ensures a == DeleteAccepted ==> forall n :: n in vmis && vmis[n].runLabel == runLabel ==> vmis[n].deletedAt.Some?
      ensures transcript == old(transcript) + [DeleteSent(runLabel, a)]
    {
      Drift(Some(limit));
      a := *;
      if a == DeleteAccepted {
        ghost var before := vmis;
        vmis := map n | n in vmis ::
          if vmis[n].runLabel == runLabel && vmis[n].deletedAt.None? then vmis[n].(deletedAt := Some(now)) else vmis[n];
        assert OwnRunning(vmis, run) == OwnRunning(before, run);
      }
      transcript := transcript + [DeleteSent(runLabel, a)];
    }

    /** The update that removes the finalizers of an object, sent as it was listed but for them. */
    method StripFinalizers(name: string, listed: Vmi, limit: nat) returns (a: UpdateAnswer)
      requires Valid()
      modifies `vmis, `now, `ctx, `transcript
      ensures Valid() && OwnNames(vmis, run) <= old(OwnNames(vmis, run))
      ensures old(now) <= now && (now <= old(now) || now <= limit)
      ensures transcript == old(transcript) + [UpdateSent(name, listed, old(now), a)]
    {
      var at := now;
      Drift(Some(limit));
      a := *;
      if name !in vmis {
        a := UpdateNotFound;
      } else if a == Updated {
        ghost var before := vmis;
        vmis := vmis[name := vmis[name].(finalizers := false)];
        assert OwnRunning(vmis, run) == OwnRunning(before, run);
      }
      transcript := transcript + [UpdateSent(name, listed, at, a)];
    }

    /** What one wait will observe. */
    method Watch(runLabel: string) returns (w: WatchRun)
      requires Valid()
      modifies `vmis, `now, `ctx, `transcript
      ensures Valid() && OwnNames(vmis, run) <= old(OwnNames(vmis, run)) && old(now) <= now
      ensures Sticky(w)
      ensures transcript == old(transcript) + [WatchSeen(runLabel, w)]
    {
      Drift(None);
      w := *;
      if !Sticky(w) {
        w := w.(ctxAtProbe := w.ctxAtError);
      }
      transcript := transcript + [WatchSeen(runLabel, w)];
    }

    /** What one inspection of nodes, etcd and pods will observe. */
    method Inspect() returns (i: Inspection)
      requires Valid()
      modifies `vmis, `now, `ctx, `transcript
      ensures Valid() && OwnNames(vmis, run) <= old(OwnNames(vmis, run)) && old(now) <= now
      ensures transcript == old(transcript) + [InspectionSeen(i)]
    {
      Drift(None);
      i := *;
      transcript := transcript + [InspectionSeen(i)];
    }

    /** Any other request: whether it fails. */
    method Request() returns (err: Option<ApiErr>)
      requires Valid()
      modifies `vmis, `now, `ctx, `transcript
      ensures Valid() && OwnNames(vmis, run) <= old(OwnNames(vmis, run)) && old(now) <= now
      ensures transcript == old(transcript) + [RequestSent(err)]
    {
      Drift(None);
      err := *;
      transcript := transcript + [RequestSent(err)];
    }
  }
}
