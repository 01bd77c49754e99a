/** What the rollout can see and change outside its own process: one Auto Scaling Group and the worker nodes
    that its instances register in Kubernetes. */
module Cloud {

  type Id = string

  /** `cordoned`, `drained`, `detached`, `attempted` and `terminated` record what was done to instances by
      requests of this program; `seen` is every instance id the group has ever had. */
  datatype Cloud = Cloud(
    minSize: int,
    desired: int,
    maxSize: int,
    members: set<Id>,
    ready: set<Id>,
    cordoned: set<Id>,
    drained: set<Id>,
    detached: set<Id>,
    attempted: set<Id>,
    terminated: set<Id>,
    seen: set<Id>)
  {
    /** Instances some request of this program has reached. */
    function Worked(): set<Id> {
      cordoned + drained + detached + attempted + terminated
    }

    ghost predicate WellFormed() {
      && minSize <= desired <= maxSize
      && members <= seen
      && Worked() <= seen
      && detached !! members
      && terminated <= attempted
    }

    /** UpdateAutoScalingGroup: a maximum below the desired capacity pulls the desired capacity down. */
    function WithMaxSize(n: int): Cloud {
      this.(maxSize := n, desired := if desired <= n then desired else n)
    }

    /** DetachInstances with ShouldDecrementDesiredCapacity. */
    predicate AcceptsDetach(batch: set<Id>) {
      batch <= members && minSize <= desired - |batch|
    }

    function Detach(batch: set<Id>): Cloud {
      this.(members := members - batch, detached := detached + batch, desired := desired - |batch|)
    }
  }

  /** The group launches a replacement or an additional instance, under an id never used before. */
  ghost predicate Launch(c: Cloud, c': Cloud, i: Id) {
    && |c.members| < c.desired
    && i !in c.seen
    && c' == c.(members := c.members + {i}, seen := c.seen + {i})
  }

  /** An instance of the group registers in Kubernetes and turns ready. */
  ghost predicate BecomeReady(c: Cloud, c': Cloud, i: Id) {
    && i in c.members
    && c' == c.(ready := c.ready + {i})
  }

  /** An instance of the group fails; the group may also drop it. */
  ghost predicate Fail(c: Cloud, c': Cloud, i: Id, leaves: bool) {
    && i in c.members
    && c' == c.(ready := c.ready - {i}, members := if leaves then c.members - {i} else c.members)
  }
}
