/** Refresh generations, the topologies that route to them, and what a reader of the routes needs. */
module RefreshTopology {
  import opened Wrappers

  /** One built subsystem; serials are never reused. */
  datatype Gen = Gen(cluster: string, serial: nat)

  /** One mmap closer of a cooled generation. */
  datatype Closer = Closer(gen: Gen, index: nat)

  type Topology = map<string, Gen>

  /** What a reader of the aggregate routes depends on. */
  datatype View = View(routes: Topology, retired: set<Gen>, closed: set<Closer>)

  ghost predicate Servable(gen: Gen, retired: set<Gen>, closed: set<Closer>) {
    gen !in retired && forall c | c in closed :: c.gen != gen
  }

  ghost predicate Safe(v: View) {
    forall c | c in v.routes :: Servable(v.routes[c], v.retired, v.closed)
  }

  function Published(routes: Option<Topology>): Topology {
    if routes.Some? then routes.value else map[]
  }

  function ClosersOf(closers: set<Closer>, gen: Gen): set<Closer> {
    set c | c in closers && c.gen == gen
  }

  /** The generations of clusters that a new topology drops. */
  function RemovedBy(topology: Topology, next: Topology): set<Gen> {
    set c | c in topology && c !in next :: topology[c]
  }

  function ClosersBetween(gen: Gen, first: nat, count: nat): set<Closer> {
    set i | first <= i < first + count :: Closer(gen, i)
  }

  function RunningFor(runtimes: set<Gen>, cluster: string): set<Gen> {
    set g | g in runtimes && g.cluster == cluster
  }
}
