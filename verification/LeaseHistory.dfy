/**
 * The leases granted on one run, for every sequence of store calls by owners with any names.
 *
 * A grant is an interval of the database's clock, from the claim to the expiry it reached:
 * a renewal moves the end out, a release or a finish cuts it short.
 */
module LeaseHistory {
  import opened Json
  import opened Messages
  import opened RunState
  import opened RunStore

  datatype Grant = Grant(owner: Owner, start: int, end: int)

  datatype World = World(row: RunRow, now: int, grants: seq<Grant>)

  /** `claim` and the recovery scan take a lease in the same way. */
  datatype Call =
    | Claim(owner: Owner, ttl: int)
    | Renew(owner: Owner, ttl: int)
    | Release(owner: Owner, status: RunStatus)
    | Finish(outcome: RunOutcome)
    | CommitStep(step: StepRecord, messages: seq<Message>)
    | RecordRetry
    | Tick(later: int)

  function WithLast(gs: seq<Grant>, end: int): seq<Grant>
    requires |gs| > 0
  {
    gs[|gs| - 1 := gs[|gs| - 1].(end := end)]
  }

  /** The current grant ends now, unless it had run out already. */
  function Cut(w: World): seq<Grant> {
    if w.row.lease.Some? && |w.grants| > 0 && w.row.lease.value.expiresAt > w.now
    then WithLast(w.grants, w.now) else w.grants
  }

  function Apply(w: World, call: Call): World {
    match call
    case Claim(owner, ttl) =>
      if Claimable(w.row, w.now) then
        World(Claimed(w.row, w.now, owner, ttl), w.now, w.grants + [Grant(owner, w.now, w.now + ttl)])
      else w
    case Renew(owner, ttl) =>
      if Renewable(w.row, w.now, owner) && |w.grants| > 0 then
        World(Renewed(w.row, w.now, owner, ttl), w.now, WithLast(w.grants, w.now + ttl))
      else w
    case Release(owner, status) =>
      var row := Released(w.row, owner, status);
      World(row, w.now, if row.lease == w.row.lease then w.grants else Cut(w))
    case Finish(outcome) => World(RunStore.Finish(w.row, outcome), w.now, Cut(w))
    case CommitStep(step, messages) =>
      (match RunStore.CommitStep(w.row, step, messages)
       case Ok(row) => w.(row := row)
       case Err(_) => w)
    case RecordRetry => w.(row := RunStore.RecordRetry(w.row))
    case Tick(later) => if w.now <= later then w.(now := later) else w
  }

  function Run(w: World, calls: seq<Call>): World
    decreases |calls|
  {
    if |calls| == 0 then w else Run(Apply(w, calls[0]), calls[1..])
  }

  predicate Apart(gs: seq<Grant>) {
    forall i, j :: 0 <= i < j < |gs| ==> gs[i].end <= gs[j].start
  }

  predicate Inv(w: World) {
    && Apart(w.grants)
    && (forall i :: 0 <= i < |w.grants| ==> w.grants[i].start <= w.now)
    && (w.row.lease.Some? ==>
          |w.grants| > 0 && w.grants[|w.grants| - 1].owner == w.row.lease.value.owner
          && w.grants[|w.grants| - 1].end == w.row.lease.value.expiresAt)
    && (w.row.lease.None? && |w.grants| > 0 ==> w.grants[|w.grants| - 1].end <= w.now)
  }

  lemma CallKeeps(w: World, call: Call)
    requires Inv(w)
    ensures Inv(Apply(w, call))
  {
  }

  lemma {:induction false} RunKeeps(w: World, calls: seq<Call>)
    requires Inv(w)
    ensures Inv(Run(w, calls))
    decreases |calls|
  {
    if |calls| > 0 {
      CallKeeps(w, calls[0]);
      RunKeeps(Apply(w, calls[0]), calls[1..]);
    }
  }

  /**
   * No two leases ever granted on a run overlap, whoever asked and however often; and while a
   * lease is live, the one grant that covers this moment is its holder's.
   */
  lemma LeasesNeverOverlap(query: Text, limits: RunLimits, now: int, calls: seq<Call>)
    ensures var w := Run(World(NewRow(query, limits), now, []), calls);
            && Apart(w.grants)
            && (w.row.lease.Some? && w.now < w.row.lease.value.expiresAt ==>
                  forall i :: 0 <= i < |w.grants| ==>
                    (w.grants[i].start <= w.now < w.grants[i].end
                     <==> i == |w.grants| - 1 && w.grants[i].owner == w.row.lease.value.owner))
  {
    RunKeeps(World(NewRow(query, limits), now, []), calls);
  }
}
