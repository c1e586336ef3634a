/** The settings a tick obeys, their bounds, and the capacity they amount to. */
module ControlRules {
  import opened Wrappers

  const MAX_EVENTS_PER_TICK: int := 1000
  const MAX_WORKER_COUNT: int := 64
  const MAX_BATCH_SIZE: int := MAX_EVENTS_PER_TICK

  datatype Controls = Controls(
    eventsPerTick: int, rainWeight: int, growthWeight: int, pestWeight: int,
    workerCount: int, batchSize: int, failSnapshotEvery: int)

  datatype ControlDefect =
    | TooFewEvents | TooManyEvents | NegativeRain | NegativeGrowth | NegativePest | NoWeight
    | NegativeWorkers | TooManyWorkers | NegativeBatch | BatchTooLarge | NegativeFailEvery

  function TotalWeight(c: Controls): int {
    c.rainWeight + c.growthWeight + c.pestWeight
  }

  /** What this many workers take together, a batch each. */
  function Shares(workers: int, batch: int): int
    decreases workers
  {
    if workers <= 0 then 0 else Shares(workers - 1, batch) + batch
  }

  lemma {:induction false} SharesIsProduct(workers: nat, batch: int)
    ensures Shares(workers, batch) == workers * batch
  {
    if workers > 0 {
      SharesIsProduct(workers - 1, batch);
      assert workers * batch == (workers - 1) * batch + batch;
    }
  }

  /** Records one tick may fold; zero means unbounded. */
  function Capacity(c: Controls): int {
    if c.workerCount <= 0 || c.batchSize <= 0 then 0 else Shares(c.workerCount, c.batchSize)
  }

  function ValidateControls(c: Controls): Option<ControlDefect> {
    if c.eventsPerTick < 1 then Some(TooFewEvents)
    else if c.eventsPerTick > MAX_EVENTS_PER_TICK then Some(TooManyEvents)
    else if c.rainWeight < 0 then Some(NegativeRain)
    else if c.growthWeight < 0 then Some(NegativeGrowth)
    else if c.pestWeight < 0 then Some(NegativePest)
    else if TotalWeight(c) == 0 then Some(NoWeight)
    else if c.workerCount < 0 then Some(NegativeWorkers)
    else if c.workerCount > MAX_WORKER_COUNT then Some(TooManyWorkers)
    else if c.batchSize < 0 then Some(NegativeBatch)
    else if c.batchSize > MAX_BATCH_SIZE then Some(BatchTooLarge)
    else if c.failSnapshotEvery < 0 then Some(NegativeFailEvery)
    else None
  }

  predicate ValidControls(c: Controls) {
    ValidateControls(c).None?
  }

  /** Controls are accepted exactly within these bounds, and then a tick's capacity is bounded too. */
  lemma AcceptedControls(c: Controls)
    ensures ValidControls(c) <==>
              && 1 <= c.eventsPerTick <= 1000
              && c.rainWeight >= 0 && c.growthWeight >= 0 && c.pestWeight >= 0
              && (c.rainWeight > 0 || c.growthWeight > 0 || c.pestWeight > 0)
              && 0 <= c.workerCount <= 64 && 0 <= c.batchSize <= 1000 && c.failSnapshotEvery >= 0
    ensures ValidControls(c) ==> Capacity(c) == c.workerCount * c.batchSize && 0 <= Capacity(c) <= 64_000
    ensures ValidControls(c) ==> (Capacity(c) == 0 <==> c.workerCount == 0 || c.batchSize == 0)
  {
    if ValidControls(c) && c.workerCount > 0 && c.batchSize > 0 {
      hide Shares;
      SharesIsProduct(c.workerCount, c.batchSize);
      SharesBound(c.workerCount, c.batchSize);
    }
  }

  lemma {:induction false} SharesBound(workers: nat, batch: int)
    requires 1 <= batch <= 1000
    ensures workers <= Shares(workers, batch) <= 1000 * workers
  {
    if workers > 0 { SharesBound(workers - 1, batch); }
  }
}
