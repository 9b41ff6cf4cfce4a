/** The backward scan for a payment's transaction: one bounded window of finalized blocks per check. */
module BlockScan {
  import opened Sums

  const WINDOW: nat := 2000

  type TxHash = string

  /** What a check met: an error anywhere before the answer, exactly one transaction, or none, and
      then whether the window's first block predates the payment. */
  datatype Answer = Failed | Found(tx: TxHash) | NotFound(predates: bool)

  /** `finalized` is the head reported in the same check. */
  datatype Check = Check(finalized: nat, answer: Answer)

  datatype Range = Range(start: int, end: int)

  function Min(a: int, b: int): int {
    if a < b then a else b
  }

  function RangeOf(carry: Option<int>, finalized: nat): Range {
    var end := if carry.Some? then Min(carry.value, finalized) else finalized;
    Range(if end - (WINDOW - 1) < 0 then 0 else end - (WINDOW - 1), end)
  }

  /** The query is answered: no error, and a last block that a node can read. */
  predicate Searched(carry: Option<int>, check: Check) {
    !check.answer.Failed? && RangeOf(carry, check.finalized).end >= 0
  }

  /** The block carried to the next check; none restarts from the head. */
  function Carry(carry: Option<int>, check: Check): Option<int> {
    var w := RangeOf(carry, check.finalized);
    if !Searched(carry, check) then carry
    else if check.answer.Found? then Some(w.start - 1)
    else if w.start == 0 || check.answer.predates then None
    else Some(w.start - 1)
  }

  /** An answered search that found nothing ends the sweep exactly when it reached block zero or a block
      before the payment; otherwise, as when it found the transaction, the block below it comes next.
      An error, or a window below block zero, changes nothing. */
  lemma CarriedExactly(carry: Option<int>, check: Check)
    ensures var head := if carry.Some? && carry.value < check.finalized then carry.value else check.finalized;
            if check.answer.Failed? || head < 0 then Carry(carry, check) == carry
            else if check.answer.NotFound? && (head < 2000 || check.answer.predates) then Carry(carry, check) == None
            else Carry(carry, check) == Some(if head < 2000 then -1 else head - 2000)
  {
  }

  /** The windows searched by a run of checks, up to the end of the first sweep. */
  function Windows(carry: Option<int>, checks: seq<Check>): seq<Range>
    decreases |checks|
  {
    if checks == [] then []
    else if !Searched(carry, checks[0]) then Windows(carry, checks[1..])
    else
      var next := Carry(carry, checks[0]);
      [RangeOf(carry, checks[0].finalized)] + (if next.None? then [] else Windows(next, checks[1..]))
  }

  /** Adjacent windows, from a head downwards. */
  predicate Tiles(windows: seq<Range>, head: int) {
    && (windows != [] ==> windows[0].end == head)
    && (forall i | 0 <= i < |windows| :: 0 <= windows[i].start <= windows[i].end < windows[i].start + WINDOW)
    && (forall i | 0 < i < |windows| :: windows[i].end == windows[i - 1].start - 1)
  }

  /** The finalized head never falls below a block already carried. */
  predicate HeadHolds(carry: Option<int>, checks: seq<Check>)
    decreases |checks|
  {
    checks == [] ||
    ((carry.Some? ==> carry.value <= checks[0].finalized) && HeadHolds(Carry(carry, checks[0]), checks[1..]))
  }

  /** Successive searches are adjacent, and therefore disjoint: the next window ends where the
      last one began, exactly while the reported head does not fall below it. */
  lemma NextWindowAdjacent(carry: Option<int>, check: Check, next: Check)
    requires Searched(carry, check) && Carry(carry, check).Some? && Carry(carry, check).value >= 0
    ensures RangeOf(Carry(carry, check), next.finalized).end == RangeOf(carry, check.finalized).start - 1
            <==> next.finalized >= RangeOf(carry, check.finalized).start - 1
  {
  }

  /** A failed check repeats its window, or the top of a later head if the sweep has not begun. */
  lemma FailureRepeats(carry: Option<int>, check: Check, next: Check)
    requires check.answer.Failed? && (carry.Some? ==> carry.value <= check.finalized && carry.value <= next.finalized)
    ensures Carry(carry, check) == carry
    ensures carry.Some? ==> RangeOf(carry, next.finalized) == RangeOf(carry, check.finalized)
  {
  }

  lemma {:induction false} WindowsTile(carry: int, checks: seq<Check>)
    requires carry >= 0 && HeadHolds(Some(carry), checks)
    ensures Tiles(Windows(Some(carry), checks), carry)
    decreases |checks|
  {
    if checks != [] {
      var c := checks[0];
      var next := Carry(Some(carry), c);
      if !Searched(Some(carry), c) {
        WindowsTile(carry, checks[1..]);
      } else if next.Some? && next.value >= 0 {
        WindowsTile(next.value, checks[1..]);
      } else if next.Some? {
        NegativeSearchesNothing(next.value, checks[1..]);
      }
    }
  }

  /** Below block zero nothing can be read. */
  lemma {:induction false} NegativeSearchesNothing(carry: int, checks: seq<Check>)
    requires carry < 0
    ensures Windows(Some(carry), checks) == []
    decreases |checks|
  {
    if checks != [] {
      NegativeSearchesNothing(carry, checks[1..]);
    }
  }

  /** The state after a run of checks of one sweep. */
  function CarryAfter(carry: Option<int>, checks: seq<Check>): Option<int>
    decreases |checks|
  {
    if checks == [] then carry else CarryAfter(Carry(carry, checks[0]), checks[1..])
  }

  function LowestStart(windows: seq<Range>): int
    requires windows != []
  {
    windows[|windows| - 1].start
  }

  predicate Covered(windows: seq<Range>, block: int) {
    exists i :: 0 <= i < |windows| && windows[i].start <= block <= windows[i].end
  }

  /** Adjacent windows leave no block out. */
  lemma {:induction false} TilesCover(windows: seq<Range>, head: int, block: int)
    requires Tiles(windows, head) && windows != [] && LowestStart(windows) <= block <= head
    ensures Covered(windows, block)
    decreases |windows|
  {
    if block >= windows[0].start {
      assert windows[0].start <= block <= windows[0].end;
    } else {
      var rest := windows[1..];
      assert rest[|rest| - 1] == windows[|windows| - 1];
      TilesCover(rest, windows[0].start - 1, block);
      var i :| 0 <= i < |rest| && rest[i].start <= block <= rest[i].end;
      assert windows[i + 1] == rest[i];
    }
  }

  /** And none twice. */
  lemma {:induction false} TilesDisjoint(windows: seq<Range>, head: int, i: nat, j: nat)
    requires Tiles(windows, head) && i < j < |windows|
    ensures windows[j].end < windows[i].start
    decreases j
  {
    if j > i + 1 {
      TilesDisjoint(windows, head, i, j - 1);
    }
  }

  /** The checks of a sweep that ends with its last one: searches that carry on, and a last one
      that reaches block zero or a block older than the payment. */
  predicate EndsSweep(carry: Option<int>, checks: seq<Check>)
    decreases |checks|
  {
    checks != [] &&
    (if Searched(carry, checks[0]) && Carry(carry, checks[0]).None? then |checks| == 1
     else EndsSweep(Carry(carry, checks[0]), checks[1..]))
  }

  lemma {:induction false} NegativeNeverEnds(carry: int, checks: seq<Check>)
    requires carry < 0
    ensures !EndsSweep(Some(carry), checks)
    decreases |checks|
  {
    if checks != [] {
      NegativeNeverEnds(carry, checks[1..]);
    }
  }

  lemma TilesPrepend(w: Range, rest: seq<Range>)
    requires 0 <= w.start <= w.end < w.start + WINDOW && rest != [] && Tiles(rest, w.start - 1)
    ensures Tiles([w] + rest, w.end) && LowestStart([w] + rest) == LowestStart(rest)
  {
    var all := [w] + rest;
    forall i | 0 < i < |all| ensures all[i].end == all[i - 1].start - 1 {
      assert all[i] == rest[i - 1];
      assert i > 1 ==> all[i - 1] == rest[i - 2];
    }
  }

  lemma {:induction false} SweepTiles(carry: Option<int>, checks: seq<Check>)
    requires (carry.Some? ==> carry.value >= 0) && HeadHolds(carry, checks) && EndsSweep(carry, checks)
    ensures var windows := Windows(carry, checks);
            && windows != [] && Tiles(windows, windows[0].end)
            && (carry.Some? ==> windows[0].end == carry.value)
            && (LowestStart(windows) == 0 || checks[|checks| - 1].answer == NotFound(true))
    decreases |checks|
  {
    var next := Carry(carry, checks[0]);
    var w := RangeOf(carry, checks[0].finalized);
    if !Searched(carry, checks[0]) {
      SweepTiles(carry, checks[1..]);
    } else if next.None? {
      assert Windows(carry, checks) == [w];
    } else if next.value < 0 {
      NegativeNeverEnds(next.value, checks[1..]);
    } else {
      SweepTiles(next, checks[1..]);
      TilesPrepend(w, Windows(next, checks[1..]));
    }
  }

  /** A finished sweep has searched every block, once, from the head of its first search, or the
      block it was carried to, down to block zero or to a window that begins before the payment. */
  lemma {:induction false} SweepCovers(carry: Option<int>, checks: seq<Check>, block: int)
    requires (carry.Some? ==> carry.value >= 0) && HeadHolds(carry, checks) && EndsSweep(carry, checks)
    ensures var windows := Windows(carry, checks);
            && windows != [] && Tiles(windows, windows[0].end)
            && (carry.Some? ==> windows[0].end == carry.value)
            && (LowestStart(windows) <= block <= windows[0].end ==> Covered(windows, block))
            && (LowestStart(windows) == 0 || checks[|checks| - 1].answer == NotFound(true))
  {
    SweepTiles(carry, checks);
    var windows := Windows(carry, checks);
    if LowestStart(windows) <= block <= windows[0].end {
      TilesCover(windows, windows[0].end, block);
    }
  }

  /** The carried block strictly falls with every search of a sweep, so a sweep cannot go on for
      ever; without errors it ends within one check per window. */
  lemma {:induction false} SweepTerminates(carry: int, checks: seq<Check>)
    requires carry >= 0 && HeadHolds(Some(carry), checks)
    requires forall i | 0 <= i < |checks| :: checks[i].answer.NotFound?
    requires |checks| >= carry / WINDOW + 1
    ensures exists n | 0 < n <= |checks| :: EndsSweep(Some(carry), checks[..n])
    decreases |checks|
  {
    var next := Carry(Some(carry), checks[0]);
    if next.None? {
      assert EndsSweep(Some(carry), checks[..1]);
    } else {
      assert next.value == carry - WINDOW;
      SweepTerminates(next.value, checks[1..]);
      var n :| 0 < n <= |checks[1..]| && EndsSweep(next, checks[1..][..n]);
      assert checks[..n + 1][1..] == checks[1..][..n];
      assert EndsSweep(Some(carry), checks[..n + 1]);
    }
  }

  // ---------------------------------------------------------------- below block zero

  /** The carry falls below zero exactly when a transaction is found in a window that begins at
      block zero. */
  lemma NegativeCarryExactly(carry: Option<int>, check: Check)
    requires carry.Some? ==> carry.value >= 0
    ensures Carry(carry, check).Some? && Carry(carry, check).value < 0 <==>
            check.answer.Found? && RangeOf(carry, check.finalized).start == 0
  {
  }

  /** From there it never moves again: every later check of the payment fails, whatever the node
      answers, and the transaction is not looked up again. */
  lemma {:induction false} NegativeCarryIsStuck(carry: int, checks: seq<Check>)
    requires carry < 0
    ensures CarryAfter(Some(carry), checks) == Some(carry) && Windows(Some(carry), checks) == []
    decreases |checks|
  {
    if checks != [] {
      NegativeCarryIsStuck(carry, checks[1..]);
    }
  }

  /** So it goes on a chain younger than a window: the first search that finds the transaction is the
      last search there is. */
  lemma YoungChainSticks(finalized: nat, tx: TxHash, checks: seq<Check>)
    requires finalized < WINDOW
    ensures var all := [Check(finalized, Found(tx))] + checks;
            CarryAfter(None, all) == Some(-1) && Windows(None, all) == [Range(0, finalized)]
  {
    var first := Check(finalized, Found(tx));
    assert ([first] + checks)[1..] == checks;
    NegativeCarryIsStuck(-1, checks);
  }

  // ---------------------------------------------------------------- the jobs table

  type JobId = string

  const LEASE: nat := 300

  datatype Job = Job(nextCheck: int, attempts: nat, carry: Option<int>)

  function Power2(n: nat): nat {
    if n == 0 then 1 else 2 * Power2(n - 1)
  }

  function Backoff(attempts: nat): nat {
    Min(3600, 15 * Power2(Min(attempts, 8)))
  }

  const NEW_JOB: Job := Job(0, 0, None)

  /** Every authorized payment has a job; those there are stay as they are. */
  function Enrolled(jobs: map<JobId, Job>, authorized: set<JobId>): map<JobId, Job> {
    map id | id in jobs.Keys + authorized :: if id in jobs then jobs[id] else NEW_JOB
  }

  /** The answer of the query for due work: the authorized payments whose time has come, each once,
      the earliest first. */
  predicate DueAnswer(jobs: map<JobId, Job>, authorized: set<JobId>, due: seq<JobId>, now: int) {
    && (forall i | 0 <= i < |due| :: due[i] in authorized)
    && (forall id | id in authorized :: id in jobs && (id in due <==> jobs[id].nextCheck <= now))
    && (forall i, j | 0 <= i < j < |due| && due[i] in jobs && due[j] in jobs ::
          due[i] != due[j] && jobs[due[i]].nextCheck <= jobs[due[j]].nextCheck)
  }

  function BatchOf(batch: int, due: nat): nat {
    Min(due, Min(if batch < 1 then 1 else batch, 5))
  }

  /** All that is due, up to what was asked for, which is taken to be at least one and at most five. */
  lemma BatchExactly(batch: int, due: nat)
    ensures var most := if batch < 1 then 1 else if batch < 5 then batch else 5;
            BatchOf(batch, due) == if due < most then due else most
  {
  }

  /** What a check came to. An authorization that is unused and has not expired is looked at again
      soon after it expires; only a used or cancelled one is searched for. */
  datatype Inspection = Unexpired(validBefore: int) | Search(check: Check) | Otherwise

  function CarryKept(carry: Option<int>, inspection: Inspection): Option<int> {
    if inspection.Search? then Carry(carry, inspection.check) else carry
  }

  function Delay(attempts: nat, jitter: nat, inspection: Inspection, now: int): int {
    var usual := Backoff(attempts) + jitter;
    if !inspection.Unexpired? then usual
    else Min(usual, if inspection.validBefore - now + 15 < 15 then 15 else inspection.validBefore - now + 15)
  }

  /** A job never waits longer than an hour and the jitter, and at least fifteen seconds. */
  lemma DelayBounds(attempts: nat, jitter: nat, inspection: Inspection, now: int)
    requires jitter <= 5
    ensures 15 <= Delay(attempts, jitter, inspection, now) <= 3605
  {
    PowerAtLeastOne(Min(attempts, 8));
  }

  /** The waits double from fifteen seconds to an hour; an authorization that has not expired is looked at
      again fifteen seconds after it does, if that is sooner. */
  lemma DelaysDouble(attempts: nat, jitter: nat, inspection: Inspection, now: int)
    ensures var waits := [15, 30, 60, 120, 240, 480, 960, 1920, 3600];
            var usual := waits[if attempts < 8 then attempts else 8] + jitter;
            && (!inspection.Unexpired? ==> Delay(attempts, jitter, inspection, now) == usual)
            && (inspection.Unexpired? ==>
                  var left := inspection.validBefore - now;
                  Delay(attempts, jitter, inspection, now) ==
                  if left <= 0 && usual >= 15 then 15 else if left + 15 < usual then left + 15 else usual)
  {
    PowersOfTwo();
  }

  lemma PowersOfTwo()
    ensures Power2(0) == 1 && Power2(1) == 2 && Power2(2) == 4 && Power2(3) == 8 && Power2(4) == 16
    ensures Power2(5) == 32 && Power2(6) == 64 && Power2(7) == 128 && Power2(8) == 256
  {
    assert Power2(4) == 16 && Power2(6) == 64;
  }

  lemma {:induction false} PowerAtLeastOne(n: nat)
    ensures Power2(n) >= 1
  {
    if n > 0 {
      PowerAtLeastOne(n - 1);
    }
  }

  /** The claimed jobs, and no others, are put off by the lease. */
  predicate Leased(before: map<JobId, Job>, claimed: seq<JobId>, now: int, after: map<JobId, Job>) {
    && after.Keys == before.Keys
    && forall id | id in after ::
         after[id] == if id in claimed then before[id].(nextCheck := now + LEASE) else before[id]
  }

  lemma OneMoreLeased(before: map<JobId, Job>, claimed: seq<JobId>, i: nat, now: int, after: map<JobId, Job>)
    requires i < |claimed| && claimed[i] in before && Leased(before, claimed[..i], now, after)
    ensures Leased(before, claimed[..i + 1], now,
                   after[claimed[i] := after[claimed[i]].(nextCheck := now + LEASE)])
  {
    assert claimed[..i + 1] == claimed[..i] + [claimed[i]];
  }

  class Worker {
    var jobs: map<JobId, Job>

    /** Takes at most five due jobs for the length of a lease before any network call. */
    method Claim(authorized: set<JobId>, due: seq<JobId>, now: int, batch: int) returns (claimed: seq<JobId>)
      requires DueAnswer(Enrolled(jobs, authorized), authorized, due, now)
      modifies this`jobs
      ensures claimed == due[..BatchOf(batch, |due|)]
      ensures jobs.Keys == old(jobs).Keys + authorized
      ensures Leased(Enrolled(old(jobs), authorized), claimed, now, jobs)
    {
      jobs := Enrolled(jobs, authorized);
      claimed := due[..BatchOf(batch, |due|)];
      Lease(claimed, now);
    }

    method Lease(claimed: seq<JobId>, now: int)
      requires forall i | 0 <= i < |claimed| :: claimed[i] in jobs
      modifies this`jobs
      ensures Leased(old(jobs), claimed, now, jobs)
    {
      var i := 0;
      while i < |claimed|
        modifies this`jobs
        invariant 0 <= i <= |claimed|
        invariant Leased(old(jobs), claimed[..i], now, jobs)
      {
        OneMoreLeased(old(jobs), claimed, i, now, jobs);
        jobs := jobs[claimed[i] := jobs[claimed[i]].(nextCheck := now + LEASE)];
        i := i + 1;
      }
      assert claimed[..i] == claimed;
    }

    /** The block carried on after one search: an error keeps it. */
    method Scan(carry: Option<int>, check: Check) returns (scanBlock: Option<int>)
      ensures scanBlock == Carry(carry, check)
    {
      scanBlock := carry;
      var end: int := check.finalized;
      if carry.Some? && carry.value < end {
        end := carry.value;
      }
      var start := if end - 1999 > 0 then end - 1999 else 0;
      if end >= 0 {
        match check.answer
        case Failed =>
        case Found(_) => scanBlock := Some(start - 1);
        case NotFound(predates) => scanBlock := if start == 0 || predates then None else Some(start - 1);
      }
    }

    /** One check of one job. */
    method Finish(id: JobId, inspection: Inspection, now: int, jitter: nat)
      requires id in jobs && jitter <= 5
      modifies this`jobs
      ensures var job := old(jobs)[id];
              jobs == old(jobs)[id := Job(now + Delay(job.attempts, jitter, inspection, now), job.attempts + 1,
                                          CarryKept(job.carry, inspection))]
      ensures now + 15 <= jobs[id].nextCheck <= now + 3605
    {
      var job := jobs[id];
      var scanBlock := job.carry;
      if inspection.Search? {
        scanBlock := Scan(job.carry, inspection.check);
      }
      var delay: int := Backoff(job.attempts) + jitter;
      if inspection.Unexpired? {
        var soon := if inspection.validBefore - now + 15 < 15 then 15 else inspection.validBefore - now + 15;
        if soon < delay {
          delay := soon;
        }
      }
      DelayBounds(job.attempts, jitter, inspection, now);
      jobs := jobs[id := Job(now + delay, job.attempts + 1, scanBlock)];
    }
  }
}
