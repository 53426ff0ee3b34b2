/** The host's bookkeeping of one project: its jobs, their write-once answers, and the ordered
    table that remembers recent request ids.  These are the values the protocol of `HostProtocol`
    steps through; the classes below update them in place as the host does. */
module HostQueue {
  import opened Wrappers

  // ---- One job ----------------------------------------------------------------------

  datatype Reason =
    | Expired | StaleDomain | StaleReferences | NotReady | Unauthorized | InvalidRequest
    | HostStopping | HostError | EditorUnavailable | CompilerRefused | RequestIdConflict | QueueFull

  /** `Ran(n)` is what execution number `n` in Unity returned. */
  datatype Response = NotStarted(reason: Reason) | Unknown | Ran(execution: nat)

  datatype JobState = Queued | Dispatched | Completed

  /** A job with the deadlines it was submitted with, by the Unix clock in whole milliseconds and
      by the host's own monotonic clock. */
  datatype Job = Job(id: string, signature: string, control: bool, compiled: bool, deadline: int, hostDeadline: int,
                     state: JobState, response: Option<Response>)
  {
    predicate Done() { response.Some? }

    function Complete(answer: Response): Job {
      if Done() then this else this.(state := Completed, response := Some(answer))
    }

    function Expire(): Job {
      Complete(if state == Dispatched then Unknown else NotStarted(Expired))
    }
  }

  /** The fields of a job that change, under the job's lock. */
  class JobRecord {
    const request: Job
    var state: JobState
    var response: Option<Response>

    function View(): Job
      reads this
    {
      request.(state := state, response := response)
    }

    constructor (request: Job)
      ensures View() == request.(state := Queued, response := None)
    {
      this.request := request;
      state, response := Queued, None;
    }

    method Complete(answer: Response)
      modifies this
      ensures View() == old(View()).Complete(answer)
      ensures old(response).Some? ==> response == old(response) && state == old(state)
      ensures old(response).None? ==> response == Some(answer) && state == Completed
    {
      if response.None? {
        response := Some(answer);
        state := Completed;
      }
    }

    method Expire() returns (answer: Response)
      modifies this
      ensures View() == old(View()).Expire() && response == Some(answer)
      ensures old(response).Some? ==> Some(answer) == old(response)
      ensures old(response).None? ==> answer == if old(state) == Dispatched then Unknown else NotStarted(Expired)
    {
      if response.None? {
        response := Some(if state == Dispatched then Unknown else NotStarted(Expired));
        state := Completed;
      }
      return response.value;
    }
  }

  // ---- The table of recent requests -------------------------------------------------

  const LIMIT: int := 256

  /** Scanning from the oldest, drop jobs seen finished until fewer than 256 are left. */
  function Thin(kept: seq<nat>, rest: seq<nat>, seen: set<nat>): seq<nat>
    decreases |rest|
  {
    if rest == [] || |kept| + |rest| < LIMIT then kept + rest
    else Thin(if rest[0] in seen then kept else kept + [rest[0]], rest[1..], seen)
  }

  /** Drop the oldest job while there are more than 256 and it is seen finished. */
  function Trim(table: seq<nat>, seen: set<nat>): seq<nat> {
    if |table| > LIMIT && table[0] in seen then Trim(table[1..], seen) else table
  }

  function Open(table: seq<nat>, seen: set<nat>): nat {
    if table == [] then 0 else Open(table[..|table| - 1], seen) + if table[|table| - 1] in seen then 0 else 1
  }

  predicate Ascending(s: seq<nat>) { forall i, j | 0 <= i < j < |s| :: s[i] < s[j] }

  /** The ordered dictionary of jobs, as positions in the order of submission.  `seen` stands for
      the jobs whose done flags the loop finds set. */
  class RequestTable {
    var jobs: seq<nat>

    constructor ()
      ensures jobs == []
    {
      jobs := [];
    }

    method EvictFinished(seen: set<nat>)
      modifies this
      ensures jobs == Thin([], old(jobs), seen)
    {
      if |jobs| < LIMIT { return; }
      var all, i, passed := jobs, 0, 0;
      assert all[0..] == all;
      while i < |all|
        invariant 0 <= i <= |all|
        invariant passed <= i && |jobs| == passed + |all| - i && jobs[passed..] == all[i..]
        invariant Thin(jobs[..passed], all[i..], seen) == Thin([], all, seen)
      {
        if |jobs| < LIMIT { break; }
        assert all[i..][1..] == all[i + 1..] && all[i..] == [all[i]] + all[i + 1..];
        assert jobs[passed] == jobs[passed..][0] == all[i];
        if all[i] in seen {
          jobs := jobs[..passed] + jobs[passed + 1..];
        } else {
          assert jobs[..passed] + [all[i]] == jobs[..passed + 1];
          passed := passed + 1;
        }
        i := i + 1;
      }
    }

    method CountOpen(seen: set<nat>) returns (n: nat)
      ensures n == Open(jobs, seen)
    {
      n := 0;
      for i := 0 to |jobs|
        invariant n == Open(jobs[..i], seen)
      {
        assert jobs[..i + 1][..i] == jobs[..i];
        if jobs[i] !in seen { n := n + 1; }
      }
      assert jobs[..|jobs|] == jobs;
    }

    method TrimFinished(seen: set<nat>)
      modifies this
      ensures jobs == Trim(old(jobs), seen)
    {
      while |jobs| > LIMIT
        invariant Trim(jobs, seen) == Trim(old(jobs), seen)
      {
        if jobs[0] !in seen { break; }
        jobs := jobs[1..];
      }
    }

    /** The bookkeeping of `submit` for a new request: refused when 256 are open. */
    method Admit(job: nat, evictView: set<nat>, countView: set<nat>) returns (admitted: bool)
      modifies this
      ensures admitted == (Open(Thin([], old(jobs), evictView), countView) < LIMIT)
      ensures jobs == Thin([], old(jobs), evictView) + if admitted then [job] else []
    {
      EvictFinished(evictView);
      var n := CountOpen(countView);
      if n >= LIMIT { return false; }
      jobs := jobs + [job];
      return true;
    }
  }

  // ---- What eviction keeps ----------------------------------------------------------

  lemma {:induction false} ThinKeeps(kept: seq<nat>, rest: seq<nat>, seen: set<nat>)
    requires Ascending(kept + rest)
    ensures Ascending(Thin(kept, rest, seen))
    ensures forall j | j in Thin(kept, rest, seen) :: j in kept + rest
    ensures forall j | j in kept + rest :: j in Thin(kept, rest, seen) || j in seen
    decreases |rest|
  {
    if rest != [] && |kept| + |rest| >= LIMIT {
      var next := if rest[0] in seen then kept else kept + [rest[0]];
      assert rest == [rest[0]] + rest[1..];
      assert kept + rest == kept + [rest[0]] + rest[1..];
      assert Ascending(next + rest[1..]) by {
        if rest[0] in seen {
          assert forall i | 0 <= i < |next + rest[1..]| ::
            (next + rest[1..])[i] == (kept + rest)[if i < |kept| then i else i + 1];
        }
      }
      ThinKeeps(next, rest[1..], seen);
    }
  }

  lemma {:induction false} TrimKeeps(table: seq<nat>, seen: set<nat>)
    requires Ascending(table)
    ensures Ascending(Trim(table, seen))
    ensures forall j | j in Trim(table, seen) :: j in table
    ensures forall j | j in table :: j in Trim(table, seen) || j in seen
  {
    if |table| > LIMIT && table[0] in seen {
      assert table == [table[0]] + table[1..];
      TrimKeeps(table[1..], seen);
    }
  }

  /** The jobs not seen finished, in order. */
  function Unseen(jobs: seq<nat>, seen: set<nat>): seq<nat> {
    if jobs == [] then []
    else Unseen(jobs[..|jobs| - 1], seen) + if jobs[|jobs| - 1] in seen then [] else [jobs[|jobs| - 1]]
  }

  lemma {:induction false} UnseenFirst(first: nat, rest: seq<nat>, seen: set<nat>)
    ensures Unseen([first] + rest, seen) == (if first in seen then [] else [first]) + Unseen(rest, seen)
  {
    if rest == [] {
      assert [first] + rest == [first] && [first][..0] == [];
      assert Unseen([first], seen) == Unseen([], seen) + if first in seen then [] else [first];
    } else {
      UnseenFirst(first, rest[..|rest| - 1], seen);
      assert ([first] + rest)[..|rest|] == [first] + rest[..|rest| - 1];
    }
  }

  /** How many jobs are left once the oldest `n` were passed over. */
  function LeftAfter(table: seq<nat>, seen: set<nat>, n: nat): nat
    requires n <= |table|
  {
    |Unseen(table[..n], seen)| + |table| - n
  }

  lemma PassesOne(table: seq<nat>, seen: set<nat>, m: nat)
    requires m < |table|
    ensures Unseen(table[..m + 1], seen) == (if table[0] in seen then [] else [table[0]]) + Unseen(table[1..][..m], seen)
    ensures LeftAfter(table, seen, m + 1) == (if table[0] in seen then 0 else 1) + LeftAfter(table[1..], seen, m)
  {
    assert table[..m + 1] == [table[0]] + table[1..][..m];
    UnseenFirst(table[0], table[1..][..m], seen);
  }

  /** Where a pass that keeps `kept` stops. */
  ghost predicate StopsAt(kept: nat, rest: seq<nat>, seen: set<nat>, n: nat)
    requires n <= |rest|
  {
    && (forall m: nat | m < n :: kept + LeftAfter(rest, seen, m) >= LIMIT)
    && (n < |rest| ==> kept + LeftAfter(rest, seen, n) < LIMIT)
  }

  lemma StopsLater(kept: nat, rest: seq<nat>, seen: set<nat>, k: nat)
    requires rest != [] && kept + |rest| >= LIMIT && k < |rest|
    requires StopsAt(kept + (if rest[0] in seen then 0 else 1), rest[1..], seen, k)
    ensures StopsAt(kept, rest, seen, k + 1)
  {
    forall m: nat | m <= k
      ensures kept + LeftAfter(rest, seen, m) >= LIMIT
    {
      if m > 0 { PassesOne(rest, seen, m - 1); } else { assert rest[..0] == []; }
    }
    PassesOne(rest, seen, k);
  }

  lemma {:induction false} ThinPasses(kept: seq<nat>, rest: seq<nat>, seen: set<nat>) returns (n: nat)
    ensures n <= |rest| && Thin(kept, rest, seen) == kept + Unseen(rest[..n], seen) + rest[n..]
    ensures StopsAt(|kept|, rest, seen, n)
    decreases |rest|
  {
    if rest == [] || |kept| + |rest| < LIMIT {
      n := 0;
      assert rest[..0] == [];
      assert kept + Unseen([], seen) + rest == kept + rest;
    } else {
      var head := if rest[0] in seen then [] else [rest[0]];
      assert Thin(kept, rest, seen) == Thin(kept + head, rest[1..], seen) by { assert kept + [] == kept; }
      var k := ThinPasses(kept + head, rest[1..], seen);
      StopsLater(|kept|, rest, seen, k);
      PassesOne(rest, seen, k);
      n := k + 1;
      hide Thin, StopsAt, LeftAfter;
      assert rest[n..] == rest[1..][k..];
      assert kept + head + Unseen(rest[1..][..k], seen) == kept + (head + Unseen(rest[1..][..k], seen));
    }
  }

  /** Eviction passes over the oldest jobs, dropping those it sees finished, no further than the first
      point at which fewer than 256 are left. */
  lemma ThinsOldestFirst(table: seq<nat>, seen: set<nat>) returns (n: nat)
    ensures n <= |table| && Thin([], table, seen) == Unseen(table[..n], seen) + table[n..]
    ensures forall m: nat | m < n :: LeftAfter(table, seen, m) >= LIMIT
    ensures n < |table| ==> LeftAfter(table, seen, n) < LIMIT
  {
    n := ThinPasses([], table, seen);
    assert [] + Unseen(table[..n], seen) == Unseen(table[..n], seen);
  }

  /** Trimming drops the shortest run of oldest jobs, all seen finished, that ends at 256 jobs or at
      one not seen finished. */
  lemma {:induction false} TrimsOldestFirst(table: seq<nat>, seen: set<nat>) returns (n: nat)
    ensures n <= |table| && Trim(table, seen) == table[n..]
    ensures forall m | 0 <= m < n :: table[m] in seen && |table| - m > LIMIT
    ensures |table| - n <= LIMIT || table[n] !in seen
  {
    if |table| > LIMIT && table[0] in seen {
      var k := TrimsOldestFirst(table[1..], seen);
      n := k + 1;
      assert table[1..][k..] == table[n..];
      assert forall m | 0 < m < n :: table[m] == table[1..][m - 1];
    } else {
      n := 0;
    }
  }

  lemma {:induction false} OpenOfUnseen(table: seq<nat>, seen: set<nat>)
    ensures (forall j | j in table :: j !in seen) ==> Open(table, seen) == |table|
    ensures Open(table, seen) <= |table|
  {
    if table != [] { OpenOfUnseen(table[..|table| - 1], seen); }
  }

  function OpenJobs(table: seq<nat>, seen: set<nat>): set<nat> { set j | j in table && j !in seen }

  /** The open jobs of the table, counted. */
  lemma {:induction false} OpenIsCount(table: seq<nat>, seen: set<nat>)
    requires Ascending(table)
    ensures Open(table, seen) == |OpenJobs(table, seen)|
  {
    if table == [] {
      assert OpenJobs(table, seen) == {};
    } else {
      var init, last := table[..|table| - 1], table[|table| - 1];
      OpenIsCount(init, seen);
      assert last !in init by {
        forall i | 0 <= i < |init|
          ensures init[i] != last
        {
          assert table[i] < table[|table| - 1];
        }
      }
      assert table == init + [last];
      OpenJobsStep(init, last, seen);
    }
  }

  lemma OpenJobsStep(init: seq<nat>, last: nat, seen: set<nat>)
    requires last !in init
    ensures |OpenJobs(init + [last], seen)| == |OpenJobs(init, seen)| + if last in seen then 0 else 1
  {
    var before := OpenJobs(init, seen);
    if last in seen {
      assert OpenJobs(init + [last], seen) == before;
    } else {
      assert OpenJobs(init + [last], seen) == before + {last};
    }
  }

  lemma {:induction false} OpenFirst(first: nat, rest: seq<nat>, seen: set<nat>)
    ensures Open([first] + rest, seen) == (if first in seen then 0 else 1) + Open(rest, seen)
  {
    if rest == [] {
      assert [first] + rest == [first] && [first][..0] == [];
      assert Open([first], seen) == Open([], seen) + if first in seen then 0 else 1;
    } else {
      OpenFirst(first, rest[..|rest| - 1], seen);
      assert ([first] + rest)[..|rest|] == [first] + rest[..|rest| - 1];
    }
  }

  lemma {:induction false} OpenSplits(kept: seq<nat>, rest: seq<nat>, seen: set<nat>)
    ensures Open(kept + rest, seen) == Open(kept, seen) + Open(rest, seen)
  {
    if rest == [] {
      assert kept + rest == kept;
    } else {
      OpenSplits(kept, rest[..|rest| - 1], seen);
      assert (kept + rest)[..|kept + rest| - 1] == kept + rest[..|rest| - 1];
    }
  }

  /** What thinning leaves when it cannot get below 256: exactly the jobs it did not see finished. */
  lemma {:induction false} ThinIsFull(kept: seq<nat>, rest: seq<nat>, seen: set<nat>, later: set<nat>)
    requires forall j | j in kept :: j !in seen
    ensures |Thin(kept, rest, seen)| >= LIMIT <==> |kept| + Open(rest, seen) >= LIMIT
    ensures |Thin(kept, rest, seen)| >= LIMIT ==>
      Open(Thin(kept, rest, seen), later) == Open(kept, later) + Open(rest, seen + later)
    decreases |rest|
  {
    OpenOfUnseen(rest, seen);
    if rest == [] {
      assert kept + rest == kept;
    } else if |kept| + |rest| >= LIMIT {
      var next := if rest[0] in seen then kept else kept + [rest[0]];
      assert rest == [rest[0]] + rest[1..];
      OpenFirst(rest[0], rest[1..], seen);
      OpenFirst(rest[0], rest[1..], seen + later);
      OpenSplits(kept, [rest[0]], later);
      OpenFirst(rest[0], [], later);
      assert [rest[0]] + [] == [rest[0]];
      ThinIsFull(next, rest[1..], seen, later);
    }
  }

  /** An admission leaves more than 256 jobs in the table if and only if 256 or more were open when
      the first loop looked, and the second look, added to the first, brings them below 256. */
  lemma AdmissionOutgrowsExactly(table: seq<nat>, evictView: set<nat>, countView: set<nat>)
    ensures Open(Thin([], table, evictView), countView) < LIMIT && |Thin([], table, evictView)| + 1 > LIMIT
       <==> Open(table, evictView) >= LIMIT && Open(table, evictView + countView) < LIMIT
  {
    ThinIsFull([], table, evictView, countView);
  }

  lemma {:induction false} SomeSeen(table: seq<nat>, seen: set<nat>)
    ensures Open(table, seen) == |table| <==> forall j | j in table :: j !in seen
  {
    OpenOfUnseen(table, seen);
    if table != [] {
      var init, last := table[..|table| - 1], table[|table| - 1];
      assert table == init + [last];
      SomeSeen(init, seen);
      OpenOfUnseen(init, seen);
    }
  }

  /** For a table that has not outgrown 256 yet: it must be full, all of it open at the first look,
      and some of it finished at the second. */
  lemma FullTableOutgrowsExactly(table: seq<nat>, evictView: set<nat>, countView: set<nat>)
    requires |table| <= LIMIT
    ensures Open(Thin([], table, evictView), countView) < LIMIT && |Thin([], table, evictView)| + 1 > LIMIT
       <==> |table| == LIMIT && (forall j | j in table :: j !in evictView) && exists j :: j in table && j in countView
  {
    AdmissionOutgrowsExactly(table, evictView, countView);
    OpenOfUnseen(table, evictView);
    OpenOfUnseen(table, evictView + countView);
    SomeSeen(table, evictView);
    SomeSeen(table, evictView + countView);
  }

  /** When the done flags do not move between the two loops of `submit`, an admitted job never
      leaves more than 256 in the table. */
  lemma AtomicAdmissionIsBounded(table: seq<nat>, seen: set<nat>)
    requires Open(Thin([], table, seen), seen) < LIMIT
    ensures |Thin([], table, seen)| + 1 <= LIMIT
  {
    AdmissionOutgrowsExactly(table, seen, seen);
    assert seen + seen == seen;
  }

  /** When a job finishes between the two loops, a full table of open jobs outgrows 256. */
  lemma RacingAdmissionOutgrows(table: seq<nat>, finished: nat)
    requires |table| == LIMIT && finished in table
    ensures Open(Thin([], table, {}), {finished}) < LIMIT && |Thin([], table, {})| + 1 > LIMIT
  {
    FullTableOutgrowsExactly(table, {}, {finished});
  }
}
