/** The jobs table (src/routes/jobs.tsx): the per-status counters shown on
    the filter pills, the status filter, pill activity, the progress column
    and the "Showing a to b of n" pagination line. */
module Jobs {
  import opened Wrappers
  import opened JsNumber

  /** A row of `getUserSimulations` as the table reads it. */
  datatype Job = Job(id: string, name: string, status: string, progress: Option<Num>, createdAt: int)

  datatype Counts = Counts(all: nat, completed: nat, running: nat, pending: nat, failed: nat)

  const NoCounts: Counts := Counts(0, 0, 0, 0, 0)

  /** Number of jobs whose status is exactly `status`. */
  function CountStatus(jobs: seq<Job>, status: string): (n: nat)
    ensures n <= |jobs|
  {
    if jobs == [] then 0
    else CountStatus(jobs[..|jobs| - 1], status) + (if jobs[|jobs| - 1].status == status then 1 else 0)
  }

  /** The counters the pills display for a loaded job list. */
  function CountsOf(jobs: seq<Job>): Counts
  {
    Counts(|jobs|, CountStatus(jobs, "completed"), CountStatus(jobs, "running"),
           CountStatus(jobs, "pending"), CountStatus(jobs, "failed"))
  }

  /** The `statusCounts` memo: zeros while the query has not answered, otherwise
      `all` is the number of jobs and each job bumps the counter of its status. */
  method StatusCounts(jobs: Option<seq<Job>>) returns (counts: Counts)
    ensures jobs.None? ==> counts == NoCounts
    ensures jobs.Some? ==> counts == CountsOf(jobs.value)
  {
    if jobs.None? {
      return NoCounts;
    }
    var js := jobs.value;
    counts := Counts(|js|, 0, 0, 0, 0);
    for i := 0 to |js|
      invariant counts.all == |js|
      invariant counts.completed == CountStatus(js[..i], "completed")
      invariant counts.running == CountStatus(js[..i], "running")
      invariant counts.pending == CountStatus(js[..i], "pending")
      invariant counts.failed == CountStatus(js[..i], "failed")
    {
      assert js[..i + 1][..i] == js[..i];
      var status := js[i].status;
      if status == "completed" {
        counts := counts.(completed := counts.completed + 1);
      } else if status == "running" {
        counts := counts.(running := counts.running + 1);
      } else if status == "pending" {
        counts := counts.(pending := counts.pending + 1);
      } else if status == "failed" {
        counts := counts.(failed := counts.failed + 1);
      }
    }
    assert js[..|js|] == js;
  }

  predicate Tracked(status: string)
  {
    status == "completed" || status == "running" || status == "pending" || status == "failed"
  }

  /** Number of jobs whose status is one of the four tracked ones. */
  function TrackedCount(jobs: seq<Job>): (n: nat)
  {
    if jobs == [] then 0
    else TrackedCount(jobs[..|jobs| - 1]) + (if Tracked(jobs[|jobs| - 1].status) then 1 else 0)
  }

  /** Each job lands in at most one of the four status counters, so their sum
      is the number of tracked jobs and never exceeds `all`. */
  lemma {:induction false} CountersPartition(jobs: seq<Job>)
    ensures var c := CountsOf(jobs);
      c.completed + c.running + c.pending + c.failed == TrackedCount(jobs) <= c.all
  {
    if jobs != [] {
      CountersPartition(jobs[..|jobs| - 1]);
    }
  }

  /** A job in any other status (say "queued") raises `all` and nothing else. */
  lemma UntrackedOnlyInAll(jobs: seq<Job>, job: Job)
    requires !Tracked(job.status)
    ensures CountsOf(jobs + [job]) == CountsOf(jobs).(all := |jobs| + 1)
  {
    assert (jobs + [job])[..|jobs|] == jobs;
  }

  /** The column filter value: `undefined` (no filter) or the selected statuses. */
  type StatusFilter = Option<seq<string>>

  /** `filterFn`: a row stays iff the selected list includes its status. */
  predicate Keeps(selected: seq<string>, job: Job)
  {
    job.status in selected
  }

  /** The text of the search box (the table's global filter) and the
      table library's test of a row against it. An empty text filters
      nothing. */
  datatype Search = Search(text: string, matches: (Job, string) -> bool)

  predicate Passes(filter: StatusFilter, search: Search, job: Job)
  {
    (filter.None? || Keeps(filter.value, job)) && (search.text == "" || search.matches(job, search.text))
  }

  /** The filtered row model: the rows that pass both the status column
      filter and the search box, in order. */
  function Filtered(jobs: seq<Job>, filter: StatusFilter, search: Search): (r: seq<Job>)
    ensures filter.None? && search.text == "" ==> r == jobs
    ensures |r| <= |jobs|
    ensures forall job :: job in r <==> job in jobs && Passes(filter, search, job)
  {
    if jobs == [] then []
    else
      var rest := Filtered(jobs[..|jobs| - 1], filter, search);
      var last := jobs[|jobs| - 1];
      assert jobs == jobs[..|jobs| - 1] + [last];
      if Passes(filter, search, last) then rest + [last] else rest
  }

  /** Typing in the search box only ever hides rows: the table never shows
      more than the status filter alone keeps. */
  lemma {:induction false} SearchOnlyNarrows(jobs: seq<Job>, filter: StatusFilter, search: Search)
    ensures |Filtered(jobs, filter, search)| <= |Filtered(jobs, filter, search.(text := ""))|
  {
    if jobs != [] {
      SearchOnlyNarrows(jobs[..|jobs| - 1], filter, search);
    }
  }

  /** With an empty search box, selecting a single status shows exactly as
      many rows as its pill counts. */
  lemma {:induction false} SinglePillShowsItsCount(jobs: seq<Job>, status: string, search: Search)
    requires search.text == ""
    ensures |Filtered(jobs, Some([status]), search)| == CountStatus(jobs, status)
  {
    if jobs != [] {
      SinglePillShowsItsCount(jobs[..|jobs| - 1], status, search);
    }
  }

  /** The five pills in display order. */
  const PillKeys: seq<string> := ["all", "running", "completed", "pending", "failed"]

  /** Clicking a pill: "all" clears the filter, any other key selects only itself. */
  function ClickPill(key: string): (f: StatusFilter)
    ensures key == "all" <==> f.None?
    ensures f.Some? ==> f.value == [key]
  {
    if key == "all" then None else Some([key])
  }

  /** A pill is highlighted: "all" when no filter is set (an array, even an
      empty one, is truthy), any other key when the selection includes it. */
  predicate PillActive(key: string, filter: StatusFilter)
  {
    if key == "all" then filter.None? else filter.Some? && key in filter.value
  }

  /** The number a pill displays. */
  function PillCount(c: Counts, key: string): nat
  {
    if key == "running" then c.running
    else if key == "completed" then c.completed
    else if key == "pending" then c.pending
    else if key == "failed" then c.failed
    else c.all
  }

  /** After clicking one of the five pills, it is the only active one; the
      table shows exactly the number that pill displays while the search
      box is empty, and never more than that number otherwise. */
  lemma ClickedPillIsTheActiveOne(jobs: seq<Job>, clicked: nat, other: nat, search: Search)
    requires clicked < |PillKeys| && other < |PillKeys|
    ensures PillActive(PillKeys[other], ClickPill(PillKeys[clicked])) <==> other == clicked
    ensures search.text == "" ==>
      |Filtered(jobs, ClickPill(PillKeys[clicked]), search)| == PillCount(CountsOf(jobs), PillKeys[clicked])
    ensures |Filtered(jobs, ClickPill(PillKeys[clicked]), search)| <= PillCount(CountsOf(jobs), PillKeys[clicked])
  {
    var empty := search.(text := "");
    SearchOnlyNarrows(jobs, ClickPill(PillKeys[clicked]), search);
    if clicked > 0 {
      SinglePillShowsItsCount(jobs, PillKeys[clicked], empty);
    }
  }

  /** The progress column: the job's progress (`|| 0`) while running, 100 once
      completed, and 0 for every other status. */
  function ProgressShown(job: Job): (p: Num)
    ensures job.status != "running" && job.status != "completed" ==> p == Of(0)
    ensures job.status == "completed" ==> p == Of(100)
    ensures job.status == "running" && job.progress.Some? && Truthy(job.progress.value) ==> p == job.progress.value
  {
    if job.status == "running" then
      (if job.progress.None? then Of(0) else OrZero(job.progress.value))
    else if job.status == "completed" then Of(100)
    else Of(0)
  }

  /** A running job without a progress value, or with 0 or NaN, shows 0. */
  lemma RunningWithoutProgress(job: Job)
    requires job.status == "running"
    requires job.progress.None? || !Truthy(job.progress.value)
    ensures ProgressShown(job) == Of(0)
  {
  }

  /** Table defaults: ten rows a page, chosen from the page-size menu. */
  const DefaultPageSize: nat := 10
  const PageSizes: seq<nat> := [5, 10, 20, 50]

  /** The rows of one page (the pagination row model), after filtering. */
  function PageRows(rows: seq<Job>, pageIndex: nat, pageSize: nat): (r: seq<Job>)
    ensures pageIndex * pageSize >= |rows| ==> r == []
    ensures pageIndex * pageSize < |rows| ==>
      r == rows[pageIndex * pageSize .. if (pageIndex + 1) * pageSize < |rows| then (pageIndex + 1) * pageSize else |rows|]
  {
    var start := pageIndex * pageSize;
    var end := (pageIndex + 1) * pageSize;
    if start >= |rows| then [] else rows[start .. if end < |rows| then end else |rows|]
  }

  /** "Showing `from` to `to` of `filteredCount`". */
  datatype Range = Range(from: int, to: int)

  function ShownRange(pageIndex: nat, pageSize: nat, filteredCount: nat): Range
  {
    var end := (pageIndex + 1) * pageSize;
    Range(pageIndex * pageSize + 1, if end < filteredCount then end else filteredCount)
  }

  /** On a page that holds rows, the line names exactly the 1-based positions of
      the rows shown; an empty result reads "1 to 0". */
  lemma RangeMatchesPage(rows: seq<Job>, pageIndex: nat, pageSize: nat)
    requires pageIndex * pageSize < |rows|
    ensures var range := ShownRange(pageIndex, pageSize, |rows|);
      1 <= range.from && range.to <= |rows| &&
      range.to - range.from + 1 == |PageRows(rows, pageIndex, pageSize)|
  {
    assert (pageIndex + 1) * pageSize == pageIndex * pageSize + pageSize;
  }

  /** The default page size is one of the menu's choices, and with it the
      first page of a long enough table reads "Showing 1 to 10"; every
      choice shows at least one row a page. */
  lemma DefaultFirstPage(rows: seq<Job>)
    requires |rows| >= DefaultPageSize
    ensures DefaultPageSize in PageSizes
    ensures forall k :: 0 <= k < |PageSizes| ==> PageSizes[k] > 0
    ensures ShownRange(0, DefaultPageSize, |rows|) == Range(1, 10)
    ensures PageRows(rows, 0, DefaultPageSize) == rows[..10]
  {
  }

  lemma EmptyListRange(pageSize: nat)
    ensures ShownRange(0, pageSize, 0) == Range(1, 0)
  {
  }
}
