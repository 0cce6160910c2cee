/** The pure part of the `useJobs` composable
    (layers/portal-prueba/app/composables/useJobs.ts): filtering the loaded
    jobs, merging filter updates, and clearing the filters. */
module JobFilters {
  import opened Wrappers
  import opened Text
  import opened Seqs
  import opened JobTypes

  /** A filter field is applied when it is truthy: present and non-empty. */
  predicate IsActive(f: Option<string>) {
    f.Some? && f.value != ""
  }

  /** The type filter accepts `job`: inactive, or equal to the job's type. */
  predicate TypeAccepts(filters: JobFilters, job: Job) {
    IsActive(filters.jobType) ==> job.jobType.Name() == filters.jobType.value
  }

  /** The location filter accepts `job`: inactive, or a case-insensitive
      substring of its location. */
  predicate LocationAccepts(filters: JobFilters, job: Job) {
    IsActive(filters.location) ==> Contains(Lower(job.location), Lower(filters.location.value))
  }

  /** The search filter accepts `job`: inactive, or a case-insensitive
      substring of its title, company or description. */
  predicate SearchAccepts(filters: JobFilters, job: Job) {
    IsActive(filters.search) ==>
      var term := Lower(filters.search.value);
      || Contains(Lower(job.title), term)
      || Contains(Lower(job.company), term)
      || Contains(Lower(job.description), term)
  }

  /** The reference definition: `job` passes every active filter. */
  predicate Matches(filters: JobFilters, job: Job) {
    TypeAccepts(filters, job) && LocationAccepts(filters, job) && SearchAccepts(filters, job)
  }

  /** A pass that is skipped is a filter by a predicate that holds of every
      job. */
  lemma SkippedPass(jobs: seq<Job>, active: bool, p: Job -> bool)
    requires !active ==> forall job :: p(job)
    ensures (if active then Filter(jobs, p) else jobs) == Filter(jobs, p)
  {
    if !active {
      FilterKeepsAll(jobs, p);
    }
  }

  /** `applyFilters`: three successive passes, each run only when its filter
      is active. The result is one pass by `Matches`: the jobs that pass every
      active filter, in their original order. */
  function ApplyFilters(jobs: seq<Job>, filters: JobFilters): (r: seq<Job>)
    ensures r == Filter(jobs, job => Matches(filters, job))
    ensures IsSubsequence(r, jobs)
    ensures forall job :: job in r <==> job in jobs && Matches(filters, job)
  {
    var t := (job: Job) => TypeAccepts(filters, job);
    var l := (job: Job) => LocationAccepts(filters, job);
    var s := (job: Job) => SearchAccepts(filters, job);
    var tl := (job: Job) => TypeAccepts(filters, job) && LocationAccepts(filters, job);
    var all := (job: Job) => Matches(filters, job);
    var byType := if IsActive(filters.jobType) then Filter(jobs, t) else jobs;
    var byLocation := if IsActive(filters.location) then Filter(byType, l) else byType;
    var r := if IsActive(filters.search) then Filter(byLocation, s) else byLocation;
    SkippedPass(jobs, IsActive(filters.jobType), t);
    SkippedPass(byType, IsActive(filters.location), l);
    SkippedPass(byLocation, IsActive(filters.search), s);
    FilterFilter(jobs, t, l, tl);
    FilterFilter(jobs, tl, s, all);
    FilterIsSubsequence(jobs, all);
    r
  }

  /** The three passes select exactly the jobs of one pass by `Matches`. */
  lemma ApplyFiltersIsOnePass(jobs: seq<Job>, filters: JobFilters)
    ensures ApplyFilters(jobs, filters) == Filter(jobs, job => Matches(filters, job))
  {
  }

  /** `applyFilters` keeps the jobs in their order (soundness of the order),
      keeps only jobs that pass every active filter (soundness) and keeps every
      job that does (completeness). */
  lemma ApplyFiltersSpec(jobs: seq<Job>, filters: JobFilters)
    ensures IsSubsequence(ApplyFilters(jobs, filters), jobs)
    ensures forall job :: job in ApplyFilters(jobs, filters) <==> job in jobs && Matches(filters, job)
  {
  }

  /** Each active filter holds of every job in the output. */
  lemma ApplyFiltersSound(jobs: seq<Job>, filters: JobFilters, job: Job)
    requires job in ApplyFilters(jobs, filters)
    ensures IsActive(filters.jobType) ==> job.jobType.Name() == filters.jobType.value
    ensures IsActive(filters.location) ==> Contains(Lower(job.location), Lower(filters.location.value))
    ensures IsActive(filters.search) ==>
      || Contains(Lower(job.title), Lower(filters.search.value))
      || Contains(Lower(job.company), Lower(filters.search.value))
      || Contains(Lower(job.description), Lower(filters.search.value))
  {
  }

  /** The filters a fresh composable starts with, and `clearFilters` restores. */
  function EmptyFilters(): (f: JobFilters)
    ensures !IsActive(f.jobType) && !IsActive(f.location) && !IsActive(f.search)
  {
    JobFilters(Some(""), Some(""), Some(""))
  }

  /** With no active filter the output is the whole list. */
  lemma InactiveFiltersKeepAll(jobs: seq<Job>, filters: JobFilters)
    requires !IsActive(filters.jobType) && !IsActive(filters.location) && !IsActive(filters.search)
    ensures ApplyFilters(jobs, filters) == jobs
  {
  }

  /** One key of a `Partial<JobFilters>`: absent, or present with a value
      (which may itself be `undefined`). */
  datatype Override<T> = Keep | Put(value: T)

  datatype FilterPatch = FilterPatch(
    jobType: Override<Option<string>>,
    location: Override<Option<string>>,
    search: Override<Option<string>>)

  function Apply<T>(o: Override<T>, current: T): T {
    match o
    case Keep => current
    case Put(v) => v
  }

  /** `{ ...filters, ...patch }`: the keys present in the patch win. */
  function MergeFilters(filters: JobFilters, patch: FilterPatch): (r: JobFilters)
    ensures patch.jobType.Keep? ==> r.jobType == filters.jobType
    ensures patch.location.Keep? ==> r.location == filters.location
    ensures patch.search.Keep? ==> r.search == filters.search
    ensures patch.jobType.Put? ==> r.jobType == patch.jobType.value
    ensures patch.location.Put? ==> r.location == patch.location.value
    ensures patch.search.Put? ==> r.search == patch.search.value
  {
    JobFilters(Apply(patch.jobType, filters.jobType),
               Apply(patch.location, filters.location),
               Apply(patch.search, filters.search))
  }

  /** Merging the same patch twice is merging it once, and an empty patch
      changes nothing. */
  lemma MergeFiltersLaws(filters: JobFilters, patch: FilterPatch)
    ensures MergeFilters(MergeFilters(filters, patch), patch) == MergeFilters(filters, patch)
    ensures MergeFilters(filters, FilterPatch(Keep, Keep, Keep)) == filters
  {
  }

  /** The reactive state of the composable that the pure operations touch. */
  datatype JobsState = JobsState(jobs: seq<Job>, filteredJobs: seq<Job>, filters: JobFilters)

  /** The shown list is the filtered list of the loaded jobs. */
  predicate Consistent(st: JobsState) {
    st.filteredJobs == ApplyFilters(st.jobs, st.filters)
  }

  function InitialJobsState(): (st: JobsState)
    ensures Consistent(st)
  {
    JobsState([], [], EmptyFilters())
  }

  /** The success path of `fetchJobs`: store the loaded jobs and re-filter. */
  function LoadJobs(st: JobsState, data: seq<Job>): (st': JobsState)
    ensures Consistent(st')
    ensures st'.jobs == data && st'.filters == st.filters
  {
    st.(jobs := data, filteredJobs := ApplyFilters(data, st.filters))
  }

  /** `updateFilters`: merge the patch, then re-filter. */
  function UpdateFilters(st: JobsState, patch: FilterPatch): (st': JobsState)
    ensures Consistent(st')
    ensures st'.jobs == st.jobs
    ensures st'.filters == MergeFilters(st.filters, patch)
  {
    var filters := MergeFilters(st.filters, patch);
    JobsState(st.jobs, ApplyFilters(st.jobs, filters), filters)
  }

  /** `clearFilters`: every filter back to empty, so every loaded job shows. */
  function ClearFilters(st: JobsState): (st': JobsState)
    ensures Consistent(st')
    ensures st'.jobs == st.jobs && st'.filteredJobs == st.jobs
    ensures !IsActive(st'.filters.jobType) && !IsActive(st'.filters.location) && !IsActive(st'.filters.search)
  {
    var filters := EmptyFilters();
    InactiveFiltersKeepAll(st.jobs, filters);
    JobsState(st.jobs, ApplyFilters(st.jobs, filters), filters)
  }
}
