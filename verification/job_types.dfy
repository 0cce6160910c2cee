/** The records of the jobs portal (layers/portal-prueba/shared/types/jobs.ts).
    `type` is a reserved word in Dafny, so the job's type is `jobType`. */
module JobTypes {
  import opened Wrappers

  datatype JobType = FullTime | PartTime | Contract | Remote {
    /** The string the JSON carries for this job type. */
    function Name(): string {
      match this
      case FullTime => "full-time"
      case PartTime => "part-time"
      case Contract => "contract"
      case Remote => "remote"
    }
  }

  datatype Job = Job(
    id: string,
    title: string,
    company: string,
    location: string,
    jobType: JobType,
    salary: Option<string>,
    description: string,
    requirements: seq<string>,
    responsibilities: seq<string>,
    benefits: Option<seq<string>>,
    postedDate: string,
    applicationDeadline: Option<string>,
    isActive: bool)

  datatype ApplicationStatus = Pending | Reviewed | Accepted | Rejected

  /** An application as the server reads it from the request body: any field
      may be missing. The resume, a file or a string in the request body, is
      kept as a string. */
  datatype JobApplication = JobApplication(
    id: Option<string>,
    jobId: Option<string>,
    applicantName: Option<string>,
    email: Option<string>,
    phone: Option<string>,
    resume: Option<string>,
    coverLetter: Option<string>,
    linkedIn: Option<string>,
    portfolio: Option<string>,
    appliedDate: Option<string>,
    status: Option<ApplicationStatus>)

  /** The three optional filters; a missing or empty filter is inactive. */
  datatype JobFilters = JobFilters(
    jobType: Option<string>,
    location: Option<string>,
    search: Option<string>)
}
