/** The lead record shared by the scoring engine and the activity tracker
    (lib/types.ts). Timestamps are integer milliseconds since the epoch. */
module LeadTypes {
  import opened Util

  /** Funnel position of a lead. */
  datatype Status = Prospect | Contacted | Replied | Converted | Rejected

  /** Where a lead came from. */
  datatype Source = GoogleMaps | Manual | Import

  /** The string a status is written as (`Lead["status"]`). */
  function StatusName(s: Status): (name: string)
    ensures |name| > 0
  {
    match s
    case Prospect => "prospect"
    case Contacted => "contacted"
    case Replied => "replied"
    case Converted => "converted"
    case Rejected => "rejected"
  }

  /** Distinct statuses are written differently. */
  lemma StatusNameInjective(s: Status, t: Status)
    ensures StatusName(s) == StatusName(t) ==> s == t
  {
  }

  datatype Lead = Lead(
    id: string,
    company_name: string,
    contact_name: string,
    email: string,
    phone: string,
    website: string,
    address: string,
    city: string,
    state: string,
    zip_code: string,
    country: Option<string>,
    industry: string,
    business_type: string,
    employee_count: int,
    annual_revenue: real,
    description: string,
    rating: real,
    score: real,
    status: Status,
    source: Source,
    contacted_at: Option<int>,
    replied_at: Option<int>,
    created_at: int,
    updated_at: int
  )
}
