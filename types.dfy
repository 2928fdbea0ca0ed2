/** The domain records of the directory: projects, their expert needs and
    their progress updates. Coordinates are kept as exact reals; money
    amounts and counts as integers, which is what every fixture holds. */
module Types {
  import opened Wrappers

  datatype ProjectCategory = Hospital | School | Housing | Infrastructure {
    /** The enum's string value, which the description table is keyed by. */
    function Value(): (v: string)
      ensures v != "" && v != "default"
    {
      match this
      case Hospital => "Healthcare"
      case School => "Education"
      case Housing => "Residential"
      case Infrastructure => "Infrastructure"
    }
  }

  datatype ProjectStatus = Planning | Funding | InProgress | Completed {
    /** The enum's string value, which the status ribbon shows. */
    function Value(): (v: string)
      ensures v != ""
    {
      match this
      case Planning => "Planning"
      case Funding => "Funding"
      case InProgress => "In Progress"
      case Completed => "Completed"
    }
  }

  datatype ProjectUpdate = ProjectUpdate(
    id: string,
    date: string,
    title: string,
    description: string,
    imageUrl: Option<string>)

  datatype ExpertNeed = ExpertNeed(role: string, count: int)

  datatype Location = Location(lat: real, lng: real, address: string)

  datatype Project = Project(
    id: string,
    title: string,
    category: ProjectCategory,
    location: Location,
    budget: int,
    raised: int,
    description: string,
    status: ProjectStatus,
    imageUrl: string,
    expertId: Option<string>,
    expertNeeds: Option<seq<ExpertNeed>>,
    updates: Option<seq<ProjectUpdate>>)

  /** Distinct categories have distinct string values. */
  lemma CategoryValuesDistinct(a: ProjectCategory, b: ProjectCategory)
    ensures a.Value() == b.Value() ==> a == b
  {
  }

  /** Distinct statuses have distinct string values. */
  lemma StatusValuesDistinct(a: ProjectStatus, b: ProjectStatus)
    ensures a.Value() == b.Value() ==> a == b
  {
  }
}
