/** Record shapes of the portfolio site: the project record, its enumerations
    and the three screens of the single-page application. */
module Types {

  /** An optional value; `None` stands for a field that is `undefined`. */
  datatype Option<+T> = None | Some(value: T)

  /** The fixed set of target platforms of a project. */
  datatype Category = Mobile | PC | VR | Console

  /** Release status; only some records carry one. */
  datatype Status = Available | ComingSoon

  /** One showcased project. `link` and `status` are optional: the seed
      records carry neither and records created in the admin panel carry
      no `status`. */
  datatype Project = Project(
    id: string,
    title: string,
    description: string,
    imageUrl: string,
    technologies: seq<string>,
    category: Category,
    link: Option<string>,
    status: Option<Status>)

  /** The screen the application shows. */
  datatype ViewState = Home | Portfolio | Admin
}
