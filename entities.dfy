/** The records the client receives from the API: the signed-in user and a
    portfolio project. Dates are kept as the ISO strings the API sends. */
module Entities {
  import opened Js

  datatype User = User(
    id: string,
    name: string,
    email: string,
    createdAt: string,
    updatedAt: string)

  datatype Image = Image(publicId: string, url: string)

  /** `technologies` is declared as required, but the list page reads it
      with `?? []`, so a record without it is representable here. */
  datatype Project = Project(
    id: string,
    title: string,
    description: Option<string>,
    url: Option<string>,
    technologies: Option<seq<string>>,
    image: Option<Image>,
    createdAt: string,
    updatedAt: string)

  /** A file the user picked in a file input; its bytes are not modelled. */
  datatype File = File(name: string)
}
