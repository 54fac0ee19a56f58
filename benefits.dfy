/** The record every listed offer is stored as. */
module Benefits {
  import opened Wrappers

  /**
   * One student offer. `popularity` is the hand-assigned tie-break score
   * (1 to 10 in the dataset, higher is more popular); `repo` names the GitHub
   * repository (`owner/name`) whose star count ranks the offer, when it has one.
   */
  datatype Benefit = Benefit(
    id: string,
    name: string,
    category: string,
    description: string,
    link: string,
    tags: seq<string>,
    popularity: int,
    repo: Option<string>)

  /** JavaScript truthiness of an optional string: present and not empty. */
  predicate IsNamed(repo: Option<string>) {
    repo.Some? && repo.value != ""
  }
}
