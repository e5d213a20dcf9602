/** The fixed list of movie categories and the membership test on category ids. */
module MovieCategories {

  datatype MovieCategory = MovieCategory(id: string, name: string)

  const Categories: seq<MovieCategory> := [
    MovieCategory("action", "Action"),
    MovieCategory("adventure", "Adventure"),
    MovieCategory("comedy", "Comedy"),
    MovieCategory("drama", "Drama"),
    MovieCategory("horror", "Horror"),
    MovieCategory("romance", "Romance"),
    MovieCategory("sci-fi", "Sci-Fi"),
    MovieCategory("thriller", "Thriller"),
    MovieCategory("animation", "Animation"),
    MovieCategory("documentary", "Documentary")
  ]

  /** isMovieCategory: some listed category has exactly this id. */
  predicate IsMovieCategory(value: string) {
    exists k :: 0 <= k < |Categories| && Categories[k].id == value
  }

  /** The ten ids, as a set. */
  lemma IsMovieCategoryIff(value: string)
    ensures IsMovieCategory(value) <==>
      value in {"action", "adventure", "comedy", "drama", "horror", "romance", "sci-fi", "thriller", "animation", "documentary"}
  {
    if value in {"action", "adventure", "comedy", "drama", "horror", "romance", "sci-fi", "thriller", "animation", "documentary"} {
      assert Categories[0].id == "action" && Categories[1].id == "adventure" && Categories[2].id == "comedy";
      assert Categories[3].id == "drama" && Categories[4].id == "horror" && Categories[5].id == "romance";
      assert Categories[6].id == "sci-fi" && Categories[7].id == "thriller" && Categories[8].id == "animation";
      assert Categories[9].id == "documentary";
    }
  }

  lemma CategoryIdsDistinct()
    ensures |Categories| == 10
    ensures forall i, j :: 0 <= i < j < |Categories| ==> Categories[i].id != Categories[j].id
  {
  }

  /** Matching is exact: labels and the empty string are not ids. */
  lemma LabelsRejected()
    ensures !IsMovieCategory("Action") && !IsMovieCategory("Sci-Fi") && !IsMovieCategory("")
    ensures IsMovieCategory("sci-fi")
  {
    assert Categories[6].id == "sci-fi";
  }
}
