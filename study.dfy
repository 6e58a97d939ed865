/** The study catalogue the game reads: source and post templates and the
    settings game.js consults. The study's own module is not part of this
    model; only the members game.js uses are represented. */
module StudyCatalog {
  import opened Results

  /** A source template: its ID and `maxPosts` (-1 for no limit). */
  datatype SourceTemplate = SourceTemplate(id: string, maxPosts: real)

  /** A comment template on a post. */
  datatype CommentTemplate = CommentTemplate(message: string)

  /** A post template. `changesToCredibility` and `changesToFollowers` are the
      reactions (including "share") for which the study configures a change
      distribution; the sampled values themselves are supplied by the caller. */
  datatype PostTemplate = PostTemplate(
    id: string,
    isTrue: bool,
    comments: seq<CommentTemplate>,
    changesToCredibility: set<string>,
    changesToFollowers: set<string>)

  /** The settings of a study: `length` is `basicSettings.length`,
      `requireIdentification` is `basicSettings.requireIdentification` and
      `genCompletionCode` is `advancedSettings.genCompletionCode`. */
  datatype Study = Study(
    id: string,
    lastModifiedTime: real,
    sources: seq<SourceTemplate>,
    posts: seq<PostTemplate>,
    length: nat,
    requireIdentification: bool,
    genCompletionCode: bool)

  /** What loading a study gives: a study, or a `BrokenStudy` with its error. */
  datatype LoadedStudy = Loaded(study: Study) | Broken(error: string)

  /** The first element of `xs` whose ID is `id`: the lookup behind
      `study.getSource` and `study.getPost`. */
  function FirstWithId<T>(xs: seq<T>, idOf: T -> string, id: string): (r: Option<T>)
    ensures r.Some? <==> exists i :: 0 <= i < |xs| && idOf(xs[i]) == id
    ensures r.Some? ==> r.value in xs && idOf(r.value) == id
  {
    if xs == [] then None
    else if idOf(xs[0]) == id then Some(xs[0])
    else
      var rest := FirstWithId(xs[1..], idOf, id);
      assert forall i :: 1 <= i < |xs| ==> xs[1..][i - 1] == xs[i];
      rest
  }

  /** `study.getSource(id)`: the first source template with that ID. */
  function GetSource(sources: seq<SourceTemplate>, id: string): (r: Option<SourceTemplate>)
    ensures r.Some? <==> exists i :: 0 <= i < |sources| && sources[i].id == id
    ensures r.Some? ==> r.value in sources && r.value.id == id
  {
    FirstWithId(sources, (s: SourceTemplate) => s.id, id)
  }

  /** `study.getPost(id)`: the first post template with that ID. */
  function GetPost(posts: seq<PostTemplate>, id: string): (r: Option<PostTemplate>)
    ensures r.Some? <==> exists i :: 0 <= i < |posts| && posts[i].id == id
    ensures r.Some? ==> r.value in posts && r.value.id == id
  {
    FirstWithId(posts, (p: PostTemplate) => p.id, id)
  }
}
