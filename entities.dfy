/** The value objects of the game (src/model/game/game.js): sources and posts
    as shown to the participant, the rules that select them, and their JSON
    form. Each JavaScript class here returns new objects instead of changing
    its own fields, so each is a datatype. The `study` reference these classes
    carry for convenience is not stored: it is the same study throughout. */
module GameEntities {
  import opened Results
  import opened JsonValues
  import opened StudyCatalog

  function Max(a: real, b: real): real {
    if a >= b then a else b
  }

  function Min(a: real, b: real): real {
    if a <= b then a else b
  }

  /** `adjustCredibility`: credibility moves by `change` and stays within [0, 100]. */
  function AdjustCredibility(current: real, change: real): (r: real)
    ensures 0.0 <= r <= 100.0
    ensures 0.0 <= current + change <= 100.0 ==> r == current + change
    ensures current + change < 0.0 ==> r == 0.0
    ensures current + change > 100.0 ==> r == 100.0
  {
    Max(0.0, Min(current + change, 100.0))
  }

  /** `adjustFollowers`: followers move by `change` and never drop below zero. */
  function AdjustFollowers(current: real, change: real): (r: real)
    ensures r >= 0.0
    ensures current + change >= 0.0 ==> r == current + change
    ensures current + change < 0.0 ==> r == 0.0
  {
    Max(0.0, current + change)
  }

  /** `filterArray`: the elements of `s` that `keep` accepts, in order. */
  function Filter<T(==, !new)>(s: seq<T>, keep: T -> bool): (r: seq<T>)
    ensures |r| <= |s|
    ensures forall x :: x in r <==> x in s && keep(x)
  {
    if s == [] then []
    else
      var rest := Filter(s[1..], keep);
      assert forall x :: x in s <==> x == s[0] || x in s[1..];
      if keep(s[0]) then [s[0]] + rest else rest
  }

  /** `selectRandomElement(items, filter)` with a soft filter: an element the
      filter accepts is chosen when there is one, any element otherwise. How the
      element is drawn is not modelled; `choice` stands for the draw. */
  function SelectRandomElement<T(==, !new)>(items: seq<T>, preferred: T -> bool, choice: nat): (r: T)
    requires |items| > 0
    ensures r in items
    ensures (exists x :: x in items && preferred(x)) ==> preferred(r)
  {
    var matching := Filter(items, preferred);
    if |matching| > 0 then matching[choice % |matching|] else items[choice % |items|]
  }

  /** The values the study's distributions produce when a fresh round of
      sources and posts is sampled: `source.credibility.sample()`,
      `source.followers.sample()`, `post.numberOfReactions.sampleAll()` and,
      for the comment at `index`, `comment.numberOfReactions.sampleAll()`. */
  datatype Sampler = Sampler(
    credibility: SourceTemplate -> real,
    followers: SourceTemplate -> real,
    postReactions: PostTemplate -> map<string, real>,
    commentReactions: (PostTemplate, nat) -> map<string, real>)

  /** `GameSource`: a source as shown in the game. `remainingUses` of -1 means
      the source may be used without limit. */
  datatype GameSource = GameSource(
    source: SourceTemplate,
    credibility: real,
    followers: real,
    remainingUses: real)
  {
    /** The filter of `selectRandomSource`: a source without a limit, or one
        with uses left. An exhausted source (0 uses) cannot be used. */
    predicate CanBeUsed()
      ensures CanBeUsed() <==> remainingUses == -1.0 || remainingUses > 0.0
      ensures remainingUses == 0.0 ==> !CanBeUsed()
    {
      remainingUses == -1.0 || remainingUses > 0.0
    }

    /** `adjustAfterPost`: the copy of this source after one of its posts was shown. */
    function AdjustAfterPost(credibilityChange: real, followersChange: real): (r: GameSource)
      ensures r.source == source
      ensures 0.0 <= r.credibility <= 100.0 && r.followers >= 0.0
      ensures 0.0 <= credibility + credibilityChange <= 100.0 ==> r.credibility == credibility + credibilityChange
      ensures followers + followersChange >= 0.0 ==> r.followers == followers + followersChange
      ensures r.remainingUses == if remainingUses >= 0.0 then remainingUses - 1.0 else -1.0
      ensures r.credibility == AdjustCredibility(credibility, credibilityChange)
      ensures r.followers == AdjustFollowers(followers, followersChange)
    {
      GameSource(source,
                 AdjustCredibility(credibility, credibilityChange),
                 AdjustFollowers(followers, followersChange),
                 Max(-1.0, remainingUses - 1.0))
    }

    /** `sampleNewSource`: a fresh instance with sampled credibility and
        followers, whose uses start at the template's `maxPosts`. */
    static function SampleNewSource(source: SourceTemplate, sampler: Sampler): (r: GameSource)
      ensures r.source == source && r.remainingUses == source.maxPosts
      ensures r.credibility == sampler.credibility(source) && r.followers == sampler.followers(source)
    {
      GameSource(source, sampler.credibility(source), sampler.followers(source), source.maxPosts)
    }

    /** `selectRandomSource`: fails iff no source can be used, and otherwise
        returns one that can. The weighting by `maxPosts` is not modelled;
        `choice` stands for the weighted draw. */
    static function SelectRandomSource(sources: seq<GameSource>, choice: nat): (r: Result<GameSource>)
      ensures r.Failure? <==> forall s :: s in sources ==> !s.CanBeUsed()
      ensures r.Success? ==> r.value in sources && r.value.CanBeUsed()
    {
      var available := Filter(sources, (s: GameSource) => s.CanBeUsed());
      if |available| == 0 then Failure("All sources hit their maximum number of posts")
      else
        assert available[0] in available;
        Success(available[choice % |available|])
    }

    /** The position of the first source in `sources` with ID `id`, if any. */
    static function IndexOf(sources: seq<GameSource>, id: string): (r: Option<nat>)
      ensures r.Some? ==> r.value < |sources| && sources[r.value].source.id == id
      ensures r.Some? ==> forall j :: 0 <= j < r.value ==> sources[j].source.id != id
      ensures r.None? <==> forall j :: 0 <= j < |sources| ==> sources[j].source.id != id
    {
      if sources == [] then None
      else if sources[0].source.id == id then Some(0)
      else
        match IndexOf(sources[1..], id)
        case None => None
        case Some(k) => Some(k + 1)
    }

    /** `findById`: the first source with ID `id`, or the error it throws. */
    static method FindById(sources: seq<GameSource>, id: string) returns (r: Result<GameSource>)
      ensures r.Success? <==> IndexOf(sources, id).Some?
      ensures r.Success? ==> r.value == sources[IndexOf(sources, id).value]
      ensures r.Failure? ==> r.error == "Could not find source with ID " + id
    {
      var index := 0;
      while index < |sources|
        invariant 0 <= index <= |sources|
        invariant forall j :: 0 <= j < index ==> sources[j].source.id != id
      {
        if sources[index].source.id == id {
          return Success(sources[index]);
        }
        index := index + 1;
      }
      return Failure("Could not find source with ID " + id);
    }

    /** `toJSON`: the template by its ID, and the three numbers. */
    function ToJson(): (r: Json)
      ensures r.JObj? && r.fields.Keys == {"sourceID", "credibility", "followers", "remainingUses"}
      ensures Field(r, "sourceID") == Some(JStr(source.id))
    {
      JObj(map[
        "sourceID" := JStr(source.id),
        "credibility" := JNum(credibility),
        "followers" := JNum(followers),
        "remainingUses" := JNum(remainingUses)])
    }

    /** `GameSource.fromJSON`: resolves `sourceID` against the study and type-checks the numbers. */
    static function FromJson(j: Json, study: Study): (r: Result<GameSource>)
      ensures r.Success? <==>
        && Field(j, "sourceID").Some? && Field(j, "sourceID").value.JStr?
        && GetSource(study.sources, Field(j, "sourceID").value.s).Some?
        && AsNumber(Field(j, "credibility"), "").Success?
        && AsNumber(Field(j, "followers"), "").Success?
        && AsNumber(Field(j, "remainingUses"), "").Success?
      ensures r.Success? ==> Field(j, "sourceID") == Some(JStr(r.value.source.id))
                             && GetSource(study.sources, r.value.source.id) == Some(r.value.source)
    {
      var id := Field(j, "sourceID");
      var template := if id.Some? && id.value.JStr? then GetSource(study.sources, id.value.s) else None;
      if template.None? then TypeError("Source's Metadata")
      else
        var credibility :- AsNumber(Field(j, "credibility"), "Source's Credibility");
        var followers :- AsNumber(Field(j, "followers"), "Source's Followers");
        var remainingUses :- AsNumber(Field(j, "remainingUses"), "Source's Remaining Uses");
        Success(GameSource(template.value, credibility, followers, remainingUses))
    }
  }

  /** `GamePostComment`: a comment with its sampled reaction counts. */
  datatype GamePostComment = GamePostComment(comment: CommentTemplate, numberOfReactions: map<string, real>)
  {
    /** `toJSON`: only the counts; the template is found again by position. */
    function ToJson(): (r: Json)
      ensures r.JObj? && r.fields.Keys == {"numberOfReactions"}
    {
      JObj(map["numberOfReactions" := NumberMapJson(numberOfReactions)])
    }

    /** `GamePostComment.fromJSON`: the comment at `index` takes the post's
        comment template at that position, which must exist. */
    static function FromJson(j: Json, index: nat, post: PostTemplate): (r: Result<GamePostComment>)
      ensures r.Success? <==> index < |post.comments| && AsNumberMap(Field(j, "numberOfReactions"), "").Success?
      ensures r.Success? ==> r.value.comment == post.comments[index]
                             && Field(j, "numberOfReactions") == Some(NumberMapJson(r.value.numberOfReactions))
    {
      if index >= |post.comments| then TypeError("Comment's Metadata")
      else
        var numberOfReactions :- AsNumberMap(Field(j, "numberOfReactions"), "Number of reactions for the comment");
        Success(GamePostComment(post.comments[index], numberOfReactions))
    }
  }

  /** `GamePost`: a post with sampled reaction counts that may have been shown already. */
  datatype GamePost = GamePost(
    post: PostTemplate,
    numberOfReactions: map<string, real>,
    comments: seq<GamePostComment>,
    shown: bool)
  {
    /** `adjustAfterShown`: the copy of this post once it has been shown. */
    function AdjustAfterShown(): (r: GamePost)
      ensures r.shown
      ensures r.post == post && r.numberOfReactions == numberOfReactions && r.comments == comments
    {
      this.(shown := true)
    }

    /** The fresh instance `sampleNewPost` builds: not shown, and one sampled
        comment instance per comment template, in the template's order. */
    static function SampledPost(post: PostTemplate, sampler: Sampler): (r: GamePost)
      ensures r.post == post && !r.shown && r.numberOfReactions == sampler.postReactions(post)
      ensures |r.comments| == |post.comments|
      ensures forall i :: 0 <= i < |post.comments| ==>
                r.comments[i] == GamePostComment(post.comments[i], sampler.commentReactions(post, i))
    {
      GamePost(post, sampler.postReactions(post),
               seq(|post.comments|, i requires 0 <= i < |post.comments| =>
                     GamePostComment(post.comments[i], sampler.commentReactions(post, i))),
               false)
    }

    /** `sampleNewPost`, with its loop over the post's comment templates. */
    static method SampleNewPost(post: PostTemplate, sampler: Sampler) returns (p: GamePost)
      ensures p == SampledPost(post, sampler)
    {
      var numberOfReactions := sampler.postReactions(post);
      var comments: seq<GamePostComment> := [];
      var index := 0;
      while index < |post.comments|
        invariant 0 <= index <= |post.comments|
        invariant |comments| == index
        invariant forall j :: 0 <= j < index ==>
                    comments[j] == GamePostComment(post.comments[j], sampler.commentReactions(post, j))
      {
        var comment := post.comments[index];
        comments := comments + [GamePostComment(comment, sampler.commentReactions(post, index))];
        index := index + 1;
      }
      p := GamePost(post, numberOfReactions, comments, false);
      assert p.comments == SampledPost(post, sampler).comments;
    }

    /** `selectRandomPost`: fails iff every post has been shown; otherwise returns
        an unshown post, one whose `isTrue` matches the draw
        `100 * random < truePostPercentage` whenever such a post remains. */
    static function SelectRandomPost(posts: seq<GamePost>, truePostPercentage: real, random: real, choice: nat)
      : (r: Result<GamePost>)
      ensures r.Failure? <==> forall p :: p in posts ==> p.shown
      ensures r.Success? ==> r.value in posts && !r.value.shown
      ensures (r.Success? && exists p :: p in posts && !p.shown && p.post.isTrue == (100.0 * random < truePostPercentage))
                ==> r.value.post.isTrue == (100.0 * random < truePostPercentage)
    {
      var selectTruePosts := 100.0 * random < truePostPercentage;
      var availablePosts := Filter(posts, (p: GamePost) => !p.shown);
      if |availablePosts| == 0 then Failure("Used up all available posts")
      else
        var chosen := SelectRandomElement(availablePosts, (p: GamePost) => selectTruePosts == p.post.isTrue, choice);
        assert (exists p :: p in posts && !p.shown && p.post.isTrue == selectTruePosts) ==>
               (exists p :: p in availablePosts && selectTruePosts == p.post.isTrue);
        Success(chosen)
    }

    /** The position of the first post in `posts` with ID `id`, if any. */
    static function IndexOf(posts: seq<GamePost>, id: string): (r: Option<nat>)
      ensures r.Some? ==> r.value < |posts| && posts[r.value].post.id == id
      ensures r.Some? ==> forall j :: 0 <= j < r.value ==> posts[j].post.id != id
      ensures r.None? <==> forall j :: 0 <= j < |posts| ==> posts[j].post.id != id
    {
      if posts == [] then None
      else if posts[0].post.id == id then Some(0)
      else
        match IndexOf(posts[1..], id)
        case None => None
        case Some(k) => Some(k + 1)
    }

    /** `findById`: the first post with ID `id`, or the error it throws. */
    static method FindById(posts: seq<GamePost>, id: string) returns (r: Result<GamePost>)
      ensures r.Success? <==> IndexOf(posts, id).Some?
      ensures r.Success? ==> r.value == posts[IndexOf(posts, id).value]
      ensures r.Failure? ==> r.error == "Could not find post with ID " + id
    {
      var index := 0;
      while index < |posts|
        invariant 0 <= index <= |posts|
        invariant forall j :: 0 <= j < index ==> posts[j].post.id != id
      {
        if posts[index].post.id == id {
          return Success(posts[index]);
        }
        index := index + 1;
      }
      return Failure("Could not find post with ID " + id);
    }

    static function CommentsJson(comments: seq<GamePostComment>): (r: seq<Json>)
      ensures |r| == |comments|
      ensures forall i :: 0 <= i < |comments| ==> r[i] == comments[i].ToJson()
    {
      EncodeAll(comments, (c: GamePostComment) => c.ToJson())
    }

    /** `commentsToJSON`, with its accumulator loop. */
    static method WriteComments(comments: seq<GamePostComment>) returns (json: seq<Json>)
      ensures json == CommentsJson(comments)
    {
      json := [];
      var index := 0;
      while index < |comments|
        invariant 0 <= index <= |comments|
        invariant |json| == index
        invariant forall j :: 0 <= j < index ==> json[j] == comments[j].ToJson()
      {
        json := json + [comments[index].ToJson()];
        index := index + 1;
      }
    }

    static function CommentsFromJson(items: seq<Json>, post: PostTemplate): (r: Result<seq<GamePostComment>>)
      ensures r.Success? <==> (&& |items| <= |post.comments|
                               && forall i :: 0 <= i < |items| ==> AsNumberMap(Field(items[i], "numberOfReactions"), "").Success?)
      ensures r.Success? ==> (&& |r.value| == |items|
                              && forall i :: 0 <= i < |items| ==> GamePostComment.FromJson(items[i], i, post) == Success(r.value[i]))
      ensures r.Failure? ==> exists k :: (&& 0 <= k < |items| && GamePostComment.FromJson(items[k], k, post) == Failure(r.error)
                                          && forall i :: 0 <= i < k ==> GamePostComment.FromJson(items[i], i, post).Success?)
    {
      var decode := (c: Json, i: nat) => GamePostComment.FromJson(c, i, post);
      var r := DecodeAll(items, decode);
      assert r.Success? ==> |items| <= |post.comments| by {
        if r.Success? && |items| > 0 {
          assert decode(items[|items| - 1], |items| - 1).Success?;
        }
      }
      r
    }

    /** `commentsFromJSON`, with its accumulator loop. */
    static method ReadComments(items: seq<Json>, post: PostTemplate) returns (r: Result<seq<GamePostComment>>)
      ensures r == CommentsFromJson(items, post)
    {
      var comments: seq<GamePostComment> := [];
      var index := 0;
      while index < |items|
        invariant 0 <= index <= |items|
        invariant |comments| == index
        invariant forall j :: 0 <= j < index ==> GamePostComment.FromJson(items[j], j, post) == Success(comments[j])
      {
        var comment := GamePostComment.FromJson(items[index], index, post);
        if comment.Failure? {
          ghost var expected := CommentsFromJson(items, post);
          assert expected.Failure?;
          ghost var k :| && 0 <= k < |items| && GamePostComment.FromJson(items[k], k, post) == Failure(expected.error)
                         && forall i :: 0 <= i < k ==> GamePostComment.FromJson(items[i], i, post).Success?;
          assert k == index;
          return Failure(comment.error);
        }
        comments := comments + [comment.value];
        index := index + 1;
      }
      r := Success(comments);
      assert CommentsFromJson(items, post).value == comments;
    }

    /** `toJSON`: the template by its ID, the counts, the comments in order and `shown`. */
    function ToJson(): (r: Json)
      ensures r.JObj? && r.fields.Keys == {"postID", "numberOfReactions", "comments", "shown"}
      ensures Field(r, "postID") == Some(JStr(post.id))
      ensures Field(r, "comments") == Some(JArr(CommentsJson(comments)))
    {
      JObj(map[
        "postID" := JStr(post.id),
        "numberOfReactions" := NumberMapJson(numberOfReactions),
        "comments" := JArr(CommentsJson(comments)),
        "shown" := JBool(shown)])
    }

    /** `GamePost.fromJSON`: resolves `postID` against the study, reads the
        comments against that post's comment templates (looping to
        `comments.length` as JavaScript does), and reads a missing or null
        `shown` as false. */
    static function FromJson(j: Json, study: Study): (r: Result<GamePost>)
      ensures r.Success? ==> Field(j, "postID") == Some(JStr(r.value.post.id))
                             && GetPost(study.posts, r.value.post.id) == Some(r.value.post)
      ensures r.Success? ==> Field(j, "numberOfReactions") == Some(NumberMapJson(r.value.numberOfReactions))
      ensures r.Success? ==> r.value.shown == (Field(j, "shown") == Some(JBool(true)))
    {
      var id := Field(j, "postID");
      var template := if id.Some? && id.value.JStr? then GetPost(study.posts, id.value.s) else None;
      if template.None? then TypeError("Post's Metadata")
      else
        var commentsJson := LoopElements(Field(j, "comments"));
        if commentsJson.None? then TypeError("Comments on Post")
        else
          var comments :- CommentsFromJson(commentsJson.value, template.value);
          var numberOfReactions :- AsNumberMap(Field(j, "numberOfReactions"), "Number of reactions for the post");
          var shown :- AsNullableBool(Field(j, "shown"), "Whether the post has been shown");
          Success(GamePost(template.value, numberOfReactions, comments, shown.GetOr(false)))
    }
  }

  /** `GameState`: what is shown at position `indexInGame` of the game. */
  datatype GameState = GameState(indexInGame: nat, currentSource: GameSource, currentPost: GamePost)
  {
    /** `toJSON`: the source and the post; the index is not written. */
    function ToJson(): (r: Json)
      ensures r.JObj? && r.fields.Keys == {"currentSource", "currentPost"}
      ensures Field(r, "currentSource") == Some(currentSource.ToJson())
      ensures Field(r, "currentPost") == Some(currentPost.ToJson())
    {
      JObj(map["currentSource" := currentSource.ToJson(), "currentPost" := currentPost.ToJson()])
    }

    /** `GameState.fromJSON`: the index is not stored, the caller supplies it. */
    static function FromJson(j: Json, study: Study, indexInGame: nat): (r: Result<GameState>)
      ensures r.Success? ==> r.value.indexInGame == indexInGame
    {
      var currentSource :- GameSource.FromJson(Field(j, "currentSource").GetOr(JNull), study);
      var currentPost :- GamePost.FromJson(Field(j, "currentPost").GetOr(JNull), study);
      Success(GameState(indexInGame, currentSource, currentPost))
    }
  }
}
